/** truncateUTF8 (cmd/smind/mcp_review_tools.go). Text is a sequence of bytes; validity is the
    table of section 4 of RFC 3629. */
module Utf8Truncate {
  import opened Common

  /** Not a continuation byte (utf8.RuneStart). */
  predicate RuneStart(b: Byte) { !(0x80 <= b <= 0xBF) }

  predicate Cont(b: Byte) { 0x80 <= b <= 0xBF }

  /** `c` is one encoded code point. */
  predicate CodePoint(c: seq<Byte>) {
    || (|c| == 1 && c[0] <= 0x7F)
    || (|c| == 2 && 0xC2 <= c[0] <= 0xDF && Cont(c[1]))
    || (|c| == 3 && Cont(c[1]) && Cont(c[2]) && 0xE0 <= c[0] <= 0xEF
        && (c[0] == 0xE0 ==> c[1] >= 0xA0) && (c[0] == 0xED ==> c[1] <= 0x9F))
    || (|c| == 4 && Cont(c[1]) && Cont(c[2]) && Cont(c[3]) && 0xF0 <= c[0] <= 0xF4
        && (c[0] == 0xF0 ==> c[1] >= 0x90) && (c[0] == 0xF4 ==> c[1] <= 0x8F))
  }

  function Concat(cs: seq<seq<Byte>>): seq<Byte> {
    if cs == [] then [] else Concat(cs[..|cs| - 1]) + cs[|cs| - 1]
  }

  predicate CodePoints(cs: seq<seq<Byte>>) { forall i :: 0 <= i < |cs| ==> CodePoint(cs[i]) }

  /** A text is valid when it is a sequence of encoded code points. */
  ghost predicate Valid(s: seq<Byte>) { exists cs :: CodePoints(cs) && Concat(cs) == s }

  /** `cut` is where a code point ends. */
  ghost predicate Boundary(cs: seq<seq<Byte>>, cut: int) { exists k :: 0 <= k <= |cs| && |Concat(cs[..k])| == cut }

  lemma {:induction false} PrefixOfConcat(cs: seq<seq<Byte>>, k: nat)
    requires k <= |cs|
    ensures Concat(cs[..k]) <= Concat(cs)
    decreases |cs| - k
  {
    if k == |cs| {
      assert cs[..k] == cs;
    } else {
      PrefixOfConcat(cs, k + 1);
      assert cs[..k + 1][..k] == cs[..k];
    }
  }

  /** The code point that holds the byte at `p`. */
  lemma {:induction false} Locate(cs: seq<seq<Byte>>, p: nat) returns (k: nat)
    requires CodePoints(cs) && p < |Concat(cs)|
    ensures k < |cs| && |Concat(cs[..k])| <= p < |Concat(cs[..k])| + |cs[k]|
  {
    var n := |cs| - 1;
    if p < |Concat(cs[..n])| {
      k := Locate(cs[..n], p);
      assert cs[..n][..k] == cs[..k];
    } else {
      k := n;
    }
  }

  lemma ByteOf(cs: seq<seq<Byte>>, k: nat, i: nat)
    requires k < |cs| && i < |cs[k]|
    ensures |Concat(cs[..k])| + i < |Concat(cs)| && Concat(cs)[|Concat(cs[..k])| + i] == cs[k][i]
  {
    PrefixOfConcat(cs, k + 1);
    assert cs[..k + 1][..k] == cs[..k];
    assert Concat(cs[..k + 1])[|Concat(cs[..k])| + i] == cs[k][i];
  }

  /** In a valid text, code points begin exactly at the bytes that are no continuation. */
  lemma StartsAreBoundaries(cs: seq<seq<Byte>>, p: nat)
    requires CodePoints(cs) && p < |Concat(cs)|
    ensures RuneStart(Concat(cs)[p]) <==> Boundary(cs, p)
  {
    if RuneStart(Concat(cs)[p]) {
      var k := Locate(cs, p);
      ByteOf(cs, k, p - |Concat(cs[..k])|);
      assert |Concat(cs[..k])| == p;
    }
    if Boundary(cs, p) {
      var k :| 0 <= k <= |cs| && |Concat(cs[..k])| == p;
      assert k != |cs| by { assert cs[..|cs|] == cs; }
      assert CodePoint(cs[k]);
      ByteOf(cs, k, 0);
    }
  }

  lemma FirstIsStart(c: seq<Byte>)
    requires CodePoint(c)
    ensures 1 <= |c| <= 4 && RuneStart(c[0])
  {}

  lemma LeadFixesLength(c: seq<Byte>, d: seq<Byte>)
    requires CodePoint(c) && CodePoint(d) && c[0] == d[0]
    ensures |c| == |d|
  {
  }

  /** A code point of the text that begins inside a valid prefix ends inside it. */
  lemma CodePointFits(cs: seq<seq<Byte>>, ds: seq<seq<Byte>>, k: nat)
    requires CodePoints(cs) && CodePoints(ds) && Concat(ds) <= Concat(cs)
    requires k < |cs| && |Concat(cs[..k])| < |Concat(ds)|
    ensures |Concat(cs[..k])| + |cs[k]| <= |Concat(ds)|
  {
    var q := |Concat(cs[..k])|;
    FirstIsStart(cs[k]);
    ByteOf(cs, k, 0);
    StartsAreBoundaries(ds, q);
    var j :| 0 <= j <= |ds| && |Concat(ds[..j])| == q;
    assert j != |ds| by { assert ds[..|ds|] == ds; }
    FirstIsStart(ds[j]);
    ByteOf(ds, j, 0);
    LeadFixesLength(cs[k], ds[j]);
    ByteOf(ds, j, |ds[j]| - 1);
  }

  /** A valid prefix of a valid text splits no code point. */
  lemma ValidPrefixSplitsNothing(cs: seq<seq<Byte>>, ds: seq<seq<Byte>>)
    requires CodePoints(cs) && CodePoints(ds) && Concat(ds) <= Concat(cs) && |Concat(ds)| < |Concat(cs)|
    ensures RuneStart(Concat(cs)[|Concat(ds)|])
  {
    var k := Locate(cs, |Concat(ds)|);
    if |Concat(cs[..k])| < |Concat(ds)| {
      CodePointFits(cs, ds, k);
    } else {
      FirstIsStart(cs[k]);
      ByteOf(cs, k, 0);
    }
  }

  lemma BoundaryPrefixValid(cs: seq<seq<Byte>>, r: seq<Byte>)
    requires CodePoints(cs) && r <= Concat(cs) && Boundary(cs, |r|)
    ensures Valid(r)
  {
    var k :| 0 <= k <= |cs| && |Concat(cs[..k])| == |r|;
    PrefixOfConcat(cs, k);
    assert Concat(cs[..k]) == r;
  }

  /** Cutting a valid text at the last start within the budget. */
  lemma CutIsLongestValid(s: seq<Byte>, max: nat, cut: nat)
    requires Valid(s) && cut <= max < |s|
    requires (cut == 0 || RuneStart(s[cut])) && forall i :: cut < i <= max ==> !RuneStart(s[i])
    ensures Valid(s[..cut]) && max - 3 <= cut
    ensures forall p :: p <= s && |p| <= max && Valid(p) ==> |p| <= cut
  {
    var cs :| CodePoints(cs) && Concat(cs) == s;
    if cut == 0 {
      assert |Concat(cs[..0])| == 0;
    } else {
      StartsAreBoundaries(cs, cut);
    }
    BoundaryPrefixValid(cs, s[..cut]);
    forall p | p <= s && |p| <= max && Valid(p) ensures |p| <= cut {
      var ds :| CodePoints(ds) && Concat(ds) == p;
      ValidPrefixSplitsNothing(cs, ds);
    }
    var k := Locate(cs, max);
    assert CodePoint(cs[k]);
    ByteOf(cs, k, 0);
  }

  /** truncateUTF8. On any bytes it keeps a prefix within the budget; on valid text that prefix
      is the longest valid one, and gives up at most three bytes of the budget. */
  method TruncateUTF8(s: seq<Byte>, max: nat) returns (r: seq<Byte>, truncated: bool)
    ensures truncated <==> |s| > max
    ensures r <= s && |r| <= max && (!truncated ==> r == s)
    ensures truncated ==> (|r| == 0 || RuneStart(s[|r|])) && forall i :: |r| < i <= max ==> !RuneStart(s[i])
    ensures Valid(s) ==> Valid(r) && (truncated ==> max - 3 <= |r|)
    ensures Valid(s) ==> forall p :: p <= s && |p| <= max && Valid(p) ==> |p| <= |r|
  {
    if |s| <= max { return s, false; }
    var cut := max;
    while cut > 0 && !RuneStart(s[cut])
      invariant 0 <= cut <= max
      invariant forall i :: cut < i <= max ==> !RuneStart(s[i])
    {
      cut := cut - 1;
    }
    if Valid(s) { CutIsLongestValid(s, max, cut); }
    return s[..cut], true;
  }
}
