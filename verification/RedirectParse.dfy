/** The pasted-redirect parser (internal/accounts/redirect_parse.go).

    A Go string is a sequence of bytes; here it is a `string` whose characters stand for
    those bytes (character value = byte value, see `IsBytes`). */
module RedirectParse {
  import opened Common

  /** What a vendor redirect delivered: a code and a state, or an error code. */
  datatype CallbackResult = CallbackResult(code: string, state: string, errCode: string)

  datatype ParseResult = Parsed(result: CallbackResult) | BadRedirect

  const MAX_PASTED_REDIRECT_BYTES := 4096
  const MAX_ERR_CODE_BYTES := 64

  predicate IsBytes(s: string) {
    forall i :: 0 <= i < |s| ==> s[i] as int < 256
  }

  // ---------------------------------------------------------------- white space

  predicate AsciiSpace(c: char) {
    c == ' ' || 9 <= c as int <= 13
  }

  predicate TwoByteSpace(a: char, b: char) {
    a as int == 0xC2 && (b as int == 0x85 || b as int == 0xA0)
  }

  /** The UTF-8 forms of U+1680, U+2000..U+200A, U+2028, U+2029, U+202F, U+205F and U+3000. */
  predicate ThreeByteSpace(a: char, b: char, c: char) {
    var (x, y, z) := (a as int, b as int, c as int);
    || (x == 0xE1 && y == 0x9A && z == 0x80)
    || (x == 0xE2 && y == 0x80 && (0x80 <= z <= 0x8A || z == 0xA8 || z == 0xA9 || z == 0xAF))
    || (x == 0xE2 && y == 0x81 && z == 0x9F)
    || (x == 0xE3 && y == 0x80 && z == 0x80)
  }

  /** Length of the white-space rune `s` starts with; 0 if it starts with none. */
  function LeadingSpace(s: string): (n: nat)
    ensures n <= |s|
  {
    if |s| >= 1 && AsciiSpace(s[0]) then 1
    else if |s| >= 2 && TwoByteSpace(s[0], s[1]) then 2
    else if |s| >= 3 && ThreeByteSpace(s[0], s[1], s[2]) then 3
    else 0
  }

  /** Length of the white-space rune `s` ends with; 0 if it ends with none. */
  function TrailingSpace(s: string): (n: nat)
    ensures n <= |s|
  {
    var k := |s|;
    if k >= 1 && AsciiSpace(s[k - 1]) then 1
    else if k >= 2 && TwoByteSpace(s[k - 2], s[k - 1]) then 2
    else if k >= 3 && ThreeByteSpace(s[k - 3], s[k - 2], s[k - 1]) then 3
    else 0
  }

  function TrimLeft(s: string): string
    decreases |s|
  {
    if LeadingSpace(s) == 0 then s else TrimLeft(s[LeadingSpace(s)..])
  }

  function TrimRight(s: string): string
    decreases |s|
  {
    if TrailingSpace(s) == 0 then s else TrimRight(s[..|s| - TrailingSpace(s)])
  }

  function TrimSpace(s: string): string { TrimRight(TrimLeft(s)) }

  // ---------------------------------------------------------------- splitting

  /** Position of the first `c` in `s`, or |s| when there is none. */
  function IndexOf(s: string, c: char): (i: nat)
    ensures i <= |s|
    ensures c !in s[..i]
    ensures i < |s| <==> c in s
    ensures i < |s| ==> s[i] == c
  {
    if s == "" then 0
    else if s[0] == c then 0
    else
      var i := 1 + IndexOf(s[1..], c);
      assert s[..i] == [s[0]] + s[1..][..i - 1];
      i
  }

  function Before(s: string, c: char): string { s[..IndexOf(s, c)] }

  /** What follows the first `c`; "" when there is none. */
  function After(s: string, c: char): string {
    if IndexOf(s, c) < |s| then s[IndexOf(s, c) + 1..] else ""
  }

  function Count(s: string, c: char): nat {
    if s == "" then 0 else (if s[0] == c then 1 else 0) + Count(s[1..], c)
  }

  predicate ContainsAny(s: string, chars: string) {
    exists i :: 0 <= i < |s| && s[i] in chars
  }

  // ---------------------------------------------------------------- query strings

  predicate IsHex(c: char) { '0' <= c <= '9' || 'a' <= c <= 'f' || 'A' <= c <= 'F' }

  function HexValue(c: char): (n: nat)
    requires IsHex(c)
    ensures n < 16
  {
    if '0' <= c <= '9' then c as int - '0' as int
    else if 'a' <= c <= 'f' then c as int - 'a' as int + 10
    else c as int - 'A' as int + 10
  }

  /** url.QueryUnescape: '+' is a space, %HH a byte, a malformed escape an error. */
  function Unescape(s: string): Option<string> {
    if s == "" then Some("")
    else if s[0] == '%' then
      if |s| < 3 || !IsHex(s[1]) || !IsHex(s[2]) then None
      else
        match Unescape(s[3..])
        case None => None
        case Some(t) => Some([(16 * HexValue(s[1]) + HexValue(s[2])) as char] + t)
    else
      match Unescape(s[1..])
      case None => None
      case Some(t) => Some([if s[0] == '+' then ' ' else s[0]] + t)
  }

  /** url.ParseQuery: the key/value pairs in order, or None for any malformed part. */
  function ParseQuery(q: string): Option<seq<(string, string)>>
    decreases |q|
  {
    if q == "" then Some([])
    else
      var part := Before(q, '&');
      match ParseQuery(After(q, '&'))
      case None => None
      case Some(rest) =>
        if ';' in part then None
        else if part == "" then Some(rest)
        else
          match (Unescape(Before(part, '=')), Unescape(After(part, '=')))
          case (Some(k), Some(v)) => Some([(k, v)] + rest)
          case _ => None
  }

  /** url.Values.Get: the first value of `key`, or "". */
  function Get(pairs: seq<(string, string)>, key: string): string {
    if pairs == [] then ""
    else if pairs[0].0 == key then pairs[0].1
    else Get(pairs[1..], key)
  }

  // ---------------------------------------------------------------- the parser

  predicate ErrCodeChar(c: char) { 'a' <= c <= 'z' || c == '_' }

  function SafeErrCode(s: string): (r: string)
    ensures |r| <= 64
    ensures forall i :: 0 <= i < |r| ==> ErrCodeChar(r[i])
    ensures s != "" ==> r != ""
    ensures r == s || r == "error"
    ensures |s| <= 64 && (forall i :: 0 <= i < |s| ==> ErrCodeChar(s[i])) ==> r == s
  {
    if |s| > MAX_ERR_CODE_BYTES then "error"
    else if forall i :: 0 <= i < |s| ==> ErrCodeChar(s[i]) then s
    else "error"
  }

  function SplitCodeHash(s: string): Option<(string, string)> {
    if Count(s, '#') != 1 || ContainsAny(s, "=&/:? \t\r\n") then None
    else if Before(s, '#') == "" || After(s, '#') == "" then None
    else Some((Before(s, '#'), After(s, '#')))
  }

  /** The query part of `rest`, a paste without its fragment. */
  function QueryOf(rest: string): string {
    if '?' in rest then After(rest, '?')
    else if '/' !in rest then rest
    else ""
  }

  function GetEither(q: seq<(string, string)>, f: seq<(string, string)>, key: string): string {
    if Get(q, key) != "" then Get(q, key) else Get(f, key)
  }

  /** The result read from the query pairs `q` and, where a key is absent there, the
      fragment pairs `f`. */
  function FromQueries(q: seq<(string, string)>, f: seq<(string, string)>): (r: ParseResult)
    ensures r.Parsed? && r.result.errCode == "" ==> r.result.code != ""
    ensures r.Parsed? ==> |r.result.errCode| <= MAX_ERR_CODE_BYTES
    ensures r.Parsed? ==> forall i :: 0 <= i < |r.result.errCode| ==> ErrCodeChar(r.result.errCode[i])
  {
    var code, state, e := GetEither(q, f, "code"), GetEither(q, f, "state"), GetEither(q, f, "error");
    if e != "" then Parsed(CallbackResult(code, state, SafeErrCode(e)))
    else if code == "" then BadRedirect
    else Parsed(CallbackResult(code, state, ""))
  }

  function ParsePastedRedirect(text: string): (r: ParseResult)
    ensures r.Parsed? && r.result.errCode == "" ==> r.result.code != ""
    ensures r.Parsed? ==> |r.result.errCode| <= MAX_ERR_CODE_BYTES
    ensures r.Parsed? ==> forall i :: 0 <= i < |r.result.errCode| ==> ErrCodeChar(r.result.errCode[i])
  {
    var s := TrimSpace(text);
    if s == "" || |s| > MAX_PASTED_REDIRECT_BYTES then BadRedirect
    else
      match SplitCodeHash(s)
      case Some(p) => Parsed(CallbackResult(p.0, p.1, ""))
      case None =>
        match (ParseQuery(QueryOf(Before(s, '#'))), ParseQuery(After(s, '#')))
        case (Some(q), Some(f)) => FromQueries(q, f)
        case _ => BadRedirect
  }

  // ---------------------------------------------------------------- form encoding

  predicate Unreserved(c: char) {
    || 'a' <= c <= 'z' || 'A' <= c <= 'Z' || '0' <= c <= '9'
    || c == '-' || c == '.' || c == '_' || c == '~' || c == '*'
  }

  predicate EncodedChar(c: char) { Unreserved(c) || c == '+' || c == '%' }

  /** `enc` is some application/x-www-form-urlencoded spelling of the bytes `raw`
      (appendix B of RFC 6749): unreserved bytes as themselves, a space as '+', and
      any byte as %HH in either case of hex digit. */
  predicate FormEncodes(enc: string, raw: string)
    decreases |enc|
  {
    if enc == "" then raw == ""
    else
      && raw != ""
      && if enc[0] == '%' then
        && |enc| >= 3 && IsHex(enc[1]) && IsHex(enc[2])
        && raw[0] as int == 16 * HexValue(enc[1]) + HexValue(enc[2])
        && FormEncodes(enc[3..], raw[1..])
      else if enc[0] == '+' then raw[0] == ' ' && FormEncodes(enc[1..], raw[1..])
      else Unreserved(enc[0]) && raw[0] == enc[0] && FormEncodes(enc[1..], raw[1..])
  }

  function HexDigit(n: nat): (c: char)
    requires n < 16
    ensures IsHex(c) && HexValue(c) == n
  {
    if n < 10 then ('0' as int + n) as char else ('A' as int + n - 10) as char
  }

  /** Go's url.QueryEscape; its contract says that every byte string has a spelling. */
  function QueryEscape(raw: string): (enc: string)
    requires IsBytes(raw)
    ensures FormEncodes(enc, raw)
  {
    if raw == "" then ""
    else
      var c := raw[0];
      var head :=
        if Unreserved(c) && c != '*' then [c]
        else if c == ' ' then "+"
        else ['%', HexDigit(c as int / 16), HexDigit(c as int % 16)];
      var tail := QueryEscape(raw[1..]);
      assert (head + tail)[|head|..] == tail;
      head + tail
  }

  /** One key=value part. */
  function PairText(e: (string, string)): string { e.0 + ['='] + e.1 }

  /** A query (section 4.1.2 of RFC 6749): encoded keys and values in any order. */
  function QueryText(es: seq<(string, string)>): string {
    if es == [] then ""
    else if |es| == 1 then PairText(es[0])
    else PairText(es[0]) + ['&'] + QueryText(es[1..])
  }

  predicate EncodesPair(e: (string, string), p: (string, string)) {
    FormEncodes(e.0, p.0) && FormEncodes(e.1, p.1)
  }

  /** `es` spells the keys and values `ps`. */
  predicate EncodesAll(es: seq<(string, string)>, ps: seq<(string, string)>) {
    |es| == |ps| && forall i :: 0 <= i < |es| ==> EncodesPair(es[i], ps[i])
  }

  /** The fragment of a redirect, if it has one. */
  function FragmentText(es: seq<(string, string)>): string { if es == [] then "" else ['#'] + QueryText(es) }

  // ---------------------------------------------------------------- round trips

  lemma {:induction false} EncodedUnescapes(enc: string, raw: string)
    requires FormEncodes(enc, raw)
    ensures Unescape(enc) == Some(raw)
    decreases |enc|
  {
    if enc != "" {
      EncodedUnescapes(enc[if enc[0] == '%' then 3 else 1..], raw[1..]);
      assert raw == [raw[0]] + raw[1..];
    }
  }

  predicate AllEncoded(s: string) { forall i :: 0 <= i < |s| ==> EncodedChar(s[i]) }

  lemma {:induction false} EncodedText(enc: string, raw: string)
    requires FormEncodes(enc, raw)
    ensures AllEncoded(enc)
    decreases |enc|
  {
    if enc != "" {
      var k := if enc[0] == '%' then 3 else 1;
      EncodedText(enc[k..], raw[1..]);
      forall i | 0 <= i < |enc| ensures EncodedChar(enc[i]) {
        if i >= k { assert enc[i] == enc[k..][i - k]; }
      }
    }
  }

  lemma IndexOfSplit(a: string, c: char, b: string)
    requires c !in a
    ensures Before(a + [c] + b, c) == a && After(a + [c] + b, c) == b
  {
    var s := a + [c] + b;
    assert s[|a|] == c;
    assert s[|a|] in s;
    assert IndexOf(s, c) <= |a| by {
      assert forall k :: |a| < k <= |s| ==> s[..k][|a|] == c;
    }
    assert IndexOf(s, c) >= |a| by {
      assert forall k :: 0 <= k < |a| ==> s[k] in a;
    }
  }

  lemma IndexOfAbsent(s: string, c: char)
    requires c !in s
    ensures Before(s, c) == s && After(s, c) == ""
  {}

  lemma EncodedIsSafe(enc: string, raw: string)
    requires FormEncodes(enc, raw)
    ensures Unescape(enc) == Some(raw) && AllEncoded(enc)
    ensures '=' !in enc && ';' !in enc && '&' !in enc
  {
    EncodedUnescapes(enc, raw);
    EncodedText(enc, raw);
  }

  lemma PairReads(e: (string, string), p: (string, string))
    requires EncodesPair(e, p)
    ensures var part := PairText(e);
      && ';' !in part && '&' !in part && part != ""
      && Unescape(Before(part, '=')) == Some(p.0) && Unescape(After(part, '=')) == Some(p.1)
  {
    EncodedIsSafe(e.0, p.0);
    EncodedIsSafe(e.1, p.1);
    IndexOfSplit(e.0, '=', e.1);
  }

  lemma MorePairs(es: seq<(string, string)>, ps: seq<(string, string)>, rest: string, qs: seq<(string, string)>)
    requires |es| > 1 && ps != [] && EncodesPair(es[0], ps[0])
    requires rest == QueryText(es[1..]) && qs == ps[1..] && ParseQuery(rest) == Some(qs)
    ensures ParseQuery(QueryText(es)) == Some(ps)
  {
    PairReads(es[0], ps[0]);
    FirstPart(PairText(es[0]), ps[0].0, ps[0].1, rest, qs);
    assert ps == [ps[0]] + qs;
  }

  lemma OnePair(es: seq<(string, string)>, ps: seq<(string, string)>)
    requires |es| == |ps| == 1 && EncodesPair(es[0], ps[0])
    ensures ParseQuery(QueryText(es)) == Some(ps)
  {
    PairReads(es[0], ps[0]);
    LastPart(PairText(es[0]), ps[0].0, ps[0].1);
    assert ps == [ps[0]];
  }

  lemma EncodesTail(es: seq<(string, string)>, ps: seq<(string, string)>)
    requires EncodesAll(es, ps) && es != []
    ensures EncodesPair(es[0], ps[0]) && EncodesAll(es[1..], ps[1..])
  {}

  /** A query parses to its keys and values, in order. */
  lemma {:induction false} QueryParses(es: seq<(string, string)>, ps: seq<(string, string)>)
    requires EncodesAll(es, ps)
    ensures ParseQuery(QueryText(es)) == Some(ps)
  {
    if es == [] {
      assert ps == [];
    } else {
      EncodesTail(es, ps);
      if |es| == 1 {
        OnePair(es, ps);
      } else {
        QueryParses(es[1..], ps[1..]);
        MorePairs(es, ps, QueryText(es[1..]), ps[1..]);
      }
    }
  }

  lemma FirstPart(part: string, k: string, v: string, rest: string, pairs: seq<(string, string)>)
    requires part != "" && ';' !in part && '&' !in part
    requires Unescape(Before(part, '=')) == Some(k) && Unescape(After(part, '=')) == Some(v)
    requires ParseQuery(rest) == Some(pairs)
    ensures ParseQuery(part + ['&'] + rest) == Some([(k, v)] + pairs)
  {
    IndexOfSplit(part, '&', rest);
  }

  lemma LastPart(part: string, k: string, v: string)
    requires part != "" && ';' !in part && '&' !in part
    requires Unescape(Before(part, '=')) == Some(k) && Unescape(After(part, '=')) == Some(v)
    ensures ParseQuery(part) == Some([(k, v)])
  {
    IndexOfAbsent(part, '&');
    assert [(k, v)] + [] == [(k, v)];
  }

  /** One white-space rune. */
  predicate SpaceRune(r: string) {
    || (|r| == 1 && AsciiSpace(r[0]))
    || (|r| == 2 && TwoByteSpace(r[0], r[1]))
    || (|r| == 3 && ThreeByteSpace(r[0], r[1], r[2]))
  }

  predicate AllRunes(rs: seq<string>) { forall i :: 0 <= i < |rs| ==> SpaceRune(rs[i]) }

  function Flat(rs: seq<string>): string {
    if rs == [] then "" else Flat(rs[..|rs| - 1]) + rs[|rs| - 1]
  }

  /** Nothing but white space, ASCII or not. */
  ghost predicate AllSpace(s: string) { exists rs :: AllRunes(rs) && Flat(rs) == s }

  lemma Associates(a: string, b: string, c: string)
    ensures a + b + c == a + (b + c)
  {}

  lemma {:induction false} FlatCons(rs: seq<string>)
    requires rs != []
    ensures Flat(rs) == rs[0] + Flat(rs[1..])
  {
    var n := |rs| - 1;
    if n > 0 {
      var mid := rs[1..n];
      FlatCons(rs[..n]);
      assert rs[..n][1..] == mid && rs[1..][..n - 1] == mid && rs[1..][n - 1] == rs[n];
      Associates(rs[0], Flat(mid), rs[n]);
    } else {
      assert rs[..n] == [] && rs[1..] == [];
    }
  }

  lemma TrimLeftRune(r: string, s: string)
    requires SpaceRune(r)
    ensures TrimLeft(r + s) == TrimLeft(s)
  {
    assert forall i :: 0 <= i < |r| ==> (r + s)[i] == r[i];
    assert LeadingSpace(r + s) == |r|;
    assert (r + s)[|r|..] == s;
  }

  lemma TrimRightRune(s: string, r: string)
    requires SpaceRune(r)
    ensures TrimRight(s + r) == TrimRight(s)
  {
    RuneEnds(s, r);
    assert (s + r)[..|s|] == s;
  }

  lemma TrimLeftStep(r: string, rest: string, core: string)
    requires SpaceRune(r) && TrimLeft(rest + core) == core
    ensures TrimLeft(r + rest + core) == core
  {
    TrimLeftRune(r, rest + core);
    Associates(r, rest, core);
  }

  lemma NothingToTrimLeft(none: string, core: string)
    requires none == "" && LeadingSpace(core) == 0
    ensures TrimLeft(none + core) == core
  {
    assert none + core == core;
  }

  lemma {:induction false} TrimLeftPad(rs: seq<string>, core: string)
    requires AllRunes(rs) && LeadingSpace(core) == 0
    ensures TrimLeft(Flat(rs) + core) == core
  {
    if rs == [] {
      NothingToTrimLeft(Flat(rs), core);
    } else {
      FlatCons(rs);
      TrimLeftPad(rs[1..], core);
      TrimLeftStep(rs[0], Flat(rs[1..]), core);
    }
  }

  lemma TrimRightStep(core: string, rest: string, r: string)
    requires SpaceRune(r) && TrimRight(core + rest) == core
    ensures TrimRight(core + (rest + r)) == core
  {
    TrimRightRune(core + rest, r);
    assert core + (rest + r) == core + rest + r;
  }

  lemma NothingToTrim(core: string, none: string)
    requires none == "" && TrailingSpace(core) == 0
    ensures TrimRight(core + none) == core
  {
    assert core + none == core;
  }

  lemma {:induction false} TrimRightPad(core: string, rs: seq<string>)
    requires AllRunes(rs) && TrailingSpace(core) == 0
    ensures TrimRight(core + Flat(rs)) == core
    decreases |rs|
  {
    if rs == [] {
      NothingToTrim(core, Flat(rs));
    } else {
      var n := |rs| - 1;
      TrimRightPad(core, rs[..n]);
      TrimRightStep(core, Flat(rs[..n]), rs[n]);
    }
  }

  /** Surrounding white space is dropped and nothing else. */
  lemma TrimPads(left: string, core: string, right: string)
    requires AllSpace(left) && AllSpace(right) && core != ""
    requires LeadingSpace(core) == 0 && TrailingSpace(core) == 0
    ensures TrimSpace(left + core + right) == core
  {
    var ls :| AllRunes(ls) && Flat(ls) == left;
    var rs :| AllRunes(rs) && Flat(rs) == right;
    LeadingSpaceExtends(core, rs);
    assert left + core + right == left + (core + right);
    TrimLeftPad(ls, core + right);
    TrimRightPad(core, rs);
  }

  ghost predicate StartsWithSpace(s: string) { exists r :: SpaceRune(r) && r <= s }

  ghost predicate EndsWithSpace(s: string) { exists r :: SpaceRune(r) && |r| <= |s| && s[|s| - |r|..] == r }

  lemma LeadingSpaceIff(s: string)
    ensures LeadingSpace(s) > 0 <==> StartsWithSpace(s)
  {
    var n := LeadingSpace(s);
    if n > 0 { assert SpaceRune(s[..n]) && s[..n] <= s; }
    if r :| SpaceRune(r) && r <= s { assert forall i :: 0 <= i < |r| ==> r[i] == s[i]; }
  }

  lemma TrailingSpaceIff(s: string)
    ensures TrailingSpace(s) > 0 <==> EndsWithSpace(s)
  {
    if TrailingSpace(s) > 0 { TrailingRune(s); }
    if r :| SpaceRune(r) && |r| <= |s| && s[|s| - |r|..] == r {
      var head := s[..|s| - |r|];
      assert s == head + r;
      RuneEnds(head, r);
    }
  }

  lemma TrailingRune(s: string)
    requires TrailingSpace(s) > 0
    ensures SpaceRune(s[|s| - TrailingSpace(s)..])
  {}

  lemma RuneEnds(s: string, r: string)
    requires SpaceRune(r)
    ensures TrailingSpace(s + r) == |r|
  {
    assert forall i :: 0 <= i < |r| ==> (s + r)[|s| + i] == r[i];
  }

  lemma PrependRune(r: string, space: string)
    requires SpaceRune(r) && AllSpace(space)
    ensures AllSpace(r + space)
  {
    var rs :| AllRunes(rs) && Flat(rs) == space;
    assert ([r] + rs)[1..] == rs;
    FlatCons([r] + rs);
    assert AllRunes([r] + rs);
  }

  lemma AppendRune(space: string, r: string)
    requires SpaceRune(r) && AllSpace(space)
    ensures AllSpace(space + r)
  {
    var rs :| AllRunes(rs) && Flat(rs) == space;
    assert (rs + [r])[..|rs|] == rs;
    assert AllRunes(rs + [r]) && Flat(rs + [r]) == space + r;
  }

  lemma NoSpace()
    ensures AllSpace("")
  {
    assert AllRunes([]) && Flat([]) == "";
  }

  lemma {:induction false} TrimLeftDrops(s: string) returns (left: string)
    ensures AllSpace(left) && left + TrimLeft(s) == s && LeadingSpace(TrimLeft(s)) == 0
    decreases |s|
  {
    var n := LeadingSpace(s);
    if n == 0 {
      NoSpace();
      left := "";
    } else {
      var head, tail := s[..n], s[n..];
      var rest := TrimLeftDrops(tail);
      PrependRune(head, rest);
      left := head + rest;
      Associates(head, rest, TrimLeft(tail));
      assert head + tail == s && TrimLeft(s) == TrimLeft(tail);
    }
  }

  lemma TrimsRune(s: string, head: string, tail: string)
    requires s == head + tail && |tail| == TrailingSpace(s) > 0
    ensures TrimRight(s) == TrimRight(head)
  {
    assert s[..|s| - TrailingSpace(s)] == head;
  }

  lemma {:induction false} TrimRightDrops(s: string) returns (right: string)
    ensures AllSpace(right) && TrimRight(s) + right == s && TrailingSpace(TrimRight(s)) == 0
    decreases |s|
  {
    var k := |s| - TrailingSpace(s);
    if k == |s| {
      NoSpace();
      right := "";
    } else {
      var head, tail := s[..k], s[k..];
      var rest := TrimRightDrops(head);
      TrailingRune(s);
      AppendRune(rest, tail);
      right := rest + tail;
      Associates(TrimRight(head), rest, tail);
      TrimsRune(s, head, tail);
    }
  }

  /** On any text, what trimming drops in front and behind is white space, and what it leaves neither
      starts nor ends with any. */
  lemma TrimSpaceMeaning(s: string)
    ensures exists left, right :: AllSpace(left) && AllSpace(right) && s == left + TrimSpace(s) + right
    ensures !StartsWithSpace(TrimSpace(s)) && !EndsWithSpace(TrimSpace(s))
  {
    var left := TrimLeftDrops(s);
    var right := TrimRightDrops(TrimLeft(s));
    Associates(left, TrimSpace(s), right);
    LeadingSpaceIff(TrimSpace(s));
    LeadingSpaceIff(TrimLeft(s));
    TrailingSpaceIff(TrimSpace(s));
  }

  /** White space after it cannot turn a non-space start into a space rune. */
  lemma LeadingSpaceExtends(core: string, rs: seq<string>)
    requires AllRunes(rs) && core != "" && LeadingSpace(core) == 0
    ensures LeadingSpace(core + Flat(rs)) == 0
  {
    var s := core + Flat(rs);
    assert forall i :: 0 <= i < |core| ==> s[i] == core[i];
    if rs == [] {
      assert s == core;
    } else {
      FlatCons(rs);
      assert s[|core|] == rs[0][0];
    }
  }

  lemma {:induction false} CountAbsent(s: string, c: char)
    ensures Count(s, c) == 0 <==> c !in s
  {
    if s != "" {
      CountAbsent(s[1..], c);
      assert s == [s[0]] + s[1..];
    }
  }

  lemma {:induction false} CountAppend(a: string, b: string, c: char)
    ensures Count(a + b, c) == Count(a, c) + Count(b, c)
  {
    if a == "" {
      assert a + b == b;
    } else {
      CountAppend(a[1..], b, c);
      assert (a + b)[1..] == a[1..] + b;
    }
  }

  predicate QueryChar(c: char) { EncodedChar(c) || c == '=' || c == '&' }

  predicate AllQuery(s: string) { forall i :: 0 <= i < |s| ==> QueryChar(s[i]) }

  lemma {:induction false} QueryShape(es: seq<(string, string)>, ps: seq<(string, string)>)
    requires EncodesAll(es, ps)
    ensures AllQuery(QueryText(es)) && (es != [] ==> '=' in QueryText(es))
  {
    if es != [] {
      EncodedIsSafe(es[0].0, ps[0].0);
      EncodedIsSafe(es[0].1, ps[0].1);
      assert PairText(es[0])[|es[0].0|] == '=';
      if |es| > 1 { QueryShape(es[1..], ps[1..]); }
    }
  }

  predicate Visible(c: char) { c as int < 128 && !AsciiSpace(c) }

  lemma QueryIsVisible(s: string)
    requires AllQuery(s)
    ensures '#' !in s && '?' !in s && '/' !in s && forall i :: 0 <= i < |s| ==> Visible(s[i])
  {}

  lemma VisibleEnd(s: string)
    requires s != "" && Visible(s[|s| - 1])
    ensures TrailingSpace(s) == 0
  {}

  lemma VisibleJoint(base: string, rest: string)
    requires LeadingSpace(base) == 0 && rest != "" && Visible(rest[0])
    ensures LeadingSpace(base + rest) == 0
  {
    var s := base + rest;
    assert s[|base|] == rest[0];
    assert forall i :: 0 <= i < |base| ==> s[i] == base[i];
  }

  lemma QueryAfterHash(front: string, q: string)
    requires '#' !in front && '=' in q
    ensures var core := front + ['#'] + q;
      SplitCodeHash(core).None? && Before(core, '#') == front && After(core, '#') == q
  {
    var core := front + ['#'] + q;
    IndexOfSplit(front, '#', q);
    var i :| 0 <= i < |q| && q[i] == '=';
    assert core[|front| + 1 + i] == '=';
  }

  lemma NotCodeHash(front: string, fe: seq<(string, string)>, fp: seq<(string, string)>)
    requires '#' !in front && EncodesAll(fe, fp)
    ensures var core := front + FragmentText(fe);
      && SplitCodeHash(core).None? && Before(core, '#') == front && After(core, '#') == QueryText(fe)
  {
    if fe == [] {
      assert front + FragmentText(fe) == front;
      CountAbsent(front, '#');
      IndexOfAbsent(front, '#');
    } else {
      assert '=' in QueryText(fe) by { QueryShape(fe, fp); }
      assert front + FragmentText(fe) == front + ['#'] + QueryText(fe);
      QueryAfterHash(front, QueryText(fe));
    }
  }

  /** A trimmed text with a query and a fragment gives what their keys and values say. */
  lemma CoreParses(text: string, front: string, es: seq<(string, string)>, ps: seq<(string, string)>,
                   fe: seq<(string, string)>, fp: seq<(string, string)>)
    requires EncodesAll(es, ps) && EncodesAll(fe, fp)
    requires '#' !in front && QueryOf(front) == QueryText(es)
    requires TrimSpace(text) == front + FragmentText(fe)
    requires 0 < |front + FragmentText(fe)| <= MAX_PASTED_REDIRECT_BYTES
    ensures ParsePastedRedirect(text) == FromQueries(ps, fp)
  {
    NotCodeHash(front, fe, fp);
    QueryParses(es, ps);
    QueryParses(fe, fp);
  }

  lemma FragmentShape(fe: seq<(string, string)>, fp: seq<(string, string)>)
    requires EncodesAll(fe, fp) && fe != []
    ensures var f := FragmentText(fe); |f| >= 2 && f[0] == '#' && Visible(f[|f| - 1])
  {
    QueryShape(fe, fp);
    QueryIsVisible(QueryText(fe));
  }

  /** Trimming drops nothing of a redirect that starts visibly or with `base`. */
  lemma TrimsToCore(left: string, base: string, rest: string, right: string)
    requires AllSpace(left) && AllSpace(right) && LeadingSpace(base) == 0
    requires rest != "" && Visible(rest[0]) && Visible(rest[|rest| - 1])
    ensures TrimSpace(left + (base + rest) + right) == base + rest
  {
    VisibleJoint(base, rest);
    assert (base + rest)[|base + rest| - 1] == rest[|rest| - 1];
    VisibleEnd(base + rest);
    TrimPads(left, base + rest, right);
  }

  lemma UrlFront(base: string, q: string)
    requires '?' !in base && '#' !in base && AllQuery(q)
    ensures QueryOf(base + ['?'] + q) == q && '#' !in base + ['?'] + q
  {
    QueryIsVisible(q);
    IndexOfSplit(base, '?', q);
    assert (base + ['?'] + q)[|base|] == '?';
  }

  lemma UrlRest(es: seq<(string, string)>, ps: seq<(string, string)>,
                fe: seq<(string, string)>, fp: seq<(string, string)>)
    requires EncodesAll(es, ps) && EncodesAll(fe, fp)
    ensures var rest := ['?'] + QueryText(es) + FragmentText(fe);
      rest[0] == '?' && Visible(rest[|rest| - 1])
  {
    var q := QueryText(es);
    if fe == [] {
      QueryShape(es, ps);
      QueryIsVisible(q);
      assert ['?'] + q + FragmentText(fe) == ['?'] + q;
    } else {
      FragmentShape(fe, fp);
    }
  }

  lemma UrlTrims(left: string, base: string, q: string, f: string, right: string)
    requires AllSpace(left) && AllSpace(right) && LeadingSpace(base) == 0
    requires var rest := ['?'] + q + f; Visible(rest[|rest| - 1])
    ensures TrimSpace(left + (base + ['?'] + q + f) + right) == base + ['?'] + q + f
  {
    var rest := ['?'] + q + f;
    assert base + ['?'] + q + f == base + rest;
    TrimsToCore(left, base, rest, right);
  }

  /** Round trip of the full URL and of "?query", with or without a fragment: any base without '?'
      and '#', any encoding of any keys and values in any order, white space around it. */
  lemma UrlRoundTrip(left: string, base: string, es: seq<(string, string)>, ps: seq<(string, string)>,
                     fe: seq<(string, string)>, fp: seq<(string, string)>, right: string)
    requires AllSpace(left) && AllSpace(right) && '?' !in base && '#' !in base && LeadingSpace(base) == 0
    requires EncodesAll(es, ps) && EncodesAll(fe, fp)
    requires |base + ['?'] + QueryText(es) + FragmentText(fe)| <= MAX_PASTED_REDIRECT_BYTES
    ensures ParsePastedRedirect(left + (base + ['?'] + QueryText(es) + FragmentText(fe)) + right) == FromQueries(ps, fp)
  {
    assert AllQuery(QueryText(es)) by { QueryShape(es, ps); }
    UrlFront(base, QueryText(es));
    UrlRest(es, ps, fe, fp);
    UrlTrims(left, base, QueryText(es), FragmentText(fe), right);
    CoreParses(left + (base + ['?'] + QueryText(es) + FragmentText(fe)) + right,
               base + ['?'] + QueryText(es), es, ps, fe, fp);
  }

  lemma BareFront(es: seq<(string, string)>, ps: seq<(string, string)>)
    requires EncodesAll(es, ps) && es != []
    ensures var q := QueryText(es);
      q != "" && Visible(q[0]) && Visible(q[|q| - 1]) && '#' !in q && QueryOf(q) == q
  {
    QueryShape(es, ps);
    QueryIsVisible(QueryText(es));
  }

  lemma BareRest(es: seq<(string, string)>, ps: seq<(string, string)>,
                 fe: seq<(string, string)>, fp: seq<(string, string)>)
    requires EncodesAll(es, ps) && EncodesAll(fe, fp) && es != []
    ensures var rest := QueryText(es) + FragmentText(fe);
      rest != "" && Visible(rest[0]) && Visible(rest[|rest| - 1])
  {
    BareFront(es, ps);
    if fe == [] {
      assert QueryText(es) + FragmentText(fe) == QueryText(es);
    } else {
      FragmentShape(fe, fp);
    }
  }

  /** Round trip of the bare query, with or without a fragment. */
  lemma BareQueryRoundTrip(left: string, es: seq<(string, string)>, ps: seq<(string, string)>,
                           fe: seq<(string, string)>, fp: seq<(string, string)>, right: string)
    requires AllSpace(left) && AllSpace(right) && es != []
    requires EncodesAll(es, ps) && EncodesAll(fe, fp)
    requires |QueryText(es) + FragmentText(fe)| <= MAX_PASTED_REDIRECT_BYTES
    ensures ParsePastedRedirect(left + (QueryText(es) + FragmentText(fe)) + right) == FromQueries(ps, fp)
  {
    var q, f := QueryText(es), FragmentText(fe);
    BareFront(es, ps);
    BareRest(es, ps, fe, fp);
    assert "" + (q + f) == q + f;
    TrimsToCore(left, "", q + f, right);
    CoreParses(left + (q + f) + right, q, es, ps, fe, fp);
  }

  /** Round trip of a redirect that carries everything in its fragment. */
  lemma FragmentRoundTrip(
    left: string, base: string, fe: seq<(string, string)>, fp: seq<(string, string)>, right: string)
    requires AllSpace(left) && AllSpace(right) && LeadingSpace(base) == 0
    requires '?' !in base && '#' !in base && ('/' in base || base == "")
    requires EncodesAll(fe, fp) && fe != []
    requires |base + FragmentText(fe)| <= MAX_PASTED_REDIRECT_BYTES
    ensures ParsePastedRedirect(left + (base + FragmentText(fe)) + right) == FromQueries([], fp)
  {
    FragmentShape(fe, fp);
    TrimsToCore(left, base, FragmentText(fe), right);
    assert QueryOf(base) == QueryText([]);
    CoreParses(left + (base + FragmentText(fe)) + right, base, [], [], fe, fp);
  }

  // ---------------------------------------------------------------- what the fields say

  /** `key` occurs once among the pairs, with value `v`. */
  predicate Sole(ps: seq<(string, string)>, key: string, v: string) {
    exists i :: 0 <= i < |ps| && ps[i] == (key, v) && forall j :: 0 <= j < |ps| && ps[j].0 == key ==> j == i
  }

  predicate Lacks(ps: seq<(string, string)>, key: string) { forall i :: 0 <= i < |ps| ==> ps[i].0 != key }

  lemma {:induction false} GetLacking(ps: seq<(string, string)>, key: string)
    requires Lacks(ps, key)
    ensures Get(ps, key) == ""
  {
    if ps != [] { GetLacking(ps[1..], key); }
  }

  lemma {:induction false} GetAt(ps: seq<(string, string)>, key: string, v: string, i: nat)
    requires i < |ps| && ps[i] == (key, v) && forall j :: 0 <= j < i ==> ps[j].0 != key
    ensures Get(ps, key) == v
  {
    if i > 0 { GetAt(ps[1..], key, v, i - 1); }
  }

  lemma GetSole(ps: seq<(string, string)>, key: string, v: string)
    requires Sole(ps, key, v)
    ensures Get(ps, key) == v
  {
    var i :| 0 <= i < |ps| && ps[i] == (key, v) && forall j :: 0 <= j < |ps| && ps[j].0 == key ==> j == i;
    GetAt(ps, key, v, i);
  }

  /** Query and fragment together carry `v` for `key`: a non-empty value the query has once, or,
      where the query has none, what the fragment has once or lacks. */
  predicate Carries(ps: seq<(string, string)>, fp: seq<(string, string)>, key: string, v: string) {
    || (v != "" && Sole(ps, key, v))
    || ((Lacks(ps, key) || Sole(ps, key, "")) && (Sole(fp, key, v) || (v == "" && Lacks(fp, key))))
  }

  /** A field is read from the query, and from the fragment only when the query has no value. */
  lemma FragmentFallback(ps: seq<(string, string)>, fp: seq<(string, string)>, key: string, v: string)
    requires Carries(ps, fp, key, v)
    ensures GetEither(ps, fp, key) == v
  {
    if Sole(ps, key, v) { GetSole(ps, key, v); }
    if Sole(ps, key, "") { GetSole(ps, key, ""); }
    if Lacks(ps, key) { GetLacking(ps, key); }
    if Sole(fp, key, v) { GetSole(fp, key, v); }
    if Lacks(fp, key) { GetLacking(fp, key); }
  }

  /** What a redirect says, whatever the order of its fields, whatever other keys there are and
      whichever of query and fragment carries them: an error with its state, else no code is bad,
      else the code and the state as they were sent. */
  lemma FieldsDelivered(
    ps: seq<(string, string)>, fp: seq<(string, string)>, code: string, state: string, err: string)
    requires Carries(ps, fp, "code", code) && Carries(ps, fp, "state", state) && Carries(ps, fp, "error", err)
    ensures FromQueries(ps, fp) ==
      if err != "" then Parsed(CallbackResult(code, state, SafeErrCode(err)))
      else if code == "" then BadRedirect
      else Parsed(CallbackResult(code, state, ""))
  {
    FragmentFallback(ps, fp, "code", code);
    FragmentFallback(ps, fp, "state", state);
    FragmentFallback(ps, fp, "error", err);
  }

  /** So the full URL a vendor redirects to, pasted, gives its code and state; any other field may
      stand anywhere in the query, and a fragment may follow. */
  lemma UrlDelivers(left: string, base: string, es: seq<(string, string)>, ps: seq<(string, string)>,
                    fe: seq<(string, string)>, fp: seq<(string, string)>, right: string,
                    code: string, state: string)
    requires AllSpace(left) && AllSpace(right) && '?' !in base && '#' !in base && LeadingSpace(base) == 0
    requires EncodesAll(es, ps) && EncodesAll(fe, fp)
    requires |base + ['?'] + QueryText(es) + FragmentText(fe)| <= MAX_PASTED_REDIRECT_BYTES
    requires code != "" && Carries(ps, fp, "code", code)
    requires Carries(ps, fp, "state", state) && Carries(ps, fp, "error", "")
    ensures ParsePastedRedirect(left + (base + ['?'] + QueryText(es) + FragmentText(fe)) + right) ==
      Parsed(CallbackResult(code, state, ""))
  {
    UrlRoundTrip(left, base, es, ps, fe, fp, right);
    FieldsDelivered(ps, fp, code, state, "");
  }

  predicate AllBytes(ps: seq<(string, string)>) {
    forall i :: 0 <= i < |ps| ==> IsBytes(ps[i].0) && IsBytes(ps[i].1)
  }

  function EscapeAll(ps: seq<(string, string)>): (es: seq<(string, string)>)
    requires AllBytes(ps)
    ensures EncodesAll(es, ps)
  {
    seq(|ps|, i requires 0 <= i < |ps| => (QueryEscape(ps[i].0), QueryEscape(ps[i].1)))
  }

  /** In particular what Go's own encoder writes for any fields is read back. */
  lemma EscapedUrlRoundTrip(left: string, base: string, ps: seq<(string, string)>, right: string)
    requires AllSpace(left) && AllSpace(right) && '?' !in base && '#' !in base && LeadingSpace(base) == 0
    requires AllBytes(ps) && |base| + 1 + |QueryText(EscapeAll(ps))| <= MAX_PASTED_REDIRECT_BYTES
    ensures ParsePastedRedirect(left + (base + ['?'] + QueryText(EscapeAll(ps))) + right) == FromQueries(ps, [])
  {
    var text := base + ['?'] + QueryText(EscapeAll(ps));
    assert text + FragmentText([]) == text;
    UrlRoundTrip(left, base, EscapeAll(ps), ps, [], [], right);
  }

  // ---------------------------------------------------------------- what is refused

  /** Every '%' begins an escape. */
  predicate WellEscaped(s: string) {
    forall i :: 0 <= i < |s| && s[i] == '%' ==> i + 2 < |s| && IsHex(s[i + 1]) && IsHex(s[i + 2])
  }

  lemma EscapedAfter(s: string, k: nat)
    requires k <= |s| && forall i :: 0 < i < k ==> s[i] != '%'
    requires k > 0 && (s[0] == '%' ==> k == 3 && IsHex(s[1]) && IsHex(s[2]))
    ensures WellEscaped(s) <==> WellEscaped(s[k..])
  {
    if WellEscaped(s) {
      forall i | 0 <= i < |s[k..]| && s[k..][i] == '%'
        ensures i + 2 < |s[k..]| && IsHex(s[k..][i + 1]) && IsHex(s[k..][i + 2])
      {
        assert s[k + i] == '%';
      }
    }
    if WellEscaped(s[k..]) {
      forall i | 0 <= i < |s| && s[i] == '%' ensures i + 2 < |s| && IsHex(s[i + 1]) && IsHex(s[i + 2]) {
        if i >= k { assert s[k..][i - k] == '%' && s[k..][i - k + 1] == s[i + 1] && s[k..][i - k + 2] == s[i + 2]; }
      }
    }
  }

  lemma {:induction false} UnescapesIff(s: string)
    ensures Unescape(s).Some? <==> WellEscaped(s)
  {
    if s != "" && s[0] != '%' {
      UnescapesIff(s[1..]);
      EscapedAfter(s, 1);
    } else if |s| >= 3 && IsHex(s[1]) && IsHex(s[2]) {
      UnescapesIff(s[3..]);
      EscapedAfter(s, 3);
    }
  }

  /** A separator that is no hex digit splits no escape. */
  lemma EscapedSplit(a: string, c: char, b: string)
    requires !IsHex(c) && c != '%'
    ensures WellEscaped(a + [c] + b) <==> WellEscaped(a) && WellEscaped(b)
  {
    var s := a + [c] + b;
    assert forall i :: 0 <= i < |a| ==> s[i] == a[i];
    assert s[|a|] == c;
    assert forall i :: 0 <= i < |b| ==> s[|a| + 1 + i] == b[i];
    if WellEscaped(s) {
      forall i | 0 <= i < |a| && a[i] == '%' ensures i + 2 < |a| && IsHex(a[i + 1]) && IsHex(a[i + 2]) {
        assert s[i] == '%';
      }
      forall i | 0 <= i < |b| && b[i] == '%' ensures i + 2 < |b| && IsHex(b[i + 1]) && IsHex(b[i + 2]) {
        assert s[|a| + 1 + i] == '%';
      }
    }
    if WellEscaped(a) && WellEscaped(b) {
      forall i | 0 <= i < |s| && s[i] == '%' ensures i + 2 < |s| && IsHex(s[i + 1]) && IsHex(s[i + 2]) {
        if i > |a| { assert b[i - |a| - 1] == '%'; }
      }
    }
  }

  lemma Rejoin(s: string, c: char)
    ensures if c in s then s == Before(s, c) + [c] + After(s, c) else s == Before(s, c) && After(s, c) == ""
  {}

  /** A query is refused iff it has a ';' or a broken escape. */
  predicate WellFormedQuery(q: string) { ';' !in q && WellEscaped(q) }

  lemma PartReadsIff(part: string)
    ensures Unescape(Before(part, '=')).Some? && Unescape(After(part, '=')).Some? <==> WellEscaped(part)
  {
    UnescapesIff(Before(part, '='));
    UnescapesIff(After(part, '='));
    Rejoin(part, '=');
    if '=' in part { EscapedSplit(Before(part, '='), '=', After(part, '=')); }
  }

  lemma FirstPartIff(q: string)
    ensures WellFormedQuery(q) <==> WellFormedQuery(Before(q, '&')) && WellFormedQuery(After(q, '&'))
  {
    Rejoin(q, '&');
    if '&' in q {
      EscapedSplit(Before(q, '&'), '&', After(q, '&'));
    }
  }

  lemma {:induction false} QueryParsesIff(q: string)
    ensures ParseQuery(q).Some? <==> WellFormedQuery(q)
    decreases |q|
  {
    if q != "" {
      var part := Before(q, '&');
      QueryParsesIff(After(q, '&'));
      FirstPartIff(q);
      PartReadsIff(part);
    }
  }

  /** Exactly what is refused: nothing but white space, more than 4096 bytes after trimming, a broken
      query or fragment, or neither code nor error in them. */
  lemma RefusedIff(text: string)
    ensures var s := TrimSpace(text);
      var (q, f) := (QueryOf(Before(s, '#')), After(s, '#'));
      ParsePastedRedirect(text) == BadRedirect <==>
        || s == "" || |s| > 4096
        || (&& SplitCodeHash(s).None?
            && (|| !WellFormedQuery(q) || !WellFormedQuery(f)
                || (&& ParseQuery(q).Some? && ParseQuery(f).Some?
                    && GetEither(ParseQuery(q).value, ParseQuery(f).value, "code") == ""
                    && GetEither(ParseQuery(q).value, ParseQuery(f).value, "error") == "")))
  {
    var s := TrimSpace(text);
    QueryParsesIff(QueryOf(Before(s, '#')));
    QueryParsesIff(After(s, '#'));
  }

  // ---------------------------------------------------------------- "code#state"

  /** A character that may appear in a half of "code#state". */
  predicate HashPart(c: char) {
    && c != '#' && c != '=' && c != '&' && c != '/' && c != ':' && c != '?'
    && c != ' ' && c != '\t' && c != '\r' && c != '\n'
  }

  predicate HashParts(s: string) { forall i :: 0 <= i < |s| ==> HashPart(s[i]) }

  function CodeHash(code: string, state: string): string { code + ['#'] + state }

  lemma HashCount(code: string, state: string)
    ensures Count(CodeHash(code, state), '#') == Count(code, '#') + 1 + Count(state, '#')
  {
    CountAppend(code, ['#'] + state, '#');
    assert CodeHash(code, state) == code + (['#'] + state);
    assert (['#'] + state)[1..] == state;
  }

  lemma SplitJoin(s: string, c: char)
    requires c in s
    ensures s == Before(s, c) + [c] + After(s, c)
  {}

  lemma NoneOfIff(s: string)
    ensures '#' !in s && !ContainsAny(s, "=&/:? \t\r\n") <==> HashParts(s)
  {}

  lemma ContainsAnyJoin(code: string, state: string, chars: string)
    requires '#' !in chars
    ensures ContainsAny(CodeHash(code, state), chars) <==> ContainsAny(code, chars) || ContainsAny(state, chars)
  {
    var s := CodeHash(code, state);
    if i :| 0 <= i < |code| && code[i] in chars { assert s[i] in chars; }
    if i :| 0 <= i < |state| && state[i] in chars { assert s[|code| + 1 + i] in chars; }
    if i :| 0 <= i < |s| && s[i] in chars {
      assert if i < |code| then code[i] in chars else state[i - |code| - 1] in chars;
    }
  }

  /** Exactly what is taken as "code#state", and how it is split. */
  lemma CodeHashSplitsIff(s: string, code: string, state: string)
    ensures SplitCodeHash(s) == Some((code, state)) <==>
      code != "" && state != "" && HashParts(code) && HashParts(state) && s == CodeHash(code, state)
  {
    NoneOfIff(code);
    NoneOfIff(state);
    CountAbsent(code, '#');
    CountAbsent(state, '#');
    HashCount(code, state);
    ContainsAnyJoin(code, state, "=&/:? \t\r\n");
    if s == CodeHash(code, state) && HashParts(code) {
      IndexOfSplit(code, '#', state);
    } else if SplitCodeHash(s) == Some((code, state)) {
      CountAbsent(s, '#');
      SplitJoin(s, '#');
    }
  }

  /** Round trip of "code#state": any paste of it comes back, in any white space. */
  lemma CodeHashRoundTrip(left: string, code: string, state: string, right: string)
    requires AllSpace(left) && AllSpace(right)
    requires code != "" && state != "" && HashParts(code) && HashParts(state)
    requires LeadingSpace(CodeHash(code, state)) == 0 && TrailingSpace(CodeHash(code, state)) == 0
    requires |code| + 1 + |state| <= MAX_PASTED_REDIRECT_BYTES
    ensures ParsePastedRedirect(left + CodeHash(code, state) + right) == Parsed(CallbackResult(code, state, ""))
  {
    TrimPads(left, CodeHash(code, state), right);
    CodeHashSplitsIff(CodeHash(code, state), code, state);
  }

  // ---------------------------------------------------------------- white space as code points

  /** Unicode's White_Space property. */
  predicate WhiteSpace(u: int) {
    || 9 <= u <= 13 || u == 0x20 || u == 0x85 || u == 0xA0 || u == 0x1680 || 0x2000 <= u <= 0x200A
    || u == 0x2028 || u == 0x2029 || u == 0x202F || u == 0x205F || u == 0x3000
  }

  /** A code point in UTF-8 (section 3 of RFC 3629). */
  function Utf8(u: int): string
    requires 0 <= u < 0x1_0000
  {
    if u < 0x80 then [u as char]
    else if u < 0x800 then [(0xC0 + u / 64) as char, (0x80 + u % 64) as char]
    else [(0xE0 + u / 4096) as char, (0x80 + u / 64 % 64) as char, (0x80 + u % 64) as char]
  }

  ghost predicate SpaceOf(r: string, u: int) { 0 <= u < 0x1_0000 && WhiteSpace(u) && Utf8(u) == r }

  lemma SpaceFits(u: int)
    requires 0 <= u < 0x1_0000 && WhiteSpace(u)
    ensures SpaceRune(Utf8(u))
  {
    if 0x2000 <= u <= 0x202F { assert u / 4096 == 2 && u / 64 == 128; }
  }

  /** The white-space code point of a rune of three bytes. */
  function ThreeByteCode(y: int, z: int): int {
    if y == 0x9A then 0x1680 else if y == 0x81 then 0x205F
    else if 0x80 <= z <= 0x8A then 0x2000 + z - 0x80 else 0x2028 + z - 0xA8
  }

  lemma ThreeByteDecodes(r: string) returns (u: int)
    requires |r| == 3 && ThreeByteSpace(r[0], r[1], r[2])
    ensures SpaceOf(r, u)
  {
    if r[0] as int == 0xE3 {
      u := 0x3000;
    } else {
      u := ThreeByteCode(r[1] as int, r[2] as int);
      if u < 0x2030 && u >= 0x2000 { assert u / 4096 == 2 && u / 64 == 128 && u % 64 == r[2] as int - 0x80; }
    }
    assert Utf8(u) == r;
  }

  /** The runes that are trimmed are exactly the white space of Unicode. */
  lemma SpaceRuneIff(r: string)
    ensures SpaceRune(r) <==> exists u :: SpaceOf(r, u)
  {
    if SpaceRune(r) {
      var u;
      if |r| == 3 {
        u := ThreeByteDecodes(r);
      } else {
        u := if |r| == 1 then r[0] as int else r[1] as int;
        assert Utf8(u) == r;
      }
      assert SpaceOf(r, u);
    }
    if u :| SpaceOf(r, u) { SpaceFits(u); }
  }
}
