/** Account identities (internal/accounts/identity.go). Strings are byte strings; the digest is
    a parameter, so what is proved is about the hash's input. */
module Identity {
  import opened Common

  // ---------------------------------------------------------------- length-prefixed lists

  function Digit(d: nat): char
    requires d < 10
  {
    '0' + d as char
  }

  /** The "%d" form of a length. */
  function Decimal(n: nat): string {
    if n < 10 then [Digit(n)] else Decimal(n / 10) + [Digit(n % 10)]
  }

  function Field(f: string): string { Decimal(|f|) + [':'] + f }

  /** Two parts with the separator between them. */
  function Bar(a: string, b: string): string { a + ['|'] + b }

  function LengthPrefixed(fields: seq<string>): string {
    if fields == [] then ""
    else
      var n := |fields| - 1;
      if n > 0 then Bar(LengthPrefixed(fields[..n]), Field(fields[n])) else Field(fields[n])
  }

  /** lengthPrefixed: one pass with a builder. */
  method JoinFields(fields: seq<string>) returns (b: string)
    ensures b == LengthPrefixed(fields)
  {
    b := "";
    var i := 0;
    while i < |fields|
      invariant 0 <= i <= |fields|
      invariant b == LengthPrefixed(fields[..i])
    {
      assert fields[..i + 1][..i] == fields[..i];
      if i > 0 { b := b + ['|']; }
      b := b + (Decimal(|fields[i]|) + [':'] + fields[i]);
      i := i + 1;
    }
    assert fields[..i] == fields;
  }

  // ---------------------------------------------------------------- reading the list back

  predicate IsDigit(c: char) { '0' <= c <= '9' }

  predicate AllDigits(s: string) { forall i :: 0 <= i < |s| ==> IsDigit(s[i]) }

  function Value(s: string): nat
    requires AllDigits(s)
  {
    if s == "" then 0 else 10 * Value(s[..|s| - 1]) + (s[|s| - 1] - '0') as nat
  }

  /** The position of the first ':', or the length. */
  function Colon(s: string): (k: nat)
    ensures k <= |s|
  {
    if s == "" || s[0] == ':' then 0 else 1 + Colon(s[1..])
  }

  /** Reads one field: its text and what follows it. */
  function ReadField(s: string): (r: Option<(string, string)>)
    ensures r.Some? ==> |r.value.1| < |s|
  {
    var c := Colon(s);
    if c == |s| || !AllDigits(s[..c]) then None
    else
      var end := c + 1 + Value(s[..c]);
      if end > |s| then None else Some((s[c + 1..end], s[end..]))
  }

  function ReadFields(s: string): Option<seq<string>>
    decreases |s|
  {
    match ReadField(s)
    case None => None
    case Some((f, rest)) =>
      if rest == "" then Some([f])
      else if rest[0] != '|' then None
      else
        match ReadFields(rest[1..])
        case None => None
        case Some(fs) => Some([f] + fs)
  }

  function Parse(s: string): Option<seq<string>> { if s == "" then Some([]) else ReadFields(s) }

  lemma {:induction false} DecimalReads(n: nat)
    ensures Decimal(n) != "" && AllDigits(Decimal(n)) && Value(Decimal(n)) == n
  {
    if n >= 10 {
      DecimalReads(n / 10);
      assert Decimal(n)[..|Decimal(n)| - 1] == Decimal(n / 10);
    } else {
      assert Decimal(n)[..0] == "";
    }
  }

  lemma {:induction false} ColonAfterDigits(s: string, t: string)
    requires AllDigits(s)
    ensures Colon(s + [':'] + t) == |s|
  {
    var whole := s + [':'] + t;
    if s != "" {
      assert whole[0] == s[0];
      assert whole[1..] == s[1..] + [':'] + t;
      ColonAfterDigits(s[1..], t);
    }
  }

  lemma FieldReads(f: string, rest: string)
    ensures ReadField(Field(f) + rest) == Some((f, rest))
  {
    var d, s := Decimal(|f|), Field(f) + rest;
    DecimalReads(|f|);
    assert s == d + [':'] + (f + rest);
    ColonAfterDigits(d, f + rest);
    assert s[..|d|] == d;
    assert s[|d| + 1..] == f + rest;
  }

  lemma BarAssociates(a: string, b: string, c: string)
    ensures Bar(Bar(a, b), c) == Bar(a, Bar(b, c))
  {}

  /** The list joined from the front. */
  lemma {:induction false} JoinsFromFront(f: string, fields: seq<string>)
    ensures LengthPrefixed([f] + fields) == if fields == [] then Field(f) else Bar(Field(f), LengthPrefixed(fields))
  {
    if fields == [] {
      assert [f] + fields == [f];
    } else {
      var n, whole := |fields| - 1, [f] + fields;
      JoinsFromFront(f, fields[..n]);
      assert whole[..n + 1] == [f] + fields[..n];
      assert whole[n + 1] == fields[n];
      assert LengthPrefixed(whole) == Bar(LengthPrefixed([f] + fields[..n]), Field(fields[n]));
      if n > 0 {
        BarAssociates(Field(f), LengthPrefixed(fields[..n]), Field(fields[n]));
      }
    }
  }

  lemma LastFieldReads(f: string)
    ensures ReadFields(Field(f)) == Some([f])
  {
    FieldReads(f, "");
    assert Field(f) + "" == Field(f);
  }

  lemma ReadsOn(s: string, f: string, rest: string, fs: seq<string>)
    requires ReadField(s) == Some((f, rest)) && rest != "" && rest[0] == '|' && ReadFields(rest[1..]) == Some(fs)
    ensures ReadFields(s) == Some([f] + fs)
  {}

  lemma NextFieldReads(f: string, text: string, fs: seq<string>)
    requires ReadFields(text) == Some(fs)
    ensures ReadFields(Bar(Field(f), text)) == Some([f] + fs)
  {
    var tail := ['|'] + text;
    FieldReads(f, tail);
    assert Bar(Field(f), text) == Field(f) + tail;
    assert tail[1..] == text;
    ReadsOn(Field(f) + tail, f, tail, fs);
  }

  /** Parsing undoes joining, for every list of fields whatever they contain. */
  lemma {:induction false} ParseUndoesJoin(fields: seq<string>)
    ensures Parse(LengthPrefixed(fields)) == Some(fields)
    decreases |fields|
  {
    NonEmptyJoin(fields);
    if fields != [] {
      var f, rest := fields[0], fields[1..];
      assert fields == [f] + rest;
      JoinsFromFront(f, rest);
      if rest == [] {
        LastFieldReads(f);
        assert fields == [f];
      } else {
        ParseUndoesJoin(rest);
        NonEmptyJoin(rest);
        NextFieldReads(f, LengthPrefixed(rest), rest);
      }
    }
  }

  lemma NonEmptyJoin(fields: seq<string>)
    ensures LengthPrefixed(fields) == "" <==> fields == []
  {
  }

  lemma JoinInjective(a: seq<string>, b: seq<string>)
    ensures LengthPrefixed(a) == LengthPrefixed(b) <==> a == b
  {
    ParseUndoesJoin(a);
    ParseUndoesJoin(b);
  }

  // ---------------------------------------------------------------- identities

  /** A digest of fixed size, SHA-256 in the program. */
  type Hash = string -> seq<Byte>

  function HexDigit(d: int): char
    requires 0 <= d < 16
  {
    if d < 10 then '0' + d as char else 'a' + (d - 10) as char
  }

  function Hex(bytes: seq<Byte>): string {
    if bytes == [] then "" else [HexDigit(bytes[0] / 16), HexDigit(bytes[0] % 16)] + Hex(bytes[1..])
  }

  function AccountIdentity(h: Hash, provider: string, subject: string): string {
    if subject == "" then "" else Hex(h(LengthPrefixed([provider, subject])))
  }

  /** The subject of a vendor account: its id and its workspace or organization, both needed. */
  function PairSubject(account: string, workspace: string): string {
    if account == "" || workspace == "" then "" else LengthPrefixed([account, workspace])
  }

  /** Byte i of a digest is the digits 2i and 2i + 1 of its text. */
  lemma {:induction false} HexDigits(bytes: seq<Byte>, i: nat)
    requires i < |bytes|
    ensures |Hex(bytes)| == 2 * |bytes|
    ensures Hex(bytes)[2 * i] == HexDigit(bytes[i] / 16) && Hex(bytes)[2 * i + 1] == HexDigit(bytes[i] % 16)
  {
    if i > 0 {
      HexDigits(bytes[1..], i - 1);
      assert bytes[1..][i - 1] == bytes[i];
    } else if |bytes| > 1 {
      HexDigits(bytes[1..], 0);
    }
  }

  predicate LowerHex(c: char) { '0' <= c <= '9' || 'a' <= c <= 'f' }

  /** An identity is empty, or 64 lower-case hex digits. */
  lemma IdentityShape(h: Hash, provider: string, subject: string)
    requires forall x :: |h(x)| == 32
    ensures var i := AccountIdentity(h, provider, subject);
      if subject == "" then i == "" else |i| == 64 && forall k :: 0 <= k < 64 ==> LowerHex(i[k])
  {
    if subject != "" {
      var digest := h(LengthPrefixed([provider, subject]));
      HexDigits(digest, 0);
      forall k | 0 <= k < 64 ensures LowerHex(Hex(digest)[k]) {
        HexDigits(digest, k / 2);
        assert k == 2 * (k / 2) || k == 2 * (k / 2) + 1;
      }
    }
  }

  /** The text that is hashed for an account of a provider. */
  function HashInput(provider: string, account: string, workspace: string): string {
    LengthPrefixed([provider, PairSubject(account, workspace)])
  }

  lemma HexHead(a: seq<Byte>)
    requires a != []
    ensures |Hex(a)| >= 2 && Hex(a)[0] == HexDigit(a[0] / 16) && Hex(a)[1] == HexDigit(a[0] % 16)
    ensures Hex(a)[2..] == Hex(a[1..])
  {}

  lemma HexDigitsInjective(x: Byte, y: Byte)
    requires HexDigit(x / 16) == HexDigit(y / 16) && HexDigit(x % 16) == HexDigit(y % 16)
    ensures x == y
  {}

  lemma HexPeels(a: seq<Byte>, b: seq<Byte>)
    requires a != [] && b != [] && Hex(a) == Hex(b)
    ensures a[0] == b[0] && Hex(a[1..]) == Hex(b[1..])
  {
    HexHead(a);
    HexHead(b);
    HexDigitsInjective(a[0], b[0]);
  }

  lemma HexEmpty(a: seq<Byte>)
    ensures Hex(a) == "" <==> a == []
  {}

  lemma {:induction false} HexInjective(a: seq<Byte>, b: seq<Byte>)
    ensures Hex(a) == Hex(b) <==> a == b
  {
    HexEmpty(a);
    HexEmpty(b);
    if a != [] && b != [] && Hex(a) == Hex(b) {
      HexPeels(a, b);
      HexInjective(a[1..], b[1..]);
      assert a == [a[0]] + a[1..] && b == [b[0]] + b[1..];
    }
  }

  /** The text that is hashed names the provider, the account and the workspace. */
  lemma HashInputNamesAccount(
    p: string, account: string, workspace: string, p': string, account': string, workspace': string)
    requires account != "" && workspace != "" && account' != "" && workspace' != ""
    ensures HashInput(p, account, workspace) == HashInput(p', account', workspace') <==>
      p == p' && account == account' && workspace == workspace'
  {
    var s, s' := PairSubject(account, workspace), PairSubject(account', workspace');
    JoinInjective([p, s], [p', s']);
    JoinInjective([account, workspace], [account', workspace']);
    assert [p, s] == [p', s'] <==> p == p' && s == s' by {
      assert [p, s][0] == p && [p, s][1] == s && [p', s'][0] == p' && [p', s'][1] == s';
    }
    assert [account, workspace] == [account', workspace'] <==> account == account' && workspace == workspace' by {
      assert [account, workspace][0] == account && [account, workspace][1] == workspace;
      assert [account', workspace'][0] == account' && [account', workspace'][1] == workspace';
    }
  }

  /** There is an identity exactly when both parts of the subject are known, and, unless the
      digest collides on the two inputs, equal identities mean the same provider, account and
      workspace. */
  lemma IdentityNamesAccount(
    h: Hash, p: string, account: string, workspace: string, p': string, account': string, workspace': string)
    requires forall x :: |h(x)| == 32
    requires var x, y := HashInput(p, account, workspace), HashInput(p', account', workspace');
      h(x) == h(y) ==> x == y
    ensures AccountIdentity(h, p, PairSubject(account, workspace)) != "" <==> account != "" && workspace != ""
    ensures var i := AccountIdentity(h, p, PairSubject(account, workspace));
      var j := AccountIdentity(h, p', PairSubject(account', workspace'));
      account != "" && workspace != "" ==> (i == j <==> p == p' && account == account' && workspace == workspace')
  {
    var s, s' := PairSubject(account, workspace), PairSubject(account', workspace');
    NonEmptyJoin([account, workspace]);
    NonEmptyJoin([account', workspace']);
    var x, y := LengthPrefixed([p, s]), LengthPrefixed([p', s']);
    HexInjective(h(x), h(y));
    if account != "" && workspace != "" && account' != "" && workspace' != "" {
      HashInputNamesAccount(p, account, workspace, p', account', workspace');
    }
  }
}
