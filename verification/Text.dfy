/** Text primitives the SDP code leans on: decimal printing and reading of integers,
    and the delimiter-based `split` and `join` of include/Utils.hpp. */
module Text {
  datatype Option<+T> = None | Some(value: T)

  predicate IsDigit(c: char) {
    '0' <= c <= '9'
  }

  /** std::isspace in the C locale. */
  predicate IsSpace(c: char) {
    c == ' ' || '\t' <= c <= '\r'
  }

  function ToLower(c: char): char {
    if 'A' <= c <= 'Z' then ((c as int) + 32) as char else c
  }

  /** std::transform(..., ::tolower). */
  function Lower(s: string): (r: string)
    ensures |r| == |s|
  {
    seq(|s|, i requires 0 <= i < |s| => ToLower(s[i]))
  }

  // ----- decimal numbers -----

  predicate AllDigits(s: string) {
    forall i :: 0 <= i < |s| ==> IsDigit(s[i])
  }

  function DigitChar(d: nat): char
    requires d < 10
  {
    (('0' as int) + d) as char
  }

  function DigitValue(c: char): nat
    requires IsDigit(c)
  {
    (c as int) - ('0' as int)
  }

  /** std::to_string of an unsigned number. */
  function Digits(n: nat): (s: string)
    ensures s != "" && AllDigits(s)
  {
    if n < 10 then [DigitChar(n)] else Digits(n / 10) + [DigitChar(n % 10)]
  }

  function DigitsValue(s: string): nat
    requires AllDigits(s)
  {
    if s == "" then 0 else 10 * DigitsValue(s[..|s| - 1]) + DigitValue(s[|s| - 1])
  }

  /** std::to_string of a signed number. */
  function Decimal(n: int): string {
    if n < 0 then "-" + Digits(-n) else Digits(n)
  }

  lemma {:induction false} DigitsRoundTrip(n: nat)
    ensures DigitsValue(Digits(n)) == n
  {
    if n >= 10 {
      DigitsRoundTrip(n / 10);
      assert Digits(n)[..|Digits(n)| - 1] == Digits(n / 10);
    }
  }

  lemma DigitsInjective(m: nat, n: nat)
    requires Digits(m) == Digits(n)
    ensures m == n
  {
    DigitsRoundTrip(m);
    DigitsRoundTrip(n);
  }

  /** `stream >> std::noskipws >> n` that must consume the whole text: an optional sign
      and at least one digit. The caller applies the range of its integer type. */
  function WholeInteger(s: string): Option<int> {
    if s != "" && AllDigits(s) then Some(DigitsValue(s))
    else if |s| > 1 && (s[0] == '-' || s[0] == '+') && AllDigits(s[1..]) then
      Some(if s[0] == '-' then 0 - DigitsValue(s[1..]) else DigitsValue(s[1..]))
    else None
  }

  lemma DecimalRoundTrip(n: int)
    ensures WholeInteger(Decimal(n)) == Some(n)
  {
    if n < 0 {
      DigitsRoundTrip(-n);
      assert Decimal(n)[1..] == Digits(-n);
      assert !IsDigit(Decimal(n)[0]);
    } else {
      DigitsRoundTrip(n);
    }
  }

  function SkipSpaces(s: string): string {
    if s != "" && IsSpace(s[0]) then SkipSpaces(s[1..]) else s
  }

  function LeadingDigits(s: string): (r: string)
    ensures AllDigits(r)
  {
    if s != "" && IsDigit(s[0]) then [s[0]] + LeadingDigits(s[1..]) else ""
  }

  /** What the strtol family reads: blanks, an optional sign, digits; the rest is ignored. */
  function ReadInteger(s: string): Option<int> {
    var t := SkipSpaces(s);
    var signed := t != "" && (t[0] == '-' || t[0] == '+');
    var run := LeadingDigits(if signed then t[1..] else t);
    if run == "" then None
    else Some(if signed && t[0] == '-' then 0 - DigitsValue(run) else DigitsValue(run))
  }

  const TWO_32: int := 0x1_0000_0000
  const TWO_63: int := 0x8000_0000_0000_0000
  const TWO_64: int := 0x1_0000_0000_0000_0000

  /** std::stoull; None when it throws. A negative number wraps, as strtoull's does. */
  function Stoull(s: string): Option<nat> {
    match ReadInteger(s)
    case None => None
    case Some(v) =>
      if v >= TWO_64 || v <= -TWO_64 then None else Some(if v < 0 then v + TWO_64 else v)
  }

  /** std::stoi; None when it throws. */
  function Stoi(s: string): Option<int> {
    match ReadInteger(s)
    case None => None
    case Some(v) => if -0x8000_0000 <= v < 0x8000_0000 then Some(v) else None
  }

  lemma {:induction false} LeadingDigitsAll(s: string)
    requires AllDigits(s)
    ensures LeadingDigits(s) == s
  {
    if s != "" {
      LeadingDigitsAll(s[1..]);
      assert s == [s[0]] + s[1..];
    }
  }

  lemma ReadIntegerDigits(n: nat)
    ensures ReadInteger(Digits(n)) == Some(n)
  {
    DigitsRoundTrip(n);
    LeadingDigitsAll(Digits(n));
    assert IsDigit(Digits(n)[0]);
    assert SkipSpaces(Digits(n)) == Digits(n);
  }

  // ----- split and join -----

  /** Position of the first `d` in `s`, or |s|. */
  function IndexOf(s: string, d: char): (i: nat)
    ensures i <= |s|
    ensures forall k :: 0 <= k < i ==> s[k] != d
    ensures i < |s| ==> s[i] == d
  {
    if s == "" || s[0] == d then 0 else 1 + IndexOf(s[1..], d)
  }

  /** What is left after the token that ends at `i`, without its delimiter. */
  function After(s: string, i: nat): string
    requires i <= |s|
  {
    if i < |s| then s[i + 1..] else ""
  }

  /** The tokens a std::getline loop delivers: no token after a trailing delimiter. */
  function Split(s: string, d: char): seq<string>
    decreases |s|
  {
    if s == "" then []
    else var i := IndexOf(s, d); [s[..i]] + Split(After(s, i), d)
  }

  function Join(v: seq<string>, d: char): string {
    if |v| == 0 then ""
    else if |v| == 1 then v[0]
    else v[0] + ([d] + Join(v[1..], d))
  }

  lemma IndexOfIs(s: string, d: char, i: nat)
    requires i <= |s|
    requires forall k :: 0 <= k < i ==> s[k] != d
    requires i < |s| ==> s[i] == d
    ensures IndexOf(s, d) == i
  {
  }

  lemma SplitToken(t: string, rest: string, d: char)
    requires d !in t
    ensures Split(t + ([d] + rest), d) == [t] + Split(rest, d)
    ensures t != "" ==> Split(t, d) == [t]
  {
    var s := t + ([d] + rest);
    assert forall k :: 0 <= k < |t| ==> s[k] == t[k] && t[k] in t;
    IndexOfIs(s, d, |t|);
    assert s[..|t|] == t && After(s, |t|) == rest;
    IndexOfIs(t, d, |t|);
    assert t[..|t|] == t;
  }

  lemma {:induction false} SplitIsDelimiterFree(s: string, d: char)
    ensures forall k :: 0 <= k < |Split(s, d)| ==> d !in Split(s, d)[k]
    decreases |s|
  {
    if s != "" {
      SplitIsDelimiterFree(After(s, IndexOf(s, d)), d);
    }
  }

  /** An empty last token leaves no trace in the joined text. */
  function DropEmptyLast(v: seq<string>): seq<string> {
    if v != [] && v[|v| - 1] == "" then v[..|v| - 1] else v
  }

  lemma {:induction false} SplitJoinDelimiterFree(v: seq<string>, d: char)
    requires forall k :: 0 <= k < |v| ==> d !in v[k]
    ensures Split(Join(v, d), d) == DropEmptyLast(v)
  {
    if |v| == 0 {
    } else if |v| == 1 {
      SplitToken(v[0], "", d);
    } else {
      assert DropEmptyLast(v) == [v[0]] + DropEmptyLast(v[1..]);
      SplitJoinDelimiterFree(v[1..], d);
      SplitToken(v[0], Join(v[1..], d), d);
    }
  }

  /** Splitting undoes joining exactly for delimiter-free tokens with a non-empty last one. */
  lemma SplitJoin(v: seq<string>, d: char)
    ensures Split(Join(v, d), d) == v
       <==> (forall k :: 0 <= k < |v| ==> d !in v[k]) && (v == [] || v[|v| - 1] != "")
  {
    if forall k :: 0 <= k < |v| ==> d !in v[k] {
      SplitJoinDelimiterFree(v, d);
    } else {
      SplitIsDelimiterFree(Join(v, d), d);
    }
  }

  /** The end of the token at `pos`: one std::getline. */
  method TokenEnd(s: string, pos: nat, d: char) returns (end: nat)
    requires pos <= |s|
    ensures pos <= end <= |s|
    ensures forall k :: pos <= k < end ==> s[k] != d
    ensures end < |s| ==> s[end] == d
  {
    end := pos;
    while end < |s| && s[end] != d
      invariant pos <= end <= |s|
      invariant forall k :: pos <= k < end ==> s[k] != d
    {
      end := end + 1;
    }
  }

  /** include/Utils.hpp `split`, token by token. */
  method SplitTokens(s: string, d: char) returns (tokens: seq<string>)
    ensures tokens == Split(s, d)
  {
    tokens := [];
    var pos := 0;
    ghost var rest := Split(s, d);
    assert s[0..] == s;
    while pos < |s|
      invariant 0 <= pos <= |s|
      invariant rest == Split(s[pos..], d)
      invariant tokens + rest == Split(s, d)
    {
      var end := TokenEnd(s, pos, d);
      SplitStep(s, pos, end, d);
      Shift(tokens, rest);
      tokens := tokens + [s[pos..end]];
      rest := rest[1..];
      pos := if end < |s| then end + 1 else end;
    }
  }

  lemma Shift<T>(done: seq<T>, rest: seq<T>)
    requires rest != []
    ensures (done + [rest[0]]) + rest[1..] == done + rest
  {
  }

  lemma SplitStep(s: string, pos: nat, end: nat, d: char)
    requires pos <= end <= |s| && pos < |s|
    requires forall k :: pos <= k < end ==> s[k] != d
    requires end < |s| ==> s[end] == d
    ensures Split(s[pos..], d) == [s[pos..end]] + Split(s[if end < |s| then end + 1 else end..], d)
  {
    var rest := s[pos..];
    IndexOfIs(rest, d, end - pos);
    assert rest[..end - pos] == s[pos..end];
    assert After(rest, end - pos) == s[if end < |s| then end + 1 else end..];
  }

  lemma {:induction false} JoinSnoc(v: seq<string>, t: string, d: char)
    ensures Join(v + [t], d) == if v == [] then t else Join(v, d) + ([d] + t)
  {
    if |v| == 0 {
      assert v + [t] == [t];
    } else {
      assert (v + [t])[1..] == v[1..] + [t];
      JoinSnoc(v[1..], t, d);
      if |v| > 1 {
        assert Join(v + [t], d) == v[0] + ([d] + (Join(v[1..], d) + ([d] + t)));
        assert Join(v, d) == v[0] + ([d] + Join(v[1..], d));
      }
    }
  }

  lemma JoinNothing(v: seq<string>, d: char)
    ensures Join([], d) == ""
    ensures v == [] ==> Join(v, d) == ""
  {
  }

  /** include/Utils.hpp `join`: the delimiter follows every token but the last. */
  method JoinTokens(v: seq<string>, d: char) returns (s: string)
    ensures s == Join(v, d)
  {
    hide Join;
    s := "";
    JoinNothing(v, d);
    for i := 0 to |v|
      invariant i < |v| ==> s == if i == 0 then "" else Join(v[..i], d) + [d]
      invariant i == |v| ==> s == Join(v, d)
    {
      JoinSnoc(v[..i], v[i], d);
      assert v[..i] + [v[i]] == v[..i + 1];
      s := s + v[i];
      assert s == Join(v[..i + 1], d);
      if i + 1 != |v| {
        s := s + [d];
      } else {
        assert v[..i + 1] == v;
      }
    }
  }
}
