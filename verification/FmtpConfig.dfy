/** The `key=value;key=value` text of an fmtp line: the printer of MediaSection and the parser
    of libsdptransform. */
module FmtpConfig {
  import opened Text
  import opened Regex
  import opened RtpTypes

  // ----- printing -----

  /** get<int64_t>() of a JSON integer. */
  function AsInt64(n: int): int {
    (n + TWO_63) % TWO_64 - TWO_63
  }

  /** get<int>() of a JSON integer. */
  function AsInt32(n: int): int {
    (n + 0x8000_0000) % TWO_32 - 0x8000_0000
  }

  /** Null and boolean members print nothing behind the equals sign. */
  function ValueText(v: ParamValue): string {
    match v
    case PStr(s) => s
    case PFloat(d) => d.text
    case PInt(n) => Decimal(AsInt64(n))
    case _ => ""
  }

  function ItemText(p: Param): string {
    p.key + "=" + ValueText(p.value)
  }

  function ItemTexts(p: Params): (items: seq<string>)
    ensures |items| == |p|
  {
    seq(|p|, i requires 0 <= i < |p| => ItemText(p[i]))
  }

  function ConfigText(p: Params): string {
    Join(ItemTexts(p), ';')
  }

  lemma NothingJoined(d: char)
    ensures Join([], d) == ""
  {
  }

  lemma ItemsNotEmpty(p: Params)
    ensures forall i :: 0 <= i < |p| ==> ItemTexts(p)[i] != ""
  {
  }

  lemma JoinIsEmpty(items: seq<string>, d: char)
    requires forall i :: 0 <= i < |items| ==> items[i] != ""
    ensures Join(items, d) == "" <==> items == []
  {
  }

  /** The printing loop: a semicolon in front of every item but the first. */
  method PrintConfig(p: Params) returns (config: string)
    ensures config == ConfigText(p)
  {
    hide Join, ItemText;
    config := "";
    ghost var items := ItemTexts(p);
    NothingJoined(';');
    for i := 0 to |p|
      invariant config == Join(items[..i], ';')
    {
      ItemsNotEmpty(p[..i]);
      assert ItemTexts(p[..i]) == items[..i];
      JoinIsEmpty(items[..i], ';');
      JoinSnoc(items[..i], items[i], ';');
      assert items[..i + 1] == items[..i] + [items[i]];
      if config != "" {
        config := config + ";";
      }
      config := config + ItemText(p[i]);
      assert config == Join(items[..i + 1], ';');
    }
    assert items[..|p|] == items;
  }

  // ----- parsing -----

  function TrimLeft(s: string): string {
    if s != "" && IsSpace(s[0]) then TrimLeft(s[1..]) else s
  }

  function TrimRight(s: string): string {
    if s != "" && IsSpace(s[|s| - 1]) then TrimRight(s[..|s| - 1]) else s
  }

  function Trim(s: string): string {
    TrimRight(TrimLeft(s))
  }

  function ValuePart(): Pat {
    Alt(Run(Space, 0, Lit("=", Run(Space, 0, Cap(Except(" "), 1, End)))), Unset(1, End))
  }

  /** A key, and optionally an equals sign and a value. */
  function KeyValue(): Pat {
    Run(Space, 0, Cap(Except("= "), 1, ValuePart()))
  }

  function Exponent(): Pat {
    var digits := Cap(Digit, 1, End);
    Alt(Skip(OneOf("eE"), Alt(Skip(OneOf("+-"), digits), digits)), End)
  }

  function Mantissa(): Pat {
    Alt(Cap(Digit, 1, Alt(Lit(".", Cap(Digit, 0, Exponent())), Exponent())), Lit(".", Cap(Digit, 1, Exponent())))
  }

  /** A whole text in the syntax of a decimal floating-point number. */
  predicate IsFloatText(s: string) {
    Matches(Alt(Skip(OneOf("+-"), Mantissa()), Mantissa()), s)
  }

  predicate IsIntText(s: string) {
    var n := WholeInteger(s);
    n.Some? && -TWO_63 <= n.value < TWO_63
  }

  predicate IsStringKey(key: string) {
    key == "profile-level-id" || key == "profile-id"
  }

  predicate IsIntKey(key: string) {
    key == "packetization-mode"
  }

  function IntOrZero(text: string): int {
    if IsIntText(text) then WholeInteger(text).value else 0
  }

  /** Type inference: well-known keys have their type, other values are read as what they
      look like. `read` is the conversion of the C++ library. */
  function Infer(key: string, text: string, read: string -> Double): ParamValue {
    if IsStringKey(key) then PStr(text)
    else if IsIntKey(key) || IsIntText(text) then PInt(IntOrZero(text))
    else if IsFloatText(text) then PFloat(read(text))
    else PStr(text)
  }

  /** insertParam */
  function Insert(o: Params, param: string, read: string -> Double): Params {
    var m := Match(KeyValue(), param);
    if m.Some? && |m.value| == 2 then Set(o, m.value[0], Infer(m.value[0], m.value[1], read)) else o
  }

  function InsertAll(tokens: seq<string>, read: string -> Double): Params {
    if tokens == [] then []
    else
      var o := InsertAll(tokens[..|tokens| - 1], read);
      var param := Trim(tokens[|tokens| - 1]);
      if param == "" then o else Insert(o, param, read)
  }

  /** sdptransform::parseParams */
  function ParseParams(str: string, read: string -> Double): Params {
    InsertAll(Split(str, ';'), read)
  }

  method ReadParams(str: string, read: string -> Double) returns (o: Params)
    ensures o == ParseParams(str, read)
  {
    var tokens := SplitTokens(str, ';');
    o := [];
    for i := 0 to |tokens|
      invariant o == InsertAll(tokens[..i], read)
    {
      assert tokens[..i + 1][..i] == tokens[..i];
      var param := Trim(tokens[i]);
      if param != "" {
        o := Insert(o, param, read);
      }
    }
    assert tokens[..|tokens|] == tokens;
  }

  // ----- the round trip -----

  predicate CleanText(s: string) {
    forall i :: 0 <= i < |s| ==> !IsSpace(s[i]) && s[i] != ';'
  }

  /** Keys and values made of characters the parser does not take for separators. */
  predicate CleanParam(p: Param) {
    && p.key != "" && CleanText(p.key) && '=' !in p.key
    && (p.value.PStr? ==> CleanText(p.value.s))
    && (p.value.PFloat? ==> CleanText(p.value.d.text))
  }

  predicate CleanParams(p: Params) {
    forall i :: 0 <= i < |p| ==> CleanParam(p[i])
  }

  /** The value is read back as what it was: a 64-bit integer under a key that is not
      string-typed, a non-empty string that does not look like a number, unless its key
      settles the type, or a float whose text reads as that float under an untyped key. */
  predicate Readable(p: Param, read: string -> Double) {
    match p.value
    case PInt(n) => -TWO_63 <= n < TWO_63 && !IsStringKey(p.key)
    case PStr(s) => s != "" && (IsStringKey(p.key) || (!IsIntKey(p.key) && !IsIntText(s) && !IsFloatText(s)))
    case PFloat(d) =>
      !IsStringKey(p.key) && !IsIntKey(p.key) && !IsIntText(d.text) && IsFloatText(d.text) && read(d.text) == d
    case _ => false
  }

  lemma {:induction false} TrimIdentity(s: string)
    requires forall i :: 0 <= i < |s| ==> !IsSpace(s[i])
    ensures Trim(s) == s
  {
  }

  lemma ValueTextClean(p: Param)
    requires CleanParam(p)
    ensures CleanText(ValueText(p.value))
  {
    if p.value.PInt? {
      var n := AsInt64(p.value.n);
      var d := Digits(if n < 0 then -n else n);
      assert forall i :: 0 <= i < |d| ==> IsDigit(d[i]);
    }
  }

  lemma KeyValueReads(key: string, text: string)
    requires key != "" && CleanText(key) && '=' !in key && CleanText(text)
    ensures text != "" ==> Match(KeyValue(), key + ("=" + text)) == Some([key, text])
    ensures text == "" ==> Match(KeyValue(), key + ("=" + text)).None?
  {
    var rest := "=" + text;
    assert AllIn(key, Except("= ")) && AllIn(text, Except(" "));
    RunSkip(Space, Cap(Except("= "), 1, ValuePart()), key + rest);
    ValuePartReads(text);
    if text != "" {
      CapStep(Except("= "), 1, ValuePart(), key, rest);
      assert [key] + [text] == [key, text];
    } else {
      RunLengthOf(key, rest, Except("= "));
      KeyAloneFails(key, rest, |key|);
    }
  }

  lemma ValuePartReads(text: string)
    requires CleanText(text)
    ensures text != "" ==> Match(ValuePart(), "=" + text) == Some([text])
    ensures text == "" ==> Match(ValuePart(), "=" + text).None?
  {
    var value := Cap(Except(" "), 1, End);
    var second := Run(Space, 0, value);
    RunSkip(Space, Lit("=", second), "=" + text);
    LitStep("=", second, text);
    RunSkip(Space, value, text);
    if text != "" {
      CapLast(Except(" "), 1, End, text);
      assert [text] + [] == [text];
    } else {
      assert Match(value, text).None?;
    }
  }

  /** Without a value nothing shorter than the key leads to a match either. */
  lemma {:induction false} KeyAloneFails(key: string, rest: string, n: nat)
    requires n <= |key| && rest == "=" && CleanText(key) && '=' !in key
    ensures Longest(ValuePart(), 1, key + rest, n, true).None?
  {
    hide Match, ValuePart;
    var s := key + rest;
    if n >= 1 {
      if n == |key| {
        assert s[n..] == "=" + "";
        ValuePartReads("");
      } else {
        assert s[n..][0] == key[n] && key[n] in key;
        ValuePartFails(s[n..]);
      }
      KeyAloneFails(key, rest, n - 1);
    }
  }

  lemma ValuePartFails(s: string)
    requires s != "" && !IsSpace(s[0]) && s[0] != '='
    ensures Match(ValuePart(), s).None?
  {
    var value := Run(Space, 0, Cap(Except(" "), 1, End));
    RunSkip(Space, Lit("=", value), s);
    LitFailsAt("=", value, s);
  }

  lemma LitFailsAt(text: string, k: Pat, s: string)
    requires |text| == 1 && s != "" && s[0] != text[0]
    ensures Match(Lit(text, k), s).None?
  {
  }

  predicate AllReadable(p: Params, read: string -> Double) {
    forall i :: 0 <= i < |p| ==> Readable(p[i], read)
  }

  /** What is left of a printed parameter. */
  function ReadBack(p: Param, read: string -> Double): Params {
    var text := ValueText(p.value);
    if text == "" then [] else [Param(p.key, Infer(p.key, text, read))]
  }

  function AllReadBack(p: Params, read: string -> Double): Params {
    if p == [] then [] else AllReadBack(p[..|p| - 1], read) + ReadBack(p[|p| - 1], read)
  }

  lemma {:induction false} AllReadBackKeys(p: Params, key: string, read: string -> Double)
    requires forall i :: 0 <= i < |p| ==> Less(p[i].key, key)
    ensures var r := AllReadBack(p, read); forall i :: 0 <= i < |r| ==> Less(r[i].key, key)
    ensures |AllReadBack(p, read)| <= |p|
  {
    if p != [] {
      AllReadBackKeys(p[..|p| - 1], key, read);
    }
  }

  lemma {:induction false} InsertAllReads(p: Params, read: string -> Double)
    requires Sorted(p) && CleanParams(p)
    ensures InsertAll(ItemTexts(p), read) == AllReadBack(p, read)
  {
    hide Insert, Trim, ItemText, Infer, ValueText, Set, Less;
    if p != [] {
      var n := |p| - 1;
      var items := ItemTexts(p);
      InsertAllReads(p[..n], read);
      assert items[..n] == ItemTexts(p[..n]);
      InsertReads(AllReadBack(p[..n], read), p[n], read);
      AllReadBackKeys(p[..n], p[n].key, read);
      if ValueText(p[n].value) != "" {
        SetAppends(AllReadBack(p[..n], read), p[n].key, Infer(p[n].key, ValueText(p[n].value), read));
      }
    }
  }

  lemma InsertReads(o: Params, p: Param, read: string -> Double)
    requires CleanParam(p)
    ensures var text := ValueText(p.value); var item := ItemText(p);
      && Trim(item) == item && item != ""
      && Insert(o, item, read) == if text == "" then o else Set(o, p.key, Infer(p.key, text, read))
  {
    var text := ValueText(p.value);
    ValueTextClean(p);
    assert ItemText(p) == p.key + ("=" + text);
    TrimIdentity(ItemText(p));
    KeyValueReads(p.key, text);
  }

  lemma ItemsAreTokens(p: Params)
    requires CleanParams(p)
    ensures Split(ConfigText(p), ';') == ItemTexts(p)
  {
    forall i | 0 <= i < |p|
      ensures ';' !in ItemTexts(p)[i] && ItemTexts(p)[i] != ""
    {
      ValueTextClean(p[i]);
    }
    SplitJoin(ItemTexts(p), ';');
  }

  lemma ReadableIsStable(p: Param, read: string -> Double)
    requires CleanParam(p)
    ensures Readable(p, read) <==> ReadBack(p, read) == [p]
  {
    hide CleanText, IsFloatText, WholeInteger, Decimal, IsStringKey, IsIntKey;
    if p.value.PInt? {
      var n := p.value.n;
      DecimalRoundTrip(AsInt64(n));
      assert -TWO_63 <= AsInt64(n) < TWO_63;
      DecimalNotEmpty(AsInt64(n));
    } else if p.value.PFloat? {
      NoNumber();
    }
  }

  lemma DecimalNotEmpty(n: int)
    ensures Decimal(n) != ""
  {
  }

  lemma NoNumber()
    ensures !IsFloatText("")
  {
  }

  lemma SameConcat<T>(a: seq<T>, b: seq<T>, x: seq<T>, y: seq<T>)
    requires |a| <= |x| && |b| <= |y|
    ensures a + b == x + y <==> a == x && b == y
  {
    if a + b == x + y {
      assert |a| == |x| && |b| == |y|;
      assert a == (a + b)[..|a|] && x == (x + y)[..|x|];
      assert b == (a + b)[|a|..] && y == (x + y)[|x|..];
    }
  }

  lemma {:induction false} AllReadBackStable(p: Params, read: string -> Double)
    requires CleanParams(p)
    ensures |AllReadBack(p, read)| <= |p|
    ensures AllReadBack(p, read) == p <==> AllReadable(p, read)
  {
    hide Readable, CleanParam, ReadBack;
    if p != [] {
      var n := |p| - 1;
      AllReadBackStable(p[..n], read);
      ReadableIsStable(p[n], read);
      ReadBackShort(p[n], read);
      assert p == p[..n] + [p[n]];
      SameConcat(AllReadBack(p[..n], read), ReadBack(p[n], read), p[..n], [p[n]]);
      assert AllReadable(p, read) <==> AllReadable(p[..n], read) && Readable(p[n], read);
    }
  }

  lemma ReadBackShort(p: Param, read: string -> Double)
    ensures |ReadBack(p, read)| <= 1
  {
  }

  /** Printing and parsing a parameter object reproduces it exactly when every value is
      readable. */
  lemma ConfigRoundTrip(p: Params, read: string -> Double)
    requires Sorted(p) && CleanParams(p)
    ensures ParseParams(ConfigText(p), read) == p <==> AllReadable(p, read)
  {
    ItemsAreTokens(p);
    InsertAllReads(p, read);
    AllReadBackStable(p, read);
  }

  // ----- reading other texts -----

  predicate Blank(s: string) {
    forall i :: 0 <= i < |s| ==> IsSpace(s[i])
  }

  lemma {:induction false} TrimLeftPadded(a: string, s: string)
    requires Blank(a) && s != "" && !IsSpace(s[0])
    ensures TrimLeft(a + s) == s
  {
    if a != "" {
      assert (a + s)[1..] == a[1..] + s;
      TrimLeftPadded(a[1..], s);
    } else {
      assert a + s == s;
    }
  }

  lemma {:induction false} TrimRightPadded(s: string, b: string)
    requires Blank(b) && s != "" && !IsSpace(s[|s| - 1])
    ensures TrimRight(s + b) == s
  {
    if b != "" {
      assert (s + b)[..|s + b| - 1] == s + b[..|b| - 1];
      TrimRightPadded(s, b[..|b| - 1]);
    } else {
      assert s + b == s;
    }
  }

  lemma TrimPadded(a: string, s: string, b: string)
    requires Blank(a) && Blank(b) && s != "" && CleanText(s)
    ensures Trim(a + (s + b)) == s
  {
    hide TrimLeft, TrimRight;
    TrimLeftPadded(a, s + b);
    TrimRightPadded(s, b);
  }

  lemma {:induction false} SameTrims(x: seq<string>, y: seq<string>, read: string -> Double)
    requires |x| == |y| && forall i :: 0 <= i < |x| ==> Trim(x[i]) == Trim(y[i])
    ensures InsertAll(x, read) == InsertAll(y, read)
  {
    hide Trim, Insert;
    if x != [] {
      SameTrims(x[..|x| - 1], y[..|y| - 1], read);
    }
  }

  /** Each item with blanks on both sides. */
  function Padded(p: Params, left: seq<string>, right: seq<string>): (items: seq<string>)
    requires |left| == |right| == |p|
    ensures |items| == |p|
  {
    seq(|p|, i requires 0 <= i < |p| => left[i] + (ItemText(p[i]) + right[i]))
  }

  /** Blanks around the items do not matter, as in `minptime=10; useinbandfec=1`. */
  lemma BlanksIgnored(p: Params, left: seq<string>, right: seq<string>, read: string -> Double)
    requires Sorted(p) && CleanParams(p) && AllReadable(p, read) && |left| == |right| == |p|
    requires forall i :: 0 <= i < |p| ==> Blank(left[i]) && Blank(right[i])
    ensures ParseParams(Join(Padded(p, left, right), ';'), read) == p
  {
    hide Sorted, Readable, CleanParam, Trim, InsertAll, ItemText, Blank, Insert;
    var items := Padded(p, left, right);
    forall i | 0 <= i < |p|
      ensures ';' !in items[i] && items[i] != "" && Trim(items[i]) == Trim(ItemTexts(p)[i])
    {
      ItemPadded(p[i], left[i], right[i]);
    }
    SplitJoin(items, ';');
    SameTrims(items, ItemTexts(p), read);
    ItemsAreTokens(p);
    ConfigRoundTrip(p, read);
  }

  lemma ItemPadded(p: Param, left: string, right: string)
    requires CleanParam(p) && Blank(left) && Blank(right)
    ensures var item := left + (ItemText(p) + right);
      ';' !in item && item != "" && Trim(item) == ItemText(p) == Trim(ItemText(p))
  {
    hide Trim, ValueText;
    ValueTextClean(p);
    assert CleanText(ItemText(p));
    TrimPadded(left, ItemText(p), right);
    TrimIdentity(ItemText(p));
  }

  /** The three keys whose values have a type of their own, and the types of other values. */
  lemma KeyTypes(key: string, text: string, read: string -> Double)
    ensures Infer("profile-level-id", text, read) == Infer("profile-id", text, read) == PStr(text)
    ensures Infer("packetization-mode", text, read) == PInt(IntOrZero(text))
    ensures key !in {"profile-level-id", "profile-id", "packetization-mode"} ==>
      Infer(key, text, read) == if IsIntText(text) then PInt(IntOrZero(text))
                                else if IsFloatText(text) then PFloat(read(text)) else PStr(text)
    ensures forall n :: -0x8000_0000_0000_0000 <= n < 0x8000_0000_0000_0000 ==>
      IsIntText(Decimal(n)) && IntOrZero(Decimal(n)) == n
  {
    hide IsFloatText, Decimal, WholeInteger;
    forall n | -0x8000_0000_0000_0000 <= n < 0x8000_0000_0000_0000
      ensures IsIntText(Decimal(n)) && IntOrZero(Decimal(n)) == n
    {
      DecimalRoundTrip(n);
    }
  }
}
