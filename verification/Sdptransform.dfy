/** The loops of sdptransform::write and sdptransform::parse. */
module Sdptransform {
  import opened Text
  import opened Json
  import opened Patterns
  import opened Grammar
  import opened SdpText
  import opened SdpTheorem

  /** The rules of a list of line letters, letter by letter. */
  function RulesInOrder(letters: string): seq<Rule> {
    if letters == "" then [] else RulesInOrder(letters[..|letters| - 1]) + RulesOf(letters[|letters| - 1])
  }

  lemma RulesOfPrefix(letters: string, i: nat)
    requires i < |letters|
    ensures RulesInOrder(letters[..i + 1]) == RulesInOrder(letters[..i]) + RulesOf(letters[i])
  {
    assert letters[..i + 1][..i] == letters[..i];
  }

  lemma SingleRules(letters: string, i: nat, r: Rule, before: seq<Rule>)
    requires i < |letters| && RulesOf(letters[i]) == [r] && RulesInOrder(letters[..i]) == before
    ensures RulesInOrder(letters[..i + 1]) == before + [r]
  {
    RulesOfPrefix(letters, i);
  }

  /** The printing order of the RFC is the flattened rule table. */
  lemma InnerOrder()
    ensures RulesInOrder(INNER_LETTERS) == InnerRules()
  {
    hide RulesInOrder;
    var letters := INNER_LETTERS;
    NoLetters(letters);
    SingleRules(letters, 0, RDescription, []);
    SingleRules(letters, 1, RConnection, [RDescription]);
    SingleRules(letters, 2, RBandwidth, [RDescription, RConnection]);
    assert [RDescription, RConnection] + [RBandwidth] == [RDescription, RConnection, RBandwidth];
    RulesOfPrefix(letters, 3);
    assert letters[..4] == letters;
  }

  lemma NoLetters(letters: string)
    ensures RulesInOrder(letters[..0]) == []
  {
  }

  lemma OuterOrder()
    ensures RulesInOrder(OUTER_LETTERS) == OuterRules()
  {
    hide RulesInOrder, ARules;
    var letters := OUTER_LETTERS;
    OuterHead(letters);
    OuterMiddle(letters);
    OuterTail(letters);
    RulesOfPrefix(letters, 12);
    assert letters[..13] == letters;
    assert RulesOf(letters[12]) == ARules();
  }

  lemma OuterHead(letters: string)
    requires letters == OUTER_LETTERS
    ensures RulesInOrder(letters[..4]) == [RVersion, ROrigin, RName, RDescription]
  {
    hide RulesInOrder;
    NoLetters(letters);
    SingleRules(letters, 0, RVersion, []);
    SingleRules(letters, 1, ROrigin, [RVersion]);
    SingleRules(letters, 2, RName, [RVersion, ROrigin]);
    SingleRules(letters, 3, RDescription, [RVersion, ROrigin, RName]);
  }

  lemma OuterMiddle(letters: string)
    requires letters == OUTER_LETTERS
    ensures RulesInOrder(letters[..8]) == RulesInOrder(letters[..4]) + [RUri, REmail, RPhone, RConnection]
  {
    hide RulesInOrder;
    var before := RulesInOrder(letters[..4]);
    SingleRules(letters, 4, RUri, before);
    SingleRules(letters, 5, REmail, before + [RUri]);
    SingleRules(letters, 6, RPhone, before + [RUri] + [REmail]);
    SingleRules(letters, 7, RConnection, before + [RUri] + [REmail] + [RPhone]);
  }

  lemma OuterTail(letters: string)
    requires letters == OUTER_LETTERS
    ensures RulesInOrder(letters[..12]) == RulesInOrder(letters[..8]) + [RBandwidth, RTiming, RRepeats, RTimeZones]
  {
    hide RulesInOrder;
    var before := RulesInOrder(letters[..8]);
    SingleRules(letters, 8, RBandwidth, before);
    SingleRules(letters, 9, RTiming, before + [RBandwidth]);
    SingleRules(letters, 10, RRepeats, before + [RBandwidth] + [RTiming]);
    SingleRules(letters, 11, RTimeZones, before + [RBandwidth] + [RTiming] + [RRepeats]);
  }

  lemma {:induction false} RenderConcat(a: seq<Line>, b: seq<Line>)
    ensures Render(a + b) == Render(a) + Render(b)
  {
    hide LineText;
    if b == [] {
      assert a + b == a;
    } else {
      assert (a + b)[..|a + b| - 1] == a + b[..|b| - 1];
      RenderConcat(a, b[..|b| - 1]);
    }
  }

  /** makeLine: the arguments are collected name by name, then the format is expanded
      directive by directive. */
  method WriteLine(r: Rule, loc: Object) returns (text: string)
    ensures text == LineText(MakeLine(r, loc))
  {
    hide Names, Letter, Member, Format, FormatObject, Argument, Expand;
    var args := [];
    for i := 0 to |Names(r)|
      invariant |args| == i && forall j :: 0 <= j < i ==> args[j] == Argument(r, loc, Names(r)[j])
    {
      args := args + [Argument(r, loc, Names(r)[i])];
    }
    if Names(r) == [] && r != RMedia && Member(r) in loc {
      args := [loc[Member(r)]];
    }
    assert args == Arguments(r, loc);
    var format := Format(r, FormatObject(r, loc));
    var body := ExpandFormat(format, args);
    text := [Letter(r), '='] + (body + "\r\n");
  }

  method ExpandFormat(format: seq<Piece>, args: seq<Json>) returns (body: string)
    ensures body == Expand(format, args, 0)
  {
    body := "";
    var i := 0;
    while i < |format|
      invariant 0 <= i <= |format|
      invariant body + Expand(format, args, i) == Expand(format, args, 0)
    {
      ghost var rest := Expand(format, args, i + 1);
      var part;
      if i >= |args| {
        part := ['%', format[i].directive];
      } else if format[i].directive == 'v' {
        part := format[i].prefix;
      } else {
        part := format[i].prefix + ArgText(args[i]);
      }
      assert Expand(format, args, i) == part + rest;
      Associate(body, part, rest);
      body := body + part;
      i := i + 1;
    }
    assert body + "" == body;
  }

  lemma Associate(a: string, b: string, c: string)
    ensures a + (b + c) == (a + b) + c
  {
  }

  /** One rule of a location: its named member, or every element of its array. */
  method WriteRule(r: Rule, loc: Object) returns (text: string)
    ensures text == Render(LinesOf(r, loc))
  {
    hide MakeLine, LineText;
    text := "";
    if r == RMedia || Member(r) !in loc {
      return;
    }
    ghost var lines := LinesOf(r, loc);
    if IsPush(r) {
      var items := ItemsOf(loc[Member(r)]);
      for i := 0 to |items|
        invariant text == Render(lines[..i])
      {
        var line := WriteLine(r, items[i]);
        assert lines[..i + 1][..i] == lines[..i];
        text := text + line;
      }
      assert lines[..|items|] == lines;
    } else {
      var line := WriteLine(r, loc);
      assert lines[..0] == [];
      text := text + line;
    }
  }

  /** The attribute lines of a location, in the order of the letters. */
  method WriteLocation(letters: string, loc: Object) returns (text: string)
    ensures text == Render(ObjectLines(RulesInOrder(letters), loc))
  {
    hide LinesOf, RulesOf, Render, ObjectLines, RulesInOrder;
    text := "";
    NothingPrinted(loc);
    for i := 0 to |letters|
      invariant text == Render(ObjectLines(RulesInOrder(letters[..i]), loc))
    {
      text := WriteRules(RulesInOrder(letters[..i]), RulesOf(letters[i]), loc, text);
      RulesOfPrefix(letters, i);
    }
    assert letters[..|letters|] == letters;
  }

  lemma NothingPrinted(loc: Object)
    ensures RulesInOrder("") == [] && Render(ObjectLines([], loc)) == ""
  {
  }

  /** The rules of one letter, behind what has been printed. */
  method WriteRules(ghost before: seq<Rule>, rules: seq<Rule>, loc: Object, printed: string) returns (text: string)
    requires printed == Render(ObjectLines(before, loc))
    ensures text == Render(ObjectLines(before + rules, loc))
  {
    hide LinesOf, Render, ObjectLines;
    text := printed;
    assert before + rules[..0] == before;
    for j := 0 to |rules|
      invariant text == Render(ObjectLines(before + rules[..j], loc))
    {
      var line := WriteRule(rules[j], loc);
      assert before + rules[..j + 1] == (before + rules[..j]) + [rules[j]];
      ObjectLinesSnoc(before + rules[..j], rules[j], loc);
      RenderConcat(ObjectLines(before + rules[..j], loc), LinesOf(rules[j], loc));
      text := text + line;
    }
    assert rules[..|rules|] == rules;
  }

  lemma ObjectLinesSnoc(rules: seq<Rule>, r: Rule, loc: Object)
    ensures ObjectLines(rules + [r], loc) == ObjectLines(rules, loc) + LinesOf(r, loc)
  {
    hide LinesOf;
    assert (rules + [r])[..|rules|] == rules;
  }

  /** sdptransform::write: the text, and the session with its defaults filled in. */
  method Write(session: Object) returns (text: string, filled: Object)
    ensures text == WriteText(session) && filled == FillDefaults(session)
  {
    hide ObjectLines, MakeLine, MediaLines, Render, LineText, OuterRules, RulesInOrder;
    filled := session;
    if Version !in filled {
      filled := filled[Version := Num(0)];
    }
    if Name !in filled {
      filled := filled[Name := Str("-")];
    }
    var media := FillPayloads(MediaOf(filled));
    filled := filled[Media := Arr(media)];
    assert MediaOf(filled) == media;
    OuterOrder();
    var outer := WriteLocation(OUTER_LETTERS, filled);
    var inner := WriteMedia(media);
    RenderConcat(ObjectLines(OuterRules(), filled), MediaLines(media));
    text := outer + inner;
  }

  method FillPayloads(given: seq<Object>) returns (media: seq<Object>)
    ensures media == AllWithPayloads(given)
  {
    media := given;
    for i := 0 to |given|
      invariant |media| == |given|
      invariant forall j :: 0 <= j < |media| ==> media[j] == if j < i then WithPayloads(given[j]) else given[j]
    {
      if Payloads !in media[i] {
        media := media[i := media[i][Payloads := Str("")]];
      }
    }
  }

  method WriteMedia(media: seq<Object>) returns (text: string)
    ensures text == Render(MediaLines(media))
  {
    hide ObjectLines, MakeLine, LineText;
    text := "";
    InnerOrder();
    for i := 0 to |media|
      invariant text == Render(MediaLines(media[..i]))
    {
      var m := media[i];
      var first := WriteLine(RMedia, m);
      var rest := WriteLocation(INNER_LETTERS, m);
      assert [MakeLine(RMedia, m)][..0] == [];
      assert Render([MakeLine(RMedia, m)]) == first;
      RenderConcat([MakeLine(RMedia, m)], ObjectLines(InnerRules(), m));
      RenderConcat(MediaLines(media[..i]), SectionLines(m));
      assert media[..i + 1][..i] == media[..i];
      text := text + (first + rest);
    }
    assert media[..|media|] == media;
  }

  /** The first rule of the letter that matches the content. */
  method FindRule(rules: seq<Rule>, content: string) returns (found: Option<Rule>)
    ensures found == FirstMatch(rules, content)
  {
    hide Captures;
    var j := 0;
    while j < |rules|
      invariant 0 <= j <= |rules|
      invariant FirstMatch(rules, content) == FirstMatch(rules[j..], content)
    {
      if Captures(rules[j], content).Some? {
        return Some(rules[j]);
      }
      assert rules[j..][1..] == rules[j + 1..];
      j := j + 1;
    }
    found := None;
  }

  /** attachProperties: every non-empty capture becomes a member. */
  method AttachProperties(r: Rule, caps: seq<string>, loc: Object) returns (out: Object)
    ensures out == Attach(r, caps, loc)
  {
    hide Names, Types, Member;
    TypesCoverNames(r);
    out := loc;
    if Names(r) == [] && r != RMedia {
      out := out[Member(r) := ToType(if caps == [] then "" else caps[0], Types(r)[0])];
      return;
    }
    for i := 0 to |Names(r)|
      invariant AttachNames(Names(r), Types(r), caps, loc, 0) == AttachNames(Names(r), Types(r), caps, out, i)
    {
      if i < |caps| && caps[i] != "" {
        out := out[Names(r)[i] := ToType(caps[i], Types(r)[i])];
      }
    }
  }

  /** sdptransform::parse, line by line. */
  method Parse(sdp: string) returns (session: Object)
    ensures session == ParseText(sdp)
  {
    hide Attach, Captures, ParseLine, ParseLines, FirstMatch, ReadLines, Split;
    var raws := SplitTokens(sdp, '\n');
    var st := EMPTY_STATE;
    NothingRead();
    for i := 0 to |raws|
      invariant st == ParseLines(EMPTY_STATE, ReadLines(raws[..i]))
    {
      var raw := Chomp(raws[i]);
      ReadSnoc(raws, i);
      if IsValidLine(raw) {
        var line := Line(raw[0], raw[2..]);
        ParseLinesSnoc(EMPTY_STATE, ReadLines(raws[..i]), line);
        st := ConsumeLine(st, line);
      } else {
        assert ReadLines(raws[..i]) + [] == ReadLines(raws[..i]);
      }
    }
    assert raws[..|raws|] == raws;
    session := st.session[Media := Arr(st.media)];
  }

  lemma NothingRead()
    ensures ParseLines(EMPTY_STATE, ReadLines([])) == EMPTY_STATE
  {
  }

  lemma ReadSnoc(raws: seq<string>, i: nat)
    requires i < |raws|
    ensures var raw := Chomp(raws[i]);
      ReadLines(raws[..i + 1]) == ReadLines(raws[..i]) + if IsValidLine(raw) then [Line(raw[0], raw[2..])] else []
  {
    assert raws[..i + 1][..i] == raws[..i];
  }

  lemma ParseLinesSnoc(st: ParseState, lines: seq<Line>, line: Line)
    ensures ParseLines(st, lines + [line]) == ParseLine(ParseLines(st, lines), line)
  {
    hide ParseLine;
    assert (lines + [line])[..|lines|] == lines;
  }

  method ConsumeLine(st: ParseState, line: Line) returns (next: ParseState)
    ensures next == ParseLine(st, line)
  {
    hide Captures, ParseReg, FirstMatch, RulesOf;
    var media := if line.letter == 'm' then st.media + [NewSection()] else st.media;
    var location := if media == [] then st.session else media[|media| - 1];
    var rule := FindRule(RulesOf(line.letter), line.content);
    if rule.Some? {
      var caps := Captures(rule.value, line.content);
      if caps.Some? {
        location := StoreCaptures(rule.value, location, caps.value);
      }
    }
    next := if media == [] then ParseState(location, []) else ParseState(st.session, media[|media| - 1 := location]);
  }

  /** parseReg: the captures go into the pushed element, the nested object or the location. */
  method StoreCaptures(r: Rule, loc: Object, caps: seq<string>) returns (out: Object)
    ensures out == ParseReg(r, loc, caps)
  {
    hide Attach;
    if r != RMedia && IsPush(r) {
      var element := AttachProperties(r, caps, map[]);
      out := loc[Member(r) := Arr(ItemsOf(Look(loc, Member(r))) + [element])];
    } else if r != RMedia && IsNested(r) {
      var fields := AttachProperties(r, caps, FieldsOf(Look(loc, Member(r))));
      out := loc[Member(r) := Obj(fields)];
    } else {
      out := AttachProperties(r, caps, loc);
    }
  }
}
