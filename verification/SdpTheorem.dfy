/** The text level: splitting a printed session yields its lines, so that writing, parsing and
    writing again reproduces the text. Also the loops of `write` and `parse` themselves. */
module SdpTheorem {
  import opened Text
  import opened Json
  import opened Regex
  import opened Patterns
  import opened LineShapes
  import opened Grammar
  import opened SdpText
  import opened SdpTokens
  import opened SdpRoundTrip
  import opened SdpStability

  // ----- printed lines have no line break inside -----

  lemma ClassClean(s: string, cls: Class)
    requires AllIn(s, cls) && !In('\n', cls)
    ensures '\n' !in s
  {
  }

  predicate CleanMember(o: Object, n: Key) {
    '\n' !in TextAt(o, n)
  }

  lemma ElementClean(r: Rule, o: Object)
    requires ElementOk(r, o)
    ensures forall n :: n in Names(r) ==> CleanMember(o, n)
  {
    hide Names, CleanMember, ElementOk;
    ElementIsRule(r, o);
    match r {
      case RRtp => MediaElementClean(r, o); case RFmtp => MediaElementClean(r, o);
      case RRtcpFb => MediaElementClean(r, o); case RExt => MediaElementClean(r, o);
        case RFingerprint => MediaElementClean(r, o);
      case RCandidates => StreamElementClean(r, o); case RSsrcs => StreamElementClean(r, o);
      case RSsrcGroups => StreamElementClean(r, o); case RGroups => StreamElementClean(r, o);
      case ROrigin => SessionElementClean(r, o); case RTiming => SessionElementClean(r, o);
      case RConnection => SessionElementClean(r, o); case RMedia => SessionElementClean(r, o);
      case RMsidSemantic => OtherElementClean(r, o); case RRids => OtherElementClean(r, o);
        case RSimulcast => OtherElementClean(r, o);
      case _ =>
    }
  }

  lemma ElementIsRule(r: Rule, o: Object)
    requires ElementOk(r, o)
    ensures IsElementRule(r)
  {
  }

  lemma MediaElementClean(r: Rule, o: Object)
    requires r in {RRtp, RFmtp, RRtcpFb, RExt, RFingerprint} && ElementOk(r, o)
    ensures forall n :: n in Names(r) ==> CleanMember(o, n)
  {
    match r {
      case RRtp => case RFmtp => case RRtcpFb => case RExt => case RFingerprint => case _ =>
    }
  }

  lemma StreamElementClean(r: Rule, o: Object)
    requires r in {RCandidates, RSsrcs, RSsrcGroups, RGroups} && ElementOk(r, o)
    ensures forall n :: n in Names(r) ==> CleanMember(o, n)
  {
    match r {
      case RCandidates => case RSsrcs => case RSsrcGroups => case RGroups => case _ =>
    }
  }

  lemma SessionElementClean(r: Rule, o: Object)
    requires r in {ROrigin, RTiming, RConnection, RMedia} && ElementOk(r, o)
    ensures forall n :: n in Names(r) ==> CleanMember(o, n)
  {
    match r {
      case ROrigin => case RTiming => case RConnection => case RMedia => case _ =>
    }
  }

  lemma OtherElementClean(r: Rule, o: Object)
    requires r in {RMsidSemantic, RRids, RSimulcast} && ElementOk(r, o)
    ensures forall n :: n in Names(r) ==> CleanMember(o, n)
  {
    match r {
      case RMsidSemantic => case RRids => case RSimulcast => case _ =>
    }
  }

  lemma {:induction false} FillClean(f: seq<Piece>, t: seq<string>, i: nat)
    requires i <= |f| <= |t| && forall j :: 0 <= j < |t| ==> '\n' !in t[j]
    ensures '\n' !in Fill(f, t, i)
    decreases |f| - i
  {
    if i < |f| {
      FillClean(f, t, i + 1);
    }
  }

  lemma ContentClean(r: Rule, o: Object)
    requires ElementOk(r, o)
    ensures '\n' !in Content(r, o)
  {
    hide ElementOk, Format, Names;
    ElementClean(r, o);
    forall j | 0 <= j < |Names(r)|
      ensures '\n' !in Texts(r, o)[j]
    {
      assert CleanMember(o, Names(r)[j]);
    }
    if |Format(r, o)| <= |Names(r)| {
      FillClean(Format(r, o), Texts(r, o), 0);
    }
  }

  lemma ScalarClean(r: Rule, v: Json)
    requires ScalarOk(r, v)
    ensures '\n' !in ScalarContent(r, v)
  {
    hide Format, ScalarOk, IsScalarRule;
    ScalarKind(r, v);
    ScalarFormat(r, map[]);
    if v.Num? {
      ClassClean(Digits(v.n), Digit);
    } else {
      ScalarTextClean(r, v);
    }
  }

  lemma ScalarTextClean(r: Rule, v: Json)
    requires ScalarOk(r, v) && v.Str?
    ensures '\n' !in v.s
  {
    hide AllIn, HeadOf, IsDirection;
    match r {
      case RDirection => DirectionClean(v.s);
      case RName => ClassClean(v.s, Any);
      case RSetup => ClassClean(v.s, Word);
      case RMid => ClassClean(v.s, NonSpace);
      case RIceUfrag => ClassClean(v.s, NonSpace);
      case RIcePwd => ClassClean(v.s, NonSpace);
      case RIceOptions => ClassClean(v.s, NonSpace);
      case _ => HeadClean(HeadOf(r));
    }
  }

  lemma HeadClean(head: OneLine)
    ensures '\n' !in head
  {
  }

  lemma DirectionClean(v: string)
    requires IsDirection(v)
    ensures '\n' !in v
  {
  }

  predicate CleanLine(line: Line) {
    'a' <= line.letter <= 'z' && '\n' !in line.content
  }

  predicate CleanLines(lines: seq<Line>) {
    forall i :: 0 <= i < |lines| ==> CleanLine(lines[i])
  }

  lemma LetterRange(r: Rule)
    ensures 'a' <= Letter(r) <= 'z'
  {
  }

  lemma RuleClean(r: Rule, loc: Object)
    requires r != RMedia && RuleOk(r, loc) && NoStray(loc)
    ensures CleanLines(LinesOf(r, loc))
  {
    hide ElementOk, ScalarOk, MakeLine, Content, ScalarContent, Member, Names, IsPush, IsElementRule, IsNested,
      NoStray, Letter;
    LetterRange(r);
    if Member(r) in loc {
      var v := loc[Member(r)];
      if IsPush(r) {
        PushRules(r, v);
        forall i | 0 <= i < |v.items|
          ensures CleanLine(MakeLine(r, v.items[i]))
        {
          PushMakes(r, v.items[i]);
          ContentClean(r, v.items[i]);
        }
      } else if IsElementRule(r) {
        ElementIsNested(r);
        NestedMakes(r, loc);
        ContentClean(r, v.fields);
      } else {
        ScalarRules(r, v);
        ScalarMakes(r, loc);
        ScalarClean(r, v);
      }
    }
  }

  lemma {:induction false} RulesClean(rules: seq<Rule>, loc: Object, acc: Object)
    requires AllOk(rules, loc, acc)
    ensures CleanLines(ObjectLines(rules, loc))
  {
    hide RuleOk, LinesOf, CleanLine, IsPush, Member;
    if rules != [] {
      var n := |rules| - 1;
      RulesClean(rules[..n], loc, acc);
      RuleClean(rules[n], loc);
    }
  }

  lemma SectionClean(m: Object)
    requires SectionOk(m)
    ensures CleanLines(SectionLines(m))
  {
    hide ElementOk, RuleOk, MakeLine, Content, ObjectLines, InnerRules, SectionBase;
    SectionAllOk(m);
    RulesClean(InnerRules(), m, SectionBase(m));
    SectionMediaLine(m);
    ContentClean(RMedia, m);
  }

  lemma {:induction false} MediaClean(media: seq<Object>)
    requires AllSectionsOk(media)
    ensures CleanLines(MediaLines(media))
  {
    hide SectionOk, SectionLines, CleanLine;
    if media != [] {
      MediaClean(media[..|media| - 1]);
      SectionClean(media[|media| - 1]);
    }
  }

  lemma SessionClean(s: Object)
    requires SessionOk(s)
    ensures CleanLines(SessionLines(s))
  {
    hide RuleOk, SectionOk, ObjectLines, OuterRules, MediaLines, CleanLine;
    SessionAllOk(s);
    RulesClean(OuterRules(), s, map[]);
    MediaClean(MediaOf(s));
  }

  // ----- splitting the text -----

  lemma {:induction false} SplitAppend(a: string, t: string, d: char)
    requires a == "" || a[|a| - 1] == d
    requires d !in t
    ensures Split(a + (t + [d]), d) == Split(a, d) + [t]
    decreases |a|
  {
    hide Split;
    var s := t + [d];
    if a == "" {
      SplitToken(t, "", d);
      assert a + s == t + ([d] + "");
      SplitNothing(d);
    } else {
      var i := IndexOf(a, d);
      IndexOfIs(a + s, d, i);
      assert After(a + s, i) == After(a, i) + s && (a + s)[..i] == a[..i];
      SplitAppend(After(a, i), t, d);
      SplitUnfold(a, d);
      SplitUnfold(a + s, d);
    }
  }

  lemma SplitNothing(d: char)
    ensures Split("", d) == []
  {
  }

  lemma SplitUnfold(s: string, d: char)
    requires s != ""
    ensures var i := IndexOf(s, d); Split(s, d) == [s[..i]] + Split(After(s, i), d)
  {
  }

  lemma RenderEnds(lines: seq<Line>)
    ensures Render(lines) == "" || Render(lines)[|Render(lines)| - 1] == '\n'
  {
    if lines != [] {
      assert LineText(lines[|lines| - 1]) != "";
    }
  }

  function RawLine(line: Line): string {
    [line.letter, '='] + (line.content + "\r")
  }

  lemma ChompRaw(line: Line)
    requires CleanLine(line)
    ensures Chomp(RawLine(line)) == [line.letter, '='] + line.content
    ensures IsValidLine(Chomp(RawLine(line)))
    ensures Line(Chomp(RawLine(line))[0], Chomp(RawLine(line))[2..]) == line
    ensures '\n' !in RawLine(line) && LineText(line) == RawLine(line) + ['\n']
  {
    var raw := RawLine(line);
    assert raw[..|raw| - 1] == [line.letter, '='] + line.content;
    assert Chomp(raw)[2..] == line.content;
  }

  /** The lines that were rendered are read back. */
  lemma {:induction false} ReadRendered(lines: seq<Line>)
    requires CleanLines(lines)
    ensures ReadLines(Split(Render(lines), '\n')) == lines
  {
    hide CleanLine, LineText, RawLine, Chomp, IsValidLine, Split;
    if lines == [] {
      NothingRendered();
    } else {
      var n := |lines| - 1;
      var before, raw := Render(lines[..n]), RawLine(lines[n]);
      ReadRendered(lines[..n]);
      RenderEnds(lines[..n]);
      ChompRaw(lines[n]);
      SplitAppend(before, raw, '\n');
      var raws := Split(before, '\n');
      assert (raws + [raw])[..|raws|] == raws;
      assert ReadLines(raws + [raw]) == ReadLines(raws) + [lines[n]];
    }
  }

  lemma NothingRendered()
    ensures ReadLines(Split(Render([]), '\n')) == []
  {
  }

  lemma DefaultsPresent(s: Object)
    requires SessionOk(s)
    ensures SessionLines(FillDefaults(s)) == SessionLines(s)
  {
    hide RuleOk, ObjectLines, MediaLines, OuterRules;
    forall i | 0 <= i < |MediaOf(s)|
      ensures WithPayloads(MediaOf(s)[i]) == MediaOf(s)[i]
    {
      assert SectionOk(MediaOf(s)[i]);
    }
    assert AllWithPayloads(MediaOf(s)) == MediaOf(s);
    assert FillDefaults(s) == s;
  }

  /** Parsing what was written yields the reread session. */
  lemma ParseOfWrite(s: Object)
    requires SessionOk(s)
    ensures ParseText(WriteText(s)) == SessionOut(s)[Media := Arr(SectionOuts(MediaOf(s)))]
  {
    hide RuleOk, SectionOk, SessionLines, FillDefaults, Render, ReadLines, ParseLines, Split;
    DefaultsPresent(s);
    SessionClean(s);
    ReadRendered(SessionLines(s));
    ParseSession(s);
  }

  lemma ScalarSurvives(s: Object, r: Rule, j: nat)
    requires j < |OuterRules()| && OuterRules()[j] == r && r != RMedia && !IsPush(r) && Member(r) in s
    ensures Member(r) in SessionOut(s)
  {
    hide WithRules, OuterRules, Member, IsPush, MakeLine;
    OrdersArePrintable();
    WithRulesAt(OuterRules(), s, map[], j);
  }

  lemma OuterScalars()
    ensures |OuterRules()| > 2 && OuterRules()[0] == RVersion && OuterRules()[2] == RName
  {
  }

  /** Printing is stable through parsing. */
  lemma WriteParseWrite(s: Object)
    requires SessionOk(s)
    ensures WriteText(ParseText(WriteText(s))) == WriteText(s)
  {
    hide RuleOk, SectionOk, ObjectLines, MediaLines, Render, SessionOut, SectionOuts, OuterRules, ParseText;
    var outs := SectionOuts(MediaOf(s));
    var p := SessionOut(s)[Media := Arr(outs)];
    ParseOfWrite(s);
    OuterScalars();
    ScalarSurvives(s, RVersion, 0);
    ScalarSurvives(s, RName, 2);
    assert FillDefaults(p) == SessionOut(s)[Media := Arr(AllWithPayloads(outs))];
    SessionReprints(s, AllWithPayloads(outs));
    MediaReprints(MediaOf(s));
    DefaultsPresent(s);
  }
}
