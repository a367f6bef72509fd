/** Whole sessions: what `write` prints, `parse` and `write` print again. */
module SdpStability {
  import opened Text
  import opened Json
  import opened Regex
  import opened Patterns
  import opened LineShapes
  import opened Grammar
  import opened Heads
  import opened SdpText
  import opened SdpTokens
  import opened SdpRoundTrip

  // ----- the printing order -----

  function InnerPosition(r: Rule): int {
    match Letter(r)
    case 'i' => 0
    case 'c' => 1
    case 'b' => 2
    case _ => 3 + Rank(r)
  }

  function OuterPosition(r: Rule): int {
    match Letter(r)
    case 'v' => 0 case 'o' => 1 case 's' => 2 case 'i' => 3 case 'u' => 4 case 'e' => 5 case 'p' => 6
    case 'c' => 7 case 'b' => 8 case 't' => 9 case 'r' => 10 case 'z' => 11
    case _ => 12 + Rank(r)
  }

  lemma InnerAt(i: nat)
    requires i < |InnerRules()|
    ensures InnerPosition(InnerRules()[i]) == i && InnerRules()[i] != RMedia
  {
    hide AttributeRule, Rank;
    if i >= 3 {
      assert InnerRules()[i] == ARules()[i - 3];
      ARulesAt(i - 3);
      RankOfRule(i - 3);
    }
  }

  lemma OuterAt(i: nat)
    requires i < |OuterRules()|
    ensures OuterPosition(OuterRules()[i]) == i && OuterRules()[i] != RMedia
  {
    hide AttributeRule, Rank;
    if i >= 12 {
      assert OuterRules()[i] == ARules()[i - 12];
      ARulesAt(i - 12);
      RankOfRule(i - 12);
    }
  }

  predicate Printable(rules: seq<Rule>) {
    Distinct(rules) && forall i :: 0 <= i < |rules| ==> rules[i] != RMedia
  }

  lemma OrdersArePrintable()
    ensures Printable(InnerRules()) && Printable(OuterRules())
  {
    hide InnerPosition, OuterPosition, InnerRules, OuterRules;
    forall i | 0 <= i < |InnerRules()|
      ensures InnerPosition(InnerRules()[i]) == i && InnerRules()[i] != RMedia
    {
      InnerAt(i);
    }
    forall i | 0 <= i < |OuterRules()|
      ensures OuterPosition(OuterRules()[i]) == i && OuterRules()[i] != RMedia
    {
      OuterAt(i);
    }
  }

  // ----- one location -----

  /** The value of a rule's member after all rules have been parsed. */
  lemma {:induction false} WithRulesAt(rules: seq<Rule>, loc: Object, acc: Object, j: nat)
    requires Printable(rules) && j < |rules|
    ensures var out, m := WithRules(rules, loc, acc), Member(rules[j]);
      if LinesOf(rules[j], loc) != [] then m in out && out[m] == Reread(rules[j], loc[m])
      else (m in out <==> m in acc) && Look(out, m) == Look(acc, m)
  {
    hide LinesOf, Reread, Member, RuleFor;
    var n := |rules| - 1;
    MemberIsOwned(rules[j]);
    MemberIsOwned(rules[n]);
    if j == n {
      WithRulesOther(rules[..n], loc, acc, Member(rules[j]));
    } else {
      WithRulesAt(rules[..n], loc, acc, j);
    }
  }

  lemma {:induction false} ObjectLinesAgree(rules: seq<Rule>, a: Object, b: Object)
    requires forall i :: 0 <= i < |rules| ==> LinesOf(rules[i], a) == LinesOf(rules[i], b)
    ensures ObjectLines(rules, a) == ObjectLines(rules, b)
  {
    hide LinesOf;
    if rules != [] {
      ObjectLinesAgree(rules[..|rules| - 1], a, b);
    }
  }

  /** A location and its rereading print the same attribute lines, whatever else the rereading
      holds under members no rule owns. */
  lemma ReprintLocation(rules: seq<Rule>, loc: Object, acc: Object, out: Object)
    requires Printable(rules) && AllOk(rules, loc, acc) && NoStray(out)
    requires forall i :: 0 <= i < |rules| ==>
      var m := Member(rules[i]); var w := WithRules(rules, loc, acc);
      (m in out <==> m in w) && Look(out, m) == Look(w, m)
    ensures ObjectLines(rules, out) == ObjectLines(rules, loc)
  {
    hide LinesOf, Member, RuleOk, Reread, WithRule;
    var w := WithRules(rules, loc, acc);
    forall i | 0 <= i < |rules|
      ensures LinesOf(rules[i], out) == LinesOf(rules[i], loc)
    {
      var m := Member(rules[i]);
      WithRulesAt(rules, loc, acc, i);
      LookSame(out, w, m);
      if LinesOf(rules[i], loc) == [] {
        LookSame(w, acc, m);
      }
      LinesAgree(rules[i], loc, out);
    }
    ObjectLinesAgree(rules, out, loc);
  }

  // ----- sections -----

  /** What a printed m-section may hold. */
  predicate SectionOk(m: Object) {
    && ElementOk(RMedia, m) && NoStray(m)
    && forall r :: r in InnerRules() ==> RuleOk(r, m)
  }

  function SectionBase(m: Object): Object {
    Reparsed(RMedia, m, NewSection())
  }

  function SectionOut(m: Object): Object {
    WithRules(InnerRules(), m, SectionBase(m))
  }

  lemma BaseMember(m: Object, k: Key)
    requires k !in Names(RMedia)
    ensures (k in SectionBase(m) <==> k in NewSection()) && Look(SectionBase(m), k) == Look(NewSection(), k)
  {
    TypesCoverNames(RMedia);
    AttachOther(Names(RMedia), Types(RMedia), Texts(RMedia, m), NewSection(), 0, k);
  }

  lemma MembersAreNoMediaNames(r: Rule)
    requires r != RMedia
    ensures Member(r) !in Names(RMedia)
  {
    hide Member;
    MemberIsOwned(r);
  }

  lemma BaseHolds(m: Object, r: Rule)
    requires r != RMedia && Member(r) in SectionBase(m)
    ensures IsPush(r) && SectionBase(m)[Member(r)] == Arr([])
  {
    hide SectionBase, Member, IsPush;
    MembersAreNoMediaNames(r);
    BaseMember(m, Member(r));
    assert Member(r) in NewSection() && NewSection()[Member(r)] == Arr([]);
    PushMembers(r);
  }

  lemma SectionAllOk(m: Object)
    requires SectionOk(m)
    ensures AllOk(InnerRules(), m, SectionBase(m))
  {
    hide RuleOk, SectionBase, Member, IsPush, ElementOk;
    OrdersArePrintable();
    var base := SectionBase(m);
    forall i | 0 <= i < |InnerRules()|
      ensures var r := InnerRules()[i]; r != RMedia && RuleOk(r, m)
      ensures var r := InnerRules()[i]; Member(r) in base ==> IsPush(r) && base[Member(r)] == Arr([])
    {
      var r := InnerRules()[i];
      assert r in InnerRules();
      if Member(r) in base {
        BaseHolds(m, r);
      }
    }
  }

  lemma PushMembers(r: Rule)
    requires r != RMedia && Member(r) in {Rtp, Fmtp}
    ensures IsPush(r)
  {
    hide Member;
    MemberIsOwned(r);
  }

  /** Members no rule owns stay what the m-line made them. */
  lemma UnownedMember(m: Object, k: Key)
    requires RuleFor(k) == RMedia
    ensures (k in SectionOut(m) <==> k in SectionBase(m)) && Look(SectionOut(m), k) == Look(SectionBase(m), k)
  {
    hide InnerRules, SectionBase, RuleFor, WithRules;
    OrdersArePrintable();
    WithRulesOther(InnerRules(), m, SectionBase(m), k);
  }

  lemma MediaNamesUnowned(k: Key)
    requires k in Names(RMedia)
    ensures RuleFor(k) == RMedia && k !in NewSection()
  {
    hide RuleFor;
    MediaNames(k);
    MediaKeysUnowned(k);
  }

  lemma MediaNames(k: Key)
    requires k in Names(RMedia)
    ensures k in {Type, Port, NumPorts, Protocol, Payloads}
  {
  }

  lemma MediaKeysUnowned(k: Key)
    requires k in {Type, Port, NumPorts, Protocol, Payloads}
    ensures RuleFor(k) == RMedia
  {
  }

  lemma MediaTextAt(m: Object, j: nat)
    requires ElementOk(RMedia, m) && j < |Names(RMedia)|
    ensures TextAt(WithPayloads(SectionOut(m)), Names(RMedia)[j]) == TextAt(m, Names(RMedia)[j])
  {
    hide ElementOk, SectionOut, RuleFor, NewSection, Names;
    var k := Names(RMedia)[j];
    ElementStable(RMedia, m);
    MediaNamesUnowned(k);
    ReparsedText(RMedia, m, NewSection(), j);
    UnownedMember(m, k);
  }

  lemma SectionMediaLine(m: Object)
    requires ElementOk(RMedia, m)
    ensures MakeLine(RMedia, WithPayloads(SectionOut(m))) == MakeLine(RMedia, m)
    ensures MakeLine(RMedia, m) == Line('m', Content(RMedia, m))
  {
    hide SectionOut, ElementOk, Content, Format, MakeLine, WithPayloads, Names, Texts, Argument, FormatObject,
      Captures, Dispatch;
    var out := WithPayloads(SectionOut(m));
    forall j | 0 <= j < |Names(RMedia)|
      ensures TextAt(out, Names(RMedia)[j]) == TextAt(m, Names(RMedia)[j])
    {
      MediaTextAt(m, j);
    }
    ContentByTexts(RMedia, out, m);
    FormatByTexts(RMedia, out, m);
    ElementReads(RMedia, m);
    MediaArguments(m);
    MediaArguments(out);
    MakeLineContent(RMedia, m, m);
    MakeLineContent(RMedia, out, out);
  }

  lemma MediaArguments(o: Object)
    ensures Names(RMedia) != [] && FormatObject(RMedia, o) == o
    ensures forall j :: 0 <= j < |Names(RMedia)| ==> Argument(RMedia, o, Names(RMedia)[j]) == Look(o, Names(RMedia)[j])
  {
  }

  lemma OutHasNoStray(m: Object)
    ensures NoStray(WithPayloads(SectionOut(m)))
  {
    hide SectionOut, SectionBase, RuleFor;
    forall k | k in {Ttl, Dir2, List2}
      ensures k !in SectionOut(m)
    {
      StrayKeysAreFree();
      UnownedMember(m, k);
      BaseMember(m, k);
    }
  }

  lemma OutKeepsMembers(m: Object, r: Rule)
    requires r != RMedia
    ensures var k, out := Member(r), WithPayloads(SectionOut(m));
      (k in out <==> k in SectionOut(m)) && Look(out, k) == Look(SectionOut(m), k)
  {
    hide SectionOut, Member;
    MembersAreNoMediaNames(r);
  }

  /** A section prints again exactly as it was printed. */
  lemma SectionReprints(m: Object)
    requires SectionOk(m)
    ensures SectionLines(WithPayloads(SectionOut(m))) == SectionLines(m)
  {
    hide MakeLine, Member, ElementOk, RuleOk, WithRules, InnerRules, ObjectLines, WithPayloads, NoStray, SectionBase;
    var out := WithPayloads(SectionOut(m));
    OrdersArePrintable();
    SectionAllOk(m);
    OutHasNoStray(m);
    forall i | 0 <= i < |InnerRules()|
      ensures var k := Member(InnerRules()[i]);
        (k in out <==> k in SectionOut(m)) && Look(out, k) == Look(SectionOut(m), k)
    {
      OutKeepsMembers(m, InnerRules()[i]);
    }
    ReprintLocation(InnerRules(), m, SectionBase(m), out);
    SectionMediaLine(m);
  }

  // ----- parsing the printed lines -----

  lemma {:induction false} ParseLinesConcat(st: ParseState, a: seq<Line>, b: seq<Line>)
    ensures ParseLines(st, a + b) == ParseLines(ParseLines(st, a), b)
  {
    hide ParseLine;
    if b == [] {
      assert a + b == a;
    } else {
      assert (a + b)[..|a + b| - 1] == a + b[..|b| - 1];
      ParseLinesConcat(st, a, b[..|b| - 1]);
    }
  }

  predicate NoMediaLine(lines: seq<Line>) {
    forall i :: 0 <= i < |lines| ==> lines[i].letter != 'm'
  }

  /** Lines before the first m-section fill the session. */
  lemma {:induction false} ParseOuter(session: Object, lines: seq<Line>)
    requires NoMediaLine(lines)
    ensures ParseLines(ParseState(session, []), lines) == ParseState(FeedLines(session, lines), [])
  {
    hide FeedLine;
    if lines != [] {
      ParseOuter(session, lines[..|lines| - 1]);
    }
  }

  /** Lines behind an m-line fill the latest section. */
  lemma {:induction false} ParseInner(session: Object, media: seq<Object>, loc: Object, lines: seq<Line>)
    requires NoMediaLine(lines)
    ensures ParseLines(ParseState(session, media + [loc]), lines)
      == ParseState(session, media + [FeedLines(loc, lines)])
  {
    hide FeedLine;
    if lines != [] {
      ParseInner(session, media, loc, lines[..|lines| - 1]);
    }
  }

  lemma {:induction false} ObjectLinesLetters(rules: seq<Rule>, loc: Object)
    ensures NoMediaLine(ObjectLines(rules, loc))
  {
    hide Format, Arguments;
    if rules != [] {
      ObjectLinesLetters(rules[..|rules| - 1], loc);
      LetterOfMedia(rules[|rules| - 1]);
    }
  }

  lemma LetterOfMedia(r: Rule)
    ensures Letter(r) == 'm' <==> r == RMedia
  {
  }

  lemma ParseMediaLine(st: ParseState, m: Object)
    requires ElementOk(RMedia, m)
    ensures ParseLine(st, MakeLine(RMedia, m)) == ParseState(st.session, st.media + [SectionBase(m)])
  {
    hide Content, MakeLine, FeedLine, SectionBase, ElementOk;
    SectionMediaLine(m);
    FeedMediaLine(m);
  }

  lemma FeedMediaLine(m: Object)
    requires ElementOk(RMedia, m)
    ensures FeedLine(NewSection(), Line('m', Content(RMedia, m))) == SectionBase(m)
  {
    hide Content, Captures, Dispatch, Texts, ElementOk, AttachNames, NewSection;
    ElementReads(RMedia, m);
  }

  /** Parsing the lines of a section adds one section. */
  lemma ParseSection(st: ParseState, m: Object)
    requires SectionOk(m)
    ensures ParseLines(st, SectionLines(m)) == ParseState(st.session, st.media + [SectionOut(m)])
  {
    hide MakeLine, ParseLine, ElementOk, RuleOk, WithRules, ObjectLines, SectionBase;
    var first, rest := [MakeLine(RMedia, m)], ObjectLines(InnerRules(), m);
    ParseLinesConcat(st, first, rest);
    assert first[..0] == [];
    ParseMediaLine(st, m);
    ObjectLinesLetters(InnerRules(), m);
    ParseInner(st.session, st.media, SectionBase(m), rest);
    SectionAllOk(m);
    OrdersArePrintable();
    FeedRules(InnerRules(), m, SectionBase(m));
  }

  function SectionOuts(media: seq<Object>): (outs: seq<Object>)
    ensures |outs| == |media|
  {
    seq(|media|, i requires 0 <= i < |media| => SectionOut(media[i]))
  }

  predicate AllSectionsOk(media: seq<Object>) {
    forall i :: 0 <= i < |media| ==> SectionOk(media[i])
  }

  lemma NoMedia(session: Object)
    ensures ParseLines(ParseState(session, []), []) == ParseState(session, [])
  {
  }

  lemma {:induction false} ParseMedia(session: Object, media: seq<Object>)
    requires AllSectionsOk(media)
    ensures ParseLines(ParseState(session, []), MediaLines(media)) == ParseState(session, SectionOuts(media))
  {
    hide SectionOk, SectionOut, SectionLines, ParseLine, ParseLines;
    if media == [] {
      NoMedia(session);
    } else {
      var n := |media| - 1;
      ParseMedia(session, media[..n]);
      ParseLinesConcat(ParseState(session, []), MediaLines(media[..n]), SectionLines(media[n]));
      ParseSection(ParseState(session, SectionOuts(media[..n])), media[n]);
      assert SectionOuts(media) == SectionOuts(media[..n]) + [SectionOut(media[n])];
    }
  }

  lemma {:induction false} MediaReprints(media: seq<Object>)
    requires AllSectionsOk(media)
    ensures MediaLines(AllWithPayloads(SectionOuts(media))) == MediaLines(media)
  {
    hide SectionOk, SectionOut, SectionLines, WithPayloads;
    if media != [] {
      var n := |media| - 1;
      var outs := AllWithPayloads(SectionOuts(media));
      MediaReprints(media[..n]);
      assert outs[..n] == AllWithPayloads(SectionOuts(media[..n]));
      SectionReprints(media[n]);
    }
  }

  // ----- the session -----

  /** What a printed session may hold. */
  predicate SessionOk(s: Object) {
    && NoStray(s) && Version in s && Name in s && HasArr(s, Media)
    && (forall r :: r in OuterRules() ==> RuleOk(r, s))
    && AllSectionsOk(MediaOf(s))
  }

  function SessionOut(s: Object): Object {
    WithRules(OuterRules(), s, map[])
  }

  lemma SessionAllOk(s: Object)
    requires SessionOk(s)
    ensures AllOk(OuterRules(), s, map[])
  {
    hide RuleOk, Member, IsPush, SectionOk, OuterRules;
    OrdersArePrintable();
    assert forall i :: 0 <= i < |OuterRules()| ==> OuterRules()[i] in OuterRules();
  }

  lemma ParseSession(s: Object)
    requires SessionOk(s)
    ensures ParseLines(EMPTY_STATE, SessionLines(s)) == ParseState(SessionOut(s), SectionOuts(MediaOf(s)))
  {
    hide RuleOk, SectionOk, WithRules, ObjectLines, MediaLines, FeedLines, OuterRules;
    var outer, inner := ObjectLines(OuterRules(), s), MediaLines(MediaOf(s));
    ParseLinesConcat(EMPTY_STATE, outer, inner);
    ObjectLinesLetters(OuterRules(), s);
    ParseOuter(map[], outer);
    SessionAllOk(s);
    OrdersArePrintable();
    FeedRules(OuterRules(), s, map[]);
    ParseMedia(SessionOut(s), MediaOf(s));
  }

  lemma OuterMember(s: Object, k: Key)
    requires RuleFor(k) == RMedia
    ensures k !in SessionOut(s)
  {
    hide WithRules, OuterRules;
    OrdersArePrintable();
    WithRulesOther(OuterRules(), s, map[], k);
  }

  /** The session prints again exactly as it was printed. */
  lemma SessionReprints(s: Object, media: seq<Object>)
    requires SessionOk(s)
    ensures ObjectLines(OuterRules(), SessionOut(s)[Media := Arr(media)]) == ObjectLines(OuterRules(), s)
  {
    hide Member, RuleOk, WithRules, OuterRules, ObjectLines, RuleFor, SectionOk;
    var out := SessionOut(s)[Media := Arr(media)];
    OrdersArePrintable();
    SessionAllOk(s);
    StrayKeysAreFree();
    OuterMember(s, Ttl);
    OuterMember(s, Dir2);
    OuterMember(s, List2);
    forall i | 0 <= i < |OuterRules()|
      ensures var k := Member(OuterRules()[i]);
        (k in out <==> k in SessionOut(s)) && Look(out, k) == Look(SessionOut(s), k)
    {
      MemberIsOwned(OuterRules()[i]);
    }
    ReprintLocation(OuterRules(), s, map[], out);
  }

  lemma StrayKeysAreFree()
    ensures RuleFor(Ttl) == RuleFor(Dir2) == RuleFor(List2) == RuleFor(Media) == RMedia
  {
  }
}
