/** The text of the remote description, spelled out: its session part down to the characters, the version it
    carries after every run, and what is read back from it. */
module DescriptionText {
  import opened Text
  import opened Json
  import opened Regex
  import opened Grammar
  import opened SdpText
  import opened SdpTokens
  import opened SdpRoundTrip
  import opened SdpStability
  import opened SdpTheorem
  import opened SdpLines
  import opened SdpReadings
  import opened SdpWriting
  import opened SsrcUtils
  import opened MediaObjects
  import opened MediaSections
  import opened MediaTokens
  import opened RemoteStates
  import opened RemoteText
  import Sdptransform

  // ----- the session part -----

  lemma SessionKeys(st: State, f: Fingerprint)
    requires GoodSections(st.sections)
    ensures HeadShown(SessionObject(st, f))
  {
    hide Bundle, Objects, MembersShown, OriginObject, BundleGroup, HeadOnly;
    SessionIsHead(st, f);
    KeysShown(st, f, SessionObject(st, f));
  }

  /** Nothing but the members of the session part. */
  predicate HeadOnly(o: Object) {
    o.Keys <= {Version, Origin, Name, Timing, Media, MsidSemantic, Key.Fingerprint, Groups, Icelite}
  }

  /** Their values. */
  predicate HeadValues(o: Object, version: nat, lite: bool, f: Fingerprint, mids: string) {
    && Version in o && o[Version] == Num(0) && Origin in o && o[Origin] == Obj(OriginObject(version))
    && Name in o && o[Name] == Str("-")
    && Timing in o && o[Timing] == Obj(map[Start := Num(0), Stop := Num(0)])
    && MsidSemantic in o && o[MsidSemantic] == Obj(map[Semantic := Str("WMS"), Token := Str("*")])
    && Key.Fingerprint in o && o[Key.Fingerprint] == Obj(map[Type := Str(f.algorithm), Hash := Str(f.value)])
    && Groups in o && o[Groups] == Arr([BundleGroup(mids)])
    && (Icelite in o <==> lite) && (lite ==> o[Icelite] == Str("ice-lite"))
  }

  lemma SessionIsHead(st: State, f: Fingerprint)
    requires GoodSections(st.sections)
    ensures HeadOnly(SessionObject(st, f))
    ensures HeadValues(SessionObject(st, f), st.version, st.lite, f, Bundle(st.sections))
  {
    hide OriginObject, BundleGroup, Bundle, Objects;
  }

  lemma KeysShown(st: State, f: Fingerprint, o: Object)
    requires GoodSections(st.sections) && HeadOnly(o) && HeadValues(o, st.version, st.lite, f, Bundle(st.sections))
    ensures MembersShown(o)
  {
    hide RuleFor, Bundle, ValueShown, OriginObject, BundleGroup;
    SessionRules();
    SessionAttributes();
    SessionShows(st.version, f, Bundle(st.sections));
    forall k | k in o
      ensures MemberShown(k, o[k])
    {
      assert k in {Version, Origin, Name, Timing, Media, MsidSemantic, Key.Fingerprint, Groups, Icelite};
    }
  }

  lemma SessionShows(version: nat, f: Fingerprint, mids: string)
    ensures ValueShown(RVersion, Num(0)) && ValueShown(ROrigin, Obj(OriginObject(version)))
      && ValueShown(RName, Str("-"))
    ensures ValueShown(RTiming, Obj(map[Start := Num(0), Stop := Num(0)]))
    ensures ValueShown(RMsidSemantic, Obj(map[Semantic := Str("WMS"), Token := Str("*")]))
    ensures ValueShown(RFingerprint, Obj(map[Type := Str(f.algorithm), Hash := Str(f.value)]))
    ensures ValueShown(RGroups, Arr([BundleGroup(mids)])) && ValueShown(RIcelite, Str("ice-lite"))
  {
    hide ValueShown;
    ScalarsShown();
    OriginShown(version);
    TimingShown();
    SemanticShown();
    FingerprintShown(f);
    GroupShown(mids);
  }

  lemma ScalarsShown()
    ensures ValueShown(RVersion, Num(0)) && ValueShown(RName, Str("-")) && ValueShown(RIcelite, Str("ice-lite"))
  {
  }

  lemma OriginShown(version: nat)
    ensures ValueShown(ROrigin, Obj(OriginObject(version)))
  {
  }

  lemma TimingShown()
    ensures ValueShown(RTiming, Obj(map[Start := Num(0), Stop := Num(0)]))
  {
  }

  lemma SemanticShown()
    ensures ValueShown(RMsidSemantic, Obj(map[Semantic := Str("WMS"), Token := Str("*")]))
  {
  }

  lemma FingerprintShown(f: Fingerprint)
    ensures ValueShown(RFingerprint, Obj(map[Type := Str(f.algorithm), Hash := Str(f.value)]))
  {
  }

  lemma GroupShown(mids: string)
    ensures ValueShown(RGroups, Arr([BundleGroup(mids)]))
  {
  }

  /** The lines before the first section. */
  function HeadLines(st: State, f: Fingerprint): seq<Line>
    requires GoodSections(st.sections)
  {
    [Line('v', "0"), Line('o', "libmediasoupclient 10000 " + (Digits(st.version) + " IN IP4 0.0.0.0")), Line('s', "-"),
     Line('t', "0 0")] + (if st.lite then [Line('a', "ice-lite")] else [])
    + [Line('a', "fingerprint:" + (f.algorithm + (" " + f.value))), Line('a', "msid-semantic: WMS *"),
       Line('a', "group:BUNDLE " + Bundle(st.sections))]
  }

  lemma TenThousand()
    ensures Digits(10000) == "10000" && Digits(4) == "4"
  {
    assert Digits(1) == "1" && Digits(10) == "10" && Digits(100) == "100" && Digits(1000) == "1000";
  }

  lemma OriginJoined(version: string)
    ensures "libmediasoupclient"
      + (" " + ("10000" + (" " + (version + (" " + ("IN" + (" IP" + ("4" + (" " + "0.0.0.0")))))))))
         == "libmediasoupclient 10000 " + (version + " IN IP4 0.0.0.0")
  {
    var tail := version + (" " + ("IN" + (" IP" + ("4" + (" " + "0.0.0.0")))));
    assert tail == version + " IN IP4 0.0.0.0";
    assert "libmediasoupclient" + (" " + ("10000" + (" " + tail))) == "libmediasoupclient 10000 " + tail;
  }

  lemma OriginWords(o: Object, version: nat)
    requires o == OriginObject(version)
    ensures OriginText(o) == "libmediasoupclient 10000 " + (Digits(version) + " IN IP4 0.0.0.0")
  {
    hide Digits, TextAt;
    OriginTexts(o, version);
    TenThousand();
    OriginJoined(Digits(version));
  }

  lemma OriginTexts(o: Object, version: nat)
    requires o == OriginObject(version)
    ensures TextAt(o, Username) == "libmediasoupclient" && TextAt(o, SessionId) == Digits(10000)
    ensures TextAt(o, SessionVersion) == Digits(version) && TextAt(o, NetType) == "IN"
    ensures TextAt(o, IpVer) == Digits(4) && TextAt(o, Address) == "0.0.0.0"
  {
    hide Digits;
  }

  lemma HeadWords(f: Fingerprint, mids: string)
    ensures TimingText(map[Start := Num(0), Stop := Num(0)]) == "0 0"
    ensures FingerprintText(map[Type := Str(f.algorithm), Hash := Str(f.value)])
         == "fingerprint:" + (f.algorithm + (" " + f.value))
    ensures MsidSemanticText(map[Semantic := Str("WMS"), Token := Str("*")]) == "msid-semantic: WMS *"
    ensures GroupText(BundleGroup(mids)) == "group:BUNDLE " + mids
  {
    assert "group:" + ("BUNDLE" + (" " + mids)) == "group:BUNDLE " + mids;
  }

  lemma NoSections(o: Object)
    requires HeadOnly(o)
    ensures Attributes(o) == ValueLine(o, Icelite, "") + FieldLine(o, Key.Fingerprint, 'a', FingerprintText)
              + FieldLine(o, MsidSemantic, 'a', MsidSemanticText) + EntryLines(o, Groups, GroupText)
  {
    hide FormatLines, StateLines, AccessLines, TransportLines, SourceLines, MuxLines, SimulcastLines, HeadOnly,
      ValueLine, FieldLine, EntryLines;
    NoFormats(o);
    NoStates(o);
    NoSources(o);
    NoStreams(o);
  }

  lemma NoFormats(o: Object)
    requires HeadOnly(o)
    ensures FormatLines(o) == [] && TransportLines(o) == []
  {
    assert Rtp !in o && Fmtp !in o && RtcpFb !in o && Ext !in o && ExtmapAllowMixed !in o;
    assert Candidates !in o && EndOfCandidates !in o && IceOptions !in o;
  }

  lemma NoStates(o: Object)
    requires HeadOnly(o)
    ensures StateLines(o) == []
    ensures AccessLines(o) == ValueLine(o, Icelite, "") + FieldLine(o, Key.Fingerprint, 'a', FingerprintText)
  {
    hide FingerprintText;
    assert Setup !in o && Mid !in o && Direction !in o && IceUfrag !in o && IcePwd !in o;
  }

  lemma NoSources(o: Object)
    requires HeadOnly(o)
    ensures SourceLines(o) == FieldLine(o, MsidSemantic, 'a', MsidSemanticText) + EntryLines(o, Groups, GroupText)
  {
    hide MsidSemanticText, GroupText;
    assert Ssrcs !in o && SsrcGroups !in o;
  }

  lemma NoStreams(o: Object)
    requires HeadOnly(o)
    ensures MuxLines(o) == [] && SimulcastLines(o) == []
  {
    assert RtcpMux !in o && RtcpRsize !in o && Rids !in o && Simulcast !in o;
  }

  lemma HeadPrinted(st: State, f: Fingerprint)
    requires GoodSections(st.sections)
    ensures ObjectLines(OuterRules(), SessionObject(st, f)) == HeadLines(st, f)
  {
    hide ObjectLines, OuterRules, Bundle, Objects, MembersShown, HeadLines, Attributes, OriginObject, BundleGroup,
      SessionHead, HeadValues, SessionObject;
    var o := SessionObject(st, f);
    SessionKeys(st, f);
    OuterPrinted(o);
    SessionIsHead(st, f);
    NoSections(o);
    HeadIs(st, f, o);
  }

  lemma HeadIs(st: State, f: Fingerprint, o: Object)
    requires GoodSections(st.sections) && HeadValues(o, st.version, st.lite, f, Bundle(st.sections))
    requires Connection !in o
    requires Attributes(o) == ValueLine(o, Icelite, "") + FieldLine(o, Key.Fingerprint, 'a', FingerprintText)
               + FieldLine(o, MsidSemantic, 'a', MsidSemanticText) + EntryLines(o, Groups, GroupText)
    ensures SessionHead(o) == HeadLines(st, f)
  {
    hide Bundle, Attributes, TextAt, FieldLine, ValueLine, OriginText, TimingText, FingerprintText, MsidSemanticText,
      GroupText, OriginObject, BundleGroup, EntryLines;
    OriginWords(OriginObject(st.version), st.version);
    HeadWords(f, Bundle(st.sections));
    ZeroText(o);
    assert "" + "ice-lite" == "ice-lite";
    OneEntry(o, BundleGroup(Bundle(st.sections)));
    OneField(o, Origin, 'o', OriginText);
    OneField(o, Timing, 't', TimingText);
    OneField(o, Connection, 'c', ConnectionText);
    OneField(o, Key.Fingerprint, 'a', FingerprintText);
    OneField(o, MsidSemantic, 'a', MsidSemanticText);
    OneValue(o, Icelite, "");
  }

  lemma OneField(o: Object, k: Key, letter: char, text: Object -> string)
    ensures k in o && o[k].Obj? ==> FieldLine(o, k, letter, text) == [Line(letter, text(o[k].fields))]
    ensures k !in o ==> FieldLine(o, k, letter, text) == []
  {
  }

  lemma OneValue(o: Object, k: Key, head: string)
    ensures k in o && o[k].Str? ==> ValueLine(o, k, head) == [Line('a', head + o[k].s)]
    ensures k !in o ==> ValueLine(o, k, head) == []
  {
  }

  lemma OneEntry(o: Object, group: Object)
    requires Groups in o && o[Groups] == Arr([group])
    ensures EntryLines(o, Groups, GroupText) == [Line('a', GroupText(group))]
  {
    hide GroupText;
  }

  lemma ZeroText(o: Object)
    ensures Version in o && o[Version] == Num(0) ==> TextAt(o, Version) == "0"
    ensures Name in o && o[Name] == Str("-") ==> TextAt(o, Name) == "-"
  {
  }

  // ----- its text -----

  /** The characters before the first section, line by line. */
  function HeadText(version: nat, lite: bool, f: Fingerprint, mids: string): string {
    "v=0\r\n"
    + ("o=libmediasoupclient 10000 " + (Digits(version) + " IN IP4 0.0.0.0\r\n"))
    + "s=-\r\n"
    + "t=0 0\r\n"
    + (if lite then "a=ice-lite\r\n" else "")
    + ("a=fingerprint:" + (f.algorithm + (" " + (f.value + "\r\n"))))
    + "a=msid-semantic: WMS *\r\n"
    + ("a=group:BUNDLE " + (mids + "\r\n"))
  }

  lemma WrittenConcat(a: seq<Line>, b: seq<Line>)
    ensures Written(a + b) == Written(a) + Written(b)
  {
    hide Written, Render;
    RenderIsWritten(a);
    RenderIsWritten(b);
    RenderIsWritten(a + b);
    Sdptransform.RenderConcat(a, b);
  }

  lemma LineWritten(l: Line)
    ensures Written([l]) == [l.letter] + ("=" + (l.content + "\r\n"))
  {
    var text := [l.letter] + ("=" + (l.content + "\r\n"));
    assert [l][..|[l]| - 1] == [] && "" + text == text;
  }

  /** Letter, equals sign and a fixed start. */
  lemma Started(letter: char, start: string, rest: string, whole: string)
    requires whole == [letter, '='] + start
    ensures [letter] + ("=" + (start + rest)) == whole + rest
  {
  }

  lemma OriginWritten(version: string)
    ensures Written([Line('o', "libmediasoupclient 10000 " + (version + " IN IP4 0.0.0.0"))])
         == "o=libmediasoupclient 10000 " + (version + " IN IP4 0.0.0.0\r\n")
  {
    hide Written;
    LineWritten(Line('o', "libmediasoupclient 10000 " + (version + " IN IP4 0.0.0.0")));
    var tail := version + " IN IP4 0.0.0.0\r\n";
    assert ("libmediasoupclient 10000 " + (version + " IN IP4 0.0.0.0")) + "\r\n" == "libmediasoupclient 10000 " + tail;
    Started('o', "libmediasoupclient 10000 ", tail, "o=libmediasoupclient 10000 ");
  }

  lemma PlainWritten()
    ensures Written([Line('v', "0")]) == "v=0\r\n" && Written([Line('s', "-")]) == "s=-\r\n"
    ensures Written([Line('t', "0 0")]) == "t=0 0\r\n"
  {
    hide Written;
    LineWritten(Line('v', "0"));
    LineWritten(Line('s', "-"));
    LineWritten(Line('t', "0 0"));
  }

  lemma FixedWritten()
    ensures Written([Line('a', "ice-lite")]) == "a=ice-lite\r\n"
    ensures Written([Line('a', "msid-semantic: WMS *")]) == "a=msid-semantic: WMS *\r\n"
  {
    hide Written;
    LineWritten(Line('a', "ice-lite"));
    LineWritten(Line('a', "msid-semantic: WMS *"));
    Started('a', "ice-lite", "\r\n", "a=ice-lite");
    Started('a', "msid-semantic: WMS *", "\r\n", "a=msid-semantic: WMS *");
  }

  lemma NothingWritten()
    ensures Written([]) == ""
  {
  }

  lemma FingerprintWritten(f: Fingerprint)
    ensures Written([Line('a', "fingerprint:" + (f.algorithm + (" " + f.value)))])
         == "a=fingerprint:" + (f.algorithm + (" " + (f.value + "\r\n")))
  {
    hide Written;
    LineWritten(Line('a', "fingerprint:" + (f.algorithm + (" " + f.value))));
  }

  lemma GroupWritten(mids: string)
    ensures Written([Line('a', "group:BUNDLE " + mids)]) == "a=group:BUNDLE " + (mids + "\r\n")
  {
    hide Written;
    LineWritten(Line('a', "group:BUNDLE " + mids));
  }

  lemma HeadWritten(st: State, f: Fingerprint)
    requires GoodSections(st.sections)
    ensures Written(HeadLines(st, f)) == HeadText(st.version, st.lite, f, Bundle(st.sections))
  {
    hide Bundle, Digits, Written;
    var v, o, s, t := Line('v', "0"), Line('o', "libmediasoupclient 10000 " + (Digits(st.version) + " IN IP4 0.0.0.0")),
      Line('s', "-"), Line('t', "0 0");
    var lite := if st.lite then [Line('a', "ice-lite")] else [];
    var p, q, r := Line('a', "fingerprint:" + (f.algorithm + (" " + f.value))), Line('a', "msid-semantic: WMS *"),
      Line('a', "group:BUNDLE " + Bundle(st.sections));
    PlainWritten();
    FixedWritten();
    NothingWritten();
    OriginWritten(Digits(st.version));
    FingerprintWritten(f);
    GroupWritten(Bundle(st.sections));
    assert HeadLines(st, f) == [v] + [o] + [s] + [t] + lite + [p] + [q] + [r];
    WrittenConcat([v], [o]);
    WrittenConcat([v] + [o], [s]);
    WrittenConcat([v] + [o] + [s], [t]);
    WrittenConcat([v] + [o] + [s] + [t], lite);
    WrittenConcat([v] + [o] + [s] + [t] + lite, [p]);
    WrittenConcat([v] + [o] + [s] + [t] + lite + [p], [q]);
    WrittenConcat([v] + [o] + [s] + [t] + lite + [p] + [q], [r]);
  }

  /** Every description starts with the session part. */
  lemma DescriptionStarts(st: State, f: Fingerprint)
    requires GoodSections(st.sections)
    ensures WriteText(SessionObject(st, f))
         == HeadText(st.version, st.lite, f, Bundle(st.sections)) + Render(MediaLines(Objects(st.sections)))
  {
    hide SessionObject, ObjectLines, OuterRules, MediaLines, Render, Written, HeadLines, HeadText, Bundle, Objects;
    var o := SessionObject(st, f);
    Complete(st, f);
    HeadPrinted(st, f);
    HeadWritten(st, f);
    RenderIsWritten(HeadLines(st, f));
    Sdptransform.RenderConcat(HeadLines(st, f), MediaLines(Objects(st.sections)));
  }

  /** A session object lacks none of the members that `write` would fill in. */
  lemma Complete(st: State, f: Fingerprint)
    requires GoodSections(st.sections)
    ensures FillDefaults(SessionObject(st, f)) == SessionObject(st, f)
    ensures MediaOf(SessionObject(st, f)) == Objects(st.sections)
  {
    hide OriginObject, BundleGroup, Bundle;
    assert AllWithPayloads(Objects(st.sections)) == Objects(st.sections);
  }

  /** In particular with the version line and the origin line. */
  lemma OriginLeads(st: State, f: Fingerprint)
    requires Inv(st)
    ensures "v=0\r\no=libmediasoupclient 10000 " + (Digits(st.version) + " IN IP4 0.0.0.0\r\n")
              <= WriteText(SessionObject(st, f))
  {
    hide WriteText, SessionObject, HeadText, Bundle, Digits, Render, Objects, GoodSections, MediaLines;
    DescriptionStarts(st, f);
    HeadLeads(st.version, st.lite, f, Bundle(st.sections));
  }

  lemma HeadLeads(version: nat, lite: bool, f: Fingerprint, mids: string)
    ensures "v=0\r\no=libmediasoupclient 10000 " + (Digits(version) + " IN IP4 0.0.0.0\r\n")
              <= HeadText(version, lite, f, mids)
  {
    hide Digits;
    TwoLines(Digits(version) + " IN IP4 0.0.0.0\r\n");
  }

  lemma TwoLines(rest: string)
    ensures "v=0\r\n" + ("o=libmediasoupclient 10000 " + rest) == "v=0\r\no=libmediasoupclient 10000 " + rest
  {
  }

  /** The k-th description of every run says so: its origin line carries k modulo 2^32. */
  lemma VersionInText(lite: bool, es: seq<Event>, f: Fingerprint)
    requires AllowedRun(Initial(lite), es)
    ensures "v=0\r\n" + ("o=libmediasoupclient 10000 " + (Digits(Prints(es) % TWO_32) + " IN IP4 0.0.0.0\r\n"))
              <= WriteText(SessionObject(RunFrom(Initial(lite), es), f))
  {
    hide RunFrom, AllowedRun, WriteText, SessionObject, Bundle, Digits, Render, Prints;
    VersionCounts(lite, es);
    DescriptionStarts(RunFrom(Initial(lite), es), f);
  }

  // ----- what is read back -----

  lemma OriginRule()
    ensures |OuterRules()| > 1 && OuterRules()[1] == ROrigin && Member(ROrigin) == Origin
    ensures IsElementRule(ROrigin) && !IsPush(ROrigin)
  {
  }

  /** The origin of a session survives. */
  lemma OriginSurvives(s: Object)
    requires SessionOk(s) && Origin in s && s[Origin].Obj? && OriginOk(s[Origin].fields)
    ensures Origin in ParseText(WriteText(s))
    ensures ParseText(WriteText(s))[Origin] == Obj(Reparsed(ROrigin, s[Origin].fields, map[]))
  {
    hide RuleOk, SectionOk, OuterRules, WithRules, ParseText, WriteText, SectionOuts, MakeLine, OriginOk,
      Reparsed, Member, IsElementRule, IsPush;
    ParseOfWrite(s);
    OrdersArePrintable();
    OriginRule();
    OriginLines(s);
    WithRulesAt(OuterRules(), s, map[], 1);
  }

  lemma OriginLines(s: Object)
    requires Origin in s
    ensures LinesOf(ROrigin, s) != []
  {
  }

  /** What a description says about its origin. */
  predicate SaysVersion(o: Object, version: nat) {
    Origin in o && o[Origin] == Obj(map[Username := Str("libmediasoupclient"), SessionId := Num(10000),
      SessionVersion := Num(version), NetType := Str("IN"), IpVer := Num(4), Address := Str("0.0.0.0")])
  }

  lemma OriginReread(version: nat)
    requires version < TWO_32
    ensures OriginOk(OriginObject(version))
    ensures SaysVersion(map[Origin := Obj(Reparsed(ROrigin, OriginObject(version), map[]))], version)
  {
    hide OriginOk, Reparsed;
    OriginElement(version);
    OriginIsOk(OriginObject(version));
    OriginRead(OriginObject(version));
  }

  lemma StateRead(st: State, f: Fingerprint)
    requires GoodSections(st.sections) && AllWellFormed(st.sections) && st.version < TWO_32 && FingerprintClean(f)
    ensures SaysVersion(ParseText(WriteText(SessionObject(st, f))), st.version)
  {
    hide WriteText, ParseText, SessionObject, SessionOk, OriginOk, Reparsed, WellFormed, OriginObject, Bundle;
    SessionIsOk(st, f);
    SessionIsHead(st, f);
    OriginReread(st.version);
    OriginSurvives(SessionObject(st, f));
  }

  /** Reading the k-th description of a clean run gives session id 10000 and version k modulo 2^32. */
  lemma VersionRead(lite: bool, es: seq<Event>, f: Fingerprint)
    requires AllowedRun(Initial(lite), es) && FingerprintClean(f)
    requires forall i :: 0 <= i < |es| ==> CleanEvent(es[i])
    ensures SaysVersion(ParseText(WriteText(SessionObject(RunFrom(Initial(lite), es), f))), Prints(es) % TWO_32)
  {
    hide RunFrom, AllowedRun, CleanEvent, WriteText, ParseText, SessionObject, Prints, SaysVersion, WellFormed;
    RunWellFormed(Initial(lite), es);
    VersionFits(Initial(lite), es);
    VersionCounts(lite, es);
    StateRead(RunFrom(Initial(lite), es), f);
  }

  lemma OriginIsOk(o: Object)
    requires ElementOk(ROrigin, o)
    ensures OriginOk(o)
  {
    hide OriginOk;
  }
}
