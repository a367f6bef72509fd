/** The lines of a whole description in their order, spelled out: a simple form of `write`, without letters, rule
    lists and tables, which the table-driven form is proved to print. */
module SdpWriting {
  import opened Text
  import opened Json
  import opened Regex
  import opened Patterns
  import opened LineShapes
  import opened Grammar
  import opened Heads
  import opened SdpText
  import opened SdpTokens
  import opened SdpRoundTrip
  import opened SdpLines

  // ----- the simple form -----

  /** A line per entry. */
  function EntryLines(o: Object, k: Key, text: Object -> string): seq<Line> {
    if k in o then Entries(ItemsOf(o[k]), text) else []
  }

  function Entries(items: seq<Object>, text: Object -> string): (r: seq<Line>)
    ensures |r| == |items|
  {
    seq(|items|, i requires 0 <= i < |items| => Line('a', text(items[i])))
  }

  /** A line for a single value. */
  function ValueLine(o: Object, k: Key, head: string): seq<Line> {
    if k in o then [Line('a', head + ArgText(o[k]))] else []
  }

  /** A line for an object. */
  function FieldLine(o: Object, k: Key, letter: char, text: Object -> string): seq<Line> {
    if k in o then [Line(letter, text(FieldsOf(o[k])))] else []
  }

  function FormatLines(o: Object): seq<Line> {
    EntryLines(o, Rtp, RtpText) + EntryLines(o, Fmtp, FmtpText) + EntryLines(o, RtcpFb, RtcpFbText)
      + EntryLines(o, Ext, ExtText)
    + ValueLine(o, ExtmapAllowMixed, "")
  }

  function StateLines(o: Object): seq<Line> {
    ValueLine(o, Setup, "setup:") + ValueLine(o, Mid, "mid:") + ValueLine(o, Direction, "")
  }

  function AccessLines(o: Object): seq<Line> {
    ValueLine(o, Icelite, "") + ValueLine(o, IceUfrag, "ice-ufrag:") + ValueLine(o, IcePwd, "ice-pwd:")
    + FieldLine(o, Key.Fingerprint, 'a', FingerprintText)
  }

  function TransportLines(o: Object): seq<Line> {
    EntryLines(o, Candidates, CandidateText) + ValueLine(o, EndOfCandidates, "")
      + ValueLine(o, IceOptions, "ice-options:")
  }

  function SourceLines(o: Object): seq<Line> {
    EntryLines(o, Ssrcs, SsrcText) + EntryLines(o, SsrcGroups, SsrcGroupText)
      + FieldLine(o, MsidSemantic, 'a', MsidSemanticText)
    + EntryLines(o, Groups, GroupText)
  }

  function MuxLines(o: Object): seq<Line> {
    ValueLine(o, RtcpMux, "") + ValueLine(o, RtcpRsize, "") + EntryLines(o, Rids, RidText)
  }

  function SimulcastLines(o: Object): seq<Line> {
    FieldLine(o, Simulcast, 'a', SimulcastText)
  }

  /** All attribute lines of a session or a section. */
  function Attributes(o: Object): seq<Line> {
    FormatLines(o) + StateLines(o) + AccessLines(o) + TransportLines(o) + SourceLines(o) + MuxLines(o)
    + SimulcastLines(o)
  }

  function SectionText(m: Object): seq<Line> {
    [Line('m', MediaText(m))] + FieldLine(m, Connection, 'c', ConnectionText) + Attributes(m)
  }

  // ----- what a location may hold -----

  predicate IsEmitted(r: Rule) {
    IsElementRule(r) || IsScalarRule(r)
  }

  /** Members of kinds that are emitted, of the type they are emitted with. */
  predicate Shown(r: Rule, loc: Object) {
    r != RMedia && Member(r) in loc ==>
      var v := loc[Member(r)];
      && IsEmitted(r)
      && (IsElementRule(r) ==>
           if IsPush(r) then v.Arr? && forall i :: 0 <= i < |v.items| ==> Bare(r, v.items[i])
           else v.Obj? && Bare(r, v.fields) && forall n :: n in Names(r) ==> n in v.fields || n !in loc)
      && (IsScalarRule(r) ==> v.Str? || v.Num?)
  }

  // ----- the table prints it -----

  /** The rule's table entries print a given text. */
  ghost predicate TablePrints(r: Rule, text: Object -> string) {
    forall o: Object :: Bare(r, o) ==> |Format(r, o)| <= |Names(r)| && Content(r, o) == text(o)
  }

  lemma PushPrinted(r: Rule, loc: Object, text: Object -> string)
    requires r != RMedia && IsPush(r) && IsElementRule(r) && Letter(r) == 'a' && Shown(r, loc) && TablePrints(r, text)
    ensures LinesOf(r, loc) == EntryLines(loc, Member(r), text)
  {
    hide Member, IsPush, IsElementRule, Names, Format, Content, Letter, MakeLine, Bare, IsEmitted;
    if Member(r) in loc {
      var items: seq<Object> := ItemsOf(loc[Member(r)]);
      forall i | 0 <= i < |items|
        ensures MakeLine(r, items[i]) == Line('a', text(items[i]))
      {
        PushPrintedAt(r, items[i]);
      }
    }
  }

  lemma PushPrintedAt(r: Rule, o: Object)
    requires IsPush(r) && IsElementRule(r) && |Format(r, o)| <= |Names(r)|
    ensures MakeLine(r, o) == Line(Letter(r), Content(r, o))
  {
    hide Names, Format, Content, MakeLine, Letter;
    ElementIsNamed(r);
    PushArguments(r, o);
    MakeLineContent(r, o, o);
  }

  lemma ElementIsNamed(r: Rule)
    requires IsElementRule(r)
    ensures Names(r) != []
  {
  }

  lemma NestedPrinted(r: Rule, loc: Object, text: Object -> string)
    requires IsElementRule(r) && !IsPush(r) && r != RMedia && Shown(r, loc) && TablePrints(r, text)
    ensures LinesOf(r, loc) == FieldLine(loc, Member(r), Letter(r), text)
  {
    hide Member, IsPush, IsElementRule, Names, Format, Content, Letter, MakeLine, Bare, IsEmitted, Argument;
    ElementIsNamed(r);
    ElementIsNested(r);
    if Member(r) in loc {
      var o := loc[Member(r)].fields;
      forall j | 0 <= j < |Names(r)|
        ensures Argument(r, loc, Names(r)[j]) == Look(o, Names(r)[j])
      {
        assert Names(r)[j] in Names(r);
        OwnArgument(r, loc, Names(r)[j]);
      }
      NestedFormat(r, loc);
      MakeLineContent(r, loc, o);
    }
  }

  lemma NestedFormat(r: Rule, loc: Object)
    requires r != RMedia && !IsPush(r) && Member(r) in loc && loc[Member(r)].Obj?
    ensures FormatObject(r, loc) == loc[Member(r)].fields
  {
    hide Member, IsPush;
  }

  lemma ScalarPrinted(r: Rule, loc: Object, head: string)
    requires IsScalarRule(r) && Letter(r) == 'a' && Shown(r, loc)
    requires |Format(r, map[])| == 1 && Format(r, map[])[0].prefix == head && Format(r, map[])[0].directive == 's'
    ensures r != RMedia && LinesOf(r, loc) == ValueLine(loc, Member(r), head)
  {
    hide IsScalarRule, IsElementRule, IsPush, Names, Format, Member, Letter, MakeLine, IsEmitted;
    ScalarShape(r);
    if Member(r) in loc {
      ScalarPrintedAt(r, loc, head);
    }
  }

  lemma ScalarPrintedAt(r: Rule, loc: Object, head: string)
    requires IsScalarRule(r) && Member(r) in loc && (loc[Member(r)].Str? || loc[Member(r)].Num?)
    requires |Format(r, map[])| == 1 && Format(r, map[])[0].prefix == head && Format(r, map[])[0].directive == 's'
    ensures MakeLine(r, loc) == Line(Letter(r), head + ArgText(loc[Member(r)]))
  {
    hide IsScalarRule, IsElementRule, IsPush, Names, Format, Member, Letter;
    ScalarShape(r);
    var v := loc[Member(r)];
    assert FieldsOf(v) == map[];
    assert Arguments(r, loc) == [v];
    ExpandIsFill(Format(r, map[]), [v], [ArgText(v)], 0);
    assert ArgText(v) + "" == ArgText(v);
  }

  lemma NotPrinted(r: Rule, loc: Object)
    requires Shown(r, loc) && !IsEmitted(r)
    ensures LinesOf(r, loc) == []
  {
    hide Member, IsEmitted;
  }

  // ----- rule by rule -----

  predicate AllShown(o: Object) {
    forall i :: 0 <= i < ATTRIBUTE_RULES ==> Shown(AttributeRule(i), o)
  }

  lemma NextRule(o: Object, i: nat, r: Rule)
    requires i < ATTRIBUTE_RULES && AttributeRule(i) == r
    ensures ObjectLines(FirstRules(i + 1), o) == ObjectLines(FirstRules(i), o) + LinesOf(r, o)
  {
    hide AttributeRule, LinesOf;
    assert FirstRules(i + 1)[..i] == FirstRules(i);
  }

  lemma RtpTextPrinted(o: Object)
    requires Shown(RRtp, o)
    ensures LinesOf(RRtp, o) == EntryLines(o, Rtp, RtpText)
  {
    hide Shown, Format, Content, Names, Bare, RtpText, LinesOf, EntryLines;
    forall x: Object | Bare(RRtp, x)
      ensures |Format(RRtp, x)| <= |Names(RRtp)| && Content(RRtp, x) == RtpText(x)
    {
      RtpPrints(x);
    }
    PushPrinted(RRtp, o, RtpText);
  }

  lemma FmtpTextPrinted(o: Object)
    requires Shown(RFmtp, o)
    ensures LinesOf(RFmtp, o) == EntryLines(o, Fmtp, FmtpText)
  {
    hide Shown, Format, Content, Names, Bare, FmtpText, LinesOf, EntryLines;
    forall x: Object | Bare(RFmtp, x)
      ensures |Format(RFmtp, x)| <= |Names(RFmtp)| && Content(RFmtp, x) == FmtpText(x)
    {
      FmtpPrints(x);
    }
    PushPrinted(RFmtp, o, FmtpText);
  }

  lemma RtcpFbTextPrinted(o: Object)
    requires Shown(RRtcpFb, o)
    ensures LinesOf(RRtcpFb, o) == EntryLines(o, RtcpFb, RtcpFbText)
  {
    hide Shown, Format, Content, Names, Bare, RtcpFbText, LinesOf, EntryLines;
    forall x: Object | Bare(RRtcpFb, x)
      ensures |Format(RRtcpFb, x)| <= |Names(RRtcpFb)| && Content(RRtcpFb, x) == RtcpFbText(x)
    {
      RtcpFbPrints(x);
    }
    PushPrinted(RRtcpFb, o, RtcpFbText);
  }

  lemma ExtTextPrinted(o: Object)
    requires Shown(RExt, o)
    ensures LinesOf(RExt, o) == EntryLines(o, Ext, ExtText)
  {
    hide Shown, Format, Content, Names, Bare, ExtText, LinesOf, EntryLines;
    forall x: Object | Bare(RExt, x)
      ensures |Format(RExt, x)| <= |Names(RExt)| && Content(RExt, x) == ExtText(x)
    {
      ExtPrints(x);
    }
    PushPrinted(RExt, o, ExtText);
  }

  lemma FingerprintTextPrinted(o: Object)
    requires Shown(RFingerprint, o)
    ensures LinesOf(RFingerprint, o) == FieldLine(o, Key.Fingerprint, 'a', FingerprintText)
  {
    hide Shown, Format, Content, Names, Bare, FingerprintText, LinesOf, FieldLine;
    forall x: Object | Bare(RFingerprint, x)
      ensures |Format(RFingerprint, x)| <= |Names(RFingerprint)| && Content(RFingerprint, x) == FingerprintText(x)
    {
      FingerprintPrints(x);
    }
    NestedPrinted(RFingerprint, o, FingerprintText);
  }

  lemma CandidateTextPrinted(o: Object)
    requires Shown(RCandidates, o)
    ensures LinesOf(RCandidates, o) == EntryLines(o, Candidates, CandidateText)
  {
    hide Shown, Format, Content, Names, Bare, CandidateText, LinesOf, EntryLines;
    forall x: Object | Bare(RCandidates, x)
      ensures |Format(RCandidates, x)| <= |Names(RCandidates)| && Content(RCandidates, x) == CandidateText(x)
    {
      CandidatePrints(x);
    }
    PushPrinted(RCandidates, o, CandidateText);
  }

  lemma SsrcTextPrinted(o: Object)
    requires Shown(RSsrcs, o)
    ensures LinesOf(RSsrcs, o) == EntryLines(o, Ssrcs, SsrcText)
  {
    hide Shown, Format, Content, Names, Bare, SsrcText, LinesOf, EntryLines;
    forall x: Object | Bare(RSsrcs, x)
      ensures |Format(RSsrcs, x)| <= |Names(RSsrcs)| && Content(RSsrcs, x) == SsrcText(x)
    {
      SsrcPrints(x);
    }
    PushPrinted(RSsrcs, o, SsrcText);
  }

  lemma SsrcGroupTextPrinted(o: Object)
    requires Shown(RSsrcGroups, o)
    ensures LinesOf(RSsrcGroups, o) == EntryLines(o, SsrcGroups, SsrcGroupText)
  {
    hide Shown, Format, Content, Names, Bare, SsrcGroupText, LinesOf, EntryLines;
    forall x: Object | Bare(RSsrcGroups, x)
      ensures |Format(RSsrcGroups, x)| <= |Names(RSsrcGroups)| && Content(RSsrcGroups, x) == SsrcGroupText(x)
    {
      SsrcGroupPrints(x);
    }
    PushPrinted(RSsrcGroups, o, SsrcGroupText);
  }

  lemma MsidSemanticTextPrinted(o: Object)
    requires Shown(RMsidSemantic, o)
    ensures LinesOf(RMsidSemantic, o) == FieldLine(o, MsidSemantic, 'a', MsidSemanticText)
  {
    hide Shown, Format, Content, Names, Bare, MsidSemanticText, LinesOf, FieldLine;
    forall x: Object | Bare(RMsidSemantic, x)
      ensures |Format(RMsidSemantic, x)| <= |Names(RMsidSemantic)| && Content(RMsidSemantic, x) == MsidSemanticText(x)
    {
      MsidSemanticPrints(x);
    }
    NestedPrinted(RMsidSemantic, o, MsidSemanticText);
  }

  lemma GroupTextPrinted(o: Object)
    requires Shown(RGroups, o)
    ensures LinesOf(RGroups, o) == EntryLines(o, Groups, GroupText)
  {
    hide Shown, Format, Content, Names, Bare, GroupText, LinesOf, EntryLines;
    forall x: Object | Bare(RGroups, x)
      ensures |Format(RGroups, x)| <= |Names(RGroups)| && Content(RGroups, x) == GroupText(x)
    {
      GroupPrints(x);
    }
    PushPrinted(RGroups, o, GroupText);
  }

  lemma RidTextPrinted(o: Object)
    requires Shown(RRids, o)
    ensures LinesOf(RRids, o) == EntryLines(o, Rids, RidText)
  {
    hide Shown, Format, Content, Names, Bare, RidText, LinesOf, EntryLines;
    forall x: Object | Bare(RRids, x)
      ensures |Format(RRids, x)| <= |Names(RRids)| && Content(RRids, x) == RidText(x)
    {
      RidPrints(x);
    }
    PushPrinted(RRids, o, RidText);
  }

  lemma SimulcastTextPrinted(o: Object)
    requires Shown(RSimulcast, o)
    ensures LinesOf(RSimulcast, o) == FieldLine(o, Simulcast, 'a', SimulcastText)
  {
    hide Shown, Format, Content, Names, Bare, SimulcastText, LinesOf, FieldLine;
    forall x: Object | Bare(RSimulcast, x)
      ensures |Format(RSimulcast, x)| <= |Names(RSimulcast)| && Content(RSimulcast, x) == SimulcastText(x)
    {
      SimulcastPrints(x);
    }
    NestedPrinted(RSimulcast, o, SimulcastText);
  }

  lemma OnePrinted(r: Rule, loc: Object, k: Key, head: string)
    requires IsScalarRule(r) && Letter(r) == 'a' && Shown(r, loc) && Member(r) == k
    requires |Format(r, map[])| == 1 && Format(r, map[])[0].prefix == head && Format(r, map[])[0].directive == 's'
    ensures LinesOf(r, loc) == ValueLine(loc, k, head)
  {
    hide IsScalarRule, Format, Member, Letter, LinesOf, Shown;
    ScalarPrinted(r, loc, head);
  }

  lemma ExtmapAllowMixedPrinted(o: Object)
    requires Shown(RExtmapAllowMixed, o)
    ensures LinesOf(RExtmapAllowMixed, o) == ValueLine(o, ExtmapAllowMixed, "")
  {
    hide LinesOf, Shown;
    OnePrinted(RExtmapAllowMixed, o, ExtmapAllowMixed, "");
  }

  lemma SetupPrinted(o: Object)
    requires Shown(RSetup, o)
    ensures LinesOf(RSetup, o) == ValueLine(o, Setup, "setup:")
  {
    hide LinesOf, Shown;
    OnePrinted(RSetup, o, Setup, "setup:");
  }

  lemma MidPrinted(o: Object)
    requires Shown(RMid, o)
    ensures LinesOf(RMid, o) == ValueLine(o, Mid, "mid:")
  {
    hide LinesOf, Shown;
    OnePrinted(RMid, o, Mid, "mid:");
  }

  lemma DirectionPrinted(o: Object)
    requires Shown(RDirection, o)
    ensures LinesOf(RDirection, o) == ValueLine(o, Direction, "")
  {
    hide LinesOf, Shown;
    OnePrinted(RDirection, o, Direction, "");
  }

  lemma IcelitePrinted(o: Object)
    requires Shown(RIcelite, o)
    ensures LinesOf(RIcelite, o) == ValueLine(o, Icelite, "")
  {
    hide LinesOf, Shown;
    OnePrinted(RIcelite, o, Icelite, "");
  }

  lemma IceUfragPrinted(o: Object)
    requires Shown(RIceUfrag, o)
    ensures LinesOf(RIceUfrag, o) == ValueLine(o, IceUfrag, "ice-ufrag:")
  {
    hide LinesOf, Shown;
    OnePrinted(RIceUfrag, o, IceUfrag, "ice-ufrag:");
  }

  lemma IcePwdPrinted(o: Object)
    requires Shown(RIcePwd, o)
    ensures LinesOf(RIcePwd, o) == ValueLine(o, IcePwd, "ice-pwd:")
  {
    hide LinesOf, Shown;
    OnePrinted(RIcePwd, o, IcePwd, "ice-pwd:");
  }

  lemma EndOfCandidatesPrinted(o: Object)
    requires Shown(REndOfCandidates, o)
    ensures LinesOf(REndOfCandidates, o) == ValueLine(o, EndOfCandidates, "")
  {
    hide LinesOf, Shown;
    OnePrinted(REndOfCandidates, o, EndOfCandidates, "");
  }

  lemma IceOptionsPrinted(o: Object)
    requires Shown(RIceOptions, o)
    ensures LinesOf(RIceOptions, o) == ValueLine(o, IceOptions, "ice-options:")
  {
    hide LinesOf, Shown;
    OnePrinted(RIceOptions, o, IceOptions, "ice-options:");
  }

  lemma RtcpMuxPrinted(o: Object)
    requires Shown(RRtcpMux, o)
    ensures LinesOf(RRtcpMux, o) == ValueLine(o, RtcpMux, "")
  {
    hide LinesOf, Shown;
    OnePrinted(RRtcpMux, o, RtcpMux, "");
  }

  lemma RtcpRsizePrinted(o: Object)
    requires Shown(RRtcpRsize, o)
    ensures LinesOf(RRtcpRsize, o) == ValueLine(o, RtcpRsize, "")
  {
    hide LinesOf, Shown;
    OnePrinted(RRtcpRsize, o, RtcpRsize, "");
  }

  lemma CodecRules()
    ensures AttributeRule(0) == RRtp && AttributeRule(1) == RFmtp && AttributeRule(2) == RControl
      && AttributeRule(3) == RRtcp
    ensures AttributeRule(4) == RRtcpFbTrrInt && AttributeRule(5) == RRtcpFb && AttributeRule(6) == RExt
      && AttributeRule(7) == RExtmapAllowMixed
    ensures !IsEmitted(RControl) && !IsEmitted(RRtcp) && !IsEmitted(RRtcpFbTrrInt)
  {
  }

  lemma CodecStage(o: Object)
    requires AllShown(o)
    ensures ObjectLines(FirstRules(8), o) == ObjectLines(FirstRules(0), o) + FormatLines(o)
  {
    hide Shown, LinesOf, ObjectLines, FirstRules, EntryLines, ValueLine, FieldLine, IsEmitted, AttributeRule;
    CodecRules();
    NextRule(o, 0, RRtp);
    RtpTextPrinted(o);
    NextRule(o, 1, RFmtp);
    FmtpTextPrinted(o);
    NextRule(o, 2, RControl);
    NotPrinted(RControl, o);
    NextRule(o, 3, RRtcp);
    NotPrinted(RRtcp, o);
    NextRule(o, 4, RRtcpFbTrrInt);
    NotPrinted(RRtcpFbTrrInt, o);
    NextRule(o, 5, RRtcpFb);
    RtcpFbTextPrinted(o);
    NextRule(o, 6, RExt);
    ExtTextPrinted(o);
    NextRule(o, 7, RExtmapAllowMixed);
    ExtmapAllowMixedPrinted(o);
  }

  lemma StateRules()
    ensures AttributeRule(8) == RCrypto && AttributeRule(9) == RSetup && AttributeRule(10) == RMid
      && AttributeRule(11) == RMsid
    ensures AttributeRule(12) == RPtime && AttributeRule(13) == RMaxPtime && AttributeRule(14) == RDirection
    ensures !IsEmitted(RCrypto) && !IsEmitted(RMsid) && !IsEmitted(RPtime) && !IsEmitted(RMaxPtime)
  {
  }

  lemma StateStage(o: Object)
    requires AllShown(o)
    ensures ObjectLines(FirstRules(15), o) == ObjectLines(FirstRules(8), o) + StateLines(o)
  {
    hide Shown, LinesOf, ObjectLines, FirstRules, EntryLines, ValueLine, FieldLine, IsEmitted, AttributeRule;
    StateRules();
    NextRule(o, 8, RCrypto);
    NotPrinted(RCrypto, o);
    NextRule(o, 9, RSetup);
    SetupPrinted(o);
    NextRule(o, 10, RMid);
    MidPrinted(o);
    NextRule(o, 11, RMsid);
    NotPrinted(RMsid, o);
    NextRule(o, 12, RPtime);
    NotPrinted(RPtime, o);
    NextRule(o, 13, RMaxPtime);
    NotPrinted(RMaxPtime, o);
    NextRule(o, 14, RDirection);
    DirectionPrinted(o);
  }

  lemma AccessRules()
    ensures AttributeRule(15) == RIcelite && AttributeRule(16) == RIceUfrag && AttributeRule(17) == RIcePwd
      && AttributeRule(18) == RFingerprint
  {
  }

  lemma AccessStage(o: Object)
    requires AllShown(o)
    ensures ObjectLines(FirstRules(19), o) == ObjectLines(FirstRules(15), o) + AccessLines(o)
  {
    hide Shown, LinesOf, ObjectLines, FirstRules, EntryLines, ValueLine, FieldLine, IsEmitted, AttributeRule;
    AccessRules();
    NextRule(o, 15, RIcelite);
    IcelitePrinted(o);
    NextRule(o, 16, RIceUfrag);
    IceUfragPrinted(o);
    NextRule(o, 17, RIcePwd);
    IcePwdPrinted(o);
    NextRule(o, 18, RFingerprint);
    FingerprintTextPrinted(o);
  }

  lemma TransportRules()
    ensures AttributeRule(19) == RCandidates && AttributeRule(20) == REndOfCandidates
      && AttributeRule(21) == RRemoteCandidates && AttributeRule(22) == RIceOptions
    ensures !IsEmitted(RRemoteCandidates)
  {
  }

  lemma TransportStage(o: Object)
    requires AllShown(o)
    ensures ObjectLines(FirstRules(23), o) == ObjectLines(FirstRules(19), o) + TransportLines(o)
  {
    hide Shown, LinesOf, ObjectLines, FirstRules, EntryLines, ValueLine, FieldLine, IsEmitted, AttributeRule;
    TransportRules();
    NextRule(o, 19, RCandidates);
    CandidateTextPrinted(o);
    NextRule(o, 20, REndOfCandidates);
    EndOfCandidatesPrinted(o);
    NextRule(o, 21, RRemoteCandidates);
    NotPrinted(RRemoteCandidates, o);
    NextRule(o, 22, RIceOptions);
    IceOptionsPrinted(o);
  }

  lemma SourceRules()
    ensures AttributeRule(23) == RSsrcs && AttributeRule(24) == RSsrcGroups && AttributeRule(25) == RMsidSemantic
      && AttributeRule(26) == RGroups
  {
  }

  lemma SourceStage(o: Object)
    requires AllShown(o)
    ensures ObjectLines(FirstRules(27), o) == ObjectLines(FirstRules(23), o) + SourceLines(o)
  {
    hide Shown, LinesOf, ObjectLines, FirstRules, EntryLines, ValueLine, FieldLine, IsEmitted, AttributeRule;
    SourceRules();
    NextRule(o, 23, RSsrcs);
    SsrcTextPrinted(o);
    NextRule(o, 24, RSsrcGroups);
    SsrcGroupTextPrinted(o);
    NextRule(o, 25, RMsidSemantic);
    MsidSemanticTextPrinted(o);
    NextRule(o, 26, RGroups);
    GroupTextPrinted(o);
  }

  lemma MuxRules()
    ensures AttributeRule(27) == RRtcpMux && AttributeRule(28) == RRtcpRsize && AttributeRule(29) == RSctpMap
      && AttributeRule(30) == RXGoogleFlag
    ensures AttributeRule(31) == RRids
    ensures !IsEmitted(RSctpMap) && !IsEmitted(RXGoogleFlag)
  {
  }

  lemma MuxStage(o: Object)
    requires AllShown(o)
    ensures ObjectLines(FirstRules(32), o) == ObjectLines(FirstRules(27), o) + MuxLines(o)
  {
    hide Shown, LinesOf, ObjectLines, FirstRules, EntryLines, ValueLine, FieldLine, IsEmitted, AttributeRule;
    MuxRules();
    NextRule(o, 27, RRtcpMux);
    RtcpMuxPrinted(o);
    NextRule(o, 28, RRtcpRsize);
    RtcpRsizePrinted(o);
    NextRule(o, 29, RSctpMap);
    NotPrinted(RSctpMap, o);
    NextRule(o, 30, RXGoogleFlag);
    NotPrinted(RXGoogleFlag, o);
    NextRule(o, 31, RRids);
    RidTextPrinted(o);
  }

  lemma SimulcastRules()
    ensures AttributeRule(32) == RSimulcast && AttributeRule(33) == RSimulcast03 && AttributeRule(34) == RSourceFilter
      && AttributeRule(35) == RTsRefclk
    ensures AttributeRule(36) == RMediaClk && AttributeRule(37) == RInvalid
    ensures !IsEmitted(RSimulcast03) && !IsEmitted(RSourceFilter) && !IsEmitted(RTsRefclk) && !IsEmitted(RMediaClk)
      && !IsEmitted(RInvalid)
  {
  }

  lemma SimulcastStage(o: Object)
    requires AllShown(o)
    ensures ObjectLines(FirstRules(38), o) == ObjectLines(FirstRules(32), o) + SimulcastLines(o)
  {
    hide Shown, LinesOf, ObjectLines, FirstRules, EntryLines, ValueLine, FieldLine, IsEmitted, AttributeRule;
    SimulcastRules();
    NextRule(o, 32, RSimulcast);
    SimulcastTextPrinted(o);
    NextRule(o, 33, RSimulcast03);
    NotPrinted(RSimulcast03, o);
    NextRule(o, 34, RSourceFilter);
    NotPrinted(RSourceFilter, o);
    NextRule(o, 35, RTsRefclk);
    NotPrinted(RTsRefclk, o);
    NextRule(o, 36, RMediaClk);
    NotPrinted(RMediaClk, o);
    NextRule(o, 37, RInvalid);
    NotPrinted(RInvalid, o);
  }

  /** The attribute lines of the rule table are those of the simple form. */
  lemma AttributesPrinted(o: Object)
    requires AllShown(o)
    ensures ObjectLines(ARules(), o) == Attributes(o)
  {
    hide ObjectLines, FirstRules, FormatLines, StateLines, AccessLines, TransportLines, SourceLines, MuxLines,
      SimulcastLines, AllShown;
    CodecStage(o);
    StateStage(o);
    AccessStage(o);
    TransportStage(o);
    SourceStage(o);
    MuxStage(o);
    SimulcastStage(o);
    NothingYet(o);
    assert [] + FormatLines(o) == FormatLines(o);
  }

  lemma NothingYet(o: Object)
    ensures ObjectLines(FirstRules(0), o) == []
  {
  }

  // ----- sections and sessions -----

  /** The values members may have. */
  predicate ValueShown(r: Rule, v: Json) {
    && IsEmitted(r)
    && (IsElementRule(r) ==>
         if IsPush(r) then v.Arr? && forall i :: 0 <= i < |v.items| ==> Bare(r, v.items[i])
         else v.Obj? && Bare(r, v.fields) && forall n :: n in Names(r) ==> n in v.fields || n in {Ttl, Dir2, List2})
    && (IsScalarRule(r) ==> v.Str? || v.Num?)
  }

  /** Members of the m-line, and members without a line, are free. */
  predicate MemberShown(k: Key, v: Json) {
    k !in {Ttl, Dir2, List2, NumPorts} && (RuleFor(k) == RMedia || ValueShown(RuleFor(k), v))
  }

  predicate MembersShown(o: Object) {
    forall k :: k in o ==> MemberShown(k, o[k])
  }

  lemma MembersAreShown(o: Object, r: Rule)
    requires MembersShown(o) && r != RMedia
    ensures Shown(r, o)
  {
    hide RuleFor, Member, IsPush, IsElementRule, IsScalarRule, Names, Bare, IsEmitted;
    MemberIsOwned(r);
    if Member(r) in o {
      assert MemberShown(Member(r), o[Member(r)]);
      assert forall n :: n in {Ttl, Dir2, List2} && n in o ==> MemberShown(n, o[n]);
    }
  }

  lemma RulesAreShown(o: Object)
    requires MembersShown(o)
    ensures AllShown(o)
  {
    hide MembersShown, Shown, AttributeRule;
    forall i | 0 <= i < ATTRIBUTE_RULES
      ensures Shown(AttributeRule(i), o)
    {
      RankOfRule(i);
      MembersAreShown(o, AttributeRule(i));
    }
  }

  /** Members that are never emitted are not there. */
  lemma NeverShown(o: Object, k: Key)
    requires MembersShown(o) && k in {Description, Uri, Email, Phone, Bandwidth, Repeats, TimeZones, NumPorts}
    ensures k !in o
  {
    hide MembersShown, IsEmitted, RuleFor;
    if k in o {
      ShownAt(o, k);
      if k != NumPorts {
        NotEmitted(k);
      }
    }
  }

  lemma ShownAt(o: Object, k: Key)
    requires MembersShown(o) && k in o
    ensures MemberShown(k, o[k])
  {
  }

  lemma NotEmitted(k: Key)
    requires k in {Description, Uri, Email, Phone, Bandwidth, Repeats, TimeZones}
    ensures RuleFor(k) != RMedia && !IsEmitted(RuleFor(k))
  {
  }

  predicate SectionShown(m: Object) {
    MembersShown(m)
  }

  lemma {:induction false} LinesConcat(a: seq<Rule>, b: seq<Rule>, o: Object)
    ensures ObjectLines(a + b, o) == ObjectLines(a, o) + ObjectLines(b, o)
  {
    hide LinesOf;
    if b == [] {
      assert a + b == a;
    } else {
      assert (a + b)[..|a + b| - 1] == a + b[..|b| - 1];
      LinesConcat(a, b[..|b| - 1], o);
    }
  }

  lemma MediaTextPrinted(m: Object)
    requires Bare(RMedia, m)
    ensures MakeLine(RMedia, m) == Line('m', MediaText(m))
  {
    hide Format, Content, Bare, MakeLine, Names, MediaText, Argument;
    MediaPrints(m);
    MediaNamed(m);
    MakeLineContent(RMedia, m, m);
  }

  lemma MediaNamed(m: Object)
    ensures Names(RMedia) != [] && FormatObject(RMedia, m) == m && Letter(RMedia) == 'm'
    ensures forall j :: 0 <= j < |Names(RMedia)| ==> Argument(RMedia, m, Names(RMedia)[j]) == Look(m, Names(RMedia)[j])
  {
  }

  lemma NestedLine(r: Rule, o: Object, k: Key, letter: char, text: Object -> string)
    requires IsElementRule(r) && !IsPush(r) && r != RMedia && Shown(r, o) && TablePrints(r, text)
    requires Member(r) == k && Letter(r) == letter
    ensures LinesOf(r, o) == FieldLine(o, k, letter, text)
  {
    hide Shown, LinesOf, FieldLine, Member, Letter, IsElementRule, IsPush;
    NestedPrinted(r, o, text);
  }

  lemma ConnectionTextPrinted(o: Object)
    requires Shown(RConnection, o)
    ensures LinesOf(RConnection, o) == FieldLine(o, Connection, 'c', ConnectionText)
  {
    hide Shown, Format, Content, Names, Bare, ConnectionText, LinesOf, FieldLine;
    forall x: Object | Bare(RConnection, x)
      ensures |Format(RConnection, x)| <= |Names(RConnection)| && Content(RConnection, x) == ConnectionText(x)
    {
      ConnectionPrints(x);
    }
    NestedLine(RConnection, o, Connection, 'c', ConnectionText);
  }

  lemma Absent(o: Object)
    ensures Description !in o ==> LinesOf(RDescription, o) == []
    ensures Bandwidth !in o ==> LinesOf(RBandwidth, o) == []
  {
  }

  /** What the rule table prints for a section. */
  lemma SectionPrinted(m: Object)
    requires SectionShown(m)
    ensures SectionLines(m) == SectionText(m)
  {
    hide MembersShown, AllShown, Shown, LinesOf, ObjectLines, MakeLine, MediaText, Attributes, FieldLine, ARules;
    RulesAreShown(m);
    MembersAreShown(m, RConnection);
    NeverShown(m, Description);
    NeverShown(m, Bandwidth);
    NeverShown(m, NumPorts);
    MediaTextPrinted(m);
    ConnectionTextPrinted(m);
    Absent(m);
    AttributesPrinted(m);
    LinesConcat([RDescription, RConnection, RBandwidth], ARules(), m);
    ThreeRules(RDescription, RConnection, RBandwidth, m);
  }

  lemma ThreeRules(a: Rule, b: Rule, c: Rule, o: Object)
    ensures ObjectLines([a, b, c], o) == LinesOf(a, o) + LinesOf(b, o) + LinesOf(c, o)
  {
    hide LinesOf;
    assert [a, b, c][..2] == [a, b] && [a, b][..1] == [a] && [a][..0] == [];
    assert ObjectLines([a], o) == [] + LinesOf(a, o) == LinesOf(a, o);
    assert ObjectLines([a, b], o) == LinesOf(a, o) + LinesOf(b, o);
  }

  function SessionHead(s: Object): seq<Line> {
    [Line('v', TextAt(s, Version))] + FieldLine(s, Origin, 'o', OriginText)
    + [Line('s', TextAt(s, Name))] + FieldLine(s, Connection, 'c', ConnectionText)
    + FieldLine(s, Timing, 't', TimingText) + Attributes(s)
  }

  /** A payload list that is missing is empty. */
  function SectionTexts(media: seq<Object>): seq<Line> {
    if media == [] then [] else SectionTexts(media[..|media| - 1]) + SectionText(WithPayloads(media[|media| - 1]))
  }

  /** The lines with their line ends. */
  function Written(lines: seq<Line>): string {
    if lines == [] then ""
    else
      var line := lines[|lines| - 1];
      Written(lines[..|lines| - 1]) + ([line.letter] + ("=" + (line.content + "\r\n")))
  }

  predicate HeadShown(s: Object) {
    MembersShown(s) && HasNum(s, Version) && HasStr(s, Name)
  }

  predicate SessionShown(s: Object) {
    HeadShown(s) && forall i :: 0 <= i < |MediaOf(s)| ==> SectionShown(WithPayloads(MediaOf(s)[i]))
  }

  lemma {:induction false} RenderIsWritten(lines: seq<Line>)
    ensures Render(lines) == Written(lines)
  {
    if lines != [] {
      RenderIsWritten(lines[..|lines| - 1]);
      var line := lines[|lines| - 1];
      assert LineText(line) == [line.letter] + ("=" + (line.content + "\r\n"));
    }
  }

  lemma {:induction false} SectionsPrinted(media: seq<Object>)
    requires forall i :: 0 <= i < |media| ==> SectionShown(WithPayloads(media[i]))
    ensures MediaLines(AllWithPayloads(media)) == SectionTexts(media)
  {
    hide SectionShown, SectionLines, SectionText, WithPayloads;
    if media != [] {
      var n := |media| - 1;
      SectionsPrinted(media[..n]);
      assert AllWithPayloads(media)[..n] == AllWithPayloads(media[..n]);
      SectionPrinted(WithPayloads(media[n]));
    }
  }

  // ----- the theorem -----

  /** The members that `write` fills in: version 0, the name "-", and empty payload lists, ... */
  lemma DefaultsFilled(s: Object)
    ensures var f := FillDefaults(s);
      && Version in f && f[Version] == (if Version in s then s[Version] else Num(0))
      && Name in f && f[Name] == (if Name in s then s[Name] else Str("-"))
      && Media in f && f[Media] == Arr(AllWithPayloads(MediaOf(s)))
  {
    hide AllWithPayloads;
  }

  /** ... and nothing else. */
  lemma DefaultsKeep(s: Object, k: Key)
    requires k !in {Version, Name, Media}
    ensures (k in FillDefaults(s) <==> k in s) && Look(FillDefaults(s), k) == Look(s, k)
  {
    hide AllWithPayloads, MediaOf;
  }

  lemma OuterAbsent(o: Object)
    requires MembersShown(o)
    ensures LinesOf(RDescription, o) == LinesOf(RUri, o) == LinesOf(REmail, o) == LinesOf(RPhone, o) == []
    ensures LinesOf(RBandwidth, o) == LinesOf(RRepeats, o) == LinesOf(RTimeZones, o) == []
  {
    hide MembersShown, LinesOf, Member;
    OuterMembers();
    NeverShown(o, Description);
    NeverShown(o, Uri);
    NeverShown(o, Email);
    NeverShown(o, Phone);
    NeverShown(o, Bandwidth);
    NeverShown(o, Repeats);
    NeverShown(o, TimeZones);
    MemberAbsent(RDescription, o);
    MemberAbsent(RUri, o);
    MemberAbsent(REmail, o);
    MemberAbsent(RPhone, o);
    MemberAbsent(RBandwidth, o);
    MemberAbsent(RRepeats, o);
    MemberAbsent(RTimeZones, o);
  }

  lemma OuterMembers()
    ensures Member(RDescription) == Description && Member(RUri) == Uri && Member(REmail) == Email
    ensures Member(RPhone) == Phone && Member(RBandwidth) == Bandwidth && Member(RRepeats) == Repeats
    ensures Member(RTimeZones) == TimeZones
  {
  }

  lemma MemberAbsent(r: Rule, o: Object)
    requires r != RMedia && Member(r) !in o
    ensures LinesOf(r, o) == []
  {
    hide Member;
  }

  lemma OriginTextPrinted(o: Object)
    requires Shown(ROrigin, o)
    ensures LinesOf(ROrigin, o) == FieldLine(o, Origin, 'o', OriginText)
  {
    hide Shown, Format, Content, Names, Bare, OriginText, LinesOf, FieldLine;
    forall x: Object | Bare(ROrigin, x)
      ensures |Format(ROrigin, x)| <= |Names(ROrigin)| && Content(ROrigin, x) == OriginText(x)
    {
      OriginPrints(x);
    }
    NestedLine(ROrigin, o, Origin, 'o', OriginText);
  }

  lemma TimingTextPrinted(o: Object)
    requires Shown(RTiming, o)
    ensures LinesOf(RTiming, o) == FieldLine(o, Timing, 't', TimingText)
  {
    hide Shown, Format, Content, Names, Bare, TimingText, LinesOf, FieldLine;
    forall x: Object | Bare(RTiming, x)
      ensures |Format(RTiming, x)| <= |Names(RTiming)| && Content(RTiming, x) == TimingText(x)
    {
      TimingPrints(x);
    }
    NestedLine(RTiming, o, Timing, 't', TimingText);
  }

  lemma VersionPrinted(o: Object)
    requires HasNum(o, Version)
    ensures LinesOf(RVersion, o) == [Line('v', TextAt(o, Version))]
  {
    assert "" + TextAt(o, Version) == TextAt(o, Version);
    ScalarPrintedAt(RVersion, o, "");
  }

  lemma NamePrinted(o: Object)
    requires HasStr(o, Name)
    ensures LinesOf(RName, o) == [Line('s', TextAt(o, Name))]
  {
    assert "" + TextAt(o, Name) == TextAt(o, Name);
    ScalarPrintedAt(RName, o, "");
  }

  lemma FourRules(a: Rule, b: Rule, c: Rule, d: Rule, o: Object)
    ensures ObjectLines([a, b, c, d], o) == LinesOf(a, o) + LinesOf(b, o) + LinesOf(c, o) + LinesOf(d, o)
  {
    hide LinesOf;
    ThreeRules(a, b, c, o);
    assert [a, b, c, d][..3] == [a, b, c];
  }

  lemma OuterPrinted(s: Object)
    requires HeadShown(s)
    ensures ObjectLines(OuterRules(), s) == SessionHead(s)
  {
    hide MembersShown, AllShown, Shown, LinesOf, ObjectLines, Attributes, FieldLine, ARules, TextAt;
    RulesAreShown(s);
    MembersAreShown(s, ROrigin);
    MembersAreShown(s, RTiming);
    MembersAreShown(s, RConnection);
    var a, b := [RVersion, ROrigin, RName, RDescription], [RUri, REmail, RPhone, RConnection];
    var c := [RBandwidth, RTiming, RRepeats, RTimeZones];
    VersionPrinted(s);
    OriginTextPrinted(s);
    NamePrinted(s);
    ConnectionTextPrinted(s);
    TimingTextPrinted(s);
    OuterAbsent(s);
    AttributesPrinted(s);
    assert OuterRules() == ((a + b) + c) + ARules();
    LinesConcat((a + b) + c, ARules(), s);
    LinesConcat(a + b, c, s);
    LinesConcat(a, b, s);
    FourRules(RVersion, ROrigin, RName, RDescription, s);
    FourRules(RUri, REmail, RPhone, RConnection, s);
    FourRules(RBandwidth, RTiming, RRepeats, RTimeZones, s);
  }

  /** The text `write` prints is that of the simple form. */
  lemma WritesSimply(s: Object)
    requires SessionShown(FillDefaults(s))
    ensures WriteText(s) == Written(SessionHead(FillDefaults(s)) + SectionTexts(MediaOf(FillDefaults(s))))
  {
    hide HeadShown, SessionHead, ObjectLines, OuterRules, MediaLines, Render, Written, SectionTexts, SectionShown;
    var f := FillDefaults(s);
    OuterPrinted(f);
    SectionsPrinted(MediaOf(f));
    PayloadsStay(MediaOf(s));
    RenderIsWritten(SessionLines(f));
  }

  lemma PayloadsStay(media: seq<Object>)
    ensures AllWithPayloads(AllWithPayloads(media)) == AllWithPayloads(media)
  {
  }
}
