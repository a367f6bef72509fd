/** Every line the session model prints is read back token by token: the pattern of a rule
    captures exactly the texts its format printed. */
module SdpTokens {
  import opened Text
  import opened Json
  import opened Regex
  import opened Patterns
  import opened LineShapes
  import opened Heads
  import opened Grammar
  import opened SdpText

  function TextAt(o: Object, n: Key): string {
    ArgText(Look(o, n))
  }

  /** The printed text of every name of a rule. */
  function Texts(r: Rule, o: Object): (ts: seq<string>)
    ensures |ts| == |Names(r)|
  {
    seq(|Names(r)|, i requires 0 <= i < |Names(r)| => TextAt(o, Names(r)[i]))
  }

  /** The content of a line, as a function of the object that holds the rule's names. */
  function Content(r: Rule, o: Object): string {
    var f := Format(r, o);
    if |f| <= |Names(r)| then Fill(f, Texts(r, o), 0) else ""
  }

  // ----- well-formed tokens -----

  predicate Counter(o: Object, n: Key) {
    HasNum(o, n) && 0 <= o[n].n < TWO_63
  }

  predicate Token1(o: Object, n: Key, cls: Class) {
    HasStr(o, n) && o[n].s != "" && AllIn(o[n].s, cls)
  }

  predicate Token0(o: Object, n: Key, cls: Class) {
    HasStr(o, n) && AllIn(o[n].s, cls)
  }

  const GROUP_CHARS := "!#$%&'*+,-."

  predicate OriginOk(o: Object) {
    Token1(o, Username, NonSpace) && Counter(o, SessionId) && Counter(o, SessionVersion)
    && Token1(o, NetType, NonSpace) && Counter(o, IpVer) && o[IpVer].n < 10 && Token1(o, Address, NonSpace)
  }

  predicate TimingOk(o: Object) {
    Counter(o, Start) && Counter(o, Stop)
  }

  predicate ConnectionOk(o: Object) {
    Counter(o, Version) && o[Version].n < 10 && Token1(o, Ip, Except("\\S/\r\n")) && Ttl !in o
  }

  predicate MediaOk(o: Object) {
    Token1(o, Type, Word) && Counter(o, Port) && NumPorts !in o
    && Token1(o, Protocol, WordOr("/")) && Token0(o, Payloads, Any)
  }

  predicate RtpOk(o: Object) {
    Counter(o, Payload) && Token1(o, Codec, WordOr("-.")) && Counter(o, Rate)
    && (Encoding in o ==> Counter(o, Encoding))
  }

  predicate FmtpOk(o: Object) {
    Counter(o, Payload) && Token0(o, Config, Any)
  }

  predicate RtcpFbOk(o: Object) {
    Counter(o, Payload) && Token0(o, Type, WordOr("-")) && o[Type].s != "trr-int"
    && Token0(o, Subtype, WordOr("-"))
  }

  predicate ExtOk(o: Object) {
    Counter(o, Value) && Token1(o, Uri, NonSpace) && Direction !in o && EncryptUri !in o && Config !in o
  }

  predicate FingerprintOk(o: Object) {
    Token1(o, Type, NonSpace) && Token1(o, Hash, NonSpace)
  }

  predicate CandidatesOk(o: Object) {
    Token1(o, Foundation, NonSpace) && Counter(o, Component) && Token1(o, Transport, NonSpace)
    && Counter(o, Priority) && Token1(o, Ip, NonSpace) && Counter(o, Port) && Token1(o, Type, NonSpace)
    && (TcpType in o ==> Token0(o, TcpType, NonSpace))
    && RAddr !in o && RPort !in o && Generation !in o && NetworkId !in o && NetworkCost !in o
  }

  predicate SsrcsOk(o: Object) {
    Counter(o, Id) && Token1(o, Attribute, WordOr("-")) && Token0(o, Value, Any)
  }

  predicate SsrcGroupsOk(o: Object) {
    Token1(o, Semantics, WordOr(GROUP_CHARS)) && Token0(o, Ssrcs, Any)
  }

  predicate MsidSemanticOk(o: Object) {
    Token1(o, Semantic, Word) && Token1(o, Token, NonSpace)
  }

  predicate GroupsOk(o: Object) {
    Token1(o, Type, Word) && Token0(o, Mids, Any)
  }

  predicate RidsOk(o: Object) {
    Token1(o, Id, Word) && Token1(o, Direction, Word) && Params !in o
  }

  predicate SimulcastOk(o: Object) {
    HasStr(o, Dir1) && o[Dir1].s in {"send", "recv"} && Token1(o, List1, WordOr(STREAM_CHARS))
    && Dir2 !in o && List2 !in o
  }

  /** What the members of a printed object must look like for its line to be read back. */
  predicate ElementOk(r: Rule, o: Object) {
    match r
    case ROrigin => OriginOk(o)
    case RTiming => TimingOk(o)
    case RConnection => ConnectionOk(o)
    case RMedia => MediaOk(o)
    case RRtp => RtpOk(o)
    case RFmtp => FmtpOk(o)
    case RRtcpFb => RtcpFbOk(o)
    case RExt => ExtOk(o)
    case RFingerprint => FingerprintOk(o)
    case RCandidates => CandidatesOk(o)
    case RSsrcs => SsrcsOk(o)
    case RSsrcGroups => SsrcGroupsOk(o)
    case RMsidSemantic => MsidSemanticOk(o)
    case RGroups => GroupsOk(o)
    case RRids => RidsOk(o)
    case RSimulcast => SimulcastOk(o)
    case _ => false
  }

  /** A counter prints as digits. */
  lemma CounterText(o: Object, n: Key)
    requires Counter(o, n)
    ensures TextAt(o, n) != "" && AllIn(TextAt(o, n), Digit)
  {
    assert TextAt(o, n) == Digits(o[n].n);
  }

  // ----- rule by rule -----

  /** The line is handed back to its rule, whose pattern captures exactly the printed texts. */
  predicate ReadsBack(r: Rule, o: Object) {
    && |Format(r, o)| <= |Names(r)|
    && Captures(r, Content(r, o)) == Some(Texts(r, o))
    && Dispatch(Letter(r), Content(r, o)) == Some(r)
  }

  /** The pattern reads back what the format prints behind the rule's head. */
  predicate Shaped(r: Rule, o: Object) {
    && 0 < |Format(r, o)| <= |Names(r)|
    && Format(r, o)[0].directive != 'v' && HeadOf(r) <= Format(r, o)[0].prefix
    && Reads(Pattern(r), Format(r, o), Texts(r, o), 0)
  }

  lemma Whole(r: Rule, o: Object)
    requires Shaped(r, o) && r != RXGoogleFlag
    ensures |Format(r, o)| <= |Names(r)| && Captures(r, Content(r, o)) == Some(Texts(r, o))
    ensures HeadOf(r) <= Content(r, o)
  {
    assert Texts(r, o)[0..] == Texts(r, o);
  }

  /** A line letter with a single rule. */
  lemma LoneReads(r: Rule, o: Object)
    requires r in {ROrigin, RTiming, RConnection, RMedia} && Shaped(r, o)
    ensures ReadsBack(r, o)
  {
    hide Shaped, Captures, Content, Texts, Format, Letter, RulesOf, Names, Dispatch;
    LoneRule(r);
    Whole(r, o);
    LoneDispatch(Letter(r), r, Content(r, o));
  }

  lemma LoneDispatch(letter: char, r: Rule, s: string)
    requires RulesOf(letter) == [r] && Captures(r, s).Some?
    ensures Dispatch(letter, s) == Some(r)
  {
    hide Captures, RulesOf;
    FirstMatchIs([r], s, 0);
  }

  lemma LoneRule(r: Rule)
    requires r in {ROrigin, RTiming, RConnection, RMedia}
    ensures RulesOf(Letter(r)) == [r] && r != RXGoogleFlag
  {
  }

  /** An attribute behind its head. */
  lemma AttributeReads(r: Rule, o: Object)
    requires IsHeaded(r) && r != RSimulcast03 && Shaped(r, o)
    requires r == RRtcpFb ==> Captures(RRtcpFbTrrInt, Content(r, o)).None?
    requires Rank(r) > Rank(RXGoogleFlag) ==> Captures(RXGoogleFlag, Content(r, o)).None?
    ensures ReadsBack(r, o)
  {
    hide Captures, Pattern, Shaped, Content, Texts;
    Whole(r, o);
    DispatchHeaded(r, Content(r, o));
  }

  lemma OriginShaped(o: Object)
    requires ElementOk(ROrigin, o)
    ensures Shaped(ROrigin, o)
  {
    hide RestOf;
    hide Match, Fill, Captures, Reads;
    CounterText(o, SessionId);
    CounterText(o, SessionVersion);
    CounterText(o, IpVer);
    OriginShape(Format(ROrigin, o), Texts(ROrigin, o));
  }

  lemma TimingShaped(o: Object)
    requires ElementOk(RTiming, o)
    ensures Shaped(RTiming, o)
  {
    hide RestOf;
    hide Match, Fill, Captures, Reads;
    CounterText(o, Start);
    CounterText(o, Stop);
    TimingShape(Format(RTiming, o), Texts(RTiming, o));
  }

  lemma ConnectionShaped(o: Object)
    requires ElementOk(RConnection, o)
    ensures Shaped(RConnection, o)
  {
    hide RestOf;
    hide Match, Fill, Captures, Reads;
    CounterText(o, Version);
    assert Format(RConnection, o) == [Piece("IN IP", 'd'), Piece(" ", 's')];
    ConnectionShape(Format(RConnection, o), Texts(RConnection, o));
  }

  lemma MediaShaped(o: Object)
    requires ElementOk(RMedia, o)
    ensures Shaped(RMedia, o)
  {
    hide RestOf;
    hide Match, Fill, Captures, Reads, AllIn, Digits;
    CounterText(o, Port);
    MediaShape(Format(RMedia, o), Texts(RMedia, o));
  }

  lemma RtpShaped(o: Object)
    requires ElementOk(RRtp, o)
    ensures Shaped(RRtp, o)
  {
    hide RtcpRest, RtcpFbTrrIntRest, RtcpFbRest, ExtRest, CryptoRest, FingerprintRest, CandidatesRest,
      SsrcsRest, MsidSemanticRest, SctpMapRest, RidsRest, SimulcastRest, SourceFilterRest;
    hide Match, Fill, Captures, Reads;
    CounterText(o, Payload);
    CounterText(o, Rate);
    if Encoding in o {
      CounterText(o, Encoding);
    }
    RtpShape(Format(RRtp, o), Texts(RRtp, o));
  }

  lemma FmtpShaped(o: Object)
    requires ElementOk(RFmtp, o)
    ensures Shaped(RFmtp, o)
  {
    hide RtpRest, RtcpRest, RtcpFbTrrIntRest, RtcpFbRest, ExtRest, CryptoRest, FingerprintRest, CandidatesRest,
      SsrcsRest, MsidSemanticRest, SctpMapRest, RidsRest, SimulcastRest, SourceFilterRest;
    hide Match, Fill, Captures, Reads, AllIn, Digits;
    CounterText(o, Payload);
    PairShape("fmtp:", Digit, Any, Format(RFmtp, o), Texts(RFmtp, o));
  }

  lemma FeedbackShaped(o: Object)
    requires ElementOk(RRtcpFb, o)
    ensures Shaped(RRtcpFb, o)
  {
    hide RtpRest, RtcpRest, RtcpFbTrrIntRest, ExtRest, CryptoRest, FingerprintRest, CandidatesRest,
      SsrcsRest, MsidSemanticRest, SctpMapRest, RidsRest, SimulcastRest, SourceFilterRest;
    hide Match, Fill, Captures, Reads, AllIn, In, ElementOk, Format, Texts;
    FeedbackTexts(o);
    FeedbackShape(Format(RRtcpFb, o), Texts(RRtcpFb, o));
  }

  lemma FeedbackTexts(o: Object)
    requires ElementOk(RRtcpFb, o)
    ensures var f, t := Format(RRtcpFb, o), Texts(RRtcpFb, o);
      && 2 <= |f| <= 3 && f[0] == Piece("rtcp-fb:", 's') && f[1] == Piece(" ", 's')
      && (if |f| == 3 then f[2] == Piece(" ", 's') else t[2] == "")
      && |t| == 3 && t[0] != "" && AllIn(t[0], Digit) && AllIn(t[1], WordOr("-")) && AllIn(t[2], WordOr("-"))
      && t[1] != "trr-int"
  {
    hide AllIn, Digits, In;
    CounterText(o, Payload);
    EmptyClean(WordOr("-"));
  }

  lemma FeedbackIsNotTrrInt(o: Object)
    requires ElementOk(RRtcpFb, o)
    ensures Captures(RRtcpFbTrrInt, Content(RRtcpFb, o)).None?
  {
    hide Match, Reads, Fill, AllIn, In, Format, Texts, ElementOk, RtcpFbTrrIntRest, RestOf;
    var f, t := Format(RRtcpFb, o), Texts(RRtcpFb, o);
    FeedbackTexts(o);
    FeedbackShape(f, t);
    TrrIntPattern();
    TrrIntFails(t[0], t[1], if |f| == 3 then " " + t[2] else "");
  }

  lemma TrrIntPattern()
    ensures Pattern(RRtcpFbTrrInt) == Lit("rtcp-fb:", RtcpFbTrrIntRest())
  {
    hide RtpRest, RtcpRest, RtcpFbTrrIntRest, RtcpFbRest, ExtRest, CryptoRest, FingerprintRest, CandidatesRest,
      SsrcsRest, MsidSemanticRest, SctpMapRest, RidsRest, SimulcastRest, SourceFilterRest;
  }

  lemma ExtTexts(o: Object)
    requires ElementOk(RExt, o)
    ensures Format(RExt, o) == [Piece("extmap:", 'd'), Piece("", 'v'), Piece("", 'v'), Piece(" ", 's')]
    ensures var t := Texts(RExt, o);
      |t| == 5 && AllIn(t[0], Digit) && t[0] != "" && t[1] == t[2] == t[4] == "" && AllIn(t[3], NonSpace)
  {
    hide AllIn, Digits;
    CounterText(o, Value);
  }

  lemma ExtPattern()
    ensures Pattern(RExt) == Lit("extmap:", ExtRest()) && HeadOf(RExt) == "extmap:" && |Names(RExt)| == 5
  {
    hide RtpRest, RtcpRest, RtcpFbTrrIntRest, RtcpFbRest, ExtRest, CryptoRest, FingerprintRest, CandidatesRest,
      SsrcsRest, MsidSemanticRest, SctpMapRest, RidsRest, SimulcastRest, SourceFilterRest;
  }

  lemma ExtShaped(o: Object)
    requires ElementOk(RExt, o)
    ensures Shaped(RExt, o)
  {
    hide Match, Fill, Captures, Reads, AllIn, ElementOk, Format, Texts, Pattern, HeadOf, Names;
    ExtPattern();
    ExtTexts(o);
    ExtShape(Format(RExt, o), Texts(RExt, o));
  }

  lemma FingerprintShaped(o: Object)
    requires ElementOk(RFingerprint, o)
    ensures Shaped(RFingerprint, o)
  {
    hide RtpRest, RtcpRest, RtcpFbTrrIntRest, RtcpFbRest, ExtRest, CryptoRest, CandidatesRest,
      SsrcsRest, MsidSemanticRest, SctpMapRest, RidsRest, SimulcastRest, SourceFilterRest;
    hide Match, Fill, Captures, Reads, AllIn, Digits;
    PairShape("fingerprint:", NonSpace, NonSpace, Format(RFingerprint, o), Texts(RFingerprint, o));
  }

  lemma CandidateFormat(o: Object)
    requires ElementOk(RCandidates, o)
    ensures |Format(RCandidates, o)| == 12 && Format(RCandidates, o)[0] == Piece("candidate:", 's')
    ensures Format(RCandidates, o) == [Piece("candidate:", 's'), Piece(" ", 'd'), Piece(" ", 's'), Piece(" ", 'd'),
      Piece(" ", 's'), Piece(" ", 'd'), Piece(" typ ", 's'), Piece("", 'v'), Piece("", 'v'),
      if TextAt(o, TcpType) != "" then Piece(" tcptype ", 's') else Piece("", 'v'), Piece("", 'v'), Piece("", 'v')]
  {
  }

  lemma CandidateTexts(o: Object)
    requires ElementOk(RCandidates, o)
    ensures var t := Texts(RCandidates, o);
      && AllIn(t[0], NonSpace) && AllIn(t[1], Digit) && AllIn(t[2], NonSpace) && AllIn(t[3], Digit)
      && AllIn(t[4], NonSpace) && AllIn(t[5], Digit) && AllIn(t[6], NonSpace) && AllIn(t[9], NonSpace)
      && t[7] == t[8] == t[10] == t[11] == t[12] == "" && t[9] == TextAt(o, TcpType)
  {
    hide Digits, AllIn;
    CounterText(o, Component);
    CounterText(o, Priority);
    CounterText(o, Port);
    EmptyClean(NonSpace);
  }

  lemma EmptyClean(cls: Class)
    ensures AllIn("", cls)
  {
  }

  lemma CandidatePattern()
    ensures Pattern(RCandidates) == Lit("candidate:", CandidatesRest()) && HeadOf(RCandidates) == "candidate:"
    ensures |Names(RCandidates)| == 13
  {
    hide RtpRest, RtcpRest, RtcpFbTrrIntRest, RtcpFbRest, ExtRest, CryptoRest, FingerprintRest, CandidatesRest,
      SsrcsRest, MsidSemanticRest, SctpMapRest, RidsRest, SimulcastRest, SourceFilterRest;
  }

  lemma CandidateShaped(o: Object)
    requires ElementOk(RCandidates, o)
    ensures Shaped(RCandidates, o)
  {
    hide Match, Fill, Captures, Reads, ElementOk, Format, Texts, CandidateTail, AllIn, TextAt, Pattern, HeadOf, Names;
    CandidatePattern();
    CandidateFormat(o);
    CandidateTexts(o);
    CandidateShape(Format(RCandidates, o), Texts(RCandidates, o));
  }

  lemma SsrcTexts(o: Object)
    requires ElementOk(RSsrcs, o)
    ensures var f, t := Format(RSsrcs, o), Texts(RSsrcs, o);
      && 2 <= |f| <= 3 && f[0] == Piece("ssrc:", 'd') && f[1] == Piece(" ", 's')
      && (if |f| == 3 then f[2] == Piece(":", 's') else t[2] == "")
      && |t| == 3 && AllIn(t[0], Digit) && AllIn(t[1], WordOr("-")) && AllIn(t[2], Any)
  {
    hide AllIn, Digits;
    CounterText(o, Id);
  }

  lemma SsrcPattern()
    ensures Pattern(RSsrcs) == Lit("ssrc:", SsrcsRest()) && HeadOf(RSsrcs) == "ssrc:" && |Names(RSsrcs)| == 3
  {
    hide RtpRest, RtcpRest, RtcpFbTrrIntRest, RtcpFbRest, ExtRest, CryptoRest, FingerprintRest, CandidatesRest,
      SsrcsRest, MsidSemanticRest, SctpMapRest, RidsRest, SimulcastRest, SourceFilterRest;
  }

  lemma SsrcShaped(o: Object)
    requires ElementOk(RSsrcs, o)
    ensures Shaped(RSsrcs, o)
  {
    hide Match, Fill, Captures, Reads, AllIn, ElementOk, Format, Texts, Pattern, HeadOf, Names;
    SsrcPattern();
    SsrcTexts(o);
    TripleShape("ssrc:", Digit, 0, WordOr("-"), ":", Any, Format(RSsrcs, o), Texts(RSsrcs, o));
  }

  lemma SsrcGroupShaped(o: Object)
    requires ElementOk(RSsrcGroups, o)
    ensures Shaped(RSsrcGroups, o)
  {
    hide RtpRest, RtcpRest, RtcpFbTrrIntRest, RtcpFbRest, ExtRest, CryptoRest, FingerprintRest, CandidatesRest,
      SsrcsRest, MsidSemanticRest, SctpMapRest, RidsRest, SimulcastRest, SourceFilterRest;
    hide Match, Fill, Captures, Reads, AllIn, In;
    SpaceSeparates();
    PairShape("ssrc-group:", WordOr(GROUP_CHARS), Any, Format(RSsrcGroups, o), Texts(RSsrcGroups, o));
  }

  lemma SpaceSeparates()
    ensures !In(' ', WordOr(GROUP_CHARS))
  {
  }

  lemma MsidSemanticShaped(o: Object)
    requires ElementOk(RMsidSemantic, o)
    ensures Shaped(RMsidSemantic, o)
  {
    hide RtpRest, RtcpRest, RtcpFbTrrIntRest, RtcpFbRest, ExtRest, CryptoRest, FingerprintRest,
      CandidatesRest, SsrcsRest, SctpMapRest, RidsRest, SimulcastRest, SourceFilterRest;
    hide Match, Fill, Captures, Reads, AllIn;
    MsidSemanticShape(Format(RMsidSemantic, o), Texts(RMsidSemantic, o));
  }

  lemma GroupShaped(o: Object)
    requires ElementOk(RGroups, o)
    ensures Shaped(RGroups, o)
  {
    hide RtpRest, RtcpRest, RtcpFbTrrIntRest, RtcpFbRest, ExtRest, CryptoRest, FingerprintRest, CandidatesRest,
      SsrcsRest, MsidSemanticRest, SctpMapRest, RidsRest, SimulcastRest, SourceFilterRest;
    hide Match, Fill, Captures, Reads, AllIn, Digits;
    PairShape("group:", Word, Any, Format(RGroups, o), Texts(RGroups, o));
  }

  lemma RidPattern()
    ensures Pattern(RRids) == Lit("rid:", RidsRest()) && HeadOf(RRids) == "rid:" && |Names(RRids)| == 3
  {
    hide RtpRest, RtcpRest, RtcpFbTrrIntRest, RtcpFbRest, ExtRest, CryptoRest, FingerprintRest, CandidatesRest,
      SsrcsRest, MsidSemanticRest, SctpMapRest, RidsRest, SimulcastRest, SourceFilterRest;
  }

  lemma RidShaped(o: Object)
    requires ElementOk(RRids, o)
    ensures Shaped(RRids, o)
  {
    hide Match, Fill, Captures, Reads, AllIn, ElementOk, Format, Texts, Pattern, HeadOf, Names;
    RidPattern();
    EmptyClean(Any);
    RidTexts(o);
    TripleShape("rid:", Word, 1, Word, " ", Any, Format(RRids, o), Texts(RRids, o));
  }

  lemma RidTexts(o: Object)
    requires ElementOk(RRids, o)
    ensures Format(RRids, o) == [Piece("rid:", 's'), Piece(" ", 's')]
    ensures var t := Texts(RRids, o); t[0] != "" && AllIn(t[0], Word) && t[1] != "" && AllIn(t[1], Word) && t[2] == ""
  {
    hide AllIn;
  }

  lemma RidIsNoFlag(o: Object)
    requires ElementOk(RRids, o)
    ensures Captures(RXGoogleFlag, Content(RRids, o)).None?
  {
    hide Captures, Format, Texts, ElementOk, AllIn, Fill;
    var f, t := Format(RRids, o), Texts(RRids, o);
    RidTexts(o);
    EmptyClean(Any);
    TripleShape("rid:", Word, 1, Word, " ", Any, f, t);
    assert Content(RRids, o) == "rid:" + (t[0] + (" " + (t[1] + "")));
    WordIsStream(t[0]);
    WordIsStream(t[1]);
    ColonFree("rid:", t[0], t[1]);
    FlagNeeds(Content(RRids, o));
  }

  lemma WordIsStream(s: string)
    requires AllIn(s, Word)
    ensures AllIn(s, WordOr(STREAM_CHARS))
  {
  }

  lemma SimulcastPattern()
    ensures Pattern(RSimulcast) == Lit("simulcast:", SimulcastRest()) && HeadOf(RSimulcast) == "simulcast:"
      && |Names(RSimulcast)| == 4
  {
    hide RtpRest, RtcpRest, RtcpFbTrrIntRest, RtcpFbRest, ExtRest, CryptoRest, FingerprintRest, CandidatesRest,
      SsrcsRest, MsidSemanticRest, SctpMapRest, RidsRest, SimulcastRest, SourceFilterRest;
  }

  lemma SimulcastShaped(o: Object)
    requires ElementOk(RSimulcast, o)
    ensures Shaped(RSimulcast, o)
  {
    hide Match, Fill, Captures, Reads, SimulcastRest, ElementOk, Format, Texts, AllIn, Pattern, HeadOf, Names;
    SimulcastPattern();
    SimulcastTexts(o);
    SimulcastShape(Format(RSimulcast, o), Texts(RSimulcast, o));
  }

  lemma SimulcastTexts(o: Object)
    requires ElementOk(RSimulcast, o)
    ensures Format(RSimulcast, o) == [Piece("simulcast:", 's'), Piece(" ", 's')]
    ensures var t := Texts(RSimulcast, o);
      && t[0] in {"send", "recv"} && AllIn(t[1], WordOr(STREAM_CHARS)) && t[1] != "" && t[2] == t[3] == ""
  {
  }

  lemma SimulcastIsNoFlag(o: Object)
    requires ElementOk(RSimulcast, o)
    ensures Captures(RXGoogleFlag, Content(RSimulcast, o)).None?
  {
    hide Captures, Match, Format, Texts, ElementOk, AllIn, Fill, Reads;
    var f, t := Format(RSimulcast, o), Texts(RSimulcast, o);
    SimulcastTexts(o);
    SimulcastShape(f, t);
    SimulcastFlag(t[0], t[1]);
  }

  lemma SimulcastFlag(dir: string, list: string)
    requires dir in {"send", "recv"} && AllIn(list, WordOr(STREAM_CHARS))
    ensures Captures(RXGoogleFlag, "simulcast:" + (dir + (" " + list))).None?
  {
    ColonFree("simulcast:", dir, list);
    assert list + "" == list;
    FlagNeeds("simulcast:" + (dir + (" " + list)));
  }

  lemma ColonFree(head: string, a: string, b: string)
    requires |head| <= 13 && AllIn(a, WordOr(STREAM_CHARS)) && AllIn(b, WordOr(STREAM_CHARS))
    ensures var s := head + (a + (" " + (b + ""))); forall i :: 13 <= i < |s| ==> s[i] != ':'
  {
  }

  predicate IsElementRule(r: Rule) {
    r in {ROrigin, RTiming, RConnection, RMedia, RRtp, RFmtp, RRtcpFb, RExt, RFingerprint, RCandidates,
      RSsrcs, RSsrcGroups, RMsidSemantic, RGroups, RRids, RSimulcast}
  }

  lemma ElementShaped(r: Rule, o: Object)
    requires ElementOk(r, o)
    ensures Shaped(r, o)
  {
    hide Shaped;
    match r {
      case ROrigin => OriginShaped(o);
      case RTiming => TimingShaped(o);
      case RConnection => ConnectionShaped(o);
      case RMedia => MediaShaped(o);
      case RRtp => RtpShaped(o);
      case RFmtp => FmtpShaped(o);
      case RRtcpFb => FeedbackShaped(o);
      case RExt => ExtShaped(o);
      case RFingerprint => FingerprintShaped(o);
      case RCandidates => CandidateShaped(o);
      case RSsrcs => SsrcShaped(o);
      case RSsrcGroups => SsrcGroupShaped(o);
      case RMsidSemantic => MsidSemanticShaped(o);
      case RGroups => GroupShaped(o);
      case RRids => RidShaped(o);
      case RSimulcast => SimulcastShaped(o);
      case _ =>
    }
  }

  /** First-match dispatch and capture of every structured line. */
  lemma ElementReads(r: Rule, o: Object)
    requires ElementOk(r, o)
    ensures ReadsBack(r, o)
  {
    hide Shaped, ReadsBack, Captures, Content;
    ElementShaped(r, o);
    if r in {ROrigin, RTiming, RConnection, RMedia} {
      LoneReads(r, o);
    } else {
      if r == RRtcpFb {
        FeedbackIsNotTrrInt(o);
      } else if r == RRids {
        RidIsNoFlag(o);
      } else if r == RSimulcast {
        SimulcastIsNoFlag(o);
      }
      AttributeReads(r, o);
    }
  }

  // ----- scalar members -----

  predicate IsScalarRule(r: Rule) {
    r in {RVersion, RName, RExtmapAllowMixed, RSetup, RMid, RDirection, RIcelite, RIceUfrag, RIcePwd,
      REndOfCandidates, RIceOptions, RRtcpMux, RRtcpRsize}
  }

  predicate ScalarOk(r: Rule, v: Json) {
    match r
    case RVersion => v.Num? && 0 <= v.n < TWO_63
    case RName => v.Str? && AllIn(v.s, Any)
    case RSetup => v.Str? && AllIn(v.s, Word)
    case RMid => v.Str? && AllIn(v.s, NonSpace)
    case RDirection => v.Str? && IsDirection(v.s)
    case RIceUfrag => v.Str? && AllIn(v.s, NonSpace)
    case RIcePwd => v.Str? && AllIn(v.s, NonSpace)
    case RIceOptions => v.Str? && AllIn(v.s, NonSpace)
    case _ => IsKeyword(r) && v == Str(HeadOf(r))
  }

  function ScalarContent(r: Rule, v: Json): string {
    var f := Format(r, map[]);
    if |f| == 1 then f[0].prefix + ArgText(v) else ""
  }

  predicate ScalarReadsBack(r: Rule, v: Json) {
    var content := ScalarContent(r, v);
    Captures(r, content) == Some([ArgText(v)]) && Dispatch(Letter(r), content) == Some(r)
  }

  lemma DirectionCaptures(v: string)
    requires IsDirection(v)
    ensures Captures(RDirection, v) == Some([v])
  {
    hide Match, DirectionPattern, IsDirection, RestOf, HeadOf;
    DirectionWords(v);
    assert Pattern(RDirection) == DirectionPattern();
  }

  lemma DirectionIsNoHead(v: string)
    requires IsDirection(v)
    ensures Decide(v) == RInvalid
  {
  }

  lemma UnheadedIsLate(e: Rule)
    requires Letter(e) == 'a' && Rank(e) < Rank(RDirection)
    ensures IsHeaded(e) && Canonical(e) != RInvalid
  {
  }

  /** The rules before the direction rule have other heads. */
  lemma DirectionDispatch(v: string)
    requires IsDirection(v)
    ensures Dispatch('a', v) == Some(RDirection)
  {
    hide Captures, AttributeRule, Rank, IsDirection;
    DirectionCaptures(v);
    RankIsIndex(RDirection);
    forall j | 0 <= j < Rank(RDirection)
      ensures Captures(ARules()[j], v).None?
    {
      ARulesAt(j);
      BeforeDirection(AttributeRule(j), v, j);
    }
    FirstMatchIs(ARules(), v, Rank(RDirection));
  }

  lemma BeforeDirection(e: Rule, v: string, j: nat)
    requires IsDirection(v)
    requires j < Rank(RDirection) <= ATTRIBUTE_RULES && e == AttributeRule(j)
    ensures Captures(e, v).None?
  {
    hide Captures, HeadOf, AttributeRule, Decide, Rank, IsDirection;
    RankOfRule(j);
    UnheadedIsLate(e);
    if Captures(e, v).Some? {
      HeadNeeded(e, v);
      HeadDecides(e, v);
      DirectionIsNoHead(v);
    }
  }

  lemma KeywordFormat(r: Rule)
    requires IsKeyword(r)
    ensures Format(r, map[]) == [Piece("", 's')]
  {
  }

  lemma KeywordPattern(r: Rule)
    requires IsKeyword(r)
    ensures Pattern(r) == Word_(HeadOf(r), Done)
  {
    hide HeadOf, RestOf, OtherPattern, IsKeyword, IsHeaded;
  }

  lemma KeywordHeaded(r: Rule)
    requires IsKeyword(r)
    ensures IsHeaded(r) && r != RXGoogleFlag && r != RSimulcast03 && r != RRtcpFb
  {
  }

  lemma KeywordEarly(r: Rule)
    requires IsKeyword(r)
    ensures Letter(r) == 'a' && Rank(r) < Rank(RXGoogleFlag)
  {
  }

  lemma KeywordReads(r: Rule, v: Json)
    requires IsKeyword(r) && v == Str(HeadOf(r))
    ensures ScalarReadsBack(r, v)
  {
    hide HeadOf, Match, Dispatch, Format, IsKeyword, Pattern, Rank, IsHeaded;
    KeywordFormat(r);
    KeywordPattern(r);
    KeywordHeaded(r);
    KeywordEarly(r);
    KeywordLine(HeadOf(r));
    assert "" + HeadOf(r) == HeadOf(r);
    DispatchHeaded(r, HeadOf(r));
  }

  lemma TokenIsNoKeyword(r: Rule)
    requires IsToken(r)
    ensures !IsKeyword(r)
  {
  }

  lemma TokenReads(r: Rule, v: Json, cls: Class)
    requires IsToken(r) && IsHeaded(r) && r != RSimulcast03 && Rank(r) < Rank(RXGoogleFlag)
    requires RestOf(r) == Cap(cls, 0, Done) && v.Str? && AllIn(v.s, cls)
    ensures ScalarReadsBack(r, v)
  {
    hide HeadOf, RestOf, Match, Dispatch, Rank, IsKeyword, AllIn, StructuredFormat, OtherPattern;
    TokenIsNoKeyword(r);
    ScalarLine(HeadOf(r), cls, v.s);
    DispatchHeaded(r, HeadOf(r) + v.s);
  }

  lemma VersionReads(v: Json)
    requires ScalarOk(RVersion, v)
    ensures ScalarReadsBack(RVersion, v)
  {
    hide Captures;
    var t := Digits(v.n);
    assert ArgText(v) == t && "" + t == t && [t] + [] == [t];
    VersionCaptures(t);
    FirstMatchIs([RVersion], t, 0);
  }

  lemma VersionCaptures(t: string)
    requires AllIn(t, Digit)
    ensures Captures(RVersion, t) == Some([t])
  {
    hide RestOf;
    assert [t] + [] == [t];
    CapLast(Digit, 0, End, t);
  }

  lemma NameCaptures(t: string)
    requires AllIn(t, Any)
    ensures Captures(RName, t) == Some([t])
  {
    hide RestOf;
    assert [t] + [] == [t];
    CapLast(Any, 0, Done, t);
  }

  lemma NameReads(v: Json)
    requires ScalarOk(RName, v)
    ensures ScalarReadsBack(RName, v)
  {
    hide Captures;
    assert "" + v.s == v.s;
    NameCaptures(v.s);
    FirstMatchIs([RName], v.s, 0);
  }

  lemma DirectionReads(v: Json)
    requires ScalarOk(RDirection, v)
    ensures ScalarReadsBack(RDirection, v)
  {
    hide Captures, Dispatch;
    assert "" + v.s == v.s;
    DirectionCaptures(v.s);
    DirectionDispatch(v.s);
  }

  /** Scalars behind a head: their character class. */
  function TokenClass(r: Rule): Class {
    if r == RSetup then Word else NonSpace
  }

  lemma TokenFacts(r: Rule)
    requires r in {RSetup, RMid, RIceUfrag, RIcePwd, RIceOptions}
    ensures IsToken(r) && IsHeaded(r) && r != RSimulcast03 && Rank(r) < Rank(RXGoogleFlag)
    ensures RestOf(r) == Cap(TokenClass(r), 0, Done)
  {
    hide IsToken, IsHeaded, Rank, RestOf;
    TokenRank(r);
    TokenRest(r);
    TokenHeaded(r);
  }

  lemma TokenRank(r: Rule)
    requires r in {RSetup, RMid, RIceUfrag, RIcePwd, RIceOptions}
    ensures Rank(r) < Rank(RXGoogleFlag)
  {
  }

  lemma TokenRest(r: Rule)
    requires r in {RSetup, RMid, RIceUfrag, RIcePwd, RIceOptions}
    ensures RestOf(r) == Cap(TokenClass(r), 0, Done)
  {
    hide RtpRest, RtcpRest, RtcpFbTrrIntRest, RtcpFbRest, ExtRest, CryptoRest, FingerprintRest, CandidatesRest,
      SsrcsRest, MsidSemanticRest, SctpMapRest, RidsRest, SimulcastRest, SourceFilterRest;
    match r {
      case RSetup => case RMid => case RIceUfrag => case RIcePwd => case _ =>
    }
  }

  lemma TokenHeaded(r: Rule)
    requires r in {RSetup, RMid, RIceUfrag, RIcePwd, RIceOptions}
    ensures IsToken(r) && IsHeaded(r)
  {
  }

  lemma TokenScalarReads(r: Rule, v: Json)
    requires r in {RSetup, RMid, RIceUfrag, RIcePwd, RIceOptions} && ScalarOk(r, v)
    ensures ScalarReadsBack(r, v)
  {
    hide ScalarReadsBack, IsToken, IsHeaded, RestOf, Rank, HeadOf;
    TokenFacts(r);
    TokenReads(r, v, TokenClass(r));
  }

  /** First-match dispatch and capture of every scalar line. */
  lemma ScalarReads(r: Rule, v: Json)
    requires ScalarOk(r, v)
    ensures ScalarReadsBack(r, v)
  {
    hide ScalarReadsBack, HeadOf, IsKeyword;
    match r {
      case RVersion => VersionReads(v);
      case RName => NameReads(v);
      case RDirection => DirectionReads(v);
      case RSetup => TokenScalarReads(r, v);
      case RMid => TokenScalarReads(r, v);
      case RIceUfrag => TokenScalarReads(r, v);
      case RIcePwd => TokenScalarReads(r, v);
      case RIceOptions => TokenScalarReads(r, v);
      case _ => KeywordReads(r, v);
    }
  }
}
