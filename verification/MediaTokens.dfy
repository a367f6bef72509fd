/** Sections built from well-formed tokens are printed and read back unharmed: they meet the
    condition of the stability theorem, and so do the changes RemoteSdp makes to them. */
module MediaTokens {
  import opened Text
  import opened Json
  import opened Regex
  import opened Patterns
  import opened Grammar
  import opened SdpText
  import opened SdpTokens
  import opened SdpRoundTrip
  import opened SdpStability
  import opened RtpTypes
  import opened FmtpConfig
  import opened SsrcUtils
  import opened MediaObjects
  import opened MediaSections

  // ----- members -----

  /** A value the rule prints and reads back. */
  predicate ValueOk(r: Rule, v: Json) {
    if !IsElementRule(r) then ScalarOk(r, v)
    else if IsPush(r) then v.Arr? && forall i :: 0 <= i < |v.items| ==> ElementOk(r, v.items[i])
    else v.Obj? && ElementOk(r, v.fields)
  }

  /** Members of the m-line and members no rule prints are free. */
  predicate MemberOk(k: Key, v: Json) {
    && k !in {Ttl, Dir2, List2, NumPorts}
    && (RuleFor(k) == RMedia || ValueOk(RuleFor(k), v))
  }

  predicate MembersOk(o: Object) {
    forall k :: k in o ==> MemberOk(k, o[k])
  }

  /** A section of well-formed members. */
  predicate WellFormed(m: Object) {
    MembersOk(m) && MediaOk(m)
  }

  lemma MembersAreRules(o: Object, r: Rule)
    requires MembersOk(o) && r != RMedia
    ensures RuleOk(r, o)
  {
    hide ScalarOk, ElementOk, RuleFor, Member, IsPush, IsElementRule;
    MemberIsOwned(r);
    if Member(r) in o {
      assert MemberOk(Member(r), o[Member(r)]);
    }
  }

  /** The hypothesis of the stability theorem. */
  lemma WellFormedSection(m: Object)
    requires WellFormed(m)
    ensures SectionOk(m)
  {
    hide MemberOk, RuleOk, MediaOk;
    forall k | k in {Ttl, Dir2, List2}
      ensures k !in m
    {
      if k in m {
        StrayIsNotOk(k, m[k]);
      }
    }
    forall r | r in InnerRules()
      ensures RuleOk(r, m)
    {
      OrdersArePrintable();
      var i :| 0 <= i < |InnerRules()| && InnerRules()[i] == r;
      MembersAreRules(m, r);
    }
  }

  lemma StrayIsNotOk(k: Key, v: Json)
    requires k in {Ttl, Dir2, List2, NumPorts}
    ensures !MemberOk(k, v)
  {
  }

  lemma Update(o: Object, k: Key, v: Json)
    requires MembersOk(o) && MemberOk(k, v)
    ensures MembersOk(o[k := v])
  {
    hide MemberOk;
  }

  lemma Removal(o: Object, ks: set<Key>)
    requires MembersOk(o)
    ensures MembersOk(o - ks)
  {
    hide MemberOk;
  }

  // ----- well-formed inputs -----

  predicate IceClean(ice: IceParameters) {
    AllIn(ice.usernameFragment, NonSpace) && AllIn(ice.password, NonSpace)
  }

  predicate TokenOf(s: string, cls: Class) {
    s != "" && AllIn(s, cls)
  }

  predicate CandidateClean(c: IceCandidate) {
    && TokenOf(c.foundation, NonSpace) && TokenOf(c.ip, NonSpace) && TokenOf(c.protocol, NonSpace)
    && TokenOf(c.kind, NonSpace)
    && 0 <= c.port < TWO_63 && 0 <= c.priority < TWO_63
    && (c.tcpType.Some? ==> AllIn(c.tcpType.value, NonSpace))
  }

  predicate CandidatesClean(candidates: seq<IceCandidate>) {
    forall i :: 0 <= i < |candidates| ==> CandidateClean(candidates[i])
  }

  predicate ParamClean(p: Param) {
    AllIn(p.key, Any) && (p.value.PStr? ==> AllIn(p.value.s, Any)) && (p.value.PFloat? ==> AllIn(p.value.d.text, Any))
  }

  predicate ParamsClean(p: Params) {
    forall i :: 0 <= i < |p| ==> ParamClean(p[i])
  }

  predicate FeedbackClean(fb: Feedback) {
    AllIn(fb.kind, WordOr("-")) && fb.kind != "trr-int" && AllIn(fb.parameter, WordOr("-"))
  }

  predicate CodecClean(codec: CodecParameters) {
    && 0 <= codec.payloadType < TWO_63 && 0 <= codec.clockRate < TWO_63
    && TokenOf(CodecName(codec.mimeType), WordOr("-."))
    && ParamsClean(codec.parameters)
    && forall i :: 0 <= i < |codec.rtcpFeedback| ==> FeedbackClean(codec.rtcpFeedback[i])
  }

  predicate CodecsClean(codecs: seq<CodecParameters>) {
    forall i :: 0 <= i < |codecs| ==> CodecClean(codecs[i])
  }

  predicate ExtClean(ext: HeaderExtension) {
    TokenOf(ext.uri, NonSpace) && 0 <= ext.id < TWO_63
  }

  predicate RtpClean(rtp: RtpParameters) {
    && CodecsClean(rtp.codecs)
    && (forall i :: 0 <= i < |rtp.headerExtensions| ==> ExtClean(rtp.headerExtensions[i]))
    && (rtp.cname.Some? ==> AllIn(rtp.cname.value, Any))
  }

  predicate KindOk(kind: string) {
    IsAv(kind) || kind == "application"
  }

  predicate OfferClean(offer: Object) {
    && HasStr(offer, Mid) && AllIn(offer[Mid].s, NonSpace)
    && HasStr(offer, Type) && KindOk(offer[Type].s)
    && HasStr(offer, Protocol) && TokenOf(offer[Protocol].s, WordOr("/"))
    && (HasSimulcast(offer) ==>
         && Token1(offer[Simulcast].fields, List1, WordOr(STREAM_CHARS))
         && forall i :: 0 <= i < |offer[Rids].items| ==> Token1(offer[Rids].items[i], Id, Word))
  }

  // ----- the stages of a section -----

  lemma TransportRules()
    ensures RuleFor(IceUfrag) == RIceUfrag && RuleFor(IcePwd) == RIcePwd && RuleFor(IceOptions) == RIceOptions
  {
  }

  lemma CandidateRules()
    ensures RuleFor(Candidates) == RCandidates && RuleFor(EndOfCandidates) == REndOfCandidates
  {
  }

  lemma HeadRules()
    ensures RuleFor(Mid) == RMid && RuleFor(Connection) == RConnection
  {
  }

  lemma RoleRules()
    ensures RuleFor(Setup) == RSetup && RuleFor(Direction) == RDirection
  {
  }

  lemma CodecRules()
    ensures RuleFor(Rtp) == RRtp && RuleFor(Fmtp) == RFmtp && RuleFor(RtcpFb) == RRtcpFb
  {
  }

  lemma ExtRule()
    ensures RuleFor(Ext) == RExt
  {
  }

  lemma LineRules()
    ensures RuleFor(Type) == RuleFor(Protocol) == RuleFor(Port) == RuleFor(Payloads) == RMedia
    ensures RuleFor(SctpPort) == RuleFor(MaxMessageSize) == RMedia
  {
  }

  lemma FlagRules()
    ensures RuleFor(ExtmapAllowMixed) == RExtmapAllowMixed && RuleFor(RtcpMux) == RRtcpMux
      && RuleFor(RtcpRsize) == RRtcpRsize
  {
  }

  lemma SimulcastRules()
    ensures RuleFor(Simulcast) == RSimulcast && RuleFor(Rids) == RRids
  {
  }

  lemma SsrcRules()
    ensures RuleFor(Ssrcs) == RSsrcs && RuleFor(SsrcGroups) == RSsrcGroups
  {
  }

  lemma Scalar(k: Key, v: Json)
    requires k !in {Ttl, Dir2, List2, NumPorts} && !IsElementRule(RuleFor(k)) && ScalarOk(RuleFor(k), v)
    ensures MemberOk(k, v)
  {
  }

  lemma Items(k: Key, items: seq<Object>)
    requires k !in {Ttl, Dir2, List2, NumPorts} && IsElementRule(RuleFor(k)) && IsPush(RuleFor(k))
    requires forall i :: 0 <= i < |items| ==> ElementOk(RuleFor(k), items[i])
    ensures MemberOk(k, Arr(items))
  {
    hide ElementOk, RuleFor;
  }

  lemma Fields(k: Key, fields: Object)
    requires k !in {Ttl, Dir2, List2, NumPorts} && IsElementRule(RuleFor(k)) && !IsPush(RuleFor(k))
      && ElementOk(RuleFor(k), fields)
    ensures MemberOk(k, Obj(fields))
  {
    hide ElementOk, RuleFor;
  }

  lemma IceValues(usernameFragment: string, password: string)
    requires AllIn(usernameFragment, NonSpace) && AllIn(password, NonSpace)
    ensures MemberOk(IceUfrag, Str(usernameFragment)) && MemberOk(IcePwd, Str(password))
  {
    hide RuleFor, MemberOk, AllIn;
    TransportRules();
    Scalar(IceUfrag, Str(usernameFragment));
    Scalar(IcePwd, Str(password));
  }

  lemma EndHead()
    ensures HeadOf(REndOfCandidates) == "end-of-candidates"
  {
  }

  /** The scalars behind the candidates. */
  lemma TransportValues()
    ensures MemberOk(EndOfCandidates, Str("end-of-candidates")) && MemberOk(IceOptions, Str("renomination"))
  {
    hide RuleFor, MemberOk, HeadOf;
    TransportRules();
    CandidateRules();
    EndHead();
    Scalar(EndOfCandidates, Str("end-of-candidates"));
    Scalar(IceOptions, Str("renomination"));
  }

  lemma IceMembers(o: Object, ice: IceParameters)
    requires MembersOk(o) && IceClean(ice)
    ensures MembersOk(WithIce(o, ice))
  {
    hide MemberOk, MembersOk, AllIn;
    IceValues(ice.usernameFragment, ice.password);
    Update(o, IceUfrag, Str(ice.usernameFragment));
    Update(o[IceUfrag := Str(ice.usernameFragment)], IcePwd, Str(ice.password));
  }

  lemma CandidateElement(c: IceCandidate)
    requires CandidateClean(c)
    ensures ElementOk(RCandidates, CandidateObject(c))
  {
    hide AllIn;
    if c.tcpType.None? {
      EmptyClean(NonSpace);
    }
  }

  lemma TransportMembers(ice: IceParameters, candidates: seq<IceCandidate>)
    requires IceClean(ice) && CandidatesClean(candidates)
    ensures MembersOk(TransportObject(ice, candidates))
  {
    hide MembersOk, MemberOk, WithIce, CandidateObjects, CandidatesClean, IceClean;
    NoMembers();
    IceMembers(map[], ice);
    CandidateItems(candidates);
    TransportValues();
    var o1 := WithIce(map[], ice);
    var o2 := o1[Candidates := Arr(CandidateObjects(candidates))];
    Update(o1, Candidates, Arr(CandidateObjects(candidates)));
    Update(o2, EndOfCandidates, Str("end-of-candidates"));
    Update(o2[EndOfCandidates := Str("end-of-candidates")], IceOptions, Str("renomination"));
  }

  lemma CandidateItems(candidates: seq<IceCandidate>)
    requires CandidatesClean(candidates)
    ensures MemberOk(Candidates, Arr(CandidateObjects(candidates)))
  {
    hide RuleFor, MemberOk, CandidateObject, ElementOk, CandidateClean;
    CandidateRules();
    forall i | 0 <= i < |candidates|
      ensures ElementOk(RCandidates, CandidateObjects(candidates)[i])
    {
      CandidateElement(candidates[i]);
    }
    Items(Candidates, CandidateObjects(candidates));
  }

  lemma NoMembers()
    ensures MembersOk(map[])
  {
  }

  lemma Free(k: Key, v: Json)
    requires k in {Type, Protocol, Port, Payloads, SctpPort, MaxMessageSize}
    ensures MemberOk(k, v)
  {
    hide RuleFor, ValueOk;
    LineRules();
  }

  lemma HeadValues(mid: string)
    requires AllIn(mid, NonSpace)
    ensures MemberOk(Mid, Str(mid)) && MemberOk(Connection, Obj(map[Ip := Str("127.0.0.1"), Version := Num(4)]))
  {
    hide RuleFor, MemberOk;
    HeadRules();
    Scalar(Mid, Str(mid));
    Fields(Connection, map[Ip := Str("127.0.0.1"), Version := Num(4)]);
  }

  lemma HeadMembers(o: Object, mid: string, kind: string, protocol: string)
    requires MembersOk(o) && AllIn(mid, NonSpace)
    ensures MembersOk(SectionHead(o, Str(mid), kind, Str(protocol)))
  {
    hide MembersOk, MemberOk, AllIn;
    var connection: Object := map[Ip := Str("127.0.0.1"), Version := Num(4)];
    HeadValues(mid);
    Free(Type, Str(kind));
    Free(Protocol, Str(protocol));
    Free(Port, Num(7));
    var o1 := o[Mid := Str(mid)];
    var o2 := o1[Type := Str(kind)];
    var o3 := o2[Protocol := Str(protocol)];
    var o4 := o3[Connection := Obj(connection)];
    Update(o, Mid, Str(mid));
    Update(o1, Type, Str(kind));
    Update(o2, Protocol, Str(protocol));
    Update(o3, Connection, Obj(connection));
    Update(o4, Port, Num(7));
  }

  lemma SetupValue(setup: string)
    requires setup in {"active", "passive", "actpass"}
    ensures MemberOk(Setup, Str(setup))
  {
    hide RuleFor, MemberOk;
    RoleRules();
    Scalar(Setup, Str(setup));
  }

  lemma DirectionValue(direction: string)
    requires IsDirection(direction)
    ensures MemberOk(Direction, Str(direction))
  {
    hide RuleFor, MemberOk;
    RoleRules();
    Scalar(Direction, Str(direction));
  }

  lemma RoleMembers(o: Object, isOffer: bool, role: string)
    requires MembersOk(o)
    ensures MembersOk(RoleSet(isOffer, o, role))
  {
    hide MemberOk, MembersOk;
    var setup := if isOffer then "actpass" else if SetupOf(role).Some? then SetupOf(role).value else "actpass";
    SetupValue(setup);
    Update(o, Setup, Str(setup));
  }

  // ----- codecs -----

  lemma RtpElement(codec: CodecParameters)
    requires CodecClean(codec)
    ensures ElementOk(RRtp, RtpEntry(codec))
  {
    hide CodecName, ParamClean;
  }

  lemma FeedbackElement(payloadType: int, fb: Feedback)
    requires 0 <= payloadType < TWO_63 && FeedbackClean(fb)
    ensures ElementOk(RRtcpFb, FeedbackEntry(payloadType, fb))
  {
  }

  lemma {:induction false} FeedbackElements(codecs: seq<CodecParameters>)
    requires CodecsClean(codecs)
    ensures forall i :: 0 <= i < |FeedbackEntries(codecs)| ==> ElementOk(RRtcpFb, FeedbackEntries(codecs)[i])
  {
    hide ElementOk, FeedbackEntry, FeedbackClean;
    if codecs != [] {
      var n := |codecs| - 1;
      FeedbackElements(codecs[..n]);
      assert CodecClean(codecs[n]);
      var fbs := codecs[n].rtcpFeedback;
      forall i | 0 <= i < |fbs|
        ensures ElementOk(RRtcpFb, CodecFeedback(codecs[n].payloadType, fbs)[i])
      {
        FeedbackElement(codecs[n].payloadType, fbs[i]);
      }
    }
  }

  lemma DigitsClean(n: nat)
    ensures AllIn(Digits(n), Any)
  {
    assert AllDigits(Digits(n));
  }

  lemma ItemClean(p: Param)
    requires ParamClean(p)
    ensures AllIn(ItemText(p), Any)
  {
    if p.value.PInt? {
      var n := AsInt64(p.value.n);
      DigitsClean(if n < 0 then -n else n);
    }
  }

  lemma {:induction false} JoinClean(v: seq<string>, d: char)
    requires In(d, Any) && forall i :: 0 <= i < |v| ==> AllIn(v[i], Any)
    ensures AllIn(Join(v, d), Any)
  {
    if |v| > 1 {
      JoinClean(v[1..], d);
    }
  }

  lemma ConfigClean(p: Params)
    requires ParamsClean(p)
    ensures AllIn(ConfigText(p), Any)
  {
    hide ItemText, ParamClean;
    forall i | 0 <= i < |p|
      ensures AllIn(ItemTexts(p)[i], Any)
    {
      ItemClean(p[i]);
    }
    JoinClean(ItemTexts(p), ';');
  }

  lemma {:induction false} FmtpElements(codecs: seq<CodecParameters>)
    requires CodecsClean(codecs)
    ensures forall i :: 0 <= i < |FmtpEntries(codecs)| ==> ElementOk(RFmtp, FmtpEntries(codecs)[i])
  {
    hide ParamsClean, ConfigText;
    if codecs != [] {
      var n := |codecs| - 1;
      FmtpElements(codecs[..n]);
      assert CodecClean(codecs[n]);
      ConfigClean(codecs[n].parameters);
    }
  }

  lemma PayloadsClean(codecs: seq<CodecParameters>)
    ensures AllIn(PayloadsText(codecs), Any)
  {
    hide Digits;
    forall i | 0 <= i < |codecs|
      ensures AllIn(PayloadTexts(codecs)[i], Any)
    {
      DigitsClean(U8(codecs[i].payloadType));
    }
    JoinClean(PayloadTexts(codecs), ' ');
  }

  lemma CodecValues(codecs: seq<CodecParameters>)
    requires CodecsClean(codecs)
    ensures MemberOk(Rtp, Arr(RtpEntries(codecs))) && MemberOk(RtcpFb, Arr(FeedbackEntries(codecs)))
    ensures MemberOk(Fmtp, Arr(FmtpEntries(codecs)))
  {
    hide RuleFor, MemberOk, ElementOk, CodecClean, RtpEntry, FmtpEntries, FeedbackEntries;
    CodecRules();
    forall i | 0 <= i < |codecs|
      ensures ElementOk(RRtp, RtpEntries(codecs)[i])
    {
      RtpElement(codecs[i]);
    }
    FeedbackElements(codecs);
    FmtpElements(codecs);
    Items(Rtp, RtpEntries(codecs));
    Items(RtcpFb, FeedbackEntries(codecs));
    Items(Fmtp, FmtpEntries(codecs));
  }

  lemma CodecMembers(o: Object, direction: string, codecs: seq<CodecParameters>)
    requires MembersOk(o) && IsDirection(direction) && CodecsClean(codecs)
    ensures MembersOk(WithCodecs(o, direction, codecs))
  {
    hide MembersOk, MemberOk, CodecsClean, RtpEntries, FmtpEntries, FeedbackEntries, PayloadsText;
    CodecValues(codecs);
    DirectionValue(direction);
    Free(Payloads, Str(PayloadsText(codecs)));
    var o1 := o[Direction := Str(direction)];
    var o2 := o1[Rtp := Arr(RtpEntries(codecs))];
    var o3 := o2[RtcpFb := Arr(FeedbackEntries(codecs))];
    var o4 := o3[Fmtp := Arr(FmtpEntries(codecs))];
    Update(o, Direction, Str(direction));
    Update(o1, Rtp, Arr(RtpEntries(codecs)));
    Update(o2, RtcpFb, Arr(FeedbackEntries(codecs)));
    Update(o3, Fmtp, Arr(FmtpEntries(codecs)));
    Update(o4, Payloads, Str(PayloadsText(codecs)));
  }

  lemma {:induction false} SetClean(p: Params, key: string, v: ParamValue)
    requires ParamsClean(p) && ParamClean(Param(key, v))
    ensures ParamsClean(Set(p, key, v))
  {
    hide Less;
    if p != [] {
      SetClean(p[1..], key, v);
    }
  }

  lemma FlagClean(p: Params, key: string, flag: Option<bool>)
    requires ParamsClean(p) && AllIn(key, Any)
    ensures ParamsClean(SetFlag(p, key, flag))
  {
    if flag.Some? {
      SetClean(p, key, BoolParam(flag.value));
    }
  }

  lemma NumberClean(p: Params, key: string, n: Option<int>)
    requires ParamsClean(p) && AllIn(key, Any)
    ensures ParamsClean(SetNumber(p, key, n))
  {
    if n.Some? {
      SetClean(p, key, PInt(U32(n.value)));
    }
  }

  lemma OpusClean(p: Params, o: CodecOptions)
    requires ParamsClean(p)
    ensures ParamsClean(OpusAnswer(p, o))
  {
    hide ParamsClean, SetFlag, SetNumber;
    var p1 := SetFlag(p, "stereo", o.opusStereo);
    var p2 := SetFlag(p1, "useinbandfec", o.opusFec);
    var p3 := SetFlag(p2, "usedtx", o.opusDtx);
    var p4 := SetFlag(p3, "cbr", o.opusCbr);
    var p5 := SetNumber(p4, "maxplaybackrate", o.opusMaxPlaybackRate);
    var p6 := SetNumber(p5, "maxaveragebitrate", o.opusMaxAverageBitrate);
    FlagClean(p, "stereo", o.opusStereo);
    FlagClean(p1, "useinbandfec", o.opusFec);
    FlagClean(p2, "usedtx", o.opusDtx);
    FlagClean(p3, "cbr", o.opusCbr);
    NumberClean(p4, "maxplaybackrate", o.opusMaxPlaybackRate);
    NumberClean(p5, "maxaveragebitrate", o.opusMaxAverageBitrate);
    NumberClean(p6, "ptime", o.opusPtime);
  }

  lemma VideoClean(p: Params, o: CodecOptions)
    requires ParamsClean(p)
    ensures ParamsClean(VideoAnswer(p, o))
  {
    hide ParamsClean, SetNumber;
    var p1 := SetNumber(p, "x-google-start-bitrate", o.videoGoogleStartBitrate);
    var p2 := SetNumber(p1, "x-google-max-bitrate", o.videoGoogleMaxBitrate);
    NumberClean(p, "x-google-start-bitrate", o.videoGoogleStartBitrate);
    NumberClean(p1, "x-google-max-bitrate", o.videoGoogleMaxBitrate);
    NumberClean(p2, "x-google-min-bitrate", o.videoGoogleMinBitrate);
  }

  lemma ConfiguredClean(codecs: seq<CodecParameters>, options: CodecOptions)
    requires CodecsClean(codecs)
    ensures CodecsClean(ConfiguredAll(codecs, options))
  {
    hide OpusAnswer, VideoAnswer, Lower, ParamsClean, CodecName;
    forall i | 0 <= i < |codecs|
      ensures CodecClean(ConfiguredAll(codecs, options)[i])
    {
      assert CodecClean(codecs[i]);
      OpusClean(codecs[i].parameters, options);
      VideoClean(codecs[i].parameters, options);
    }
  }

  // ----- the other members of media sections -----

  lemma ExtElement(ext: HeaderExtension)
    requires ExtClean(ext)
    ensures ElementOk(RExt, ExtEntry(ext))
  {
  }

  predicate ExtsClean(exts: seq<HeaderExtension>) {
    forall i :: 0 <= i < |exts| ==> ExtClean(exts[i])
  }

  lemma {:induction false} CommonElements(exts: seq<HeaderExtension>, locals: seq<Object>)
    requires (exts != [] ==> Uris(locals)) && ExtsClean(exts)
    ensures forall i :: 0 <= i < |CommonExts(exts, locals)| ==> ElementOk(RExt, CommonExts(exts, locals)[i])
  {
    hide ElementOk, ExtEntry, ExtClean, Supports;
    if exts != [] {
      var n := |exts| - 1;
      CommonElements(exts[..n], locals);
      ExtElement(exts[n]);
    }
  }

  lemma ExtMembers(o: Object, items: seq<Object>)
    requires MembersOk(o) && forall i :: 0 <= i < |items| ==> ElementOk(RExt, items[i])
    ensures MembersOk(o[Ext := Arr(items)])
  {
    hide RuleFor, MembersOk, MemberOk, ElementOk;
    ExtRule();
    Items(Ext, items);
    Update(o, Ext, Arr(items));
  }

  lemma FlagHeads()
    ensures HeadOf(RRtcpMux) == "rtcp-mux" && HeadOf(RRtcpRsize) == "rtcp-rsize"
      && HeadOf(RExtmapAllowMixed) == "extmap-allow-mixed"
  {
  }

  lemma FlagsOk()
    ensures MemberOk(RtcpMux, Str("rtcp-mux")) && MemberOk(RtcpRsize, Str("rtcp-rsize"))
    ensures MemberOk(ExtmapAllowMixed, Str("extmap-allow-mixed"))
  {
    hide RuleFor, MemberOk, HeadOf;
    FlagRules();
    FlagHeads();
    Scalar(RtcpMux, Str("rtcp-mux"));
    Scalar(RtcpRsize, Str("rtcp-rsize"));
    Scalar(ExtmapAllowMixed, Str("extmap-allow-mixed"));
  }

  lemma MuxMembers(o: Object)
    requires MembersOk(o)
    ensures MembersOk(WithMux(o)) && MembersOk(o[ExtmapAllowMixed := Str("extmap-allow-mixed")])
  {
    hide RuleFor, MembersOk, MemberOk;
    FlagsOk();
    Update(o, RtcpMux, Str("rtcp-mux"));
    Update(o[RtcpMux := Str("rtcp-mux")], RtcpRsize, Str("rtcp-rsize"));
    Update(o, ExtmapAllowMixed, Str("extmap-allow-mixed"));
  }

  lemma {:induction false} RidElements(rids: seq<Object>)
    requires RidLines(rids) && forall i :: 0 <= i < |rids| ==> Token1(rids[i], Id, Word)
    ensures forall i :: 0 <= i < |RecvRids(rids)| ==> ElementOk(RRids, RecvRids(rids)[i])
  {
    if rids != [] {
      var n := |rids| - 1;
      RidElements(rids[..n]);
      assert Token1(rids[n], Id, Word);
    }
  }

  lemma SimulcastValues(list: Json, rids: seq<Object>)
    requires list.Str? && TokenOf(list.s, WordOr(STREAM_CHARS)) && forall i ::
      0 <= i < |rids| ==> ElementOk(RRids, rids[i])
    ensures MemberOk(Simulcast, Obj(map[Dir1 := Str("recv"), List1 := list])) && MemberOk(Rids, Arr(rids))
  {
    hide RuleFor, MemberOk, AllIn;
    SimulcastRules();
    Fields(Simulcast, map[Dir1 := Str("recv"), List1 := list]);
    Items(Rids, rids);
  }

  lemma SimulcastMembersOk(o: Object, offer: Object)
    requires MembersOk(o) && OfferClean(offer)
    requires HasSimulcast(offer) ==> RidLines(offer[Rids].items) && List1 in offer[Simulcast].fields
    ensures MembersOk(WithSimulcast(o, offer))
  {
    hide MembersOk, MemberOk, RecvRids, AllIn, RidLines;
    if HasSimulcast(offer) {
      RidElements(offer[Rids].items);
      var fields: Object := map[Dir1 := Str("recv"), List1 := offer[Simulcast].fields[List1]];
      SimulcastValues(offer[Simulcast].fields[List1], RecvRids(offer[Rids].items));
      Update(o, Simulcast, Obj(fields));
      Update(o[Simulcast := Obj(fields)], Rids, Arr(RecvRids(offer[Rids].items)));
    }
  }

  lemma SsrcElements(ssrc: nat, rtx: nat, cname: string, msid: string)
    requires ssrc < TWO_32 && rtx < TWO_32 && AllIn(cname, Any) && AllIn(msid, Any)
    ensures forall i ::
      0 <= i < |OfferSsrcs(ssrc, rtx, cname, msid)| ==> ElementOk(RSsrcs, OfferSsrcs(ssrc, rtx, cname, msid)[i])
    ensures forall i :: 0 <= i < |OfferGroups(ssrc, rtx)| ==> ElementOk(RSsrcGroups, OfferGroups(ssrc, rtx)[i])
  {
    hide AllIn;
    SsrcElement(ssrc, "cname", cname);
    SsrcElement(ssrc, "msid", msid);
    SsrcElement(rtx, "cname", cname);
    SsrcElement(rtx, "msid", msid);
    FidElement(ssrc, rtx);
  }

  lemma SsrcElement(ssrc: nat, attribute: string, value: string)
    requires ssrc < TWO_32 && attribute in {"cname", "msid"} && AllIn(value, Any)
    ensures ElementOk(RSsrcs, SsrcLine(ssrc, attribute, value))
  {
  }

  lemma FidElement(ssrc: nat, rtx: nat)
    ensures ElementOk(RSsrcGroups, GroupOf("FID", FidText(ssrc, rtx)))
  {
    hide Digits;
    DigitsClean(ssrc);
    DigitsClean(rtx);
  }

  lemma SsrcMembers(o: Object, encoding: EncodingParameters, cname: Option<string>, msid: string)
    requires MembersOk(o) && encoding.ssrc.Some? && (cname.Some? ==> AllIn(cname.value, Any) && AllIn(msid, Any))
    ensures MembersOk(WithSsrcs(o, encoding, cname, msid))
  {
    hide RuleFor, MembersOk, MemberOk, OfferSsrcs, OfferGroups, AllIn, ElementOk;
    SsrcRules();
    var ssrc, rtx := U32(encoding.ssrc.value), RtxOf(encoding);
    var ssrcs, groups: seq<Object> := [], [];
    if cname.Some? {
      SsrcElements(ssrc, rtx, cname.value, msid);
      ssrcs, groups := OfferSsrcs(ssrc, rtx, cname.value, msid), OfferGroups(ssrc, rtx);
    }
    Items(Ssrcs, ssrcs);
    Items(SsrcGroups, groups);
    Update(o, Ssrcs, Arr(ssrcs));
    Update(o[Ssrcs := Arr(ssrcs)], SsrcGroups, Arr(groups));
  }

  lemma SctpMembers(o: Object, sctp: SctpParameters)
    requires MembersOk(o)
    ensures MembersOk(WithSctp(o, sctp))
  {
    hide MembersOk, MemberOk;
    Free(Payloads, Str("webrtc-datachannel"));
    Free(SctpPort, Num(sctp.port));
    Free(MaxMessageSize, Num(sctp.maxMessageSize));
    var o1 := o[Payloads := Str("webrtc-datachannel")];
    Update(o, Payloads, Str("webrtc-datachannel"));
    Update(o1, SctpPort, Num(sctp.port));
    Update(o1[SctpPort := Num(sctp.port)], MaxMessageSize, Num(sctp.maxMessageSize));
  }

  // ----- whole sections -----

  predicate OfferInputsOk(ice: IceParameters, candidates: seq<IceCandidate>, mid: string, kind: string,
      rtp: RtpParameters, msid: string) {
    && IceClean(ice) && CandidatesClean(candidates) && AllIn(mid, NonSpace) && KindOk(kind)
    && (IsAv(kind) ==> RtpClean(rtp) && AllIn(msid, Any))
  }

  predicate AnswerInputsOk(ice: IceParameters, candidates: seq<IceCandidate>, offer: Object, answer: RtpParameters) {
    IceClean(ice) && CandidatesClean(candidates) && OfferClean(offer) && RtpClean(answer)
  }

  lemma OfferWellFormed(ice: IceParameters, candidates: seq<IceCandidate>, sctp: Option<SctpParameters>,
      mid: string, kind: string, rtp: RtpParameters, msid: string)
    requires IsAv(kind) ==> RtpOfferOk(rtp)
    requires kind == "application" ==> sctp.Some?
    requires OfferInputsOk(ice, candidates, mid, kind, rtp, msid)
    ensures WellFormed(OfferObject(ice, candidates, sctp, mid, kind, rtp, msid))
  {
    OfferMembers(ice, candidates, sctp, mid, kind, rtp, msid);
    OfferMediaLine(ice, candidates, sctp, mid, kind, rtp, msid);
  }

  lemma OfferMembers(ice: IceParameters, candidates: seq<IceCandidate>, sctp: Option<SctpParameters>,
      mid: string, kind: string, rtp: RtpParameters, msid: string)
    requires IsAv(kind) ==> RtpOfferOk(rtp)
    requires kind == "application" ==> sctp.Some?
    requires OfferInputsOk(ice, candidates, mid, kind, rtp, msid)
    ensures MembersOk(OfferObject(ice, candidates, sctp, mid, kind, rtp, msid))
  {
    hide MembersOk, TransportObject, SectionHead, WithCodecs, WithMux, WithSsrcs, WithSctp, AllExts, IceClean,
      CandidatesClean, AllIn, CodecsClean, ExtClean;
    TransportMembers(ice, candidates);
    var t := TransportObject(ice, candidates);
    HeadMembers(t, mid, kind, OfferProtocol(sctp));
    var h := SectionHead(t, Str(mid), kind, Str(OfferProtocol(sctp)));
    RoleMembers(h, true, "");
    var o := h[Setup := Str("actpass")];
    if IsAv(kind) {
      CodecMembers(o, "sendonly", rtp.codecs);
      AllExtElements(rtp.headerExtensions);
      ExtMembers(WithCodecs(o, "sendonly", rtp.codecs), AllExts(rtp.headerExtensions));
      var e := WithCodecs(o, "sendonly", rtp.codecs)[Ext := Arr(AllExts(rtp.headerExtensions))];
      MuxMembers(e);
      SsrcMembers(WithMux(e), rtp.encodings[0], rtp.cname, msid);
    } else {
      SctpMembers(o, sctp.value);
    }
  }

  lemma AllExtElements(exts: seq<HeaderExtension>)
    requires ExtsClean(exts)
    ensures forall i :: 0 <= i < |AllExts(exts)| ==> ElementOk(RExt, AllExts(exts)[i])
  {
    hide ElementOk, ExtEntry, ExtClean;
    forall i | 0 <= i < |exts|
      ensures ElementOk(RExt, AllExts(exts)[i])
    {
      ExtElement(exts[i]);
    }
  }

  /** The members of the m-line. */
  predicate MediaLineIs(o: Object, kind: string, protocol: string, payloads: string) {
    && Type in o && o[Type] == Str(kind) && Port in o && o[Port] == Num(7) && NumPorts !in o
    && Protocol in o && o[Protocol] == Str(protocol) && Payloads in o && o[Payloads] == Str(payloads)
  }

  lemma MediaLineOk(o: Object, kind: string, protocol: string, payloads: string)
    requires MediaLineIs(o, kind, protocol, payloads)
    requires KindOk(kind) && TokenOf(protocol, WordOr("/")) && AllIn(payloads, Any)
    ensures MediaOk(o)
  {
  }

  lemma OfferMediaLine(ice: IceParameters, candidates: seq<IceCandidate>, sctp: Option<SctpParameters>,
      mid: string, kind: string, rtp: RtpParameters, msid: string)
    requires IsAv(kind) ==> RtpOfferOk(rtp)
    requires kind == "application" ==> sctp.Some?
    requires KindOk(kind)
    ensures MediaOk(OfferObject(ice, candidates, sctp, mid, kind, rtp, msid))
  {
    hide OfferMedia, PayloadsText, CandidateObjects, MediaOk, AllIn, TokenOf, OfferProtocol, RtpOfferOk;
    var o := OfferObject(ice, candidates, sctp, mid, kind, rtp, msid);
    var h := SectionHead(TransportObject(ice, candidates), Str(mid), kind,
      Str(OfferProtocol(sctp)))[Setup := Str("actpass")];
    OfferTexts(sctp, rtp.codecs);
    if IsAv(kind) {
      OfferKeepsLine(h, rtp, msid);
      MediaLineOk(o, kind, OfferProtocol(sctp), PayloadsText(rtp.codecs));
    } else {
      MediaLineOk(o, kind, OfferProtocol(sctp), "webrtc-datachannel");
    }
  }

  lemma OfferKeepsLine(o: Object, rtp: RtpParameters, msid: string)
    requires RtpOfferOk(rtp)
    ensures var m := OfferMedia(o, rtp, msid);
      && (forall k :: k in {Type, Port, NumPorts, Protocol} ==> (k in m <==> k in o) && Look(m, k) == Look(o, k))
      && Payloads in m && m[Payloads] == Str(PayloadsText(rtp.codecs))
  {
    hide RtpEntries, FeedbackEntries, FmtpEntries, PayloadsText, AllExts, OfferSsrcs, OfferGroups;
  }

  lemma OfferTexts(sctp: Option<SctpParameters>, codecs: seq<CodecParameters>)
    ensures TokenOf(OfferProtocol(sctp), WordOr("/")) && AllIn(PayloadsText(codecs), Any)
      && AllIn("webrtc-datachannel", Any)
  {
    hide PayloadsText, AllIn;
    PayloadsClean(codecs);
    OfferProtocolClean(sctp);
    DataPayloadClean();
  }

  lemma OfferProtocolClean(sctp: Option<SctpParameters>)
    ensures TokenOf(OfferProtocol(sctp), WordOr("/"))
  {
  }

  lemma DataPayloadClean()
    ensures AllIn("webrtc-datachannel", Any)
  {
  }

  lemma AnswerWellFormed(ice: IceParameters, candidates: seq<IceCandidate>, role: string, sctp: Option<SctpParameters>,
      offer: Object, answer: RtpParameters, options: CodecOptions)
    requires OfferOk(offer, answer)
    requires offer[Type].s == "application" ==> sctp.Some?
    requires AnswerInputsOk(ice, candidates, offer, answer)
    ensures WellFormed(AnswerObject(ice, candidates, role, sctp, offer, answer, options))
  {
    AnswerMembers(ice, candidates, role, sctp, offer, answer, options);
    AnswerMediaLine(ice, candidates, role, sctp, offer, answer, options);
  }

  lemma AnswerMembers(ice: IceParameters, candidates: seq<IceCandidate>, role: string, sctp: Option<SctpParameters>,
      offer: Object, answer: RtpParameters, options: CodecOptions)
    requires OfferOk(offer, answer)
    requires offer[Type].s == "application" ==> sctp.Some?
    requires AnswerInputsOk(ice, candidates, offer, answer)
    ensures MembersOk(AnswerObject(ice, candidates, role, sctp, offer, answer, options))
  {
    hide MembersOk, TransportObject, SectionHead, WithRole, AnswerMedia, WithSctp, IceClean, CandidatesClean, AllIn,
      RtpClean;
    TransportMembers(ice, candidates);
    var t := TransportObject(ice, candidates);
    HeadMembers(t, offer[Mid].s, offer[Type].s, offer[Protocol].s);
    var h := SectionHead(t, offer[Mid], offer[Type].s, offer[Protocol]);
    RoleMembers(h, false, role);
    var o := WithRole(h, role);
    if IsAv(offer[Type].s) {
      AnswerMediaMembers(o, offer, answer, options);
    } else {
      SctpMembers(o, sctp.value);
    }
  }

  lemma AnswerMediaMembers(o: Object, offer: Object, answer: RtpParameters, options: CodecOptions)
    requires OfferOk(offer, answer) && IsAv(offer[Type].s)
    requires MembersOk(o) && OfferClean(offer) && RtpClean(answer)
    ensures MembersOk(AnswerMedia(o, offer, answer, options))
  {
    hide MembersOk, WithCodecs, WithMux, WithSimulcast, CommonExts, CodecsClean, ExtClean, ConfiguredAll, AllIn, Uris,
      OfferClean;
    var configured := ConfiguredAll(answer.codecs, options);
    ConfiguredClean(answer.codecs, options);
    CodecMembers(o, "recvonly", configured);
    CommonElements(answer.headerExtensions, LocalExts(offer));
    var c := WithCodecs(o, "recvonly", configured);
    ExtMembers(c, CommonExts(answer.headerExtensions, LocalExts(offer)));
    var e := c[Ext := Arr(CommonExts(answer.headerExtensions, LocalExts(offer)))];
    MuxMembers(e);
    var x := if HasStr(offer, ExtmapAllowMixed) then e[ExtmapAllowMixed := Str("extmap-allow-mixed")] else e;
    SimulcastMembersOk(x, offer);
    MuxMembers(WithSimulcast(x, offer));
  }

  lemma AnswerMediaLine(ice: IceParameters, candidates: seq<IceCandidate>, role: string, sctp: Option<SctpParameters>,
      offer: Object, answer: RtpParameters, options: CodecOptions)
    requires OfferOk(offer, answer)
    requires offer[Type].s == "application" ==> sctp.Some?
    requires OfferClean(offer)
    ensures MediaOk(AnswerObject(ice, candidates, role, sctp, offer, answer, options))
  {
    hide AnswerMedia, PayloadsText, CandidateObjects, Uris, MediaOk, AllIn, ConfiguredAll;
    var o := AnswerObject(ice, candidates, role, sctp, offer, answer, options);
    var kind, protocol := offer[Type].s, offer[Protocol].s;
    var h := WithRole(SectionHead(TransportObject(ice, candidates), offer[Mid], kind, offer[Protocol]), role);
    OfferTexts(sctp, ConfiguredAll(answer.codecs, options));
    if IsAv(kind) {
      MediaKeepsLine(h, offer, answer, options);
      MediaLineOk(o, kind, protocol, PayloadsText(ConfiguredAll(answer.codecs, options)));
    } else {
      MediaLineOk(o, kind, protocol, "webrtc-datachannel");
    }
  }

  lemma MediaKeepsLine(o: Object, offer: Object, answer: RtpParameters, options: CodecOptions)
    requires OfferOk(offer, answer) && IsAv(offer[Type].s)
    ensures var m := AnswerMedia(o, offer, answer, options);
      && (forall k :: k in {Type, Port, NumPorts, Protocol} ==> (k in m <==> k in o) && Look(m, k) == Look(o, k))
      && Payloads in m && m[Payloads] == Str(PayloadsText(ConfiguredAll(answer.codecs, options)))
  {
    hide RtpEntries, FeedbackEntries, FmtpEntries, PayloadsText, CommonExts, RecvRids, Uris, ConfiguredAll;
  }

  // ----- changes -----

  lemma IceWellFormed(o: Object, ice: IceParameters)
    requires WellFormed(o) && IceClean(ice)
    ensures WellFormed(WithIce(o, ice))
  {
    hide MembersOk;
    IceMembers(o, ice);
  }

  lemma RoleWellFormed(o: Object, isOffer: bool, role: string)
    requires WellFormed(o)
    ensures WellFormed(RoleSet(isOffer, o, role))
  {
    hide MembersOk;
    RoleMembers(o, isOffer, role);
  }

  lemma ClosedWellFormed(o: Object)
    requires WellFormed(o)
    ensures WellFormed(Closed(o)) && WellFormed(Disabled(o))
  {
    hide MembersOk, MemberOk, AllIn;
    DirectionValue("inactive");
    Free(Port, Num(0));
    var o1 := o[Direction := Str("inactive")];
    Update(o, Direction, Str("inactive"));
    Update(o1, Port, Num(0));
    Removal(o1, {Ext, Ssrcs, SsrcGroups, Simulcast, Rids});
    Removal(o1[Port := Num(0)], {Ext, Ssrcs, SsrcGroups, Simulcast, Rids, ExtmapAllowMixed});
  }
}
