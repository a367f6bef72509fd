/** What a line of each kind is read as, spelled out: the text by its tokens, the members by their names. */
module SdpReadings {
  import opened Text
  import opened Json
  import opened Regex
  import opened Patterns
  import opened LineShapes
  import opened Grammar
  import opened SdpText
  import opened SdpTokens
  import opened SdpRoundTrip
  import opened SdpStability
  import opened SdpLines

  /** What a line of a rule adds to a location. */
  function Added(r: Rule, acc: Object, p: Object): Object
    requires r != RMedia
  {
    acc[Member(r) := if IsPush(r) then Arr(ItemsOf(Look(acc, Member(r))) + [p]) else Obj(p)]
  }

  lemma ParseNested(r: Rule, acc: Object, caps: seq<string>)
    requires IsNested(r) && Member(r) !in acc
    ensures ParseReg(r, acc, caps) == acc[Member(r) := Obj(Attach(r, caps, map[]))]
  {
    hide Member, Attach, Names;
  }

  lemma FeedElement(r: Rule, o: Object, acc: Object)
    requires ElementOk(r, o) && r != RMedia && (IsPush(r) || Member(r) !in acc)
    ensures FeedLine(acc, Line(Letter(r), Content(r, o))) == Added(r, acc, Reparsed(r, o, map[]))
  {
    hide Captures, Dispatch, Content, Texts, ElementOk, Reparsed, Names, Member, Letter, IsPush, IsNested, ParseReg,
      Attach, Format;
    ElementReads(r, o);
    ElementNamed(r, o);
    AttachIsReparsed(r, o);
    if IsPush(r) {
      ParsePush(r, acc, Texts(r, o));
    } else {
      ElementRules(r, o);
      ElementIsNested(r);
      ParseNested(r, acc, Texts(r, o));
    }
  }

  lemma ElementRules(r: Rule, o: Object)
    requires ElementOk(r, o)
    ensures IsElementRule(r)
  {
  }

  /** The location with one capture more. */
  function Put(names: seq<Key>, types: seq<ValueType>, caps: seq<string>, i: nat, loc: Object): Object
    requires i < |names| <= |types| && |names| == |caps|
  {
    if caps[i] != "" then loc[names[i] := ToType(caps[i], types[i])] else loc
  }

  function Grown(names: seq<Key>, types: seq<ValueType>, caps: seq<string>, loc: Object, k: nat): Object
    requires k <= |names| <= |types| && |names| == |caps|
  {
    if k == 0 then loc else Put(names, types, caps, k - 1, Grown(names, types, caps, loc, k - 1))
  }

  lemma {:induction false} AttachGrows(names: seq<Key>, types: seq<ValueType>, caps: seq<string>, loc: Object, k: nat)
    requires k <= |names| <= |types| && |names| == |caps|
    ensures AttachNames(names, types, caps, loc, 0)
         == AttachNames(names, types, caps, Grown(names, types, caps, loc, k), k)
  {
    if k > 0 {
      AttachGrows(names, types, caps, loc, k - 1);
    }
  }

  /** Reading step by step, for up to six members. */
  lemma Grows(names: seq<Key>, types: seq<ValueType>, caps: seq<string>, loc: Object)
    requires 2 <= |names| <= |types| && |names| == |caps|
    ensures AttachNames(names, types, caps, loc, 0) == Grown(names, types, caps, loc, |names|)
    ensures Grown(names, types, caps, loc, 2) == Put(names, types, caps, 1, Put(names, types, caps, 0, loc))
    ensures |names| > 2 ==>
      Grown(names, types, caps, loc, 3) == Put(names, types, caps, 2, Grown(names, types, caps, loc, 2))
    ensures |names| > 3 ==>
      Grown(names, types, caps, loc, 4) == Put(names, types, caps, 3, Grown(names, types, caps, loc, 3))
    ensures |names| > 4 ==>
      Grown(names, types, caps, loc, 5) == Put(names, types, caps, 4, Grown(names, types, caps, loc, 4))
    ensures |names| > 5 ==>
      Grown(names, types, caps, loc, 6) == Put(names, types, caps, 5, Grown(names, types, caps, loc, 5))
  {
    hide Put;
    AttachGrows(names, types, caps, loc, |names|);
    assert Grown(names, types, caps, loc, 0) == loc;
    assert Grown(names, types, caps, loc, 1) == Put(names, types, caps, 0, loc);
  }

  /** ... and on, for thirteen. */
  lemma GrowsOn(names: seq<Key>, types: seq<ValueType>, caps: seq<string>, loc: Object)
    requires 13 == |names| <= |types| && |names| == |caps|
    ensures Grown(names, types, caps, loc, 7) == Put(names, types, caps, 6, Grown(names, types, caps, loc, 6))
    ensures Grown(names, types, caps, loc, 8) == Put(names, types, caps, 7, Grown(names, types, caps, loc, 7))
    ensures Grown(names, types, caps, loc, 9) == Put(names, types, caps, 8, Grown(names, types, caps, loc, 8))
    ensures Grown(names, types, caps, loc, 10) == Put(names, types, caps, 9, Grown(names, types, caps, loc, 9))
    ensures Grown(names, types, caps, loc, 11) == Put(names, types, caps, 10, Grown(names, types, caps, loc, 10))
    ensures Grown(names, types, caps, loc, 12) == Put(names, types, caps, 11, Grown(names, types, caps, loc, 11))
    ensures Grown(names, types, caps, loc, 13) == Put(names, types, caps, 12, Grown(names, types, caps, loc, 12))
  {
    hide Put;
  }

  lemma NumberText(o: Object, k: Key)
    requires Counter(o, k)
    ensures TextAt(o, k) == Digits(o[k].n) && TextAt(o, k) != ""
    ensures ToType(TextAt(o, k), D) == ToType(TextAt(o, k), U) == o[k] && ToType(TextAt(o, k), S) == Str(Digits(o[k].n))
  {
    DecimalRoundTrip(o[k].n);
  }

  lemma WordText(o: Object, k: Key)
    requires HasStr(o, k)
    ensures TextAt(o, k) == o[k].s && ToType(TextAt(o, k), S) == o[k]
  {
  }

  /** A text that may be empty is then not there. */
  function Given(o: Object, k: Key, text: string): Object {
    if text == "" then o else o[k := Str(text)]
  }

  lemma OriginRead(o: Object)
    requires OriginOk(o)
    ensures Reparsed(ROrigin, o, map[]) == map[Username := o[Username], SessionId := o[SessionId],
      SessionVersion := o[SessionVersion], NetType := o[NetType], IpVer := o[IpVer], Address := o[Address]]
  {
    hide AttachNames, TextAt, ToType, Grown, AllIn, In;
    WordText(o, Username);
    NumberText(o, SessionId);
    NumberText(o, SessionVersion);
    WordText(o, NetType);
    NumberText(o, IpVer);
    WordText(o, Address);
    Grows(Names(ROrigin), Types(ROrigin), Texts(ROrigin, o), map[]);
  }

  lemma TimingRead(o: Object)
    requires TimingOk(o)
    ensures Reparsed(RTiming, o, map[]) == map[Start := o[Start], Stop := o[Stop]]
  {
    hide AttachNames, TextAt, ToType, Grown, AllIn, In;
    NumberText(o, Start);
    NumberText(o, Stop);
    Grows(Names(RTiming), Types(RTiming), Texts(RTiming, o), map[]);
  }

  lemma ConnectionRead(o: Object)
    requires ConnectionOk(o)
    ensures Reparsed(RConnection, o, map[]) == map[Version := o[Version], Ip := o[Ip]]
  {
    hide AttachNames, TextAt, ToType, Grown, AllIn, In;
    NumberText(o, Version);
    WordText(o, Ip);
    NothingAt(o, Ttl);
    Grows(Names(RConnection), Types(RConnection), Texts(RConnection, o), map[]);
  }

  lemma RtpRead(o: Object)
    requires RtpOk(o)
    ensures Reparsed(RRtp, o, map[])
         == (var p: Object := map[Payload := o[Payload], Codec := o[Codec], Rate := o[Rate]];
             if Encoding in o then p[Encoding := Str(Digits(o[Encoding].n))] else p)
  {
    hide AttachNames, TextAt, ToType, Grown, AllIn, In;
    NumberText(o, Payload);
    WordText(o, Codec);
    NumberText(o, Rate);
    if Encoding in o {
      NumberText(o, Encoding);
    } else {
      NothingAt(o, Encoding);
    }
    Grows(Names(RRtp), Types(RRtp), Texts(RRtp, o), map[]);
  }

  lemma FmtpRead(o: Object)
    requires FmtpOk(o)
    ensures Reparsed(RFmtp, o, map[]) == Given(map[Payload := o[Payload]], Config, o[Config].s)
  {
    hide AttachNames, TextAt, ToType, Grown, AllIn, In;
    NumberText(o, Payload);
    WordText(o, Config);
    Grows(Names(RFmtp), Types(RFmtp), Texts(RFmtp, o), map[]);
  }

  lemma RtcpFbRead(o: Object)
    requires RtcpFbOk(o)
    ensures Reparsed(RRtcpFb, o, map[]) == Given(Given(map[Payload := Str(Digits(o[Payload].n))], Type, o[Type].s),
      Subtype, o[Subtype].s)
  {
    hide AttachNames, TextAt, ToType, Grown, AllIn, In;
    NumberText(o, Payload);
    WordText(o, Type);
    WordText(o, Subtype);
    Grows(Names(RRtcpFb), Types(RRtcpFb), Texts(RRtcpFb, o), map[]);
  }

  lemma ExtRead(o: Object)
    requires ExtOk(o)
    ensures Reparsed(RExt, o, map[]) == map[Value := o[Value], Uri := o[Uri]]
  {
    hide AttachNames, TextAt, ToType, Grown, AllIn, In;
    NumberText(o, Value);
    NothingAt(o, Direction);
    NothingAt(o, EncryptUri);
    WordText(o, Uri);
    NothingAt(o, Config);
    Grows(Names(RExt), Types(RExt), Texts(RExt, o), map[]);
  }

  lemma FingerprintRead(o: Object)
    requires FingerprintOk(o)
    ensures Reparsed(RFingerprint, o, map[]) == map[Type := o[Type], Hash := o[Hash]]
  {
    hide AttachNames, TextAt, ToType, Grown, AllIn, In;
    WordText(o, Type);
    WordText(o, Hash);
    Grows(Names(RFingerprint), Types(RFingerprint), Texts(RFingerprint, o), map[]);
  }

  lemma SsrcRead(o: Object)
    requires SsrcsOk(o)
    ensures Reparsed(RSsrcs, o, map[]) == Given(map[Id := o[Id], Attribute := o[Attribute]], Value, o[Value].s)
  {
    hide AttachNames, TextAt, ToType, Grown, AllIn, In;
    NumberText(o, Id);
    WordText(o, Attribute);
    WordText(o, Value);
    Grows(Names(RSsrcs), Types(RSsrcs), Texts(RSsrcs, o), map[]);
  }

  lemma SsrcGroupRead(o: Object)
    requires SsrcGroupsOk(o)
    ensures Reparsed(RSsrcGroups, o, map[]) == Given(map[Semantics := o[Semantics]], Ssrcs, o[Ssrcs].s)
  {
    hide AttachNames, TextAt, ToType, Grown, AllIn, In;
    WordText(o, Semantics);
    WordText(o, Ssrcs);
    Grows(Names(RSsrcGroups), Types(RSsrcGroups), Texts(RSsrcGroups, o), map[]);
  }

  lemma MsidSemanticRead(o: Object)
    requires MsidSemanticOk(o)
    ensures Reparsed(RMsidSemantic, o, map[]) == map[Semantic := o[Semantic], Token := o[Token]]
  {
    hide AttachNames, TextAt, ToType, Grown, AllIn, In;
    WordText(o, Semantic);
    WordText(o, Token);
    Grows(Names(RMsidSemantic), Types(RMsidSemantic), Texts(RMsidSemantic, o), map[]);
  }

  lemma GroupRead(o: Object)
    requires GroupsOk(o)
    ensures Reparsed(RGroups, o, map[]) == Given(map[Type := o[Type]], Mids, o[Mids].s)
  {
    hide AttachNames, TextAt, ToType, Grown, AllIn, In;
    WordText(o, Type);
    WordText(o, Mids);
    Grows(Names(RGroups), Types(RGroups), Texts(RGroups, o), map[]);
  }

  lemma RidRead(o: Object)
    requires RidsOk(o)
    ensures Reparsed(RRids, o, map[]) == map[Id := o[Id], Direction := o[Direction]]
  {
    hide AttachNames, TextAt, ToType, Grown, AllIn, In;
    WordText(o, Id);
    WordText(o, Direction);
    NothingAt(o, Params);
    Grows(Names(RRids), Types(RRids), Texts(RRids, o), map[]);
  }

  lemma SimulcastRead(o: Object)
    requires SimulcastOk(o)
    ensures Reparsed(RSimulcast, o, map[]) == map[Dir1 := o[Dir1], List1 := o[List1]]
  {
    hide AttachNames, TextAt, ToType, Grown, AllIn, In;
    WordText(o, Dir1);
    WordText(o, List1);
    NothingAt(o, Dir2);
    NothingAt(o, List2);
    Grows(Names(RSimulcast), Types(RSimulcast), Texts(RSimulcast, o), map[]);
  }

  lemma MediaRead(o: Object)
    requires MediaOk(o)
    ensures Reparsed(RMedia, o, NewSection()) == Given(map[Rtp := Arr([]), Fmtp := Arr([]), Type := o[Type],
      Port := o[Port], Protocol := o[Protocol]], Payloads, o[Payloads].s)
  {
    hide AttachNames, TextAt, ToType, Grown, AllIn, In;
    WordText(o, Type);
    NumberText(o, Port);
    NothingAt(o, NumPorts);
    WordText(o, Protocol);
    WordText(o, Payloads);
    Grows(Names(RMedia), Types(RMedia), Texts(RMedia, o), NewSection());
  }

  lemma CandidateTypes()
    ensures Types(RCandidates) == [S, D, S, D, S, D, S, S, D, S, D, D, D, D]
  {
  }

  /** The first six members. */
  function CandidateStart(o: Object): Object
    requires CandidatesOk(o)
  {
    map[Foundation := o[Foundation], Component := o[Component], Transport := o[Transport], Priority := o[Priority],
      Ip := o[Ip], Port := o[Port]]
  }

  lemma CandidateStarts(o: Object)
    requires CandidatesOk(o)
    ensures Grown(Names(RCandidates), Types(RCandidates), Texts(RCandidates, o), map[], 6) == CandidateStart(o)
  {
    hide AttachNames, TextAt, ToType, Grown, AllIn, In, Names, Types, Texts;
    CandidateTokens(o);
    CandidateNamed();
    CandidateTypes();
    WordText(o, Foundation);
    NumberText(o, Component);
    WordText(o, Transport);
    NumberText(o, Priority);
    WordText(o, Ip);
    NumberText(o, Port);
    Grows(Names(RCandidates), Types(RCandidates), Texts(RCandidates, o), map[]);
  }

  lemma CandidateRead(o: Object)
    requires CandidatesOk(o)
    ensures Reparsed(RCandidates, o, map[]) == (var p: Object := map[Foundation := o[Foundation],
      Component := o[Component], Transport := o[Transport], Priority := o[Priority], Ip := o[Ip], Port := o[Port],
      Type := o[Type]]; if TcpType in o then Given(p, TcpType, o[TcpType].s) else p)
  {
    hide AttachNames, TextAt, ToType, Grown, AllIn, In, Names, Types, Texts;
    CandidateTokens(o);
    CandidateNamed();
    CandidateTypes();
    CandidateStarts(o);
    WordText(o, Type);
    if TcpType in o {
      WordText(o, TcpType);
    } else {
      NothingAt(o, TcpType);
    }
    Grows(Names(RCandidates), Types(RCandidates), Texts(RCandidates, o), map[]);
    GrowsOn(Names(RCandidates), Types(RCandidates), Texts(RCandidates, o), map[]);
    assert CandidateStart(o)[Type := o[Type]] == map[Foundation := o[Foundation],
      Component := o[Component], Transport := o[Transport], Priority := o[Priority], Ip := o[Ip], Port := o[Port],
      Type := o[Type]];
  }

  // ----- whole lines -----

  lemma OriginLine(o: Object, acc: Object)
    requires OriginOk(o) && Origin !in acc
    ensures FeedLine(acc, Line('o',
      o[Username].s + (" " + (Digits(o[SessionId].n) + (" " + (Digits(o[SessionVersion].n) + (" " + (o[NetType].s
              + (" IP" + (Digits(o[IpVer].n) + (" " + o[Address].s)))))))))))
         == acc[Origin := Obj(map[Username := o[Username], SessionId := o[SessionId],
              SessionVersion := o[SessionVersion], NetType := o[NetType], IpVer := o[IpVer], Address := o[Address]])]
  {
    hide FeedLine, Content, Reparsed, AllIn, In, Digits, TextAt;
    WordText(o, Username);
    NumberText(o, SessionId);
    NumberText(o, SessionVersion);
    WordText(o, NetType);
    NumberText(o, IpVer);
    WordText(o, Address);
    OriginPrints(o);
    OriginRead(o);
    FeedElement(ROrigin, o, acc);
  }

  lemma TimingLine(o: Object, acc: Object)
    requires TimingOk(o) && Timing !in acc
    ensures FeedLine(acc, Line('t', Digits(o[Start].n) + (" " + Digits(o[Stop].n))))
         == acc[Timing := Obj(map[Start := o[Start], Stop := o[Stop]])]
  {
    hide FeedLine, Content, Reparsed, AllIn, In, Digits, TextAt;
    NumberText(o, Start);
    NumberText(o, Stop);
    TimingPrints(o);
    TimingRead(o);
    FeedElement(RTiming, o, acc);
  }

  lemma ConnectionLine(o: Object, acc: Object)
    requires ConnectionOk(o) && Connection !in acc
    ensures FeedLine(acc, Line('c', "IN IP" + (Digits(o[Version].n) + (" " + o[Ip].s))))
         == acc[Connection := Obj(map[Version := o[Version], Ip := o[Ip]])]
  {
    hide FeedLine, Content, Reparsed, AllIn, In, Digits, TextAt;
    NumberText(o, Version);
    WordText(o, Ip);
    ConnectionPrints(o);
    ConnectionRead(o);
    FeedElement(RConnection, o, acc);
  }

  lemma RtpLine(o: Object, acc: Object)
    requires RtpOk(o)
    ensures FeedLine(acc, Line('a', "rtpmap:" + (Digits(o[Payload].n) + (" " + (o[Codec].s + ("/" + (Digits(o[Rate].n)
              + (if Encoding in o then "/" + Digits(o[Encoding].n) else ""))))))))
         == (var p: Object := map[Payload := o[Payload], Codec := o[Codec], Rate := o[Rate]];
             acc[Rtp := Arr(ItemsOf(Look(acc, Rtp))
               + [if Encoding in o then p[Encoding := Str(Digits(o[Encoding].n))] else p])])
  {
    hide FeedLine, Content, Reparsed, AllIn, In, Digits, TextAt;
    NumberText(o, Payload);
    WordText(o, Codec);
    NumberText(o, Rate);
    if Encoding in o {
      NumberText(o, Encoding);
    } else {
      NothingAt(o, Encoding);
      assert Digits(o[Rate].n) + "" == Digits(o[Rate].n);
    }
    RtpPrints(o);
    RtpRead(o);
    FeedElement(RRtp, o, acc);
  }

  lemma FmtpLine(o: Object, acc: Object)
    requires FmtpOk(o)
    ensures FeedLine(acc, Line('a', "fmtp:" + (Digits(o[Payload].n) + (" " + o[Config].s))))
         == acc[Fmtp := Arr(ItemsOf(Look(acc, Fmtp)) + [Given(map[Payload := o[Payload]], Config, o[Config].s)])]
  {
    hide FeedLine, Content, Reparsed, AllIn, In, Digits, TextAt;
    NumberText(o, Payload);
    WordText(o, Config);
    FmtpPrints(o);
    FmtpRead(o);
    FeedElement(RFmtp, o, acc);
  }

  lemma RtcpFbLine(o: Object, acc: Object)
    requires RtcpFbOk(o)
    ensures FeedLine(acc, Line('a', "rtcp-fb:" + (Digits(o[Payload].n) + (" " + (o[Type].s
              + (if o[Subtype].s == "" then "" else " " + o[Subtype].s))))))
         == acc[RtcpFb := Arr(ItemsOf(Look(acc, RtcpFb))
              + [Given(Given(map[Payload := Str(Digits(o[Payload].n))], Type, o[Type].s), Subtype, o[Subtype].s)])]
  {
    hide FeedLine, Content, Reparsed, AllIn, In, Digits, TextAt;
    NumberText(o, Payload);
    WordText(o, Type);
    WordText(o, Subtype);
    RtcpFbPrints(o);
    RtcpFbRead(o);
    FeedElement(RRtcpFb, o, acc);
  }

  lemma ExtLine(o: Object, acc: Object)
    requires ExtOk(o)
    ensures FeedLine(acc, Line('a', "extmap:" + (Digits(o[Value].n) + (" " + o[Uri].s))))
         == acc[Ext := Arr(ItemsOf(Look(acc, Ext)) + [map[Value := o[Value], Uri := o[Uri]]])]
  {
    hide FeedLine, Content, Reparsed, AllIn, In, Digits, TextAt;
    NumberText(o, Value);
    WordText(o, Uri);
    ExtPrints(o);
    ExtRead(o);
    FeedElement(RExt, o, acc);
  }

  lemma FingerprintLine(o: Object, acc: Object)
    requires FingerprintOk(o) && Key.Fingerprint !in acc
    ensures FeedLine(acc, Line('a', "fingerprint:" + (o[Type].s + (" " + o[Hash].s))))
         == acc[Key.Fingerprint := Obj(map[Type := o[Type], Hash := o[Hash]])]
  {
    hide FeedLine, Content, Reparsed, AllIn, In, Digits, TextAt;
    WordText(o, Type);
    WordText(o, Hash);
    FingerprintPrints(o);
    FingerprintRead(o);
    FeedElement(RFingerprint, o, acc);
  }

  lemma CandidateLine(o: Object, acc: Object)
    requires CandidatesOk(o)
    ensures var tcp := if TcpType in o then o[TcpType].s else "";
      FeedLine(acc, Line('a', "candidate:" + (o[Foundation].s + (" " + (Digits(o[Component].n) + (" " + (o[Transport].s
        + (" " + (Digits(o[Priority].n) + (" " + (o[Ip].s + (" " + (Digits(o[Port].n) + (" typ " + (o[Type].s
        + (if tcp == "" then "" else " tcptype " + tcp))))))))))))))))
      == acc[Candidates := Arr(ItemsOf(Look(acc, Candidates)) + [Given(map[Foundation := o[Foundation],
           Component := o[Component], Transport := o[Transport], Priority := o[Priority], Ip := o[Ip],
           Port := o[Port], Type := o[Type]], TcpType, tcp)])]
  {
    hide FeedLine, Content, Reparsed, AllIn, In, Digits, TextAt;
    WordText(o, Foundation);
    NumberText(o, Component);
    WordText(o, Transport);
    NumberText(o, Priority);
    WordText(o, Ip);
    NumberText(o, Port);
    WordText(o, Type);
    if TcpType in o {
      WordText(o, TcpType);
    } else {
      NothingAt(o, TcpType);
    }
    CandidatePrints(o);
    CandidateRead(o);
    FeedElement(RCandidates, o, acc);
  }

  lemma SsrcLine(o: Object, acc: Object)
    requires SsrcsOk(o)
    ensures FeedLine(acc, Line('a', "ssrc:" + (Digits(o[Id].n) + (" " + (o[Attribute].s
              + (if o[Value].s == "" then "" else ":" + o[Value].s))))))
         == acc[Ssrcs := Arr(ItemsOf(Look(acc, Ssrcs))
              + [Given(map[Id := o[Id], Attribute := o[Attribute]], Value, o[Value].s)])]
  {
    hide FeedLine, Content, Reparsed, AllIn, In, Digits, TextAt;
    NumberText(o, Id);
    WordText(o, Attribute);
    WordText(o, Value);
    SsrcPrints(o);
    SsrcRead(o);
    FeedElement(RSsrcs, o, acc);
  }

  lemma SsrcGroupLine(o: Object, acc: Object)
    requires SsrcGroupsOk(o)
    ensures FeedLine(acc, Line('a', "ssrc-group:" + (o[Semantics].s + (" " + o[Ssrcs].s))))
         == acc[SsrcGroups := Arr(ItemsOf(Look(acc, SsrcGroups))
           + [Given(map[Semantics := o[Semantics]], Ssrcs, o[Ssrcs].s)])]
  {
    hide FeedLine, Content, Reparsed, AllIn, In, Digits, TextAt;
    WordText(o, Semantics);
    WordText(o, Ssrcs);
    SsrcGroupPrints(o);
    SsrcGroupRead(o);
    FeedElement(RSsrcGroups, o, acc);
  }

  lemma MsidSemanticLine(o: Object, acc: Object)
    requires MsidSemanticOk(o) && MsidSemantic !in acc
    ensures FeedLine(acc, Line('a', "msid-semantic: " + (o[Semantic].s + (" " + o[Token].s))))
         == acc[MsidSemantic := Obj(map[Semantic := o[Semantic], Token := o[Token]])]
  {
    hide FeedLine, Content, Reparsed, AllIn, In, Digits, TextAt;
    WordText(o, Semantic);
    WordText(o, Token);
    MsidSemanticPrints(o);
    MsidSemanticRead(o);
    FeedElement(RMsidSemantic, o, acc);
  }

  lemma GroupLine(o: Object, acc: Object)
    requires GroupsOk(o)
    ensures FeedLine(acc, Line('a', "group:" + (o[Type].s + (" " + o[Mids].s))))
         == acc[Groups := Arr(ItemsOf(Look(acc, Groups)) + [Given(map[Type := o[Type]], Mids, o[Mids].s)])]
  {
    hide FeedLine, Content, Reparsed, AllIn, In, Digits, TextAt;
    WordText(o, Type);
    WordText(o, Mids);
    GroupPrints(o);
    GroupRead(o);
    FeedElement(RGroups, o, acc);
  }

  lemma RidLine(o: Object, acc: Object)
    requires RidsOk(o)
    ensures FeedLine(acc, Line('a', "rid:" + (o[Id].s + (" " + o[Direction].s))))
         == acc[Rids := Arr(ItemsOf(Look(acc, Rids)) + [map[Id := o[Id], Direction := o[Direction]]])]
  {
    hide FeedLine, Content, Reparsed, AllIn, In, Digits, TextAt;
    WordText(o, Id);
    WordText(o, Direction);
    RidPrints(o);
    RidRead(o);
    FeedElement(RRids, o, acc);
  }

  lemma SimulcastLine(o: Object, acc: Object)
    requires SimulcastOk(o) && Simulcast !in acc
    ensures FeedLine(acc, Line('a', "simulcast:" + (o[Dir1].s + (" " + o[List1].s))))
         == acc[Simulcast := Obj(map[Dir1 := o[Dir1], List1 := o[List1]])]
  {
    hide FeedLine, Content, Reparsed, AllIn, In, Digits, TextAt;
    WordText(o, Dir1);
    WordText(o, List1);
    SimulcastPrints(o);
    SimulcastRead(o);
    FeedElement(RSimulcast, o, acc);
  }

  /** An m-line starts a section. */
  lemma MediaLine(o: Object, st: ParseState)
    requires MediaOk(o)
    ensures ParseLine(st, Line('m', o[Type].s + (" " + (Digits(o[Port].n) + (" " + (o[Protocol].s
              + (" " + o[Payloads].s)))))))
         == ParseState(st.session, st.media + [Given(map[Rtp := Arr([]), Fmtp := Arr([]), Type := o[Type],
              Port := o[Port], Protocol := o[Protocol]], Payloads, o[Payloads].s)])
  {
    hide FeedLine, Content, Reparsed, AllIn, In, Digits, MakeLine, SectionBase, TextAt, ParseLine;
    WordText(o, Type);
    NumberText(o, Port);
    WordText(o, Protocol);
    WordText(o, Payloads);
    MediaPrints(o);
    MediaRead(o);
    SectionMediaLine(o);
    ParseMediaLine(st, o);
    SectionBaseIs(o);
  }

  lemma SectionBaseIs(m: Object)
    ensures SectionBase(m) == Reparsed(RMedia, m, NewSection())
  {
  }

  // ----- lines with one value -----

  lemma FeedOne(r: Rule, v: Json, acc: Object)
    requires ScalarOk(r, v)
    ensures r != RMedia && FeedLine(acc, Line(Letter(r), ScalarContent(r, v))) == acc[Member(r) := v]
  {
    hide Captures, Dispatch, ScalarContent, ScalarOk;
    ScalarRules(r, v);
    ScalarReads(r, v);
    ScalarUnchanged(r, v);
  }

  lemma NameLine(s: string, acc: Object)
    requires AllIn(s, Any)
    ensures FeedLine(acc, Line('s', s)) == acc[Name := Str(s)]
  {
    hide FeedLine, AllIn;
    assert "" + s == s;
    FeedOne(RName, Str(s), acc);
  }

  lemma VersionLine(n: nat, acc: Object)
    requires n < TWO_63
    ensures FeedLine(acc, Line('v', Digits(n))) == acc[Version := Num(n)]
  {
    hide FeedLine, Digits;
    assert "" + Digits(n) == Digits(n);
    FeedOne(RVersion, Num(n), acc);
  }

  lemma SetupLine(s: string, acc: Object)
    requires AllIn(s, Word)
    ensures FeedLine(acc, Line('a', "setup:" + s)) == acc[Setup := Str(s)]
  {
    hide FeedLine, AllIn;
    FeedOne(RSetup, Str(s), acc);
  }

  /** A value without blanks behind its head. */
  lemma TokenLine(r: Rule, head: string, s: string, acc: Object)
    requires r in {RMid, RIceUfrag, RIcePwd, RIceOptions} && AllIn(s, NonSpace) && HeadOf(r) == head
    ensures FeedLine(acc, Line('a', head + s)) == acc[Member(r) := Str(s)]
  {
    hide FeedLine, AllIn, HeadOf, Member, ScalarContent, ScalarOk;
    TokenContent(r, s);
    FeedOne(r, Str(s), acc);
  }

  lemma TokenContent(r: Rule, s: string)
    requires r in {RMid, RIceUfrag, RIcePwd, RIceOptions} && AllIn(s, NonSpace)
    ensures ScalarOk(r, Str(s)) && Letter(r) == 'a' && ScalarContent(r, Str(s)) == HeadOf(r) + s
  {
    hide AllIn, HeadOf;
  }

  lemma MidLine(s: string, acc: Object)
    requires AllIn(s, NonSpace)
    ensures FeedLine(acc, Line('a', "mid:" + s)) == acc[Mid := Str(s)]
  {
    hide FeedLine, AllIn;
    TokenLine(RMid, "mid:", s, acc);
  }

  lemma IceLines(s: string, acc: Object)
    requires AllIn(s, NonSpace)
    ensures FeedLine(acc, Line('a', "ice-ufrag:" + s)) == acc[IceUfrag := Str(s)]
    ensures FeedLine(acc, Line('a', "ice-pwd:" + s)) == acc[IcePwd := Str(s)]
    ensures FeedLine(acc, Line('a', "ice-options:" + s)) == acc[IceOptions := Str(s)]
  {
    hide FeedLine, AllIn;
    TokenLine(RIceUfrag, "ice-ufrag:", s, acc);
    TokenLine(RIcePwd, "ice-pwd:", s, acc);
    TokenLine(RIceOptions, "ice-options:", s, acc);
  }

  lemma DirectionLine(s: string, acc: Object)
    requires s in {"sendrecv", "recvonly", "sendonly", "inactive"}
    ensures FeedLine(acc, Line('a', s)) == acc[Direction := Str(s)]
  {
    hide FeedLine;
    assert "" + s == s;
    FeedOne(RDirection, Str(s), acc);
  }

  lemma KeywordLine(r: Rule, word: string, acc: Object)
    requires IsKeyword(r) && HeadOf(r) == word
    ensures FeedLine(acc, Line('a', word)) == acc[Member(r) := Str(word)]
  {
    hide FeedLine, HeadOf, Member, IsKeyword;
    KeywordOk(r);
    KeywordFormat(r);
    KeywordEarly(r);
    assert "" + word == word;
    FeedOne(r, Str(word), acc);
  }

  lemma KeywordOk(r: Rule)
    requires IsKeyword(r)
    ensures ScalarOk(r, Str(HeadOf(r)))
  {
    hide HeadOf;
  }

  lemma FlagLines(acc: Object)
    ensures FeedLine(acc, Line('a', "extmap-allow-mixed")) == acc[ExtmapAllowMixed := Str("extmap-allow-mixed")]
    ensures FeedLine(acc, Line('a', "ice-lite")) == acc[Icelite := Str("ice-lite")]
    ensures FeedLine(acc, Line('a', "end-of-candidates")) == acc[EndOfCandidates := Str("end-of-candidates")]
  {
    hide FeedLine, IsKeyword;
    Keywords();
    KeywordLine(RExtmapAllowMixed, "extmap-allow-mixed", acc);
    KeywordLine(RIcelite, "ice-lite", acc);
    KeywordLine(REndOfCandidates, "end-of-candidates", acc);
  }

  lemma RtcpLines(acc: Object)
    ensures FeedLine(acc, Line('a', "rtcp-mux")) == acc[RtcpMux := Str("rtcp-mux")]
    ensures FeedLine(acc, Line('a', "rtcp-rsize")) == acc[RtcpRsize := Str("rtcp-rsize")]
  {
    hide FeedLine, IsKeyword;
    Keywords();
    KeywordLine(RRtcpMux, "rtcp-mux", acc);
    KeywordLine(RRtcpRsize, "rtcp-rsize", acc);
  }

  lemma Keywords()
    ensures IsKeyword(RExtmapAllowMixed) && IsKeyword(RIcelite) && IsKeyword(REndOfCandidates)
    ensures IsKeyword(RRtcpMux) && IsKeyword(RRtcpRsize)
  {
  }
}
