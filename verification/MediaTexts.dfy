/** The lines of the m-sections that are built, spelled out from what they are built from. */
module MediaTexts {
  import opened Text
  import opened Json
  import opened Regex
  import opened Grammar
  import opened SdpText
  import opened SdpTokens
  import opened SdpRoundTrip
  import opened SdpLines
  import opened SdpWriting
  import opened RtpTypes
  import opened FmtpConfig
  import opened SsrcUtils
  import opened MediaObjects
  import opened MediaSections
  import MediaTokens

  // ----- what is printed for each input -----

  /** `channels` is printed as a byte, and only if there is more than one. */
  function RtpmapOf(c: CodecParameters): string {
    "rtpmap:" + (Decimal(c.payloadType) + (" " + (CodecName(c.mimeType) + ("/" + (Decimal(c.clockRate)
      + (if c.channels.Some? && c.channels.value % 256 > 1 then "/" + Digits(c.channels.value % 256) else ""))))))
  }

  function FmtpOf(c: CodecParameters): string {
    "fmtp:" + (Decimal(c.payloadType) + (" " + ConfigText(c.parameters)))
  }

  function FeedbackOf(c: CodecParameters, fb: Feedback): string {
    "rtcp-fb:" + (Decimal(c.payloadType) + (" " + (fb.kind + (if fb.parameter == "" then "" else " " + fb.parameter))))
  }

  function ExtmapOf(e: HeaderExtension): string {
    "extmap:" + (Decimal(e.id) + (" " + e.uri))
  }

  /** The component is always 1. */
  function CandidateOf(c: IceCandidate): string {
    "candidate:" + (c.foundation + (" 1 " + (c.protocol + (" " + (Decimal(c.priority) + (" " + (c.ip + (" "
      + (Decimal(c.port) + (" typ " + (c.kind
      + (if c.tcpType.Some? && c.tcpType.value != "" then " tcptype " + c.tcpType.value else ""))))))))))))
  }

  function SsrcOf(ssrc: nat, attribute: string, value: string): string {
    "ssrc:" + (Digits(ssrc) + (" " + (attribute + (if value == "" then "" else ":" + value))))
  }

  /** Lines for all codecs; a codec without parameters has no fmtp line. */
  function RtpmapLines(codecs: seq<CodecParameters>): (r: seq<Line>)
    ensures |r| == |codecs|
  {
    seq(|codecs|, i requires 0 <= i < |codecs| => Line('a', RtpmapOf(codecs[i])))
  }

  function FmtpLines(codecs: seq<CodecParameters>): seq<Line> {
    if codecs == [] then []
    else
      var c := codecs[|codecs| - 1];
      FmtpLines(codecs[..|codecs| - 1])
      + (if ConfigText(c.parameters) == "" then [] else [Line('a', FmtpOf(c))])
  }

  function FeedbackLines(codecs: seq<CodecParameters>): seq<Line> {
    if codecs == [] then []
    else
      var c := codecs[|codecs| - 1];
      FeedbackLines(codecs[..|codecs| - 1])
      + seq(|c.rtcpFeedback|, i requires 0 <= i < |c.rtcpFeedback| => Line('a', FeedbackOf(c, c.rtcpFeedback[i])))
  }

  function ExtmapLines(exts: seq<HeaderExtension>): (r: seq<Line>)
    ensures |r| == |exts|
  {
    seq(|exts|, i requires 0 <= i < |exts| => Line('a', ExtmapOf(exts[i])))
  }

  function CandidateLines(candidates: seq<IceCandidate>): (r: seq<Line>)
    ensures |r| == |candidates|
  {
    seq(|candidates|, i requires 0 <= i < |candidates| => Line('a', CandidateOf(candidates[i])))
  }

  /** The payload list of the m-line. */
  function PayloadList(codecs: seq<CodecParameters>): string {
    Join(seq(|codecs|, i requires 0 <= i < |codecs| => Digits(codecs[i].payloadType % 256)), ' ')
  }

  // ----- entry by entry -----

  lemma RtpEntryWritten(c: CodecParameters)
    ensures RtpText(RtpEntry(c)) == RtpmapOf(c)
  {
    hide Digits, CodecName;
    assert Decimal(c.clockRate) != "" && Decimal(c.clockRate) + "" == Decimal(c.clockRate);
  }

  lemma FmtpEntryWritten(c: CodecParameters)
    ensures FmtpText(map[Payload := Num(c.payloadType), Config := Str(ConfigText(c.parameters))]) == FmtpOf(c)
  {
    hide Digits, ConfigText;
  }

  lemma FeedbackEntryWritten(c: CodecParameters, fb: Feedback)
    ensures RtcpFbText(FeedbackEntry(c.payloadType, fb)) == FeedbackOf(c, fb)
  {
    hide Digits;
  }

  lemma ExtEntryWritten(e: HeaderExtension)
    ensures ExtText(ExtEntry(e)) == ExtmapOf(e) && Bare(RExt, ExtEntry(e))
  {
    hide Digits;
  }

  lemma One(rest: string)
    ensures Decimal(1) == "1" && " " + ("1" + (" " + rest)) == " 1 " + rest
  {
  }

  lemma CandidateWritten(c: IceCandidate)
    ensures CandidateText(CandidateObject(c)) == CandidateOf(c) && Bare(RCandidates, CandidateObject(c))
  {
    hide TextAt, Decimal;
    var o := CandidateObject(c);
    CandidateTexts(c, o);
    One(c.protocol + (" " + (Decimal(c.priority) + (" " + (c.ip + (" " + (Decimal(c.port) + (" typ " + (c.kind
      + Part(" tcptype ", o, TcpType))))))))));
  }

  lemma CandidateTexts(c: IceCandidate, o: Object)
    requires o == CandidateObject(c)
    ensures TextAt(o, Foundation) == c.foundation && TextAt(o, Component) == Decimal(1)
    ensures TextAt(o, Transport) == c.protocol && TextAt(o, Priority) == Decimal(c.priority)
    ensures TextAt(o, Ip) == c.ip && TextAt(o, Port) == Decimal(c.port) && TextAt(o, Type) == c.kind
    ensures TextAt(o, TcpType) == if c.tcpType.Some? then c.tcpType.value else ""
  {
    hide Decimal;
  }

  lemma SsrcLineWritten(ssrc: nat, attribute: string, value: string)
    requires attribute != ""
    ensures SsrcText(SsrcLine(ssrc, attribute, value)) == SsrcOf(ssrc, attribute, value)
  {
    hide Digits;
  }

  // ----- list by list -----

  lemma RtpmapsWritten(codecs: seq<CodecParameters>)
    ensures Entries(RtpEntries(codecs), RtpText) == RtpmapLines(codecs)
  {
    hide RtpText, RtpEntry, RtpmapOf;
    forall i | 0 <= i < |codecs|
      ensures RtpText(RtpEntries(codecs)[i]) == RtpmapOf(codecs[i])
    {
      RtpEntryWritten(codecs[i]);
    }
  }

  lemma {:induction false} FmtpsWritten(codecs: seq<CodecParameters>)
    ensures Entries(FmtpEntries(codecs), FmtpText) == FmtpLines(codecs)
  {
    hide FmtpText, ConfigText, FmtpOf;
    if codecs != [] {
      var n := |codecs| - 1;
      FmtpsWritten(codecs[..n]);
      FmtpEntryWritten(codecs[n]);
      EntriesConcat(FmtpEntries(codecs[..n]), FmtpEntry(codecs[n]), FmtpText);
    }
  }

  lemma EntriesConcat(a: seq<Object>, b: seq<Object>, text: Object -> string)
    ensures Entries(a + b, text) == Entries(a, text) + Entries(b, text)
  {
  }

  lemma {:induction false} FeedbacksWritten(codecs: seq<CodecParameters>)
    ensures Entries(FeedbackEntries(codecs), RtcpFbText) == FeedbackLines(codecs)
  {
    hide RtcpFbText, FeedbackOf, FeedbackEntry;
    if codecs != [] {
      var n := |codecs| - 1;
      var c := codecs[n];
      FeedbacksWritten(codecs[..n]);
      forall i | 0 <= i < |c.rtcpFeedback|
        ensures RtcpFbText(CodecFeedback(c.payloadType, c.rtcpFeedback)[i]) == FeedbackOf(c, c.rtcpFeedback[i])
      {
        FeedbackEntryWritten(c, c.rtcpFeedback[i]);
      }
      EntriesConcat(FeedbackEntries(codecs[..n]), CodecFeedback(c.payloadType, c.rtcpFeedback), RtcpFbText);
    }
  }

  lemma ExtmapsWritten(exts: seq<HeaderExtension>)
    ensures Entries(AllExts(exts), ExtText) == ExtmapLines(exts)
    ensures forall i :: 0 <= i < |exts| ==> Bare(RExt, AllExts(exts)[i])
  {
    hide ExtText, ExtmapOf, ExtEntry, Bare;
    forall i | 0 <= i < |exts|
      ensures ExtText(AllExts(exts)[i]) == ExtmapOf(exts[i]) && Bare(RExt, AllExts(exts)[i])
    {
      ExtEntryWritten(exts[i]);
    }
  }

  lemma CandidatesWritten(candidates: seq<IceCandidate>)
    ensures Entries(CandidateObjects(candidates), CandidateText) == CandidateLines(candidates)
    ensures forall i :: 0 <= i < |candidates| ==> Bare(RCandidates, CandidateObjects(candidates)[i])
  {
    hide CandidateText, CandidateOf, CandidateObject, Bare;
    forall i | 0 <= i < |candidates|
      ensures CandidateText(CandidateObjects(candidates)[i]) == CandidateOf(candidates[i])
      ensures Bare(RCandidates, CandidateObjects(candidates)[i])
    {
      CandidateWritten(candidates[i]);
    }
  }

  lemma PayloadsWritten(codecs: seq<CodecParameters>)
    ensures PayloadsText(codecs) == PayloadList(codecs)
  {
    hide Digits, Join;
    assert PayloadTexts(codecs) == seq(|codecs|, i requires 0 <= i < |codecs| => Digits(codecs[i].payloadType % 256));
  }

  /** The extensions whose URI some extension of the offer has, in their order. */
  ghost function Known(exts: seq<HeaderExtension>, locals: seq<Object>): seq<HeaderExtension> {
    if exts == [] then []
    else
      var ext := exts[|exts| - 1];
      Known(exts[..|exts| - 1], locals)
      + (if exists i :: 0 <= i < |locals| && Uri in locals[i] && locals[i][Uri] == Str(ext.uri) then [ext] else [])
  }

  lemma {:induction false} CommonIsKnown(exts: seq<HeaderExtension>, locals: seq<Object>)
    requires exts != [] ==> Uris(locals)
    ensures CommonExts(exts, locals) == AllExts(Known(exts, locals))
  {
    hide ExtEntry;
    if exts != [] {
      var n := |exts| - 1;
      CommonIsKnown(exts[..n], locals);
      var before := Known(exts[..n], locals);
      assert AllExts(before + [exts[n]]) == AllExts(before) + [ExtEntry(exts[n])];
      assert Supports(locals, exts[n].uri)
        <==> exists i :: 0 <= i < |locals| && Uri in locals[i] && locals[i][Uri] == Str(exts[n].uri);
    }
  }

  /** The rids the offer sends, as received. */
  function RidLinesOf(rids: seq<Object>): seq<Line> {
    if rids == [] then []
    else
      var rid := rids[|rids| - 1];
      RidLinesOf(rids[..|rids| - 1])
      + (if Direction in rid && rid[Direction] == Str("send") then [Line('a', "rid:" + (TextAt(rid, Id) + " recv"))]
         else [])
  }

  lemma {:induction false} RidsWritten(rids: seq<Object>)
    requires RidLines(rids)
    ensures Entries(RecvRids(rids), RidText) == RidLinesOf(rids)
    ensures forall i :: 0 <= i < |RecvRids(rids)| ==> Bare(RRids, RecvRids(rids)[i])
  {
    hide RidText, TextAt, Bare;
    if rids != [] {
      var n := |rids| - 1;
      RidsWritten(rids[..n]);
      assert RidLine(rids[n]);
      RidWritten(rids[n]);
      EntriesConcat(RecvRids(rids[..n]), if rids[n][Direction].s == "send" then [RecvRid(rids[n])] else [], RidText);
    }
  }

  lemma RidWritten(rid: Object)
    requires RidLine(rid)
    ensures RidText(RecvRid(rid)) == "rid:" + (TextAt(rid, Id) + " recv") && Bare(RRids, RecvRid(rid))
  {
    assert " " + "recv" == " recv";
  }

  // ----- part by part -----

  predicate HasTransport(o: Object, ice: IceParameters, candidates: seq<IceCandidate>) {
    && IceUfrag in o && o[IceUfrag] == Str(ice.usernameFragment) && IcePwd in o && o[IcePwd] == Str(ice.password)
    && Candidates in o && o[Candidates] == Arr(CandidateObjects(candidates))
    && EndOfCandidates in o && o[EndOfCandidates] == Str("end-of-candidates")
    && IceOptions in o && o[IceOptions] == Str("renomination")
  }

  predicate HasHead(o: Object, mid: string, kind: string, protocol: string) {
    && Mid in o && o[Mid] == Str(mid) && Type in o && o[Type] == Str(kind)
    && Protocol in o && o[Protocol] == Str(protocol) && Port in o && o[Port] == Num(7)
    && Connection in o && o[Connection] == Obj(map[Ip := Str("127.0.0.1"), Version := Num(4)])
  }

  predicate HasFormats(o: Object, direction: string, codecs: seq<CodecParameters>) {
    && Direction in o && o[Direction] == Str(direction) && Rtp in o && o[Rtp] == Arr(RtpEntries(codecs))
    && Fmtp in o && o[Fmtp] == Arr(FmtpEntries(codecs)) && RtcpFb in o && o[RtcpFb] == Arr(FeedbackEntries(codecs))
    && Payloads in o && o[Payloads] == Str(PayloadsText(codecs))
  }

  predicate HasMux(o: Object) {
    RtcpMux in o && o[RtcpMux] == Str("rtcp-mux") && RtcpRsize in o && o[RtcpRsize] == Str("rtcp-rsize")
  }

  predicate HasCodecs(o: Object, direction: string, codecs: seq<CodecParameters>) {
    HasFormats(o, direction, codecs) && HasMux(o)
  }

  /** The extensions; the other two members only if they are given. */
  predicate HasExts(o: Object, exts: seq<Object>, mixed: bool) {
    && Ext in o && o[Ext] == Arr(exts)
    && (ExtmapAllowMixed in o <==> mixed) && (mixed ==> o[ExtmapAllowMixed] == Str("extmap-allow-mixed"))
  }

  /** The receiving image of the simulcast an offer may ask for. */
  predicate HasSimulcastOf(o: Object, offer: Object)
    requires HasSimulcast(offer) ==> RidLines(offer[Rids].items) && List1 in offer[Simulcast].fields
  {
    if HasSimulcast(offer) then
      && Simulcast in o && Rids in o && o[Rids] == Arr(RecvRids(offer[Rids].items))
      && o[Simulcast] == Obj(map[Dir1 := Str("recv"), List1 := offer[Simulcast].fields[List1]])
    else Simulcast !in o && Rids !in o
  }

  /** No members of these names. */
  predicate Lacks(o: Object, ks: set<Key>) {
    o.Keys !! ks
  }

  const SESSION_KEYS := {Icelite, Key.Fingerprint, MsidSemantic, Groups}

  predicate SessionFree(o: Object) {
    Lacks(o, SESSION_KEYS)
  }

  lemma HeadTexts(o: Object, mid: string, kind: string, protocol: string, payloads: string)
    requires HasHead(o, mid, kind, protocol) && Payloads in o && o[Payloads] == Str(payloads)
    ensures [Line('m', MediaText(o))] + FieldLine(o, Connection, 'c', ConnectionText)
         == [Line('m', kind + (" 7 " + (protocol + (" " + payloads)))), Line('c', "IN IP4 127.0.0.1")]
  {
    MediaHead(o, mid, kind, protocol, payloads);
    ConnectionHead();
  }

  lemma MediaHead(o: Object, mid: string, kind: string, protocol: string, payloads: string)
    requires HasHead(o, mid, kind, protocol) && Payloads in o && o[Payloads] == Str(payloads)
    ensures MediaText(o) == kind + (" 7 " + (protocol + (" " + payloads)))
  {
    assert Decimal(7) == "7";
    var rest := protocol + (" " + payloads);
    assert " " + ("7" + (" " + rest)) == " 7 " + rest;
  }

  lemma ConnectionHead()
    ensures ConnectionText(map[Ip := Str("127.0.0.1"), Version := Num(4)]) == "IN IP4 127.0.0.1"
  {
    assert Decimal(4) == "4";
  }

  lemma TransportTexts(o: Object, ice: IceParameters, candidates: seq<IceCandidate>)
    requires HasTransport(o, ice, candidates)
    ensures TransportLines(o) == CandidateLines(candidates)
              + [Line('a', "end-of-candidates"), Line('a', "ice-options:renomination")]
    ensures SessionFree(o) ==>
      AccessLines(o) == [Line('a', "ice-ufrag:" + ice.usernameFragment), Line('a', "ice-pwd:" + ice.password)]
  {
    hide CandidateText, CandidateObjects, CandidateOf, Entries;
    CandidatesWritten(candidates);
    assert "" + "end-of-candidates" == "end-of-candidates";
    assert "ice-options:" + "renomination" == "ice-options:renomination";
  }

  lemma CodecTexts(o: Object, direction: string, codecs: seq<CodecParameters>)
    requires HasCodecs(o, direction, codecs)
    ensures EntryLines(o, Rtp, RtpText) == RtpmapLines(codecs) && EntryLines(o, Fmtp, FmtpText) == FmtpLines(codecs)
    ensures EntryLines(o, RtcpFb, RtcpFbText) == FeedbackLines(codecs)
    ensures ValueLine(o, Direction, "") == [Line('a', direction)]
    ensures ValueLine(o, RtcpMux, "") == [Line('a', "rtcp-mux")]
      && ValueLine(o, RtcpRsize, "") == [Line('a', "rtcp-rsize")]
  {
    hide RtpText, FmtpText, RtcpFbText, RtpEntries, FmtpEntries, FeedbackEntries, RtpmapLines, FmtpLines, FeedbackLines,
      Entries, PayloadsText;
    RtpmapsWritten(codecs);
    FmtpsWritten(codecs);
    FeedbacksWritten(codecs);
    assert "" + direction == direction && "" + "rtcp-mux" == "rtcp-mux" && "" + "rtcp-rsize" == "rtcp-rsize";
  }

  // ----- the answer -----

  /** The setup line of an answer: what the remote role leaves to this side. */
  function SetupLines(role: string): seq<Line> {
    if role == "client" then [Line('a', "setup:active")]
    else if role == "server" then [Line('a', "setup:passive")]
    else if role == "auto" then [Line('a', "setup:actpass")]
    else []
  }

  /** The answer to an audio or video section of an offer. */
  ghost function AnswerLines(ice: IceParameters, candidates: seq<IceCandidate>, role: string, offer: Object,
      codecs: seq<CodecParameters>, exts: seq<HeaderExtension>): seq<Line>
    requires HasStr(offer, Type) && HasStr(offer, Protocol) && HasStr(offer, Mid)
    requires HasSimulcast(offer) ==> List1 in offer[Simulcast].fields
  {
    var mixed := if HasStr(offer, ExtmapAllowMixed) then [Line('a', "extmap-allow-mixed")] else [];
    var rids := if HasSimulcast(offer) then RidLinesOf(offer[Rids].items) else [];
    [Line('m', offer[Type].s + (" 7 " + (offer[Protocol].s + (" " + PayloadList(codecs))))),
     Line('c', "IN IP4 127.0.0.1")]
    + ((RtpmapLines(codecs) + FmtpLines(codecs) + FeedbackLines(codecs)
        + ExtmapLines(Known(exts, ItemsOf(Look(offer, Ext)))) + mixed)
       + (SetupLines(role) + [Line('a', "mid:" + offer[Mid].s), Line('a', "recvonly")])
       + [Line('a', "ice-ufrag:" + ice.usernameFragment), Line('a', "ice-pwd:" + ice.password)]
       + (CandidateLines(candidates) + [Line('a', "end-of-candidates"), Line('a', "ice-options:renomination")])
       + []
       + ([Line('a', "rtcp-mux"), Line('a', "rtcp-rsize")] + rids)
       + SimulcastLine(offer))
  }

  /** Other members are the same. */
  predicate SameBut(o: Object, p: Object, ks: set<Key>) {
    forall k :: k !in ks ==> (k in o <==> k in p) && (k in o ==> o[k] == p[k])
  }

  const HEAD_KEYS := {Mid, Type, Protocol, Connection, Port}
  const MEDIA_KEYS := {Direction, Rtp, RtcpFb, Fmtp, Payloads, Ext, ExtmapAllowMixed, Simulcast, Rids, RtcpMux,
    RtcpRsize}

  lemma TransportMade(ice: IceParameters, candidates: seq<IceCandidate>)
    ensures var t := TransportObject(ice, candidates);
      HasTransport(t, ice, candidates) && t.Keys == {IceUfrag, IcePwd, Candidates, EndOfCandidates, IceOptions}
  {
    hide CandidateObjects;
  }

  lemma HeadMade(o: Object, mid: string, kind: string, protocol: string)
    ensures var h := SectionHead(o, Str(mid), kind, Str(protocol));
      HasHead(h, mid, kind, protocol) && SameBut(o, h, HEAD_KEYS)
  {
  }

  /** Active for a client, passive for a server, both for auto. */
  lemma RoleMade(o: Object, role: string)
    ensures var r := WithRole(o, role);
      && SameBut(o, r, {Setup})
      && (Setup !in o ==> ValueLine(r, Setup, "setup:") == SetupLines(role))
  {
    assert "setup:" + "active" == "setup:active" && "setup:" + "passive" == "setup:passive";
    assert "setup:" + "actpass" == "setup:actpass";
  }

  lemma FormatsMade(o: Object, direction: string, codecs: seq<CodecParameters>, exts: Json)
    ensures var c := WithCodecs(o, direction, codecs)[Ext := exts];
      SameBut(o, c, {Direction, Rtp, RtcpFb, Fmtp, Payloads, Ext}) && HasFormats(c, direction, codecs)
      && Ext in c && c[Ext] == exts
  {
    hide RtpEntries, FmtpEntries, FeedbackEntries, PayloadsText;
  }

  lemma MuxMade(o: Object)
    ensures SameBut(o, WithMux(o), {RtcpMux, RtcpRsize}) && HasMux(WithMux(o))
  {
  }

  lemma SimulcastMade(o: Object, offer: Object)
    requires HasSimulcast(offer) ==> RidLines(offer[Rids].items) && List1 in offer[Simulcast].fields
    ensures SameBut(o, WithSimulcast(o, offer), {Simulcast, Rids})
    ensures Simulcast !in o && Rids !in o ==> HasSimulcastOf(WithSimulcast(o, offer), offer)
  {
    hide RecvRids, RidLines;
  }

  // ----- what further members leave alone -----

  lemma KeyKept(o: Object, p: Object, ks: set<Key>, k: Key)
    requires SameBut(o, p, ks) && k !in ks
    ensures (k in o <==> k in p) && (k in o ==> o[k] == p[k])
  {
  }

  lemma TransportKept(o: Object, p: Object, ks: set<Key>, ice: IceParameters, candidates: seq<IceCandidate>)
    requires SameBut(o, p, ks) && HasTransport(o, ice, candidates)
    requires ks !! {IceUfrag, IcePwd, Candidates, EndOfCandidates, IceOptions}
    ensures HasTransport(p, ice, candidates)
  {
    hide CandidateObjects;
  }

  lemma HeadKept(o: Object, p: Object, ks: set<Key>, mid: string, kind: string, protocol: string)
    requires SameBut(o, p, ks) && HasHead(o, mid, kind, protocol) && ks !! HEAD_KEYS
    ensures HasHead(p, mid, kind, protocol)
  {
  }

  lemma LacksKept(o: Object, p: Object, ks: set<Key>, ls: set<Key>)
    requires SameBut(o, p, ks) && Lacks(o, ls) && ks !! ls
    ensures Lacks(p, ls)
  {
  }

  lemma FormatsKept(o: Object, p: Object, ks: set<Key>, direction: string, codecs: seq<CodecParameters>)
    requires SameBut(o, p, ks) && HasFormats(o, direction, codecs) && ks !! {Direction, Rtp, Fmtp, RtcpFb, Payloads}
    ensures HasFormats(p, direction, codecs)
  {
    hide RtpEntries, FmtpEntries, FeedbackEntries, PayloadsText;
  }

  lemma ExtsKept(o: Object, p: Object, ks: set<Key>, exts: seq<Object>, mixed: bool)
    requires SameBut(o, p, ks) && HasExts(o, exts, mixed) && ks !! {Ext, ExtmapAllowMixed}
    ensures HasExts(p, exts, mixed)
  {
  }

  lemma SimulcastKept(o: Object, p: Object, ks: set<Key>, offer: Object)
    requires HasSimulcast(offer) ==> RidLines(offer[Rids].items) && List1 in offer[Simulcast].fields
    requires SameBut(o, p, ks) && HasSimulcastOf(o, offer) && ks !! {Simulcast, Rids}
    ensures HasSimulcastOf(p, offer)
  {
    hide RecvRids, RidLines;
  }

  lemma Kept(o: Object, p: Object, q: Object, ks: set<Key>, ls: set<Key>, all: set<Key>)
    requires SameBut(o, p, ks) && SameBut(p, q, ls) && ks <= all && ls <= all
    ensures SameBut(o, q, all)
  {
  }

  /** What an audio or video answer adds to the head of its section. */
  lemma AnswerMediaHas(o: Object, offer: Object, answer: RtpParameters, options: CodecOptions)
    requires OfferOk(offer, answer) && IsAv(offer[Type].s)
    requires Lacks(o, MEDIA_KEYS)
    ensures var m := AnswerMedia(o, offer, answer, options);
      && SameBut(o, m, MEDIA_KEYS) && HasCodecs(m, "recvonly", ConfiguredAll(answer.codecs, options))
      && HasExts(m, CommonExts(answer.headerExtensions, LocalExts(offer)), HasStr(offer, ExtmapAllowMixed))
      && HasSimulcastOf(m, offer)
  {
    hide WithCodecs, CommonExts, ConfiguredAll, Uris, RidLines, WithMux, WithSimulcast, HasFormats, HasMux, SameBut,
      HasSimulcastOf;
    var codecs, exts := ConfiguredAll(answer.codecs, options), CommonExts(answer.headerExtensions, LocalExts(offer));
    var o1 := WithCodecs(o, "recvonly", codecs)[Ext := Arr(exts)];
    var o2 := if HasStr(offer, ExtmapAllowMixed) then o1[ExtmapAllowMixed := Str("extmap-allow-mixed")] else o1;
    var o3 := WithSimulcast(o2, offer);
    var m := WithMux(o3);
    FormatsMade(o, "recvonly", codecs, Arr(exts));
    KeyKept(o, o1, {Direction, Rtp, RtcpFb, Fmtp, Payloads, Ext}, ExtmapAllowMixed);
    KeyKept(o, o1, {Direction, Rtp, RtcpFb, Fmtp, Payloads, Ext}, Simulcast);
    KeyKept(o, o1, {Direction, Rtp, RtcpFb, Fmtp, Payloads, Ext}, Rids);
    MixedMade(o1, HasStr(offer, ExtmapAllowMixed));
    KeyKept(o1, o2, {ExtmapAllowMixed}, Simulcast);
    KeyKept(o1, o2, {ExtmapAllowMixed}, Rids);
    KeyKept(o1, o2, {ExtmapAllowMixed}, Ext);
    FormatsKept(o1, o2, {ExtmapAllowMixed}, "recvonly", codecs);
    assert HasExts(o2, exts, HasStr(offer, ExtmapAllowMixed));
    SimulcastMade(o2, offer);
    FormatsKept(o2, o3, {Simulcast, Rids}, "recvonly", codecs);
    ExtsKept(o2, o3, {Simulcast, Rids}, exts, HasStr(offer, ExtmapAllowMixed));
    MuxMade(o3);
    FormatsKept(o3, m, {RtcpMux, RtcpRsize}, "recvonly", codecs);
    ExtsKept(o3, m, {RtcpMux, RtcpRsize}, exts, HasStr(offer, ExtmapAllowMixed));
    SimulcastKept(o3, m, {RtcpMux, RtcpRsize}, offer);
    Kept(o, o1, o2, {Direction, Rtp, RtcpFb, Fmtp, Payloads, Ext}, {ExtmapAllowMixed}, MEDIA_KEYS);
    Kept(o, o2, o3, MEDIA_KEYS, {Simulcast, Rids}, MEDIA_KEYS);
    Kept(o, o3, m, MEDIA_KEYS, {RtcpMux, RtcpRsize}, MEDIA_KEYS);
  }

  lemma MixedMade(o: Object, mixed: bool)
    ensures SameBut(o, if mixed then o[ExtmapAllowMixed := Str("extmap-allow-mixed")] else o, {ExtmapAllowMixed})
  {
  }

  const SSRC_KEYS := {Ssrcs, SsrcGroups}
  const OFFER_KEYS := {Direction, Rtp, RtcpFb, Fmtp, Payloads, Ext, ExtmapAllowMixed, Simulcast, Rids, RtcpMux,
    RtcpRsize, Ssrcs, SsrcGroups}

  /** The head of a section: its transport and its m-line, and nothing else. */
  lemma HeadHas(ice: IceParameters, candidates: seq<IceCandidate>, mid: string, kind: string, protocol: string)
    ensures var h := SectionHead(TransportObject(ice, candidates), Str(mid), kind, Str(protocol));
      && HasTransport(h, ice, candidates) && HasHead(h, mid, kind, protocol)
      && Lacks(h, {Setup}) && Lacks(h, MEDIA_KEYS) && Lacks(h, SESSION_KEYS) && Lacks(h, SSRC_KEYS)
  {
    hide TransportObject, SectionHead, HasTransport, HasHead, SameBut;
    var t := TransportObject(ice, candidates);
    var h := SectionHead(t, Str(mid), kind, Str(protocol));
    TransportMade(ice, candidates);
    HeadMade(t, mid, kind, protocol);
    TransportKept(t, h, HEAD_KEYS, ice, candidates);
    HeadLacks(t, h);
  }

  lemma HeadLacks(t: Object, h: Object)
    requires t.Keys == {IceUfrag, IcePwd, Candidates, EndOfCandidates, IceOptions} && SameBut(t, h, HEAD_KEYS)
    ensures Lacks(h, {Setup}) && Lacks(h, MEDIA_KEYS) && Lacks(h, SESSION_KEYS) && Lacks(h, SSRC_KEYS)
  {
    hide SameBut;
    LacksKept(t, h, HEAD_KEYS, {Setup});
    LacksKept(t, h, HEAD_KEYS, MEDIA_KEYS);
    LacksKept(t, h, HEAD_KEYS, SESSION_KEYS);
    LacksKept(t, h, HEAD_KEYS, SSRC_KEYS);
  }

  lemma RoleHas(h: Object, role: string, ice: IceParameters, candidates: seq<IceCandidate>, mid: string, kind: string,
      protocol: string)
    requires HasTransport(h, ice, candidates) && HasHead(h, mid, kind, protocol)
    requires Lacks(h, {Setup}) && Lacks(h, MEDIA_KEYS) && Lacks(h, SESSION_KEYS) && Lacks(h, SSRC_KEYS)
    ensures var r := WithRole(h, role);
      && HasTransport(r, ice, candidates) && HasHead(r, mid, kind, protocol)
      && Lacks(r, MEDIA_KEYS) && Lacks(r, SESSION_KEYS) && Lacks(r, SSRC_KEYS)
      && ValueLine(r, Setup, "setup:") == SetupLines(role)
  {
    hide WithRole, HasTransport, HasHead, SameBut, SetupLines, ValueLine;
    var r := WithRole(h, role);
    RoleMade(h, role);
    TransportKept(h, r, {Setup}, ice, candidates);
    HeadKept(h, r, {Setup}, mid, kind, protocol);
    LacksKept(h, r, {Setup}, MEDIA_KEYS);
    LacksKept(h, r, {Setup}, SESSION_KEYS);
    LacksKept(h, r, {Setup}, SSRC_KEYS);
  }

  /** What an answer's object is made of, part by part. */
  lemma AnswerHas(ice: IceParameters, candidates: seq<IceCandidate>, role: string, sctp: Option<SctpParameters>,
      offer: Object, answer: RtpParameters, options: CodecOptions)
    requires OfferOk(offer, answer) && IsAv(offer[Type].s)
    ensures var o := AnswerObject(ice, candidates, role, sctp, offer, answer, options);
      && HasTransport(o, ice, candidates) && HasHead(o, offer[Mid].s, offer[Type].s, offer[Protocol].s)
      && HasCodecs(o, "recvonly", ConfiguredAll(answer.codecs, options)) && SessionFree(o) && Lacks(o, SSRC_KEYS)
      && HasExts(o, CommonExts(answer.headerExtensions, LocalExts(offer)), HasStr(offer, ExtmapAllowMixed))
      && HasSimulcastOf(o, offer) && ValueLine(o, Setup, "setup:") == SetupLines(role)
  {
    hide TransportObject, SectionHead, WithRole, AnswerMedia, CommonExts, ConfiguredAll, Uris, RidLines, SetupLines,
      HasCodecs, HasTransport, HasHead, SameBut, HasExts, HasSimulcastOf, Lacks;
    var mid, kind, protocol := offer[Mid].s, offer[Type].s, offer[Protocol].s;
    var h := SectionHead(TransportObject(ice, candidates), offer[Mid], kind, offer[Protocol]);
    var r := WithRole(h, role);
    var m := AnswerMedia(r, offer, answer, options);
    HeadHas(ice, candidates, mid, kind, protocol);
    RoleHas(h, role, ice, candidates, mid, kind, protocol);
    AnswerMediaHas(r, offer, answer, options);
    MediaKeeps(r, m, ice, candidates, mid, kind, protocol);
  }

  /** The media members leave the head alone. */
  lemma MediaKeeps(r: Object, m: Object, ice: IceParameters, candidates: seq<IceCandidate>, mid: string, kind: string,
      protocol: string)
    requires HasTransport(r, ice, candidates) && HasHead(r, mid, kind, protocol) && SameBut(r, m, MEDIA_KEYS)
    requires Lacks(r, SESSION_KEYS) && Lacks(r, SSRC_KEYS)
    ensures HasTransport(m, ice, candidates) && HasHead(m, mid, kind, protocol)
    ensures Lacks(m, SESSION_KEYS) && Lacks(m, SSRC_KEYS)
    ensures ValueLine(m, Setup, "setup:") == ValueLine(r, Setup, "setup:")
  {
    hide HasTransport, HasHead, SameBut, Lacks;
    TransportKept(r, m, MEDIA_KEYS, ice, candidates);
    HeadKept(r, m, MEDIA_KEYS, mid, kind, protocol);
    LacksKept(r, m, MEDIA_KEYS, SESSION_KEYS);
    LacksKept(r, m, MEDIA_KEYS, SSRC_KEYS);
    KeyKept(r, m, MEDIA_KEYS, Setup);
  }

  // ----- that is all of it -----

  function SimulcastLine(offer: Object): seq<Line>
    requires HasSimulcast(offer) ==> List1 in offer[Simulcast].fields
  {
    if HasSimulcast(offer) then [Line('a', "simulcast:recv " + TextAt(offer[Simulcast].fields, List1))] else []
  }

  lemma SimulcastTexts(o: Object, offer: Object)
    requires HasSimulcast(offer) ==> RidLines(offer[Rids].items) && List1 in offer[Simulcast].fields
    requires HasSimulcastOf(o, offer)
    ensures EntryLines(o, Rids, RidText) == if HasSimulcast(offer) then RidLinesOf(offer[Rids].items) else []
    ensures FieldLine(o, Simulcast, 'a', SimulcastText) == SimulcastLine(offer)
  {
    hide RidText, RecvRids, Entries, RidLinesOf, RidLines;
    if HasSimulcast(offer) {
      RidsWritten(offer[Rids].items);
      SimulcastWord(offer[Simulcast].fields);
    }
  }

  lemma SimulcastWord(fields: Object)
    requires List1 in fields
    ensures SimulcastText(map[Dir1 := Str("recv"), List1 := fields[List1]]) == "simulcast:recv " + TextAt(fields, List1)
  {
    var list := TextAt(fields, List1);
    assert "simulcast:" + ("recv" + (" " + list)) == "simulcast:recv " + list;
  }

  lemma ExtTexts(o: Object, exts: seq<HeaderExtension>, mixed: bool)
    requires HasExts(o, AllExts(exts), mixed)
    ensures EntryLines(o, Ext, ExtText) == ExtmapLines(exts)
    ensures ValueLine(o, ExtmapAllowMixed, "") == if mixed then [Line('a', "extmap-allow-mixed")] else []
  {
    hide ExtText, AllExts, ExtmapLines, Entries;
    ExtmapsWritten(exts);
    assert "" + "extmap-allow-mixed" == "extmap-allow-mixed";
  }

  /** The lines of a section, group by group. */
  lemma Assembled(o: Object, head: seq<Line>, formats: seq<Line>, states: seq<Line>, access: seq<Line>,
      transport: seq<Line>, sources: seq<Line>, mux: seq<Line>, simulcast: seq<Line>)
    requires [Line('m', MediaText(o))] + FieldLine(o, Connection, 'c', ConnectionText) == head
    requires FormatLines(o) == formats && StateLines(o) == states && AccessLines(o) == access
    requires TransportLines(o) == transport && SourceLines(o) == sources && MuxLines(o) == mux
    requires SimulcastLines(o) == simulcast
    ensures SectionText(o) == head + (formats + states + access + transport + sources + mux + simulcast)
  {
    hide FormatLines, StateLines, AccessLines, TransportLines, SourceLines, MuxLines, SimulcastLines, MediaText,
      FieldLine;
  }

  lemma FormatsTogether(o: Object, direction: string, codecs: seq<CodecParameters>, exts: seq<HeaderExtension>,
      mixed: bool)
    requires HasCodecs(o, direction, codecs) && HasExts(o, AllExts(exts), mixed)
    ensures FormatLines(o) == RtpmapLines(codecs) + FmtpLines(codecs) + FeedbackLines(codecs) + ExtmapLines(exts)
              + (if mixed then [Line('a', "extmap-allow-mixed")] else [])
  {
    hide HasCodecs, HasExts, EntryLines, ValueLine, RtpmapLines, FmtpLines, FeedbackLines, ExtmapLines, AllExts;
    CodecTexts(o, direction, codecs);
    ExtTexts(o, exts, mixed);
  }

  lemma StatesTogether(o: Object, direction: string, codecs: seq<CodecParameters>, mid: string, kind: string,
      protocol: string, setup: seq<Line>)
    requires HasCodecs(o, direction, codecs) && HasHead(o, mid, kind, protocol)
    requires ValueLine(o, Setup, "setup:") == setup
    ensures StateLines(o) == setup + [Line('a', "mid:" + mid), Line('a', direction)]
  {
    hide HasCodecs, HasHead, ValueLine;
    CodecTexts(o, direction, codecs);
    MidText(o, mid, kind, protocol);
    assert setup + [Line('a', "mid:" + mid)] + [Line('a', direction)]
      == setup + [Line('a', "mid:" + mid), Line('a', direction)];
  }

  lemma MuxTogether(o: Object, direction: string, codecs: seq<CodecParameters>, rids: seq<Line>)
    requires HasCodecs(o, direction, codecs) && EntryLines(o, Rids, RidText) == rids
    ensures MuxLines(o) == [Line('a', "rtcp-mux"), Line('a', "rtcp-rsize")] + rids
  {
    hide HasCodecs, ValueLine, EntryLines;
    CodecTexts(o, direction, codecs);
    assert [Line('a', "rtcp-mux")] + [Line('a', "rtcp-rsize")] == [Line('a', "rtcp-mux"), Line('a', "rtcp-rsize")];
  }

  /** The section of an answer is printed as these lines. */
  lemma AnswerText(ice: IceParameters, candidates: seq<IceCandidate>, role: string, sctp: Option<SctpParameters>,
      offer: Object, answer: RtpParameters, options: CodecOptions)
    requires OfferOk(offer, answer) && IsAv(offer[Type].s)
    ensures SectionText(AnswerObject(ice, candidates, role, sctp, offer, answer, options))
         == AnswerLines(ice, candidates, role, offer, ConfiguredAll(answer.codecs, options), answer.headerExtensions)
  {
    hide AnswerObject, ConfiguredAll, CommonExts, Known, Uris, RidLines, SetupLines, HasTransport, HasHead, HasExts,
      HasSimulcastOf, RidLinesOf, Entries, EntryLines, FieldLine, ValueLine, MediaText, TransportLines, AccessLines,
      RtpmapLines, FmtpLines, FeedbackLines, ExtmapLines, CandidateLines, PayloadList, PayloadsText, TextAt, HasCodecs,
      FormatLines, StateLines, SourceLines, MuxLines, SectionText, SimulcastLine, Lacks;
    var o := AnswerObject(ice, candidates, role, sctp, offer, answer, options);
    var codecs, known := ConfiguredAll(answer.codecs, options), Known(answer.headerExtensions, LocalExts(offer));
    AnswerHas(ice, candidates, role, sctp, offer, answer, options);
    CommonIsKnown(answer.headerExtensions, LocalExts(offer));
    FormatsTogether(o, "recvonly", codecs, known, HasStr(offer, ExtmapAllowMixed));
    StatesTogether(o, "recvonly", codecs, offer[Mid].s, offer[Type].s, offer[Protocol].s, SetupLines(role));
    SimulcastTexts(o, offer);
    MuxTogether(o, "recvonly", codecs, if HasSimulcast(offer) then RidLinesOf(offer[Rids].items) else []);
    AnswerAssembled(ice, candidates, role, offer, codecs, answer.headerExtensions, o);
  }

  lemma AnswerAssembled(ice: IceParameters, candidates: seq<IceCandidate>, role: string, offer: Object,
      codecs: seq<CodecParameters>, exts: seq<HeaderExtension>, o: Object)
    requires HasStr(offer, Type) && HasStr(offer, Protocol) && HasStr(offer, Mid)
    requires HasSimulcast(offer) ==> List1 in offer[Simulcast].fields
    requires HasTransport(o, ice, candidates) && HasHead(o, offer[Mid].s, offer[Type].s, offer[Protocol].s)
    requires HasCodecs(o, "recvonly", codecs) && SessionFree(o) && Lacks(o, SSRC_KEYS)
    requires FormatLines(o) == RtpmapLines(codecs) + FmtpLines(codecs) + FeedbackLines(codecs)
               + ExtmapLines(Known(exts, ItemsOf(Look(offer, Ext))))
               + (if HasStr(offer, ExtmapAllowMixed) then [Line('a', "extmap-allow-mixed")] else [])
    requires StateLines(o) == SetupLines(role) + [Line('a', "mid:" + offer[Mid].s), Line('a', "recvonly")]
    requires MuxLines(o) == [Line('a', "rtcp-mux"), Line('a', "rtcp-rsize")]
               + (if HasSimulcast(offer) then RidLinesOf(offer[Rids].items) else [])
    requires SimulcastLines(o) == SimulcastLine(offer)
    ensures SectionText(o) == AnswerLines(ice, candidates, role, offer, codecs, exts)
  {
    hide Known, SetupLines, HasTransport, HasHead, RidLinesOf, MediaText, TransportLines, AccessLines, RtpmapLines,
      FmtpLines, FeedbackLines, ExtmapLines, CandidateLines, PayloadList, PayloadsText, FormatLines, StateLines,
      SourceLines, MuxLines, SectionText, SimulcastLine, SimulcastLines, FieldLine, Lacks;
    PayloadsWritten(codecs);
    HeadTexts(o, offer[Mid].s, offer[Type].s, offer[Protocol].s, PayloadsText(codecs));
    TransportTexts(o, ice, candidates);
    NoOther(o);
    Assembled(o, [Line('m', MediaText(o))] + FieldLine(o, Connection, 'c', ConnectionText), FormatLines(o),
      StateLines(o), AccessLines(o), TransportLines(o), SourceLines(o), MuxLines(o), SimulcastLines(o));
  }

  lemma MidText(o: Object, mid: string, kind: string, protocol: string)
    requires HasHead(o, mid, kind, protocol)
    ensures ValueLine(o, Mid, "mid:") == [Line('a', "mid:" + mid)]
  {
  }

  lemma NoOther(o: Object)
    requires Lacks(o, SESSION_KEYS)
    ensures FieldLine(o, MsidSemantic, 'a', MsidSemanticText) == [] && EntryLines(o, Groups, GroupText) == []
    ensures Lacks(o, SSRC_KEYS) ==> SourceLines(o) == []
  {
    hide MsidSemanticText, GroupText, SsrcText, SsrcGroupText;
    assert MsidSemantic !in o && Groups !in o;
    if Lacks(o, SSRC_KEYS) {
      assert Ssrcs !in o && SsrcGroups !in o;
    }
  }

  // ----- the rule table prints them -----

  const TRANSPORT_KEYS := {IceUfrag, IcePwd, Candidates, EndOfCandidates, IceOptions}

  /** Some of the members are of the kinds that are emitted. */
  predicate AreShown(o: Object, ks: set<Key>) {
    forall k :: k in ks && k in o ==> MemberShown(k, o[k])
  }

  lemma TransportIsShown(o: Object, ice: IceParameters, candidates: seq<IceCandidate>)
    requires HasTransport(o, ice, candidates)
    ensures AreShown(o, TRANSPORT_KEYS)
  {
    hide RuleFor, CandidateObjects, Bare;
    MediaTokens.TransportRules();
    MediaTokens.CandidateRules();
    CandidatesWritten(candidates);
  }

  lemma HeadIsShown(o: Object, mid: string, kind: string, protocol: string)
    requires HasHead(o, mid, kind, protocol)
    ensures AreShown(o, HEAD_KEYS)
  {
    hide RuleFor;
    MediaTokens.HeadRules();
    MediaTokens.LineRules();
    ConnectionShown();
  }

  lemma ConnectionShown()
    ensures ValueShown(RConnection, Obj(map[Ip := Str("127.0.0.1"), Version := Num(4)]))
  {
  }

  lemma FormatsAreShown(o: Object, direction: string, codecs: seq<CodecParameters>)
    requires HasCodecs(o, direction, codecs)
    ensures AreShown(o, {Direction, Rtp, Fmtp, RtcpFb, Payloads, RtcpMux, RtcpRsize})
  {
    hide RuleFor, RtpEntries, FmtpEntries, FeedbackEntries, PayloadsText;
    MediaTokens.RoleRules();
    MediaTokens.CodecRules();
    MediaTokens.LineRules();
    MediaTokens.FlagRules();
    AlwaysBare();
  }

  lemma AlwaysBare()
    ensures forall o: Object :: Bare(RRtp, o) && Bare(RFmtp, o) && Bare(RRtcpFb, o) && Bare(RSsrcs, o)
    ensures forall o: Object :: Bare(RSsrcGroups, o)
  {
  }

  lemma ExtsAreShown(o: Object, exts: seq<HeaderExtension>, mixed: bool)
    requires HasExts(o, AllExts(exts), mixed)
    ensures AreShown(o, {Ext, ExtmapAllowMixed})
  {
    hide RuleFor, Bare, AllExts;
    MediaTokens.ExtRule();
    MediaTokens.FlagRules();
    ExtmapsWritten(exts);
  }

  lemma SimulcastIsShown(o: Object, offer: Object)
    requires HasSimulcast(offer) ==> RidLines(offer[Rids].items) && List1 in offer[Simulcast].fields
    requires HasSimulcastOf(o, offer)
    ensures AreShown(o, {Simulcast, Rids})
  {
    hide RuleFor, RecvRids, RidLines, Bare, IsEmitted, Names;
    MediaTokens.SimulcastRules();
    if HasSimulcast(offer) {
      RidsWritten(offer[Rids].items);
      SimulcastValueShown(offer[Simulcast].fields[List1]);
      RidValuesShown(RecvRids(offer[Rids].items));
    }
  }

  lemma RidValuesShown(rids: seq<Object>)
    requires forall i :: 0 <= i < |rids| ==> Bare(RRids, rids[i])
    ensures ValueShown(RRids, Arr(rids))
  {
    hide Bare;
  }

  lemma SimulcastValueShown(list: Json)
    ensures ValueShown(RSimulcast, Obj(map[Dir1 := Str("recv"), List1 := list]))
  {
  }

  lemma SetupIsShown(o: Object)
    requires Setup in o ==> o[Setup].Str?
    ensures AreShown(o, {Setup})
  {
    hide RuleFor;
    MediaTokens.RoleRules();
  }

  lemma SsrcsAreShown(o: Object)
    requires HasArr(o, Ssrcs) && HasArr(o, SsrcGroups)
    ensures AreShown(o, SSRC_KEYS)
  {
    hide RuleFor;
    MediaTokens.SsrcRules();
    AlwaysBare();
  }

  lemma SctpIsShown(o: Object)
    ensures AreShown(o, {SctpPort, MaxMessageSize, Payloads})
  {
    hide RuleFor;
    MediaTokens.LineRules();
  }

  lemma AllAreShown(o: Object, ks: set<Key>)
    requires AreShown(o, ks) && o.Keys <= ks
    ensures MembersShown(o)
  {
    hide MemberShown;
  }

  lemma ShownTogether(o: Object, ks: set<Key>, ls: set<Key>)
    requires AreShown(o, ks) && AreShown(o, ls)
    ensures AreShown(o, ks + ls)
  {
    hide MemberShown;
  }

  lemma OnlyKept(o: Object, p: Object, ks: set<Key>, ls: set<Key>)
    requires SameBut(o, p, ks) && o.Keys <= ls
    ensures p.Keys <= ls + ks
  {
  }

  const SECTION_KEYS := TRANSPORT_KEYS + HEAD_KEYS + {Setup} + MEDIA_KEYS

  lemma SetupMade(o: Object, role: string)
    requires Setup !in o
    ensures var r := WithRole(o, role); Setup in r ==> r[Setup].Str?
  {
  }

  lemma AnswerKeys(ice: IceParameters, candidates: seq<IceCandidate>, role: string, sctp: Option<SctpParameters>,
      offer: Object, answer: RtpParameters, options: CodecOptions)
    requires OfferOk(offer, answer) && IsAv(offer[Type].s)
    ensures var o := AnswerObject(ice, candidates, role, sctp, offer, answer, options);
      o.Keys <= SECTION_KEYS && (Setup in o ==> o[Setup].Str?)
  {
    hide TransportObject, SectionHead, WithRole, AnswerMedia, HasTransport, HasHead, SameBut, HasCodecs, HasExts,
      HasSimulcastOf, CommonExts, ConfiguredAll, Lacks, Uris, RidLines, HasSimulcast, LocalExts, ValueLine, SetupLines;
    var t := TransportObject(ice, candidates);
    var h := SectionHead(t, offer[Mid], offer[Type].s, offer[Protocol]);
    var r := WithRole(h, role);
    var m := AnswerMedia(r, offer, answer, options);
    TransportMade(ice, candidates);
    HeadMade(t, offer[Mid].s, offer[Type].s, offer[Protocol].s);
    HeadHas(ice, candidates, offer[Mid].s, offer[Type].s, offer[Protocol].s);
    NoSetup(h);
    RoleHas(h, role, ice, candidates, offer[Mid].s, offer[Type].s, offer[Protocol].s);
    RoleMade(h, role);
    SetupMade(h, role);
    AnswerMediaHas(r, offer, answer, options);
    AnswerKeysGrow(t, h, r, m);
  }

  lemma AnswerKeysGrow(t: Object, h: Object, r: Object, m: Object)
    requires t.Keys <= TRANSPORT_KEYS && SameBut(t, h, HEAD_KEYS) && SameBut(h, r, {Setup})
    requires SameBut(r, m, MEDIA_KEYS)
    ensures m.Keys <= SECTION_KEYS && (Setup in m <==> Setup in r) && (Setup in r ==> m[Setup] == r[Setup])
  {
    hide SameBut;
    OnlyKept(t, h, HEAD_KEYS, TRANSPORT_KEYS);
    OnlyKept(h, r, {Setup}, TRANSPORT_KEYS + HEAD_KEYS);
    OnlyKept(r, m, MEDIA_KEYS, TRANSPORT_KEYS + HEAD_KEYS + {Setup});
    KeyKept(r, m, MEDIA_KEYS, Setup);
  }

  lemma NoSetup(o: Object)
    requires Lacks(o, {Setup})
    ensures Setup !in o
  {
    assert Setup in {Setup};
  }

  /** An answer is printed line by line as its inputs say. */
  lemma AnswerWritten(ice: IceParameters, candidates: seq<IceCandidate>, role: string, sctp: Option<SctpParameters>,
      offer: Object, answer: RtpParameters, options: CodecOptions)
    requires OfferOk(offer, answer) && IsAv(offer[Type].s)
    ensures SectionLines(AnswerObject(ice, candidates, role, sctp, offer, answer, options))
         == AnswerLines(ice, candidates, role, offer, ConfiguredAll(answer.codecs, options), answer.headerExtensions)
  {
    hide AnswerObject, ConfiguredAll, CommonExts, Known, Uris, RidLines, HasTransport, HasHead, HasExts, HasSimulcastOf,
      HasCodecs, SectionText, SectionLines, Lacks, AnswerLines, AreShown, MembersShown, ValueLine, SetupLines;
    var o := AnswerObject(ice, candidates, role, sctp, offer, answer, options);
    AnswerHas(ice, candidates, role, sctp, offer, answer, options);
    AnswerKeys(ice, candidates, role, sctp, offer, answer, options);
    CommonIsKnown(answer.headerExtensions, LocalExts(offer));
    TransportIsShown(o, ice, candidates);
    HeadIsShown(o, offer[Mid].s, offer[Type].s, offer[Protocol].s);
    SetupIsShown(o);
    MediaIsShown(o, "recvonly", ConfiguredAll(answer.codecs, options), Known(answer.headerExtensions, LocalExts(offer)),
      HasStr(offer, ExtmapAllowMixed));
    SimulcastIsShown(o, offer);
    PartsShown(o);
    SectionPrinted(o);
    AnswerText(ice, candidates, role, sctp, offer, answer, options);
  }

  lemma MediaIsShown(o: Object, direction: string, codecs: seq<CodecParameters>, exts: seq<HeaderExtension>,
      mixed: bool)
    requires HasCodecs(o, direction, codecs) && HasExts(o, AllExts(exts), mixed)
    ensures AreShown(o, {Direction, Rtp, Fmtp, RtcpFb, Payloads, RtcpMux, RtcpRsize, Ext, ExtmapAllowMixed})
  {
    hide HasCodecs, HasExts, AreShown, AllExts;
    FormatsAreShown(o, direction, codecs);
    ExtsAreShown(o, exts, mixed);
    ShownTogether(o, {Direction, Rtp, Fmtp, RtcpFb, Payloads, RtcpMux, RtcpRsize}, {Ext, ExtmapAllowMixed});
    assert {Direction, Rtp, Fmtp, RtcpFb, Payloads, RtcpMux, RtcpRsize} + {Ext, ExtmapAllowMixed}
      == {Direction, Rtp, Fmtp, RtcpFb, Payloads, RtcpMux, RtcpRsize, Ext, ExtmapAllowMixed};
  }

  lemma PartsShown(o: Object)
    requires o.Keys <= SECTION_KEYS && AreShown(o, TRANSPORT_KEYS) && AreShown(o, HEAD_KEYS) && AreShown(o, {Setup})
    requires AreShown(o, {Direction, Rtp, Fmtp, RtcpFb, Payloads, RtcpMux, RtcpRsize, Ext, ExtmapAllowMixed})
    requires AreShown(o, {Simulcast, Rids})
    ensures MembersShown(o)
  {
    hide MemberShown;
  }

  // ----- the offer -----

  /** The lines that tie one or two SSRCs to the cname and the stream; none without a cname. */
  function SourcesOf(ssrc: nat, rtx: nat, cname: Option<string>, msid: string): seq<Line> {
    if cname.None? then []
    else
      [Line('a', SsrcOf(ssrc, "cname", cname.value)), Line('a', SsrcOf(ssrc, "msid", msid))]
      + (if rtx == 0 then []
         else [Line('a', SsrcOf(rtx, "cname", cname.value)), Line('a', SsrcOf(rtx, "msid", msid)),
               Line('a', "ssrc-group:FID " + (Digits(ssrc) + (" " + Digits(rtx))))])
  }

  /** An offer of audio or video. */
  function OfferLines(ice: IceParameters, candidates: seq<IceCandidate>, protocol: string, mid: string, kind: string,
      rtp: RtpParameters, msid: string): seq<Line>
    requires RtpOfferOk(rtp)
  {
    var e := rtp.encodings[0];
    [Line('m', kind + (" 7 " + (protocol + (" " + PayloadList(rtp.codecs))))), Line('c', "IN IP4 127.0.0.1")]
    + ((RtpmapLines(rtp.codecs) + FmtpLines(rtp.codecs) + FeedbackLines(rtp.codecs) + ExtmapLines(rtp.headerExtensions)
        + [])
       + ([Line('a', "setup:actpass")] + [Line('a', "mid:" + mid), Line('a', "sendonly")])
       + [Line('a', "ice-ufrag:" + ice.usernameFragment), Line('a', "ice-pwd:" + ice.password)]
       + (CandidateLines(candidates) + [Line('a', "end-of-candidates"), Line('a', "ice-options:renomination")])
       + SourcesOf(e.ssrc.value % TWO_32, if e.rtxSsrc.Some? then e.rtxSsrc.value % TWO_32 else 0, rtp.cname, msid)
       + ([Line('a', "rtcp-mux"), Line('a', "rtcp-rsize")] + [])
       + [])
  }

  predicate HasSources(o: Object, ssrc: nat, rtx: nat, cname: Option<string>, msid: string) {
    && Ssrcs in o && SsrcGroups in o
    && o[Ssrcs] == Arr(if cname.Some? then OfferSsrcs(ssrc, rtx, cname.value, msid) else [])
    && o[SsrcGroups] == Arr(if cname.Some? then OfferGroups(ssrc, rtx) else [])
  }

  lemma SsrcsMade(o: Object, e: EncodingParameters, cname: Option<string>, msid: string)
    requires e.ssrc.Some?
    ensures var s := WithSsrcs(o, e, cname, msid);
      && SameBut(o, s, SSRC_KEYS)
      && HasSources(s, e.ssrc.value % TWO_32, if e.rtxSsrc.Some? then e.rtxSsrc.value % TWO_32 else 0, cname, msid)
  {
    hide OfferSsrcs, OfferGroups;
  }

  lemma SourceTexts(o: Object, ssrc: nat, rtx: nat, cname: Option<string>, msid: string)
    requires HasSources(o, ssrc, rtx, cname, msid) && Lacks(o, SESSION_KEYS)
    ensures SourceLines(o) == SourcesOf(ssrc, rtx, cname, msid)
  {
    hide SsrcText, SsrcGroupText, SsrcOf, OfferSsrcs, OfferGroups, GroupText, MsidSemanticText;
    NoOther(o);
    if cname.Some? {
      SsrcEntries(ssrc, rtx, cname.value, msid);
      GroupEntries(ssrc, rtx);
    }
  }

  lemma SsrcEntries(ssrc: nat, rtx: nat, cname: string, msid: string)
    ensures Entries(OfferSsrcs(ssrc, rtx, cname, msid), SsrcText)
         == [Line('a', SsrcOf(ssrc, "cname", cname)), Line('a', SsrcOf(ssrc, "msid", msid))]
            + (if rtx == 0 then [] else [Line('a', SsrcOf(rtx, "cname", cname)), Line('a', SsrcOf(rtx, "msid", msid))])
  {
    hide SsrcText, SsrcOf, SsrcLine;
    SsrcLineWritten(ssrc, "cname", cname);
    SsrcLineWritten(ssrc, "msid", msid);
    SsrcLineWritten(rtx, "cname", cname);
    SsrcLineWritten(rtx, "msid", msid);
  }

  lemma GroupEntries(ssrc: nat, rtx: nat)
    ensures Entries(OfferGroups(ssrc, rtx), SsrcGroupText)
         == if rtx == 0 then [] else [Line('a', "ssrc-group:FID " + (Digits(ssrc) + (" " + Digits(rtx))))]
  {
    hide SsrcGroupText, Digits;
    GroupWritten(ssrc, rtx);
  }

  lemma GroupWritten(ssrc: nat, rtx: nat)
    ensures SsrcGroupText(GroupOf("FID", FidText(ssrc, rtx))) == "ssrc-group:FID "
      + (Digits(ssrc) + (" " + Digits(rtx)))
  {
    hide Digits;
    var text := Digits(ssrc) + (" " + Digits(rtx));
    assert "ssrc-group:" + ("FID" + (" " + text)) == "ssrc-group:FID " + text;
  }

  lemma ActpassMade(h: Object)
    ensures var a := h[Setup := Str("actpass")];
      SameBut(h, a, {Setup}) && ValueLine(a, Setup, "setup:") == [Line('a', "setup:actpass")] && a[Setup].Str?
  {
    assert "setup:" + "actpass" == "setup:actpass";
  }

  /** What audio or video adds to the head of an offer. */
  lemma OfferMediaHas(o: Object, rtp: RtpParameters, msid: string)
    requires RtpOfferOk(rtp) && Lacks(o, MEDIA_KEYS)
    ensures var m, e := OfferMedia(o, rtp, msid), rtp.encodings[0];
      && SameBut(o, m, OFFER_KEYS) && HasCodecs(m, "sendonly", rtp.codecs)
      && HasExts(m, AllExts(rtp.headerExtensions), false) && Lacks(m, {Simulcast, Rids})
      && HasSources(m, e.ssrc.value % TWO_32, if e.rtxSsrc.Some? then e.rtxSsrc.value % TWO_32 else 0, rtp.cname, msid)
  {
    hide WithCodecs, WithMux, WithSsrcs, HasFormats, HasMux, HasSources, SameBut, AllExts;
    var exts := AllExts(rtp.headerExtensions);
    var o1 := WithCodecs(o, "sendonly", rtp.codecs)[Ext := Arr(exts)];
    var o2 := WithMux(o1);
    var m := WithSsrcs(o2, rtp.encodings[0], rtp.cname, msid);
    FormatsMade(o, "sendonly", rtp.codecs, Arr(exts));
    NoStreams(o);
    KeyKept(o, o1, {Direction, Rtp, RtcpFb, Fmtp, Payloads, Ext}, ExtmapAllowMixed);
    LacksKept(o, o1, {Direction, Rtp, RtcpFb, Fmtp, Payloads, Ext}, {Simulcast, Rids});
    MuxMade(o1);
    FormatsKept(o1, o2, {RtcpMux, RtcpRsize}, "sendonly", rtp.codecs);
    ExtsKept(o1, o2, {RtcpMux, RtcpRsize}, exts, false);
    LacksKept(o1, o2, {RtcpMux, RtcpRsize}, {Simulcast, Rids});
    SsrcsMade(o2, rtp.encodings[0], rtp.cname, msid);
    FormatsKept(o2, m, SSRC_KEYS, "sendonly", rtp.codecs);
    MuxKept(o2, m, SSRC_KEYS);
    ExtsKept(o2, m, SSRC_KEYS, exts, false);
    LacksKept(o2, m, SSRC_KEYS, {Simulcast, Rids});
    Kept(o, o1, o2, {Direction, Rtp, RtcpFb, Fmtp, Payloads, Ext}, {RtcpMux, RtcpRsize}, OFFER_KEYS);
    Kept(o, o2, m, OFFER_KEYS, SSRC_KEYS, OFFER_KEYS);
  }

  lemma NoStreams(o: Object)
    requires Lacks(o, MEDIA_KEYS)
    ensures Lacks(o, {Simulcast, Rids}) && ExtmapAllowMixed !in o
  {
    assert Simulcast in MEDIA_KEYS && Rids in MEDIA_KEYS && ExtmapAllowMixed in MEDIA_KEYS;
  }

  lemma MuxKept(o: Object, p: Object, ks: set<Key>)
    requires SameBut(o, p, ks) && HasMux(o) && ks !! {RtcpMux, RtcpRsize}
    ensures HasMux(p)
  {
  }

  /** What an offer's object is made of, part by part. */
  lemma OfferHas(ice: IceParameters, candidates: seq<IceCandidate>, sctp: Option<SctpParameters>, mid: string,
      kind: string, rtp: RtpParameters, msid: string)
    requires IsAv(kind) && RtpOfferOk(rtp)
    ensures var o, e := OfferObject(ice, candidates, sctp, mid, kind, rtp, msid), rtp.encodings[0];
      && HasTransport(o, ice, candidates) && HasHead(o, mid, kind, OfferProtocol(sctp))
      && HasCodecs(o, "sendonly", rtp.codecs) && HasExts(o, AllExts(rtp.headerExtensions), false)
      && Lacks(o, {Simulcast, Rids}) && SessionFree(o)
      && HasSources(o, e.ssrc.value % TWO_32, if e.rtxSsrc.Some? then e.rtxSsrc.value % TWO_32 else 0, rtp.cname, msid)
      && ValueLine(o, Setup, "setup:") == [Line('a', "setup:actpass")] && Setup in o && o[Setup].Str?
      && o.Keys <= SECTION_KEYS + SSRC_KEYS
  {
    hide TransportObject, SectionHead, OfferMedia, HasTransport, HasHead, HasCodecs, HasExts, SameBut, Lacks,
      HasSources, ValueLine, AllExts, OfferProtocol;
    var t, protocol := TransportObject(ice, candidates), OfferProtocol(sctp);
    var h := SectionHead(t, Str(mid), kind, Str(protocol));
    var a := h[Setup := Str("actpass")];
    var m := OfferMedia(a, rtp, msid);
    TransportMade(ice, candidates);
    HeadMade(t, mid, kind, protocol);
    HeadHas(ice, candidates, mid, kind, protocol);
    ActpassMade(h);
    OfferHeadKept(h, a, ice, candidates, mid, kind, protocol);
    OfferMediaHas(a, rtp, msid);
    OfferKeeps(t, h, a, m, ice, candidates, mid, kind, protocol);
  }

  lemma OfferHeadKept(h: Object, a: Object, ice: IceParameters, candidates: seq<IceCandidate>, mid: string,
      kind: string, protocol: string)
    requires HasTransport(h, ice, candidates) && HasHead(h, mid, kind, protocol) && SameBut(h, a, {Setup})
    requires Lacks(h, MEDIA_KEYS) && Lacks(h, SESSION_KEYS) && Lacks(h, SSRC_KEYS)
    ensures HasTransport(a, ice, candidates) && HasHead(a, mid, kind, protocol)
    ensures Lacks(a, MEDIA_KEYS) && Lacks(a, SESSION_KEYS) && Lacks(a, SSRC_KEYS)
  {
    hide HasTransport, HasHead, SameBut, Lacks;
    TransportKept(h, a, {Setup}, ice, candidates);
    HeadKept(h, a, {Setup}, mid, kind, protocol);
    LacksKept(h, a, {Setup}, MEDIA_KEYS);
    LacksKept(h, a, {Setup}, SESSION_KEYS);
    LacksKept(h, a, {Setup}, SSRC_KEYS);
  }

  lemma OfferKeeps(t: Object, h: Object, a: Object, m: Object, ice: IceParameters, candidates: seq<IceCandidate>,
      mid: string, kind: string, protocol: string)
    requires t.Keys <= TRANSPORT_KEYS && SameBut(t, h, HEAD_KEYS) && SameBut(h, a, {Setup})
    requires SameBut(a, m, OFFER_KEYS)
    requires HasTransport(a, ice, candidates) && HasHead(a, mid, kind, protocol) && Lacks(a, SESSION_KEYS)
    ensures HasTransport(m, ice, candidates) && HasHead(m, mid, kind, protocol) && Lacks(m, SESSION_KEYS)
    ensures (Setup in a <==> Setup in m) && (Setup in a ==> m[Setup] == a[Setup])
    ensures ValueLine(m, Setup, "setup:") == ValueLine(a, Setup, "setup:") && m.Keys <= SECTION_KEYS + SSRC_KEYS
  {
    hide HasTransport, HasHead, SameBut, Lacks;
    TransportKept(a, m, OFFER_KEYS, ice, candidates);
    HeadKept(a, m, OFFER_KEYS, mid, kind, protocol);
    SetupKept(a, m);
    KeysGrow(t, h, a, m);
  }

  lemma SetupKept(a: Object, m: Object)
    requires SameBut(a, m, OFFER_KEYS) && Lacks(a, SESSION_KEYS)
    ensures (Setup in a <==> Setup in m) && (Setup in a ==> m[Setup] == a[Setup]) && Lacks(m, SESSION_KEYS)
  {
    hide SameBut, Lacks;
    LacksKept(a, m, OFFER_KEYS, SESSION_KEYS);
    KeyKept(a, m, OFFER_KEYS, Setup);
  }

  lemma KeysGrow(t: Object, h: Object, a: Object, m: Object)
    requires t.Keys <= TRANSPORT_KEYS && SameBut(t, h, HEAD_KEYS) && SameBut(h, a, {Setup})
    requires SameBut(a, m, OFFER_KEYS)
    ensures m.Keys <= SECTION_KEYS + SSRC_KEYS
  {
    hide SameBut;
    OnlyKept(t, h, HEAD_KEYS, TRANSPORT_KEYS);
    OnlyKept(h, a, {Setup}, TRANSPORT_KEYS + HEAD_KEYS);
    OnlyKept(a, m, OFFER_KEYS, TRANSPORT_KEYS + HEAD_KEYS + {Setup});
  }

  /** An offer is printed line by line as its inputs say. */
  lemma OfferWritten(ice: IceParameters, candidates: seq<IceCandidate>, sctp: Option<SctpParameters>, mid: string,
      kind: string, rtp: RtpParameters, msid: string)
    requires IsAv(kind) && RtpOfferOk(rtp)
    ensures SectionLines(OfferObject(ice, candidates, sctp, mid, kind, rtp, msid))
         == OfferLines(ice, candidates, if sctp.None? then "UDP/TLS/RTP/SAVPF" else "UDP/DTLS/SCTP", mid, kind,
           rtp, msid)
  {
    hide OfferObject, HasTransport, HasHead, HasCodecs, HasExts, HasSources, Lacks, SectionLines, SectionText,
      OfferLines, AreShown, MembersShown, ValueLine, AllExts;
    var o := OfferObject(ice, candidates, sctp, mid, kind, rtp, msid);
    var protocol := OfferProtocol(sctp);
    ProtocolIs(sctp);
    OfferHas(ice, candidates, sctp, mid, kind, rtp, msid);
    SourcesAreArrays(o, rtp, msid);
    OfferShown(o, ice, candidates, mid, kind, protocol, rtp, msid);
    SectionPrinted(o);
    OfferText(o, ice, candidates, mid, kind, protocol, rtp, msid);
  }

  lemma ProtocolIs(sctp: Option<SctpParameters>)
    ensures OfferProtocol(sctp) == if sctp.None? then "UDP/TLS/RTP/SAVPF" else "UDP/DTLS/SCTP"
  {
  }

  lemma SourcesAreArrays(o: Object, rtp: RtpParameters, msid: string)
    requires RtpOfferOk(rtp)
    requires var e := rtp.encodings[0];
      HasSources(o, e.ssrc.value % TWO_32, if e.rtxSsrc.Some? then e.rtxSsrc.value % TWO_32 else 0, rtp.cname, msid)
    ensures HasArr(o, Ssrcs) && HasArr(o, SsrcGroups)
  {
  }

  lemma OfferShown(o: Object, ice: IceParameters, candidates: seq<IceCandidate>, mid: string, kind: string,
      protocol: string, rtp: RtpParameters, msid: string)
    requires RtpOfferOk(rtp) && HasTransport(o, ice, candidates) && HasHead(o, mid, kind, protocol)
    requires HasCodecs(o, "sendonly", rtp.codecs) && HasExts(o, AllExts(rtp.headerExtensions), false)
    requires Lacks(o, {Simulcast, Rids}) && Setup in o && o[Setup].Str? && HasArr(o, Ssrcs) && HasArr(o, SsrcGroups)
    requires o.Keys <= SECTION_KEYS + SSRC_KEYS
    ensures MembersShown(o)
  {
    hide HasTransport, HasHead, HasCodecs, HasExts, AreShown, AllExts;
    TransportIsShown(o, ice, candidates);
    HeadIsShown(o, mid, kind, protocol);
    SetupIsShown(o);
    MediaIsShown(o, "sendonly", rtp.codecs, rtp.headerExtensions, false);
    SsrcsAreShown(o);
    OfferPartsShown(o);
  }

  lemma OfferPartsShown(o: Object)
    requires o.Keys <= SECTION_KEYS + SSRC_KEYS && Lacks(o, {Simulcast, Rids})
    requires AreShown(o, TRANSPORT_KEYS) && AreShown(o, HEAD_KEYS) && AreShown(o, {Setup}) && AreShown(o, SSRC_KEYS)
    requires AreShown(o, {Direction, Rtp, Fmtp, RtcpFb, Payloads, RtcpMux, RtcpRsize, Ext, ExtmapAllowMixed})
    ensures MembersShown(o)
  {
    hide MemberShown;
    assert Simulcast !in o && Rids !in o;
  }

  lemma OfferText(o: Object, ice: IceParameters, candidates: seq<IceCandidate>, mid: string, kind: string,
      protocol: string, rtp: RtpParameters, msid: string)
    requires RtpOfferOk(rtp) && HasTransport(o, ice, candidates) && HasHead(o, mid, kind, protocol)
    requires HasCodecs(o, "sendonly", rtp.codecs) && HasExts(o, AllExts(rtp.headerExtensions), false)
    requires Lacks(o, {Simulcast, Rids}) && SessionFree(o)
    requires ValueLine(o, Setup, "setup:") == [Line('a', "setup:actpass")]
    requires var e := rtp.encodings[0];
      HasSources(o, e.ssrc.value % TWO_32, if e.rtxSsrc.Some? then e.rtxSsrc.value % TWO_32 else 0, rtp.cname, msid)
    ensures SectionText(o) == OfferLines(ice, candidates, protocol, mid, kind, rtp, msid)
  {
    hide HasTransport, HasHead, HasExts, HasSources, Lacks, MediaText, TransportLines, AccessLines, RtpmapLines,
      FmtpLines, FeedbackLines, ExtmapLines, CandidateLines, PayloadList, PayloadsText, FormatLines, StateLines,
      SourceLines, MuxLines, SectionText, SimulcastLines, FieldLine, EntryLines, ValueLine, SourcesOf, AllExts;
    var e := rtp.encodings[0];
    PayloadsWritten(rtp.codecs);
    HeadTexts(o, mid, kind, protocol, PayloadsText(rtp.codecs));
    FormatsTogether(o, "sendonly", rtp.codecs, rtp.headerExtensions, false);
    StatesTogether(o, "sendonly", rtp.codecs, mid, kind, protocol, [Line('a', "setup:actpass")]);
    TransportTexts(o, ice, candidates);
    SourceTexts(o, e.ssrc.value % TWO_32, if e.rtxSsrc.Some? then e.rtxSsrc.value % TWO_32 else 0, rtp.cname, msid);
    NoSimulcast(o);
    MuxTogether(o, "sendonly", rtp.codecs, []);
    Assembled(o, [Line('m', MediaText(o))] + FieldLine(o, Connection, 'c', ConnectionText), FormatLines(o),
      StateLines(o), AccessLines(o), TransportLines(o), SourceLines(o), MuxLines(o), SimulcastLines(o));
  }

  lemma NoSimulcast(o: Object)
    requires Lacks(o, {Simulcast, Rids})
    ensures EntryLines(o, Rids, RidText) == [] && SimulcastLines(o) == []
  {
    assert Simulcast !in o && Rids !in o;
  }

  // ----- data channels -----

  /** The application section of an offer or an answer; nothing is said about a direction. */
  function DataLines(ice: IceParameters, candidates: seq<IceCandidate>, setup: seq<Line>, mid: string,
      protocol: string): seq<Line> {
    [Line('m', "application" + (" 7 " + (protocol + (" " + "webrtc-datachannel")))), Line('c', "IN IP4 127.0.0.1")]
    + ([] + (setup + [Line('a', "mid:" + mid)])
       + [Line('a', "ice-ufrag:" + ice.usernameFragment), Line('a', "ice-pwd:" + ice.password)]
       + (CandidateLines(candidates) + [Line('a', "end-of-candidates"), Line('a', "ice-options:renomination")])
       + [] + [] + [])
  }

  lemma SctpMade(o: Object, sctp: SctpParameters)
    ensures var s := WithSctp(o, sctp);
      && SameBut(o, s, {Payloads, SctpPort, MaxMessageSize})
      && Payloads in s && s[Payloads] == Str("webrtc-datachannel") && s[SctpPort] == Num(sctp.port)
      && s[MaxMessageSize] == Num(sctp.maxMessageSize)
  {
  }

  /** A head with a setup line becomes an application section. */
  lemma DataText(h: Object, sctp: SctpParameters, ice: IceParameters, candidates: seq<IceCandidate>, mid: string,
      protocol: string, setup: seq<Line>)
    requires HasTransport(h, ice, candidates) && HasHead(h, mid, "application", protocol)
    requires Lacks(h, MEDIA_KEYS) && Lacks(h, SESSION_KEYS) && Lacks(h, SSRC_KEYS)
    requires ValueLine(h, Setup, "setup:") == setup && (Setup in h ==> h[Setup].Str?)
    requires h.Keys <= TRANSPORT_KEYS + HEAD_KEYS + {Setup}
    ensures SectionLines(WithSctp(h, sctp)) == DataLines(ice, candidates, setup, mid, protocol)
  {
    hide HasTransport, HasHead, Lacks, MediaText, TransportLines, AccessLines, CandidateLines, FormatLines, StateLines,
      SourceLines, MuxLines, SectionText, SimulcastLines, FieldLine, ValueLine, SectionLines, WithSctp, SameBut,
        AreShown,
      MembersShown;
    var s, ks := WithSctp(h, sctp), {Payloads, SctpPort, MaxMessageSize};
    SctpMade(h, sctp);
    TransportKept(h, s, ks, ice, candidates);
    HeadKept(h, s, ks, mid, "application", protocol);
    KeyKept(h, s, ks, Setup);
    OnlyKept(h, s, ks, TRANSPORT_KEYS + HEAD_KEYS + {Setup});
    DataLacks(h, s);
    TransportIsShown(s, ice, candidates);
    HeadIsShown(s, mid, "application", protocol);
    SetupIsShown(s);
    SctpIsShown(s);
    DataShown(s);
    SectionPrinted(s);
    HeadTexts(s, mid, "application", protocol, "webrtc-datachannel");
    MidText(s, mid, "application", protocol);
    SetupSame(h, s);
    TransportTexts(s, ice, candidates);
    NoOther(s);
    NoMedia(s, setup, mid);
    Assembled(s, [Line('m', MediaText(s))] + FieldLine(s, Connection, 'c', ConnectionText), FormatLines(s),
      StateLines(s), AccessLines(s), TransportLines(s), SourceLines(s), MuxLines(s), SimulcastLines(s));
  }

  const STREAM_KEYS := MEDIA_KEYS - {Payloads}

  lemma DataLacks(h: Object, s: Object)
    requires Lacks(h, MEDIA_KEYS) && Lacks(h, SESSION_KEYS) && Lacks(h, SSRC_KEYS)
    requires SameBut(h, s, {Payloads, SctpPort, MaxMessageSize})
    ensures Lacks(s, STREAM_KEYS) && Lacks(s, SESSION_KEYS) && Lacks(s, SSRC_KEYS)
  {
    hide SameBut;
    LacksKept(h, s, {Payloads, SctpPort, MaxMessageSize}, STREAM_KEYS);
    LacksKept(h, s, {Payloads, SctpPort, MaxMessageSize}, SESSION_KEYS);
    LacksKept(h, s, {Payloads, SctpPort, MaxMessageSize}, SSRC_KEYS);
  }

  lemma DataShown(s: Object)
    requires s.Keys <= TRANSPORT_KEYS + HEAD_KEYS + {Setup} + {Payloads, SctpPort, MaxMessageSize}
    requires AreShown(s, TRANSPORT_KEYS) && AreShown(s, HEAD_KEYS) && AreShown(s, {Setup})
    requires AreShown(s, {SctpPort, MaxMessageSize, Payloads})
    ensures MembersShown(s)
  {
    hide MemberShown;
  }

  lemma SetupSame(h: Object, s: Object)
    requires (Setup in h <==> Setup in s) && (Setup in h ==> h[Setup] == s[Setup])
    ensures ValueLine(s, Setup, "setup:") == ValueLine(h, Setup, "setup:")
  {
  }

  lemma NoMedia(s: Object, setup: seq<Line>, mid: string)
    requires Lacks(s, STREAM_KEYS) && ValueLine(s, Setup, "setup:") == setup
    requires ValueLine(s, Mid, "mid:") == [Line('a', "mid:" + mid)]
    ensures FormatLines(s) == [] && MuxLines(s) == [] && SimulcastLines(s) == []
    ensures StateLines(s) == setup + [Line('a', "mid:" + mid)]
  {
    hide RtpText, FmtpText, RtcpFbText, ExtText, RidText, SimulcastText;
    assert forall k :: k in STREAM_KEYS ==> k !in s;
    assert setup + [Line('a', "mid:" + mid)] + [] == setup + [Line('a', "mid:" + mid)];
  }

  /** The application section of an answer ... */
  lemma DataAnswerWritten(ice: IceParameters, candidates: seq<IceCandidate>, role: string, sctp: Option<SctpParameters>,
      offer: Object, answer: RtpParameters, options: CodecOptions)
    requires OfferOk(offer, answer) && offer[Type].s == "application" && sctp.Some?
    ensures SectionLines(AnswerObject(ice, candidates, role, sctp, offer, answer, options))
         == DataLines(ice, candidates, SetupLines(role), offer[Mid].s, offer[Protocol].s)
  {
    hide TransportObject, SectionHead, WithRole, HasTransport, HasHead, SameBut, Lacks, DataLines, SectionLines,
      ValueLine, SetupLines, WithSctp;
    var t := TransportObject(ice, candidates);
    var h := SectionHead(t, offer[Mid], "application", offer[Protocol]);
    var r := WithRole(h, role);
    TransportMade(ice, candidates);
    HeadMade(t, offer[Mid].s, "application", offer[Protocol].s);
    HeadHas(ice, candidates, offer[Mid].s, "application", offer[Protocol].s);
    NoSetup(h);
    RoleHas(h, role, ice, candidates, offer[Mid].s, "application", offer[Protocol].s);
    RoleMade(h, role);
    SetupMade(h, role);
    RoleKeys(t, h, r);
    DataText(r, sctp.value, ice, candidates, offer[Mid].s, offer[Protocol].s, SetupLines(role));
  }

  lemma RoleKeys(t: Object, h: Object, r: Object)
    requires t.Keys <= TRANSPORT_KEYS && SameBut(t, h, HEAD_KEYS) && SameBut(h, r, {Setup})
    ensures r.Keys <= TRANSPORT_KEYS + HEAD_KEYS + {Setup}
  {
    hide SameBut;
    OnlyKept(t, h, HEAD_KEYS, TRANSPORT_KEYS);
    OnlyKept(h, r, {Setup}, TRANSPORT_KEYS + HEAD_KEYS);
  }

  /** ... and of an offer. */
  lemma DataOfferWritten(ice: IceParameters, candidates: seq<IceCandidate>, sctp: Option<SctpParameters>, mid: string,
      rtp: RtpParameters, msid: string)
    requires sctp.Some?
    ensures SectionLines(OfferObject(ice, candidates, sctp, mid, "application", rtp, msid))
         == DataLines(ice, candidates, [Line('a', "setup:actpass")], mid, "UDP/DTLS/SCTP")
  {
    hide TransportObject, SectionHead, HasTransport, HasHead, SameBut, Lacks, DataLines, SectionLines, ValueLine,
      WithSctp;
    var t := TransportObject(ice, candidates);
    var h := SectionHead(t, Str(mid), "application", Str("UDP/DTLS/SCTP"));
    var a := h[Setup := Str("actpass")];
    TransportMade(ice, candidates);
    HeadMade(t, mid, "application", "UDP/DTLS/SCTP");
    HeadHas(ice, candidates, mid, "application", "UDP/DTLS/SCTP");
    ActpassMade(h);
    OfferHeadKept(h, a, ice, candidates, mid, "application", "UDP/DTLS/SCTP");
    RoleKeys(t, h, a);
    DataText(a, sctp.value, ice, candidates, mid, "UDP/DTLS/SCTP", [Line('a', "setup:actpass")]);
  }
}
