/** The JSON objects of m-sections: what AnswerMediaSection and OfferMediaSection put together
    from transport and RTP parameters, and the loops that do so. */
module MediaObjects {
  import opened Text
  import opened Json
  import opened SdpText
  import opened RtpTypes
  import opened FmtpConfig
  import opened SsrcUtils

  /** `iceLite` tells whether the member is present. */
  datatype IceParameters = IceParameters(usernameFragment: string, password: string, iceLite: bool)

  datatype IceCandidate = IceCandidate(
    foundation: string, ip: string, port: int, priority: int, protocol: string, kind: string, tcpType: Option<string>)

  datatype Fingerprint = Fingerprint(algorithm: string, value: string)

  datatype DtlsParameters = DtlsParameters(role: Option<string>, fingerprints: seq<Fingerprint>)

  datatype SctpParameters = SctpParameters(port: int, maxMessageSize: int)

  datatype CodecOptions = CodecOptions(
    opusStereo: Option<bool>, opusFec: Option<bool>, opusDtx: Option<bool>, opusCbr: Option<bool>,
    opusMaxPlaybackRate: Option<int>, opusMaxAverageBitrate: Option<int>, opusPtime: Option<int>,
    videoGoogleStartBitrate: Option<int>, videoGoogleMaxBitrate: Option<int>, videoGoogleMinBitrate: Option<int>)

  const NO_OPTIONS := CodecOptions(None, None, None, None, None, None, None, None, None, None)

  // ----- the transport part -----

  function CandidateObject(c: IceCandidate): Object {
    var o: Object := map[Component := Num(1), Foundation := Str(c.foundation), Ip := Str(c.ip), Port := Num(c.port),
      Priority := Num(c.priority), Transport := Str(c.protocol), Type := Str(c.kind)];
    if c.tcpType.Some? then o[TcpType := Str(c.tcpType.value)] else o
  }

  function CandidateObjects(candidates: seq<IceCandidate>): (r: seq<Object>)
    ensures |r| == |candidates|
  {
    seq(|candidates|, i requires 0 <= i < |candidates| => CandidateObject(candidates[i]))
  }

  /** SetIceParameters */
  function WithIce(o: Object, ice: IceParameters): Object {
    o[IceUfrag := Str(ice.usernameFragment)][IcePwd := Str(ice.password)]
  }

  function TransportObject(ice: IceParameters, candidates: seq<IceCandidate>): Object {
    WithIce(map[], ice)[Candidates := Arr(CandidateObjects(candidates))][EndOfCandidates := Str("end-of-candidates")]
      [IceOptions := Str("renomination")]
  }

  method BuildTransport(ice: IceParameters, candidates: seq<IceCandidate>) returns (o: Object)
    ensures o == TransportObject(ice, candidates)
  {
    o := WithIce(map[], ice);
    var items: seq<Object> := [];
    for i := 0 to |candidates|
      invariant items == CandidateObjects(candidates)[..i]
    {
      items := items + [CandidateObject(candidates[i])];
    }
    assert items == CandidateObjects(candidates);
    o := o[Candidates := Arr(items)];
    o := o[EndOfCandidates := Str("end-of-candidates")];
    o := o[IceOptions := Str("renomination")];
  }

  /** The `setup` value for a remote DTLS role; other roles leave it alone. */
  function SetupOf(role: string): Option<string> {
    match role
    case "client" => Some("active")
    case "server" => Some("passive")
    case "auto" => Some("actpass")
    case _ => None
  }

  function WithRole(o: Object, role: string): Object {
    if SetupOf(role).Some? then o[Setup := Str(SetupOf(role).value)] else o
  }

  function SectionHead(o: Object, mid: Json, kind: string, protocol: Json): Object {
    o[Mid := mid][Type := Str(kind)][Protocol := protocol]
      [Connection := Obj(map[Ip := Str("127.0.0.1"), Version := Num(4)])][Port := Num(7)]
  }

  // ----- codecs -----

  /** getCodecName: the MIME type without a leading `audio/` or `video/` of any case. */
  function CodecName(mimeType: string): string {
    if "audio/" <= Lower(mimeType) || "video/" <= Lower(mimeType) then mimeType[6..] else mimeType
  }

  /** get<uint8_t>() */
  function U8(n: int): nat {
    n % 256
  }

  function RtpEntry(codec: CodecParameters): Object {
    var o: Object := map[Payload := Num(codec.payloadType), Codec := Str(CodecName(codec.mimeType)),
      Rate := Num(codec.clockRate)];
    if codec.channels.Some? && U8(codec.channels.value) > 1 then o[Encoding := Num(U8(codec.channels.value))] else o
  }

  function RtpEntries(codecs: seq<CodecParameters>): (r: seq<Object>)
    ensures |r| == |codecs|
  {
    seq(|codecs|, i requires 0 <= i < |codecs| => RtpEntry(codecs[i]))
  }

  /** An fmtp entry, unless there is nothing to print. */
  function FmtpEntry(codec: CodecParameters): seq<Object> {
    var config := ConfigText(codec.parameters);
    if config == "" then [] else [map[Payload := Num(codec.payloadType), Config := Str(config)]]
  }

  function FmtpEntries(codecs: seq<CodecParameters>): seq<Object> {
    if codecs == [] then [] else FmtpEntries(codecs[..|codecs| - 1]) + FmtpEntry(codecs[|codecs| - 1])
  }

  function FeedbackEntry(payloadType: int, fb: Feedback): Object {
    map[Payload := Num(payloadType), Type := Str(fb.kind), Subtype := Str(fb.parameter)]
  }

  function CodecFeedback(payloadType: int, fbs: seq<Feedback>): (r: seq<Object>)
    ensures |r| == |fbs|
  {
    seq(|fbs|, i requires 0 <= i < |fbs| => FeedbackEntry(payloadType, fbs[i]))
  }

  function FeedbackEntries(codecs: seq<CodecParameters>): seq<Object> {
    if codecs == [] then []
    else
      var codec := codecs[|codecs| - 1];
      FeedbackEntries(codecs[..|codecs| - 1]) + CodecFeedback(codec.payloadType, codec.rtcpFeedback)
  }

  function PayloadTexts(codecs: seq<CodecParameters>): (r: seq<string>)
    ensures |r| == |codecs|
  {
    seq(|codecs|, i requires 0 <= i < |codecs| => Digits(U8(codecs[i].payloadType)))
  }

  function PayloadsText(codecs: seq<CodecParameters>): string {
    Join(PayloadTexts(codecs), ' ')
  }

  method PrintPayloads(codecs: seq<CodecParameters>) returns (payloads: string)
    ensures payloads == PayloadsText(codecs)
  {
    hide Join, Digits;
    payloads := "";
    ghost var texts := PayloadTexts(codecs);
    NothingJoined(' ');
    for i := 0 to |codecs|
      invariant payloads == Join(texts[..i], ' ')
    {
      JoinIsEmpty(texts[..i], ' ');
      JoinSnoc(texts[..i], texts[i], ' ');
      assert texts[..i + 1] == texts[..i] + [texts[i]];
      if payloads != "" {
        payloads := payloads + " ";
      }
      payloads := payloads + Digits(U8(codecs[i].payloadType));
    }
    assert texts[..|codecs|] == texts;
  }

  /** The media members of a section. */
  function WithCodecs(o: Object, direction: string, codecs: seq<CodecParameters>): Object {
    o[Direction := Str(direction)][Rtp := Arr(RtpEntries(codecs))][RtcpFb := Arr(FeedbackEntries(codecs))]
      [Fmtp := Arr(FmtpEntries(codecs))][Payloads := Str(PayloadsText(codecs))]
  }

  /** The three arrays one codec adds to. */
  datatype CodecLines = CodecLines(rtp: seq<Object>, fmtp: seq<Object>, rtcpFb: seq<Object>)

  function LinesFor(codecs: seq<CodecParameters>): CodecLines {
    CodecLines(RtpEntries(codecs), FmtpEntries(codecs), FeedbackEntries(codecs))
  }

  /** The loop body both builders share. */
  method PushCodec(lines: CodecLines, codec: CodecParameters) returns (out: CodecLines)
    ensures out == CodecLines(lines.rtp + [RtpEntry(codec)], lines.fmtp + FmtpEntry(codec),
                     lines.rtcpFb + CodecFeedback(codec.payloadType, codec.rtcpFeedback))
  {
    var rtp, fmtp, rtcpFb := lines.rtp, lines.fmtp, lines.rtcpFb;
    rtp := rtp + [RtpEntry(codec)];
    var config := PrintConfig(codec.parameters);
    if config != "" {
      fmtp := fmtp + [map[Payload := Num(codec.payloadType), Config := Str(config)]];
    }
    var fbs := codec.rtcpFeedback;
    for i := 0 to |fbs|
      invariant rtcpFb == lines.rtcpFb + CodecFeedback(codec.payloadType, fbs)[..i]
    {
      rtcpFb := rtcpFb + [FeedbackEntry(codec.payloadType, fbs[i])];
    }
    assert CodecFeedback(codec.payloadType, fbs)[..|fbs|] == CodecFeedback(codec.payloadType, fbs);
    assert lines.fmtp + [] == lines.fmtp;
    out := CodecLines(rtp, fmtp, rtcpFb);
  }

  lemma NoLines()
    ensures LinesFor([]) == CodecLines([], [], [])
  {
  }

  lemma LinesSnoc(codecs: seq<CodecParameters>, codec: CodecParameters)
    ensures LinesFor(codecs + [codec]) == CodecLines(RtpEntries(codecs) + [RtpEntry(codec)],
                     FmtpEntries(codecs) + FmtpEntry(codec), FeedbackEntries(codecs)
                     + CodecFeedback(codec.payloadType, codec.rtcpFeedback))
  {
    assert (codecs + [codec])[..|codecs|] == codecs;
  }

  // ----- codec options -----

  function BoolParam(b: bool): ParamValue {
    PInt(if b then 1 else 0)
  }

  function SetFlag(p: Params, key: string, flag: Option<bool>): Params {
    if flag.Some? then Set(p, key, BoolParam(flag.value)) else p
  }

  function SetNumber(p: Params, key: string, n: Option<int>): Params {
    if n.Some? then Set(p, key, PInt(U32(n.value))) else p
  }

  /** What Opus options do to the parameters of the answer. */
  function OpusAnswer(p: Params, o: CodecOptions): Params {
    var p4 := SetFlag(SetFlag(SetFlag(SetFlag(p, "stereo", o.opusStereo), "useinbandfec", o.opusFec), "usedtx",
      o.opusDtx), "cbr", o.opusCbr);
    SetNumber(SetNumber(SetNumber(p4, "maxplaybackrate", o.opusMaxPlaybackRate), "maxaveragebitrate",
      o.opusMaxAverageBitrate), "ptime", o.opusPtime)
  }

  /** ... and to the matching codec of the offer. */
  function OpusOffer(p: Params, o: CodecOptions): Params {
    SetFlag(SetFlag(SetFlag(SetFlag(p, "sprop-stereo", o.opusStereo), "useinbandfec", o.opusFec), "usedtx", o.opusDtx),
      "cbr", o.opusCbr)
  }

  function VideoAnswer(p: Params, o: CodecOptions): Params {
    SetNumber(SetNumber(SetNumber(p, "x-google-start-bitrate", o.videoGoogleStartBitrate),
      "x-google-max-bitrate", o.videoGoogleMaxBitrate), "x-google-min-bitrate", o.videoGoogleMinBitrate)
  }

  predicate IsOpus(codec: CodecParameters) {
    Lower(codec.mimeType) == "audio/opus"
  }

  predicate IsTunable(codec: CodecParameters) {
    Lower(codec.mimeType) in {"video/vp8", "video/vp9", "video/h264", "video/h265"}
  }

  function Configured(codec: CodecParameters, options: CodecOptions): CodecParameters {
    if options == NO_OPTIONS then codec
    else if IsOpus(codec) then codec.(parameters := OpusAnswer(codec.parameters, options))
    else if IsTunable(codec) then codec.(parameters := VideoAnswer(codec.parameters, options))
    else codec
  }

  function ConfiguredAll(codecs: seq<CodecParameters>, options: CodecOptions): (r: seq<CodecParameters>)
    ensures |r| == |codecs|
  {
    seq(|codecs|, i requires 0 <= i < |codecs| => Configured(codecs[i], options))
  }

  /** Index of the first codec with a payload type, or the length. */
  function CodecFor(codecs: seq<CodecParameters>, payloadType: int): (i: nat)
    ensures i <= |codecs|
    ensures i < |codecs| ==> codecs[i].payloadType == payloadType
    ensures forall j :: 0 <= j < i ==> codecs[j].payloadType != payloadType
  {
    if codecs == [] || codecs[0].payloadType == payloadType then 0 else 1 + CodecFor(codecs[1..], payloadType)
  }

  /** The lookup in the offer is not checked: every codec of the answer must be there. */
  predicate Findable(offered: seq<CodecParameters>, codecs: seq<CodecParameters>) {
    forall i :: 0 <= i < |codecs| ==> CodecFor(offered, codecs[i].payloadType) < |offered|
  }

  function Offered(offered: seq<CodecParameters>, codec: CodecParameters,
      options: CodecOptions): (r: seq<CodecParameters>)
    requires options != NO_OPTIONS ==> CodecFor(offered, codec.payloadType) < |offered|
    ensures |r| == |offered| && forall j :: 0 <= j < |r| ==> r[j].payloadType == offered[j].payloadType
  {
    var i := CodecFor(offered, codec.payloadType);
    if options == NO_OPTIONS || !IsOpus(codec) then offered
    else offered[i := offered[i].(parameters := OpusOffer(offered[i].parameters, options))]
  }

  lemma {:induction false} CodecForAgrees(a: seq<CodecParameters>, b: seq<CodecParameters>, payloadType: int)
    requires |a| == |b| && forall j :: 0 <= j < |a| ==> a[j].payloadType == b[j].payloadType
    ensures CodecFor(a, payloadType) == CodecFor(b, payloadType)
  {
    if a != [] && a[0].payloadType != payloadType {
      CodecForAgrees(a[1..], b[1..], payloadType);
    }
  }

  /** The offered codecs after the answer has been put together. */
  function OfferedAll(offered: seq<CodecParameters>, codecs: seq<CodecParameters>,
      options: CodecOptions): (r: seq<CodecParameters>)
    requires options != NO_OPTIONS ==> Findable(offered, codecs)
    ensures |r| == |offered| && forall j :: 0 <= j < |r| ==> r[j].payloadType == offered[j].payloadType
  {
    if codecs == [] then offered
    else
      var before := OfferedAll(offered, codecs[..|codecs| - 1], options);
      CodecForAgrees(before, offered, codecs[|codecs| - 1].payloadType);
      Offered(before, codecs[|codecs| - 1], options)
  }

  // ----- header extensions, simulcast -----

  function ExtEntry(ext: HeaderExtension): Object {
    map[Uri := Str(ext.uri), Value := Num(ext.id)]
  }

  predicate HasUri(local: Object) {
    HasStr(local, Uri)
  }

  predicate Uris(exts: seq<Object>) {
    forall i :: 0 <= i < |exts| ==> HasUri(exts[i])
  }

  /** The URI is among the extensions of the offer. */
  predicate Supports(exts: seq<Object>, uri: string)
    requires Uris(exts)
  {
    exists i :: 0 <= i < |exts| && exts[i][Uri].s == uri
  }

  function AllExts(exts: seq<HeaderExtension>): (r: seq<Object>)
    ensures |r| == |exts|
  {
    seq(|exts|, i requires 0 <= i < |exts| => ExtEntry(exts[i]))
  }

  /** The extensions present in the offer, in order. */
  function CommonExts(exts: seq<HeaderExtension>, locals: seq<Object>): seq<Object>
    requires exts != [] ==> Uris(locals)
  {
    if exts == [] then []
    else
      var ext := exts[|exts| - 1];
      CommonExts(exts[..|exts| - 1], locals) + (if Supports(locals, ext.uri) then [ExtEntry(ext)] else [])
  }

  function RecvRid(rid: Object): Object
    requires Id in rid
  {
    map[Id := rid[Id], Direction := Str("recv")]
  }

  predicate RidLine(rid: Object) {
    Id in rid && HasStr(rid, Direction)
  }

  predicate RidLines(rids: seq<Object>) {
    forall i :: 0 <= i < |rids| ==> RidLine(rids[i])
  }

  /** The receiving image of the sending rids. */
  function RecvRids(rids: seq<Object>): seq<Object>
    requires RidLines(rids)
  {
    if rids == [] then []
    else
      var rid := rids[|rids| - 1];
      RecvRids(rids[..|rids| - 1]) + (if rid[Direction].s == "send" then [RecvRid(rid)] else [])
  }

  // ----- the answer -----

  /** What the constructor demands of the offered section. */
  predicate OfferOk(offer: Object, answer: RtpParameters) {
    && HasStr(offer, Mid) && HasStr(offer, Type) && HasStr(offer, Protocol)
    && (IsAv(offer[Type].s) ==>
         && (answer.headerExtensions != [] ==> HasArr(offer, Ext) && Uris(LocalExts(offer)))
         && (Simulcast in offer && offer[Simulcast].Obj? ==> Rids in offer && List1 in offer[Simulcast].fields)
         && (HasSimulcast(offer) ==> RidLines(offer[Rids].items)))
  }

  function LocalExts(offer: Object): seq<Object> {
    ItemsOf(Look(offer, Ext))
  }

  predicate HasSimulcast(offer: Object) {
    Simulcast in offer && offer[Simulcast].Obj? && HasArr(offer, Rids)
  }

  function WithSimulcast(o: Object, offer: Object): Object
    requires HasSimulcast(offer) ==> RidLines(offer[Rids].items) && List1 in offer[Simulcast].fields
  {
    if HasSimulcast(offer) then
      o[Simulcast := Obj(map[Dir1 := Str("recv"), List1 := offer[Simulcast].fields[List1]])]
       [Rids := Arr(RecvRids(offer[Rids].items))]
    else o
  }

  function WithMux(o: Object): Object {
    o[RtcpMux := Str("rtcp-mux")][RtcpRsize := Str("rtcp-rsize")]
  }

  function AnswerMedia(o: Object, offer: Object, answer: RtpParameters, options: CodecOptions): Object
    requires OfferOk(offer, answer) && IsAv(offer[Type].s)
  {
    var o1 := WithCodecs(o, "recvonly", ConfiguredAll(answer.codecs, options))
      [Ext := Arr(CommonExts(answer.headerExtensions, LocalExts(offer)))];
    var o2 := if HasStr(offer, ExtmapAllowMixed) then o1[ExtmapAllowMixed := Str("extmap-allow-mixed")] else o1;
    WithMux(WithSimulcast(o2, offer))
  }

  function WithSctp(o: Object, sctp: SctpParameters): Object {
    o[Payloads := Str("webrtc-datachannel")][SctpPort := Num(sctp.port)][MaxMessageSize := Num(sctp.maxMessageSize)]
  }

  predicate IsAv(kind: string) {
    kind == "audio" || kind == "video"
  }

  /** The section of an answer; the parameters of the offered codecs may be updated as well. */
  function AnswerObject(ice: IceParameters, candidates: seq<IceCandidate>, role: string, sctp: Option<SctpParameters>,
      offer: Object, answer: RtpParameters, options: CodecOptions): Object
    requires OfferOk(offer, answer)
    requires offer[Type].s == "application" ==> sctp.Some?
  {
    var kind := offer[Type].s;
    var o := WithRole(SectionHead(TransportObject(ice, candidates), offer[Mid], kind, offer[Protocol]), role);
    if IsAv(kind) then AnswerMedia(o, offer, answer, options)
    else if kind == "application" then WithSctp(o, sctp.value)
    else o
  }

  function UpdatedOffer(offer: Object, offered: seq<CodecParameters>, answer: RtpParameters,
      options: CodecOptions): seq<CodecParameters>
    requires OfferOk(offer, answer)
      && (options != NO_OPTIONS && IsAv(offer[Type].s) ==> Findable(offered, answer.codecs))
  {
    if IsAv(offer[Type].s) then OfferedAll(offered, answer.codecs, options) else offered
  }

  /** The codec loop of an answer: codec options are applied to both sides, then the codec is
      printed. */
  method AnswerCodecs(offered: seq<CodecParameters>, codecs: seq<CodecParameters>, options: CodecOptions)
    returns (lines: CodecLines, updated: seq<CodecParameters>)
    requires options != NO_OPTIONS ==> Findable(offered, codecs)
    ensures lines == LinesFor(ConfiguredAll(codecs, options)) && updated == OfferedAll(offered, codecs, options)
  {
    hide Configured, OpusOffer, IsOpus, FmtpEntry, RtpEntry, CodecFeedback, CodecFor, ConfigText, Lower, FmtpEntries,
      FeedbackEntries, Offered;
    NoLines();
    lines, updated := CodecLines([], [], []), offered;
    ghost var configured := ConfiguredAll(codecs, options);
    for i := 0 to |codecs|
      invariant lines == LinesFor(configured[..i])
      invariant updated == OfferedAll(offered, codecs[..i], options)
    {
      assert codecs[..i + 1][..i] == codecs[..i];
      assert configured[..i + 1] == configured[..i] + [configured[i]];
      CodecForAgrees(updated, offered, codecs[i].payloadType);
      updated := Offered(updated, codecs[i], options);
      lines := PushCodec(lines, Configured(codecs[i], options));
      LinesSnoc(configured[..i], configured[i]);
    }
    assert codecs[..|codecs|] == codecs && configured[..|codecs|] == configured;
  }

  /** find_if over the extensions of the offer. */
  method FindUri(exts: seq<Object>, uri: string) returns (found: bool)
    requires Uris(exts)
    ensures found == Supports(exts, uri)
  {
    for i := 0 to |exts|
      invariant forall j :: 0 <= j < i ==> exts[j][Uri].s != uri
    {
      if exts[i][Uri].s == uri {
        return true;
      }
    }
    return false;
  }

  method CollectExts(exts: seq<HeaderExtension>, locals: seq<Object>) returns (r: seq<Object>)
    requires exts != [] ==> Uris(locals)
    ensures r == CommonExts(exts, locals)
  {
    r := [];
    for i := 0 to |exts|
      invariant r == CommonExts(exts[..i], locals)
    {
      assert exts[..i + 1][..i] == exts[..i];
      var found := FindUri(locals, exts[i].uri);
      if found {
        r := r + [ExtEntry(exts[i])];
      }
    }
    assert exts[..|exts|] == exts;
  }

  method CollectRids(rids: seq<Object>) returns (r: seq<Object>)
    requires RidLines(rids)
    ensures r == RecvRids(rids)
  {
    r := [];
    for i := 0 to |rids|
      invariant r == RecvRids(rids[..i])
    {
      assert rids[..i + 1][..i] == rids[..i];
      if rids[i][Direction].s == "send" {
        r := r + [RecvRid(rids[i])];
      }
    }
    assert rids[..|rids|] == rids;
  }

  /** AnswerMediaSection, member by member. */
  method BuildAnswer(ice: IceParameters, candidates: seq<IceCandidate>, role: string, sctp: Option<SctpParameters>,
      offer: Object, offered: seq<CodecParameters>, answer: RtpParameters, options: CodecOptions)
    returns (o: Object, updated: seq<CodecParameters>)
    requires OfferOk(offer, answer)
    requires offer[Type].s == "application" ==> sctp.Some?
    requires options != NO_OPTIONS && IsAv(offer[Type].s) ==> Findable(offered, answer.codecs)
    ensures o == AnswerObject(ice, candidates, role, sctp, offer, answer, options)
    ensures updated == UpdatedOffer(offer, offered, answer, options)
  {
    hide TransportObject, CommonExts, RecvRids, OfferedAll, FmtpEntries, FeedbackEntries, PayloadsText, Configured;
    o := BuildTransport(ice, candidates);
    updated := offered;
    var kind := offer[Type].s;
    o := SectionHead(o, offer[Mid], kind, offer[Protocol]);
    o := WithRole(o, role);
    if IsAv(kind) {
      var lines, payloads;
      o := o[Direction := Str("recvonly")];
      lines, updated := AnswerCodecs(offered, answer.codecs, options);
      o := o[Rtp := Arr(lines.rtp)][RtcpFb := Arr(lines.rtcpFb)][Fmtp := Arr(lines.fmtp)];
      payloads := PrintPayloads(answer.codecs);
      PayloadsUnconfigured(answer.codecs, options);
      var exts := CollectExts(answer.headerExtensions, LocalExts(offer));
      o := o[Payloads := Str(payloads)][Ext := Arr(exts)];
      if HasStr(offer, ExtmapAllowMixed) {
        o := o[ExtmapAllowMixed := Str("extmap-allow-mixed")];
      }
      if HasSimulcast(offer) {
        var rids := CollectRids(offer[Rids].items);
        o := o[Simulcast := Obj(map[Dir1 := Str("recv"), List1 := offer[Simulcast].fields[List1]])];
        o := o[Rids := Arr(rids)];
      }
      o := WithMux(o);
    } else if kind == "application" {
      o := WithSctp(o, sctp.value);
    }
  }

  /** Options do not touch payload types. */
  lemma PayloadsUnconfigured(codecs: seq<CodecParameters>, options: CodecOptions)
    ensures PayloadTexts(ConfiguredAll(codecs, options)) == PayloadTexts(codecs)
    ensures PayloadsText(ConfiguredAll(codecs, options)) == PayloadsText(codecs)
  {
    hide OpusAnswer, VideoAnswer, Lower, Digits;
    forall i | 0 <= i < |codecs|
      ensures PayloadTexts(ConfiguredAll(codecs, options))[i] == PayloadTexts(codecs)[i]
    {
    }
  }

  // ----- the offer -----

  function RtxOf(e: EncodingParameters): nat {
    if e.rtxSsrc.Some? then U32(e.rtxSsrc.value) else 0
  }

  function OfferSsrcs(ssrc: nat, rtx: nat, cname: string, msid: string): seq<Object> {
    [SsrcLine(ssrc, "cname", cname), SsrcLine(ssrc, "msid", msid)]
    + (if rtx != 0 then [SsrcLine(rtx, "cname", cname), SsrcLine(rtx, "msid", msid)] else [])
  }

  function OfferGroups(ssrc: nat, rtx: nat): seq<Object> {
    if rtx != 0 then [GroupOf("FID", FidText(ssrc, rtx))] else []
  }

  /** Without a string cname nothing is said about SSRCs. */
  function WithSsrcs(o: Object, encoding: EncodingParameters, cname: Option<string>, msid: string): Object
    requires encoding.ssrc.Some?
  {
    var ssrc, rtx := U32(encoding.ssrc.value), RtxOf(encoding);
    if cname.None? then o[Ssrcs := Arr([])][SsrcGroups := Arr([])]
    else o[Ssrcs := Arr(OfferSsrcs(ssrc, rtx, cname.value, msid))][SsrcGroups := Arr(OfferGroups(ssrc, rtx))]
  }

  /** What the constructor demands of an audio or video offer: a first encoding with an ssrc. */
  predicate RtpOfferOk(rtp: RtpParameters) {
    rtp.encodings != [] && rtp.encodings[0].ssrc.Some?
  }

  function OfferMedia(o: Object, rtp: RtpParameters, msid: string): Object
    requires RtpOfferOk(rtp)
  {
    WithSsrcs(WithMux(WithCodecs(o, "sendonly", rtp.codecs)[Ext := Arr(AllExts(rtp.headerExtensions))]),
      rtp.encodings[0], rtp.cname, msid)
  }

  function OfferProtocol(sctp: Option<SctpParameters>): string {
    if sctp.None? then "UDP/TLS/RTP/SAVPF" else "UDP/DTLS/SCTP"
  }

  function OfferObject(ice: IceParameters, candidates: seq<IceCandidate>, sctp: Option<SctpParameters>,
      mid: string, kind: string, rtp: RtpParameters, msid: string): Object
    requires IsAv(kind) ==> RtpOfferOk(rtp)
    requires kind == "application" ==> sctp.Some?
  {
    var o := SectionHead(TransportObject(ice, candidates), Str(mid), kind,
      Str(OfferProtocol(sctp)))[Setup := Str("actpass")];
    if IsAv(kind) then OfferMedia(o, rtp, msid)
    else if kind == "application" then WithSctp(o, sctp.value)
    else o
  }

  method OfferCodecs(codecs: seq<CodecParameters>) returns (lines: CodecLines)
    ensures lines == LinesFor(codecs)
  {
    hide FmtpEntry, RtpEntry, CodecFeedback;
    lines := CodecLines([], [], []);
    for i := 0 to |codecs|
      invariant lines == LinesFor(codecs[..i])
    {
      assert codecs[..i + 1] == codecs[..i] + [codecs[i]];
      LinesSnoc(codecs[..i], codecs[i]);
      lines := PushCodec(lines, codecs[i]);
    }
    assert codecs[..|codecs|] == codecs;
  }

  method OfferExts(exts: seq<HeaderExtension>) returns (r: seq<Object>)
    ensures r == AllExts(exts)
  {
    r := [];
    for i := 0 to |exts|
      invariant r == AllExts(exts)[..i]
    {
      r := r + [ExtEntry(exts[i])];
    }
    assert r == AllExts(exts);
  }

  method PushSsrcs(ssrc: nat, rtx: nat, cname: Option<string>, streamId: string, trackId: string)
    returns (ssrcs: seq<Object>, groups: seq<Object>)
    ensures ssrcs == if cname.Some? then OfferSsrcs(ssrc, rtx, cname.value, streamId + (" " + trackId)) else []
    ensures groups == if cname.Some? then OfferGroups(ssrc, rtx) else []
  {
    hide SsrcLine, GroupOf, FidText;
    ssrcs, groups := [], [];
    if cname.Some? {
      var msid := streamId + (" " + trackId);
      ssrcs := ssrcs + [SsrcLine(ssrc, "cname", cname.value)];
      ssrcs := ssrcs + [SsrcLine(ssrc, "msid", msid)];
      if rtx != 0 {
        ssrcs := ssrcs + [SsrcLine(rtx, "cname", cname.value)];
        ssrcs := ssrcs + [SsrcLine(rtx, "msid", msid)];
        groups := groups + [GroupOf("FID", FidText(ssrc, rtx))];
      }
    }
  }

  /** OfferMediaSection, member by member. */
  method BuildOffer(ice: IceParameters, candidates: seq<IceCandidate>, sctp: Option<SctpParameters>,
      mid: string, kind: string, rtp: RtpParameters, streamId: string, trackId: string)
    returns (o: Object)
    requires IsAv(kind) ==> RtpOfferOk(rtp)
    requires kind == "application" ==> sctp.Some?
    ensures o == OfferObject(ice, candidates, sctp, mid, kind, rtp, streamId + (" " + trackId))
  {
    hide TransportObject, FmtpEntries, FeedbackEntries, PayloadsText, OfferSsrcs, OfferGroups;
    o := BuildTransport(ice, candidates);
    o := SectionHead(o, Str(mid), kind, Str(OfferProtocol(sctp)));
    o := o[Setup := Str("actpass")];
    if IsAv(kind) {
      o := o[Direction := Str("sendonly")];
      var lines := OfferCodecs(rtp.codecs);
      o := o[Rtp := Arr(lines.rtp)][RtcpFb := Arr(lines.rtcpFb)][Fmtp := Arr(lines.fmtp)];
      var payloads := PrintPayloads(rtp.codecs);
      var exts := OfferExts(rtp.headerExtensions);
      o := o[Payloads := Str(payloads)][Ext := Arr(exts)];
      o := WithMux(o);
      var encoding := rtp.encodings[0];
      var ssrcs, groups := PushSsrcs(U32(encoding.ssrc.value), RtxOf(encoding), rtp.cname, streamId, trackId);
      o := o[Ssrcs := Arr(ssrcs)][SsrcGroups := Arr(groups)];
    } else if kind == "application" {
      o := WithSctp(o, sctp.value);
    }
  }
}
