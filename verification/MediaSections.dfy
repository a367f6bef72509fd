/** The m-section objects RemoteSdp keeps, and what can be read back from the sections that
    were built. */
module MediaSections {
  import opened Text
  import opened Json
  import opened SdpText
  import opened RtpTypes
  import opened FmtpConfig
  import opened SsrcUtils
  import opened MediaObjects
  import opened ApplyParameters

  // ----- changes to a section -----

  function Disabled(o: Object): Object {
    o[Direction := Str("inactive")] - {Ext, Ssrcs, SsrcGroups, Simulcast, Rids}
  }

  function Closed(o: Object): Object {
    o[Direction := Str("inactive")][Port := Num(0)] - {Ext, Ssrcs, SsrcGroups, Simulcast, Rids, ExtmapAllowMixed}
  }

  /** SetDtlsRole of the two kinds of sections: an offer always says `actpass`. */
  function RoleSet(isOffer: bool, o: Object, role: string): Object {
    if isOffer then o[Setup := Str("actpass")] else WithRole(o, role)
  }

  /** Disabling makes a section inactive and takes its extensions, SSRCs and streams, ... */
  lemma DisabledIs(o: Object, k: Key)
    ensures var d := Disabled(o);
      && Direction in d && d[Direction] == Str("inactive")
      && Ext !in d && Ssrcs !in d && SsrcGroups !in d && Simulcast !in d && Rids !in d
      && (k !in {Direction, Ext, Ssrcs, SsrcGroups, Simulcast, Rids} ==>
           (k in d <==> k in o) && (k in o ==> d[k] == o[k]))
  {
  }

  /** ... and closing sets the port to 0 and drops extmap-allow-mixed as well. Nothing else changes. */
  lemma ClosedIs(o: Object, k: Key)
    ensures var c := Closed(o);
      && Direction in c && c[Direction] == Str("inactive") && Port in c && c[Port] == Num(0)
      && Ext !in c && Ssrcs !in c && SsrcGroups !in c && Simulcast !in c && Rids !in c && ExtmapAllowMixed !in c
      && (k !in {Direction, Port, Ext, Ssrcs, SsrcGroups, Simulcast, Rids, ExtmapAllowMixed} ==>
           (k in c <==> k in o) && (k in o ==> c[k] == o[k]))
  {
  }

  /** The fragment becomes the ufrag and the password the pwd. */
  lemma IceIs(o: Object, ice: IceParameters, k: Key)
    ensures var c := WithIce(o, ice);
      && IceUfrag in c && c[IceUfrag] == Str(ice.usernameFragment) && IcePwd in c && c[IcePwd] == Str(ice.password)
      && (k !in {IceUfrag, IcePwd} ==> (k in c <==> k in o) && (k in o ==> c[k] == o[k]))
  {
  }

  /** An answer takes the image of the remote role, and keeps its setup for an unknown one; an offer says actpass.
      Nothing else changes. */
  lemma RoleIs(isOffer: bool, o: Object, role: string, k: Key)
    ensures var r := RoleSet(isOffer, o, role);
      && (isOffer || role == "auto" ==> Setup in r && r[Setup] == Str("actpass"))
      && (!isOffer && role == "client" ==> Setup in r && r[Setup] == Str("active"))
      && (!isOffer && role == "server" ==> Setup in r && r[Setup] == Str("passive"))
      && (!isOffer && role !in {"client", "server", "auto"} ==> r == o)
      && (k != Setup ==> (k in r <==> k in o) && (k in o ==> r[k] == o[k]))
  {
  }

  /** A data channel section has the port and the message size of the association. */
  lemma SctpIs(o: Object, sctp: SctpParameters, k: Key)
    ensures var r := WithSctp(o, sctp);
      && Payloads in r && r[Payloads] == Str("webrtc-datachannel")
      && SctpPort in r && r[SctpPort] == Num(sctp.port)
      && MaxMessageSize in r && r[MaxMessageSize] == Num(sctp.maxMessageSize)
      && (k !in {Payloads, SctpPort, MaxMessageSize} ==> (k in r <==> k in o) && (k in o ==> r[k] == o[k]))
  {
  }

  lemma EraseStreams(o: Object)
    ensures o - {Ext} - {Ssrcs} - {SsrcGroups} - {Simulcast} - {Rids} == o - {Ext, Ssrcs, SsrcGroups, Simulcast, Rids}
    ensures o - {Ext, Ssrcs, SsrcGroups, Simulcast, Rids} - {ExtmapAllowMixed}
      == o - {Ext, Ssrcs, SsrcGroups, Simulcast, Rids, ExtmapAllowMixed}
  {
  }

  predicate ClosedObject(o: Object) {
    Port in o && o[Port] == Num(0)
  }

  class MediaSection {
    const isOffer: bool
    var mediaObject: Object

    constructor (isOffer: bool, mediaObject: Object)
      ensures this.isOffer == isOffer && this.mediaObject == mediaObject
    {
      this.isOffer := isOffer;
      this.mediaObject := mediaObject;
    }

    function GetMid(): string
      reads this
      requires HasStr(mediaObject, Mid)
    {
      mediaObject[Mid].s
    }

    predicate IsClosed()
      reads this
    {
      ClosedObject(mediaObject)
    }

    method SetIceParameters(ice: IceParameters)
      modifies this
      ensures mediaObject == WithIce(old(mediaObject), ice)
    {
      mediaObject := mediaObject[IceUfrag := Str(ice.usernameFragment)];
      mediaObject := mediaObject[IcePwd := Str(ice.password)];
    }

    method Disable()
      modifies this
      ensures mediaObject == Disabled(old(mediaObject))
    {
      mediaObject := mediaObject[Direction := Str("inactive")];
      EraseStreams(mediaObject);
      mediaObject := mediaObject - {Ext};
      mediaObject := mediaObject - {Ssrcs};
      mediaObject := mediaObject - {SsrcGroups};
      mediaObject := mediaObject - {Simulcast};
      mediaObject := mediaObject - {Rids};
    }

    method Close()
      modifies this
      ensures mediaObject == Closed(old(mediaObject))
    {
      mediaObject := mediaObject[Direction := Str("inactive")];
      mediaObject := mediaObject[Port := Num(0)];
      EraseStreams(mediaObject);
      mediaObject := mediaObject - {Ext};
      mediaObject := mediaObject - {Ssrcs};
      mediaObject := mediaObject - {SsrcGroups};
      mediaObject := mediaObject - {Simulcast};
      mediaObject := mediaObject - {Rids};
      mediaObject := mediaObject - {ExtmapAllowMixed};
    }

    method SetDtlsRole(role: string)
      modifies this
      ensures mediaObject == RoleSet(isOffer, old(mediaObject), role)
    {
      if isOffer {
        mediaObject := mediaObject[Setup := Str("actpass")];
      } else if role == "client" {
        mediaObject := mediaObject[Setup := Str("active")];
      } else if role == "server" {
        mediaObject := mediaObject[Setup := Str("passive")];
      } else if role == "auto" {
        mediaObject := mediaObject[Setup := Str("actpass")];
      }
    }
  }

  // ----- the payload list -----

  /** The numbers of some tokens; None when one cannot be read. */
  function ReadInts(tokens: seq<string>): Option<seq<int>> {
    if tokens == [] then Some([])
    else
      var before, n := ReadInts(tokens[..|tokens| - 1]), Stoi(tokens[|tokens| - 1]);
      if before.Some? && n.Some? then Some(before.value + [n.value]) else None
  }

  /** sdptransform::parsePayloads; None when it throws. */
  function ParsePayloads(text: string): Option<seq<int>> {
    ReadInts(Split(text, ' '))
  }

  method ReadPayloads(text: string) returns (r: Option<seq<int>>)
    ensures r == ParsePayloads(text)
  {
    var tokens := SplitTokens(text, ' ');
    var arr: seq<int> := [];
    for i := 0 to |tokens|
      invariant ReadInts(tokens[..i]) == Some(arr)
    {
      assert tokens[..i + 1][..i] == tokens[..i];
      var n := Stoi(tokens[i]);
      if n.None? {
        ReadIntsFails(tokens, i + 1);
        return None;
      }
      arr := arr + [n.value];
    }
    assert tokens[..|tokens|] == tokens;
    return Some(arr);
  }

  lemma {:induction false} ReadIntsFails(tokens: seq<string>, i: nat)
    requires i <= |tokens| && ReadInts(tokens[..i]).None?
    ensures ReadInts(tokens).None?
    decreases |tokens| - i
  {
    if i < |tokens| {
      assert tokens[..i + 1][..i] == tokens[..i];
      ReadIntsFails(tokens, i + 1);
    } else {
      assert tokens[..i] == tokens;
    }
  }

  function PayloadBytes(codecs: seq<CodecParameters>): (r: seq<int>)
    ensures |r| == |codecs|
  {
    seq(|codecs|, i requires 0 <= i < |codecs| => U8(codecs[i].payloadType) as int)
  }

  lemma {:induction false} PayloadTextsRead(codecs: seq<CodecParameters>)
    ensures ReadInts(PayloadTexts(codecs)) == Some(PayloadBytes(codecs))
  {
    hide Digits;
    if codecs == [] {
      assert PayloadTexts(codecs) == [] && PayloadBytes(codecs) == [];
    } else {
      var n := |codecs| - 1;
      PayloadTextsRead(codecs[..n]);
      assert PayloadTexts(codecs)[..n] == PayloadTexts(codecs[..n]);
      assert PayloadBytes(codecs) == PayloadBytes(codecs[..n]) + [U8(codecs[n].payloadType)];
      ReadIntegerDigits(U8(codecs[n].payloadType));
    }
  }

  /** A printed payload list is read as the payload types, byte by byte. */
  lemma PayloadsRead(codecs: seq<CodecParameters>)
    ensures ParsePayloads(PayloadsText(codecs)) == Some(PayloadBytes(codecs))
  {
    hide Digits, Split, ReadInts;
    var texts := PayloadTexts(codecs);
    forall i | 0 <= i < |texts|
      ensures ' ' !in texts[i] && texts[i] != ""
    {
      assert AllDigits(texts[i]);
    }
    SplitJoin(texts, ' ');
    PayloadTextsRead(codecs);
  }

  /** The payload types of the rtp entries of a section, in order. */
  function EntryPayloads(entries: seq<Object>): (r: seq<Json>)
    ensures |r| == |entries|
  {
    seq(|entries|, i requires 0 <= i < |entries| => Look(entries[i], Payload))
  }

  function Nums(ns: seq<int>): (r: seq<Json>)
    ensures |r| == |ns|
  {
    seq(|ns|, i requires 0 <= i < |ns| => Num(ns[i]))
  }

  predicate ByteTypes(codecs: seq<CodecParameters>) {
    forall i :: 0 <= i < |codecs| ==> 0 <= codecs[i].payloadType < 256
  }

  lemma PayloadOrder(codecs: seq<CodecParameters>)
    ensures EntryPayloads(RtpEntries(codecs)) == Nums(PayloadBytes(codecs)) <==> ByteTypes(codecs)
  {
    var e, b := EntryPayloads(RtpEntries(codecs)), Nums(PayloadBytes(codecs));
    forall i | 0 <= i < |codecs|
      ensures e[i] == b[i] <==> 0 <= codecs[i].payloadType < 256
    {
      assert e[i] == Num(codecs[i].payloadType) && b[i] == Num(U8(codecs[i].payloadType));
    }
    if ByteTypes(codecs) {
      assert e == b;
    } else {
      var i :| 0 <= i < |codecs| && !(0 <= codecs[i].payloadType < 256);
      assert e[i] != b[i];
    }
  }

  /** The payload list of an m-line names the rtp entries of the section in their order. */
  predicate PayloadsMatchRtp(o: Object) {
    && HasStr(o, Payloads) && HasArr(o, Rtp)
    && match ParsePayloads(o[Payloads].s) {
         case None => false
         case Some(ns) => EntryPayloads(o[Rtp].items) == Nums(ns)
       }
  }

  lemma CodecsMatch(o: Object, codecs: seq<CodecParameters>)
    requires HasStr(o, Payloads) && HasArr(o, Rtp)
    requires o[Payloads].s == PayloadsText(codecs) && o[Rtp].items == RtpEntries(codecs)
    ensures PayloadsMatchRtp(o) <==> ByteTypes(codecs)
  {
    hide ParsePayloads, PayloadsText, RtpEntries, PayloadBytes, ByteTypes;
    PayloadsRead(codecs);
    PayloadOrder(codecs);
  }

  /** The payload list round trip of an offer holds exactly for payload types of one byte. */
  lemma OfferPayloads(ice: IceParameters, candidates: seq<IceCandidate>, sctp: Option<SctpParameters>,
      mid: string, kind: string, rtp: RtpParameters, msid: string)
    requires IsAv(kind) && RtpOfferOk(rtp)
    ensures PayloadsMatchRtp(OfferObject(ice, candidates, sctp, mid, kind, rtp, msid)) <==> ByteTypes(rtp.codecs)
  {
    hide PayloadsMatchRtp, PayloadsText, RtpEntries, FmtpEntries, FeedbackEntries, ByteTypes;
    CodecsMatch(OfferObject(ice, candidates, sctp, mid, kind, rtp, msid), rtp.codecs);
  }

  lemma AnswerPayloads(ice: IceParameters, candidates: seq<IceCandidate>, role: string, sctp: Option<SctpParameters>,
      offer: Object, answer: RtpParameters, options: CodecOptions)
    requires OfferOk(offer, answer) && IsAv(offer[Type].s)
    ensures PayloadsMatchRtp(AnswerObject(ice, candidates, role, sctp, offer, answer, options))
      <==> ByteTypes(answer.codecs)
  {
    hide PayloadsMatchRtp, PayloadsText, RtpEntries, FmtpEntries, FeedbackEntries, CommonExts, RecvRids, Configured;
    var o := AnswerObject(ice, candidates, role, sctp, offer, answer, options);
    var configured := ConfiguredAll(answer.codecs, options);
    CodecsMatch(o, configured);
    forall i | 0 <= i < |configured|
      ensures configured[i].payloadType == answer.codecs[i].payloadType
    {
      ConfiguredKeeps(answer.codecs[i], options);
    }
    assert ByteTypes(configured) <==> ByteTypes(answer.codecs) by {
      if ByteTypes(configured) {
        forall i | 0 <= i < |configured|
          ensures 0 <= answer.codecs[i].payloadType < 256
        {
          assert configured[i].payloadType == answer.codecs[i].payloadType;
        }
      }
    }
  }

  lemma ConfiguredKeeps(codec: CodecParameters, options: CodecOptions)
    ensures Configured(codec, options).payloadType == codec.payloadType
  {
  }

  // ----- the SSRC lines of an offer -----

  /** The encoding an offer was made from, as getRtpEncodings reports it. */
  function PlainEncoding(e: EncodingParameters): EncodingParameters
    requires e.ssrc.Some?
  {
    EncodingParameters(Some(U32(e.ssrc.value)), if RtxOf(e) == 0 then None else Some(RtxOf(e)))
  }

  lemma RemoveLast(ids: seq<nat>, x: nat, y: nat)
    ensures Remove([x], y) == if x == y then [] else [x]
    ensures Remove([x, y], y) == if x == y then [] else [x]
  {
    assert [x][..0] == [] && [x, y][..1] == [x];
  }

  lemma PairIds(ssrc: nat, rtx: nat, cname: string, msid: string)
    requires ssrc < TWO_32 && rtx < TWO_32
    ensures var lines := OfferSsrcs(ssrc, rtx, cname, msid);
      && (forall i :: 0 <= i < |lines| ==> IdLine(lines[i]))
      && Ids(lines) == [ssrc, ssrc] + (if rtx != 0 then [rtx, rtx] else [])
  {
    var lines := OfferSsrcs(ssrc, rtx, cname, msid);
    assert forall i :: 0 <= i < |lines| ==> IdLine(lines[i]);
  }

  lemma PairUnique(ssrc: nat, rtx: nat)
    ensures Unique([ssrc, ssrc]) == [ssrc]
    ensures Unique([ssrc, ssrc] + [rtx, rtx]) == if ssrc == rtx then [ssrc] else [ssrc, rtx]
  {
    assert Unique([ssrc]) == [ssrc];
    UniqueSnoc([ssrc], ssrc);
    assert [ssrc] + [ssrc] == [ssrc, ssrc];
    UniqueSnoc([ssrc, ssrc], rtx);
    UniqueSnoc([ssrc, ssrc] + [rtx], rtx);
    assert ([ssrc, ssrc] + [rtx]) + [rtx] == [ssrc, ssrc] + [rtx, rtx];
    assert [ssrc] + [rtx] == [ssrc, rtx];
  }

  lemma GroupPairs(ssrc: nat, rtx: nat)
    requires ssrc < TWO_32 && rtx < TWO_32
    ensures FidLines(OfferGroups(ssrc, rtx))
    ensures FidPairs(OfferGroups(ssrc, rtx)) == Some(if rtx == 0 then [] else [(ssrc, rtx)])
  {
    hide FidLine, FidPair;
    if rtx != 0 {
      FidTextReads(ssrc, rtx);
      var line := GroupOf("FID", FidText(ssrc, rtx));
      assert OfferGroups(ssrc, rtx) == [line] && OfferGroups(ssrc, rtx)[..0] == [];
      assert line[Semantics].s == "FID";
      var none: seq<(nat, nat)> := [];
      assert none + [(ssrc, rtx)] == [(ssrc, rtx)];
    }
  }

  lemma PairMap(ssrc: nat, rtx: nat)
    ensures RtxMap([]) == map[]
    ensures RtxMap([(ssrc, rtx)]) == map[ssrc := rtx]
  {
    assert [(ssrc, rtx)][..0] == [];
  }

  /** What is read back from the SSRC lines of an offer. */
  lemma OfferLines(o: Object, ssrc: nat, rtx: nat, cname: string, msid: string)
    requires ssrc < TWO_32 && rtx < TWO_32
    requires HasArr(o, Ssrcs) && HasArr(o, SsrcGroups)
    requires o[Ssrcs].items == OfferSsrcs(ssrc, rtx, cname, msid) && o[SsrcGroups].items == OfferGroups(ssrc, rtx)
    ensures ReadableOffer(o)
    ensures RtpEncodings(o) == Ok(if rtx != 0 && rtx == ssrc then []
                                  else [EncodingParameters(Some(ssrc), if rtx == 0 then None else Some(rtx))])
  {
    hide OfferSsrcs, OfferGroups, Ids, Unique, Remove, FidPairs, FidLines, RtxMap;
    PairIds(ssrc, rtx, cname, msid);
    PairUnique(ssrc, rtx);
    GroupPairs(ssrc, rtx);
    RemoveLast([], ssrc, rtx);
    var pairs := if rtx == 0 then [] else [(ssrc, rtx)];
    var ids := Unique(Ids(o[Ssrcs].items));
    assert [ssrc, ssrc] + [] == [ssrc, ssrc];
    assert RemoveRtx(ids, pairs) == if rtx != 0 && rtx == ssrc then [] else [ssrc] by {
      assert pairs[..0] == [];
    }
    var rtxMap := RtxMap(pairs);
    PairMap(ssrc, rtx);
    assert Encodings([ssrc], rtxMap) == [EncodingParameters(Some(ssrc), if rtx == 0 then None else Some(rtx))];
    assert GroupsOf(o) == o[SsrcGroups].items;
  }

  /** An audio or video offer with a cname gives back its encoding, exactly unless the RTX
      SSRC is the SSRC itself; and it gives back the cname. Without a cname there is nothing
      to read. */
  lemma OfferSsrcRoundTrip(ice: IceParameters, candidates: seq<IceCandidate>, sctp: Option<SctpParameters>,
      mid: string, kind: string, rtp: RtpParameters, msid: string)
    requires IsAv(kind) && RtpOfferOk(rtp)
    ensures var o, e := OfferObject(ice, candidates, sctp, mid, kind, rtp, msid), rtp.encodings[0];
      && ReadableOffer(o)
      && (rtp.cname.Some? ==>
           && (RtpEncodings(o) == Ok([PlainEncoding(e)]) <==> RtxOf(e) == 0 || RtxOf(e) != U32(e.ssrc.value))
           && Cname(o) == rtp.cname.value)
      && (rtp.cname.None? ==> RtpEncodings(o).Err? && Cname(o) == "")
  {
    hide RtpEncodings, OfferSsrcs, OfferGroups, WithCodecs, FidPairs;
    var o, e := OfferObject(ice, candidates, sctp, mid, kind, rtp, msid), rtp.encodings[0];
    var ssrc, rtx := U32(e.ssrc.value), RtxOf(e);
    if rtp.cname.Some? {
      OfferLines(o, ssrc, rtx, rtp.cname.value, msid);
      FirstSsrc(ssrc, rtx, rtp.cname.value, msid);
      CnameOfFirst(o, ssrc, rtp.cname.value);
    } else {
      NothingOffered(o);
    }
  }

  lemma FirstSsrc(ssrc: nat, rtx: nat, cname: string, msid: string)
    ensures OfferSsrcs(ssrc, rtx, cname, msid) != []
    ensures OfferSsrcs(ssrc, rtx, cname, msid)[0] == SsrcLine(ssrc, "cname", cname)
  {
  }

  lemma NothingOffered(o: Object)
    requires HasArr(o, Ssrcs) && HasArr(o, SsrcGroups) && o[Ssrcs].items == [] && o[SsrcGroups].items == []
    ensures ReadableOffer(o) && RtpEncodings(o).Err? && Cname(o) == ""
  {
  }

  // ----- codec options -----

  function FlagParam(flag: Option<bool>): Option<ParamValue> {
    if flag.Some? then Some(BoolParam(flag.value)) else None
  }

  function NumberParam(n: Option<int>): Option<ParamValue> {
    if n.Some? then Some(PInt(U32(n.value))) else None
  }

  /** A new value, or the one that was there. */
  function Chosen(v: Option<ParamValue>, before: Option<ParamValue>): Option<ParamValue> {
    if v.Some? then v else before
  }

  /** What options ask of the parameters of an answer, key by key. */
  function OpusValue(o: CodecOptions, key: string): Option<ParamValue> {
    match key
    case "stereo" => FlagParam(o.opusStereo)
    case "useinbandfec" => FlagParam(o.opusFec)
    case "usedtx" => FlagParam(o.opusDtx)
    case "cbr" => FlagParam(o.opusCbr)
    case "maxplaybackrate" => NumberParam(o.opusMaxPlaybackRate)
    case "maxaveragebitrate" => NumberParam(o.opusMaxAverageBitrate)
    case "ptime" => NumberParam(o.opusPtime)
    case _ => None
  }

  function VideoValue(o: CodecOptions, key: string): Option<ParamValue> {
    match key
    case "x-google-start-bitrate" => NumberParam(o.videoGoogleStartBitrate)
    case "x-google-max-bitrate" => NumberParam(o.videoGoogleMaxBitrate)
    case "x-google-min-bitrate" => NumberParam(o.videoGoogleMinBitrate)
    case _ => None
  }

  function AnswerValue(codec: CodecParameters, o: CodecOptions, key: string): Option<ParamValue> {
    if IsOpus(codec) then OpusValue(o, key) else if IsTunable(codec) then VideoValue(o, key) else None
  }

  /** What Opus options ask of the offered codec: the flags only. */
  function FlagValue(o: CodecOptions, key: string): Option<ParamValue> {
    match key
    case "sprop-stereo" => FlagParam(o.opusStereo)
    case "useinbandfec" => FlagParam(o.opusFec)
    case "usedtx" => FlagParam(o.opusDtx)
    case "cbr" => FlagParam(o.opusCbr)
    case _ => None
  }

  lemma FlagFinds(p: Params, key: string, flag: Option<bool>, other: string)
    requires Sorted(p)
    ensures Sorted(SetFlag(p, key, flag))
    ensures Find(SetFlag(p, key, flag), other) == if other == key then Chosen(FlagParam(flag), Find(p, other))
      else Find(p, other)
  {
    hide Sorted, Find, Set;
    if flag.Some? {
      SetFinds(p, key, BoolParam(flag.value), other);
      SetSorted(p, key, BoolParam(flag.value));
    }
  }

  lemma NumberFinds(p: Params, key: string, n: Option<int>, other: string)
    requires Sorted(p)
    ensures Sorted(SetNumber(p, key, n))
    ensures Find(SetNumber(p, key, n), other) == if other == key then Chosen(NumberParam(n), Find(p, other))
      else Find(p, other)
  {
    hide Sorted, Find, Set;
    if n.Some? {
      SetFinds(p, key, PInt(U32(n.value)), other);
      SetSorted(p, key, PInt(U32(n.value)));
    }
  }

  lemma OfferFlags(p: Params, o: CodecOptions, key: string)
    requires Sorted(p)
    ensures Find(OpusOffer(p, o), key) == Chosen(FlagValue(o, key), Find(p, key))
  {
    hide Set, Find, Sorted, SetFlag, FlagParam;
    var p1 := SetFlag(p, "sprop-stereo", o.opusStereo);
    var p2 := SetFlag(p1, "useinbandfec", o.opusFec);
    var p3 := SetFlag(p2, "usedtx", o.opusDtx);
    FlagFinds(p, "sprop-stereo", o.opusStereo, key);
    FlagFinds(p1, "useinbandfec", o.opusFec, key);
    FlagFinds(p2, "usedtx", o.opusDtx, key);
    FlagFinds(p3, "cbr", o.opusCbr, key);
  }

  lemma OpusOptions(p: Params, o: CodecOptions, key: string)
    requires Sorted(p)
    ensures Find(OpusAnswer(p, o), key) == Chosen(OpusValue(o, key), Find(p, key))
  {
    hide Set, Find, Sorted, SetFlag, SetNumber, FlagParam, NumberParam;
    var p1 := SetFlag(p, "stereo", o.opusStereo);
    var p2 := SetFlag(p1, "useinbandfec", o.opusFec);
    var p3 := SetFlag(p2, "usedtx", o.opusDtx);
    var p4 := SetFlag(p3, "cbr", o.opusCbr);
    var p5 := SetNumber(p4, "maxplaybackrate", o.opusMaxPlaybackRate);
    var p6 := SetNumber(p5, "maxaveragebitrate", o.opusMaxAverageBitrate);
    FlagFinds(p, "stereo", o.opusStereo, key);
    FlagFinds(p1, "useinbandfec", o.opusFec, key);
    FlagFinds(p2, "usedtx", o.opusDtx, key);
    FlagFinds(p3, "cbr", o.opusCbr, key);
    NumberFinds(p4, "maxplaybackrate", o.opusMaxPlaybackRate, key);
    NumberFinds(p5, "maxaveragebitrate", o.opusMaxAverageBitrate, key);
    NumberFinds(p6, "ptime", o.opusPtime, key);
  }

  lemma VideoOptions(p: Params, o: CodecOptions, key: string)
    requires Sorted(p)
    ensures Find(VideoAnswer(p, o), key) == Chosen(VideoValue(o, key), Find(p, key))
  {
    hide Set, Find, Sorted, SetNumber, NumberParam;
    var p1 := SetNumber(p, "x-google-start-bitrate", o.videoGoogleStartBitrate);
    var p2 := SetNumber(p1, "x-google-max-bitrate", o.videoGoogleMaxBitrate);
    NumberFinds(p, "x-google-start-bitrate", o.videoGoogleStartBitrate, key);
    NumberFinds(p1, "x-google-max-bitrate", o.videoGoogleMaxBitrate, key);
    NumberFinds(p2, "x-google-min-bitrate", o.videoGoogleMinBitrate, key);
  }

  /** Options given for a codec that is none of these change nothing; every option that is given
      reaches the answer, and every other parameter of it stays. */
  lemma OptionsReachAnswer(codec: CodecParameters, o: CodecOptions, key: string)
    requires Sorted(codec.parameters)
    ensures Find(Configured(codec, o).parameters, key)
      == Chosen(AnswerValue(codec, o, key), Find(codec.parameters, key))
    ensures Configured(codec, o) == codec.(parameters := Configured(codec, o).parameters)
  {
    hide Find, Sorted, OpusAnswer, VideoAnswer, IsOpus, IsTunable;
    OpusOptions(codec.parameters, o, key);
    VideoOptions(codec.parameters, o, key);
  }

  /** The codec of the offer with the same payload type takes over the four flags of an Opus codec,
      stereo as `sprop-stereo`, with the values the answer has. The numbers go into the answer only, and so do
      all video options: everything else in the offer stays as it was. */
  lemma OptionsAgree(codec: CodecParameters, offered: seq<CodecParameters>, o: CodecOptions, j: nat, key: string)
    requires o != NO_OPTIONS ==> CodecFor(offered, codec.payloadType) < |offered|
    requires j < |offered| && Sorted(offered[j].parameters) && Sorted(codec.parameters)
    ensures var r, i := Offered(offered, codec, o), CodecFor(offered, codec.payloadType);
      && r[j] == offered[j].(parameters := r[j].parameters)
      && (j != i || !IsOpus(codec) ==> r[j] == offered[j])
      && (j == i && IsOpus(codec) ==>
           && Find(r[j].parameters, key) == Chosen(FlagValue(o, key), Find(offered[j].parameters, key))
           && (key !in {"sprop-stereo", "useinbandfec", "usedtx", "cbr"} ==>
                Find(r[j].parameters, key) == Find(offered[j].parameters, key))
           && (FlagValue(o, key).Some? ==>
                Find(r[j].parameters, key)
                == Find(Configured(codec, o).parameters, if key == "sprop-stereo" then "stereo" else key)))
  {
    hide Find, Sorted, OpusOffer, Configured, IsOpus, IsTunable, VideoValue, CodecFor, NumberParam;
    OfferFlags(offered[j].parameters, o, key);
    OptionsReachAnswer(codec, o, if key == "sprop-stereo" then "stereo" else key);
  }
}
