/** What is derived from extended capabilities: receiving capabilities, the two sets of sending
    parameters, and whether something can be sent or received. */
module OrtcParameters {
  import opened Text
  import opened RtpTypes
  import opened SsrcUtils
  import opened MediaObjects
  import opened OrtcValidation
  import opened OrtcMatching
  import opened OrtcExtended

  // ----- receiving capabilities -----

  function AptOnly(payloadType: int): Params {
    [Param("apt", PInt(U8(payloadType)))]
  }

  /** A payload type the remote side did not give becomes null. */
  function RecvCodec(x: ExtendedCodec): Item<RawCodec> {
    Item(RawCodec(Present(x.mimeType), if x.remotePayloadType.Some? then Present(x.remotePayloadType.value)
      else Malformed, Present(x.clockRate), FieldOf(x.channels), Present(x.localParameters),
      Present(RawFeedbacks(x.rtcpFeedback))))
  }

  function RecvRtx(x: ExtendedCodec): Item<RawCodec>
    requires x.remoteRtxPayloadType.Some? && x.remotePayloadType.Some?
  {
    Item(RawCodec(Present(x.kind + "/rtx"), Present(x.remoteRtxPayloadType.value), Present(x.clockRate), Absent,
      Present(AptOnly(x.remotePayloadType.value)), Present([])))
  }

  predicate RemoteRtxNumbered(xs: seq<ExtendedCodec>) {
    forall i :: 0 <= i < |xs| ==> xs[i].remoteRtxPayloadType.Some? ==> xs[i].remotePayloadType.Some?
  }

  function RecvCodecs(xs: seq<ExtendedCodec>): seq<Item<RawCodec>>
    requires RemoteRtxNumbered(xs)
  {
    if xs == [] then []
    else
      var x := xs[|xs| - 1];
      RecvCodecs(xs[..|xs| - 1]) + [RecvCodec(x)] + (if x.remoteRtxPayloadType.Some? then [RecvRtx(x)] else [])
  }

  predicate DirectionsKnown(es: seq<ExtendedExt>) {
    forall i :: 0 <= i < |es| ==> es[i].direction.Some?
  }

  predicate Receives(direction: string) {
    direction == "sendrecv" || direction == "recvonly"
  }

  function RecvExts(es: seq<ExtendedExt>): seq<ExtCap>
    requires DirectionsKnown(es)
  {
    if es == [] then []
    else
      var e := es[|es| - 1];
      RecvExts(es[..|es| - 1])
      + (if Receives(e.direction.value) then [ExtCap(e.kind, e.uri, e.recvId, e.encrypt, e.direction.value)] else [])
  }

  function RecvCaps(x: Extended): Item<RawCaps>
    requires RemoteRtxNumbered(x.codecs) && DirectionsKnown(x.headerExtensions)
  {
    Item(RawCaps(Present(RecvCodecs(x.codecs)), Present(AsRawExtCaps(RecvExts(x.headerExtensions)))))
  }

  /** getRecvRtpCapabilities */
  method GetRecvRtpCapabilities(x: Extended) returns (caps: Item<RawCaps>)
    requires RemoteRtxNumbered(x.codecs) && DirectionsKnown(x.headerExtensions)
    ensures caps == RecvCaps(x)
  {
    var codecs: seq<Item<RawCodec>> := [];
    for i := 0 to |x.codecs|
      invariant codecs == RecvCodecs(x.codecs[..i])
    {
      assert x.codecs[..i + 1][..i] == x.codecs[..i];
      var before := codecs;
      codecs := codecs + [RecvCodec(x.codecs[i])];
      if x.codecs[i].remoteRtxPayloadType.Some? {
        codecs := codecs + [RecvRtx(x.codecs[i])];
      }
      assert codecs == before + [RecvCodec(x.codecs[i])] + (if x.codecs[i].remoteRtxPayloadType.Some?
        then [RecvRtx(x.codecs[i])] else []);
    }
    assert x.codecs[..|x.codecs|] == x.codecs;
    var exts: seq<ExtCap> := [];
    for i := 0 to |x.headerExtensions|
      invariant exts == RecvExts(x.headerExtensions[..i])
    {
      assert x.headerExtensions[..i + 1][..i] == x.headerExtensions[..i];
      var e := x.headerExtensions[i];
      if Receives(e.direction.value) {
        exts := exts + [ExtCap(e.kind, e.uri, e.recvId, e.encrypt, e.direction.value)];
      }
    }
    assert x.headerExtensions[..|x.headerExtensions|] == x.headerExtensions;
    caps := Item(RawCaps(Present(codecs), Present(AsRawExtCaps(exts))));
  }

  // ----- closure under validation -----

  predicate Numbered(xs: seq<ExtendedCodec>) {
    forall i :: 0 <= i < |xs| ==> xs[i].remotePayloadType.Some?
  }

  predicate CodecsOk(xs: seq<ExtendedCodec>) {
    forall i :: 0 <= i < |xs| ==> ExtendedCodecOk(xs[i])
  }

  /** The entries of the validated receiving capabilities. */
  function RecvMain(x: ExtendedCodec): Codec {
    Codec(x.mimeType, x.kind, x.remotePayloadType, x.clockRate, x.channels, x.localParameters, x.rtcpFeedback)
  }

  function RecvRtxEntry(x: ExtendedCodec): Codec
    requires x.remotePayloadType.Some?
  {
    Codec(x.kind + "/rtx", x.kind, x.remoteRtxPayloadType, x.clockRate, if x.kind == "audio" then Some(1) else None,
      AptOnly(x.remotePayloadType.value), [])
  }

  function RecvEntries(xs: seq<ExtendedCodec>): seq<Codec>
    requires RemoteRtxNumbered(xs)
  {
    if xs == [] then []
    else
      var x := xs[|xs| - 1];
      RecvEntries(xs[..|xs| - 1]) + [RecvMain(x)] + (if x.remoteRtxPayloadType.Some? then [RecvRtxEntry(x)] else [])
  }

  lemma MainValidates(x: ExtendedCodec)
    requires ExtendedCodecOk(x)
    ensures x.remotePayloadType.Some? ==> ValidateCodecCap(RecvCodec(x)) == Ok(RecvMain(x))
    ensures x.remotePayloadType.None? ==> ValidateCodecCap(RecvCodec(x)).Err?
  {
    hide ValidateCodec, MediaKind, IsRtxMime, ValidParams;
    if x.remotePayloadType.Some? {
      assert RecvCodec(x) == AsRawCodec(RecvMain(x));
      CodecValidates(RecvMain(x), false);
    } else {
      NullPayloadType(RecvCodec(x));
    }
  }

  lemma NullPayloadType(item: Item<RawCodec>)
    requires item.Item? && item.value.payloadType.Malformed?
    ensures ValidateCodecCap(item).Err?
  {
    hide Each, MediaKind;
  }

  lemma RtxKind(kind: string, mimeType: string)
    requires MediaKind(mimeType) == Some(kind)
    ensures MediaKind(kind + "/rtx") == Some(kind) && IsRtxMime(kind + "/rtx")
  {
    var rtx := kind + "/rtx";
    assert |kind| == 5 && rtx[..5] == kind && rtx[6..] == "rtx";
    assert forall i :: 0 <= i < 5 ==> Lower(rtx)[i] == Lower(mimeType)[i];
    if "audio/" <= Lower(mimeType) {
      assert Lower(mimeType)[..5] == "audio/"[..5] == "audio";
      assert Lower(rtx) == "audio/rtx";
    } else {
      assert Lower(mimeType)[..5] == "video/"[..5] == "video";
      assert Lower(rtx) == "video/rtx";
    }
  }

  lemma RtxValidates(x: ExtendedCodec)
    requires ExtendedCodecOk(x) && x.remoteRtxPayloadType.Some?
    ensures ValidateCodecCap(RecvRtx(x)) == Ok(RecvRtxEntry(x)) && IsRtx(RecvRtxEntry(x))
  {
    hide MediaKind, IsRtxMime, Each;
    RtxKind(x.kind, x.mimeType);
    ParamsValidate(AptOnly(x.remotePayloadType.value), AptOnly(x.remotePayloadType.value));
    FeedbackValidates([]);
    assert RawFeedbacks([]) == [];
  }

  /** Entry by entry, the built codecs validate to the entries. */
  lemma {:induction false} EntriesValidate(xs: seq<ExtendedCodec>)
    requires CodecsOk(xs) && RemoteRtxNumbered(xs)
    ensures |RecvCodecs(xs)| == |RecvEntries(xs)|
    ensures Numbered(xs) ==> forall i :: 0 <= i < |RecvCodecs(xs)| ==>
      ValidateCodecCap(RecvCodecs(xs)[i]) == Ok(RecvEntries(xs)[i])
    ensures !Numbered(xs) ==> exists i :: 0 <= i < |RecvCodecs(xs)| && ValidateCodecCap(RecvCodecs(xs)[i]).Err?
  {
    hide ValidateCodecCap, RecvCodec, RecvRtx, RecvMain, RecvRtxEntry;
    if xs != [] {
      var n := |xs| - 1;
      var x := xs[n];
      EntriesValidate(xs[..n]);
      assert ExtendedCodecOk(x);
      MainValidates(x);
      if x.remoteRtxPayloadType.Some? {
        RtxValidates(x);
      }
      var before := RecvCodecs(xs[..n]);
      assert RecvCodecs(xs)[|before|] == RecvCodec(x);
      if !Numbered(xs[..n]) {
        var i :| 0 <= i < |before| && ValidateCodecCap(before[i]).Err?;
        assert RecvCodecs(xs)[i] == before[i];
      }
    }
  }

  lemma {:induction false} RecvExtsValid(es: seq<ExtendedExt>)
    requires DirectionsKnown(es) && forall i :: 0 <= i < |es| ==> ExtendedExtOk(es[i])
    ensures ValidExtCaps(RecvExts(es))
  {
    if es != [] {
      RecvExtsValid(es[..|es| - 1]);
      assert ExtendedExtOk(es[|es| - 1]);
    }
  }

  /** Receiving capabilities validate exactly when every remote codec has a payload type, and
      then to the entries. */
  lemma RecvCapsValidate(x: Extended)
    requires ExtendedOk(x) && RemoteRtxNumbered(x.codecs) && DirectionsKnown(x.headerExtensions)
    ensures ValidateCaps(RecvCaps(x)).Ok? <==> Numbered(x.codecs)
    ensures Numbered(x.codecs)
      ==> ValidateCaps(RecvCaps(x)) == Ok(Caps(RecvEntries(x.codecs), RecvExts(x.headerExtensions)))
  {
    hide Each, RecvCodecs, RecvEntries, RecvExts, ValidateCodecCap, ExtendedCodecOk, AsRawExtCaps, ValidExtCaps;
    EntriesValidate(x.codecs);
    RecvExtsValid(x.headerExtensions);
    ExtCapsValidate(RecvExts(x.headerExtensions));
    EachOk(RecvCodecs(x.codecs), ValidateCodecCap, RecvEntries(x.codecs));
    EachSucceeds(RecvCodecs(x.codecs), ValidateCodecCap);
  }

  /** Every RTX entry directly follows the codec its apt stands for: the payload type of that
      codec modulo 256. */
  predicate FollowsApt(codecs: seq<Codec>, i: nat)
    requires i < |codecs|
  {
    && i > 0 && !IsRtx(codecs[i - 1]) && codecs[i - 1].payloadType.Some?
    && Find(codecs[i].parameters, "apt") == Some(PInt(U8(codecs[i - 1].payloadType.value)))
  }

  predicate RtxFollow(codecs: seq<Codec>) {
    forall i :: 0 <= i < |codecs| && IsRtx(codecs[i]) ==> FollowsApt(codecs, i)
  }

  lemma FollowMore(before: seq<Codec>, more: seq<Codec>)
    requires RtxFollow(before) && 1 <= |more| <= 2 && !IsRtx(more[0]) && (|more| == 2 ==> FollowsApt(more, 1))
    ensures RtxFollow(before + more)
  {
    hide IsRtxMime;
    var c := before + more;
    forall i | 0 <= i < |c| && IsRtx(c[i])
      ensures FollowsApt(c, i)
    {
      if i < |before| {
        assert FollowsApt(before, i);
      } else {
        assert i == |before| + 1;
      }
    }
  }

  lemma {:induction false} RtxAdjacent(xs: seq<ExtendedCodec>)
    requires CodecsOk(xs) && RemoteRtxNumbered(xs)
    ensures RtxFollow(RecvEntries(xs))
  {
    hide IsRtxMime, MediaKind, ValidParams, RtxFollow;
    if xs == [] {
      NothingFollows();
    } else {
      var n := |xs| - 1;
      RtxAdjacent(xs[..n]);
      assert ExtendedCodecOk(xs[n]);
      var more := [RecvMain(xs[n])] + (if xs[n].remoteRtxPayloadType.Some? then [RecvRtxEntry(xs[n])] else []);
      FollowMore(RecvEntries(xs[..n]), more);
      assert RecvEntries(xs) == RecvEntries(xs[..n]) + more;
    }
  }

  lemma NothingFollows()
    ensures RtxFollow([])
  {
  }

  lemma MainIsNoRtx(x: ExtendedCodec)
    requires ExtendedCodecOk(x)
    ensures !IsRtx(RecvMain(x))
  {
  }

  /** The apt of an RTX entry is the payload type before it exactly for payload types of one
      byte. */
  lemma AptNamesCodec(codecs: seq<Codec>, i: nat)
    requires i < |codecs| && FollowsApt(codecs, i)
    ensures Find(codecs[i].parameters, "apt") == Some(PInt(codecs[i - 1].payloadType.value))
       <==> 0 <= codecs[i - 1].payloadType.value < 256
  {
  }

  predicate KnownDirection(direction: string) {
    Flip(direction).Some?
  }

  /** The extensions that both sides know have one of the four directions. */
  predicate DirectionsGiven(locals: seq<ExtCap>, remotes: seq<ExtCap>) {
    forall k :: 0 <= k < |remotes| && FindExt(locals, remotes[k]) < |locals| ==> KnownDirection(remotes[k].direction)
  }

  lemma {:induction false} DirectionsExtend(locals: seq<ExtCap>, remotes: seq<ExtCap>)
    ensures DirectionsKnown(ExtendExts(locals, remotes)) <==> DirectionsGiven(locals, remotes)
  {
    hide FindExt, Flip;
    if remotes != [] {
      var n := |remotes| - 1;
      var before, all := ExtendExts(locals, remotes[..n]), ExtendExts(locals, remotes);
      DirectionsExtend(locals, remotes[..n]);
      assert all[..|before|] == before;
      assert DirectionsGiven(locals, remotes[..n])
        <==> forall k :: 0 <= k < n && FindExt(locals, remotes[k]) < |locals| ==> KnownDirection(remotes[k].direction);
      if FindExt(locals, remotes[n]) < |locals| {
        assert all[|before|].direction == Flip(remotes[n].direction);
      } else {
        assert all == before;
      }
    }
  }

  /** Every remote codec that found a partner has a payload type. */
  predicate PickedNumbered(locals: seq<Codec>, remotes: seq<Codec>, h: H264)
    requires PairFirst(locals, remotes, h, |remotes|).Some?
  {
    var ks := Picks(locals, remotes, h, |remotes|);
    forall j :: 0 <= j < |ks| && ks[j] < |remotes| ==> remotes[ks[j]].payloadType.Some?
  }

  lemma NumberedPicks(local: Caps, remote: Caps, h: H264)
    requires CapsOk(local) && CapsOk(remote) && ExtendedOf(local, remote, h).Some?
    ensures var xs, ks := ExtendedOf(local, remote, h).value.codecs,
      Picks(local.codecs, remote.codecs, h, |remote.codecs|);
      && |ks| == |xs|
      && (forall j :: 0 <= j < |ks| ==>
            && ks[j] < |remote.codecs| && !IsRtx(remote.codecs[ks[j]])
            && xs[j].remotePayloadType == remote.codecs[ks[j]].payloadType)
      && (Numbered(xs) <==> PickedNumbered(local.codecs, remote.codecs, h))
  {
    hide ValidCaps, RtxHaveApt, SortedParams, Picks, PairFirst, Unmatched, FitsSome, Lower, IsRtxMime, FindLocal,
      PartnerOf, RtxFor;
    ExtendedSelection(local, remote, h);
    var xs := ExtendedOf(local, remote, h).value.codecs;
    forall j | 0 <= j < |xs|
      ensures xs[j].remotePayloadType
        == remote.codecs[Picks(local.codecs, remote.codecs, h, |remote.codecs|)[j]].payloadType
    {
      RtxPairing(local, remote, h, j);
    }
  }

  /** The receiving capabilities of given capabilities validate exactly if every remote codec that found
      a partner has a payload type, and then every RTX entry is next to its codec. */
  lemma RecvClosed(local: Caps, remote: Caps, h: H264)
    requires CapsOk(local) && CapsOk(remote) && ExtendedOf(local, remote, h).Some?
    requires DirectionsGiven(local.headerExtensions, remote.headerExtensions)
    ensures var x := ExtendedOf(local, remote, h).value;
      && RemoteRtxNumbered(x.codecs) && DirectionsKnown(x.headerExtensions)
      && (ValidateCaps(RecvCaps(x)).Ok? <==> PickedNumbered(local.codecs, remote.codecs, h))
      && (ValidateCaps(RecvCaps(x)).Ok? ==>
           && ValidateCaps(RecvCaps(x)).value.codecs == RecvEntries(x.codecs)
           && RtxFollow(ValidateCaps(RecvCaps(x)).value.codecs))
  {
    hide CapsOk, ValidateCaps, RecvCaps, RecvEntries, RtxFollow, MediaKind, ValidParams, IsRtxMime, Picks,
      DirectionsGiven;
    ExtendedIsOk(local, remote, h);
    DirectionsExtend(local.headerExtensions, remote.headerExtensions);
    var x := ExtendedOf(local, remote, h).value;
    NumberedPicks(local, remote, h);
    RecvCapsValidate(x);
    RtxAdjacent(x.codecs);
  }

  // ----- closure for usual capabilities -----

  /** A payload type of one byte for every codec that is not RTX. */
  predicate BytePayloads(codecs: seq<Codec>) {
    forall i :: 0 <= i < |codecs| && !IsRtx(codecs[i]) ==>
      codecs[i].payloadType.Some? && 0 <= codecs[i].payloadType.value < 256
  }

  predicate FourDirections(exts: seq<ExtCap>) {
    forall i :: 0 <= i < |exts| ==> KnownDirection(exts[i].direction)
  }

  /** An RTX entry directly behind the codec whose payload type is its apt. */
  predicate RtxNextTo(codecs: seq<Codec>, i: nat)
    requires i < |codecs|
  {
    && i > 0 && !IsRtx(codecs[i - 1]) && codecs[i - 1].payloadType.Some?
    && Find(codecs[i].parameters, "apt") == Some(PInt(codecs[i - 1].payloadType.value))
  }

  lemma {:induction false} EntriesInRange(xs: seq<ExtendedCodec>)
    requires CodecsOk(xs) && RemoteRtxNumbered(xs)
    requires forall j :: 0 <= j < |xs| ==> xs[j].remotePayloadType.Some? && 0 <= xs[j].remotePayloadType.value < 256
    ensures BytePayloads(RecvEntries(xs))
  {
    hide IsRtxMime, MediaKind, ValidParams, Find, ExtendedCodecOk;
    if xs != [] {
      var n := |xs| - 1;
      var x := xs[n];
      EntriesInRange(xs[..n]);
      if x.remoteRtxPayloadType.Some? {
        RtxValidates(x);
      }
    }
  }

  /** For any two validated capabilities with payload types of one byte and the four directions on the remote side:
      the receiving capabilities validate, validating them again changes nothing, and every
      RTX entry directly follows the codec whose payload type is its apt. */
  lemma RecvUsual(local: Caps, remote: Caps, h: H264)
    requires CapsOk(local) && CapsOk(remote) && ExtendedOf(local, remote, h).Some?
    requires BytePayloads(remote.codecs) && FourDirections(remote.headerExtensions)
    ensures var x := ExtendedOf(local, remote, h).value;
      && RemoteRtxNumbered(x.codecs) && DirectionsKnown(x.headerExtensions)
      && var v := ValidateCaps(RecvCaps(x));
      && v.Ok? && ValidateCaps(AsRawCaps(v.value)) == v
      && forall i :: 0 <= i < |v.value.codecs| && IsRtx(v.value.codecs[i]) ==> RtxNextTo(v.value.codecs, i)
  {
    hide CapsOk, ValidateCaps, AsRawCaps, RecvCaps, RecvEntries, MediaKind, ValidParams, IsRtxMime, Picks, ExtendedOf,
      Flip, Find, FindExt;
    RecvClosed(local, remote, h);
    NumberedPicks(local, remote, h);
    ExtendedIsOk(local, remote, h);
    var x := ExtendedOf(local, remote, h).value;
    EntriesInRange(x.codecs);
    var v := ValidateCaps(RecvCaps(x));
    ValidateTwice(RecvCaps(x));
    forall i | 0 <= i < |v.value.codecs| && IsRtx(v.value.codecs[i])
      ensures RtxNextTo(v.value.codecs, i)
    {
      assert FollowsApt(v.value.codecs, i);
      AptNamesCodec(v.value.codecs, i);
    }
  }

  // ----- sending parameters -----

  /** The part of RTP parameters the builders fill. */
  datatype Sending = Sending(codecs: seq<Codec>, headerExtensions: seq<Ext>)

  function FirstOfKind(xs: seq<ExtendedCodec>, kind: string): (i: nat)
    ensures i <= |xs|
    ensures i < |xs| ==> xs[i].kind == kind
    ensures forall j :: 0 <= j < i ==> xs[j].kind != kind
  {
    if xs == [] || xs[0].kind == kind then 0 else 1 + FirstOfKind(xs[1..], kind)
  }

  function SendCodec(x: ExtendedCodec, parameters: Params): Codec {
    Codec(x.mimeType, x.kind, x.localPayloadType, x.clockRate, x.channels, parameters, x.rtcpFeedback)
  }

  function SendRtx(x: ExtendedCodec): Codec
    requires x.localPayloadType.Some?
  {
    Codec(x.kind + "/rtx", x.kind, x.localRtxPayloadType, x.clockRate, None, AptOnly(x.localPayloadType.value), [])
  }

  predicate LocalRtxNumbered(xs: seq<ExtendedCodec>) {
    forall i :: 0 <= i < |xs| ==> xs[i].localRtxPayloadType.Some? ==> xs[i].localPayloadType.Some?
  }

  /** The first codec of a kind with its RTX codec; local or remote parameters. */
  function SendCodecs(xs: seq<ExtendedCodec>, kind: string, remote: bool): seq<Codec>
    requires LocalRtxNumbered(xs)
  {
    var i := FirstOfKind(xs, kind);
    if i == |xs| then []
    else
      [SendCodec(xs[i], if remote then xs[i].remoteParameters else xs[i].localParameters)]
      + (if xs[i].localRtxPayloadType.Some? then [SendRtx(xs[i])] else [])
  }

  predicate Sends(direction: string) {
    direction == "sendrecv" || direction == "sendonly"
  }

  function SendExts(es: seq<ExtendedExt>, kind: string): seq<Ext>
    requires DirectionsKnown(es)
  {
    if es == [] then []
    else
      var e := es[|es| - 1];
      SendExts(es[..|es| - 1], kind)
      + (if e.kind == kind && Sends(e.direction.value) then [Ext(e.uri, e.sendId, e.encrypt, [])] else [])
  }

  function SendingOf(kind: string, x: Extended): Sending
    requires LocalRtxNumbered(x.codecs) && DirectionsKnown(x.headerExtensions)
  {
    Sending(SendCodecs(x.codecs, kind, false), SendExts(x.headerExtensions, kind))
  }

  method CollectSendExts(es: seq<ExtendedExt>, kind: string) returns (r: seq<Ext>)
    requires DirectionsKnown(es)
    ensures r == SendExts(es, kind)
  {
    r := [];
    for i := 0 to |es|
      invariant r == SendExts(es[..i], kind)
    {
      assert es[..i + 1][..i] == es[..i];
      if es[i].kind == kind {
        if Sends(es[i].direction.value) {
          r := r + [Ext(es[i].uri, es[i].sendId, es[i].encrypt, [])];
        }
      }
    }
    assert es[..|es|] == es;
  }

  /** The codec loop of both builders stops behind the first codec of the kind. */
  method CollectSendCodecs(xs: seq<ExtendedCodec>, kind: string, remote: bool) returns (codecs: seq<Codec>)
    requires LocalRtxNumbered(xs)
    ensures codecs == SendCodecs(xs, kind, remote)
  {
    codecs := [];
    for i := 0 to |xs|
      invariant codecs == [] && forall j :: 0 <= j < i ==> xs[j].kind != kind
    {
      if xs[i].kind == kind {
        codecs := codecs + [SendCodec(xs[i], if remote then xs[i].remoteParameters else xs[i].localParameters)];
        if xs[i].localRtxPayloadType.Some? {
          codecs := codecs + [SendRtx(xs[i])];
        }
        break;
      }
    }
  }

  /** getSendingRtpParameters */
  method GetSendingRtpParameters(kind: string, x: Extended) returns (r: Sending)
    requires LocalRtxNumbered(x.codecs) && DirectionsKnown(x.headerExtensions)
    ensures r == SendingOf(kind, x)
  {
    var codecs := CollectSendCodecs(x.codecs, kind, false);
    var exts := CollectSendExts(x.headerExtensions, kind);
    r := Sending(codecs, exts);
  }

  // ----- congestion control feedback -----

  const TRANSPORT_CC_URI := "http://www.ietf.org/id/draft-holmer-rmcat-transport-wide-cc-extensions-01"
  const ABS_SEND_TIME_URI := "http://www.webrtc.org/experiments/rtp-hdrext/abs-send-time"

  predicate HasExt(exts: seq<Ext>, uri: string) {
    exists i :: 0 <= i < |exts| && exts[i].uri == uri
  }

  function Without(fbs: seq<Feedback>, kinds: set<string>): seq<Feedback> {
    if fbs == [] then []
    else
      var fb := fbs[|fbs| - 1];
      Without(fbs[..|fbs| - 1], kinds) + (if fb.kind in kinds then [] else [fb])
  }

  /** Transport-CC if its extension is there, else REMB if that of REMB is, else neither. */
  function Dropped(exts: seq<Ext>): set<string> {
    if HasExt(exts, TRANSPORT_CC_URI) then {"goog-remb"}
    else if HasExt(exts, ABS_SEND_TIME_URI) then {"transport-cc"}
    else {"transport-cc", "goog-remb"}
  }

  function Reduced(codecs: seq<Codec>, kinds: set<string>): (r: seq<Codec>)
    ensures |r| == |codecs|
  {
    seq(|codecs|, i requires 0 <= i < |codecs| => codecs[i].(rtcpFeedback := Without(codecs[i].rtcpFeedback, kinds)))
  }

  function RemoteSendingOf(kind: string, x: Extended): Sending
    requires LocalRtxNumbered(x.codecs) && DirectionsKnown(x.headerExtensions)
  {
    var exts := SendExts(x.headerExtensions, kind);
    Sending(Reduced(SendCodecs(x.codecs, kind, true), Dropped(exts)), exts)
  }

  /** The erase loop: what is behind the cursor has not been looked at. */
  method EraseFeedback(given: seq<Feedback>, kinds: set<string>) returns (fbs: seq<Feedback>)
    ensures fbs == Without(given, kinds)
  {
    fbs := given;
    var it := 0;
    ghost var seen := 0;
    while it < |fbs|
      invariant it <= |fbs| && seen <= |given|
      invariant fbs[..it] == Without(given[..seen], kinds) && fbs[it..] == given[seen..]
      decreases |given| - seen
    {
      assert given[seen..][0] == fbs[it..][0] == fbs[it];
      assert given[..seen + 1][..seen] == given[..seen];
      if fbs[it].kind in kinds {
        ghost var rest := fbs[it + 1..];
        assert rest == fbs[it..][1..];
        fbs := fbs[..it] + fbs[it + 1..];
      } else {
        assert fbs[..it + 1] == fbs[..it] + [fbs[it]];
        assert fbs[it + 1..] == fbs[it..][1..];
        it := it + 1;
      }
      seen := seen + 1;
    }
    assert fbs[..it] == fbs && given[..seen] == given;
  }

  method ReduceAll(codecs: seq<Codec>, kinds: set<string>) returns (r: seq<Codec>)
    ensures r == Reduced(codecs, kinds)
  {
    r := codecs;
    for i := 0 to |codecs|
      invariant |r| == |codecs|
      invariant forall j :: 0 <= j < |codecs| ==> r[j] == if j < i then Reduced(codecs, kinds)[j] else codecs[j]
    {
      var fbs := EraseFeedback(r[i].rtcpFeedback, kinds);
      r := r[i := r[i].(rtcpFeedback := fbs)];
    }
  }

  method FindExtension(exts: seq<Ext>, uri: string) returns (found: bool)
    ensures found == HasExt(exts, uri)
  {
    for i := 0 to |exts|
      invariant forall j :: 0 <= j < i ==> exts[j].uri != uri
    {
      if exts[i].uri == uri {
        return true;
      }
    }
    return false;
  }

  /** getSendingRemoteRtpParameters */
  method GetSendingRemoteRtpParameters(kind: string, x: Extended) returns (r: Sending)
    requires LocalRtxNumbered(x.codecs) && DirectionsKnown(x.headerExtensions)
    ensures r == RemoteSendingOf(kind, x)
  {
    hide HasExt, SendCodecs, SendExts, Without;
    var codecs := CollectSendCodecs(x.codecs, kind, true);
    var exts := CollectSendExts(x.headerExtensions, kind);
    var transportCc := FindExtension(exts, TRANSPORT_CC_URI);
    if transportCc {
      codecs := ReduceAll(codecs, {"goog-remb"});
      return Sending(codecs, exts);
    }
    var absSendTime := FindExtension(exts, ABS_SEND_TIME_URI);
    if absSendTime {
      codecs := ReduceAll(codecs, {"transport-cc"});
      return Sending(codecs, exts);
    }
    codecs := ReduceAll(codecs, {"transport-cc", "goog-remb"});
    r := Sending(codecs, exts);
  }

  /** Exactly the feedback of other kinds, each as often as before. */
  lemma {:induction false} WithoutIs(fbs: seq<Feedback>, kinds: set<string>, fb: Feedback)
    ensures multiset(Without(fbs, kinds))[fb] == if fb.kind in kinds then 0 else multiset(fbs)[fb]
    ensures fb in Without(fbs, kinds) <==> fb in fbs && fb.kind !in kinds
  {
    if fbs != [] {
      WithoutIs(fbs[..|fbs| - 1], kinds, fb);
      assert fbs == fbs[..|fbs| - 1] + [fbs[|fbs| - 1]];
    }
  }

  predicate SameShape(a: Codec, b: Codec) {
    a.mimeType == b.mimeType && a.payloadType == b.payloadType && a.clockRate == b.clockRate && a.channels == b.channels
  }

  predicate Aligned(a: seq<Codec>, b: seq<Codec>) {
    |a| == |b| && forall i :: 0 <= i < |a| ==> SameShape(a[i], b[i])
  }

  predicate HasKind(fbs: seq<Feedback>, kind: string) {
    exists i :: 0 <= i < |fbs| && fbs[i].kind == kind
  }

  predicate HasTransportCc(exts: seq<Ext>) {
    exists i :: 0 <= i < |exts|
      && exts[i].uri == "http://www.ietf.org/id/draft-holmer-rmcat-transport-wide-cc-extensions-01"
  }

  predicate HasAbsSendTime(exts: seq<Ext>) {
    exists i :: 0 <= i < |exts| && exts[i].uri == "http://www.webrtc.org/experiments/rtp-hdrext/abs-send-time"
  }

  /** The feedback of a kind that goes with the header extensions that are sent. */
  predicate Wanted(exts: seq<Ext>, kind: string) {
    if HasTransportCc(exts) then kind != "goog-remb"
    else if HasAbsSendTime(exts) then kind != "transport-cc"
    else kind != "goog-remb" && kind != "transport-cc"
  }

  lemma DroppedIs(exts: seq<Ext>, kind: string)
    ensures kind in Dropped(exts) <==> !Wanted(exts, kind)
  {
    hide HasTransportCc, HasAbsSendTime, HasExt;
    assert HasExt(exts, TRANSPORT_CC_URI) <==> HasTransportCc(exts) by { TransportCcIs(exts); }
    assert HasExt(exts, ABS_SEND_TIME_URI) <==> HasAbsSendTime(exts) by { AbsSendTimeIs(exts); }
  }

  lemma TransportCcIs(exts: seq<Ext>)
    ensures HasExt(exts, TRANSPORT_CC_URI) <==> HasTransportCc(exts)
  {
  }

  lemma AbsSendTimeIs(exts: seq<Ext>)
    ensures HasExt(exts, ABS_SEND_TIME_URI) <==> HasAbsSendTime(exts)
  {
  }

  /** Exactly the wanted feedback among the given one. */
  ghost predicate AsksFor(asked: seq<Feedback>, given: seq<Feedback>, exts: seq<Ext>) {
    forall fb :: fb in asked <==> fb in given && Wanted(exts, fb.kind)
  }

  /** The two sets of parameters agree, the remote set asks for the feedback that goes with the header extensions,
      and never for both kinds of congestion control. */
  lemma SendingAgrees(kind: string, x: Extended)
    requires LocalRtxNumbered(x.codecs) && DirectionsKnown(x.headerExtensions)
    ensures var a, b := SendingOf(kind, x), RemoteSendingOf(kind, x);
      && Aligned(a.codecs, b.codecs) && a.headerExtensions == b.headerExtensions
      && forall i :: 0 <= i < |b.codecs| ==>
           && b.codecs[i].rtcpFeedback == Without(a.codecs[i].rtcpFeedback, Dropped(b.headerExtensions))
           && AsksFor(b.codecs[i].rtcpFeedback, a.codecs[i].rtcpFeedback, b.headerExtensions)
           && !(HasKind(b.codecs[i].rtcpFeedback, "transport-cc") && HasKind(b.codecs[i].rtcpFeedback, "goog-remb"))
  {
    hide Without, SendExts, HasExt, Wanted, HasKind;
    var a, b := SendingOf(kind, x), RemoteSendingOf(kind, x);
    forall i | 0 <= i < |b.codecs|
      ensures AsksFor(b.codecs[i].rtcpFeedback, a.codecs[i].rtcpFeedback, b.headerExtensions)
      ensures !(HasKind(b.codecs[i].rtcpFeedback, "transport-cc") && HasKind(b.codecs[i].rtcpFeedback, "goog-remb"))
    {
      var given, asked := a.codecs[i].rtcpFeedback, b.codecs[i].rtcpFeedback;
      forall fb: Feedback
        ensures fb in asked <==> fb in given && Wanted(b.headerExtensions, fb.kind)
      {
        WithoutIs(given, Dropped(b.headerExtensions), fb);
        DroppedIs(b.headerExtensions, fb.kind);
      }
      NotBoth(asked, given, b.headerExtensions);
    }
  }

  lemma NotBoth(asked: seq<Feedback>, given: seq<Feedback>, exts: seq<Ext>)
    requires AsksFor(asked, given, exts)
    ensures !(HasKind(asked, "transport-cc") && HasKind(asked, "goog-remb"))
  {
    hide HasTransportCc, HasAbsSendTime;
    forall i, j | 0 <= i < |asked| && 0 <= j < |asked|
      ensures asked[i].kind != "transport-cc" || asked[j].kind != "goog-remb"
    {
      assert asked[i] in asked && asked[j] in asked;
    }
  }

  // ----- canSend -----

  predicate CanSend(kind: string, x: Extended) {
    exists i :: 0 <= i < |x.codecs| && x.codecs[i].kind == kind
  }

  method CheckCanSend(kind: string, x: Extended) returns (r: bool)
    ensures r == CanSend(kind, x)
  {
    for i := 0 to |x.codecs|
      invariant forall j :: 0 <= j < i ==> x.codecs[j].kind != kind
    {
      if x.codecs[i].kind == kind {
        return true;
      }
    }
    return false;
  }

  /** Media of a kind can be sent exactly when both builders yield a codec. */
  lemma CanSendBuilds(kind: string, x: Extended)
    requires LocalRtxNumbered(x.codecs) && DirectionsKnown(x.headerExtensions)
    ensures CanSend(kind, x) <==> SendingOf(kind, x).codecs != []
    ensures CanSend(kind, x) <==> RemoteSendingOf(kind, x).codecs != []
  {
    hide SendExts, Without, HasExt;
    var i := FirstOfKind(x.codecs, kind);
    if CanSend(kind, x) {
      var j :| 0 <= j < |x.codecs| && x.codecs[j].kind == kind;
      assert i <= j;
    }
  }

  // ----- reduceCodecs -----

  function MatchIndex(codecs: seq<Codec>, cap: Codec): (i: nat)
    ensures i <= |codecs|
    ensures i < |codecs| ==> SameMedia(codecs[i], cap)
    ensures forall j :: 0 <= j < i ==> !SameMedia(codecs[j], cap)
  {
    if codecs == [] || SameMedia(codecs[0], cap) then 0 else 1 + MatchIndex(codecs[1..], cap)
  }

  function Kept(codecs: seq<Codec>, i: nat): seq<Codec>
    requires i < |codecs|
  {
    if i + 1 < |codecs| && IsRtx(codecs[i + 1]) then codecs[i..i + 2] else [codecs[i]]
  }

  /** The first entry of an empty array is a null entry. An entry behind the end is null as well:
      looking for its MIME type throws. */
  datatype Reduction = Selected(codecs: seq<Codec>) | OnlyNull | Refused(message: string)

  const NO_MATCH := "no matching codec found"
  const NULL_ENTRY := "cannot use operator[] with a string argument with null"

  function ReduceCodecs(codecs: seq<Codec>, cap: Option<Codec>): Reduction {
    if cap.None? then (if codecs == [] then OnlyNull else Selected(Kept(codecs, 0)))
    else
      var i := MatchIndex(codecs, cap.value);
      if i == |codecs| then Refused(NO_MATCH)
      else if i + 1 == |codecs| then Refused(NULL_ENTRY)
      else Selected(Kept(codecs, i))
  }

  /** reduceCodecs */
  method GetReducedCodecs(codecs: seq<Codec>, cap: Option<Codec>) returns (r: Reduction)
    ensures r == ReduceCodecs(codecs, cap)
  {
    hide IsRtxMime, SameMedia;
    var filtered: seq<Codec> := [];
    if cap.None? {
      if codecs == [] {
        return OnlyNull;
      }
      filtered := filtered + [codecs[0]];
      if |codecs| > 1 && IsRtx(codecs[1]) {
        filtered := filtered + [codecs[1]];
      }
      assert filtered == Kept(codecs, 0);
    } else {
      for idx := 0 to |codecs|
        invariant filtered == [] && forall j :: 0 <= j < idx ==> !SameMedia(codecs[j], cap.value)
      {
        if SameMedia(codecs[idx], cap.value) {
          assert MatchIndex(codecs, cap.value) == idx;
          filtered := filtered + [codecs[idx]];
          if idx + 1 == |codecs| {
            return Refused(NULL_ENTRY);
          }
          if IsRtx(codecs[idx + 1]) {
            filtered := filtered + [codecs[idx + 1]];
          }
          assert filtered == Kept(codecs, idx);
          break;
        }
      }
      if |filtered| == 0 {
        return Refused(NO_MATCH);
      }
    }
    r := Selected(filtered);
  }

  lemma {:induction false} SameIndex(a: seq<Codec>, b: seq<Codec>, cap: Codec)
    requires Aligned(a, b)
    ensures MatchIndex(a, cap) == MatchIndex(b, cap)
  {
    hide Lower;
    if a != [] {
      assert SameShape(a[0], b[0]);
      SameIndex(a[1..], b[1..], cap);
    }
  }

  /** Aligned lists are reduced alike: the same positions are kept, or both are refused. */
  lemma ReduceAligned(a: seq<Codec>, b: seq<Codec>, cap: Option<Codec>)
    requires Aligned(a, b)
    ensures var r, s := ReduceCodecs(a, cap), ReduceCodecs(b, cap);
      if r.Selected? then s.Selected? && Aligned(r.codecs, s.codecs) else r == s
  {
    hide IsRtxMime, SameMedia;
    if cap.Some? {
      SameIndex(a, b, cap.value);
    }
  }

  /** A codec alone, or with the RTX codec whose apt is its payload type modulo 256. */
  predicate MainAndRtx(codecs: seq<Codec>) {
    && 1 <= |codecs| <= 2 && !IsRtx(codecs[0])
    && (|codecs| == 2 ==> IsRtx(codecs[1]) && FollowsApt(codecs, 1))
  }

  lemma SendingShape(kind: string, x: Extended)
    requires ExtendedOk(x) && LocalRtxNumbered(x.codecs) && DirectionsKnown(x.headerExtensions)
    ensures var a, b := SendingOf(kind, x).codecs, RemoteSendingOf(kind, x).codecs;
      (a != [] ==> MainAndRtx(a)) && (b != [] ==> MainAndRtx(b))
  {
    hide IsRtxMime, MediaKind, ValidParams, SendExts, HasExt, Without;
    var i := FirstOfKind(x.codecs, kind);
    if i < |x.codecs| {
      assert ExtendedCodecOk(x.codecs[i]);
      RtxKind(x.codecs[i].kind, x.codecs[i].mimeType);
    }
  }

  /** For such a list: a given codec selects it exactly if it is the media codec and there is an RTX
      codec; it is unknown exactly if it is neither; and otherwise the null entry behind the
      list is read. */
  lemma SelectedNeedsRtx(codecs: seq<Codec>, cap: Codec)
    requires MainAndRtx(codecs)
    ensures var r := ReduceCodecs(codecs, Some(cap));
      && (r == Selected(codecs) <==> |codecs| == 2 && SameMedia(codecs[0], cap))
      && (r == Refused("no matching codec found") <==> forall i :: 0 <= i < |codecs| ==> !SameMedia(codecs[i], cap))
      && (r == Refused(NULL_ENTRY) <==>
           && (exists i :: 0 <= i < |codecs| && SameMedia(codecs[i], cap))
           && !(|codecs| == 2 && SameMedia(codecs[0], cap)))
  {
    hide IsRtxMime, SameMedia, FollowsApt;
    var i := MatchIndex(codecs, cap);
    if |codecs| == 2 {
      assert codecs[0..2] == codecs;
    }
    if i < |codecs| {
      assert SameMedia(codecs[i], cap);
    }
  }

  lemma WholeIsKept(codecs: seq<Codec>)
    requires codecs != [] && MainAndRtx(codecs)
    ensures ReduceCodecs(codecs, None) == Selected(codecs)
  {
    hide IsRtxMime, FollowsApt;
    if |codecs| == 2 {
      assert codecs[0..2] == codecs;
    } else {
      assert [codecs[0]] == codecs;
    }
  }

  /** The codec of a kind that is sent, and whether it comes with RTX. */
  predicate SelectedBy(kind: string, x: Extended, cap: Codec) {
    var i := FirstOfKind(x.codecs, kind);
    && i < |x.codecs| && x.codecs[i].localRtxPayloadType.Some?
    && Lower(x.codecs[i].mimeType) == Lower(cap.mimeType) && x.codecs[i].clockRate == cap.clockRate
    && x.codecs[i].channels == cap.channels
  }

  /** Reducing the parameters of both sides with the same codec: without one, everything is kept,
      if there is anything; with one, everything is kept exactly if it is the codec that is sent
      and that comes with RTX, and nothing otherwise. What is kept has the same payload types on
      both sides and RTX next to the codec its apt stands for. */
  lemma ReducedSending(kind: string, x: Extended, cap: Option<Codec>)
    requires ExtendedOk(x) && LocalRtxNumbered(x.codecs) && DirectionsKnown(x.headerExtensions)
    ensures var a, b := SendingOf(kind, x).codecs, RemoteSendingOf(kind, x).codecs;
      && Aligned(a, b) && (a != [] ==> MainAndRtx(a) && MainAndRtx(b))
      && (ReduceCodecs(a, cap).Selected? <==> if cap.None? then CanSend(kind, x) else SelectedBy(kind, x, cap.value))
      && (ReduceCodecs(a, cap).Selected? ==> ReduceCodecs(a, cap) == Selected(a) && ReduceCodecs(b, cap) == Selected(b))
      && (!ReduceCodecs(a, cap).Selected? ==> ReduceCodecs(b, cap) == ReduceCodecs(a, cap))
  {
    hide IsRtxMime, Lower, RemoteSendingOf, ExtendedCodecOk, SendExts, MainAndRtx, CanSend;
    var a, b := SendingOf(kind, x).codecs, RemoteSendingOf(kind, x).codecs;
    SendingAgrees(kind, x);
    CanSendBuilds(kind, x);
    ReduceAligned(a, b, cap);
    SendingShape(kind, x);
    if a != [] {
      if cap.None? {
        WholeIsKept(a);
        WholeIsKept(b);
      } else {
        assert |a| == 2 <==> x.codecs[FirstOfKind(x.codecs, kind)].localRtxPayloadType.Some?;
        SelectedNeedsRtx(a, cap.value);
        SelectedNeedsRtx(b, cap.value);
      }
    }
  }

  function Opus(): Codec {
    Codec("audio/opus", "audio", Some(111), 48000, Some(2), [], [])
  }

  /** Opus without RTX cannot be selected by itself, and an RTX codec can be selected by nothing but a read
      of the null entry. */
  lemma OpusAlone(main: Codec, rtx: Codec)
    requires MainAndRtx([main, rtx])
    ensures ReduceCodecs([Opus()], Some(Opus())) == Refused(NULL_ENTRY)
    ensures ReduceCodecs([main, rtx], Some(rtx)) == Refused(NULL_ENTRY)
  {
    hide Lower;
    assert [main, rtx][1..] == [rtx];
  }

  /** The parameters as the SDP code takes them. */
  function AsParameters(c: Codec): CodecParameters
    requires c.payloadType.Some?
  {
    CodecParameters(c.mimeType, c.payloadType.value, c.clockRate, c.channels, c.parameters, c.rtcpFeedback)
  }

  predicate AllNumbered(codecs: seq<Codec>) {
    forall i :: 0 <= i < |codecs| ==> codecs[i].payloadType.Some?
  }

  function AllAsParameters(codecs: seq<Codec>): (r: seq<CodecParameters>)
    requires AllNumbered(codecs)
    ensures |r| == |codecs|
  {
    seq(|codecs|, i requires 0 <= i < |codecs| => AsParameters(codecs[i]))
  }

  /** The unchecked lookup of the offered codec in AnswerMediaSection finds one. */
  lemma LookupSucceeds(a: seq<Codec>, b: seq<Codec>)
    requires Aligned(a, b) && AllNumbered(a) && AllNumbered(b)
    ensures Findable(AllAsParameters(a), AllAsParameters(b))
  {
    var offered, codecs := AllAsParameters(a), AllAsParameters(b);
    forall i | 0 <= i < |codecs|
      ensures CodecFor(offered, codecs[i].payloadType) < |offered|
    {
      assert SameShape(a[i], b[i]) && offered[i].payloadType == codecs[i].payloadType;
    }
  }

  /** So the lookup finds every codec of a reduced answer among the reduced offered codecs, if the
      codec that is sent has a payload type. */
  lemma ReducedFindable(kind: string, x: Extended, cap: Option<Codec>)
    requires ExtendedOk(x) && LocalRtxNumbered(x.codecs) && DirectionsKnown(x.headerExtensions)
    requires ReduceCodecs(SendingOf(kind, x).codecs, cap).Selected?
    ensures var a, b := ReduceCodecs(SendingOf(kind, x).codecs, cap),
      ReduceCodecs(RemoteSendingOf(kind, x).codecs, cap);
      && b.Selected? && FirstOfKind(x.codecs, kind) < |x.codecs|
      && (AllNumbered(a.codecs) <==> x.codecs[FirstOfKind(x.codecs, kind)].localPayloadType.Some?)
      && (AllNumbered(a.codecs) ==>
        AllNumbered(b.codecs)
        && Findable(AllAsParameters(a.codecs), AllAsParameters(b.codecs)))
  {
    hide IsRtxMime, Lower, RemoteSendingOf, ExtendedCodecOk, SendExts, MainAndRtx, CanSend, Findable, AllAsParameters,
      ReduceCodecs;
    ReducedSending(kind, x, cap);
    var a, b := SendingOf(kind, x).codecs, RemoteSendingOf(kind, x).codecs;
    if a == [] {
      EmptyStays(cap);
    } else {
      var first := x.codecs[FirstOfKind(x.codecs, kind)];
      assert a[0].payloadType == first.localPayloadType && (|a| == 2 ==> a[1].payloadType == first.localRtxPayloadType);
    }
    if a != [] && AllNumbered(a) {
      forall i | 0 <= i < |b|
        ensures b[i].payloadType.Some?
      {
        assert SameShape(a[i], b[i]);
      }
      LookupSucceeds(a, b);
    }
  }

  lemma EmptyStays(cap: Option<Codec>)
    ensures !ReduceCodecs([], cap).Selected?
  {
  }

  // ----- canReceive -----

  predicate KnowsPayloadType(x: Extended, payloadType: Option<int>) {
    exists i :: 0 <= i < |x.codecs| && x.codecs[i].remotePayloadType == payloadType
  }

  function CanReceive(rtp: Item<RawRtp>, x: Extended): Result<bool> {
    match ValidateRtp(rtp)
    case Err(m) => Err(m)
    case Ok(v) => if v.codecs == [] then Ok(false) else Ok(KnowsPayloadType(x, v.codecs[0].payloadType))
  }

  method CheckCanReceive(rtp: Item<RawRtp>, x: Extended) returns (r: Result<bool>)
    ensures r == CanReceive(rtp, x)
  {
    hide ValidateRtp;
    var v := CheckRtp(rtp);
    if v.Err? {
      return Err(v.message);
    }
    if v.value.codecs == [] {
      return Ok(false);
    }
    var first := v.value.codecs[0];
    for i := 0 to |x.codecs|
      invariant forall j :: 0 <= j < i ==> x.codecs[j].remotePayloadType != first.payloadType
    {
      if x.codecs[i].remotePayloadType == first.payloadType {
        return Ok(true);
      }
    }
    return Ok(false);
  }

  /** A media entry, not an RTX entry, of the receiving capabilities. */
  predicate HasMediaEntry(codecs: seq<Codec>, payloadType: Option<int>) {
    exists i :: 0 <= i < |codecs| && !IsRtx(codecs[i]) && codecs[i].payloadType == payloadType
  }

  lemma {:induction false} KnownIsEntry(xs: seq<ExtendedCodec>, payloadType: Option<int>)
    requires CodecsOk(xs) && RemoteRtxNumbered(xs)
    ensures HasMediaEntry(RecvEntries(xs), payloadType) <==> exists i ::
      0 <= i < |xs| && xs[i].remotePayloadType == payloadType
  {
    hide IsRtxMime, MediaKind, ValidParams, ExtendedCodecOk;
    if xs != [] {
      var n := |xs| - 1;
      var x, before, c := xs[n], RecvEntries(xs[..n]), RecvEntries(xs);
      KnownIsEntry(xs[..n], payloadType);
      assert ExtendedCodecOk(x);
      MainIsNoRtx(x);
      assert c[|before|] == RecvMain(x);
      if x.remoteRtxPayloadType.Some? {
        RtxValidates(x);
        assert IsRtx(c[|before| + 1]);
      }
      if HasMediaEntry(before, payloadType) {
        var i :| 0 <= i < |before| && !IsRtx(before[i]) && before[i].payloadType == payloadType;
        assert c[i] == before[i];
      }
      if HasMediaEntry(c, payloadType) {
        var i :| 0 <= i < |c| && !IsRtx(c[i]) && c[i].payloadType == payloadType;
        if i < |before| {
          assert before[i] == c[i];
        } else {
          assert i == |before|;
        }
      }
      if i :| 0 <= i < |xs[..n]| && xs[..n][i].remotePayloadType == payloadType {
        assert xs[i] == xs[..n][i];
      }
      if i :| 0 <= i < |xs| && xs[i].remotePayloadType == payloadType {
        assert i < n ==> xs[..n][i] == xs[i];
      }
    }
  }

  /** Valid parameters with a codec can be received exactly when the first payload type is that
      of a media entry of the receiving capabilities. */
  lemma CanReceiveKnown(rtp: Item<RawRtp>, x: Extended)
    requires ExtendedOk(x) && RemoteRtxNumbered(x.codecs)
    requires ValidateRtp(rtp).Ok? && ValidateRtp(rtp).value.codecs != []
    ensures CanReceive(rtp, x) == Ok(HasMediaEntry(RecvEntries(x.codecs), ValidateRtp(rtp).value.codecs[0].payloadType))
  {
    hide ValidateRtp, RecvEntries, HasMediaEntry, ExtendedCodecOk;
    KnownIsEntry(x.codecs, ValidateRtp(rtp).value.codecs[0].payloadType);
  }

  // ----- the probator -----

  const PROBATOR_SSRC := 1234

  predicate IsBandwidthExt(e: Ext) {
    e.uri == ABS_SEND_TIME_URI || e.uri == TRANSPORT_CC_URI
  }

  function BandwidthExts(exts: seq<Ext>): seq<Ext> {
    if exts == [] then []
    else BandwidthExts(exts[..|exts| - 1]) + (if IsBandwidthExt(exts[|exts| - 1]) then [exts[|exts| - 1]] else [])
  }

  /** Reading the first codec of an empty array yields null. */
  function ProbatorOf(v: Rtp): Item<RawRtp> {
    Item(RawRtp(Present("probator"), Present([if v.codecs == [] then NotAnObject else AsRawCodec(v.codecs[0])]),
      Present(AsRawExts(BandwidthExts(v.headerExtensions))),
      Present([Item(RawEncoding(Present(PROBATOR_SSRC), Absent, Absent, Absent, Absent))]),
      Present(RawRtcp(Present("probator"), Absent))))
  }

  /** generateProbatorRtpParameters */
  method GenerateProbatorRtpParameters(video: Item<RawRtp>) returns (r: Result<Item<RawRtp>>)
    ensures r == match ValidateRtp(video) { case Err(m) => Err(m) case Ok(v) => Ok(ProbatorOf(v)) }
  {
    hide ValidateRtp;
    var v := CheckRtp(video);
    if v.Err? {
      return Err(v.message);
    }
    var given := v.value.headerExtensions;
    var exts: seq<Ext> := [];
    for i := 0 to |given|
      invariant exts == BandwidthExts(given[..i])
    {
      assert given[..i + 1][..i] == given[..i];
      if IsBandwidthExt(given[i]) {
        exts := exts + [given[i]];
      }
    }
    assert given[..|given|] == given;
    var codec := if v.value.codecs == [] then NotAnObject else AsRawCodec(v.value.codecs[0]);
    var encoding := RawEncoding(Present(PROBATOR_SSRC), Absent, Absent, Absent, Absent);
    r := Ok(Item(RawRtp(Present("probator"), Present([codec]), Present(AsRawExts(exts)), Present([Item(encoding)]),
      Present(RawRtcp(Present("probator"), Absent)))));
  }

  /** The probator parameters as they validate. */
  function ProbatorRtp(v: Rtp): Rtp
    requires v.codecs != []
  {
    Rtp(Some("probator"), [v.codecs[0]], BandwidthExts(v.headerExtensions),
      [Encoding(Some(PROBATOR_SSRC), None, None, false, None)], Some("probator"), true)
  }

  lemma {:induction false} BandwidthValid(exts: seq<Ext>)
    requires forall i :: 0 <= i < |exts| ==> ValidExt(exts[i])
    ensures forall i :: 0 <= i < |BandwidthExts(exts)| ==>
      ValidExt(BandwidthExts(exts)[i]) && IsBandwidthExt(BandwidthExts(exts)[i])
  {
    hide ValidExt, IsBandwidthExt;
    if exts != [] {
      BandwidthValid(exts[..|exts| - 1]);
    }
  }

  lemma ProbatorValidates(v: Rtp)
    requires ValidRtp(v) && v.codecs != []
    ensures ValidateRtp(ProbatorOf(v)) == Ok(ProbatorRtp(v))
  {
    hide Each, ValidateCodec, ValidExt, ValidCodec, AsRawCodec, BandwidthExts;
    BandwidthValid(v.headerExtensions);
    var p := ProbatorRtp(v);
    RtpValidates(p);
    var raw, same := ProbatorOf(v).value, AsRawRtp(p).value;
    assert raw.codecs.value == AsRawCodecs(p.codecs);
    assert ValidateEncoding(raw.encodings.value[0]) == ValidateEncoding(same.encodings.value[0]) == Ok(p.encodings[0]);
    EachOk(raw.encodings.value, ValidateEncoding, p.encodings);
    EachOk(same.encodings.value, ValidateEncoding, p.encodings);
  }

  lemma NullCodec(v: Rtp)
    requires v.codecs == []
    ensures ValidateRtp(ProbatorOf(v)).Err?
  {
    hide ValidateCodec;
    EachSucceeds(ProbatorOf(v).value.codecs.value, ValidateCodecParameters);
    assert ValidateCodecParameters(NotAnObject).Err? by {
      NotAnObjectFails();
    }
  }

  lemma NotAnObjectFails()
    ensures ValidateCodec(NotAnObject, true).Err?
  {
  }

  /** The probator parameters made from valid parameters are receivable exactly when those are,
      unless there is no codec: then they do not validate. */
  lemma ProbatorReceivable(rtp: Item<RawRtp>, x: Extended)
    requires ValidateRtp(rtp).Ok?
    ensures CanReceive(ProbatorOf(ValidateRtp(rtp).value), x) == CanReceive(rtp, x)
      <==> ValidateRtp(rtp).value.codecs != []
  {
    hide ValidateRtp, ValidRtp, ProbatorOf, KnowsPayloadType;
    var v := ValidateRtp(rtp).value;
    RtpIsValid(rtp);
    if v.codecs != [] {
      ProbatorValidates(v);
    } else {
      NullCodec(v);
    }
  }
}
