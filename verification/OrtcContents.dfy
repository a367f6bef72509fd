/** What is in the results of the negotiation, member by member: the header extensions both sides
    know and who sends them, the codecs that are sent and received, and the congestion control
    feedback that is asked for. */
module OrtcContents {
  import opened Text
  import opened RtpTypes
  import opened SsrcUtils
  import opened MediaObjects
  import opened OrtcValidation
  import opened OrtcMatching
  import opened OrtcExtended
  import opened OrtcParameters

  // ----- selections -----

  /** The elements to keep, in their order. */
  function Filter<T>(xs: seq<T>, keep: T -> bool): seq<T> {
    if xs == [] then []
    else
      var n := |xs| - 1;
      Filter(xs[..n], keep) + (if keep(xs[n]) then [xs[n]] else [])
  }

  lemma {:induction false} FilterIs<T>(xs: seq<T>, keep: T -> bool, x: T)
    ensures x in Filter(xs, keep) <==> x in xs && keep(x)
    ensures multiset(Filter(xs, keep))[x] == if keep(x) then multiset(xs)[x] else 0
  {
    if xs != [] {
      var n := |xs| - 1;
      FilterIs(xs[..n], keep, x);
      assert xs == xs[..n] + [xs[n]];
    }
  }

  // ----- header extensions -----

  /** The first local extension of the kind and URI of a remote one. */
  ghost predicate FirstAlike(locals: seq<ExtCap>, remote: ExtCap, i: int) {
    && 0 <= i < |locals| && locals[i].kind == remote.kind && locals[i].uri == remote.uri
    && forall j :: 0 <= j < i ==> locals[j].kind != remote.kind || locals[j].uri != remote.uri
  }

  predicate Known(locals: seq<ExtCap>, remote: ExtCap) {
    exists i :: 0 <= i < |locals| && locals[i].kind == remote.kind && locals[i].uri == remote.uri
  }

  /** A direction as this side sees it. */
  predicate Mirrored(mine: Option<string>, theirs: string) {
    && (mine == Some("sendrecv") <==> theirs == "sendrecv") && (mine == Some("sendonly") <==> theirs == "recvonly")
    && (mine == Some("recvonly") <==> theirs == "sendonly") && (mine == Some("inactive") <==> theirs == "inactive")
    && (mine == None <==> theirs !in {"sendrecv", "recvonly", "sendonly", "inactive"})
  }

  ghost predicate ExtFits(locals: seq<ExtCap>, remote: ExtCap, x: ExtendedExt) {
    && x.kind == remote.kind && x.uri == remote.uri && x.recvId == remote.preferredId
    && Mirrored(x.direction, remote.direction)
    && exists i :: FirstAlike(locals, remote, i)
         && x.sendId == locals[i].preferredId && x.encrypt == locals[i].preferredEncrypt
  }

  function IsKnown(locals: seq<ExtCap>): ExtCap -> bool {
    r => Known(locals, r)
  }

  lemma FoundIsFirst(locals: seq<ExtCap>, remote: ExtCap)
    ensures Known(locals, remote) <==> FindExt(locals, remote) < |locals|
    ensures Known(locals, remote) ==> FirstAlike(locals, remote, FindExt(locals, remote))
  {
    var i := FindExt(locals, remote);
    assert i < |locals| ==> locals[i].kind == remote.kind;
  }

  lemma FlipMirrors(direction: string)
    ensures Mirrored(Flip(direction), direction)
  {
  }

  lemma ExtendFits(locals: seq<ExtCap>, remote: ExtCap)
    requires Known(locals, remote)
    ensures FindExt(locals, remote) < |locals|
    ensures ExtFits(locals, remote, ExtendExt(locals[FindExt(locals, remote)], remote))
  {
    hide FindExt, Flip, Mirrored, Known, FirstAlike;
    FoundIsFirst(locals, remote);
    FlipMirrors(remote.direction);
  }

  /** The last remote extension adds one that fits it, or nothing. */
  lemma ExtsGrow(locals: seq<ExtCap>, remotes: seq<ExtCap>)
    requires remotes != []
    ensures var n := |remotes| - 1;
      var before, all := ExtendExts(locals, remotes[..n]), ExtendExts(locals, remotes);
      if Known(locals, remotes[n])
      then |all| == |before| + 1 && all[..|before|] == before && ExtFits(locals, remotes[n], all[|before|])
      else all == before
  {
    hide FindExt, ExtFits, ExtendExt, Known;
    var n := |remotes| - 1;
    FoundIsFirst(locals, remotes[n]);
    if Known(locals, remotes[n]) {
      ExtendFits(locals, remotes[n]);
    }
  }

  lemma {:induction false} ExtsSelected(locals: seq<ExtCap>, remotes: seq<ExtCap>)
    ensures var xs, known := ExtendExts(locals, remotes), Filter(remotes, IsKnown(locals));
      |xs| == |known| && forall j :: 0 <= j < |xs| ==> ExtFits(locals, known[j], xs[j])
  {
    hide ExtendExts, ExtFits, Known;
    if remotes == [] {
      NothingExtends(locals);
    } else {
      var n := |remotes| - 1;
      ExtsSelected(locals, remotes[..n]);
      ExtsGrow(locals, remotes);
      var before, all := ExtendExts(locals, remotes[..n]), ExtendExts(locals, remotes);
      forall j | 0 <= j < |all|
        ensures ExtFits(locals, Filter(remotes, IsKnown(locals))[j], all[j])
      {
        if j < |before| {
          assert all[j] == before[j];
        }
      }
    }
  }

  lemma NothingExtends(locals: seq<ExtCap>)
    ensures ExtendExts(locals, []) == []
  {
  }

  /** The header extensions of extended capabilities are the remote ones that a local one has the
      kind and URI of, in their order. The first such local one says which id to send and whether to encrypt, the
      remote one which id to receive; the direction is the one seen from this side. */
  lemma ExtSelection(local: Caps, remote: Caps, h: H264)
    requires CapsOk(local) && CapsOk(remote) && ExtendedOf(local, remote, h).Some?
    ensures var xs := ExtendedOf(local, remote, h).value.headerExtensions;
      var known := Filter(remote.headerExtensions, r => Known(local.headerExtensions, r));
      |xs| == |known| && forall j :: 0 <= j < |xs| ==> ExtFits(local.headerExtensions, known[j], xs[j])
  {
    hide CapsOk, ExtFits, PairFirst, AllWithRtx, Known;
    ExtsSelected(local.headerExtensions, remote.headerExtensions);
    SameFilter(remote.headerExtensions, IsKnown(local.headerExtensions), r => Known(local.headerExtensions, r));
  }

  lemma {:induction false} SameFilter<T>(xs: seq<T>, p: T -> bool, q: T -> bool)
    requires forall x :: p(x) == q(x)
    ensures Filter(xs, p) == Filter(xs, q)
  {
    if xs != [] {
      SameFilter(xs[..|xs| - 1], p, q);
    }
  }

  /** A remote extension this side sends: known, of the kind, and received by the other side. */
  predicate Sent(locals: seq<ExtCap>, kind: string, remote: ExtCap) {
    Known(locals, remote) && remote.kind == kind && (remote.direction == "sendrecv" || remote.direction == "recvonly")
  }

  ghost predicate SentFits(locals: seq<ExtCap>, remote: ExtCap, e: Ext) {
    && e.uri == remote.uri && e.parameters == []
    && exists i :: FirstAlike(locals, remote, i)
         && e.id == locals[i].preferredId && e.encrypt == locals[i].preferredEncrypt
  }

  function IsSent(locals: seq<ExtCap>, kind: string): ExtCap -> bool {
    r => Sent(locals, kind, r)
  }

  lemma SendOne(locals: seq<ExtCap>, remote: ExtCap, x: ExtendedExt, kind: string)
    requires ExtFits(locals, remote, x) && Known(locals, remote) && x.direction.Some?
    ensures x.kind == kind && Sends(x.direction.value) <==> Sent(locals, kind, remote)
    ensures SentFits(locals, remote, Ext(x.uri, x.sendId, x.encrypt, []))
  {
    hide FirstAlike, Known;
  }

  lemma SendOneNot(locals: seq<ExtCap>, remote: ExtCap, kind: string)
    requires !Known(locals, remote)
    ensures !Sent(locals, kind, remote)
  {
  }

  lemma {:induction false} ExtsSent(locals: seq<ExtCap>, remotes: seq<ExtCap>, kind: string)
    requires DirectionsKnown(ExtendExts(locals, remotes))
    ensures var es, chosen := SendExts(ExtendExts(locals, remotes), kind), Filter(remotes, IsSent(locals, kind));
      |es| == |chosen| && forall j :: 0 <= j < |es| ==> SentFits(locals, chosen[j], es[j])
  {
    hide Sent, ExtendExts, ExtFits, SentFits, Sends, Known;
    if remotes == [] {
      NothingExtends(locals);
    } else {
      var n := |remotes| - 1;
      var before, all := ExtendExts(locals, remotes[..n]), ExtendExts(locals, remotes);
      ExtsGrow(locals, remotes);
      assert DirectionsKnown(before) by {
        assert forall i :: 0 <= i < |before| ==> before[i] == all[i];
      }
      ExtsSent(locals, remotes[..n], kind);
      if Known(locals, remotes[n]) {
        SendOne(locals, remotes[n], all[|before|], kind);
        assert all[..|all| - 1] == before;
      } else {
        SendOneNot(locals, remotes[n], kind);
      }
    }
  }

  /** The header extensions of the sending parameters of both sides. */
  lemma SentExts(local: Caps, remote: Caps, h: H264, kind: string)
    requires CapsOk(local) && CapsOk(remote) && ExtendedOf(local, remote, h).Some?
    requires var x := ExtendedOf(local, remote, h).value;
      LocalRtxNumbered(x.codecs) && DirectionsKnown(x.headerExtensions)
    ensures var x := ExtendedOf(local, remote, h).value;
      var es, sent := SendingOf(kind, x).headerExtensions,
        Filter(remote.headerExtensions, r => Sent(local.headerExtensions, kind, r));
      && RemoteSendingOf(kind, x).headerExtensions == es && |es| == |sent|
      && forall j :: 0 <= j < |es| ==> SentFits(local.headerExtensions, sent[j], es[j])
  {
    hide CapsOk, SentFits, PairFirst, AllWithRtx, Sent, SendExts, SendCodecs, DirectionsKnown, LocalRtxNumbered,
      Dropped;
    ExtsSent(local.headerExtensions, remote.headerExtensions, kind);
    SameFilter(remote.headerExtensions, IsSent(local.headerExtensions, kind),
      r => Sent(local.headerExtensions, kind, r));
  }

  /** A remote extension this side receives: known, and sent by the other side. */
  predicate Received(locals: seq<ExtCap>, remote: ExtCap) {
    Known(locals, remote) && (remote.direction == "sendrecv" || remote.direction == "sendonly")
  }

  ghost predicate ReceivedFits(locals: seq<ExtCap>, remote: ExtCap, e: ExtCap) {
    && e.kind == remote.kind && e.uri == remote.uri && e.preferredId == remote.preferredId
    && e.direction == (if remote.direction == "sendrecv" then "sendrecv" else "recvonly")
    && exists i :: FirstAlike(locals, remote, i) && e.preferredEncrypt == locals[i].preferredEncrypt
  }

  function IsReceived(locals: seq<ExtCap>): ExtCap -> bool {
    r => Received(locals, r)
  }

  lemma ReceiveOne(locals: seq<ExtCap>, remote: ExtCap, x: ExtendedExt)
    requires ExtFits(locals, remote, x) && Known(locals, remote) && x.direction.Some?
    ensures Receives(x.direction.value) <==> Received(locals, remote)
    ensures Received(locals, remote)
      ==> ReceivedFits(locals, remote, ExtCap(x.kind, x.uri, x.recvId, x.encrypt, x.direction.value))
  {
    hide FirstAlike, Known;
  }

  lemma ReceiveOneNot(locals: seq<ExtCap>, remote: ExtCap)
    requires !Known(locals, remote)
    ensures !Received(locals, remote)
  {
  }

  lemma {:induction false} ExtsReceived(locals: seq<ExtCap>, remotes: seq<ExtCap>)
    requires DirectionsKnown(ExtendExts(locals, remotes))
    ensures var es, chosen := RecvExts(ExtendExts(locals, remotes)), Filter(remotes, IsReceived(locals));
      |es| == |chosen| && forall j :: 0 <= j < |es| ==> ReceivedFits(locals, chosen[j], es[j])
  {
    hide Received, ExtendExts, ExtFits, ReceivedFits, Receives, Known;
    if remotes == [] {
      NothingExtends(locals);
    } else {
      var n := |remotes| - 1;
      var before, all := ExtendExts(locals, remotes[..n]), ExtendExts(locals, remotes);
      ExtsGrow(locals, remotes);
      assert DirectionsKnown(before) by {
        assert forall i :: 0 <= i < |before| ==> before[i] == all[i];
      }
      ExtsReceived(locals, remotes[..n]);
      if Known(locals, remotes[n]) {
        ReceiveOne(locals, remotes[n], all[|before|]);
        assert all[..|all| - 1] == before;
      } else {
        ReceiveOneNot(locals, remotes[n]);
      }
    }
  }

  // ----- receiving capabilities -----

  /** The entries of one codec: its local parameters under the payload type of the other side, and its RTX codec. */
  function EntriesOf(x: ExtendedCodec): seq<Codec>
    requires x.remoteRtxPayloadType.Some? ==> x.remotePayloadType.Some?
  {
    [Codec(x.mimeType, x.kind, x.remotePayloadType, x.clockRate, x.channels, x.localParameters, x.rtcpFeedback)]
    + (if x.remoteRtxPayloadType.None? then []
       else [Codec(x.kind + "/rtx", x.kind, x.remoteRtxPayloadType, x.clockRate,
               if x.kind == "audio" then Some(1) else None,
               [Param("apt", PInt(x.remotePayloadType.value % 256))], [])])
  }

  function AllEntries(xs: seq<ExtendedCodec>): seq<Codec>
    requires RemoteRtxNumbered(xs)
  {
    if xs == [] then []
    else
      var n := |xs| - 1;
      AllEntries(xs[..n]) + EntriesOf(xs[n])
  }

  lemma {:induction false} EntriesAre(xs: seq<ExtendedCodec>)
    requires RemoteRtxNumbered(xs)
    ensures RecvEntries(xs) == AllEntries(xs)
  {
    if xs != [] {
      EntriesAre(xs[..|xs| - 1]);
      assert RecvEntries(xs) == RecvEntries(xs[..|xs| - 1]) + EntriesOf(xs[|xs| - 1]);
    }
  }

  /** The receiving capabilities, validated: the entries of every codec in order, and the remote extensions this side
      receives, under the ids of the other side. */
  lemma RecvContents(local: Caps, remote: Caps, h: H264)
    requires CapsOk(local) && CapsOk(remote) && ExtendedOf(local, remote, h).Some?
    requires DirectionsGiven(local.headerExtensions, remote.headerExtensions)
    ensures var x := ExtendedOf(local, remote, h).value;
      RemoteRtxNumbered(x.codecs) && DirectionsKnown(x.headerExtensions)
      && (ValidateCaps(RecvCaps(x)).Ok? ==>
        var v := ValidateCaps(RecvCaps(x)).value;
        var received := Filter(remote.headerExtensions, r => Received(local.headerExtensions, r));
        && v.codecs == AllEntries(x.codecs) && |v.headerExtensions| == |received|
        && forall j :: 0 <= j < |received| ==>
             ReceivedFits(local.headerExtensions, received[j], v.headerExtensions[j]))
  {
    hide CapsOk, PairFirst, AllWithRtx, RecvEntries, AllEntries, RecvExts, ReceivedFits, Received, DirectionsGiven,
      ValidateCaps, RecvCaps, RtxFollow, PickedNumbered, Numbered;
    RecvClosed(local, remote, h);
    ExtendedIsOk(local, remote, h);
    var x := ExtendedOf(local, remote, h).value;
    RecvCapsValidate(x);
    EntriesAre(x.codecs);
    ExtsReceived(local.headerExtensions, remote.headerExtensions);
    SameFilter(remote.headerExtensions, IsReceived(local.headerExtensions), r => Received(local.headerExtensions, r));
  }

  // ----- sending parameters -----

  /** The first codec of the kind, with the parameters of one side, and its RTX codec. */
  ghost predicate SendsFirst(xs: seq<ExtendedCodec>, kind: string, main: Codec, rtx: seq<Codec>, i: int) {
    && 0 <= i < |xs| && xs[i].kind == kind && (forall j :: 0 <= j < i ==> xs[j].kind != kind)
    && main.mimeType == xs[i].mimeType && main.kind == kind && main.payloadType == xs[i].localPayloadType
    && main.clockRate == xs[i].clockRate && main.channels == xs[i].channels
    && (xs[i].localRtxPayloadType.None? ==> rtx == [])
    && (xs[i].localRtxPayloadType.Some? && xs[i].localPayloadType.Some? ==>
          rtx == [Codec(kind + "/rtx", kind, xs[i].localRtxPayloadType, xs[i].clockRate, None,
                    [Param("apt", PInt(xs[i].localPayloadType.value % 256))], [])])
  }

  /** What is sent carries the local parameters, what the other side is told the remote ones. */
  lemma SendContents(kind: string, x: Extended)
    requires LocalRtxNumbered(x.codecs) && DirectionsKnown(x.headerExtensions)
    ensures var a, b := SendingOf(kind, x).codecs, RemoteSendingOf(kind, x).codecs;
      if forall i :: 0 <= i < |x.codecs| ==> x.codecs[i].kind != kind then a == b == []
      else
        && a != [] && b != []
        && exists i ::
             && SendsFirst(x.codecs, kind, a[0], a[1..], i) && SendsFirst(x.codecs, kind, b[0], b[1..], i)
             && a[0].parameters == x.codecs[i].localParameters && b[0].parameters == x.codecs[i].remoteParameters
             && a[0].rtcpFeedback == x.codecs[i].rtcpFeedback
  {
    hide SendExts, Dropped;
    var a, b := SendingOf(kind, x).codecs, RemoteSendingOf(kind, x).codecs;
    var i := FirstOfKind(x.codecs, kind);
    if i < |x.codecs| {
      RemoteRest(kind, x);
      assert SendsFirst(x.codecs, kind, a[0], a[1..], i) && SendsFirst(x.codecs, kind, b[0], b[1..], i);
    }
  }

  lemma RemoteRest(kind: string, x: Extended)
    requires LocalRtxNumbered(x.codecs) && DirectionsKnown(x.headerExtensions)
    ensures var a, b := SendingOf(kind, x).codecs, RemoteSendingOf(kind, x).codecs;
      |a| == |b| && (a != [] ==> a[1..] == b[1..])
  {
    hide SendExts, Dropped;
    var a, b := SendingOf(kind, x).codecs, RemoteSendingOf(kind, x).codecs;
    if |a| == 2 {
      assert b[1] == a[1].(rtcpFeedback := Without([], Dropped(SendExts(x.headerExtensions, kind))));
      assert b[1] == a[1];
    }
  }

  // ----- congestion control feedback -----

  lemma {:induction false} WithoutFilters(fbs: seq<Feedback>, kinds: set<string>, keep: Feedback -> bool)
    requires forall fb :: keep(fb) <==> fb.kind !in kinds
    ensures Without(fbs, kinds) == Filter(fbs, keep)
  {
    if fbs != [] {
      WithoutFilters(fbs[..|fbs| - 1], kinds, keep);
    }
  }

  /** With the transport-wide-cc extension the other side is asked for everything but REMB, else with abs-send-time
      for everything but Transport-CC, else for neither of the two; all in the order of the local parameters. */
  lemma SentFeedback(kind: string, x: Extended, i: nat)
    requires LocalRtxNumbered(x.codecs) && DirectionsKnown(x.headerExtensions)
    requires i < |RemoteSendingOf(kind, x).codecs|
    ensures var a, b := SendingOf(kind, x), RemoteSendingOf(kind, x);
      && |a.codecs| == |b.codecs| && a.headerExtensions == b.headerExtensions
      && var given, asked := a.codecs[i].rtcpFeedback, b.codecs[i].rtcpFeedback;
      && asked == Filter(given, (fb: Feedback) => Wanted(b.headerExtensions, fb.kind))
      && AsksFor(asked, given, b.headerExtensions)
  {
    hide Without, SendExts, Dropped, Wanted, Filter;
    var a, b := SendingOf(kind, x), RemoteSendingOf(kind, x);
    var given, keep := a.codecs[i].rtcpFeedback, (fb: Feedback) => Wanted(b.headerExtensions, fb.kind);
    forall fb: Feedback
      ensures keep(fb) <==> fb.kind !in Dropped(b.headerExtensions)
      ensures fb in Filter(given, keep) <==> fb in given && keep(fb)
    {
      DroppedIs(b.headerExtensions, fb.kind);
      FilterIs(given, keep, fb);
    }
    WithoutFilters(given, Dropped(b.headerExtensions), keep);
  }

  // ----- the probator -----

  function IsBandwidth(): Ext -> bool {
    (e: Ext) => e.uri in {"http://www.ietf.org/id/draft-holmer-rmcat-transport-wide-cc-extensions-01",
                          "http://www.webrtc.org/experiments/rtp-hdrext/abs-send-time"}
  }

  lemma {:induction false} BandwidthAre(exts: seq<Ext>)
    ensures BandwidthExts(exts) == Filter(exts, IsBandwidth())
  {
    if exts != [] {
      BandwidthAre(exts[..|exts| - 1]);
    }
  }

  /** The probator has the first codec and the two bandwidth extensions of the video, one encoding with
      SSRC 1234, and the name "probator" as mid and cname. */
  lemma ProbatorContents(rtp: Item<RawRtp>)
    requires ValidateRtp(rtp).Ok? && ValidateRtp(rtp).value.codecs != []
    ensures var video, probator := ValidateRtp(rtp).value, ValidateRtp(ProbatorOf(ValidateRtp(rtp).value));
      && probator.Ok? && probator.value.mid == Some("probator") && probator.value.cname == Some("probator")
      && probator.value.codecs == [video.codecs[0]] && probator.value.reducedSize
      && probator.value.headerExtensions == Filter(video.headerExtensions, IsBandwidth())
      && probator.value.encodings == [Encoding(Some(1234), None, None, false, None)]
  {
    hide ValidateRtp, ValidRtp, ProbatorOf, BandwidthExts, Filter;
    RtpIsValid(rtp);
    ProbatorValidates(ValidateRtp(rtp).value);
    BandwidthAre(ValidateRtp(rtp).value.headerExtensions);
  }
}
