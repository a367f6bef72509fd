/** getExtendedRtpCapabilities: the codecs and header extensions both sides know, in the order
    of the remote side. */
module OrtcExtended {
  import opened Text
  import opened RtpTypes
  import opened SsrcUtils
  import opened OrtcValidation
  import opened OrtcMatching

  datatype ExtendedCodec = ExtendedCodec(
    mimeType: string, kind: string, clockRate: int, channels: Option<int>,
    localPayloadType: Option<int>, localRtxPayloadType: Option<int>,
    remotePayloadType: Option<int>, remoteRtxPayloadType: Option<int>,
    localParameters: Params, remoteParameters: Params, rtcpFeedback: seq<Feedback>)

  /** Without a known direction the member stays unset. */
  datatype ExtendedExt = ExtendedExt(
    kind: string, uri: string, sendId: int, recvId: int, encrypt: bool, direction: Option<string>)

  datatype Extended = Extended(codecs: seq<ExtendedCodec>, headerExtensions: seq<ExtendedExt>)

  // ----- the pairing loop -----

  datatype Search = NotFound | Broken | Found(index: nat, local: Codec, remote: Codec)

  /** find_if with a match that may rewrite both codecs, and may throw. */
  function FindLocal(locals: seq<Codec>, remote: Codec, h: H264): (r: Search)
    ensures r.Found? ==> r.index < |locals| && MatchStrict(locals[r.index], remote, h) == Matched(r.local, r.remote)
    ensures r.Found? ==> forall j :: 0 <= j < r.index ==> MatchStrict(locals[j], remote, h) == NoMatch
    ensures r.NotFound? ==> forall j :: 0 <= j < |locals| ==> MatchStrict(locals[j], remote, h) == NoMatch
  {
    if locals == [] then NotFound
    else
      match MatchStrict(locals[0], remote, h)
      case Failed => Broken
      case Matched(a, b) => Found(0, a, b)
      case NoMatch =>
        match FindLocal(locals[1..], remote, h) {
          case Found(i, a, b) => Found(i + 1, a, b)
          case NotFound => NotFound
          case Broken => Broken
        }
  }

  function Extend(local: Codec, remote: Codec): ExtendedCodec {
    ExtendedCodec(local.mimeType, local.kind, local.clockRate, local.channels, local.payloadType, None,
      remote.payloadType, None, local.parameters, remote.parameters,
      ReduceFeedback(local.rtcpFeedback, remote.rtcpFeedback))
  }

  /** Both lists as rewritten so far, and what has been paired. */
  datatype Pairing = Pairing(locals: seq<Codec>, remotes: seq<Codec>, codecs: seq<ExtendedCodec>)

  predicate Pairable(p: Pairing) {
    SortedParams(p.locals) && SortedParams(p.remotes)
  }

  /** One remote codec: None when a match throws. */
  function PairOne(p: Pairing, k: nat, h: H264): (r: Option<Pairing>)
    requires k < |p.remotes|
    ensures r.Some? ==> |r.value.locals| == |p.locals| && |r.value.remotes| == |p.remotes|
  {
    if IsRtx(p.remotes[k]) then Some(p)
    else
      match FindLocal(p.locals, p.remotes[k], h)
      case Broken => None
      case NotFound => Some(p)
      case Found(i, a, b) => Some(Pairing(p.locals[i := a], p.remotes[k := b], p.codecs + [Extend(a, b)]))
  }

  /** What a pairing leaves alone: everything but parameters, and RTX codecs altogether. */
  predicate Keeps(a: seq<Codec>, b: seq<Codec>) {
    && |a| == |b|
    && (forall i :: 0 <= i < |a| ==> SameButParameters(a[i], b[i]))
    && (forall i :: 0 <= i < |a| && IsRtx(a[i]) ==> b[i] == a[i])
  }

  predicate Tracks(p: Pairing, q: Pairing) {
    Pairable(q) && Keeps(p.locals, q.locals) && Keeps(p.remotes, q.remotes)
  }

  lemma KeepsTransitive(a: seq<Codec>, b: seq<Codec>, c: seq<Codec>)
    requires Keeps(a, b) && Keeps(b, c)
    ensures Keeps(a, c)
  {
    hide IsRtxMime;
  }

  lemma PairOneKeeps(p: Pairing, k: nat, h: H264)
    requires k < |p.remotes| && Pairable(p)
    ensures var q := PairOne(p, k, h); q.Some? ==>
      Tracks(p, q.value) && forall i :: 0 <= i < |p.remotes| && i != k ==> q.value.remotes[i] == p.remotes[i]
  {
    hide Sorted, MatchStrict, Lower;
    var f := FindLocal(p.locals, p.remotes[k], h);
    if f.Found? {
      MatchAgrees(p.locals[f.index], p.remotes[k], h);
    }
  }

  lemma PairOneTracks(start: Pairing, p: Pairing, k: nat, h: H264)
    requires k < |p.remotes| && Tracks(start, p)
    requires forall i :: k <= i < |p.remotes| ==> p.remotes[i] == start.remotes[i]
    ensures var q := PairOne(p, k, h); q.Some? ==>
      Tracks(start, q.value) && forall i :: k < i < |p.remotes| ==> q.value.remotes[i] == start.remotes[i]
  {
    hide PairOne, Keeps, SortedParams;
    var q := PairOne(p, k, h);
    PairOneKeeps(p, k, h);
    if q.Some? {
      KeepsTransitive(start.locals, p.locals, q.value.locals);
      KeepsTransitive(start.remotes, p.remotes, q.value.remotes);
    }
  }

  /** The pairing after the first `n` remote codecs. */
  function PairFirst(locals: seq<Codec>, remotes: seq<Codec>, h: H264, n: nat): (r: Option<Pairing>)
    requires n <= |remotes|
    ensures r.Some? ==> |r.value.locals| == |locals| && |r.value.remotes| == |remotes|
  {
    if n == 0 then Some(Pairing(locals, remotes, []))
    else
      var before := PairFirst(locals, remotes, h, n - 1);
      if before.None? then None else PairOne(before.value, n - 1, h)
  }

  lemma {:induction false} PairFirstTracks(locals: seq<Codec>, remotes: seq<Codec>, h: H264, n: nat)
    requires n <= |remotes| && SortedParams(locals) && SortedParams(remotes) && PairFirst(locals, remotes, h, n).Some?
    ensures Tracks(Pairing(locals, remotes, []), PairFirst(locals, remotes, h, n).value)
    ensures forall i :: n <= i < |remotes| ==> PairFirst(locals, remotes, h, n).value.remotes[i] == remotes[i]
  {
    hide PairOne, FindLocal, SortedParams, IsRtxMime;
    if n > 0 {
      PairFirstTracks(locals, remotes, h, n - 1);
      PairOneTracks(Pairing(locals, remotes, []), PairFirst(locals, remotes, h, n - 1).value, n - 1, h);
    }
  }

  method PairCodecs(locals: seq<Codec>, remotes: seq<Codec>, h: H264) returns (r: Option<Pairing>)
    ensures r == PairFirst(locals, remotes, h, |remotes|)
  {
    hide MatchStrict, IsRtx, FindLocal, Extend;
    var p := Pairing(locals, remotes, []);
    for k := 0 to |remotes|
      invariant PairFirst(locals, remotes, h, k) == Some(p)
    {
      if !IsRtx(p.remotes[k]) {
        var found := FindLocal(p.locals, p.remotes[k], h);
        if found.Broken? {
          PairingFails(locals, remotes, h, k + 1);
          return None;
        }
        if found.Found? {
          p := Pairing(p.locals[found.index := found.local], p.remotes[k := found.remote],
            p.codecs + [Extend(found.local, found.remote)]);
        }
      }
    }
    r := Some(p);
  }

  lemma {:induction false} PairingFails(locals: seq<Codec>, remotes: seq<Codec>, h: H264, n: nat)
    requires n <= |remotes| && PairFirst(locals, remotes, h, n).None?
    ensures PairFirst(locals, remotes, h, |remotes|).None?
    decreases |remotes| - n
  {
    hide PairOne, FindLocal;
    if n < |remotes| {
      PairingFails(locals, remotes, h, n + 1);
    }
  }

  // ----- what the pairing selects -----

  /** The remote positions that found a local codec, in order. */
  function Picks(locals: seq<Codec>, remotes: seq<Codec>, h: H264, n: nat): seq<nat>
    requires n <= |remotes|
    requires PairFirst(locals, remotes, h, n).Some?
  {
    if n == 0 then []
    else
      var before := PairFirst(locals, remotes, h, n - 1).value;
      Picks(locals, remotes, h, n - 1)
      + (if !IsRtx(remotes[n - 1]) && FindLocal(before.locals, remotes[n - 1], h).Found? then [n - 1] else [])
  }

  /** An extended codec stands for a remote codec and the first local codec that strictly
      matches it in the state the earlier pairs have left. */
  predicate Stands(locals: seq<Codec>, remotes: seq<Codec>, h: H264, x: ExtendedCodec, k: nat)
    requires k < |remotes|
    requires PairFirst(locals, remotes, h, k).Some?
  {
    var f := FindLocal(PairFirst(locals, remotes, h, k).value.locals, remotes[k], h);
    f.Found? && x == Extend(f.local, f.remote)
  }

  predicate Increasing(ks: seq<nat>) {
    forall i, j :: 0 <= i < j < |ks| ==> ks[i] < ks[j]
  }

  lemma {:induction false} EarlierPairing(locals: seq<Codec>, remotes: seq<Codec>, h: H264, k: nat, n: nat)
    requires k <= n <= |remotes|
    requires PairFirst(locals, remotes, h, n).Some?
    ensures PairFirst(locals, remotes, h, k).Some?
    decreases n - k
  {
    hide PairOne, FindLocal;
    if k < n {
      EarlierPairing(locals, remotes, h, k, n - 1);
    }
  }

  predicate AllPaired(locals: seq<Codec>, remotes: seq<Codec>, h: H264, n: nat)
    requires n <= |remotes|
  {
    forall k :: 0 <= k <= n ==> PairFirst(locals, remotes, h, k).Some?
  }

  predicate Unmatched(locals: seq<Codec>, remotes: seq<Codec>, h: H264, k: nat)
    requires k < |remotes|
    requires PairFirst(locals, remotes, h, k).Some?
  {
    FindLocal(PairFirst(locals, remotes, h, k).value.locals, remotes[k], h) == NotFound
  }

  predicate Selects(locals: seq<Codec>, remotes: seq<Codec>, h: H264, n: nat, ks: seq<nat>, xs: seq<ExtendedCodec>)
    requires n <= |remotes| && AllPaired(locals, remotes, h, n)
  {
    && |ks| == |xs| && Increasing(ks)
    && (forall j :: 0 <= j < |ks| ==> ks[j] < n && !IsRtx(remotes[ks[j]]))
    && (forall j :: 0 <= j < |ks| ==> Stands(locals, remotes, h, xs[j], ks[j]))
    && (forall k :: 0 <= k < n && k !in ks && !IsRtx(remotes[k]) ==> Unmatched(locals, remotes, h, k))
  }

  lemma SelectsSkip(locals: seq<Codec>, remotes: seq<Codec>, h: H264, n: nat, ks: seq<nat>, xs: seq<ExtendedCodec>)
    requires 0 < n <= |remotes| && AllPaired(locals, remotes, h, n)
    requires AllPaired(locals, remotes, h, n - 1) && Selects(locals, remotes, h, n - 1, ks, xs)
    requires PairFirst(locals, remotes, h, n - 1).Some?
    requires IsRtx(remotes[n - 1]) || Unmatched(locals, remotes, h, n - 1)
    ensures Selects(locals, remotes, h, n, ks, xs)
  {
    hide IsRtxMime, Unmatched, Stands, PairFirst, AllPaired;
  }

  lemma SelectsAdd(locals: seq<Codec>, remotes: seq<Codec>, h: H264, n: nat, ks: seq<nat>, xs: seq<ExtendedCodec>,
      x: ExtendedCodec)
    requires 0 < n <= |remotes| && AllPaired(locals, remotes, h, n)
    requires AllPaired(locals, remotes, h, n - 1) && Selects(locals, remotes, h, n - 1, ks, xs)
    requires PairFirst(locals, remotes, h, n - 1).Some?
    requires !IsRtx(remotes[n - 1]) && Stands(locals, remotes, h, x, n - 1)
    ensures Selects(locals, remotes, h, n, ks + [n - 1], xs + [x])
  {
    hide IsRtxMime, Unmatched, Stands, PairFirst, AllPaired;
  }

  lemma PairedBefore(locals: seq<Codec>, remotes: seq<Codec>, h: H264, n: nat)
    requires n <= |remotes| && PairFirst(locals, remotes, h, n).Some?
    ensures AllPaired(locals, remotes, h, n)
  {
    hide PairFirst;
    forall k | 0 <= k <= n
      ensures PairFirst(locals, remotes, h, k).Some?
    {
      EarlierPairing(locals, remotes, h, k, n);
    }
  }

  /** An order-preserving selection of the remote codecs that are not RTX, each paired with its
      first match; what is left out has no match. */
  lemma {:induction false} Selection(locals: seq<Codec>, remotes: seq<Codec>, h: H264, n: nat)
    requires n <= |remotes| && SortedParams(locals) && SortedParams(remotes)
    requires PairFirst(locals, remotes, h, n).Some?
    ensures AllPaired(locals, remotes, h, n)
    ensures Selects(locals, remotes, h, n, Picks(locals, remotes, h, n), PairFirst(locals, remotes, h, n).value.codecs)
  {
    hide FindLocal, SortedParams, IsRtxMime, Extend, Keeps, Selects, AllPaired;
    PairedBefore(locals, remotes, h, n);
    if n == 0 {
      NothingSelected(locals, remotes, h);
    } else {
      Selection(locals, remotes, h, n - 1);
      SameRemote(locals, remotes, h, n - 1);
      var before := PairFirst(locals, remotes, h, n - 1).value;
      var ks, f := Picks(locals, remotes, h, n - 1), FindLocal(before.locals, remotes[n - 1], h);
      if !IsRtx(remotes[n - 1]) && f.Found? {
        SelectsAdd(locals, remotes, h, n, ks, before.codecs, Extend(f.local, f.remote));
      } else {
        SelectsSkip(locals, remotes, h, n, ks, before.codecs);
        assert ks + [] == ks;
      }
    }
  }

  lemma SameRemote(locals: seq<Codec>, remotes: seq<Codec>, h: H264, k: nat)
    requires k < |remotes| && SortedParams(locals) && SortedParams(remotes) && PairFirst(locals, remotes, h, k).Some?
    ensures |PairFirst(locals, remotes, h, k).value.remotes| == |remotes|
    ensures PairFirst(locals, remotes, h, k).value.remotes[k] == remotes[k]
  {
    hide PairFirst, Tracks, SortedParams;
    PairFirstTracks(locals, remotes, h, k);
  }

  lemma NothingSelected(locals: seq<Codec>, remotes: seq<Codec>, h: H264)
    requires SortedParams(locals) && SortedParams(remotes)
    ensures AllPaired(locals, remotes, h, 0) && Selects(locals, remotes, h, 0, [], [])
  {
  }

  /** What a pair has in common, whatever the order of the lists. */
  ghost predicate Fits(x: ExtendedCodec, local: Codec, remote: Codec) {
    && x.mimeType == local.mimeType && x.kind == local.kind && x.clockRate == local.clockRate
    && x.channels == local.channels
    && SameMedia(local, remote) && !IsRtxMime(x.mimeType)
    && x.localPayloadType == local.payloadType && x.remotePayloadType == remote.payloadType
    && x.rtcpFeedback == ReduceFeedback(local.rtcpFeedback, remote.rtcpFeedback)
    && Sorted(x.localParameters) && Sorted(x.remoteParameters)
    && (forall key :: key != "profile-level-id" ==>
          Find(x.localParameters, key) == Find(local.parameters, key)
            && Find(x.remoteParameters, key) == Find(remote.parameters, key))
    && (Lower(x.mimeType) == "video/h264" ==>
          Find(x.localParameters, "profile-level-id") == Find(x.remoteParameters, "profile-level-id"))
  }

  ghost predicate FitsAt(locals: seq<Codec>, remotes: seq<Codec>, h: H264, x: ExtendedCodec, k: nat, i: nat)
    requires k < |remotes| && i < |locals|
    requires PairFirst(locals, remotes, h, k).Some?
  {
    var local := PairFirst(locals, remotes, h, k).value.locals[i];
    Fits(x, local, remotes[k]) && SameButParameters(locals[i], local)
  }

  /** Every extended codec fits some local codec as it was given, and is not RTX. */
  lemma PairFits(locals: seq<Codec>, remotes: seq<Codec>, h: H264, x: ExtendedCodec, k: nat)
    requires k < |remotes| && SortedParams(locals) && SortedParams(remotes)
    requires PairFirst(locals, remotes, h, k).Some? && Stands(locals, remotes, h, x, k) && !IsRtx(remotes[k])
    ensures FitsSome(locals, remotes, h, x, k)
  {
    hide FindLocal, Sorted, MatchStrict, Lower, ReduceFeedback, Find;
    PairFirstTracks(locals, remotes, h, k);
    var p := PairFirst(locals, remotes, h, k).value;
    var i := FindLocal(p.locals, remotes[k], h).index;
    assert p.remotes[k] == remotes[k];
    MatchAgrees(p.locals[i], remotes[k], h);
    assert FitsAt(locals, remotes, h, x, k, i);
  }

  // ----- RTX -----

  /** The code reads `apt` of every RTX codec it looks at. */
  predicate RtxHaveApt(codecs: seq<Codec>) {
    forall i :: 0 <= i < |codecs| && IsRtx(codecs[i]) ==> HasApt(codecs[i])
  }

  predicate HasApt(codec: Codec) {
    match Find(codec.parameters, "apt")
    case Some(PInt(_)) => true
    case _ => false
  }

  predicate IsRtxOf(codec: Codec, payloadType: Option<int>) {
    IsRtx(codec) && payloadType.Some? && Find(codec.parameters, "apt") == Some(PInt(payloadType.value))
  }

  function FindRtx(codecs: seq<Codec>, payloadType: Option<int>): (i: nat)
    ensures i <= |codecs|
    ensures i < |codecs| ==> IsRtxOf(codecs[i], payloadType)
    ensures forall j :: 0 <= j < i ==> !IsRtxOf(codecs[j], payloadType)
  {
    if codecs == [] || IsRtxOf(codecs[0], payloadType) then 0 else 1 + FindRtx(codecs[1..], payloadType)
  }

  /** RTX on both sides, or on none. */
  function WithRtx(x: ExtendedCodec, locals: seq<Codec>, remotes: seq<Codec>): ExtendedCodec {
    var i, j := FindRtx(locals, x.localPayloadType), FindRtx(remotes, x.remotePayloadType);
    if i == |locals| || j == |remotes| then x
    else x.(localRtxPayloadType := locals[i].payloadType, remoteRtxPayloadType := remotes[j].payloadType)
  }

  function AllWithRtx(xs: seq<ExtendedCodec>, locals: seq<Codec>, remotes: seq<Codec>): (r: seq<ExtendedCodec>)
    ensures |r| == |xs|
  {
    seq(|xs|, i requires 0 <= i < |xs| => WithRtx(xs[i], locals, remotes))
  }

  /** find_if for an RTX codec of a payload type. */
  method SearchRtx(codecs: seq<Codec>, payloadType: Option<int>) returns (i: nat)
    ensures i == FindRtx(codecs, payloadType)
  {
    i := 0;
    while i < |codecs| && !IsRtxOf(codecs[i], payloadType)
      invariant i <= |codecs| && forall j :: 0 <= j < i ==> !IsRtxOf(codecs[j], payloadType)
    {
      i := i + 1;
    }
  }

  method PairRtx(xs: seq<ExtendedCodec>, locals: seq<Codec>, remotes: seq<Codec>) returns (r: seq<ExtendedCodec>)
    ensures r == AllWithRtx(xs, locals, remotes)
  {
    hide FindRtx, IsRtxOf;
    r := xs;
    for k := 0 to |xs|
      invariant |r| == |xs| && forall j :: 0 <= j < |xs| ==> r[j] == if j < k then WithRtx(xs[j], locals, remotes)
        else xs[j]
    {
      var i := SearchRtx(locals, r[k].localPayloadType);
      if i < |locals| {
        var j := SearchRtx(remotes, r[k].remotePayloadType);
        if j < |remotes| {
          r := r[k := r[k].(localRtxPayloadType := locals[i].payloadType,
            remoteRtxPayloadType := remotes[j].payloadType)];
        }
      }
    }
  }

  // ----- header extensions -----

  predicate SameExt(a: ExtCap, b: ExtCap) {
    a.kind == b.kind && a.uri == b.uri
  }

  function FindExt(locals: seq<ExtCap>, remote: ExtCap): (i: nat)
    ensures i <= |locals|
    ensures i < |locals| ==> SameExt(locals[i], remote)
    ensures forall j :: 0 <= j < i ==> !SameExt(locals[j], remote)
  {
    if locals == [] || SameExt(locals[0], remote) then 0 else 1 + FindExt(locals[1..], remote)
  }

  /** Seen from this side: what the other side receives, we send. */
  function Flip(direction: string): Option<string> {
    match direction
    case "sendrecv" => Some("sendrecv")
    case "recvonly" => Some("sendonly")
    case "sendonly" => Some("recvonly")
    case "inactive" => Some("inactive")
    case _ => None
  }

  function ExtendExt(local: ExtCap, remote: ExtCap): ExtendedExt {
    ExtendedExt(remote.kind, remote.uri, local.preferredId, remote.preferredId, local.preferredEncrypt,
      Flip(remote.direction))
  }

  function ExtendExts(locals: seq<ExtCap>, remotes: seq<ExtCap>): seq<ExtendedExt> {
    if remotes == [] then []
    else
      var remote := remotes[|remotes| - 1];
      var i := FindExt(locals, remote);
      ExtendExts(locals, remotes[..|remotes| - 1]) + (if i < |locals| then [ExtendExt(locals[i], remote)] else [])
  }

  method PairExts(locals: seq<ExtCap>, remotes: seq<ExtCap>) returns (r: seq<ExtendedExt>)
    ensures r == ExtendExts(locals, remotes)
  {
    r := [];
    for k := 0 to |remotes|
      invariant r == ExtendExts(locals, remotes[..k])
    {
      assert remotes[..k + 1][..k] == remotes[..k];
      var i := 0;
      while i < |locals| && !SameExt(locals[i], remotes[k])
        invariant i <= |locals| && forall j :: 0 <= j < i ==> !SameExt(locals[j], remotes[k])
      {
        i := i + 1;
      }
      if i < |locals| {
        r := r + [ExtendExt(locals[i], remotes[k])];
      }
    }
    assert remotes[..|remotes|] == remotes;
  }

  // ----- the whole -----

  predicate CapsOk(caps: Caps) {
    ValidCaps(caps) && SortedParams(caps.codecs) && RtxHaveApt(caps.codecs)
  }

  /** None when a match throws. */
  function ExtendedOf(local: Caps, remote: Caps, h: H264): Option<Extended>
    requires CapsOk(local) && CapsOk(remote)
  {
    match PairFirst(local.codecs, remote.codecs, h, |remote.codecs|)
    case None => None
    case Some(p) =>
      Some(Extended(AllWithRtx(p.codecs, p.locals, p.remotes),
        ExtendExts(local.headerExtensions, remote.headerExtensions)))
  }

  /** What the code asks of the capabilities beyond their validation. */
  predicate Usable(caps: Item<RawCaps>) {
    ValidateCaps(caps).Ok? ==> CapsOk(ValidateCaps(caps).value)
  }

  /** getExtendedRtpCapabilities */
  method GetExtendedRtpCapabilities(localCaps: Item<RawCaps>, remoteCaps: Item<RawCaps>, h: H264)
      returns (r: Result<Extended>)
    requires Usable(localCaps) && Usable(remoteCaps)
    ensures var l, m := ValidateCaps(localCaps), ValidateCaps(remoteCaps);
      if l.Err? then r == Err(l.message)
      else if m.Err? then r == Err(m.message)
      else match ExtendedOf(l.value, m.value, h) {
        case None => r == Err("type must be string")
        case Some(x) => r == Ok(x)
      }
  {
    hide ValidateCaps, PairFirst, AllWithRtx, ExtendExts;
    var l := CheckCaps(localCaps);
    if l.Err? {
      return Err(l.message);
    }
    var m := CheckCaps(remoteCaps);
    if m.Err? {
      return Err(m.message);
    }
    var p := PairCodecs(l.value.codecs, m.value.codecs, h);
    if p.None? {
      return Err("type must be string");
    }
    var codecs := PairRtx(p.value.codecs, p.value.locals, p.value.remotes);
    var exts := PairExts(l.value.headerExtensions, m.value.headerExtensions);
    r := Ok(Extended(codecs, exts));
  }

  // ----- RTX pairs of the result -----

  /** Codecs that differ in parameters only, RTX codecs not at all, lead to the same RTX codec. */
  lemma {:induction false} SameRtx(a: seq<Codec>, b: seq<Codec>, payloadType: Option<int>)
    requires Keeps(a, b)
    ensures FindRtx(a, payloadType) == FindRtx(b, payloadType)
    ensures var i := FindRtx(a, payloadType); i < |a| ==> b[i] == a[i]
  {
    hide Find, IsRtxMime;
    if a != [] {
      SameRtx(a[1..], b[1..], payloadType);
    }
  }

  /** The position of the local codec a picked remote codec is paired with. */
  function PartnerOf(locals: seq<Codec>, remotes: seq<Codec>, h: H264, k: nat): (i: nat)
    requires k < |remotes| && PairFirst(locals, remotes, h, k).Some?
    requires FindLocal(PairFirst(locals, remotes, h, k).value.locals, remotes[k], h).Found?
    ensures i < |locals|
  {
    FindLocal(PairFirst(locals, remotes, h, k).value.locals, remotes[k], h).index
  }

  lemma StandsFor(locals: seq<Codec>, remotes: seq<Codec>, h: H264, x: ExtendedCodec, k: nat)
    requires k < |remotes| && SortedParams(locals) && SortedParams(remotes)
    requires PairFirst(locals, remotes, h, k).Some? && Stands(locals, remotes, h, x, k)
    ensures x.localPayloadType == locals[PartnerOf(locals, remotes, h, k)].payloadType
      && x.remotePayloadType == remotes[k].payloadType
  {
    hide FindLocal, PairFirst, Sorted, MatchStrict, Lower, ReduceFeedback, Find;
    PairFirstTracks(locals, remotes, h, k);
    var p := PairFirst(locals, remotes, h, k).value;
    var i := FindLocal(p.locals, remotes[k], h).index;
    assert p.remotes[k] == remotes[k] && Sorted(remotes[k].parameters) && Sorted(p.locals[i].parameters);
    MatchAgrees(p.locals[i], remotes[k], h);
    assert SameButParameters(locals[i], p.locals[i]);
  }

  function RtxFor(codecs: seq<Codec>, payloadType: Option<int>): Option<Codec> {
    var i := FindRtx(codecs, payloadType);
    if i < |codecs| then Some(codecs[i]) else None
  }

  /** The RTX payload types of the j-th extended codec, from the given capabilities: the payload
      types of the first RTX codecs whose apt is the payload type of the picked remote codec, and
      of its partner, if there are both. So both are set or both are null exactly unless there
      are both and one of them alone lacks a payload type. */
  lemma RtxPairing(local: Caps, remote: Caps, h: H264, j: nat)
    requires CapsOk(local) && CapsOk(remote) && ExtendedOf(local, remote, h).Some?
    requires j < |ExtendedOf(local, remote, h).value.codecs|
    ensures var x, n := ExtendedOf(local, remote, h).value.codecs[j], |remote.codecs|;
      var ks := Picks(local.codecs, remote.codecs, h, n);
      && j < |ks| && ks[j] < n && AllPaired(local.codecs, remote.codecs, h, n)
      && FindLocal(PairFirst(local.codecs, remote.codecs, h, ks[j]).value.locals, remote.codecs[ks[j]], h).Found?
      && var k, i := ks[j], PartnerOf(local.codecs, remote.codecs, h, ks[j]);
      && x.localPayloadType == local.codecs[i].payloadType && x.remotePayloadType == remote.codecs[k].payloadType
      && var a, b := RtxFor(local.codecs, local.codecs[i].payloadType),
        RtxFor(remote.codecs, remote.codecs[k].payloadType);
      && (a.Some? && b.Some? ==>
        x.localRtxPayloadType == a.value.payloadType
        && x.remoteRtxPayloadType == b.value.payloadType)
      && (a.None? || b.None? ==> x.localRtxPayloadType == None && x.remoteRtxPayloadType == None)
      && ((x.localRtxPayloadType.Some? <==> x.remoteRtxPayloadType.Some?)
          <==> a.None? || b.None? || (a.value.payloadType.Some? <==> b.value.payloadType.Some?))
  {
    hide FindLocal, SortedParams, IsRtx, IsRtxOf, RtxHaveApt, ValidCaps, Picks, PairFirst, Extend, Unmatched, FindRtx,
      PartnerOf;
    var n := |remote.codecs|;
    var p := PairFirst(local.codecs, remote.codecs, h, n).value;
    var ks := Picks(local.codecs, remote.codecs, h, n);
    Selection(local.codecs, remote.codecs, h, n);
    PairedUnset(local.codecs, remote.codecs, h, n);
    PairFirstTracks(local.codecs, remote.codecs, h, n);
    StandsFor(local.codecs, remote.codecs, h, p.codecs[j], ks[j]);
    SameRtx(local.codecs, p.locals, p.codecs[j].localPayloadType);
    SameRtx(remote.codecs, p.remotes, p.codecs[j].remotePayloadType);
  }

  predicate RtxNumbered(codecs: seq<Codec>) {
    forall i :: 0 <= i < |codecs| && IsRtx(codecs[i]) ==> codecs[i].payloadType.Some?
  }

  /** If every RTX codec of both sides has a payload type, both are set or both are null. */
  lemma RtxTogether(local: Caps, remote: Caps, h: H264)
    requires CapsOk(local) && CapsOk(remote) && ExtendedOf(local, remote, h).Some?
    requires RtxNumbered(local.codecs) && RtxNumbered(remote.codecs)
    ensures forall j :: 0 <= j < |ExtendedOf(local, remote, h).value.codecs| ==>
      var x := ExtendedOf(local, remote, h).value.codecs[j];
        x.localRtxPayloadType.Some? <==> x.remoteRtxPayloadType.Some?
  {
    hide ExtendedOf, CapsOk, Picks, AllPaired, PairFirst, PartnerOf, FindLocal, IsRtxMime, Find;
    forall j | 0 <= j < |ExtendedOf(local, remote, h).value.codecs|
      ensures var x := ExtendedOf(local, remote, h).value.codecs[j];
        x.localRtxPayloadType.Some? <==> x.remoteRtxPayloadType.Some?
    {
      RtxPairing(local, remote, h, j);
    }
  }

  lemma {:induction false} PairedUnset(locals: seq<Codec>, remotes: seq<Codec>, h: H264, n: nat)
    requires n <= |remotes| && PairFirst(locals, remotes, h, n).Some?
    ensures var xs := PairFirst(locals, remotes, h, n).value.codecs;
      forall k :: 0 <= k < |xs| ==> xs[k].localRtxPayloadType == None && xs[k].remoteRtxPayloadType == None
  {
    hide FindLocal, IsRtx, SameButParameters, ReduceFeedback;
    if n > 0 {
      PairedUnset(locals, remotes, h, n - 1);
    }
  }

  function Vp8(): Codec {
    Codec("video/VP8", "video", Some(96), 90000, None, [], [])
  }

  function RtxOf96(payloadType: Option<int>): Codec {
    Codec("video/rtx", "video", payloadType, 90000, None, [Param("apt", PInt(96))], [])
  }

  function Vp8Caps(rtx: Option<int>): Caps {
    Caps([Vp8(), RtxOf96(rtx)], [])
  }

  /** With a payload type in one of the two RTX codecs only, one of the two is null. */
  lemma UnnumberedRtx(h: H264)
    ensures var local, remote := Vp8Caps(None), Vp8Caps(Some(97));
      && CapsOk(local) && CapsOk(remote) && ExtendedOf(local, remote, h).Some?
      && var xs := ExtendedOf(local, remote, h).value.codecs;
      |xs| == 1 && xs[0].localRtxPayloadType == None && xs[0].remoteRtxPayloadType == Some(97)
  {
    hide PairFirst, MatchStrict, CapsOk, IsRtxOf;
    Vp8CapsOk(None);
    Vp8CapsOk(Some(97));
    Vp8Pairs(None, Some(97), h);
    Vp8Rtx(None);
    Vp8Rtx(Some(97));
    assert CapsOk(Vp8Caps(None)) && CapsOk(Vp8Caps(Some(97)));
  }

  lemma Vp8CapsOk(rtx: Option<int>)
    ensures CapsOk(Vp8Caps(rtx)) && Pairable(Pairing(Vp8Caps(rtx).codecs, Vp8Caps(rtx).codecs, []))
  {
    hide MediaKind, IsRtxMime;
    MimeTypes();
    assert ValidCodec(Vp8()) && ValidCodec(RtxOf96(rtx));
    assert HasApt(RtxOf96(rtx)) && !IsRtx(Vp8());
    var codecs := Vp8Caps(rtx).codecs;
    assert codecs[0] == Vp8() && codecs[1] == RtxOf96(rtx);
  }

  lemma MimeTypes()
    ensures MediaKind("video/VP8") == Some("video") && MediaKind("video/rtx") == Some("video")
    ensures !IsRtxMime("video/VP8") && IsRtxMime("video/rtx")
  {
    assert Lower("video/VP8") == "video/vp8" && Lower("video/rtx") == "video/rtx";
    assert "video/VP8"[..5] == "video" && "video/rtx"[..5] == "video";
  }

  lemma Vp8Rtx(rtx: Option<int>)
    ensures IsRtx(RtxOf96(rtx)) && !IsRtx(Vp8()) && FindRtx(Vp8Caps(rtx).codecs, Some(96)) == 1
  {
    hide IsRtxMime;
    MimeTypes();
    var codecs := Vp8Caps(rtx).codecs;
    assert !IsRtxOf(codecs[0], Some(96)) && IsRtxOf(codecs[1], Some(96));
  }

  lemma Vp8Pairs(a: Option<int>, b: Option<int>, h: H264)
    ensures var locals, remotes := Vp8Caps(a).codecs, Vp8Caps(b).codecs;
     
      && PairFirst(locals, remotes, h, 2) == Some(Pairing(locals, remotes, [Extend(Vp8(), Vp8())]))
  {
    hide Lower, IsRtxMime, Sorted, Extend;
    var locals, remotes := Vp8Caps(a).codecs, Vp8Caps(b).codecs;
    Vp8CapsOk(a);
    Vp8CapsOk(b);
    Vp8Rtx(b);
    assert MatchStrict(Vp8(), Vp8(), h) == Matched(Vp8(), Vp8()) by {
      assert Lower("video/VP8") == "video/vp8" by {
        LowerVp8();
      }
    }
    assert FindLocal(locals, Vp8(), h) == Found(0, Vp8(), Vp8());
    assert locals[0 := Vp8()] == locals && remotes[0 := Vp8()] == remotes;
    var none: seq<ExtendedCodec> := [];
    assert none + [Extend(Vp8(), Vp8())] == [Extend(Vp8(), Vp8())];
    assert PairFirst(locals, remotes, h, 1) == Some(Pairing(locals, remotes, [Extend(Vp8(), Vp8())]));
  }

  lemma LowerVp8()
    ensures Lower("video/VP8") == "video/vp8"
  {
  }

  // ----- the result is well formed -----

  /** What the builders rely on. */
  predicate ExtendedCodecOk(x: ExtendedCodec) {
    && MediaKind(x.mimeType) == Some(x.kind) && (x.channels.Some? <==> x.kind == "audio") && !IsRtxMime(x.mimeType)
    && ValidParams(x.localParameters) && ValidParams(x.remoteParameters)
    && (x.localRtxPayloadType.Some? ==> x.localPayloadType.Some?)
    && (x.remoteRtxPayloadType.Some? ==> x.remotePayloadType.Some?)
  }

  predicate ExtendedOk(x: Extended) {
    && (forall i :: 0 <= i < |x.codecs| ==> ExtendedCodecOk(x.codecs[i]))
    && (forall i :: 0 <= i < |x.headerExtensions| ==> ExtendedExtOk(x.headerExtensions[i]))
  }

  predicate ExtendedExtOk(e: ExtendedExt) {
    (e.kind == "audio" || e.kind == "video") && e.uri != ""
  }

  lemma {:induction false} SetValid(p: Params, key: string, v: ParamValue)
    requires ValidParams(p) && ValidateParam(Param(key, v)) == Ok(Param(key, v))
    ensures ValidParams(Set(p, key, v))
  {
    hide Less, ValidateParam;
    if p != [] {
      SetValid(p[1..], key, v);
    }
  }

  lemma {:induction false} EraseValid(p: Params, key: string)
    requires ValidParams(p)
    ensures ValidParams(Erase(p, key))
  {
    hide ValidateParam;
    if p != [] {
      EraseValid(p[1..], key);
    }
  }

  lemma LevelValid(c: Codec, level: Option<string>)
    requires ValidCodec(c)
    ensures ValidCodec(WithLevel(c, level))
  {
    hide MediaKind, Set, Erase;
    if level.Some? {
      SetValid(c.parameters, "profile-level-id", PStr(level.value));
    } else {
      EraseValid(c.parameters, "profile-level-id");
    }
  }

  lemma MatchValid(a: Codec, b: Codec, h: H264)
    requires ValidCodec(a) && ValidCodec(b) && MatchStrict(a, b, h).Matched?
    ensures ValidCodec(MatchStrict(a, b, h).a) && ValidCodec(MatchStrict(a, b, h).b)
  {
    hide ValidCodec, WithLevel, Lower, ByteParam;
    if Lower(a.mimeType) == "video/h264" {
      var p, q := H264ParamsOf(a, TextParam(a, "profile-level-id", "").value),
        H264ParamsOf(b, TextParam(b, "profile-level-id", "").value);
      LevelValid(a, h.levelForAnswer(p, q).profileLevelId);
      LevelValid(b, h.levelForAnswer(p, q).profileLevelId);
    }
  }

  lemma {:induction false} PairValid(locals: seq<Codec>, remotes: seq<Codec>, h: H264, n: nat)
    requires n <= |remotes| && SortedParams(locals) && SortedParams(remotes) && PairFirst(locals, remotes, h, n).Some?
    requires ValidCodecs(locals) && ValidCodecs(remotes)
    ensures var p := PairFirst(locals, remotes, h, n).value;
      ValidCodecs(p.locals) && ValidCodecs(p.remotes) && forall k ::
        0 <= k < |p.codecs| ==> ExtendedCodecOk(p.codecs[k])
  {
    hide SortedParams, MatchStrict, ValidCodec, ExtendedCodecOk, Extend, IsRtxMime, SameButParameters;
    if n > 0 {
      PairValid(locals, remotes, h, n - 1);
      PairFirstTracks(locals, remotes, h, n - 1);
      var before := PairFirst(locals, remotes, h, n - 1).value;
      var f := FindLocal(before.locals, before.remotes[n - 1], h);
      if !IsRtx(before.remotes[n - 1]) && f.Found? {
        MatchValid(before.locals[f.index], before.remotes[n - 1], h);
        PairAgrees(before, n - 1, h);
        ExtendOk(f.local, f.remote);
      }
    }
  }

  lemma PairAgrees(p: Pairing, k: nat, h: H264)
    requires k < |p.remotes| && Pairable(p) && !IsRtx(p.remotes[k])
    ensures var f := FindLocal(p.locals, p.remotes[k], h); f.Found? ==> !IsRtxMime(f.local.mimeType)
  {
    hide Sorted, MatchStrict, Lower;
    var f := FindLocal(p.locals, p.remotes[k], h);
    if f.Found? {
      MatchAgrees(p.locals[f.index], p.remotes[k], h);
    }
  }

  lemma ExtendOk(a: Codec, b: Codec)
    requires ValidCodec(a) && ValidCodec(b) && !IsRtxMime(a.mimeType)
    ensures ExtendedCodecOk(Extend(a, b))
  {
    hide MediaKind, IsRtxMime, ReduceFeedback;
  }

  lemma {:induction false} ExtsOk(locals: seq<ExtCap>, remotes: seq<ExtCap>)
    requires ValidExtCaps(remotes)
    ensures forall i :: 0 <= i < |ExtendExts(locals, remotes)| ==> ExtendedExtOk(ExtendExts(locals, remotes)[i])
  {
    if remotes != [] {
      assert ValidExtCap(remotes[|remotes| - 1]);
      ExtsOk(locals, remotes[..|remotes| - 1]);
    }
  }

  /** Extended capabilities of validated capabilities are well formed. */
  lemma ExtendedIsOk(local: Caps, remote: Caps, h: H264)
    requires CapsOk(local) && CapsOk(remote) && ExtendedOf(local, remote, h).Some?
    ensures ExtendedOk(ExtendedOf(local, remote, h).value)
  {
    hide ValidCodecs, ValidExtCap, MediaKind, ValidParams, IsRtxMime, SortedParams, RtxHaveApt;
    var p := PairFirst(local.codecs, remote.codecs, h, |remote.codecs|).value;
    PairValid(local.codecs, remote.codecs, h, |remote.codecs|);
    ExtsOk(local.headerExtensions, remote.headerExtensions);
    forall k | 0 <= k < |p.codecs|
      ensures ExtendedCodecOk(WithRtx(p.codecs[k], p.locals, p.remotes))
    {
      assert ExtendedCodecOk(p.codecs[k]);
    }
  }

  /** The codecs of the result: an order-preserving selection of the remote codecs, each fitting
      a local codec in the state the earlier pairs left it in. */
  lemma ExtendedSelection(local: Caps, remote: Caps, h: H264)
    requires CapsOk(local) && CapsOk(remote) && ExtendedOf(local, remote, h).Some?
    ensures var n := |remote.codecs|;
      var ks, xs := Picks(local.codecs, remote.codecs, h, n), ExtendedOf(local, remote, h).value.codecs;
      && |ks| == |xs| && Increasing(ks) && AllPaired(local.codecs, remote.codecs, h, n)
      && (forall j :: 0 <= j < |ks| ==>
        ks[j] < n && !IsRtx(remote.codecs[ks[j]])
        && FitsSome(local.codecs, remote.codecs, h, xs[j], ks[j]))
      && (forall k ::
        0 <= k < n && k !in ks && !IsRtx(remote.codecs[k]) ==> Unmatched(local.codecs, remote.codecs, h, k))
  {
    hide FindLocal, SortedParams, IsRtxMime, Fits, RtxHaveApt, ValidCaps, Unmatched, FindRtx, PairFirst;
    var n := |remote.codecs|;
    Selection(local.codecs, remote.codecs, h, n);
    var p := PairFirst(local.codecs, remote.codecs, h, n).value;
    var ks := Picks(local.codecs, remote.codecs, h, n);
    forall j | 0 <= j < |ks|
      ensures FitsSome(local.codecs, remote.codecs, h, WithRtx(p.codecs[j], p.locals, p.remotes), ks[j])
    {
      PairFits(local.codecs, remote.codecs, h, p.codecs[j], ks[j]);
      RtxStillFits(local.codecs, remote.codecs, h, p.codecs[j], WithRtx(p.codecs[j], p.locals, p.remotes), ks[j]);
    }
  }

  ghost predicate FitsSome(locals: seq<Codec>, remotes: seq<Codec>, h: H264, x: ExtendedCodec, k: nat)
    requires k < |remotes|
    requires PairFirst(locals, remotes, h, k).Some?
  {
    exists i :: 0 <= i < |locals| && FitsAt(locals, remotes, h, x, k, i)
  }

  lemma RtxStillFits(locals: seq<Codec>, remotes: seq<Codec>, h: H264, x: ExtendedCodec, y: ExtendedCodec, k: nat)
    requires k < |remotes| && PairFirst(locals, remotes, h, k).Some?
    requires y == x.(localRtxPayloadType := y.localRtxPayloadType, remoteRtxPayloadType := y.remoteRtxPayloadType)
    requires FitsSome(locals, remotes, h, x, k)
    ensures FitsSome(locals, remotes, h, y, k)
  {
    hide PairFirst, Sorted, Find, Lower, IsRtxMime, SameMedia;
    var i :| 0 <= i < |locals| && FitsAt(locals, remotes, h, x, k, i);
    assert FitsAt(locals, remotes, h, y, k, i);
  }
}
