/** The sending and the receiving handler as steps over the remote description. Calls into the
    peer connection are oracles: each tells whether it returned. */
module Handlers {
  import opened Text
  import opened Json
  import opened SdpText
  import opened RtpTypes
  import opened SsrcUtils
  import opened MediaObjects
  import opened MediaSections
  import opened RemoteStates
  import opened RemoteSdps
  import opened HandlerStates
  import opened SendEncodings

  const SCTP_STREAMS := 1024

  /** Which of the calls of one operation return. `created` is the call in front of the transport
      set-up, `applied` the local description, `remote` the remote one, `found` the transceiver. */
  datatype Oracle = Oracle(created: bool, connected: bool, applied: bool, remote: bool, found: bool)

  datatype SendResult = SendResult(localId: string, codecs: seq<CodecParameters>, encodings: seq<SentEncoding>,
      cname: string)

  function ErrorText(): string {
    "peer connection failed"
  }

  class Handler {
    const isSender: bool
    const forcedLocalDtlsRole: string
    const remoteSdp: RemoteSdp
    var transportReady: bool
    var mapMidTransceiver: set<string>
    var hasDataChannelMediaSection: bool
    var nextSendSctpStreamId: nat
    ghost var connects: nat
    /** The ids given to StopSending or StopReceiving. */
    ghost var stopped: set<string>
    /** The mids of new sections whose id was not stored, because a call failed behind them. */
    ghost var orphans: set<string>

    ghost function GetDtls(): Dtls
      reads this, remoteSdp
    {
      Dtls(forcedLocalDtlsRole, transportReady, remoteSdp.dtlsParameters.role, connects)
    }

    ghost function GetAccount(): Account
      reads this, remoteSdp
    {
      Account(isSender, remoteSdp.dtlsParameters.role, transportReady, mapMidTransceiver, stopped,
        hasDataChannelMediaSection, orphans)
    }

    ghost function Sections(): seq<Section>
      reads remoteSdp, remoteSdp.mediaSections
    {
      remoteSdp.Contents()
    }

    ghost predicate Valid()
      reads this, remoteSdp, remoteSdp.mediaSections
      ensures Valid() ==> remoteSdp.HasVersion() && Inv(remoteSdp.GetState()) && GoodSections(Sections())
    {
      && remoteSdp.Valid() && DtlsInv(GetDtls(), isSender) && nextSendSctpStreamId < SCTP_STREAMS
      && SectionsFit(Sections(), GetAccount())
    }

    /** What validity consists of. */
    lemma Parts()
      requires Valid()
      ensures remoteSdp.Valid() && DtlsInv(GetDtls(), isSender) && nextSendSctpStreamId < SCTP_STREAMS
      ensures SectionsFit(Sections(), GetAccount()) && Sections() == remoteSdp.GetState().sections
    {
      hide RemoteSdp.Valid, SectionsFit, ContentsOf, Inv, GoodSections, DtlsInv;
    }

    lemma Whole()
      requires remoteSdp.Valid() && DtlsInv(GetDtls(), isSender) && nextSendSctpStreamId < SCTP_STREAMS
      requires SectionsFit(Sections(), GetAccount())
      ensures Valid()
    {
      hide RemoteSdp.Valid, SectionsFit, ContentsOf, Inv, GoodSections, DtlsInv;
    }

    constructor (isSender: bool, ice: IceParameters, candidates: seq<IceCandidate>, dtls: DtlsParameters,
        sctp: Option<SctpParameters>)
      requires dtls.fingerprints != []
      ensures Valid() && fresh(remoteSdp) && remoteSdp.mediaSections == [] && this.isSender == isSender
      ensures GetDtls() == Attempts(dtls.role, isSender, [])
      ensures mapMidTransceiver == {} && orphans == {}
    {
      this.isSender := isSender;
      forcedLocalDtlsRole := ForcedRole(dtls.role);
      remoteSdp := new RemoteSdp(ice, candidates, dtls, sctp);
      transportReady := false;
      mapMidTransceiver := {};
      hasDataChannelMediaSection := false;
      nextSendSctpStreamId := 0;
      connects, stopped, orphans := 0, {}, {};
      new;
      hide Valid, RemoteSdp.Valid, Inv, SectionsFit, RemoteSdp.HasVersion, GoodSections, SetOf, DtlsInv, ForcedRole;
      NothingFits(isSender, dtls.role);
      NothingAttempted(dtls.role, isSender);
      assert Sections() == [];
      Whole();
    }

    // ----- the transport -----

    /** Only done while the transport is not ready. */
    method SetupTransport(connected: bool) returns (ok: bool)
      requires Valid() && !transportReady
      modifies this`transportReady, this`connects, remoteSdp, remoteSdp.Repr()
      ensures Valid() && ok == connected
      ensures GetDtls() == Attempt(old(GetDtls()), isSender, connected)
      ensures remoteSdp.mediaSections == old(remoteSdp.mediaSections)
        && remoteSdp.iceParameters == old(remoteSdp.iceParameters)
      ensures remoteSdp.GetState() == Step(old(remoteSdp.GetState()),
                SetRole(Opposite(LocalRole(forcedLocalDtlsRole, isSender)), remoteSdp.iceParameters.iceLite))
    {
      hide Valid, RemoteSdp.Valid, SectionsFit, Step, ContentsOf, Inv, GoodSections, SetOf, RemoteSdp.HasVersion;
      Parts();
      var localRole := if forcedLocalDtlsRole != "" then forcedLocalDtlsRole else if isSender then "server"
        else "client";
      var remoteRole := if localRole == "client" then "server" else "client";
      RoleKeepsFit(remoteSdp.GetState(), GetAccount(), remoteRole, remoteSdp.iceParameters.iceLite);
      remoteSdp.UpdateDtlsRole(remoteRole);
      ghost var c := remoteSdp.GetState().sections;
      assert Sections() == c;
      Whole();
      if !connected {
        return false;
      }
      MarkReady();
      ok := true;
    }

    /** OnConnect has returned. */
    method MarkReady()
      requires Valid() && !transportReady
        && remoteSdp.dtlsParameters.role == Some(Opposite(LocalRole(forcedLocalDtlsRole, isSender)))
      modifies this`transportReady, this`connects
      ensures Valid() && GetDtls() == old(GetDtls()).(ready := true, connects := old(connects) + 1)
    {
      hide Valid, RemoteSdp.Valid, SectionsFit, ContentsOf, Inv, GoodSections, SetOf, RemoteSdp.HasVersion, Opposite,
        LocalRole;
      Parts();
      ghost var c := Sections();
      ReadyKeepsFit(c, GetAccount());
      connects := connects + 1;
      transportReady := true;
      assert Sections() == c;
      Whole();
    }

    /** The sections after the set-up a handler makes when it is not ready. */
    ghost function AfterSetup(): (c: seq<Section>)
      reads this`transportReady, remoteSdp, remoteSdp.mediaSections
      ensures |c| == |Sections()|
    {
      if transportReady then Sections() else RolesSet(Sections(), Opposite(LocalRole(forcedLocalDtlsRole, isSender)))
    }

    /** A receiving handler has offers only, which a role update leaves alone. */
    lemma OffersStay()
      requires Valid() && !isSender
      ensures AfterSetup() == Sections()
    {
      hide RemoteSdp.Valid, ContentsOf, Inv, GoodSections, Live, IdsFit, SetupsFit, RolesSet, Opposite, LocalRole;
      Parts();
      OffersKeep(Sections(), remoteSdp.dtlsParameters.role, Opposite(LocalRole(forcedLocalDtlsRole, isSender)));
    }

    method EnsureTransport(connected: bool) returns (ok: bool)
      requires Valid()
      modifies this`transportReady, this`connects, remoteSdp, remoteSdp.Repr()
      ensures Valid() && ok == (old(transportReady) || connected) && (ok ==> transportReady)
      ensures GetDtls() == Attempt(old(GetDtls()), isSender, connected)
      ensures remoteSdp.mediaSections == old(remoteSdp.mediaSections)
        && remoteSdp.iceParameters == old(remoteSdp.iceParameters)
      ensures Sections() == old(AfterSetup()) && GoodSections(old(Sections())) && SameSlots(old(Sections()), Sections())
    {
      hide Valid, ContentsOf, RolesSet, SameSlots;
      ok := true;
      ghost var c := Sections();
      SlotsReflexive(c);
      if !transportReady {
        UpdatesKeepSlots(c, Opposite(LocalRole(forcedLocalDtlsRole, isSender)), IceParameters("", "", false));
        ok := SetupTransport(connected);
        assert Sections() == remoteSdp.GetState().sections;
      }
    }

    /** Once the transport is ready, every answer says what this side is: "active" for a server, "passive" for a
        client. */
    lemma AnswersSay(i: nat)
      requires Valid() && transportReady && i < |Sections()| && !Sections()[i].isOffer
      ensures var local := if forcedLocalDtlsRole != "" then forcedLocalDtlsRole else if isSender then "server"
        else "client";
        && local in {"client", "server"}
        && Setup in Sections()[i].obj && Sections()[i].obj[Setup] == Str(if local == "server" then "active"
          else "passive")
    {
      hide RemoteSdp.Valid, ContentsOf, Inv, GoodSections, Live, IdsFit, AllOfKind;
      Parts();
      assert SetupFits(Sections()[i], remoteSdp.dtlsParameters.role);
    }

    /** Printing the description changes its version only. */
    method PrintSdp() returns (text: string)
      requires Valid()
      modifies remoteSdp`sdpObject
      ensures Valid() && Sections() == old(Sections()) && GetDtls() == old(GetDtls())
      ensures text == WriteText(SessionObject(remoteSdp.GetState(), LastFingerprint(remoteSdp.dtlsParameters)))
    {
      hide Valid, RemoteSdp.Valid, SectionsFit, ContentsOf, SessionObject, WriteText, Step, DtlsInv, Inv, GoodSections;
      Parts();
      text := remoteSdp.GetSdp();
      Whole();
    }

    /** The transceiver of a section enters the map. */
    method StoreId(localId: string)
      requires Valid() && SlotOf(Sections(), localId) < |Sections()| && Open(Sections()[SlotOf(Sections(), localId)])
      requires !isSender ==>
        localId in orphans && localId != "datachannel" && (Numeral(localId) ==> localId == Digits(|mapMidTransceiver|))
      modifies this`mapMidTransceiver, this`orphans
      ensures Valid() && mapMidTransceiver == old(mapMidTransceiver) + {localId} && orphans == old(orphans) - {localId}
      ensures Sections() == old(Sections()) && GetDtls() == old(GetDtls())
    {
      hide Valid, RemoteSdp.Valid, SectionsFit, ContentsOf, DtlsInv, Numeral, Digits, Inv, GoodSections;
      Parts();
      ghost var c := Sections();
      StoredFits(c, GetAccount(), localId);
      mapMidTransceiver := mapMidTransceiver + {localId};
      orphans := orphans - {localId};
      assert Sections() == c;
      Whole();
    }

    method StoreDataFlag(ghost mid: string)
      requires Valid() && (!isSender ==> mid == "datachannel")
      modifies this`hasDataChannelMediaSection, this`orphans
      ensures Valid() && hasDataChannelMediaSection && orphans == old(orphans) - {mid}
      ensures Sections() == old(Sections()) && GetDtls() == old(GetDtls())
    {
      hide Valid, RemoteSdp.Valid, SectionsFit, ContentsOf, DtlsInv, Inv, GoodSections;
      Parts();
      ghost var c := Sections();
      DataFits(c, GetAccount(), mid);
      hasDataChannelMediaSection := true;
      orphans := orphans - {mid};
      assert Sections() == c;
      Whole();
    }

    // ----- receiving -----

    /** A non-empty mid of the parameters, else the number of transceivers. */
    function LocalId(mid: Option<string>): string
      reads this
    {
      if mid.Some? && mid.value != "" then mid.value else Digits(|mapMidTransceiver|)
    }

    /** Explicit mids are distinct, no decimal numerals and not that of the data channel. */
    ghost predicate MidOk(mid: Option<string>)
      reads this
    {
      mid.Some? && mid.value != "" ==>
        ' ' !in mid.value && mid.value !in mapMidTransceiver && !Numeral(mid.value) && mid.value != "datachannel"
    }

    ghost predicate Received(o: Oracle)
      reads this
    {
      o.remote && o.created && (transportReady || o.connected) && o.applied && o.found
    }

    /** The id is neither an id nor, unless a failed call has left it behind, a mid. */
    lemma IdIsFresh(mid: Option<string>)
      requires Valid() && !isSender && MidOk(mid)
      ensures var id := LocalId(mid);
        && GoodMid(id) && id !in mapMidTransceiver && id != "datachannel"
        && (Numeral(id) ==> id == Digits(|mapMidTransceiver|))
        && (Fresh(Sections(), id) <==> id !in orphans)
    {
      hide RemoteSdp.Valid, ContentsOf, Live, IdsFit, Digits, DtlsInv, SetupsFit, AllOfKind, Numeral;
      if mid.Some? && mid.value != "" {
        FreshExactly(Sections(), GetAccount(), mid.value);
      } else {
        GeneratedIsFresh(Sections(), GetAccount());
      }
    }

    ghost function NewOffer(localId: string, kind: string, rtp: RtpParameters, msid: string): Section
      reads remoteSdp
      requires IsAv(kind) && RtpOfferOk(rtp)
    {
      Section(true, OfferObject(remoteSdp.iceParameters, remoteSdp.iceCandidates, None, localId, kind, rtp, msid))
    }

    /** The description with the new section, whose mid is an orphan until it is stored. */
    method OfferMedia(localId: string, kind: string, rtp: RtpParameters, streamId: string, trackId: string,
        ghost s: Section)
      requires Valid() && !isSender && IsAv(kind) && RtpOfferOk(rtp) && GoodMid(localId)
      requires Fresh(Sections(), localId) && localId !in mapMidTransceiver
      requires s == NewOffer(localId, kind, rtp, streamId + (" " + trackId))
      modifies this`orphans, remoteSdp
      ensures Valid() && orphans == old(orphans) + {localId} && GetDtls() == old(GetDtls())
      ensures Allowed(old(remoteSdp.GetState()), Install(s)) && MidOf(s) == localId
      ensures Sections() == Step(old(remoteSdp.GetState()), Install(s)).sections
      ensures fresh(remoteSdp.Repr() - old(remoteSdp.Repr()))
    {
      hide Valid, RemoteSdp.Valid, SectionsFit, ContentsOf, Step, OfferObject, RtpOfferOk, MidOf, GoodObject,
        DtlsInv, Inv, SetupFits, Allowed, GoodSections, SetOf;
      Parts();
      ghost var st := remoteSdp.GetState();
      NewOfferFits(st, remoteSdp.iceParameters, remoteSdp.iceCandidates, localId, kind, rtp, streamId + (" " + trackId),
        remoteSdp.dtlsParameters.role);
      NewKeepsFit(st, GetAccount(), Install(s));
      remoteSdp.Receive(localId, kind, rtp, streamId, trackId);
      orphans := orphans + {localId};
      assert Sections() == remoteSdp.GetState().sections;
      Whole();
    }

    /** The section takes the least closed slot, and the description is printed. */
    method Announce(localId: string, kind: string, rtp: RtpParameters, streamId: string, trackId: string,
        ghost s: Section)
      requires Valid() && !isSender && IsAv(kind) && RtpOfferOk(rtp) && GoodMid(localId)
      requires Fresh(Sections(), localId) && localId !in mapMidTransceiver
      requires s == NewOffer(localId, kind, rtp, streamId + (" " + trackId))
      modifies this`orphans, remoteSdp
      ensures Valid() && orphans == old(orphans) + {localId} && GetDtls() == old(GetDtls())
      ensures SlotOf(Sections(), localId) == old(LeastClosed(Sections())) < |Sections()|
        && Open(Sections()[SlotOf(Sections(), localId)])
      ensures Sections() == Installed(old(Sections()), s)
      ensures fresh(remoteSdp.Repr() - old(remoteSdp.Repr()))
    {
      hide Valid, ContentsOf, Step, OfferObject, RtpOfferOk, MidOf, GoodObject, Inv, Allowed, Fresh, GoodSections,
        GetDtls, SlotOf, LeastClosed, Open, NewOffer, SetOf;
      ghost var st := remoteSdp.GetState();
      InstallIs(st, s);
      assert st.sections == Sections();
      OfferMedia(localId, kind, rtp, streamId, trackId, s);
      NewSlot(st, s);
      var offer := PrintSdp();
    }

    /** `s` is the section of the parameters: its msid is the cname and the id of the consumer. */
    method Receive(id: string, kind: string, mid: Option<string>, rtp: RtpParameters, o: Oracle, ghost s: Section)
        returns (r: Result<string>)
      requires Valid() && !isSender && IsAv(kind) && RtpOfferOk(rtp) && rtp.cname.Some? && MidOk(mid)
      requires LocalId(mid) !in orphans
      requires s == NewOffer(LocalId(mid), kind, rtp, rtp.cname.value + (" " + id))
      modifies this, remoteSdp, remoteSdp.Repr()
      ensures Valid() && (r.Ok? <==> old(Received(o)))
      ensures GetDtls() == if o.remote && o.created then Attempt(old(GetDtls()), isSender, o.connected)
        else old(GetDtls())
      ensures SlotOf(Sections(), old(LocalId(mid))) == old(LeastClosed(Sections())) < |Sections()|
      ensures r.Ok? ==>
        r.value == old(LocalId(mid)) && mapMidTransceiver == old(mapMidTransceiver) + {r.value}
        && orphans == old(orphans)
      ensures r.Err? ==> mapMidTransceiver == old(mapMidTransceiver) && orphans == old(orphans) + {old(LocalId(mid))}
      ensures Sections() == Installed(old(Sections()), s)
    {
      hide Valid, Sections, SameSlots, RtpOfferOk, Digits, MidOf, GoodObject, Attempt, Numeral, Inv, Fresh,
        GoodSections, GetDtls, SlotOf, LeastClosed, Open, MidOk, LocalId, SetOf, AfterSetup, NewOffer, Installed;
      var localId := LocalId(mid);
      IdIsFresh(mid);
      Announce(localId, kind, rtp, rtp.cname.value, id, s);
      if !o.remote || !o.created {
        return Err(ErrorText());
      }
      ghost var c := Sections();
      OffersStay();
      var ok := EnsureTransport(o.connected);
      SameSlot(c, Sections(), localId);
      if !ok || !o.applied || !o.found {
        return Err(ErrorText());
      }
      StoreId(localId);
      r := Ok(localId);
    }

    ghost function NewDataOffer(): Section
      reads remoteSdp
      requires remoteSdp.sctpParameters.Some?
    {
      Section(true, OfferObject(remoteSdp.iceParameters, remoteSdp.iceCandidates, remoteSdp.sctpParameters,
        "datachannel", "application", NO_RTP, " "))
    }

    /** The data-channel section of an offer, appended. */
    method OfferData(ghost s: Section)
      requires Valid() && !isSender && remoteSdp.sctpParameters.Some? && !hasDataChannelMediaSection
        && "datachannel" !in orphans
      requires s == NewDataOffer()
      modifies this`orphans, remoteSdp
      ensures Valid() && orphans == old(orphans) + {"datachannel"} && GetDtls() == old(GetDtls())
      ensures Sections() == old(Sections()) + [s] && fresh(remoteSdp.Repr() - old(remoteSdp.Repr()))
    {
      hide Valid, RemoteSdp.Valid, SectionsFit, ContentsOf, OfferObject, MidOf, GoodObject, DtlsInv, Inv, SetupFits,
        GoodSections, SetOf;
      Parts();
      ghost var st := remoteSdp.GetState();
      DataIsFresh(st.sections, GetAccount());
      NewDataFits(st, remoteSdp.iceParameters, remoteSdp.iceCandidates, remoteSdp.sctpParameters,
        remoteSdp.dtlsParameters.role);
      NewKeepsFit(st, GetAccount(), Append(s));
      remoteSdp.RecvSctpAssociation();
      orphans := orphans + {"datachannel"};
      assert Sections() == remoteSdp.GetState().sections;
      Whole();
    }

    /** ... and printed. */
    method AnnounceData(ghost s: Section)
      requires Valid() && !isSender && remoteSdp.sctpParameters.Some? && !hasDataChannelMediaSection
        && "datachannel" !in orphans
      requires s == NewDataOffer()
      modifies this`orphans, remoteSdp
      ensures Valid() && orphans == old(orphans) + {"datachannel"} && GetDtls() == old(GetDtls())
      ensures Sections() == old(Sections()) + [s] && fresh(remoteSdp.Repr() - old(remoteSdp.Repr()))
    {
      hide Valid, ContentsOf, Inv, GoodSections, GetDtls, SetOf, NewDataOffer;
      OfferData(s);
      var offer := PrintSdp();
    }

    /** The first data channel brings the application section of the offer, `s`. */
    method ReceiveDataChannel(o: Oracle, ghost s: Section) returns (ok: bool)
      requires Valid() && !isSender && remoteSdp.sctpParameters.Some?
      requires !hasDataChannelMediaSection ==> "datachannel" !in orphans
      requires s == NewDataOffer()
      modifies this, remoteSdp, remoteSdp.Repr()
      ensures Valid() && mapMidTransceiver == old(mapMidTransceiver)
      ensures GetDtls() == if o.found && !old(hasDataChannelMediaSection) && o.remote && o.created
                           then Attempt(old(GetDtls()), isSender, o.connected) else old(GetDtls())
      ensures Sections() == if o.found && !old(hasDataChannelMediaSection) then old(Sections()) + [s]
        else old(Sections())
      ensures ok ==> hasDataChannelMediaSection && orphans == old(orphans)
      ensures !ok ==> orphans == if o.found then old(orphans) + {"datachannel"} else old(orphans)
      ensures ok <==>
        && o.found
        && (old(hasDataChannelMediaSection)
            || (o.remote && o.created && (old(transportReady) || o.connected) && o.applied))
    {
      hide Valid, Sections, SameSlots, Attempt, Inv, GoodSections, GetDtls, SetOf, AfterSetup, NewDataOffer;
      if !o.found {
        return false;
      }
      if !hasDataChannelMediaSection {
        AnnounceData(s);
        if !o.remote || !o.created {
          return false;
        }
        OffersStay();
        ok := EnsureTransport(o.connected);
        if !ok || !o.applied {
          return false;
        }
        StoreDataFlag("datachannel");
      }
      ok := true;
    }

    // ----- stopping -----

    /** Every id is stopped at most once: its producer or consumer is closed by then. */
    ghost predicate CanStop(localId: string)
      reads this
    {
      localId !in stopped
    }

    method CloseSection(localId: string)
      requires Valid() && localId in mapMidTransceiver && CanStop(localId)
      modifies this`stopped, remoteSdp, remoteSdp.Repr()
      ensures Valid() && GetDtls() == old(GetDtls()) && remoteSdp.mediaSections == old(remoteSdp.mediaSections)
      ensures GoodSections(old(Sections())) && Sections() == Shut(old(Sections()), localId)
        && stopped == old(stopped) + {localId}
    {
      hide Valid, RemoteSdp.Valid, ContentsOf, DtlsInv, SectionsFit, Inv, GoodSections, Shut, SetOf;
      Parts();
      ghost var st := remoteSdp.GetState();
      CloseKeepsFit(st, GetAccount(), localId);
      remoteSdp.CloseMediaSection(localId);
      ghost var c := remoteSdp.GetState().sections;
      stopped := stopped + {localId};
      assert Sections() == c;
      Whole();
    }

    /** The transceiver stays in the map. */
    method StopReceiving(localId: string, o: Oracle) returns (ok: bool)
      requires Valid() && !isSender && CanStop(localId)
      modifies this`stopped, remoteSdp, remoteSdp.Repr()
      ensures Valid() && GetDtls() == old(GetDtls()) && GoodSections(old(Sections()))
      ensures Sections() == if localId in mapMidTransceiver then Shut(old(Sections()), localId) else old(Sections())
      ensures ok <==> localId in mapMidTransceiver && o.remote && o.created && o.applied
    {
      hide Valid, Sections, Shut, Inv, GoodSections, GetDtls, SetOf;
      if localId !in mapMidTransceiver {
        return false;
      }
      CloseSection(localId);
      var offer := PrintSdp();
      ok := o.remote && o.created && o.applied;
    }

    method StopSending(localId: string, o: Oracle) returns (ok: bool)
      requires Valid() && isSender && CanStop(localId)
      modifies this`stopped, remoteSdp, remoteSdp.Repr()
      ensures Valid() && GetDtls() == old(GetDtls()) && GoodSections(old(Sections()))
      ensures Sections() == if localId in mapMidTransceiver then Shut(old(Sections()), localId) else old(Sections())
      ensures ok <==> localId in mapMidTransceiver && o.created && o.applied && o.remote
    {
      hide Valid, Sections, Shut, Inv, GoodSections, GetDtls, SetOf;
      if localId !in mapMidTransceiver {
        return false;
      }
      CloseSection(localId);
      if !o.created || !o.applied {
        return false;
      }
      var answer := PrintSdp();
      ok := o.remote;
    }

    method NewIce(ice: IceParameters)
      requires Valid()
      modifies remoteSdp, remoteSdp.Repr()
      ensures Valid() && GetDtls() == old(GetDtls()) && Sections() == IceSet(old(Sections()), ice)
      ensures remoteSdp.iceParameters == ice
    {
      hide Valid, RemoteSdp.Valid, SectionsFit, ContentsOf, IceSet, DtlsInv, Inv, GoodSections, SetOf;
      Parts();
      IceKeepsFit(remoteSdp.GetState(), GetAccount(), ice);
      ghost var c := IceSet(Sections(), ice);
      remoteSdp.UpdateIceParameters(ice);
      assert Sections() == remoteSdp.GetState().sections == c;
      Whole();
    }

    /** The parameters are new in any case; the peer connection is told once there is a transport. */
    method RestartIce(ice: IceParameters, o: Oracle) returns (ok: bool)
      requires Valid()
      modifies remoteSdp, remoteSdp.Repr()
      ensures Valid() && GetDtls() == old(GetDtls()) && Sections() == IceSet(old(Sections()), ice)
      ensures remoteSdp.iceParameters == ice
      ensures ok <==> !transportReady || (o.created && o.applied && o.remote)
    {
      hide Valid, Sections, IceSet, Inv, GoodSections, GetDtls, SetOf;
      NewIce(ice);
      if !transportReady {
        return true;
      }
      ok := Renegotiate(o);
    }

    /** The sending side needs an offer before it prints its answer. */
    method Renegotiate(o: Oracle) returns (ok: bool)
      requires Valid()
      modifies remoteSdp`sdpObject
      ensures Valid() && GetDtls() == old(GetDtls()) && Sections() == old(Sections())
      ensures ok <==> o.created && o.applied && o.remote
    {
      hide Valid, Sections, Inv, GoodSections, GetDtls, SetOf;
      if isSender && !(o.created && o.applied) {
        return false;
      }
      var text := PrintSdp();
      ok := o.remote && o.created && o.applied;
    }

    // ----- sending -----

    ghost function NewAnswer(offer: Object, answer: RtpParameters, options: CodecOptions): Section
      reads remoteSdp
      requires remoteSdp.dtlsParameters.role.Some? && OfferOk(offer, answer)
      requires offer[Type].s == "application" ==> remoteSdp.sctpParameters.Some?
    {
      AnswerSection(remoteSdp.iceParameters, remoteSdp.iceCandidates, remoteSdp.dtlsParameters,
        remoteSdp.sctpParameters, offer, answer, options)
    }

    /** Once the transport is ready, the role of a new answer follows from the forced role. */
    lemma ReplyIs(offer: Object, answer: RtpParameters, options: CodecOptions, s: Section)
      requires Valid() && isSender && transportReady && OfferOk(offer, answer)
      requires offer[Type].s == "application" ==> remoteSdp.sctpParameters.Some?
      requires s == ReplySection(remoteSdp.iceParameters, remoteSdp.iceCandidates, forcedLocalDtlsRole,
        remoteSdp.sctpParameters, offer, answer, options)
      ensures remoteSdp.dtlsParameters.role.Some? && s == NewAnswer(offer, answer, options)
    {
      hide RemoteSdp.Valid, SectionsFit, AnswerObject, OfferOk;
    }

    /** The answer in the slot that was predicted. */
    method AnswerMedia(offer: Object, reuseMid: string, offered: seq<CodecParameters>, answer: RtpParameters,
        options: CodecOptions) returns (updated: seq<CodecParameters>)
      requires Valid() && isSender && transportReady
        && Answerable(remoteSdp.sctpParameters, offer, offered, answer, options)
      requires reuseMid == NextMid(Sections()) && (Fresh(Sections(), offer[Mid].s) || offer[Mid].s == reuseMid)
      modifies this`orphans, remoteSdp
      ensures Valid() && GetDtls() == old(GetDtls()) && fresh(remoteSdp.Repr() - old(remoteSdp.Repr()))
      ensures updated == UpdatedOffer(offer, offered, answer, options)
      ensures remoteSdp.dtlsParameters.role.Some?
      ensures var s := old(NewAnswer(offer, answer, options));
        && Allowed(old(remoteSdp.GetState()), Install(s))
        && Sections() == Step(old(remoteSdp.GetState()), Install(s)).sections
        && MidOf(s) == offer[Mid].s
    {
      hide Valid, RemoteSdp.Valid, SectionsFit, ContentsOf, Step, MidOf, GoodObject, AnswerSection, Findable, OfferOk,
        UpdatedOffer, Inv, SetupFits, Allowed, LeastClosed, DtlsInv, GoodSections, SetOf, Answerable;
      Parts();
      AnswerableMid(remoteSdp.sctpParameters, offer, offered, answer, options);
      RoleKnown();
      ghost var st, s := remoteSdp.GetState(), NewAnswer(offer, answer, options);
      NewAnswerFits(st, remoteSdp.iceParameters, remoteSdp.iceCandidates, remoteSdp.dtlsParameters,
        remoteSdp.sctpParameters, offer, offered, answer, options);
      NextCanPlace(st, offer[Mid].s);
      NewKeepsFit(st, GetAccount(), Install(s));
      updated := remoteSdp.Send(offer, reuseMid, offered, answer, options);
      orphans := orphans + {offer[Mid].s};
      assert Sections() == remoteSdp.GetState().sections;
      Whole();
    }

    /** The answer in the slot predicted from the sections before the transport set-up, and printed. */
    method Reply(ghost before: seq<Section>, offer: Object, reuseMid: string, offered: seq<CodecParameters>,
        answer: RtpParameters, options: CodecOptions, ghost s: Section) returns (updated: seq<CodecParameters>)
      requires Valid() && isSender && transportReady
        && Answerable(remoteSdp.sctpParameters, offer, offered, answer, options)
      requires s == ReplySection(remoteSdp.iceParameters, remoteSdp.iceCandidates, forcedLocalDtlsRole,
        remoteSdp.sctpParameters, offer, answer, options)
      requires SameSlots(before, Sections())
      requires reuseMid == NextMid(before) && (Fresh(before, offer[Mid].s) || offer[Mid].s == reuseMid)
      modifies this`orphans, remoteSdp
      ensures Valid() && GetDtls() == old(GetDtls()) && fresh(remoteSdp.Repr() - old(remoteSdp.Repr()))
      ensures updated == UpdatedOffer(offer, offered, answer, options)
      ensures Predicted(before, old(Sections()), Sections(), s) && MidOf(s) == offer[Mid].s
      ensures SlotOf(Sections(), offer[Mid].s) < |Sections()| && Open(Sections()[SlotOf(Sections(), offer[Mid].s)])
    {
      hide Valid, ContentsOf, Step, SameSlots, MidOf, GoodObject, Findable, UpdatedOffer, Predicted, SlotOf,
        LeastClosed, NextMid, OfferOk, Allowed, Inv, Fresh, GoodSections, GetDtls, SetOf, NewAnswer, Answerable, Open,
        GoodMid, ReplySection;
      AnswerableMid(remoteSdp.sctpParameters, offer, offered, answer, options);
      ReplyIs(offer, answer, options, s);
      SameSlotsSame(before, Sections());
      SameFresh(before, Sections(), offer[Mid].s);
      ghost var st := remoteSdp.GetState();
      updated := AnswerMedia(offer, reuseMid, offered, answer, options);
      PredictionHolds(before, st, s);
      var text := PrintSdp();
    }

    /** The mid of the slot to use next. */
    method PredictSlot() returns (reuseMid: string)
      requires Valid()
      ensures reuseMid == NextMid(Sections())
    {
      hide Valid, RemoteSdp.Valid, SectionsFit, Inv, GoodSections, DtlsInv, NextMid, ContentsOf;
      Parts();
      var idx;
      idx, reuseMid := remoteSdp.GetNextMediaSectionIdx();
    }

    /** `offer` is the local section at the predicted index; its mid is that of the transceiver. The
        reduced codecs that are offered are never empty. `layers` are the spatial layers of a
        given encoding, and `s` is the section of the answer. */
    method Send(offer: Object, given: seq<GivenEncoding>, layers: nat, offered: seq<CodecParameters>,
        answer: RtpParameters, options: CodecOptions, o: Oracle, ghost s: Section) returns (r: Result<SendResult>)
      requires Valid() && isSender && Answerable(remoteSdp.sctpParameters, offer, offered, answer, options)
      requires offered != [] && CanComplete(offer, given)
      requires s == ReplySection(remoteSdp.iceParameters, remoteSdp.iceCandidates, forcedLocalDtlsRole,
        remoteSdp.sctpParameters, offer, answer, options)
      requires Fresh(Sections(), offer[Mid].s) || offer[Mid].s == NextMid(Sections())
      modifies this, remoteSdp, remoteSdp.Repr()
      ensures Valid() && GetDtls() == if o.created then Attempt(old(GetDtls()), isSender, o.connected)
        else old(GetDtls())
      ensures r.Ok? <==> o.created && (old(transportReady) || o.connected) && o.applied && o.remote
                         && EncodingsOf(offer, given, offered[0].mimeType, layers).Ok?
      ensures r.Ok? ==>
        && r.value.localId == offer[Mid].s && r.value.cname == Cname(offer)
        && r.value.codecs == UpdatedOffer(offer, offered, answer, options)
        && Ok(r.value.encodings) == EncodingsOf(offer, given, offered[0].mimeType, layers)
        && mapMidTransceiver == old(mapMidTransceiver) + {offer[Mid].s}
      ensures r.Ok? ==> Predicted(old(Sections()), old(AfterSetup()), Sections(), s)
    {
      hide *;
      AnswerableMid(remoteSdp.sctpParameters, offer, offered, answer, options);
      ghost var c := Sections();
      var reuseMid := PredictSlot();
      if !o.created {
        return Err(ErrorText());
      }
      var ok := EnsureTransport(o.connected);
      if !ok || !o.applied {
        return Err(ErrorText());
      }
      var cname := Cname(offer);
      var encodings := CollectEncodings(offer, given, offered[0].mimeType, layers);
      if encodings.Err? {
        return Err(encodings.message);
      }
      var updated := Reply(c, offer, reuseMid, offered, answer, options, s);
      if !o.remote {
        return Err(ErrorText());
      }
      StoreId(offer[Mid].s);
      r := Ok(SendResult(offer[Mid].s, updated, encodings.value, cname));
    }

    /** A sending handler that is ready has told the description a role. */
    lemma RoleKnown()
      requires Valid() && transportReady
      ensures remoteSdp.dtlsParameters.role.Some? && KnownRole(remoteSdp.dtlsParameters.role.value)
    {
      hide RemoteSdp.Valid, SectionsFit;
    }

    /** Stream ids go round; the first data channel brings the application section, if the local
        offer has one; `s` is its answer. */
    method SendDataChannel(offer: Option<Object>, o: Oracle, ghost s: Section) returns (r: Result<nat>)
      requires Valid() && isSender
      requires offer.Some? ==> Answerable(remoteSdp.sctpParameters, offer.value, [], NO_RTP, NO_OPTIONS)
      requires offer.Some? && !hasDataChannelMediaSection ==> Fresh(Sections(), offer.value[Mid].s)
      requires offer.Some? ==>
        s == ReplySection(remoteSdp.iceParameters, remoteSdp.iceCandidates, forcedLocalDtlsRole,
          remoteSdp.sctpParameters, offer.value, NO_RTP, NO_OPTIONS)
      modifies this, remoteSdp, remoteSdp.Repr()
      ensures Valid() && mapMidTransceiver == old(mapMidTransceiver)
      ensures GetDtls() == if o.found && !old(hasDataChannelMediaSection) && o.created && offer.Some?
                           then Attempt(old(GetDtls()), isSender, o.connected) else old(GetDtls())
      ensures nextSendSctpStreamId == if o.found then (old(nextSendSctpStreamId) + 1) % 1024
        else old(nextSendSctpStreamId)
      ensures r.Ok? ==> r.value == old(nextSendSctpStreamId) && hasDataChannelMediaSection
      ensures r.Ok? ==> Sections() == if old(hasDataChannelMediaSection) then old(Sections())
        else old(AfterSetup()) + [s]
      ensures r.Ok? <==>
        && o.found
        && (old(hasDataChannelMediaSection) ||
            (o.created && offer.Some? && (old(transportReady) || o.connected) && o.applied && o.remote))
    {
      hide *;
      if !o.found {
        return Err(ErrorText());
      }
      ghost var c := Sections();
      var streamId := NextStream();
      if !hasDataChannelMediaSection {
        if !o.created {
          return Err(ErrorText());
        }
        if offer.None? {
          return Err("Missing 'application' media section in SDP offer");
        }
        AnswerableMid(remoteSdp.sctpParameters, offer.value, [], NO_RTP, NO_OPTIONS);
        var ok := EnsureTransport(o.connected);
        if !ok || !o.applied {
          return Err(ErrorText());
        }
        ReplyData(c, offer.value, s);
        if !o.remote {
          return Err(ErrorText());
        }
        StoreDataFlag(offer.value[Mid].s);
      }
      r := Ok(streamId);
    }

    /** The application answer of the first data channel, printed. */
    method ReplyData(ghost before: seq<Section>, offer: Object, ghost s: Section)
      requires Valid() && isSender && transportReady
        && Answerable(remoteSdp.sctpParameters, offer, [], NO_RTP, NO_OPTIONS)
      requires s == ReplySection(remoteSdp.iceParameters, remoteSdp.iceCandidates, forcedLocalDtlsRole,
        remoteSdp.sctpParameters, offer, NO_RTP, NO_OPTIONS)
      requires SameSlots(before, Sections()) && Fresh(before, offer[Mid].s)
      modifies this`orphans, remoteSdp
      ensures Valid() && GetDtls() == old(GetDtls()) && fresh(remoteSdp.Repr() - old(remoteSdp.Repr()))
      ensures Sections() == old(Sections()) + [s]
    {
      hide Valid, ContentsOf, SameSlots, Answerable, Fresh, MidOf, Inv, GoodSections, GetDtls, SetOf, SlotOf, GoodMid,
        ReplySection;
      AnswerableMid(remoteSdp.sctpParameters, offer, [], NO_RTP, NO_OPTIONS);
      SameFresh(before, Sections(), offer[Mid].s);
      AnswerData(offer, s);
      var text := PrintSdp();
    }

    method NextStream() returns (streamId: nat)
      requires Valid()
      modifies this`nextSendSctpStreamId
      ensures Valid() && Sections() == old(Sections()) && GetDtls() == old(GetDtls())
      ensures streamId == old(nextSendSctpStreamId) && nextSendSctpStreamId == (streamId + 1) % 1024
    {
      hide Valid, RemoteSdp.Valid, SectionsFit, ContentsOf, DtlsInv, Inv, GoodSections;
      Parts();
      streamId := nextSendSctpStreamId;
      ghost var c := Sections();
      nextSendSctpStreamId := (nextSendSctpStreamId + 1) % SCTP_STREAMS;
      assert Sections() == c;
      Whole();
    }

    method AnswerData(offer: Object, ghost s: Section)
      requires Valid() && isSender && transportReady
        && Answerable(remoteSdp.sctpParameters, offer, [], NO_RTP, NO_OPTIONS)
      requires s == ReplySection(remoteSdp.iceParameters, remoteSdp.iceCandidates, forcedLocalDtlsRole,
        remoteSdp.sctpParameters, offer, NO_RTP, NO_OPTIONS)
      requires Fresh(Sections(), offer[Mid].s)
      modifies this`orphans, remoteSdp
      ensures Valid() && GetDtls() == old(GetDtls()) && fresh(remoteSdp.Repr() - old(remoteSdp.Repr()))
      ensures Sections() == old(Sections()) + [s]
    {
      hide Valid, RemoteSdp.Valid, SectionsFit, ContentsOf, MidOf, GoodObject, AnswerSection, OfferOk, Inv,
        SetupFits, Fresh, Findable, DtlsInv, GoodSections, SetOf, ReplySection;
      Parts();
      AnswerableMid(remoteSdp.sctpParameters, offer, [], NO_RTP, NO_OPTIONS);
      ReplyIs(offer, NO_RTP, NO_OPTIONS, s);
      RoleKnown();
      ghost var st := remoteSdp.GetState();
      NewAnswerFits(st, remoteSdp.iceParameters, remoteSdp.iceCandidates, remoteSdp.dtlsParameters,
        remoteSdp.sctpParameters, offer, [], NO_RTP, NO_OPTIONS);
      NewKeepsFit(st, GetAccount(), Append(s));
      remoteSdp.SendSctpAssociation(offer);
      orphans := orphans + {offer[Mid].s};
      assert Sections() == remoteSdp.GetState().sections;
      Whole();
    }
  }

  /** The answer of a sending handler: its role is the opposite of the local one. */
  function ReplySection(ice: IceParameters, candidates: seq<IceCandidate>, forced: string, sctp: Option<SctpParameters>,
      offer: Object, answer: RtpParameters, options: CodecOptions): Section
    requires OfferOk(offer, answer)
    requires offer[Type].s == "application" ==> sctp.Some?
  {
    Section(false, AnswerObject(ice, candidates, Opposite(LocalRole(forced, true)), sctp, offer, answer, options))
  }

  lemma InstallIs(st: State, s: Section)
    requires GoodSections(st.sections)
    ensures Step(st, Install(s)).sections == Installed(st.sections, s)
  {
  }

  lemma NothingAttempted(declared: Option<string>, isSender: bool)
    ensures DtlsInv(Dtls(ForcedRole(declared), false, declared, 0), isSender)
  {
  }

  lemma NothingFits(isSender: bool, role: Option<string>)
    ensures SectionsFit([], Account(isSender, role, false, {}, {}, false, {}))
  {
  }

  /** No section of a receiving handler has the mid of the data channel before there is one, unless a
      failed call has left it behind. */
  lemma DataIsFresh(c: seq<Section>, a: Account)
    requires SectionsFit(c, a) && !a.isSender && !a.hasData
    ensures "datachannel" !in a.ids && (Fresh(c, "datachannel") <==> "datachannel" !in a.orphans)
  {
    hide Live, MidOf, Named, Numeral, SetupsFit;
    FreshExactly(c, a, "datachannel");
  }

  lemma AnswerableMid(sctp: Option<SctpParameters>, offer: Object, offered: seq<CodecParameters>, answer: RtpParameters,
      options: CodecOptions)
    requires Answerable(sctp, offer, offered, answer, options)
    ensures HasStr(offer, Mid) && Mid in offer && offer[Mid].Str? && GoodMid(offer[Mid].s) && OfferOk(offer, answer)
    ensures offer[Type].s == "application" ==> sctp.Some?
  {
    hide Findable;
  }

  lemma NextCanPlace(st: State, mid: string)
    requires Inv(st) && GoodMid(mid) && (Fresh(st.sections, mid) || mid == NextMid(st.sections))
    ensures CanPlace(st.sections, mid, NextMid(st.sections))
  {
    hide CanPlace, MidOf, GoodObject;
    NextIsKnown(st.sections);
  }

  /** Send fills exactly the slot predicted before the transport set-up: the least closed one, or
      a new one at the end; every other section is what the set-up made it. */
  predicate Predicted(before: seq<Section>, updated: seq<Section>, after: seq<Section>, s: Section) {
    var i := LeastClosed(before);
    && |updated| == |before| && |after| == (if i < |before| then |before| else |before| + 1)
    && GoodSections(after) && after[i] == s && Open(s)
    && forall j :: 0 <= j < |after| && j != i ==> after[j] == updated[j]
  }

  lemma PredictionHolds(before: seq<Section>, st: State, s: Section)
    requires Inv(st) && Allowed(st, Install(s)) && SameSlots(before, st.sections)
    ensures var d := Step(st, Install(s)).sections;
      && Predicted(before, st.sections, d, s) && GoodSections(d)
      && SlotOf(d, MidOf(s)) < |d| && Open(d[SlotOf(d, MidOf(s))])
  {
    hide MidOf, GoodObject, ClosedObject;
    SameSlotsSame(before, st.sections);
    NewSlot(st, s);
  }

  lemma NewDataFits(st: State, ice: IceParameters, candidates: seq<IceCandidate>, sctp: Option<SctpParameters>,
      role: Option<string>)
    requires Inv(st) && sctp.Some? && Fresh(st.sections, "datachannel")
    ensures var s := Section(true, OfferObject(ice, candidates, sctp, "datachannel", "application", NO_RTP, " "));
      && Allowed(st, Append(s)) && SetupFits(s, role) && MidOf(s) == "datachannel"
  {
    hide CandidateObjects, RtpOfferOk, OfferMedia;
    OfferGood(ice, candidates, sctp, "datachannel", "application", NO_RTP, " ");
  }

  /** A new answer is open, has its mid and says what follows from the role. */
  lemma NewAnswerFits(st: State, ice: IceParameters, candidates: seq<IceCandidate>, dtls: DtlsParameters,
      sctp: Option<SctpParameters>, offer: Object, offered: seq<CodecParameters>, answer: RtpParameters,
      options: CodecOptions)
    requires Inv(st) && dtls.role.Some? && KnownRole(dtls.role.value)
      && Answerable(sctp, offer, offered, answer, options)
    requires Fresh(st.sections, offer[Mid].s) || offer[Mid].s == NextMid(st.sections)
    ensures var s := AnswerSection(ice, candidates, dtls, sctp, offer, answer, options);
      && Allowed(st, Install(s)) && (Fresh(st.sections, offer[Mid].s) ==> Allowed(st, Append(s)))
      && !s.isOffer && SetupFits(s, dtls.role) && GoodObject(s.obj) && MidOf(s) == offer[Mid].s
  {
    hide MediaObjects.AnswerMedia, Findable, CandidateObjects;
    AnswerGood(ice, candidates, dtls, sctp, offer, offered, answer, options);
    if IsAv(offer[Type].s) {
      var o := WithRole(SectionHead(TransportObject(ice, candidates), offer[Mid], offer[Type].s, offer[Protocol]),
        dtls.role.value);
      MediaKeepsSetup(o, offer, answer, options);
    }
  }

  lemma MediaKeepsSetup(o: Object, offer: Object, answer: RtpParameters, options: CodecOptions)
    requires OfferOk(offer, answer) && IsAv(offer[Type].s)
    ensures var m := MediaObjects.AnswerMedia(o, offer, answer, options);
      (Setup in m <==> Setup in o) && Look(m, Setup) == Look(o, Setup)
  {
    hide RtpEntries, FeedbackEntries, FmtpEntries, PayloadsText, CommonExts, RecvRids, Uris, ConfiguredAll;
  }

  /** A new offer is open, has its mid and says actpass. */
  lemma NewOfferFits(st: State, ice: IceParameters, candidates: seq<IceCandidate>, mid: string, kind: string,
      rtp: RtpParameters, msid: string, role: Option<string>)
    requires Inv(st) && GoodMid(mid) && IsAv(kind) && RtpOfferOk(rtp) && Fresh(st.sections, mid)
    ensures var s := Section(true, OfferObject(ice, candidates, None, mid, kind, rtp, msid));
      && Allowed(st, Install(s)) && SetupFits(s, role) && GoodObject(s.obj) && MidOf(s) == mid
  {
    hide RtpEntries, FeedbackEntries, FmtpEntries, PayloadsText, AllExts, OfferSsrcs, OfferGroups, CandidateObjects;
    OfferGood(ice, candidates, None, mid, kind, rtp, msid);
  }
}
