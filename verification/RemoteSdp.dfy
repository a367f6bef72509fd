/** RemoteSdp: m-sections in a vector, their slots in a map, their objects in a mirrored session
    object with its BUNDLE list. The class is proved to be a cache of the list of sections. */
module RemoteSdps {
  import opened Text
  import opened Json
  import opened SdpText
  import opened RtpTypes
  import opened FmtpConfig
  import opened SsrcUtils
  import opened MediaObjects
  import opened MediaSections
  import opened RemoteStates
  import DescriptionText
  import Sdptransform

  /** The index map is exactly the inverse of the mids by position. */
  predicate IsIndex(index: map<string, nat>, c: seq<Section>)
    requires GoodSections(c)
  {
    && (forall i :: 0 <= i < |c| ==> MidOf(c[i]) in index && index[MidOf(c[i])] == i)
    && (forall mid :: mid in index ==> index[mid] < |c| && MidOf(c[index[mid]]) == mid)
  }

  function FirstMid(c: seq<Section>): string
    requires GoodSections(c)
  {
    if c == [] then "" else MidOf(c[0])
  }

  /** The index map, the first mid and the whole session object are functions of the list. */
  predicate Cached(st: State, index: map<string, nat>, first: string, sdp: Object, fingerprint: Fingerprint) {
    && Inv(st) && IsIndex(index, st.sections) && first == FirstMid(st.sections) && sdp == SessionObject(st, fingerprint)
  }

  function LastFingerprint(dtls: DtlsParameters): Fingerprint
    requires dtls.fingerprints != []
  {
    dtls.fingerprints[|dtls.fingerprints| - 1]
  }

  /** What Send demands of its arguments: see AnswerMediaSection. */
  predicate Answerable(sctp: Option<SctpParameters>, offer: Object, offered: seq<CodecParameters>,
      answer: RtpParameters, options: CodecOptions)
  {
    && OfferOk(offer, answer)
    && GoodMid(offer[Mid].s) && (IsAv(offer[Type].s) || offer[Type].s == "application")
    && (offer[Type].s == "application" ==> sctp.Some?)
    && (options != NO_OPTIONS && IsAv(offer[Type].s) ==> Findable(offered, answer.codecs))
  }

  predicate CanAnswer(dtls: DtlsParameters, sctp: Option<SctpParameters>, offer: Object, offered: seq<CodecParameters>,
      answer: RtpParameters, options: CodecOptions)
  {
    dtls.role.Some? && Answerable(sctp, offer, offered, answer, options)
  }

  function AnswerSection(ice: IceParameters, candidates: seq<IceCandidate>, dtls: DtlsParameters,
      sctp: Option<SctpParameters>, offer: Object, answer: RtpParameters, options: CodecOptions): Section
    requires dtls.role.Some? && OfferOk(offer, answer)
    requires offer[Type].s == "application" ==> sctp.Some?
  {
    Section(false, AnswerObject(ice, candidates, dtls.role.value, sctp, offer, answer, options))
  }

  const NO_RTP := RtpParameters([], [], [], None)

  lemma AnswerGood(ice: IceParameters, candidates: seq<IceCandidate>, dtls: DtlsParameters,
      sctp: Option<SctpParameters>, offer: Object, offered: seq<CodecParameters>, answer: RtpParameters,
      options: CodecOptions)
    requires CanAnswer(dtls, sctp, offer, offered, answer, options)
    ensures var s := AnswerSection(ice, candidates, dtls, sctp, offer, answer, options);
      GoodObject(s.obj) && Open(s) && MidOf(s) == offer[Mid].s
  {
    hide AnswerMedia, Findable, TransportObject, SetupOf;
    var o := WithRole(SectionHead(TransportObject(ice, candidates), offer[Mid], offer[Type].s, offer[Protocol]),
      dtls.role.value);
    assert HasStr(o, Mid) && o[Mid].s == offer[Mid].s && Port in o && o[Port] == Num(7);
    if IsAv(offer[Type].s) {
      MediaGood(o, offer, answer, options);
      var m := AnswerMedia(o, offer, answer, options);
      assert HasStr(m, Mid) && m[Mid].s == offer[Mid].s && Port in m && m[Port] == Num(7);
    }
  }

  lemma MediaGood(o: Object, offer: Object, answer: RtpParameters, options: CodecOptions)
    requires OfferOk(offer, answer) && IsAv(offer[Type].s)
    ensures var m := AnswerMedia(o, offer, answer, options);
      && Payloads in m
      && (Mid in o ==> Mid in m && m[Mid] == o[Mid]) && (Port in o ==> Port in m && m[Port] == o[Port])
  {
    hide RtpEntries, FeedbackEntries, FmtpEntries, PayloadsText, CommonExts, RecvRids, Uris, ConfiguredAll;
  }

  lemma OfferGood(ice: IceParameters, candidates: seq<IceCandidate>, sctp: Option<SctpParameters>,
      mid: string, kind: string, rtp: RtpParameters, msid: string)
    requires IsAv(kind) ==> RtpOfferOk(rtp)
    requires kind == "application" ==> sctp.Some?
    requires GoodMid(mid) && (IsAv(kind) || kind == "application")
    ensures var s := Section(true, OfferObject(ice, candidates, sctp, mid, kind, rtp, msid));
      GoodObject(s.obj) && Open(s) && MidOf(s) == mid
  {
    hide RtpEntries, FeedbackEntries, FmtpEntries, PayloadsText, AllExts, OfferSsrcs, OfferGroups, CandidateObjects;
  }

  ghost function ContentsOf(ms: seq<MediaSection>): (c: seq<Section>)
    reads ms
    ensures |c| == |ms| && forall i :: 0 <= i < |ms| ==> c[i] == Section(ms[i].isOffer, ms[i].mediaObject)
  {
    if ms == [] then [] else ContentsOf(ms[..|ms| - 1]) + [Section(ms[|ms| - 1].isOffer, ms[|ms| - 1].mediaObject)]
  }

  function SetOf(ms: seq<MediaSection>): set<MediaSection> {
    set x | x in ms
  }

  lemma SetOfChanged(ms: seq<MediaSection>, x: MediaSection, i: nat)
    requires i < |ms|
    ensures SetOf(ms[i := x]) <= SetOf(ms) + {x}
  {
  }

  lemma SetOfMore(ms: seq<MediaSection>, x: MediaSection)
    ensures SetOf(ms + [x]) == SetOf(ms) + {x}
  {
  }

  class RemoteSdp {
    var iceParameters: IceParameters
    const iceCandidates: seq<IceCandidate>
    var dtlsParameters: DtlsParameters
    const sctpParameters: Option<SctpParameters>
    var mediaSections: seq<MediaSection>
    var midToIndex: map<string, nat>
    var firstMid: string
    var sdpObject: Object

    /** The sections as values. */
    ghost function Contents(): seq<Section>
      reads this`mediaSections, mediaSections
    {
      ContentsOf(mediaSections)
    }

    ghost function Repr(): set<MediaSection>
      reads this`mediaSections
    {
      SetOf(mediaSections)
    }

    ghost predicate HasVersion()
      reads this
    {
      Origin in sdpObject && sdpObject[Origin].Obj? && HasNum(sdpObject[Origin].fields, SessionVersion)
      && 0 <= sdpObject[Origin].fields[SessionVersion].n < TWO_32
    }

    ghost function GetState(): State
      reads this, mediaSections
      requires HasVersion()
    {
      State(Contents(), sdpObject[Origin].fields[SessionVersion].n, Icelite in sdpObject)
    }

    ghost predicate DistinctObjects()
      reads this
    {
      forall i, j :: 0 <= i < j < |mediaSections| ==> mediaSections[i] != mediaSections[j]
    }

    /** The vector holds distinct objects, and the other fields cache the list of sections. */
    ghost predicate Valid()
      reads this, mediaSections
      ensures Valid() ==> HasVersion() && Inv(GetState())
    {
      && DistinctObjects() && HasVersion() && dtlsParameters.fingerprints != []
      && Cached(GetState(), midToIndex, firstMid, sdpObject, LastFingerprint(dtlsParameters))
      && (iceParameters.iceLite ==> Icelite in sdpObject)
    }

    /** What validity says about the fields, ... */
    lemma Disassemble()
      requires Valid()
      ensures HasVersion() && DistinctObjects() && dtlsParameters.fingerprints != []
        && (iceParameters.iceLite ==> Icelite in sdpObject)
      ensures Cached(GetState(), midToIndex, firstMid, sdpObject, LastFingerprint(dtlsParameters))
      ensures GetState().sections == Contents() && GoodSections(Contents()) && GetState().version < TWO_32
    {
      hide Cached, DistinctObjects, ContentsOf;
    }

    /** ... and what the fields must be for the object to cache a state. */
    lemma Assemble(st: State)
      requires DistinctObjects() && dtlsParameters.fingerprints != [] && (iceParameters.iceLite ==> st.lite)
      requires Contents() == st.sections && st.version < TWO_32
      requires Cached(st, midToIndex, firstMid, sdpObject, LastFingerprint(dtlsParameters))
      ensures Valid() && GetState() == st
    {
      hide IsIndex, DistinctObjects, ContentsOf, SessionObject, Inv, FirstMid;
      CachedInv(st, midToIndex, firstMid, sdpObject, LastFingerprint(dtlsParameters));
      SessionMembers(st, LastFingerprint(dtlsParameters));
    }

    constructor (ice: IceParameters, candidates: seq<IceCandidate>, dtls: DtlsParameters, sctp: Option<SctpParameters>)
      requires dtls.fingerprints != []
      ensures Valid() && mediaSections == []
      ensures GetState() == Initial(ice.iceLite)
      ensures iceParameters == ice && iceCandidates == candidates && dtlsParameters == dtls && sctpParameters == sctp
    {
      iceParameters := ice;
      iceCandidates := candidates;
      dtlsParameters := dtls;
      sctpParameters := sctp;
      mediaSections := [];
      midToIndex := map[];
      firstMid := "";
      var o: Object := map[Version := Num(0), Origin := Obj(OriginObject(0)), Name := Str("-"),
        Timing := Obj(map[Start := Num(0), Stop := Num(0)]), Media := Arr([])];
      if ice.iceLite {
        o := o[Icelite := Str("ice-lite")];
      }
      o := o[MsidSemantic := Obj(map[Semantic := Str("WMS"), Token := Str("*")])];
      var latest := dtls.fingerprints[|dtls.fingerprints| - 1];
      o := o[Key.Fingerprint := Obj(map[Type := Str(latest.algorithm), Hash := Str(latest.value)])];
      o := o[Groups := Arr([BundleGroup("")])];
      sdpObject := o;
      new;
      assert Objects(Contents()) == [];
    }

    /** A closed section's slot and mid, or the end. */
    method GetNextMediaSectionIdx() returns (idx: nat, reuseMid: string)
      requires Valid()
      ensures idx == LeastClosed(Contents()) && reuseMid == NextMid(Contents())
      ensures idx == 0 <==> mediaSections == []
    {
      hide ContentsOf, SessionObject, IsIndex, DistinctObjects, FirstMid, DistinctMids;
      idx := 0;
      while idx < |mediaSections|
        invariant idx <= |mediaSections|
        invariant forall j :: 0 <= j < idx ==> Open(Contents()[j])
      {
        if mediaSections[idx].IsClosed() {
          assert !Open(Contents()[idx]);
          assert GoodObject(Contents()[idx].obj);
          reuseMid := mediaSections[idx].GetMid();
          return;
        }
        assert Open(Contents()[idx]);
        idx := idx + 1;
      }
      reuseMid := "";
    }

    /** RegenerateBundleMids */
    method RegenerateBundleMids()
      requires GoodSections(Contents()) && HasArr(sdpObject, Groups) && |sdpObject[Groups].items| == 1
      modifies this`sdpObject
      ensures sdpObject
        == old(sdpObject)[Groups := Arr([old(sdpObject)[Groups].items[0][Mids := Str(Bundle(Contents()))]])]
    {
      var mids := "";
      for i := 0 to |mediaSections|
        invariant mids == Bundle(Contents()[..i])
      {
        assert GoodObject(Contents()[i].obj);
        assert Contents()[..i + 1][..i] == Contents()[..i];
        if !mediaSections[i].IsClosed() {
          if mids == "" {
            mids := mediaSections[i].GetMid();
          } else {
            mids := mids + (" " + mediaSections[i].GetMid());
          }
        }
      }
      assert Contents()[..|mediaSections|] == Contents();
      var groups := sdpObject[Groups].items;
      sdpObject := sdpObject[Groups := Arr(groups[0 := groups[0][Mids := Str(mids)]])];
      assert groups[0 := groups[0][Mids := Str(mids)]] == [groups[0][Mids := Str(mids)]];
    }

    /** One entry of the mirror, then the BUNDLE list. */
    method MirrorSection(idx: nat, ghost before: seq<Section>)
      requires idx < |mediaSections| == |before| && GoodSections(Contents())
        && Contents() == before[idx := Contents()[idx]]
      requires Media in sdpObject && sdpObject[Media] == Arr(Objects(before))
      requires HasArr(sdpObject, Groups) && |sdpObject[Groups].items| == 1
      modifies this`sdpObject
      ensures sdpObject == Refreshed(old(sdpObject), Contents())
    {
      hide ContentsOf, Bundle, Objects, GoodObject;
      ghost var c := Contents();
      ObjectsUpdate(before, idx, c[idx]);
      sdpObject := sdpObject[Media := Arr(sdpObject[Media].items[idx := mediaSections[idx].mediaObject])];
      RegenerateBundleMids();
    }

    method AddMediaSection(section: MediaSection)
      requires Valid() && section !in mediaSections
      requires Allowed(GetState(), Append(Section(section.isOffer, section.mediaObject)))
      modifies this`mediaSections, this`midToIndex, this`firstMid, this`sdpObject
      ensures Valid() && mediaSections == old(mediaSections) + [section] && Repr() == old(Repr()) + {section}
      ensures GetState() == Step(old(GetState()), Append(Section(section.isOffer, section.mediaObject)))
    {
      hide Valid, GetState, Cached, HasVersion, SetOf, ContentsOf, Bundle, MidOf, GoodObject, Objects, Allowed,
        Step, Inv, Refreshed;
      ghost var st, s := GetState(), Section(section.isOffer, section.mediaObject);
      Disassemble();
      AppendCached(st, midToIndex, firstMid, sdpObject, LastFingerprint(dtlsParameters), s);
      if firstMid == "" {
        firstMid := section.GetMid();
      }
      SetOfMore(mediaSections, section);
      mediaSections := mediaSections + [section];
      assert Contents() == st.sections + [s];
      midToIndex := midToIndex[section.GetMid() := |mediaSections| - 1];
      MirrorAppended(section, st.sections);
      Assemble(Step(st, Append(s)));
    }

    /** One more entry of the mirror, then the BUNDLE list. */
    method MirrorAppended(section: MediaSection, ghost before: seq<Section>)
      requires Contents() == before + [Section(section.isOffer, section.mediaObject)] && GoodSections(Contents())
      requires Media in sdpObject && sdpObject[Media] == Arr(Objects(before))
      requires HasArr(sdpObject, Groups) && |sdpObject[Groups].items| == 1
      modifies this`sdpObject
      ensures sdpObject == Refreshed(old(sdpObject), Contents())
    {
      hide ContentsOf, Bundle, Objects, GoodObject;
      ObjectsAppend(before, Section(section.isOffer, section.mediaObject));
      sdpObject := sdpObject[Media := Arr(sdpObject[Media].items + [section.mediaObject])];
      RegenerateBundleMids();
    }

    /** ReplaceMediaSection with the mid of the section to replace. */
    method ReplaceMediaSection(section: MediaSection, reuseMid: string)
      requires Valid() && section !in mediaSections
      requires CanReplace(Contents(), Section(section.isOffer, section.mediaObject), reuseMid)
      modifies this`mediaSections, this`midToIndex, this`sdpObject
      ensures Valid() && mediaSections == old(mediaSections)[SlotOf(old(Contents()), reuseMid) := section]
      ensures Repr() <= old(Repr()) + {section}
      ensures GetState() == old(GetState()).(sections := Placed(old(Contents()),
        Section(section.isOffer, section.mediaObject), reuseMid))
    {
      hide Valid, GetState, Cached, HasVersion, SetOf, ContentsOf, Bundle, MidOf, GoodObject, Objects, CanReplace,
        Placed, Inv, SlotOf, Refreshed;
      ghost var st, s := GetState(), Section(section.isOffer, section.mediaObject);
      Disassemble();
      ReplaceCached(st, midToIndex, firstMid, sdpObject, LastFingerprint(dtlsParameters), s, reuseMid);
      var idx := midToIndex[reuseMid];
      var oldMediaSection := mediaSections[idx];
      assert Contents()[idx] == Section(oldMediaSection.isOffer, oldMediaSection.mediaObject);
      SetOfChanged(mediaSections, section, idx);
      mediaSections := mediaSections[idx := section];
      assert Contents() == st.sections[idx := s];
      midToIndex := midToIndex - {oldMediaSection.GetMid()};
      midToIndex := midToIndex[section.GetMid() := idx];
      MirrorSection(idx, st.sections);
      assert Contents() == st.sections[idx := s];
      Assemble(st.(sections := st.sections[idx := s]));
    }

    /** The section of the mid is replaced, or the new one appended. */
    method PlaceSection(section: MediaSection, reuseMid: string)
      requires Valid() && section !in mediaSections
      requires var s := Section(section.isOffer, section.mediaObject);
        GoodObject(s.obj) && Open(s) && CanPlace(Contents(), MidOf(s), reuseMid)
      modifies this`mediaSections, this`midToIndex, this`firstMid, this`sdpObject
      ensures Valid() && Repr() <= old(Repr()) + {section}
      ensures GetState() == old(GetState()).(sections :=
                Placed(old(Contents()), Section(section.isOffer, section.mediaObject), reuseMid))
    {
      hide ContentsOf, Cached, Open, MidOf, GoodObject, DistinctObjects, Step, Allowed, Placed, CanReplace, CanPlace,
        SetOf, Fresh;
      CachedInv(GetState(), midToIndex, firstMid, sdpObject, LastFingerprint(dtlsParameters));
      PlacingIs(GetState(), Section(section.isOffer, section.mediaObject), reuseMid);
      if reuseMid != "" {
        ReplaceMediaSection(section, reuseMid);
      } else {
        AddMediaSection(section);
      }
    }

    /** A section of an answer, in the slot of the closed section `reuseMid`, or at the end. */
    method Send(offer: Object, reuseMid: string, offered: seq<CodecParameters>, answer: RtpParameters,
        options: CodecOptions)
      returns (updated: seq<CodecParameters>)
      requires Valid() && CanAnswer(dtlsParameters, sctpParameters, offer, offered, answer, options)
      requires CanPlace(Contents(), offer[Mid].s, reuseMid)
      modifies this`mediaSections, this`midToIndex, this`firstMid, this`sdpObject
      ensures Valid() && updated == UpdatedOffer(offer, offered, answer, options)
      ensures var s := AnswerSection(iceParameters, iceCandidates, dtlsParameters, sctpParameters, offer, answer,
        options);
        && GetState() == old(GetState()).(sections := Placed(old(Contents()), s, reuseMid))
        && (reuseMid == NextMid(old(Contents())) ==> GetState() == Step(old(GetState()), Install(s)))
      ensures fresh(Repr() - old(Repr()))
    {
      hide ContentsOf, AnswerObject, UpdatedOffer, Cached, Open, MidOf, GoodObject, DistinctObjects, Step,
        Allowed, Placed, CanReplace, CanPlace, SetOf, Fresh;
      CachedInv(GetState(), midToIndex, firstMid, sdpObject, LastFingerprint(dtlsParameters));
      AnswerGood(iceParameters, iceCandidates, dtlsParameters, sctpParameters, offer, offered, answer, options);
      PlacingIs(GetState(), AnswerSection(iceParameters, iceCandidates, dtlsParameters, sctpParameters, offer, answer,
        options), reuseMid);
      var o;
      o, updated := BuildAnswer(iceParameters, iceCandidates, dtlsParameters.role.value, sctpParameters, offer,
        offered, answer, options);
      var section := new MediaSection(false, o);
      PlaceSection(section, reuseMid);
    }

    /** The SCTP association of an offer always gets a section of its own at the end. */
    method SendSctpAssociation(offer: Object)
      requires Valid() && CanAnswer(dtlsParameters, sctpParameters, offer, [], NO_RTP, NO_OPTIONS)
      requires Fresh(Contents(), offer[Mid].s)
      modifies this`mediaSections, this`midToIndex, this`firstMid, this`sdpObject
      ensures Valid()
      ensures GetState() == Step(old(GetState()),
                              Append(AnswerSection(iceParameters, iceCandidates, dtlsParameters, sctpParameters, offer,
                                NO_RTP, NO_OPTIONS)))
      ensures fresh(Repr() - old(Repr()))
    {
      hide ContentsOf, AnswerObject, UpdatedOffer, Cached, Open, MidOf, GoodObject, DistinctObjects;
      AnswerGood(iceParameters, iceCandidates, dtlsParameters, sctpParameters, offer, [], NO_RTP, NO_OPTIONS);
      var o, updated := BuildAnswer(iceParameters, iceCandidates, dtlsParameters.role.value, sctpParameters, offer, [],
        NO_RTP, NO_OPTIONS);
      var section := new MediaSection(false, o);
      AddMediaSection(section);
    }

    method RecvSctpAssociation()
      requires Valid() && sctpParameters.Some? && Fresh(Contents(), "datachannel")
      modifies this`mediaSections, this`midToIndex, this`firstMid, this`sdpObject
      ensures Valid()
      ensures GetState() == Step(old(GetState()),
                              Append(Section(true, OfferObject(iceParameters, iceCandidates, sctpParameters,
                                "datachannel", "application", NO_RTP, " "))))
      ensures fresh(Repr() - old(Repr()))
    {
      hide ContentsOf, OfferObject, Cached, Open, MidOf, GoodObject, DistinctObjects;
      OfferGood(iceParameters, iceCandidates, sctpParameters, "datachannel", "application", NO_RTP, " ");
      var o := BuildOffer(iceParameters, iceCandidates, sctpParameters, "datachannel", "application", NO_RTP, "", "");
      assert "" + (" " + "") == " ";
      var section := new MediaSection(true, o);
      AddMediaSection(section);
    }

    /** A section of an offer, in the slot of the first closed section or at the end. */
    method Receive(mid: string, kind: string, rtp: RtpParameters, streamId: string, trackId: string)
      requires Valid() && GoodMid(mid) && IsAv(kind) && RtpOfferOk(rtp)
      requires Fresh(Contents(), mid) || mid == NextMid(Contents())
      modifies this`mediaSections, this`midToIndex, this`firstMid, this`sdpObject
      ensures Valid()
      ensures GetState() == Step(old(GetState()),
                              Install(Section(true, OfferObject(iceParameters, iceCandidates, None, mid, kind, rtp,
                                streamId + (" " + trackId)))))
      ensures fresh(Repr() - old(Repr()))
    {
      hide ContentsOf, OfferObject, Cached, Open, MidOf, GoodObject, RtpOfferOk, DistinctObjects, Installed, SetOf;
      CachedInv(GetState(), midToIndex, firstMid, sdpObject, LastFingerprint(dtlsParameters));
      var msid := streamId + (" " + trackId);
      OfferGood(iceParameters, iceCandidates, None, mid, kind, rtp, msid);
      ghost var s := Section(true, OfferObject(iceParameters, iceCandidates, None, mid, kind, rtp, msid));
      PlacedIsInstalled(Contents(), s);
      var o := BuildOffer(iceParameters, iceCandidates, None, mid, kind, rtp, streamId, trackId);
      var section := new MediaSection(true, o);
      var idx, reuseMid := GetNextMediaSectionIdx();
      NextIsKnown(Contents());
      if idx < |mediaSections| {
        ReplaceMediaSection(section, reuseMid);
      } else {
        AddMediaSection(section);
      }
    }

    /** Closing the first section would take the bundled transport down: it is only disabled. */
    method ShutSection(idx: nat, first: bool)
      requires DistinctObjects() && idx < |mediaSections|
      modifies mediaSections[idx]
      ensures var before := old(Contents())[idx];
        Contents() == old(Contents())[idx := before.(obj := if first then Disabled(before.obj) else Closed(before.obj))]
    {
      hide ContentsOf, Disabled, Closed;
      var mediaSection := mediaSections[idx];
      if first {
        mediaSection.Disable();
      } else {
        mediaSection.Close();
      }
      assert forall j :: 0 <= j < |mediaSections| && j != idx ==> mediaSections[j] != mediaSection;
      ghost var now := Contents();
      assert forall j :: 0 <= j < |now| && j != idx ==> now[j] == old(Contents())[j];
    }

    method CloseMediaSection(mid: string)
      requires Valid() && !Fresh(Contents(), mid)
      modifies this`sdpObject, Repr()
      ensures Valid() && GetState() == Step(old(GetState()), Close(mid))
    {
      hide Valid, GetState, Cached, HasVersion, ContentsOf, Bundle, MidOf, GoodObject, Objects, Closed, Disabled,
        Inv, SlotOf, Refreshed, Fresh, Shut;
      Disassemble();
      ghost var st := GetState();
      ghost var after := Shut(st.sections, mid);
      CloseCached(st, midToIndex, firstMid, sdpObject, LastFingerprint(dtlsParameters), mid);
      var idx := midToIndex[mid];
      var mediaSection := mediaSections[idx];
      assert mediaSection in mediaSections;
      ShutSection(idx, mid == firstMid);
      assert Contents() == after;
      MirrorSection(idx, st.sections);
      Assemble(st.(sections := after));
    }

    method UpdateDtlsRole(role: string)
      requires Valid()
      modifies this`dtlsParameters, this`sdpObject, Repr()
      ensures Valid() && GetState() == Step(old(GetState()), SetRole(role, iceParameters.iceLite))
      ensures dtlsParameters == old(dtlsParameters).(role := Some(role))
    {
      hide Valid, GetState, HasVersion, Cached, ContentsOf, Objects, RolesSet, Inv;
      ghost var st := GetState();
      Disassemble();
      UpdateCached(st, midToIndex, firstMid, sdpObject, LastFingerprint(dtlsParameters), RolesSet(st.sections, role),
        iceParameters.iceLite, role, iceParameters);
      dtlsParameters := dtlsParameters.(role := Some(role));
      if iceParameters.iceLite {
        sdpObject := sdpObject[Icelite := Str("ice-lite")];
      }
      SetRoles(role);
      Assemble(Step(st, SetRole(role, iceParameters.iceLite)));
    }

    /** The loop over the sections, each mirrored after its update. */
    method SetRoles(role: string)
      requires DistinctObjects() && Media in sdpObject && sdpObject[Media] == Arr(Objects(Contents()))
      modifies this`sdpObject, Repr()
      ensures Contents() == RolesSet(old(Contents()), role)
      ensures sdpObject == old(sdpObject)[Media := Arr(Objects(Contents()))]
    {
      hide ContentsOf, Objects, RoleSet, Mixed, SetOf;
      ghost var before := Contents();
      ghost var after := RolesSet(before, role);
      MixedEnds(before, after);
      for idx := 0 to |mediaSections|
        invariant Contents() == Mixed(before, after, idx)
        invariant sdpObject == old(sdpObject)[Media := Arr(Objects(Contents()))]
      {
        InRepr(idx);
        MixedStep(before, after, idx);
        SetRolesAt(idx, role);
      }
      assert Contents() == after;
    }

    lemma InRepr(i: nat)
      requires i < |mediaSections|
      ensures mediaSections[i] in Repr()
    {
    }

    method SetRolesAt(idx: nat, role: string)
      requires DistinctObjects() && idx < |mediaSections| && Media in sdpObject
        && sdpObject[Media] == Arr(Objects(Contents()))
      modifies this`sdpObject, mediaSections[idx]
      ensures var s := old(Contents())[idx];
        Contents() == old(Contents())[idx := s.(obj := RoleSet(s.isOffer, s.obj, role))]
      ensures sdpObject == old(sdpObject)[Media := Arr(Objects(Contents()))]
    {
      hide ContentsOf, RoleSet, Objects;
      ghost var before := Contents();
      var mediaSection := mediaSections[idx];
      mediaSection.SetDtlsRole(role);
      assert forall j :: 0 <= j < |mediaSections| && j != idx ==> mediaSections[j] != mediaSection;
      ghost var now := Contents();
      assert forall j :: 0 <= j < |now| && j != idx ==> now[j] == before[j];
      assert now == before[idx := now[idx]];
      ObjectsUpdate(before, idx, now[idx]);
      sdpObject := sdpObject[Media := Arr(sdpObject[Media].items[idx := mediaSection.mediaObject])];
    }

    method UpdateIceParameters(ice: IceParameters)
      requires Valid()
      modifies this`iceParameters, this`sdpObject, Repr()
      ensures Valid() && GetState() == Step(old(GetState()), SetIce(ice)) && iceParameters == ice
    {
      hide Valid, GetState, HasVersion, Cached, ContentsOf, Objects, IceSet, Inv;
      ghost var st := GetState();
      Disassemble();
      UpdateCached(st, midToIndex, firstMid, sdpObject, LastFingerprint(dtlsParameters), IceSet(st.sections, ice),
        ice.iceLite, "", ice);
      iceParameters := ice;
      if ice.iceLite {
        sdpObject := sdpObject[Icelite := Str("ice-lite")];
      }
      SetIceAll(ice);
      Assemble(Step(st, SetIce(ice)));
    }

    method SetIceAll(ice: IceParameters)
      requires DistinctObjects() && Media in sdpObject && sdpObject[Media] == Arr(Objects(Contents()))
      modifies this`sdpObject, Repr()
      ensures Contents() == IceSet(old(Contents()), ice)
      ensures sdpObject == old(sdpObject)[Media := Arr(Objects(Contents()))]
    {
      hide ContentsOf, Objects, WithIce, Mixed, SetOf;
      ghost var before := Contents();
      ghost var after := IceSet(before, ice);
      MixedEnds(before, after);
      for idx := 0 to |mediaSections|
        invariant Contents() == Mixed(before, after, idx)
        invariant sdpObject == old(sdpObject)[Media := Arr(Objects(Contents()))]
      {
        InRepr(idx);
        MixedStep(before, after, idx);
        SetIceAllAt(idx, ice);
      }
      assert Contents() == after;
    }

    method SetIceAllAt(idx: nat, ice: IceParameters)
      requires DistinctObjects() && idx < |mediaSections| && Media in sdpObject
        && sdpObject[Media] == Arr(Objects(Contents()))
      modifies this`sdpObject, mediaSections[idx]
      ensures var s := old(Contents())[idx];
        Contents() == old(Contents())[idx := s.(obj := WithIce(s.obj, ice))]
      ensures sdpObject == old(sdpObject)[Media := Arr(Objects(Contents()))]
    {
      hide ContentsOf, WithIce, Objects;
      ghost var before := Contents();
      var mediaSection := mediaSections[idx];
      mediaSection.SetIceParameters(ice);
      assert forall j :: 0 <= j < |mediaSections| && j != idx ==> mediaSections[j] != mediaSection;
      ghost var now := Contents();
      assert forall j :: 0 <= j < |now| && j != idx ==> now[j] == before[j];
      assert now == before[idx := now[idx]];
      ObjectsUpdate(before, idx, now[idx]);
      sdpObject := sdpObject[Media := Arr(sdpObject[Media].items[idx := mediaSection.mediaObject])];
    }

    /** The text of the description, under the next session version. */
    method GetSdp() returns (text: string)
      requires Valid()
      modifies this`sdpObject
      ensures Valid() && GetState() == Step(old(GetState()), Print) && Contents() == old(Contents())
      ensures text == WriteText(SessionObject(GetState(), LastFingerprint(dtlsParameters)))
      ensures "v=0\r\no=libmediasoupclient 10000 "
        + (Digits(U32(old(GetState()).version + 1)) + " IN IP4 0.0.0.0\r\n") <= text
    {
      hide Valid, GetState, Cached, ContentsOf, SessionObject, WriteText, FillDefaults, Inv, Digits;
      ghost var st := GetState();
      Disassemble();
      PrintCached(st, midToIndex, firstMid, sdpObject, LastFingerprint(dtlsParameters));
      var version := U32(sdpObject[Origin].fields[SessionVersion].n);
      version := U32(version + 1);
      sdpObject := sdpObject[Origin := Obj(sdpObject[Origin].fields[SessionVersion := Num(version)])];
      text, sdpObject := Sdptransform.Write(sdpObject);
      Assemble(Step(st, Print));
      DescriptionText.OriginLeads(Step(st, Print), LastFingerprint(dtlsParameters));
    }
  }

  /** The list in the middle of a loop that updates it in place. */
  function Mixed(before: seq<Section>, after: seq<Section>, n: nat): (r: seq<Section>)
    requires n <= |before| == |after|
    ensures |r| == |before|
  {
    after[..n] + before[n..]
  }

  lemma MixedEnds(before: seq<Section>, after: seq<Section>)
    requires |before| == |after|
    ensures Mixed(before, after, 0) == before && Mixed(before, after, |after|) == after
  {
  }

  lemma MixedStep(before: seq<Section>, after: seq<Section>, i: nat)
    requires i < |before| == |after|
    ensures Mixed(before, after, i)[i] == before[i]
    ensures Mixed(before, after, i)[i := after[i]] == Mixed(before, after, i + 1)
  {
  }

  lemma SessionMembers(st: State, fingerprint: Fingerprint)
    requires GoodSections(st.sections)
    ensures var o := SessionObject(st, fingerprint);
      && Media in o && o[Media] == Arr(Objects(st.sections))
      && Groups in o && o[Groups] == Arr([BundleGroup(Bundle(st.sections))])
      && Origin in o && o[Origin] == Obj(OriginObject(st.version)) && (Icelite in o <==> st.lite)
  {
    hide Bundle, Objects;
  }

  /** The media array replaced and the BUNDLE list regenerated. */
  function Refreshed(sdp: Object, after: seq<Section>): Object
    requires GoodSections(after) && HasArr(sdp, Groups) && |sdp[Groups].items| == 1
  {
    sdp[Media := Arr(Objects(after))][Groups := Arr([sdp[Groups].items[0][Mids := Str(Bundle(after))]])]
  }

  lemma SessionRefreshed(st: State, after: seq<Section>, fingerprint: Fingerprint)
    requires GoodSections(st.sections) && GoodSections(after)
    ensures var o := SessionObject(st, fingerprint);
      && HasArr(o, Groups) && |o[Groups].items| == 1
      && Refreshed(o, after) == SessionObject(st.(sections := after), fingerprint)
  {
    hide Bundle, Objects;
    var o := SessionObject(st, fingerprint);
    assert o[Groups].items[0][Mids := Str(Bundle(after))] == BundleGroup(Bundle(after));
  }

  lemma IndexGrows(index: map<string, nat>, c: seq<Section>, s: Section)
    requires GoodSections(c) && IsIndex(index, c) && GoodObject(s.obj) && Fresh(c, MidOf(s))
    ensures GoodSections(c + [s]) && IsIndex(index[MidOf(s) := |c|], c + [s])
  {
    hide GoodObject, MidOf;
  }

  lemma AppendCached(st: State, index: map<string, nat>, first: string, sdp: Object, fingerprint: Fingerprint,
      s: Section)
    requires Cached(st, index, first, sdp, fingerprint) && Allowed(st, Append(s))
    ensures var after := Step(st, Append(s));
      && after.sections == st.sections + [s] && after.version == st.version && after.lite == st.lite
      && GoodSections(after.sections) && GoodObject(s.obj) && HasStr(s.obj, Mid) && s.obj[Mid].s == MidOf(s)
      && (first == "" <==> st.sections == [])
      && HasArr(sdp, Groups) && |sdp[Groups].items| == 1 && Media in sdp && sdp[Media] == Arr(Objects(st.sections))
      && (Icelite in sdp <==> st.lite)
      && Cached(after, index[MidOf(s) := |st.sections|], if first == "" then MidOf(s) else first,
           Refreshed(sdp, after.sections), fingerprint)
  {
    hide Bundle, SessionObject, Refreshed, GoodObject, MidOf, Objects;
    SessionMembers(st, fingerprint);
    StepKeepsInv(st, Append(s));
    IndexGrows(index, st.sections, s);
    SessionRefreshed(st, st.sections + [s], fingerprint);
    MidOfIs(s);
    if st.sections != [] {
      MidOfIs(st.sections[0]);
    }
  }

  /** A known mid to replace; the mid of the new section is not in use elsewhere, and the first
      section keeps its mid. */
  predicate CanReplace(c: seq<Section>, s: Section, reuseMid: string)
    requires GoodSections(c)
  {
    GoodObject(s.obj) && Open(s) && reuseMid != "" && CanPlace(c, MidOf(s), reuseMid)
  }

  /** A section is placed by replacing the one of the given mid, or by appending it. */
  lemma PlacingIs(st: State, s: Section, reuseMid: string)
    requires Inv(st) && GoodObject(s.obj) && Open(s) && CanPlace(st.sections, MidOf(s), reuseMid)
    ensures reuseMid != "" ==> CanReplace(st.sections, s, reuseMid)
    ensures reuseMid == "" ==>
      Allowed(st, Append(s))
      && Step(st, Append(s)) == st.(sections := Placed(st.sections, s, reuseMid))
    ensures reuseMid == NextMid(st.sections) ==>
      st.(sections := Placed(st.sections, s, reuseMid)) == Step(st, Install(s))
  {
    hide Installed, MidOf, GoodObject, Open, SlotOf;
    PlacedIsInstalled(st.sections, s);
  }

  predicate CanPlace(c: seq<Section>, mid: string, reuseMid: string)
    requires GoodSections(c)
  {
    if reuseMid == "" then Fresh(c, mid)
    else
      && !Fresh(c, reuseMid) && (Fresh(c, mid) || mid == reuseMid)
      && (SlotOf(c, reuseMid) == 0 ==> mid == reuseMid)
  }

  /** The mid GetNextMediaSectionIdx gives can be used with any fresh mid. */
  lemma NextIsKnown(c: seq<Section>)
    requires Inv(State(c, 0, false))
    ensures LeastClosed(c) < |c| ==> NextMid(c) != "" && SlotOf(c, NextMid(c)) == LeastClosed(c) && LeastClosed(c) != 0
    ensures LeastClosed(c) == |c| ==> NextMid(c) == ""
    ensures forall mid :: GoodMid(mid) && (Fresh(c, mid) || mid == NextMid(c)) ==> CanPlace(c, mid, NextMid(c))
  {
    var i := LeastClosed(c);
    if i < |c| {
      MidOfIs(c[i]);
      SlotIs(c, i);
    }
  }

  lemma CachedInv(st: State, index: map<string, nat>, first: string, sdp: Object, fingerprint: Fingerprint)
    requires Cached(st, index, first, sdp, fingerprint)
    ensures Inv(st)
  {
  }

  lemma ObjectsAppend(c: seq<Section>, s: Section)
    ensures Objects(c + [s]) == Objects(c) + [s.obj]
  {
  }

  lemma ObjectsUpdate(c: seq<Section>, i: nat, s: Section)
    requires i < |c|
    ensures Objects(c[i := s]) == Objects(c)[i := s.obj]
  {
  }

  lemma ReplaceCached(st: State, index: map<string, nat>, first: string, sdp: Object, fingerprint: Fingerprint,
      s: Section, reuseMid: string)
    requires Cached(st, index, first, sdp, fingerprint) && CanReplace(st.sections, s, reuseMid)
    ensures var c := st.sections;
      && HasStr(s.obj, Mid) && s.obj[Mid].s == MidOf(s)
      && reuseMid in index && index[reuseMid] < |c|
      && var i := index[reuseMid];
      && i == SlotOf(c, reuseMid) && HasStr(c[i].obj, Mid) && c[i].obj[Mid].s == reuseMid
      && GoodSections(c[i := s]) && Placed(c, s, reuseMid) == c[i := s]
      && HasArr(sdp, Groups) && |sdp[Groups].items| == 1 && Media in sdp && sdp[Media] == Arr(Objects(c))
      && (Icelite in sdp <==> st.lite)
      && Cached(st.(sections := c[i := s]), (index - {reuseMid})[MidOf(s) := i], first, Refreshed(sdp, c[i := s]),
        fingerprint)
  {
    hide Bundle, SessionObject, Refreshed, GoodObject, ClosedObject, MidOf, Objects;
    SessionMembers(st, fingerprint);
    var c := st.sections;
    var i := SlotOf(c, reuseMid);
    MidOfIs(s);
    MidOfIs(c[i]);
    var d := c[i := s];
    ReplaceInv(st, s, reuseMid);
    SessionRefreshed(st, d, fingerprint);
    IndexMoves(index, c, s, reuseMid);
  }

  lemma ReplaceInv(st: State, s: Section, reuseMid: string)
    requires Inv(st) && CanReplace(st.sections, s, reuseMid)
    ensures Inv(st.(sections := st.sections[SlotOf(st.sections, reuseMid) := s]))
  {
    hide GoodObject, ClosedObject, MidOf;
    var c, i := st.sections, SlotOf(st.sections, reuseMid);
    forall j | 0 <= j < |c| && j != i
      ensures MidOf(c[j]) != MidOf(s)
    {
    }
  }

  lemma IndexMoves(index: map<string, nat>, c: seq<Section>, s: Section, reuseMid: string)
    requires GoodSections(c) && DistinctMids(c) && IsIndex(index, c) && CanReplace(c, s, reuseMid)
    ensures var i := SlotOf(c, reuseMid);
      && reuseMid in index && index[reuseMid] == i
      && GoodSections(c[i := s]) && IsIndex((index - {reuseMid})[MidOf(s) := i], c[i := s])
  {
    hide GoodObject, ClosedObject, MidOf;
    var i := SlotOf(c, reuseMid);
    assert MidOf(c[i]) == reuseMid;
    forall j | 0 <= j < |c| && j != i
      ensures MidOf(c[j]) != MidOf(s) && MidOf(c[j]) != reuseMid
    {
    }
  }

  lemma CloseCached(st: State, index: map<string, nat>, first: string, sdp: Object, fingerprint: Fingerprint,
      mid: string)
    requires Cached(st, index, first, sdp, fingerprint) && !Fresh(st.sections, mid)
    ensures var d := Shut(st.sections, mid);
      && mid in index && index[mid] == SlotOf(st.sections, mid) < |st.sections| && (index[mid] == 0 <==> mid == first)
      && HasArr(sdp, Groups) && |sdp[Groups].items| == 1 && GoodSections(d)
      && Media in sdp && sdp[Media] == Arr(Objects(st.sections)) && (Icelite in sdp <==> st.lite)
      && (var i := index[mid]; var before := st.sections[i];
          d == st.sections[i := before.(obj := if mid == first then Disabled(before.obj) else Closed(before.obj))])
      && Cached(st.(sections := d), index, first, Refreshed(sdp, d), fingerprint)
  {
    hide Bundle, SessionObject, Refreshed, GoodObject, ClosedObject, MidOf, Closed, Disabled, DistinctMids, Objects,
      IsIndex;
    var c, d := st.sections, Shut(st.sections, mid);
    SessionMembers(st, fingerprint);
    ShutSlots(c, mid);
    StepKeepsInv(st, Close(mid));
    SessionRefreshed(st, d, fingerprint);
    ClosedIndex(st, index, first, mid);
  }

  lemma ClosedIndex(st: State, index: map<string, nat>, first: string, mid: string)
    requires GoodSections(st.sections) && IsIndex(index, st.sections) && first == FirstMid(st.sections)
      && !Fresh(st.sections, mid)
    ensures var d := Shut(st.sections, mid);
      && mid in index && index[mid] == SlotOf(st.sections, mid) && (index[mid] == 0 <==> mid == first)
      && GoodSections(d) && IsIndex(index, d) && first == FirstMid(d)
  {
    hide GoodObject, MidOf, Closed, Disabled, ClosedObject;
    var c, d := st.sections, Shut(st.sections, mid);
    ShutSlots(c, mid);
    assert MidOf(c[SlotOf(c, mid)]) == mid;
    SameMidsIndex(c, d, index);
  }

  lemma SameMidsIndex(a: seq<Section>, b: seq<Section>, index: map<string, nat>)
    requires |a| == |b| && GoodSections(a) && GoodSections(b) && forall i :: 0 <= i < |a| ==> MidOf(a[i]) == MidOf(b[i])
    requires IsIndex(index, a)
    ensures IsIndex(index, b) && FirstMid(b) == FirstMid(a)
  {
    hide MidOf, GoodObject;
  }

  lemma {:induction false} BundleSame(a: seq<Section>, b: seq<Section>)
    requires SameSlots(a, b)
    ensures Bundle(a) == Bundle(b)
  {
    hide MidOf, Open, GoodObject;
    if a != [] {
      BundleSame(a[..|a| - 1], b[..|b| - 1]);
    }
  }

  /** An update leaves the index and the BUNDLE list alone. */
  lemma UpdateCached(st: State, index: map<string, nat>, first: string, sdp: Object, fingerprint: Fingerprint,
      after: seq<Section>, lite: bool, role: string, ice: IceParameters)
    requires Cached(st, index, first, sdp, fingerprint)
    requires after == RolesSet(st.sections, role) || after == IceSet(st.sections, ice)
    ensures Media in sdp && sdp[Media] == Arr(Objects(st.sections)) && (Icelite in sdp <==> st.lite)
    ensures Cached(State(after, st.version, st.lite || lite), index, first,
              (if lite then sdp[Icelite := Str("ice-lite")] else sdp)[Media := Arr(Objects(after))], fingerprint)
  {
    hide Bundle, Objects, SessionObject, MidOf, Open, GoodObject, RolesSet, IceSet;
    SessionMembers(st, fingerprint);
    UpdatesKeepSlots(st.sections, role, ice);
    SameMidsIndex(st.sections, after, index);
    SessionUpdated(st, after, lite, fingerprint);
    if after == RolesSet(st.sections, role) {
      StepKeepsInv(st, SetRole(role, lite));
    } else {
      StepKeepsInv(st, SetIce(ice));
    }
  }

  lemma SessionUpdated(st: State, after: seq<Section>, lite: bool, fingerprint: Fingerprint)
    requires SameSlots(st.sections, after)
    ensures var o := SessionObject(st, fingerprint);
      SessionObject(State(after, st.version, st.lite || lite), fingerprint)
        == (if lite then o[Icelite := Str("ice-lite")] else o)[Media := Arr(Objects(after))]
  {
    hide Bundle, Objects, MidOf, Open, GoodObject;
    BundleSame(st.sections, after);
  }

  lemma PrintCached(st: State, index: map<string, nat>, first: string, sdp: Object, fingerprint: Fingerprint)
    requires Cached(st, index, first, sdp, fingerprint)
    ensures Origin in sdp && sdp[Origin] == Obj(OriginObject(st.version)) && (Icelite in sdp <==> st.lite)
    ensures var next := Step(st, Print);
      && sdp[Origin := Obj(OriginObject(st.version)[SessionVersion := Num(next.version)])]
        == SessionObject(next, fingerprint)
      && FillDefaults(SessionObject(next, fingerprint)) == SessionObject(next, fingerprint)
      && Cached(next, index, first, SessionObject(next, fingerprint), fingerprint)
  {
    hide Bundle, MidOf, AllWithPayloads, Objects, SessionObject, IsIndex, FillDefaults;
    SessionMembers(st, fingerprint);
    SessionPrinted(st, fingerprint);
    SessionFilled(Step(st, Print), fingerprint);
    StepKeepsInv(st, Print);
  }

  lemma SessionPrinted(st: State, fingerprint: Fingerprint)
    requires GoodSections(st.sections)
    ensures var next := Step(st, Print);
      SessionObject(st, fingerprint)[Origin := Obj(OriginObject(st.version)[SessionVersion := Num(next.version)])]
        == SessionObject(next, fingerprint)
  {
    hide Bundle, Objects;
    assert OriginObject(st.version)[SessionVersion := Num(U32(st.version + 1))] == OriginObject(U32(st.version + 1));
  }

  lemma SessionFilled(st: State, fingerprint: Fingerprint)
    requires GoodSections(st.sections)
    ensures FillDefaults(SessionObject(st, fingerprint)) == SessionObject(st, fingerprint)
  {
    hide Bundle, AllWithPayloads, Objects;
    PayloadsFilled(st.sections);
  }

  lemma PayloadsFilled(c: seq<Section>)
    requires GoodSections(c)
    ensures AllWithPayloads(Objects(c)) == Objects(c)
  {
    forall i | 0 <= i < |c|
      ensures WithPayloads(Objects(c)[i]) == Objects(c)[i]
    {
      assert GoodObject(c[i].obj);
    }
  }
}
