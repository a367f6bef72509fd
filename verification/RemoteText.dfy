/** The text of the remote description: whatever was sent, received, closed and updated, it is
    read back and printed again unchanged. */
module RemoteText {
  import opened Text
  import opened Json
  import opened Regex
  import opened Grammar
  import opened SdpText
  import opened SdpTokens
  import opened SdpRoundTrip
  import opened SdpStability
  import opened SdpTheorem
  import opened SsrcUtils
  import opened MediaObjects
  import opened MediaSections
  import opened MediaTokens
  import opened RemoteStates

  predicate AllWellFormed(c: seq<Section>) {
    forall i :: 0 <= i < |c| ==> WellFormed(c[i].obj)
  }

  /** Sections of well-formed tokens, and ICE parameters without blanks. */
  predicate CleanEvent(e: Event) {
    match e
    case Install(s) => WellFormed(s.obj)
    case Append(s) => WellFormed(s.obj)
    case SetIce(ice) => IceClean(ice)
    case _ => true
  }

  lemma StepWellFormed(st: State, e: Event)
    requires GoodSections(st.sections) && AllWellFormed(st.sections) && CleanEvent(e)
    ensures AllWellFormed(Step(st, e).sections)
  {
    hide WellFormed, Closed, Disabled, WithIce, RoleSet, GoodObject;
    var c := st.sections;
    match e {
      case Close(mid) =>
        if SlotOf(c, mid) < |c| {
          ClosedWellFormed(c[SlotOf(c, mid)].obj);
        }
      case SetRole(role, lite) =>
        forall i | 0 <= i < |c|
          ensures WellFormed(RolesSet(c, role)[i].obj)
        {
          RoleWellFormed(c[i].obj, c[i].isOffer, role);
        }
      case SetIce(ice) =>
        forall i | 0 <= i < |c|
          ensures WellFormed(IceSet(c, ice)[i].obj)
        {
          IceWellFormed(c[i].obj, ice);
        }
      case _ =>
    }
  }

  lemma {:induction false} RunWellFormed(st: State, es: seq<Event>)
    requires Inv(st) && AllowedRun(st, es) && AllWellFormed(st.sections)
    requires forall i :: 0 <= i < |es| ==> CleanEvent(es[i])
    ensures AllWellFormed(RunFrom(st, es).sections)
  {
    hide AllWellFormed, CleanEvent, Step;
    if es != [] {
      RunWellFormed(st, es[..|es| - 1]);
      StepWellFormed(RunFrom(st, es[..|es| - 1]), es[|es| - 1]);
    }
  }

  predicate FingerprintClean(f: Fingerprint) {
    TokenOf(f.algorithm, NonSpace) && TokenOf(f.value, NonSpace)
  }

  lemma SessionRules()
    ensures RuleFor(Version) == RVersion && RuleFor(Origin) == ROrigin && RuleFor(Name) == RName
      && RuleFor(Timing) == RTiming
    ensures RuleFor(Media) == RMedia
  {
  }

  lemma SessionAttributes()
    ensures RuleFor(MsidSemantic) == RMsidSemantic && RuleFor(Key.Fingerprint) == RFingerprint
      && RuleFor(Groups) == RGroups
    ensures RuleFor(Icelite) == RIcelite
  {
  }

  lemma {:induction false} BundleClean(c: seq<Section>)
    requires GoodSections(c) && AllWellFormed(c)
    ensures AllIn(Bundle(c), Any)
  {
    hide ClosedObject;
    if c != [] {
      var n := |c| - 1;
      BundleClean(c[..n]);
      assert WellFormed(c[n].obj);
      MidClean(c[n].obj);
    }
  }

  lemma MidClean(o: Object)
    requires WellFormed(o) && HasStr(o, Mid)
    ensures AllIn(o[Mid].s, Any)
  {
    hide RuleFor;
    HeadRules();
    assert MemberOk(Mid, o[Mid]);
  }

  lemma SessionMembersOk(st: State, f: Fingerprint)
    requires GoodSections(st.sections) && AllWellFormed(st.sections) && st.version < TWO_32 && FingerprintClean(f)
    ensures MembersOk(SessionObject(st, f))
  {
    hide RuleFor, MembersOk, MemberOk, Bundle, Objects, WellFormed, AllIn, OriginObject, BundleGroup, FingerprintClean;
    BundleClean(st.sections);
    PlainMembersOk(st, f);
    IceliteOk();
    Update(SessionObject(st.(lite := false), f), Icelite, Str("ice-lite"));
  }

  lemma IceliteOk()
    ensures MemberOk(Icelite, Str("ice-lite"))
  {
    hide RuleFor;
    SessionAttributes();
    Scalar(Icelite, Str("ice-lite"));
  }

  lemma PlainMembersOk(st: State, f: Fingerprint)
    requires GoodSections(st.sections) && st.version < TWO_32 && FingerprintClean(f) && AllIn(Bundle(st.sections), Any)
    ensures MembersOk(SessionObject(st.(lite := false), f))
  {
    hide MemberOk, MembersOk, Bundle, Objects, AllIn, FingerprintClean, GoodObject;
    SessionValues(st.version, f, Bundle(st.sections));
    EachOk(SessionObject(st.(lite := false), f));
  }

  lemma EachOk(o: Object)
    requires forall k :: k in o ==> MemberOk(k, o[k])
    ensures MembersOk(o)
  {
  }

  lemma SessionValues(version: nat, f: Fingerprint, bundle: string)
    requires version < TWO_32 && FingerprintClean(f) && AllIn(bundle, Any)
    ensures MemberOk(Version, Num(0)) && MemberOk(Origin, Obj(OriginObject(version))) && MemberOk(Name, Str("-"))
    ensures MemberOk(Timing, Obj(map[Start := Num(0), Stop := Num(0)]))
    ensures MemberOk(MsidSemantic, Obj(map[Semantic := Str("WMS"), Token := Str("*")]))
    ensures MemberOk(Key.Fingerprint, Obj(map[Type := Str(f.algorithm), Hash := Str(f.value)]))
    ensures MemberOk(Groups, Arr([BundleGroup(bundle)]))
    ensures forall items :: MemberOk(Media, Arr(items))
  {
    hide RuleFor, MemberOk, ElementOk, ScalarOk, AllIn, FingerprintClean;
    SessionRules();
    SessionAttributes();
    SessionElements(version, f, bundle);
    Scalar(Version, Num(0));
    Scalar(Name, Str("-"));
    Fields(Origin, OriginObject(version));
    Fields(Timing, map[Start := Num(0), Stop := Num(0)]);
    Fields(MsidSemantic, map[Semantic := Str("WMS"), Token := Str("*")]);
    Fields(Key.Fingerprint, map[Type := Str(f.algorithm), Hash := Str(f.value)]);
    Items(Groups, [BundleGroup(bundle)]);
    MediaFree();
  }

  lemma MediaFree()
    ensures forall items :: MemberOk(Media, Arr(items))
  {
    hide RuleFor;
    SessionRules();
  }

  lemma SessionElements(version: nat, f: Fingerprint, bundle: string)
    requires version < TWO_32 && FingerprintClean(f) && AllIn(bundle, Any)
    ensures ScalarOk(RVersion, Num(0)) && ScalarOk(RName, Str("-"))
    ensures ElementOk(ROrigin, OriginObject(version)) && ElementOk(RTiming, map[Start := Num(0), Stop := Num(0)])
    ensures ElementOk(RMsidSemantic, map[Semantic := Str("WMS"), Token := Str("*")])
    ensures ElementOk(RFingerprint, map[Type := Str(f.algorithm), Hash := Str(f.value)])
    ensures ElementOk(RGroups, BundleGroup(bundle))
  {
    hide ElementOk;
    OriginElement(version);
    TimingElement();
    GroupElements(f, bundle);
  }

  lemma OriginElement(version: nat)
    requires version < TWO_32
    ensures ElementOk(ROrigin, OriginObject(version))
  {
    assert AllIn("libmediasoupclient", NonSpace) && AllIn("IN", NonSpace) && AllIn("0.0.0.0", NonSpace);
  }

  lemma TimingElement()
    ensures ElementOk(RTiming, map[Start := Num(0), Stop := Num(0)])
    ensures ElementOk(RMsidSemantic, map[Semantic := Str("WMS"), Token := Str("*")])
  {
  }

  lemma GroupElements(f: Fingerprint, bundle: string)
    requires FingerprintClean(f) && AllIn(bundle, Any)
    ensures ElementOk(RFingerprint, map[Type := Str(f.algorithm), Hash := Str(f.value)])
    ensures ElementOk(RGroups, BundleGroup(bundle))
  {
  }

  /** Every description made of well-formed sections meets the condition of the theorem. */
  lemma SessionIsOk(st: State, f: Fingerprint)
    requires GoodSections(st.sections) && AllWellFormed(st.sections) && st.version < TWO_32 && FingerprintClean(f)
    ensures SessionOk(SessionObject(st, f))
  {
    hide MemberOk, RuleOk, WellFormed, SectionOk, Bundle, MembersOk, GoodObject, OuterRules;
    var o := SessionObject(st, f);
    SessionMembersOk(st, f);
    assert NoStray(o) by {
      assert Ttl !in o && Dir2 !in o && List2 !in o;
    }
    forall r | r in OuterRules()
      ensures RuleOk(r, o)
    {
      OrdersArePrintable();
      var i :| 0 <= i < |OuterRules()| && OuterRules()[i] == r;
      MembersAreRules(o, r);
    }
    forall i | 0 <= i < |st.sections|
      ensures SectionOk(Objects(st.sections)[i])
    {
      WellFormedSection(st.sections[i].obj);
    }
  }

  lemma {:induction false} VersionFits(st: State, es: seq<Event>)
    requires Inv(st) && AllowedRun(st, es) && st.version < TWO_32
    ensures RunFrom(st, es).version < TWO_32
  {
    hide Allowed, Installed, Shut, RolesSet, IceSet;
    if es != [] {
      VersionFits(st, es[..|es| - 1]);
    }
  }

  /** Printing is stable through parsing after every run. */
  lemma DescriptionStable(lite: bool, es: seq<Event>, f: Fingerprint)
    requires AllowedRun(Initial(lite), es) && FingerprintClean(f)
    requires forall i :: 0 <= i < |es| ==> CleanEvent(es[i])
    ensures var text := WriteText(SessionObject(RunFrom(Initial(lite), es), f)); WriteText(ParseText(text)) == text
  {
    hide RunFrom, AllowedRun, CleanEvent, WellFormed, WriteText, ParseText, SessionOk, SessionObject;
    RunWellFormed(Initial(lite), es);
    VersionFits(Initial(lite), es);
    SessionIsOk(RunFrom(Initial(lite), es), f);
    WriteParseWrite(SessionObject(RunFrom(Initial(lite), es), f));
  }
}
