/** The remote description as a list of m-sections: what every operation makes of the list, and
    what holds over whole runs of operations. */
module RemoteStates {
  import opened Text
  import opened Json
  import opened SdpText
  import opened SsrcUtils
  import opened MediaObjects
  import opened MediaSections

  datatype Section = Section(isOffer: bool, obj: Object)

  /** A mid that survives the space-separated BUNDLE list. */
  predicate GoodMid(mid: string) {
    mid != "" && ' ' !in mid
  }

  predicate GoodObject(o: Object) {
    HasStr(o, Mid) && GoodMid(o[Mid].s) && Port in o && Payloads in o
  }

  predicate GoodSections(c: seq<Section>) {
    forall i :: 0 <= i < |c| ==> GoodObject(c[i].obj)
  }

  function MidOf(s: Section): string
    requires GoodObject(s.obj)
  {
    s.obj[Mid].s
  }

  predicate Open(s: Section) {
    !ClosedObject(s.obj)
  }

  predicate DistinctMids(c: seq<Section>)
    requires GoodSections(c)
  {
    forall i, j :: 0 <= i < j < |c| ==> MidOf(c[i]) != MidOf(c[j])
  }

  /** The version is the one of the latest printed description; `lite` is sticky. */
  datatype State = State(sections: seq<Section>, version: nat, lite: bool)

  /** What every operation keeps: usable, distinct mids, and a first section that is open. */
  predicate Inv(st: State) {
    && GoodSections(st.sections) && DistinctMids(st.sections)
    && (st.sections != [] ==> Open(st.sections[0]))
  }

  function Initial(lite: bool): State {
    State([], 0, lite)
  }

  // ----- the printed session -----

  function Objects(c: seq<Section>): (r: seq<Object>)
    ensures |r| == |c|
  {
    seq(|c|, i requires 0 <= i < |c| => c[i].obj)
  }

  /** RegenerateBundleMids: the first open mid, then a space and a mid for every other. */
  function Bundle(c: seq<Section>): string
    requires GoodSections(c)
  {
    if c == [] then ""
    else
      var before, s := Bundle(c[..|c| - 1]), c[|c| - 1];
      if !Open(s) then before else if before == "" then MidOf(s) else before + (" " + MidOf(s))
  }

  function OpenMids(c: seq<Section>): seq<string>
    requires GoodSections(c)
  {
    if c == [] then []
    else
      var s := c[|c| - 1];
      OpenMids(c[..|c| - 1]) + (if Open(s) then [MidOf(s)] else [])
  }

  function OriginObject(version: nat): Object {
    map[Address := Str("0.0.0.0"), IpVer := Num(4), NetType := Str("IN"), SessionId := Num(10000),
      SessionVersion := Num(version), Username := Str("libmediasoupclient")]
  }

  function BundleGroup(mids: string): Object {
    map[Type := Str("BUNDLE"), Mids := Str(mids)]
  }

  /** The whole session object as a function of the list. */
  function SessionObject(st: State, fingerprint: Fingerprint): Object
    requires GoodSections(st.sections)
  {
    var o: Object := map[Version := Num(0), Origin := Obj(OriginObject(st.version)), Name := Str("-"),
      Timing := Obj(map[Start := Num(0), Stop := Num(0)]), Media := Arr(Objects(st.sections)),
      MsidSemantic := Obj(map[Semantic := Str("WMS"), Token := Str("*")]),
      Key.Fingerprint := Obj(map[Type := Str(fingerprint.algorithm), Hash := Str(fingerprint.value)]),
      Groups := Arr([BundleGroup(Bundle(st.sections))])];
    if st.lite then o[Icelite := Str("ice-lite")] else o
  }

  /** The BUNDLE text, split on spaces, gives exactly the open mids in order. */
  lemma {:induction false} BundleIsJoin(c: seq<Section>)
    requires GoodSections(c)
    ensures Bundle(c) == Join(OpenMids(c), ' ')
    ensures forall i :: 0 <= i < |OpenMids(c)| ==> GoodMid(OpenMids(c)[i])
  {
    if c != [] {
      var n := |c| - 1;
      BundleIsJoin(c[..n]);
      JoinSnoc(OpenMids(c[..n]), MidOf(c[n]), ' ');
      assert OpenMids(c[..n]) + [] == OpenMids(c[..n]);
    }
  }

  lemma BundleSplits(c: seq<Section>)
    requires GoodSections(c)
    ensures Split(Bundle(c), ' ') == OpenMids(c)
  {
    BundleIsJoin(c);
    SplitJoin(OpenMids(c), ' ');
  }

  /** The first section leads the BUNDLE list. */
  lemma {:induction false} BundleStarts(c: seq<Section>)
    requires GoodSections(c) && c != [] && Open(c[0])
    ensures OpenMids(c) != [] && OpenMids(c)[0] == MidOf(c[0])
  {
    if |c| > 1 {
      BundleStarts(c[..|c| - 1]);
    } else {
      assert OpenMids(c[..0]) == [];
    }
  }

  // ----- slots -----

  /** Index of the first closed section, or the length. */
  function LeastClosed(c: seq<Section>): (i: nat)
    ensures i <= |c|
    ensures i < |c| ==> !Open(c[i])
    ensures forall j :: 0 <= j < i ==> Open(c[j])
  {
    if c == [] || !Open(c[0]) then 0 else 1 + LeastClosed(c[1..])
  }

  function SlotOf(c: seq<Section>, mid: string): (i: nat)
    requires GoodSections(c)
    ensures i <= |c|
    ensures i < |c| ==> MidOf(c[i]) == mid
    ensures forall j :: 0 <= j < i ==> MidOf(c[j]) != mid
  {
    if c == [] || MidOf(c[0]) == mid then 0 else 1 + SlotOf(c[1..], mid)
  }

  /** The mid GetNextMediaSectionIdx reports: that of the slot to be reused, or none. */
  function NextMid(c: seq<Section>): string
    requires GoodSections(c)
  {
    if LeastClosed(c) < |c| then MidOf(c[LeastClosed(c)]) else ""
  }

  function Installed(c: seq<Section>, s: Section): seq<Section> {
    if LeastClosed(c) < |c| then c[LeastClosed(c) := s] else c + [s]
  }

  /** A section put where `reuseMid` says. */
  function Placed(c: seq<Section>, s: Section, reuseMid: string): seq<Section>
    requires GoodSections(c)
  {
    if reuseMid == "" then c + [s]
    else if SlotOf(c, reuseMid) < |c| then c[SlotOf(c, reuseMid) := s]
    else c
  }

  /** With the mid of the least closed slot the section lands in that slot. */
  lemma PlacedIsInstalled(c: seq<Section>, s: Section)
    requires GoodSections(c) && DistinctMids(c)
    ensures Placed(c, s, NextMid(c)) == Installed(c, s)
  {
    var i := LeastClosed(c);
    if i < |c| {
      SlotIs(c, i);
    }
  }

  lemma SlotIs(c: seq<Section>, i: nat)
    requires GoodSections(c) && DistinctMids(c) && i < |c|
    ensures SlotOf(c, MidOf(c[i])) == i
  {
  }

  // ----- operations on the list -----

  function Shut(c: seq<Section>, mid: string): seq<Section>
    requires GoodSections(c)
  {
    var i := SlotOf(c, mid);
    if i == |c| then c
    else c[i := c[i].(obj := if i == 0 then Disabled(c[i].obj) else Closed(c[i].obj))]
  }

  function RolesSet(c: seq<Section>, role: string): (r: seq<Section>)
    ensures |r| == |c|
  {
    seq(|c|, i requires 0 <= i < |c| => c[i].(obj := RoleSet(c[i].isOffer, c[i].obj, role)))
  }

  function IceSet(c: seq<Section>, ice: IceParameters): (r: seq<Section>)
    ensures |r| == |c|
  {
    seq(|c|, i requires 0 <= i < |c| => c[i].(obj := WithIce(c[i].obj, ice)))
  }

  /** What a role update does to each section, ... */
  lemma RolesAre(c: seq<Section>, role: string, i: nat, k: Key)
    requires i < |c| && role in {"client", "server", "auto"}
    ensures var s := RolesSet(c, role)[i];
      && s.isOffer == c[i].isOffer && Setup in s.obj
      && s.obj[Setup] == Str(if s.isOffer || role == "auto" then "actpass"
                             else if role == "client" then "active" else "passive")
      && (k != Setup ==> (k in s.obj <==> k in c[i].obj) && (k in c[i].obj ==> s.obj[k] == c[i].obj[k]))
  {
    hide RoleSet;
    RoleIs(c[i].isOffer, c[i].obj, role, k);
  }

  /** ... what an ICE restart does, ... */
  lemma IceAre(c: seq<Section>, ice: IceParameters, i: nat, k: Key)
    requires i < |c|
    ensures var s := IceSet(c, ice)[i];
      && s.isOffer == c[i].isOffer
      && IceUfrag in s.obj && s.obj[IceUfrag] == Str(ice.usernameFragment)
      && IcePwd in s.obj && s.obj[IcePwd] == Str(ice.password)
      && (k !in {IceUfrag, IcePwd} ==> (k in s.obj <==> k in c[i].obj) && (k in c[i].obj ==> s.obj[k] == c[i].obj[k]))
  {
    hide WithIce;
    IceIs(c[i].obj, ice, k);
  }

  /** ... and what closing a mid does: the first section keeps its port, another one gets port 0; both are inactive
      and lose what streams they had; no other section changes. */
  lemma ShutIs(c: seq<Section>, mid: string, i: nat)
    requires GoodSections(c) && i < |c| && SlotOf(c, mid) < |c|
    ensures var s := Shut(c, mid)[i];
      if i != SlotOf(c, mid) then s == c[i]
      else
        && s.isOffer == c[i].isOffer && Direction in s.obj && s.obj[Direction] == Str("inactive")
        && Ext !in s.obj && Ssrcs !in s.obj && SsrcGroups !in s.obj && Simulcast !in s.obj && Rids !in s.obj
        && Port in s.obj && s.obj[Port] == (if i == 0 then c[i].obj[Port] else Num(0))
        && (i != 0 ==> ExtmapAllowMixed !in s.obj)
  {
    hide Closed, Disabled;
    ClosedIs(c[i].obj, Port);
    DisabledIs(c[i].obj, Port);
  }

  /** Install stands for Send with the mid GetNextMediaSectionIdx gave, and for Receive; Append
      for the SCTP association. */
  datatype Event =
    | Install(section: Section)
    | Append(section: Section)
    | Close(mid: string)
    | SetRole(role: string, lite: bool)
    | SetIce(ice: IceParameters)
    | Print

  function Step(st: State, e: Event): State
    requires GoodSections(st.sections)
  {
    match e
    case Install(s) => st.(sections := Installed(st.sections, s))
    case Append(s) => st.(sections := st.sections + [s])
    case Close(mid) => st.(sections := Shut(st.sections, mid))
    case SetRole(role, lite) => st.(sections := RolesSet(st.sections, role), lite := st.lite || lite)
    case SetIce(ice) => st.(sections := IceSet(st.sections, ice), lite := st.lite || ice.iceLite)
    case Print => st.(version := U32(st.version + 1))
  }

  predicate Fresh(c: seq<Section>, mid: string)
    requires GoodSections(c)
  {
    SlotOf(c, mid) == |c|
  }

  /** New sections are open and have a mid that is not in use, except by the slot they reuse. */
  predicate Allowed(st: State, e: Event)
    requires GoodSections(st.sections)
  {
    match e
    case Install(s) =>
      GoodObject(s.obj) && Open(s) && (Fresh(st.sections, MidOf(s)) || MidOf(s) == NextMid(st.sections))
    case Append(s) => GoodObject(s.obj) && Open(s) && Fresh(st.sections, MidOf(s))
    case Close(mid) => !Fresh(st.sections, mid)
    case _ => true
  }

  lemma ChangedMid(o: Object, isOffer: bool, role: string, ice: IceParameters)
    requires GoodObject(o)
    ensures GoodObject(RoleSet(isOffer, o, role)) && GoodObject(WithIce(o, ice)) && GoodObject(Closed(o))
      && GoodObject(Disabled(o))
    ensures RoleSet(isOffer, o, role)[Mid] == WithIce(o, ice)[Mid] == Closed(o)[Mid] == Disabled(o)[Mid] == o[Mid]
    ensures ClosedObject(RoleSet(isOffer, o, role)) == ClosedObject(WithIce(o, ice)) == ClosedObject(Disabled(o))
      == ClosedObject(o)
    ensures ClosedObject(Closed(o))
  {
  }

  /** A role or ICE update changes neither mids nor which sections are open. */
  predicate SameSlots(a: seq<Section>, b: seq<Section>) {
    && |a| == |b| && GoodSections(a) && GoodSections(b)
    && forall i :: 0 <= i < |a| ==> MidOf(a[i]) == MidOf(b[i]) && Open(a[i]) == Open(b[i])
  }

  lemma UpdatesKeepSlots(c: seq<Section>, role: string, ice: IceParameters)
    requires GoodSections(c)
    ensures SameSlots(c, RolesSet(c, role)) && SameSlots(c, IceSet(c, ice))
  {
    hide GoodObject, RoleSet, WithIce, ClosedObject;
    forall i | 0 <= i < |c|
      ensures GoodObject(RolesSet(c, role)[i].obj) && GoodObject(IceSet(c, ice)[i].obj)
      ensures MidOf(RolesSet(c, role)[i]) == MidOf(c[i]) == MidOf(IceSet(c, ice)[i])
      ensures Open(RolesSet(c, role)[i]) == Open(c[i]) == Open(IceSet(c, ice)[i])
    {
      assert GoodObject(c[i].obj);
      ChangedMid(c[i].obj, c[i].isOffer, role, ice);
      MidOfIs(c[i]);
      MidOfIs(RolesSet(c, role)[i]);
      MidOfIs(IceSet(c, ice)[i]);
    }
  }

  lemma MidOfIs(s: Section)
    requires GoodObject(s.obj)
    ensures Mid in s.obj && s.obj[Mid] == Str(MidOf(s)) && GoodMid(MidOf(s))
  {
  }

  lemma SameSlotsSame(a: seq<Section>, b: seq<Section>)
    requires SameSlots(a, b)
    ensures LeastClosed(a) == LeastClosed(b) && NextMid(a) == NextMid(b)
  {
    var i, j := LeastClosed(a), LeastClosed(b);
    if i < |a| {
      assert Open(b[i]) == Open(a[i]);
    }
    if j < |b| {
      assert Open(a[j]) == Open(b[j]);
    }
  }

  /** What closing leaves alone, and what it does: the slot is closed unless it is the first. */
  lemma ShutSlots(c: seq<Section>, mid: string)
    requires GoodSections(c)
    ensures var d := Shut(c, mid);
      && |d| == |c| && GoodSections(d)
      && (forall j :: 0 <= j < |c| ==> MidOf(d[j]) == MidOf(c[j]))
      && (forall j :: 0 <= j < |c| && j != SlotOf(c, mid) ==> d[j] == c[j])
      && (SlotOf(c, mid) < |c| ==> (Open(d[SlotOf(c, mid)]) <==> SlotOf(c, mid) == 0 && Open(c[0])))
  {
    hide Closed, Disabled, ClosedObject, GoodObject;
    var i := SlotOf(c, mid);
    if i < |c| {
      assert GoodObject(c[i].obj);
      ChangedMid(c[i].obj, true, "", IceParameters("", "", false));
      MidOfIs(c[i]);
      MidOfIs(Shut(c, mid)[i]);
    }
  }

  lemma InstallKeepsInv(st: State, s: Section)
    requires Inv(st) && Allowed(st, Install(s))
    ensures Inv(Step(st, Install(s)))
  {
    hide GoodObject, ClosedObject, MidOf;
    var c, i := st.sections, LeastClosed(st.sections);
    MidOfIs(s);
    forall j | 0 <= j < |c| && j != i
      ensures MidOf(c[j]) != MidOf(s)
    {
    }
  }

  /** Every operation keeps the invariant. */
  lemma StepKeepsInv(st: State, e: Event)
    requires Inv(st) && Allowed(st, e)
    ensures Inv(Step(st, e))
  {
    hide GoodObject, RoleSet, WithIce, Closed, Disabled, ClosedObject, MidOf;
    var c := st.sections;
    match e {
      case Install(s) => InstallKeepsInv(st, s);
      case Append(s) =>
      case Close(mid) => ShutSlots(c, mid);
      case SetRole(role, lite) => UpdatesKeepSlots(c, role, IceParameters("", "", false));
      case SetIce(ice) => UpdatesKeepSlots(c, "", ice);
      case Print =>
    }
  }

  function OpenCount(c: seq<Section>): (n: nat)
    ensures n <= |c|
  {
    if c == [] then 0 else OpenCount(c[..|c| - 1]) + (if Open(c[|c| - 1]) then 1 else 0)
  }

  // ----- mids that are taken -----

  /** Where a new section goes. */
  function NewSlotOf(c: seq<Section>, e: Event): nat
    requires e.Install? || e.Append?
  {
    if e.Install? then LeastClosed(c) else |c|
  }

  /** A new open section keeps the invariant exactly if its mid is not in use elsewhere. */
  lemma AllowedExactly(st: State, e: Event)
    requires Inv(st) && (e.Install? || e.Append?) && GoodObject(e.section.obj) && Open(e.section)
    ensures Inv(Step(st, e)) <==> Allowed(st, e)
  {
    hide GoodObject, ClosedObject, MidOf;
    if Allowed(st, e) {
      StepKeepsInv(st, e);
    } else {
      TakenMid(st, e);
    }
  }

  /** Otherwise there are two sections with that mid, the old one untouched. */
  lemma TakenMid(st: State, e: Event)
    requires Inv(st) && (e.Install? || e.Append?) && GoodObject(e.section.obj) && Open(e.section) && !Allowed(st, e)
    ensures var c, d, i, j := st.sections, Step(st, e).sections, SlotOf(st.sections, MidOf(e.section)),
      NewSlotOf(st.sections, e);
      && i < |c| && i < |d| && j < |d| && i != j && GoodSections(d) && !DistinctMids(d)
      && d[i] == c[i] && d[j] == e.section && MidOf(d[i]) == MidOf(d[j])
  {
    hide GoodObject, ClosedObject;
    var c, i, j := st.sections, SlotOf(st.sections, MidOf(e.section)), NewSlotOf(st.sections, e);
    if i == j {
      SlotIs(c, i);
    }
    var d := Step(st, e).sections;
    assert d[i] == c[i] && d[j] == e.section;
    assert i < j || j < i;
  }

  lemma {:induction false} OpenMidAt(c: seq<Section>, i: nat)
    requires GoodSections(c) && i < |c| && Open(c[i])
    ensures OpenCount(c[..i]) < |OpenMids(c)| == OpenCount(c) && OpenMids(c)[OpenCount(c[..i])] == MidOf(c[i])
  {
    hide GoodObject, ClosedObject, MidOf;
    var n := |c| - 1;
    OpenMidsCount(c);
    if i < n {
      OpenMidAt(c[..n], i);
      assert c[..n][..i] == c[..i];
    } else {
      OpenMidsCount(c[..n]);
    }
  }

  lemma {:induction false} OpenMidsCount(c: seq<Section>)
    requires GoodSections(c)
    ensures |OpenMids(c)| == OpenCount(c)
  {
    hide GoodObject, ClosedObject, MidOf;
    if c != [] {
      OpenMidsCount(c[..|c| - 1]);
    }
  }

  lemma {:induction false} OpenCountGrows(c: seq<Section>, i: nat, j: nat)
    requires i < j <= |c| && Open(c[i])
    ensures OpenCount(c[..i]) < OpenCount(c[..j])
  {
    hide ClosedObject;
    assert c[..j][..j - 1] == c[..j - 1];
    if i < j - 1 {
      OpenCountGrows(c, i, j - 1);
    }
  }

  /** Retrying with the mid of a section that is still open puts that mid into the BUNDLE list twice. */
  lemma RetryDoubles(st: State, e: Event)
    requires Inv(st) && (e.Install? || e.Append?) && GoodObject(e.section.obj) && Open(e.section)
    requires var i := SlotOf(st.sections, MidOf(e.section)); i < |st.sections| && Open(st.sections[i])
    ensures var d := Step(st, e).sections;
      && GoodSections(d) && !DistinctMids(d)
      && exists a: nat, b: nat :: a < b < |Split(Bundle(d), ' ')|
           && Split(Bundle(d), ' ')[a] == Split(Bundle(d), ' ')[b] == MidOf(e.section)
  {
    hide GoodObject, ClosedObject, MidOf, Bundle, Split, OpenMids, Step;
    RetryIsTaken(st, e);
    TakenMid(st, e);
    var d, i, j := Step(st, e).sections, SlotOf(st.sections, MidOf(e.section)), NewSlotOf(st.sections, e);
    OpenMidAt(d, i);
    OpenMidAt(d, j);
    BundleSplits(d);
    var x, y := if i < j then i else j, if i < j then j else i;
    OpenCountGrows(d, x, y);
    var a, b := OpenCount(d[..x]), OpenCount(d[..y]);
    assert OpenMids(d)[a] == OpenMids(d)[b] == MidOf(e.section);
  }

  lemma RetryIsTaken(st: State, e: Event)
    requires Inv(st) && (e.Install? || e.Append?) && GoodObject(e.section.obj) && Open(e.section)
    requires var i := SlotOf(st.sections, MidOf(e.section)); i < |st.sections| && Open(st.sections[i])
    ensures !Allowed(st, e)
  {
    hide ClosedObject, GoodObject;
    var c, i, j := st.sections, SlotOf(st.sections, MidOf(e.section)), LeastClosed(st.sections);
    if e.Install? && MidOf(e.section) == NextMid(c) && j < |c| {
      SlotIs(c, j);
    }
    MidOfIs(e.section);
  }

  // ----- runs -----

  predicate AllowedRun(st: State, es: seq<Event>)
    requires Inv(st)
    decreases |es|, 0
  {
    es == [] || (AllowedRun(st, es[..|es| - 1]) && Allowed(RunFrom(st, es[..|es| - 1]), es[|es| - 1]))
  }

  function RunFrom(st: State, es: seq<Event>): (r: State)
    requires Inv(st) && AllowedRun(st, es)
    ensures Inv(r)
    decreases |es|, 1
  {
    if es == [] then st
    else
      var before := RunFrom(st, es[..|es| - 1]);
      StepKeepsInv(before, es[|es| - 1]);
      Step(before, es[|es| - 1])
  }

  /** The open slot of a mid stays where it is: until the mid is closed, and for the first
      section for ever. */
  lemma StepKeepsSlot(st: State, e: Event, i: nat)
    requires Inv(st) && Allowed(st, e) && i < |st.sections| && Open(st.sections[i])
    requires i == 0 || e != Close(MidOf(st.sections[i]))
    ensures var c, d := st.sections, Step(st, e).sections;
      && |c| <= |d| && GoodSections(d) && MidOf(d[i]) == MidOf(c[i]) && Open(d[i])
  {
    hide GoodObject, RoleSet, WithIce, Closed, Disabled, ClosedObject, MidOf;
    StepKeepsInv(st, e);
    match e {
      case Install(s) =>
      case Append(s) =>
      case Close(mid) => ShutSlots(st.sections, mid);
      case SetRole(role, lite) => UpdatesKeepSlots(st.sections, role, IceParameters("", "", false));
      case SetIce(ice) => UpdatesKeepSlots(st.sections, "", ice);
      case Print =>
    }
  }

  lemma {:induction false} SlotStability(st: State, es: seq<Event>, i: nat)
    requires Inv(st) && AllowedRun(st, es) && i < |st.sections| && Open(st.sections[i])
    requires i == 0 || Close(MidOf(st.sections[i])) !in es
    ensures var c, d := st.sections, RunFrom(st, es).sections;
      && |c| <= |d| && MidOf(d[i]) == MidOf(c[i]) && Open(d[i])
  {
    hide Step, MidOf, Open;
    if es != [] {
      SlotStability(st, es[..|es| - 1], i);
      StepKeepsSlot(RunFrom(st, es[..|es| - 1]), es[|es| - 1], i);
    }
  }

  /** Once there is a section, the first one is never closed or replaced and leads the BUNDLE
      list, so the slot to use next is 0 only for an empty description. */
  lemma FirstSectionStays(st: State, es: seq<Event>)
    requires Inv(st) && AllowedRun(st, es)
    ensures var d := RunFrom(st, es).sections;
      && (LeastClosed(d) == 0 <==> d == [])
      && (st.sections != [] ==>
           d != [] && MidOf(d[0]) == MidOf(st.sections[0]) && Open(d[0])
           && Split(Bundle(d), ' ') != [] && Split(Bundle(d), ' ')[0] == MidOf(st.sections[0]))
  {
    hide RunFrom, AllowedRun, MidOf, GoodObject, Bundle, Split, OpenMids, ClosedObject;
    var d := RunFrom(st, es).sections;
    if st.sections != [] {
      SlotStability(st, es, 0);
      BundleSplits(d);
      BundleStarts(d);
    }
  }

  // ----- how many sections there are -----

  predicate AllOpen(c: seq<Section>) {
    forall j :: 0 <= j < |c| ==> Open(c[j])
  }

  lemma {:induction false} AllOpenCount(c: seq<Section>)
    ensures OpenCount(c) == |c| <==> AllOpen(c)
    ensures LeastClosed(c) == |c| <==> AllOpen(c)
  {
    hide ClosedObject, Open;
    if c != [] {
      var n := |c| - 1;
      AllOpenCount(c[..n]);
      assert AllOpen(c) <==> AllOpen(c[..n]) && Open(c[n]);
    }
  }

  /** The largest number of sections open at once so far. */
  function HighWater(st: State, es: seq<Event>): (n: nat)
    requires Inv(st) && AllowedRun(st, es)
  {
    var now := OpenCount(RunFrom(st, es).sections);
    if es == [] then now
    else
      var before := HighWater(st, es[..|es| - 1]);
      if before < now then now else before
  }

  /** SCTP sections added although there was a closed one to reuse. */
  function Wasted(st: State, es: seq<Event>): nat
    requires Inv(st) && AllowedRun(st, es)
  {
    if es == [] then 0
    else
      var c := RunFrom(st, es[..|es| - 1]).sections;
      Wasted(st, es[..|es| - 1]) + (if es[|es| - 1].Append? && LeastClosed(c) < |c| then 1 else 0)
  }

  lemma StepSize(st: State, e: Event)
    requires Inv(st) && Allowed(st, e)
    ensures var c, d := st.sections, Step(st, e).sections;
      && |c| <= |d| <= |c| + 1
      && (|d| == |c| + 1 ==> OpenCount(d) == OpenCount(c) + 1 && (LeastClosed(c) == |c| || e.Append?))
  {
    hide GoodObject, RoleSet, WithIce, Closed, Disabled, ClosedObject, MidOf;
    if e.Install? || e.Append? {
      assert (st.sections + [e.section])[..|st.sections|] == st.sections;
    }
  }

  /** The number of sections is the largest number ever open at once, up to SCTP sections that
      did not reuse a closed slot; and it never decreases. */
  lemma {:induction false} HighWaterMark(lite: bool, es: seq<Event>)
    requires AllowedRun(Initial(lite), es)
    ensures var n := |RunFrom(Initial(lite), es).sections|;
      && HighWater(Initial(lite), es) <= n <= HighWater(Initial(lite), es) + Wasted(Initial(lite), es)
      && (es != [] ==> |RunFrom(Initial(lite), es[..|es| - 1]).sections| <= n)
  {
    hide Step, Allowed, LeastClosed, OpenCount;
    if es != [] {
      var n := |es| - 1;
      var st := RunFrom(Initial(lite), es[..n]);
      HighWaterMark(lite, es[..n]);
      StepSize(st, es[n]);
      AllOpenCount(st.sections);
    }
  }

  /** Whether, since a SCTP section was last added beside a closed one, all sections have been
      open at once. */
  predicate Filled(st: State, es: seq<Event>)
    requires Inv(st) && AllowedRun(st, es)
  {
    es == [] || AllOpen(RunFrom(st, es).sections)
    || (Filled(st, es[..|es| - 1])
        && !(es[|es| - 1].Append?
          && LeastClosed(RunFrom(st, es[..|es| - 1]).sections) < |RunFrom(st, es[..|es| - 1]).sections|))
  }

  /** The number of sections is the largest number ever open at once exactly in such runs. */
  lemma {:induction false} HighWaterExact(lite: bool, es: seq<Event>)
    requires AllowedRun(Initial(lite), es)
    ensures |RunFrom(Initial(lite), es).sections| == HighWater(Initial(lite), es) <==> Filled(Initial(lite), es)
  {
    hide Step, Allowed, LeastClosed, OpenCount, AllOpen;
    HighWaterMark(lite, es);
    if es != [] {
      var n := |es| - 1;
      var st := RunFrom(Initial(lite), es[..n]);
      HighWaterMark(lite, es[..n]);
      HighWaterExact(lite, es[..n]);
      StepSize(st, es[n]);
      if es[n].Append? {
        AppendSize(st, es[n]);
      }
      AllOpenCount(st.sections);
      AllOpenCount(Step(st, es[n]).sections);
    }
  }

  lemma AppendSize(st: State, e: Event)
    requires Inv(st) && Allowed(st, e) && e.Append?
    ensures |Step(st, e).sections| == |st.sections| + 1 && OpenCount(Step(st, e).sections) == OpenCount(st.sections) + 1
  {
  }

  lemma RunSnoc(st: State, es: seq<Event>, e: Event)
    requires Inv(st) && AllowedRun(st, es) && Allowed(RunFrom(st, es), e)
    ensures AllowedRun(st, es + [e]) && RunFrom(st, es + [e]) == Step(RunFrom(st, es), e)
    ensures var before, now := HighWater(st, es), OpenCount(Step(RunFrom(st, es), e).sections);
      HighWater(st, es + [e]) == if before < now then now else before
  {
    hide Step, Allowed, OpenCount, Inv;
    assert (es + [e])[..|es|] == es;
  }

  lemma TwoInstalled(lite: bool, a: Section, b: Section)
    requires GoodObject(a.obj) && GoodObject(b.obj) && Open(a) && Open(b) && MidOf(a) != MidOf(b)
    ensures var es := [Install(a), Install(b)];
      && Inv(Initial(lite)) && AllowedRun(Initial(lite), es) && Inv(RunFrom(Initial(lite), es))
      && RunFrom(Initial(lite), es).sections == [a, b]
      && HighWater(Initial(lite), es) == 2 && SlotOf([a, b], MidOf(b)) == 1
  {
    hide GoodObject, ClosedObject, MidOf, AllowedRun, RunFrom, HighWater, OpenCount, LeastClosed, SlotOf, Open;
    var st, none: seq<Event> := Initial(lite), [];
    NothingYet(lite);
    RunSnoc(st, none, Install(a));
    assert none + [Install(a)] == [Install(a)] && Step(st, Install(a)).sections == [a];
    RunSnoc(st, [Install(a)], Install(b));
    assert [Install(a)] + [Install(b)] == [Install(a), Install(b)] && [a] + [b] == [a, b];
    Counts(a, b);
    SlotIs([a, b], 1);
  }

  /** Two sections, one of them closed, then a SCTP section: three sections, of which never more
      than two were open. */
  lemma SctpExceeds(lite: bool, a: Section, b: Section, s: Section)
    requires GoodObject(a.obj) && GoodObject(b.obj) && GoodObject(s.obj) && Open(a) && Open(b) && Open(s)
    requires MidOf(a) != MidOf(b) && MidOf(a) != MidOf(s) && MidOf(b) != MidOf(s)
    ensures var es := [Install(a), Install(b), Close(MidOf(b)), Append(s)];
      AllowedRun(Initial(lite), es) && |RunFrom(Initial(lite), es).sections| == 3 && HighWater(Initial(lite), es) == 2
  {
    hide GoodObject, ClosedObject, MidOf, AllowedRun, RunFrom, HighWater, Closed, Disabled, OpenCount, SlotOf,
      LeastClosed, Inv;
    var st, e2, e3 := Initial(lite), [Install(a), Install(b)], [Install(a), Install(b), Close(MidOf(b))];
    TwoInstalled(lite, a, b);
    RunSnoc(st, e2, Close(MidOf(b)));
    assert e2 + [Close(MidOf(b))] == e3;
    ShutSlots([a, b], MidOf(b));
    var c := RunFrom(st, e3).sections;
    assert c == [a, c[1]];
    RunSnoc(st, e3, Append(s));
    assert e3 + [Append(s)] == [Install(a), Install(b), Close(MidOf(b)), Append(s)] && c + [s] == [a, c[1], s];
    CountsClosed(a, c[1], s);
  }

  lemma NothingYet(lite: bool)
    ensures var none: seq<Event> := [];
      Inv(Initial(lite)) && AllowedRun(Initial(lite), none) && RunFrom(Initial(lite), none) == Initial(lite)
        && HighWater(Initial(lite), none) == 0
  {
  }

  lemma Counts(a: Section, b: Section)
    requires Open(a) && Open(b)
    ensures OpenCount([a]) == 1 && OpenCount([a, b]) == 2
  {
    hide ClosedObject;
    assert [a][..0] == [] && [a, b][..1] == [a];
  }

  lemma CountsClosed(a: Section, x: Section, s: Section)
    requires Open(a) && !Open(x) && Open(s)
    ensures OpenCount([a, x]) == 1 && OpenCount([a, x, s]) == 2
  {
    hide ClosedObject;
    assert [a][..0] == [] && [a, x][..1] == [a] && [a, x, s][..2] == [a, x];
  }

  /** Without SCTP sections the two are equal. */
  lemma {:induction false} NothingWasted(lite: bool, es: seq<Event>)
    requires AllowedRun(Initial(lite), es) && forall i :: 0 <= i < |es| ==> !es[i].Append?
    ensures Wasted(Initial(lite), es) == 0
    ensures |RunFrom(Initial(lite), es).sections| == HighWater(Initial(lite), es)
  {
    hide Step, Allowed, LeastClosed, OpenCount, RunFrom, HighWater;
    HighWaterMark(lite, es);
    if es != [] {
      NothingWasted(lite, es[..|es| - 1]);
    }
  }

  // ----- the session version -----

  function Prints(es: seq<Event>): nat {
    if es == [] then 0 else Prints(es[..|es| - 1]) + (if es[|es| - 1].Print? then 1 else 0)
  }

  /** The k-th description carries session version k, modulo 2^32. */
  lemma {:induction false} VersionCounts(lite: bool, es: seq<Event>)
    requires AllowedRun(Initial(lite), es)
    ensures RunFrom(Initial(lite), es).version == Prints(es) % TWO_32
  {
    hide Allowed, Step;
    if es != [] {
      var st := RunFrom(Initial(lite), es[..|es| - 1]);
      VersionCounts(lite, es[..|es| - 1]);
      StepVersion(st, es[|es| - 1]);
    }
  }

  lemma StepVersion(st: State, e: Event)
    requires GoodSections(st.sections)
    ensures Step(st, e).version == if e.Print? then (st.version + 1) % TWO_32 else st.version
  {
    hide Installed, Shut, RolesSet, IceSet;
  }

  // ----- slot prediction -----

  /** The slot predicted before a role update is the slot Send fills after it: exactly that
      section is new, every other one is what the update made it. */
  lemma SlotPrediction(st: State, role: string, lite: bool, s: Section)
    requires Inv(st) && Allowed(st, Install(s))
    ensures var updated := Step(st, SetRole(role, lite));
      && Inv(updated) && Allowed(updated, Install(s))
      && LeastClosed(updated.sections) == LeastClosed(st.sections)
      && var d := Placed(updated.sections, s, NextMid(st.sections));
      && LeastClosed(st.sections) < |d| && d[LeastClosed(st.sections)] == s
      && |d| == (if LeastClosed(st.sections) < |st.sections| then |st.sections| else |st.sections| + 1)
      && forall j :: 0 <= j < |d| && j != LeastClosed(st.sections) ==> d[j] == updated.sections[j]
  {
    hide GoodObject, RoleSet, ClosedObject, MidOf;
    var c := RolesSet(st.sections, role);
    UpdatesKeepSlots(st.sections, role, IceParameters("", "", false));
    SameSlotsSame(st.sections, c);
    StepKeepsInv(st, SetRole(role, lite));
    PlacedIsInstalled(c, s);
    SameFresh(st.sections, c, MidOf(s));
  }

  lemma SameFresh(a: seq<Section>, b: seq<Section>, mid: string)
    requires SameSlots(a, b)
    ensures Fresh(a, mid) == Fresh(b, mid)
  {
    hide MidOf, Open, GoodObject;
    var i, j := SlotOf(a, mid), SlotOf(b, mid);
    if i < |a| {
      assert MidOf(b[i]) == mid;
    }
    if j < |b| {
      assert MidOf(a[j]) == mid;
    }
  }
}
