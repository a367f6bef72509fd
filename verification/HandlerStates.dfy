/** What the handlers keep over whole runs, as values: DTLS roles, the setup attributes of the
    remote sections, and the ids of received media. */
module HandlerStates {
  import opened Text
  import opened Json
  import opened SdpText
  import opened SsrcUtils
  import opened MediaObjects
  import opened MediaSections
  import opened RemoteStates

  // ----- DTLS roles -----

  /** A declared remote role other than "auto" forces the local one. */
  function ForcedRole(declared: Option<string>): string {
    if declared.Some? && declared.value != "auto"
      then (if declared.value == "server" then "client" else "server") else ""
  }

  function LocalRole(forced: string, sender: bool): string {
    if forced != "" then forced else if sender then "server" else "client"
  }

  function Opposite(local: string): string {
    if local == "client" then "server" else "client"
  }

  /** `connects` counts the calls of OnConnect that returned. */
  datatype Dtls = Dtls(forced: string, ready: bool, remoteRole: Option<string>, connects: nat)

  /** SetupTransport, done only while the transport is not ready; the remote role is set before
      OnConnect, which may throw. */
  function Attempt(d: Dtls, sender: bool, connected: bool): Dtls {
    if d.ready then d
    else Dtls(d.forced, connected, Some(Opposite(LocalRole(d.forced, sender))),
      d.connects + (if connected then 1 else 0))
  }

  function Attempts(declared: Option<string>, sender: bool, outcomes: seq<bool>): Dtls {
    if outcomes == [] then Dtls(ForcedRole(declared), false, declared, 0)
    else Attempt(Attempts(declared, sender, outcomes[..|outcomes| - 1]), sender, outcomes[|outcomes| - 1])
  }

  /** What every attempt keeps. */
  predicate DtlsInv(d: Dtls, sender: bool) {
    && d.forced in {"", "client", "server"}
    && d.connects == (if d.ready then 1 else 0)
    && (d.ready ==> d.remoteRole == Some(Opposite(LocalRole(d.forced, sender))))
  }

  /** Over any number of attempts, failed ones included: OnConnect returns at most once, and
      exactly once if some attempt succeeds; the roles are then opposite; a declared client or
      server role is what the remote description ends with; and nothing changes any more. */
  lemma {:induction false} RolesOverRuns(declared: Option<string>, sender: bool, outcomes: seq<bool>)
    ensures var d := Attempts(declared, sender, outcomes);
      && DtlsInv(d, sender) && d.forced == ForcedRole(declared)
      && (d.ready <==> true in outcomes)
      && d.connects == (if true in outcomes then 1 else 0)
      && (d.ready ==>
           && d.remoteRole.Some? && {LocalRole(d.forced, sender), d.remoteRole.value} == {"client", "server"}
           && (declared == Some("client") || declared == Some("server") ==> d.remoteRole == declared))
      && forall more :: d.ready ==> Attempt(d, sender, more) == d
  {
    hide LocalRole, Opposite, ForcedRole;
    RolesOpposite(declared, sender);
    if outcomes != [] {
      RolesOverRuns(declared, sender, outcomes[..|outcomes| - 1]);
      assert outcomes == outcomes[..|outcomes| - 1] + [outcomes[|outcomes| - 1]];
    }
  }

  lemma RolesOpposite(declared: Option<string>, sender: bool)
    ensures var local := LocalRole(ForcedRole(declared), sender);
      && ForcedRole(declared) in {"", "client", "server"} && {local, Opposite(local)} == {"client", "server"}
      && (declared == Some("client") || declared == Some("server") ==> Some(Opposite(local)) == declared)
  {
  }

  // ----- setup attributes -----

  /** An offer says actpass. An answer says what the remote role leaves to this side: active for a client, passive
      for a server, and both if that is still open. */
  predicate SetupFits(s: Section, role: Option<string>) {
    && Setup in s.obj
    && if s.isOffer then s.obj[Setup] == Str("actpass")
       else
         match role
         case None => false
         case Some(r) =>
           && r in {"client", "server", "auto"}
           && (r == "client" ==> s.obj[Setup] == Str("active"))
           && (r == "server" ==> s.obj[Setup] == Str("passive"))
           && (r == "auto" ==> s.obj[Setup] == Str("actpass"))
  }

  predicate SetupsFit(c: seq<Section>, role: Option<string>) {
    forall i :: 0 <= i < |c| ==> SetupFits(c[i], role)
  }

  predicate KnownRole(role: string) {
    role in {"client", "server", "auto"}
  }

  /** A role update makes every section fit the new role. */
  lemma RoleMakesFit(c: seq<Section>, role: string)
    requires KnownRole(role)
    ensures SetupsFit(RolesSet(c, role), Some(role))
  {
  }

  /** Once some attempt has succeeded, the answers of a section list that fits say what the declared role
      comes to: "passive" for a declared server, else "active" on the sending side, where no declared role makes
      this side the server; on a receiving side without a declared role this side is the client. */
  lemma ReadySetups(declared: Option<string>, sender: bool, outcomes: seq<bool>, c: seq<Section>, i: nat)
    requires var d := Attempts(declared, sender, outcomes); d.ready && SetupsFit(c, d.remoteRole)
    requires i < |c| && !c[i].isOffer
    ensures var local := if declared == Some("server") then "client"
                         else if declared.Some? && declared.value != "auto" then "server"
                         else if sender then "server" else "client";
      && LocalRole(Attempts(declared, sender, outcomes).forced, sender) == local
      && Setup in c[i].obj && c[i].obj[Setup] == Str(if local == "server" then "active" else "passive")
  {
    RolesOverRuns(declared, sender, outcomes);
    assert SetupFits(c[i], Attempts(declared, sender, outcomes).remoteRole);
  }

  predicate SameSetup(o: Object, p: Object) {
    (Setup in p <==> Setup in o) && (Setup in o ==> p[Setup] == o[Setup])
  }

  lemma ChangeKeepsSetup(o: Object, ice: IceParameters)
    ensures SameSetup(o, Closed(o)) && SameSetup(o, Disabled(o)) && SameSetup(o, WithIce(o, ice))
  {
  }

  /** The other operations keep what fits. */
  lemma StepKeepsSetups(st: State, e: Event, role: Option<string>)
    requires GoodSections(st.sections) && SetupsFit(st.sections, role) && !e.SetRole?
    requires e.Install? || e.Append? ==> SetupFits(e.section, role)
    ensures SetupsFit(Step(st, e).sections, role)
  {
    hide Closed, Disabled, WithIce, SetupOf, GoodObject;
    var c := st.sections;
    match e {
      case Close(mid) =>
        var i := SlotOf(c, mid);
        if i < |c| {
          ChangeKeepsSetup(c[i].obj, IceParameters("", "", false));
          assert SetupFits(c[i], role);
        }
      case SetIce(ice) =>
        forall i | 0 <= i < |c|
          ensures SetupFits(IceSet(c, ice)[i], role)
        {
          ChangeKeepsSetup(c[i].obj, ice);
          assert SetupFits(c[i], role);
        }
      case _ =>
    }
  }

  /** All sections are of the kind the other side of the handler makes. */
  predicate AllOfKind(c: seq<Section>, isOffer: bool) {
    forall i :: 0 <= i < |c| ==> c[i].isOffer == isOffer
  }

  /** Offers stay as they are whatever the role. */
  lemma OffersKeep(c: seq<Section>, declared: Option<string>, role: string)
    requires SetupsFit(c, declared) && AllOfKind(c, true)
    ensures RolesSet(c, role) == c
  {
    forall i | 0 <= i < |c|
      ensures RolesSet(c, role)[i] == c[i]
    {
      assert SetupFits(c[i], declared) && c[i].isOffer;
      SameAssigned(c[i].obj, Setup, Str("actpass"));
    }
  }

  lemma SameAssigned(o: Object, k: Key, v: Json)
    requires k in o && o[k] == v
    ensures o[k := v] == o
  {
  }

  // ----- ids -----

  /** A decimal numeral without superfluous zeros. */
  ghost predicate Numeral(id: string) {
    exists k: nat :: id == Digits(k)
  }

  /** What a handler keeps beside the sections: its side and DTLS state, the ids of its transceivers,
      those that were stopped, whether the data channel is set up, and the mids of sections
      whose id was never stored because a call failed behind them. */
  datatype Account = Account(isSender: bool, role: Option<string>, ready: bool,
    ids: set<string>, stopped: set<string>, hasData: bool, orphans: set<string>)

  /** Every mid of the description is an id, that of the data channel, or an orphan; orphans are open sections
      and no ids; and the numerals among the ids are those below the number of ids. */
  ghost predicate IdsFit(c: seq<Section>, a: Account)
    requires GoodSections(c)
  {
    && "datachannel" !in a.ids && a.ids !! a.orphans
    && (forall i :: 0 <= i < |c| ==> Named(c[i], a))
    && Live(c, a.orphans, {})
    && (forall id :: id in a.ids && Numeral(id) ==> exists k: nat :: k < |a.ids| && id == Digits(k))
  }

  predicate Named(s: Section, a: Account)
    requires GoodObject(s.obj)
  {
    MidOf(s) in a.ids || MidOf(s) in a.orphans || (a.hasData && MidOf(s) == "datachannel")
  }

  /** Everything received or sent and not yet stopped has an open section. */
  predicate Live(c: seq<Section>, ids: set<string>, stopped: set<string>)
    requires GoodSections(c)
  {
    forall id :: id in ids && id !in stopped ==> SlotOf(c, id) < |c| && Open(c[SlotOf(c, id)])
  }

  /** An id that is not stored can be used exactly if no failed call has left it behind. */
  lemma FreshExactly(c: seq<Section>, a: Account, id: string)
    requires GoodSections(c) && IdsFit(c, a) && id !in a.ids && (a.hasData ==> id != "datachannel")
    ensures Fresh(c, id) <==> id !in a.orphans
  {
    hide MidOf, Numeral, Open;
    if id !in a.orphans {
      forall i | 0 <= i < |c|
        ensures MidOf(c[i]) != id
      {
        assert Named(c[i], a);
      }
    }
  }

  /** The id made from the number of ids is never in use as an id; it is not in use as a mid either
      exactly if no failed call has left it behind, as it does if it was itself such an id. */
  lemma GeneratedIsFresh(c: seq<Section>, a: Account)
    requires GoodSections(c) && IdsFit(c, a)
    ensures var id := Digits(|a.ids|);
      && id !in a.ids && GoodMid(id) && id != "datachannel"
      && (Fresh(c, id) <==> id !in a.orphans)
  {
    hide Digits, MidOf, Live, Named, Fresh;
    var id := Digits(|a.ids|);
    assert Numeral(id);
    assert forall i :: 0 <= i < |id| ==> IsDigit(id[i]);
    assert IsDigit(id[0]) && !IsDigit("datachannel"[0]);
    if id in a.ids {
      var k: nat :| k < |a.ids| && id == Digits(k);
      DigitsInjective(k, |a.ids|);
    }
    FreshExactly(c, a, id);
  }

  /** After a failed call for a generated id the next generated id is the same one. Trying it again
      makes a second section with that mid, which is then twice in the BUNDLE list. */
  lemma FailedIdIsTaken(st: State, a: Account, s: Section, again: Section)
    requires Inv(st) && Allowed(st, Install(s)) && MidOf(s) == Digits(|a.ids|)
    requires GoodObject(again.obj) && Open(again) && MidOf(again) == Digits(|a.ids|)
    ensures var next := Step(st, Install(s));
      && Inv(next) && !Fresh(next.sections, Digits(|a.ids|)) && !Inv(Step(next, Install(again)))
      && var b := Bundle(Step(next, Install(again)).sections);
      exists i: nat, j: nat :: i < j < |Split(b, ' ')| && Split(b, ' ')[i] == Split(b, ' ')[j] == Digits(|a.ids|)
  {
    hide Digits, MidOf, Bundle, Split, GoodObject, ClosedObject, Step, Allowed;
    NewSlot(st, s);
    RetryDoubles(Step(st, Install(s)), Install(again));
  }

  /** The same for the data channel of the receiving side, which is always appended. */
  lemma DataRetryDoubles(st: State, s: Section, again: Section)
    requires Inv(st) && Allowed(st, Append(s)) && MidOf(s) == "datachannel"
    requires GoodObject(again.obj) && Open(again) && MidOf(again) == "datachannel"
    ensures var next := Step(st, Append(s));
      && Inv(next) && !Inv(Step(next, Append(again)))
      && var b := Bundle(Step(next, Append(again)).sections);
      exists i: nat, j: nat :: i < j < |Split(b, ' ')| && Split(b, ' ')[i] == Split(b, ' ')[j] == "datachannel"
  {
    hide MidOf, Bundle, Split, GoodObject, ClosedObject;
    StepKeepsInv(st, Append(s));
    SlotIs(Step(st, Append(s)).sections, |st.sections|);
    RetryDoubles(Step(st, Append(s)), Append(again));
  }

  // ----- sections to close -----

  lemma StepKeepsLive(st: State, e: Event, ids: set<string>, stopped: set<string>)
    requires Inv(st) && Allowed(st, e) && Live(st.sections, ids, stopped)
    ensures var d := Step(st, e).sections;
      GoodSections(d) && Live(d, ids, if e.Close? then stopped + {e.mid} else stopped)
  {
    hide Step, Allowed, MidOf, Open, GoodObject;
    StepKeepsInv(st, e);
    var d := Step(st, e).sections;
    var now := if e.Close? then stopped + {e.mid} else stopped;
    forall id | id in ids && id !in now
      ensures SlotOf(d, id) < |d| && Open(d[SlotOf(d, id)])
    {
      var i := SlotOf(st.sections, id);
      StepKeepsSlot(st, e, i);
      SlotIs(d, i);
    }
  }

  lemma NewSlot(st: State, s: Section)
    requires Inv(st) && Allowed(st, Install(s))
    ensures var d := Step(st, Install(s)).sections;
      && Inv(Step(st, Install(s))) && SlotOf(d, MidOf(s)) == LeastClosed(st.sections) < |d|
      && d[LeastClosed(st.sections)] == s && Open(s)
  {
    hide MidOf, GoodObject;
    StepKeepsInv(st, Install(s));
    var d := Step(st, Install(s)).sections;
    assert d[LeastClosed(st.sections)] == s;
    SlotIs(d, LeastClosed(st.sections));
  }

  // ----- all of it -----

  /** What the handlers keep about the sections. */
  ghost predicate SectionsFit(c: seq<Section>, a: Account) {
    && GoodSections(c) && AllOfKind(c, !a.isSender) && SetupsFit(c, a.role)
    && (a.isSender && c != [] ==> a.ready)
    && Live(c, a.ids, a.stopped)
    && (!a.isSender ==> IdsFit(c, a))
  }

  /** A section of the side of the handler that says what follows from the role. */
  predicate SectionFits(s: Section, a: Account) {
    SetupFits(s, a.role) && s.isOffer == !a.isSender && (a.isSender ==> a.ready)
  }

  lemma SlotsReflexive(c: seq<Section>)
    requires GoodSections(c)
    ensures SameSlots(c, c)
  {
  }

  lemma SameSlot(a: seq<Section>, b: seq<Section>, mid: string)
    requires SameSlots(a, b)
    ensures SlotOf(a, mid) == SlotOf(b, mid)
    ensures SlotOf(a, mid) < |a| ==> Open(a[SlotOf(a, mid)]) == Open(b[SlotOf(b, mid)])
  {
    hide MidOf, Open, GoodObject;
    var i, j := SlotOf(a, mid), SlotOf(b, mid);
    if i < |a| {
      assert MidOf(b[i]) == mid;
    }
    if j < |b| {
      assert MidOf(a[j]) == mid;
    }
  }

  /** What is said about ids depends on the slots only, ... */
  lemma SameIds(c: seq<Section>, d: seq<Section>, a: Account)
    requires SameSlots(c, d) && IdsFit(c, a)
    ensures IdsFit(d, a)
  {
    hide MidOf, Open, GoodObject, Numeral, SlotOf;
    forall id | id in a.orphans
      ensures SlotOf(d, id) < |d| && Open(d[SlotOf(d, id)])
    {
      SameSlot(c, d, id);
    }
    forall i | 0 <= i < |d|
      ensures Named(d[i], a)
    {
      assert Named(c[i], a);
    }
  }

  /** ... so updates keep it. */
  lemma RoleKeepsFit(st: State, a: Account, role: string, lite: bool)
    requires Inv(st) && SectionsFit(st.sections, a) && KnownRole(role)
    ensures SectionsFit(Step(st, SetRole(role, lite)).sections, a.(role := Some(role)))
  {
    hide MidOf, GoodObject, Live, IdsFit, RoleSet, SetupFits, SameSlots;
    var c, d := st.sections, RolesSet(st.sections, role);
    UpdatesKeepSlots(c, role, IceParameters("", "", false));
    RoleMakesFit(c, role);
    StepKeepsLive(st, SetRole(role, lite), a.ids, a.stopped);
    if !a.isSender {
      SameIds(c, d, a);
      RoleIsNoId(d, a, role);
    }
  }

  lemma RoleIsNoId(c: seq<Section>, a: Account, role: string)
    requires GoodSections(c) && IdsFit(c, a)
    ensures IdsFit(c, a.(role := Some(role)))
  {
    hide MidOf, Live, Numeral;
    var b := a.(role := Some(role));
    forall i | 0 <= i < |c|
      ensures Named(c[i], b)
    {
      assert Named(c[i], a);
    }
  }

  lemma ReadyKeepsFit(c: seq<Section>, a: Account)
    requires SectionsFit(c, a)
    ensures SectionsFit(c, a.(ready := true))
  {
    hide MidOf, Live, Numeral, SetupFits;
    if !a.isSender {
      var b := a.(ready := true);
      forall i | 0 <= i < |c|
        ensures Named(c[i], b)
      {
        assert Named(c[i], a);
      }
    }
  }

  lemma IceKeepsFit(st: State, a: Account, ice: IceParameters)
    requires Inv(st) && SectionsFit(st.sections, a)
    ensures SectionsFit(Step(st, SetIce(ice)).sections, a)
  {
    hide MidOf, GoodObject, Live, IdsFit, SetupFits, WithIce, SameSlots;
    StepKeepsLive(st, SetIce(ice), a.ids, a.stopped);
    StepKeepsSetups(st, SetIce(ice), a.role);
    UpdatesKeepSlots(st.sections, "", ice);
    if !a.isSender {
      SameIds(st.sections, IceSet(st.sections, ice), a);
    }
  }

  /** The mid of a new section is an orphan until its id is stored. */
  lemma NewKeepsIds(st: State, a: Account, e: Event)
    requires Inv(st) && (e.Install? || e.Append?) && Allowed(st, e) && IdsFit(st.sections, a)
    requires MidOf(e.section) !in a.ids && GoodSections(Step(st, e).sections)
    ensures IdsFit(Step(st, e).sections, a.(orphans := a.orphans + {MidOf(e.section)}))
  {
    hide MidOf, GoodObject, Numeral, Open, SlotOf, Step;
    var b, d := a.(orphans := a.orphans + {MidOf(e.section)}), Step(st, e).sections;
    StepKeepsLive(st, e, a.orphans, {});
    NewIsOpen(st, e);
    forall i | 0 <= i < |d|
      ensures Named(d[i], b)
    {
      NewOrOld(st, e, i);
      if d[i] != e.section {
        assert Named(st.sections[i], a);
      }
    }
  }

  lemma NewIsOpen(st: State, e: Event)
    requires Inv(st) && (e.Install? || e.Append?) && Allowed(st, e)
    ensures var d := Step(st, e).sections;
      GoodSections(d) && SlotOf(d, MidOf(e.section)) < |d| && Open(d[SlotOf(d, MidOf(e.section))])
  {
    hide MidOf, GoodObject, ClosedObject;
    StepKeepsInv(st, e);
    var d := Step(st, e).sections;
    var i := NewSlotOf(st.sections, e);
    assert d[i] == e.section;
    SlotIs(d, i);
  }

  lemma NewOrOld(st: State, e: Event, i: nat)
    requires GoodSections(st.sections) && (e.Install? || e.Append?) && i < |Step(st, e).sections|
    ensures Step(st, e).sections[i] == e.section || (i < |st.sections| && Step(st, e).sections[i] == st.sections[i])
  {
    hide GoodObject, Open;
  }

  lemma NewKeepsFit(st: State, a: Account, e: Event)
    requires Inv(st) && (e.Install? || e.Append?) && Allowed(st, e) && SectionsFit(st.sections, a)
      && SectionFits(e.section, a)
    requires !a.isSender ==> MidOf(e.section) !in a.ids
    ensures SectionsFit(Step(st, e).sections, a.(orphans := a.orphans + {MidOf(e.section)}))
  {
    hide MidOf, GoodObject, Live, IdsFit, SetupFits, Allowed;
    StepKeepsInv(st, e);
    StepKeepsLive(st, e, a.ids, a.stopped);
    StepKeepsSetups(st, e, a.role);
    if !a.isSender {
      NewKeepsIds(st, a, e);
    }
  }

  /** Storing the id of an open section. */
  lemma StoredFits(c: seq<Section>, a: Account, id: string)
    requires SectionsFit(c, a) && SlotOf(c, id) < |c| && Open(c[SlotOf(c, id)])
    requires !a.isSender ==> id in a.orphans && id != "datachannel" && (Numeral(id) ==> id == Digits(|a.ids|))
    ensures SectionsFit(c, a.(ids := a.ids + {id}, orphans := a.orphans - {id}))
  {
    hide MidOf, GoodObject, SetupFits, Numeral, Digits, Open;
    if !a.isSender {
      StoredIds(c, a, id);
    }
  }

  lemma StoredIds(c: seq<Section>, a: Account, id: string)
    requires GoodSections(c) && IdsFit(c, a) && id in a.orphans && id != "datachannel"
      && (Numeral(id) ==> id == Digits(|a.ids|))
    ensures IdsFit(c, a.(ids := a.ids + {id}, orphans := a.orphans - {id}))
  {
    hide MidOf, GoodObject, Numeral, Digits, Open;
    var b := a.(ids := a.ids + {id}, orphans := a.orphans - {id});
    assert |b.ids| == |a.ids| + 1;
    forall x | x in b.ids && Numeral(x)
      ensures exists k: nat :: k < |b.ids| && x == Digits(k)
    {
      if x in a.ids {
        var k: nat :| k < |a.ids| && x == Digits(k);
      }
    }
    forall i | 0 <= i < |c|
      ensures Named(c[i], b)
    {
      assert Named(c[i], a);
    }
  }

  /** Setting the data-channel flag; `mid` is that of its section. */
  lemma DataFits(c: seq<Section>, a: Account, mid: string)
    requires SectionsFit(c, a) && (!a.isSender ==> mid == "datachannel")
    ensures SectionsFit(c, a.(hasData := true, orphans := a.orphans - {mid}))
  {
    hide MidOf, GoodObject, SetupFits, Numeral, Open;
    if !a.isSender {
      var b := a.(hasData := true, orphans := a.orphans - {mid});
      forall i | 0 <= i < |c|
        ensures Named(c[i], b)
      {
        assert Named(c[i], a);
      }
    }
  }

  lemma CloseKeepsFit(st: State, a: Account, mid: string)
    requires Inv(st) && SectionsFit(st.sections, a) && mid in a.ids && mid !in a.stopped
    ensures Allowed(st, Close(mid))
    ensures SectionsFit(Step(st, Close(mid)).sections, a.(stopped := a.stopped + {mid}))
  {
    hide MidOf, GoodObject, SetupFits, Closed, Disabled, IdsFit;
    StepKeepsInv(st, Close(mid));
    StepKeepsLive(st, Close(mid), a.ids, a.stopped);
    StepKeepsSetups(st, Close(mid), a.role);
    ShutSlots(st.sections, mid);
    if !a.isSender {
      CloseKeepsIds(st, a, mid);
    }
  }

  lemma CloseKeepsIds(st: State, a: Account, mid: string)
    requires Inv(st) && IdsFit(st.sections, a) && mid in a.ids && Allowed(st, Close(mid))
    requires GoodSections(Step(st, Close(mid)).sections)
    ensures IdsFit(Step(st, Close(mid)).sections, a.(stopped := a.stopped + {mid}))
  {
    hide MidOf, GoodObject, Numeral, Open, Closed, Disabled;
    StepKeepsLive(st, Close(mid), a.orphans, {});
    ShutSlots(st.sections, mid);
    var b, d := a.(stopped := a.stopped + {mid}), Step(st, Close(mid)).sections;
    forall i | 0 <= i < |d|
      ensures Named(d[i], b)
    {
      assert Named(st.sections[i], a) && MidOf(d[i]) == MidOf(st.sections[i]);
    }
  }
}
