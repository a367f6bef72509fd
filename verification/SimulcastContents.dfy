/** The SSRC members of an offer that was rewritten to legacy simulcast, line by line. */
module SimulcastContents {
  import opened Text
  import opened Json
  import opened SdpText
  import opened RtpTypes
  import opened SsrcUtils

  predicate IsLine(line: Object, attribute: string) {
    HasStr(line, Attribute) && line[Attribute].s == attribute
  }

  /** The first line with an attribute; with a numeric id, if asked for. */
  predicate FirstLine(lines: seq<Object>, attribute: string, withId: bool, i: int) {
    && 0 <= i < |lines| && IsLine(lines[i], attribute) && (withId ==> HasNum(lines[i], Id))
    && forall j :: 0 <= j < i ==> !(IsLine(lines[j], attribute) && (withId ==> HasNum(lines[j], Id)))
  }

  predicate NoLine(lines: seq<Object>, attribute: string, withId: bool) {
    forall j :: 0 <= j < |lines| ==> !(IsLine(lines[j], attribute) && (withId ==> HasNum(lines[j], Id)))
  }

  lemma {:induction false} LineFound(lines: seq<Object>, attribute: string, withId: bool)
    ensures var i := FindLine(lines, attribute, withId);
      if i < |lines| then FirstLine(lines, attribute, withId, i) else NoLine(lines, attribute, withId)
  {
    hide IsLine;
    if lines != [] {
      LineFound(lines[1..], attribute, withId);
      assert IsLine(lines[0], attribute) <==> HasStr(lines[0], Attribute) && lines[0][Attribute].s == attribute by {
        IsLineIs(lines[0], attribute);
      }
      assert forall j :: 0 < j < |lines| ==> lines[j] == lines[1..][j - 1];
    }
  }

  lemma IsLineIs(line: Object, attribute: string)
    ensures IsLine(line, attribute) <==> HasStr(line, Attribute) && line[Attribute].s == attribute
  {
  }

  /** The numbers of a group start with an SSRC. */
  predicate StartsWith(group: Object, ssrc: nat) {
    && GroupLine(group)
    && var v := Split(group[Ssrcs].s, ' '); v != [] && Stoull(v[0]) == Some(ssrc)
  }

  /** The second number of the first group that starts with the SSRC, or 0 without one. */
  predicate RtxIs(groups: seq<Object>, ssrc: nat, rtx: nat) {
    if forall i :: 0 <= i < |groups| ==> !StartsWith(groups[i], ssrc) then rtx == 0
    else exists i :: 0 <= i < |groups| && StartsWith(groups[i], ssrc)
           && (forall j :: 0 <= j < i ==> !StartsWith(groups[j], ssrc)) && SecondIs(groups[i], rtx)
  }

  predicate SecondIs(group: Object, rtx: nat) {
    && GroupLine(group)
    && var v := Split(group[Ssrcs].s, ' ');
    |v| >= 2 && Stoull(v[1]).Some? && rtx == Stoull(v[1]).value % 0x1_0000_0000
  }

  lemma {:induction false} RtxFound(groups: seq<Object>, ssrc: nat)
    requires forall i :: 0 <= i < |groups| && GroupLine(groups[i]) ==> |Split(groups[i][Ssrcs].s, ' ')| >= 2
    requires FirstRtx(groups, ssrc).Ok?
    ensures RtxIs(groups, ssrc, FirstRtx(groups, ssrc).value)
  {
    hide Split, Stoull, SecondIs, RtxIs;
    if groups == [] {
      RtxOfNone(ssrc);
    } else {
      var rtx := FirstRtx(groups, ssrc).value;
      if StartsWith(groups[0], ssrc) {
        SecondOf(groups[0], rtx);
        RtxOfFirst(groups, ssrc, rtx);
      } else {
        RtxFound(groups[1..], ssrc);
        RtxOfRest(groups, ssrc, rtx);
      }
    }
  }

  lemma RtxOfNone(ssrc: nat)
    ensures RtxIs([], ssrc, 0)
  {
  }

  lemma RtxOfFirst(groups: seq<Object>, ssrc: nat, rtx: nat)
    requires groups != [] && StartsWith(groups[0], ssrc) && SecondIs(groups[0], rtx)
    ensures RtxIs(groups, ssrc, rtx)
  {
    hide StartsWith, SecondIs;
  }

  lemma RtxOfRest(groups: seq<Object>, ssrc: nat, rtx: nat)
    requires groups != [] && !StartsWith(groups[0], ssrc) && RtxIs(groups[1..], ssrc, rtx)
    ensures RtxIs(groups, ssrc, rtx)
  {
    hide StartsWith, SecondIs;
    var rest := groups[1..];
    assert forall k :: 0 <= k < |rest| ==> rest[k] == groups[k + 1];
    assert forall k :: 0 < k < |groups| ==> groups[k] == rest[k - 1];
    if i :| 0 <= i < |groups| && StartsWith(groups[i], ssrc) {
      assert StartsWith(rest[i - 1], ssrc);
      var k :| 0 <= k < |rest| && StartsWith(rest[k], ssrc)
        && (forall j :: 0 <= j < k ==> !StartsWith(rest[j], ssrc)) && SecondIs(rest[k], rtx);
      assert StartsWith(groups[k + 1], ssrc) && SecondIs(groups[k + 1], rtx);
    }
  }

  lemma SecondOf(group: Object, rtx: nat)
    requires GroupLine(group)
    ensures var v := Split(group[Ssrcs].s, ' ');
      |v| >= 2 && Stoull(v[1]).Some? && rtx == Stoull(v[1]).value % 0x1_0000_0000 ==> SecondIs(group, rtx)
  {
  }

  /** The i-th SSRC behind the first one, in 32 bits. */
  function Stream(first: nat, i: nat): nat {
    (first + i) % 0x1_0000_0000
  }

  /** The SSRCs of all streams, separated by spaces. */
  function Streams(first: nat, n: nat): string {
    if n == 0 then ""
    else if n == 1 then Digits(Stream(first, 0))
    else Streams(first, n - 1) + (" " + Digits(Stream(first, n - 1)))
  }

  lemma {:induction false} StreamsJoined(first: nat, n: nat)
    ensures Join(DigitTexts(Range(first, n)), ' ') == Streams(first, n)
  {
    hide Join, Digits;
    if n == 0 {
      NothingJoined();
    } else {
      StreamsJoined(first, n - 1);
      var before := DigitTexts(Range(first, n - 1));
      assert DigitTexts(Range(first, n)) == before + [Digits(Stream(first, n - 1))];
      if n == 1 {
        OneJoined(Digits(Stream(first, 0)));
        assert DigitTexts(Range(first, 1)) == [Digits(Stream(first, 0))];
      } else {
        JoinSnoc(before, Digits(Stream(first, n - 1)), ' ');
        assert [' '] == " ";
      }
    }
  }

  lemma NothingJoined()
    ensures Join([], ' ') == ""
  {
  }

  lemma OneJoined(text: string)
    ensures Join([text], ' ') == text
  {
  }

  lemma {:induction false} PairAt(ssrcs: seq<nat>, cname: string, msid: string, i: nat)
    requires i < |ssrcs|
    ensures var lines := LinePairs(ssrcs, cname, msid);
      && |lines| == 2 * |ssrcs|
      && lines[2 * i] == map[Id := Num(ssrcs[i]), Attribute := Str("cname"), Value := Str(cname)]
      && lines[2 * i + 1] == map[Id := Num(ssrcs[i]), Attribute := Str("msid"), Value := Str(msid)]
  {
    var n := |ssrcs| - 1;
    if i < n {
      PairAt(ssrcs[..n], cname, msid, i);
    } else {
      PairCount(ssrcs[..n], cname, msid);
    }
  }

  lemma {:induction false} PairCount(ssrcs: seq<nat>, cname: string, msid: string)
    ensures |LinePairs(ssrcs, cname, msid)| == 2 * |ssrcs|
  {
    if ssrcs != [] {
      PairCount(ssrcs[..|ssrcs| - 1], cname, msid);
    }
  }

  // ----- the rewritten members -----

  /** A SIM group of all streams, and a FID group for each stream with its RTX stream, if there is one. */
  predicate GroupsSpelled(groups: seq<Object>, first: nat, rtx: nat, n: nat) {
    && |groups| == (if rtx == 0 then 1 else n + 1)
    && groups[0] == map[Semantics := Str("SIM"), Ssrcs := Str(Streams(first, n))]
    && forall i :: 0 <= i < |groups| - 1 ==>
         groups[i + 1] == map[Semantics := Str("FID"),
                            Ssrcs := Str(Digits(Stream(first, i)) + (" " + Digits(Stream(rtx, i))))]
  }

  /** A cname line and an msid line of one SSRC, at a place. */
  predicate PairSpelled(lines: seq<Object>, at: nat, ssrc: nat, cname: string, msid: string) {
    && at + 1 < |lines|
    && lines[at] == map[Id := Num(ssrc), Attribute := Str("cname"), Value := Str(cname)]
    && lines[at + 1] == map[Id := Num(ssrc), Attribute := Str("msid"), Value := Str(msid)]
  }

  /** First those of the streams, behind them those of the RTX streams. */
  predicate LinesSpelled(lines: seq<Object>, first: nat, rtx: nat, n: nat, cname: string, msid: string) {
    && |lines| == (if rtx == 0 then 2 * n else 4 * n)
    && (forall i :: 0 <= i < n ==> PairSpelled(lines, 2 * i, Stream(first, i), cname, msid))
    && (rtx != 0 ==> forall i :: 0 <= i < n ==> PairSpelled(lines, 2 * (n + i), Stream(rtx, i), cname, msid))
  }

  predicate Spelled(offer: Object, out: Object, first: nat, rtx: nat, n: nat, cname: string, msid: string) {
    && HasArr(out, SsrcGroups) && GroupsSpelled(out[SsrcGroups].items, first, rtx, n)
    && HasArr(out, Ssrcs) && LinesSpelled(out[Ssrcs].items, first, rtx, n, cname, msid)
    && out.Keys == offer.Keys + {SsrcGroups, Ssrcs}
    && forall k :: k in offer && k != SsrcGroups && k != Ssrcs ==> k in out && out[k] == offer[k]
  }

  lemma LinesAre(first: nat, rtx: nat, n: nat, cname: string, msid: string)
    ensures LinesSpelled(LinePairs(Range(first, n), cname, msid) + LinePairs(RtxRange(rtx, n), cname, msid), first, rtx,
              n, cname, msid)
  {
    hide LinePairs;
    var ssrcs, rtxs := Range(first, n), RtxRange(rtx, n);
    var a, b := LinePairs(ssrcs, cname, msid), LinePairs(rtxs, cname, msid);
    PairCount(ssrcs, cname, msid);
    PairCount(rtxs, cname, msid);
    forall i | 0 <= i < n
      ensures PairSpelled(a + b, 2 * i, Stream(first, i), cname, msid)
    {
      PairAt(ssrcs, cname, msid, i);
    }
    if rtx != 0 {
      forall i | 0 <= i < n
        ensures PairSpelled(a + b, 2 * (n + i), Stream(rtx, i), cname, msid)
      {
        PairAt(rtxs, cname, msid, i);
        assert (a + b)[2 * (n + i)] == b[2 * i] && (a + b)[2 * (n + i) + 1] == b[2 * i + 1];
      }
    }
  }

  lemma GroupsAre(first: nat, rtx: nat, n: nat)
    ensures var ssrcs, rtxs := Range(first, n), RtxRange(rtx, n);
      GroupsSpelled([GroupOf("SIM", Join(DigitTexts(ssrcs), ' '))] + FidGroups(ssrcs, rtxs), first, rtx, n)
  {
    hide Join, Digits, Streams;
    StreamsJoined(first, n);
  }

  lemma RewriteSpelled(offer: Object, first: nat, rtx: nat, n: nat, cname: string, msid: string)
    ensures Spelled(offer, SimulcastOffer(offer, first, rtx, n, cname, msid), first, rtx, n, cname, msid)
  {
    hide LinesSpelled, GroupsSpelled, LinePairs, FidGroups, Range, RtxRange, Join, GroupOf;
    LinesAre(first, rtx, n, cname, msid);
    GroupsAre(first, rtx, n);
  }

  /** What an offer becomes for two and more streams: the SSRCs count up from that of the first msid line, the RTX SSRCs
      from the one its first group names, the cname is that of the first numbered cname line, and the msid
      the first two tokens of the first msid line. */
  lemma SimulcastSpelled(offer: Object, n: nat)
    requires SimulcastReady(offer) && 2 <= n < 256 && LegacySimulcast(offer, n).Ok?
    ensures var lines := ItemsOf(Look(offer, Ssrcs));
      exists m, c, rtx: nat ::
        && FirstLine(lines, "msid", false, m) && FirstLine(lines, "cname", true, c)
        && HasNum(lines[m], Id) && HasStr(lines[m], Value) && HasStr(lines[c], Value)
        && var first, v := lines[m][Id].n % 0x1_0000_0000, Split(lines[m][Value].s, ' ');
        && |v| >= 2 && RtxIs(GroupsOf(offer), first, rtx)
        && Spelled(offer, LegacySimulcast(offer, n).value, first, rtx, n, lines[c][Value].s, v[0] + (" " + v[1]))
  {
    hide Spelled, SimulcastOffer, FirstRtx, RtxIs, Split, FirstLine, NoLine;
    var lines := ItemsOf(Look(offer, Ssrcs));
    var m, c := FindLine(lines, "msid", false), FindLine(lines, "cname", true);
    LineFound(lines, "msid", false);
    LineFound(lines, "cname", true);
    var first := U32(lines[m][Id].n);
    var rtx := FirstRtx(GroupsOf(offer), first).value;
    var v := Split(lines[m][Value].s, ' ');
    RtxFound(GroupsOf(offer), first);
    RewriteSpelled(offer, first, rtx, n, lines[c][Value].s, v[0] + (" " + v[1]));
  }

  /** One stream leaves the offer alone; more are refused without an msid line, and without a numbered
      cname line. */
  lemma SimulcastRefuses(offer: Object, n: nat)
    requires SimulcastReady(offer)
    ensures var lines, r := ItemsOf(Look(offer, Ssrcs)), LegacySimulcast(offer, n);
      && (n <= 1 ==> r == Ok(offer))
      && (n > 1 ==>
           && (NoLine(lines, "msid", false) <==> r == Err("a=ssrc line with msid information not found"))
           && (r == Err("CNAME line not found") ==> NoLine(lines, "cname", true))
           && (NoLine(lines, "msid", false) || NoLine(lines, "cname", true) ==> r.Err?))
  {
    hide SimulcastOffer, FirstRtx, Split, FirstLine;
    var lines := ItemsOf(Look(offer, Ssrcs));
    LineFound(lines, "msid", false);
    LineFound(lines, "cname", true);
    NoLineFound(lines, "msid", false);
    NoLineFound(lines, "cname", true);
    var m := FindLine(lines, "msid", false);
    if m < |lines| {
      RtxError(GroupsOf(offer), U32(lines[m][Id].n));
    }
  }

  lemma NoLineFound(lines: seq<Object>, attribute: string, withId: bool)
    ensures NoLine(lines, attribute, withId) ==> FindLine(lines, attribute, withId) == |lines|
  {
    var i := FindLine(lines, attribute, withId);
    assert i < |lines| ==> IsLine(lines[i], attribute);
  }

  lemma {:induction false} RtxError(groups: seq<Object>, ssrc: nat)
    requires forall i :: 0 <= i < |groups| && GroupLine(groups[i]) ==> |Split(groups[i][Ssrcs].s, ' ')| >= 2
    ensures FirstRtx(groups, ssrc).Err? ==> FirstRtx(groups, ssrc).message == "invalid number"
  {
    hide Split, Stoull;
    if groups != [] {
      RtxError(groups[1..], ssrc);
    }
  }

  // ----- reading any offer -----

  /** The positions that differ from the one before and hold nothing that is left out. */
  function Starts(ids: seq<nat>, out: set<nat>): seq<nat> {
    if ids == [] then []
    else
      var n := |ids| - 1;
      Starts(ids[..n], out) + (if (n == 0 || ids[n] != ids[n - 1]) && ids[n] !in out then [n] else [])
  }

  /** Whether a position starts a run that is not left out. */
  predicate StartsAt(ids: seq<nat>, out: set<nat>, k: nat) {
    k < |ids| && (k == 0 || ids[k] != ids[k - 1]) && ids[k] !in out
  }

  lemma {:induction false} StartsAre(ids: seq<nat>, out: set<nat>)
    ensures var ks := Starts(ids, out);
      && (forall i, j :: 0 <= i < j < |ks| ==> ks[i] < ks[j])
      && (forall k: nat :: k in ks <==> StartsAt(ids, out, k))
  {
    if ids != [] {
      var n := |ids| - 1;
      StartsAre(ids[..n], out);
      var before, ks := Starts(ids[..n], out), Starts(ids, out);
      forall i | 0 <= i < |before|
        ensures before[i] < n
      {
        assert before[i] in before;
        assert StartsAt(ids[..n], out, before[i]);
      }
      forall k: nat
        ensures k in ks <==> StartsAt(ids, out, k)
      {
        assert StartsAt(ids[..n], out, k) <==> k < n && StartsAt(ids, out, k);
        assert k in ks <==> k in before || (k == n && StartsAt(ids, out, n));
      }
    }
  }

  lemma {:induction false} KeptStarts(ids: seq<nat>, out: set<nat>)
    ensures var ks, kept := Starts(ids, out), Kept(Unique(ids), out);
      |kept| == |ks| && forall j :: 0 <= j < |ks| ==> ks[j] < |ids| && kept[j] == ids[ks[j]]
  {
    hide Kept;
    if |ids| <= 1 {
      OneStart(ids, out);
    } else {
      var n := |ids| - 1;
      KeptStarts(ids[..n], out);
      KeptSnoc(Unique(ids[..n]), ids[n], out);
    }
  }

  lemma OneStart(ids: seq<nat>, out: set<nat>)
    requires |ids| <= 1
    ensures var ks, kept := Starts(ids, out), Kept(Unique(ids), out);
      |kept| == |ks| && forall j :: 0 <= j < |ks| ==> ks[j] < |ids| && kept[j] == ids[ks[j]]
  {
    if |ids| == 1 {
      assert ids[..0] == [] && Starts(ids[..0], out) == [] && Kept(ids[..0], out) == [];
    }
  }

  lemma KeptSnoc(ids: seq<nat>, x: nat, out: set<nat>)
    ensures Kept(ids + [x], out) == Kept(ids, out) + (if x in out then [] else [x])
  {
    assert (ids + [x])[..|ids|] == ids;
  }

  predicate IsFid(group: Object) {
    HasStr(group, Semantics) && HasStr(group, Ssrcs) && group[Semantics].s == "FID"
  }

  /** A FID group whose first number is an SSRC, or whose second one is, in 32 bits. */
  predicate FidFirst(group: Object, ssrc: nat) {
    && IsFid(group)
    && var v := Split(group[Ssrcs].s, ' ');
    |v| >= 2 && Stoull(v[0]).Some? && Stoull(v[0]).value % 0x1_0000_0000 == ssrc
  }

  predicate FidSecond(group: Object, ssrc: nat) {
    && IsFid(group)
    && var v := Split(group[Ssrcs].s, ' ');
    |v| >= 2 && Stoull(v[1]).Some? && Stoull(v[1]).value % 0x1_0000_0000 == ssrc
  }

  predicate SomeSecond(groups: seq<Object>, ssrc: nat) {
    exists i :: 0 <= i < |groups| && FidSecond(groups[i], ssrc)
  }

  /** The second number of the last FID group that starts with an SSRC. */
  predicate LastPartner(groups: seq<Object>, ssrc: nat, rtx: Option<nat>) {
    if rtx.None? then forall i :: 0 <= i < |groups| ==> !FidFirst(groups[i], ssrc)
    else exists i :: 0 <= i < |groups| && FidFirst(groups[i], ssrc) && FidSecond(groups[i], rtx.value)
           && forall j :: i < j < |groups| ==> !FidFirst(groups[j], ssrc)
  }

  lemma PairIs(group: Object, ssrc: nat)
    requires FidLine(group) && IsFid(group) && FidPair(group).Some?
    ensures FidFirst(group, ssrc) <==> ssrc == FidPair(group).value.0
    ensures FidSecond(group, ssrc) <==> ssrc == FidPair(group).value.1
  {
    hide Split, Stoull;
  }

  lemma FidIs(group: Object)
    requires FidLine(group)
    ensures IsFid(group) <==> group[Semantics].s == "FID"
  {
  }

  lemma {:induction false} SecondsAre(groups: seq<Object>, ssrc: nat)
    requires FidLines(groups) && FidPairs(groups).Some?
    ensures ssrc in Seconds(FidPairs(groups).value) <==> SomeSecond(groups, ssrc)
  {
    hide FidLine, FidPair, FidSecond, FidFirst, IsFid;
    if groups != [] {
      var n := |groups| - 1;
      var before := groups[..n];
      assert FidLine(groups[n]);
      SecondsAre(before, ssrc);
      FidIs(groups[n]);
      var ps, qs := FidPairs(before).value, FidPairs(groups).value;
      assert SomeSecond(groups, ssrc) <==> SomeSecond(before, ssrc) || FidSecond(groups[n], ssrc) by {
        assert groups == before + [groups[n]];
        SecondSnoc(before, groups[n], ssrc);
      }
      if IsFid(groups[n]) {
        PairIs(groups[n], ssrc);
        SecondsSnoc(ps, qs[|ps|], ssrc);
      } else {
        NoFid(groups[n], ssrc);
      }
    }
  }

  lemma NoFid(group: Object, ssrc: nat)
    requires !IsFid(group)
    ensures !FidFirst(group, ssrc) && !FidSecond(group, ssrc)
  {
  }

  lemma SecondSnoc(groups: seq<Object>, group: Object, ssrc: nat)
    ensures SomeSecond(groups + [group], ssrc) <==> SomeSecond(groups, ssrc) || FidSecond(group, ssrc)
  {
    hide FidSecond;
    var all := groups + [group];
    assert all[|groups|] == group;
    if i :| 0 <= i < |groups| && FidSecond(groups[i], ssrc) {
      assert all[i] == groups[i];
    }
  }

  lemma SecondsSnoc(pairs: seq<(nat, nat)>, pair: (nat, nat), ssrc: nat)
    ensures ssrc in Seconds(pairs + [pair]) <==> ssrc in Seconds(pairs) || ssrc == pair.1
  {
    var all := pairs + [pair];
    assert all[|pairs|] == pair;
    if ssrc in Seconds(pairs) {
      var i :| 0 <= i < |pairs| && pairs[i].1 == ssrc;
      assert all[i].1 == ssrc;
    }
  }

  function PartnerIn(rtx: map<nat, nat>, ssrc: nat): Option<nat> {
    if ssrc in rtx then Some(rtx[ssrc]) else None
  }

  lemma {:induction false} PartnersAre(groups: seq<Object>, ssrc: nat)
    requires FidLines(groups) && FidPairs(groups).Some?
    ensures LastPartner(groups, ssrc, PartnerIn(RtxMap(FidPairs(groups).value), ssrc))
  {
    hide FidLine, FidPair, FidSecond, FidFirst, IsFid, LastPartner;
    if groups == [] {
      NoPartner(ssrc);
    } else {
      var n := |groups| - 1;
      var before := groups[..n];
      assert FidLine(groups[n]);
      PartnersAre(before, ssrc);
      FidIs(groups[n]);
      assert groups == before + [groups[n]];
      var ps, qs := FidPairs(before).value, FidPairs(groups).value;
      if IsFid(groups[n]) {
        var pair := FidPair(groups[n]).value;
        assert qs == ps + [pair] && qs[..|ps|] == ps;
        PairIs(groups[n], ssrc);
        PairIs(groups[n], pair.1);
        if ssrc == pair.0 {
          NewPartner(before, groups[n], ssrc, pair.1);
        } else {
          OldPartner(before, groups[n], ssrc, PartnerIn(RtxMap(ps), ssrc));
        }
      } else {
        NoFid(groups[n], ssrc);
        OldPartner(before, groups[n], ssrc, PartnerIn(RtxMap(ps), ssrc));
      }
    }
  }

  lemma NoPartner(ssrc: nat)
    ensures LastPartner([], ssrc, None)
  {
  }

  lemma NewPartner(groups: seq<Object>, group: Object, ssrc: nat, rtx: nat)
    requires FidFirst(group, ssrc) && FidSecond(group, rtx)
    ensures LastPartner(groups + [group], ssrc, Some(rtx))
  {
    hide FidFirst, FidSecond;
    assert (groups + [group])[|groups|] == group;
  }

  lemma OldPartner(groups: seq<Object>, group: Object, ssrc: nat, rtx: Option<nat>)
    requires LastPartner(groups, ssrc, rtx) && !FidFirst(group, ssrc)
    ensures LastPartner(groups + [group], ssrc, rtx)
  {
    hide FidFirst, FidSecond;
    if rtx.Some? {
      var i :| 0 <= i < |groups| && FidFirst(groups[i], ssrc) && FidSecond(groups[i], rtx.value)
        && forall j :: i < j < |groups| ==> !FidFirst(groups[j], ssrc);
      assert (groups + [group])[i] == groups[i];
    }
  }

  /** The encodings of any offer: the SSRCs of its lines in order, without immediate repetitions and without those
      that some FID group names second, each with the SSRC that the last FID group starting with it names second. */
  lemma OfferEncodings(offer: Object)
    requires ReadableOffer(offer) && RtpEncodings(offer).Ok?
    ensures var es, groups := RtpEncodings(offer).value, GroupsOf(offer);
      var ids := LineIds(offer[Ssrcs].items);
      exists ks: seq<nat> ::
        && |ks| == |es| && (forall i, j :: 0 <= i < j < |ks| ==> ks[i] < ks[j])
        && (forall k: nat :: k in ks <==>
              k < |ids| && (k == 0 || ids[k] != ids[k - 1]) && !SomeSecond(groups, ids[k]))
        && forall j :: 0 <= j < |ks| ==> ks[j] < |ids| && SpelledEncoding(es[j], ids[ks[j]], groups)
  {
    hide IdOf, IdLine, Ids, LineIds, FidPairs, SomeSecond, LastPartner, Starts, Kept, Unique, RtxMap, Seconds,
      RemoveRtx;
    var es, groups, ids := RtpEncodings(offer).value, GroupsOf(offer), Ids(offer[Ssrcs].items);
    var pairs := FidPairs(groups).value;
    var ks := Starts(ids, Seconds(pairs));
    RemoveRtxKeeps(Unique(ids), pairs);
    StartsAre(ids, Seconds(pairs));
    KeptStarts(ids, Seconds(pairs));
    IdsSpelled(offer[Ssrcs].items);
    forall ssrc: nat
      ensures ssrc in Seconds(pairs) <==> SomeSecond(groups, ssrc)
    {
      SecondsAre(groups, ssrc);
    }
    forall j | 0 <= j < |ks|
      ensures SpelledEncoding(es[j], ids[ks[j]], groups)
    {
      PartnersAre(groups, ids[ks[j]]);
    }
  }

  predicate SpelledEncoding(e: EncodingParameters, ssrc: nat, groups: seq<Object>) {
    e.ssrc == Some(ssrc)
    && (e.rtxSsrc.Some? ==> e.rtxSsrc.value >= 0)
    && LastPartner(groups, ssrc, if e.rtxSsrc.Some? && e.rtxSsrc.value >= 0 then Some(e.rtxSsrc.value) else None)
  }

  /** The SSRC numbers of the lines, in 32 bits. */
  function LineIds(lines: seq<Object>): (r: seq<nat>)
    ensures |r| == |lines|
  {
    seq(|lines|, i requires 0 <= i < |lines| =>
      if HasNum(lines[i], Id) then lines[i][Id].n % 0x1_0000_0000 else 0)
  }

  lemma IdsSpelled(lines: seq<Object>)
    requires forall i :: 0 <= i < |lines| ==> IdLine(lines[i])
    ensures Ids(lines) == LineIds(lines)
  {
  }
}
