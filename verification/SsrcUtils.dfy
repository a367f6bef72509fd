/** The SSRC bookkeeping of Sdp::Utils: reading encodings from an offer, rewriting an offer to
    legacy simulcast, and reading the CNAME. */
module SsrcUtils {
  import opened Text
  import opened Json
  import opened SdpText
  import opened RtpTypes

  datatype Result<+T> = Ok(value: T) | Err(message: string)

  /** get<uint32_t>() and uint32_t arithmetic. */
  function U32(n: int): nat {
    n % TWO_32
  }

  // ----- getRtpEncodings -----

  predicate IdLine(line: Object) {
    HasNum(line, Id)
  }

  function IdOf(line: Object): nat
    requires IdLine(line)
  {
    U32(line[Id].n)
  }

  function Ids(lines: seq<Object>): (ids: seq<nat>)
    requires forall i :: 0 <= i < |lines| ==> IdLine(lines[i])
    ensures |ids| == |lines|
  {
    seq(|lines|, i requires 0 <= i < |lines| => IdOf(lines[i]))
  }

  /** std::list::unique drops a value that equals its predecessor. */
  function Unique(ids: seq<nat>): seq<nat> {
    if |ids| < 2 then ids
    else
      var u := Unique(ids[..|ids| - 1]);
      if ids[|ids| - 1] == ids[|ids| - 2] then u else u + [ids[|ids| - 1]]
  }

  /** std::list::remove */
  function Remove(ids: seq<nat>, x: nat): seq<nat> {
    if ids == [] then []
    else
      var u := Remove(ids[..|ids| - 1], x);
      if ids[|ids| - 1] == x then u else u + [ids[|ids| - 1]]
  }

  predicate GroupLine(line: Object) {
    HasStr(line, Semantics) && HasStr(line, Ssrcs)
  }

  /** A FID line names two SSRCs. */
  predicate FidLine(line: Object) {
    GroupLine(line) && (line[Semantics].s == "FID" ==> |Split(line[Ssrcs].s, ' ')| >= 2)
  }

  /** The pair of a FID line; None when a number cannot be read. */
  function FidPair(line: Object): Option<(nat, nat)>
    requires FidLine(line) && line[Semantics].s == "FID"
  {
    var v := Split(line[Ssrcs].s, ' ');
    var a, b := Stoull(v[0]), Stoull(v[1]);
    if a.Some? && b.Some? then Some((U32(a.value), U32(b.value))) else None
  }

  predicate FidLines(lines: seq<Object>) {
    forall i :: 0 <= i < |lines| ==> FidLine(lines[i])
  }

  function FidPairs(lines: seq<Object>): Option<seq<(nat, nat)>>
    requires FidLines(lines)
  {
    if lines == [] then Some([])
    else
      var line := lines[|lines| - 1];
      var before := FidPairs(lines[..|lines| - 1]);
      if before.None? || line[Semantics].s != "FID" then before
      else
        var pair := FidPair(line);
        if pair.Some? then Some(before.value + [pair.value]) else None
  }

  function RemoveRtx(ids: seq<nat>, pairs: seq<(nat, nat)>): seq<nat> {
    if pairs == [] then ids else Remove(RemoveRtx(ids, pairs[..|pairs| - 1]), pairs[|pairs| - 1].1)
  }

  /** std::map filled pair by pair: the last pair of an SSRC wins. */
  function RtxMap(pairs: seq<(nat, nat)>): map<nat, nat> {
    if pairs == [] then map[] else RtxMap(pairs[..|pairs| - 1])[pairs[|pairs| - 1].0 := pairs[|pairs| - 1].1]
  }

  function EncodingOf(ssrc: nat, rtx: map<nat, nat>): EncodingParameters {
    EncodingParameters(Some(ssrc), if ssrc in rtx then Some(rtx[ssrc]) else None)
  }

  function Encodings(ssrcs: seq<nat>, rtx: map<nat, nat>): (r: seq<EncodingParameters>)
    ensures |r| == |ssrcs|
  {
    seq(|ssrcs|, i requires 0 <= i < |ssrcs| => EncodingOf(ssrcs[i], rtx))
  }

  /** What the code demands of an offer's SSRC members. */
  predicate ReadableOffer(offer: Object) {
    && HasArr(offer, Ssrcs) && (forall i :: 0 <= i < |offer[Ssrcs].items| ==> IdLine(offer[Ssrcs].items[i]))
    && (SsrcGroups in offer ==> offer[SsrcGroups].Arr? && FidLines(offer[SsrcGroups].items))
  }

  function GroupsOf(offer: Object): seq<Object> {
    ItemsOf(Look(offer, SsrcGroups))
  }

  function RtpEncodings(offer: Object): Result<seq<EncodingParameters>>
    requires ReadableOffer(offer)
  {
    var ids := Ids(offer[Ssrcs].items);
    if ids == [] then Err("no a=ssrc lines found")
    else
      var pairs := FidPairs(GroupsOf(offer));
      if pairs.None? then Err("invalid number")
      else Ok(Encodings(RemoveRtx(Unique(ids), pairs.value), RtxMap(pairs.value)))
  }

  method CollectIds(lines: seq<Object>) returns (ssrcs: seq<nat>)
    requires forall i :: 0 <= i < |lines| ==> IdLine(lines[i])
    ensures ssrcs == Ids(lines)
  {
    hide IdLine, IdOf;
    ssrcs := [];
    for i := 0 to |lines|
      invariant ssrcs == Ids(lines)[..i]
    {
      ssrcs := ssrcs + [IdOf(lines[i])];
    }
    assert Ids(lines)[..|lines|] == Ids(lines);
  }

  method EncodeAll(ssrcs: seq<nat>, rtx: map<nat, nat>) returns (encodings: seq<EncodingParameters>)
    ensures encodings == Encodings(ssrcs, rtx)
  {
    hide EncodingOf;
    encodings := [];
    for i := 0 to |ssrcs|
      invariant encodings == Encodings(ssrcs, rtx)[..i]
    {
      encodings := encodings + [EncodingOf(ssrcs[i], rtx)];
    }
    assert Encodings(ssrcs, rtx)[..|ssrcs|] == Encodings(ssrcs, rtx);
  }

  /** getRtpEncodings */
  method GetRtpEncodings(offer: Object) returns (r: Result<seq<EncodingParameters>>)
    requires ReadableOffer(offer)
    ensures r == RtpEncodings(offer)
  {
    hide Ids, Encodings, FidPair, Unique, Remove, IdLine;
    var ssrcs := CollectIds(offer[Ssrcs].items);
    ghost var lines := offer[Ssrcs].items;
    if ssrcs == [] {
      return Err("no a=ssrc lines found");
    }
    ssrcs := DropRepeats(ssrcs);
    var rtx: map<nat, nat> := map[];
    var groups := GroupsOf(offer);
    ghost var pairs: seq<(nat, nat)> := [];
    for i := 0 to |groups|
      invariant FidPairs(groups[..i]) == Some(pairs)
      invariant ssrcs == RemoveRtx(Unique(Ids(lines)), pairs) && rtx == RtxMap(pairs)
    {
      assert groups[..i + 1][..i] == groups[..i];
      if groups[i][Semantics].s == "FID" {
        var pair := FidPair(groups[i]);
        if pair.None? {
          FidPairsFail(groups, i + 1);
          return Err("invalid number");
        }
        assert (pairs + [pair.value])[..|pairs|] == pairs;
        ssrcs := Remove(ssrcs, pair.value.1);
        rtx := rtx[pair.value.0 := pair.value.1];
        pairs := pairs + [pair.value];
      }
    }
    assert groups[..|groups|] == groups;
    var encodings := EncodeAll(ssrcs, rtx);
    r := Ok(encodings);
  }

  method DropRepeats(ids: seq<nat>) returns (u: seq<nat>)
    ensures u == Unique(ids)
  {
    if |ids| < 2 {
      return ids;
    }
    u := ids[..1];
    for i := 1 to |ids|
      invariant u == Unique(ids[..i])
    {
      assert ids[..i + 1][..i] == ids[..i];
      if ids[i] != ids[i - 1] {
        u := u + [ids[i]];
      }
    }
    assert ids[..|ids|] == ids;
  }

  lemma {:induction false} FidPairsFail(lines: seq<Object>, i: nat)
    requires FidLines(lines) && i <= |lines| && FidPairs(lines[..i]).None?
    ensures FidPairs(lines).None?
    decreases |lines| - i
  {
    if i < |lines| {
      assert lines[..i + 1][..i] == lines[..i];
      FidPairsFail(lines, i + 1);
    } else {
      assert lines[..i] == lines;
    }
  }

  // ----- getCname -----

  predicate HasAttribute(line: Object) {
    HasStr(line, Attribute)
  }

  /** Index of the first line that has a string attribute, or |lines|. */
  function FirstAttribute(lines: seq<Object>): nat {
    if lines == [] || HasAttribute(lines[0]) then 0 else 1 + FirstAttribute(lines[1..])
  }

  /** getCname: the value of the first line with any string attribute. */
  function Cname(offer: Object): string {
    var lines := ItemsOf(Look(offer, Ssrcs));
    var i := FirstAttribute(lines);
    if i < |lines| && HasStr(lines[i], Value) then lines[i][Value].s else ""
  }

  // ----- addLegacySimulcast -----

  function FindLine(lines: seq<Object>, attribute: string, withId: bool): (i: nat)
    ensures i <= |lines|
    ensures i < |lines| ==>
      HasStr(lines[i], Attribute) && lines[i][Attribute].s == attribute
      && (withId ==> HasNum(lines[i], Id))
  {
    if lines == [] then 0
    else if HasStr(lines[0], Attribute) && lines[0][Attribute].s == attribute
      && (withId ==> HasNum(lines[0], Id)) then 0
    else 1 + FindLine(lines[1..], attribute, withId)
  }

  /** The RTX SSRC of the first group, of whatever semantics, that starts with `ssrc`; 0 if
      there is none. */
  function FirstRtx(groups: seq<Object>, ssrc: nat): Result<nat>
    requires forall i :: 0 <= i < |groups| && GroupLine(groups[i]) ==> |Split(groups[i][Ssrcs].s, ' ')| >= 2
  {
    if groups == [] then Ok(0)
    else if !GroupLine(groups[0]) then FirstRtx(groups[1..], ssrc)
    else
      var v := Split(groups[0][Ssrcs].s, ' ');
      match Stoull(v[0])
      case None => Err("invalid number")
      case Some(a) =>
        if a != ssrc then FirstRtx(groups[1..], ssrc)
        else match Stoull(v[1]) {
          case None => Err("invalid number")
          case Some(b) => Ok(U32(b))
        }
  }

  function SsrcLine(ssrc: nat, attribute: string, value: string): Object {
    map[Id := Num(ssrc), Attribute := Str(attribute), Value := Str(value)]
  }

  function GroupOf(semantics: string, ssrcs: string): Object {
    map[Semantics := Str(semantics), Ssrcs := Str(ssrcs)]
  }

  function FidText(ssrc: nat, rtx: nat): string {
    Digits(ssrc) + (" " + Digits(rtx))
  }

  function Nth(first: nat, i: nat): nat {
    U32(first + i)
  }

  /** first, first + 1, ... in 32-bit arithmetic. */
  function Range(first: nat, n: nat): (r: seq<nat>)
    ensures |r| == n && forall i :: 0 <= i < n ==> r[i] == Nth(first, i)
  {
    if n == 0 then [] else Range(first, n - 1) + [Nth(first, n - 1)]
  }

  function DigitTexts(ssrcs: seq<nat>): (r: seq<string>)
    ensures |r| == |ssrcs|
  {
    seq(|ssrcs|, i requires 0 <= i < |ssrcs| => Digits(ssrcs[i]))
  }

  /** A cname line and an msid line per SSRC. */
  function LinePairs(ssrcs: seq<nat>, cname: string, msid: string): seq<Object> {
    if ssrcs == [] then []
    else
      var s := ssrcs[|ssrcs| - 1];
      LinePairs(ssrcs[..|ssrcs| - 1], cname, msid) + [SsrcLine(s, "cname", cname), SsrcLine(s, "msid", msid)]
  }

  function FidGroups(ssrcs: seq<nat>, rtxs: seq<nat>): seq<Object>
    requires |rtxs| <= |ssrcs|
  {
    seq(|rtxs|, i requires 0 <= i < |rtxs| => GroupOf("FID", FidText(ssrcs[i], rtxs[i])))
  }

  function RtxRange(rtx: nat, n: nat): seq<nat> {
    if rtx == 0 then [] else Range(rtx, n)
  }

  /** The offer with its SSRC members rewritten for `n` streams. */
  function SimulcastOffer(offer: Object, first: nat, rtx: nat, n: nat, cname: string, msid: string): Object {
    var ssrcs, rtxs := Range(first, n), RtxRange(rtx, n);
    offer[SsrcGroups := Arr([GroupOf("SIM", Join(DigitTexts(ssrcs), ' '))] + FidGroups(ssrcs, rtxs))]
         [Ssrcs := Arr(LinePairs(ssrcs, cname, msid) + LinePairs(rtxs, cname, msid))]
  }

  /** What the code demands: string values, a numeric msid id, two tokens per msid and group. */
  predicate SimulcastReady(offer: Object) {
    var lines := ItemsOf(Look(offer, Ssrcs));
    && (forall i :: 0 <= i < |lines| && HasStr(lines[i], Attribute) && lines[i][Attribute].s in {"msid", "cname"} ==>
          HasStr(lines[i], Value) && HasNum(lines[i], Id)
          && (lines[i][Attribute].s == "msid" ==> |Split(lines[i][Value].s, ' ')| >= 2))
    && (forall i :: 0 <= i < |GroupsOf(offer)| && GroupLine(GroupsOf(offer)[i]) ==>
          |Split(GroupsOf(offer)[i][Ssrcs].s, ' ')| >= 2)
  }

  function LegacySimulcast(offer: Object, n: nat): Result<Object>
    requires SimulcastReady(offer)
  {
    if n <= 1 then Ok(offer)
    else
      var lines := ItemsOf(Look(offer, Ssrcs));
      var m := FindLine(lines, "msid", false);
      if m == |lines| then Err("a=ssrc line with msid information not found")
      else
        var v := Split(lines[m][Value].s, ' ');
        var first := U32(lines[m][Id].n);
        var rtx := FirstRtx(GroupsOf(offer), first);
        if rtx.Err? then Err(rtx.message)
        else
          var c := FindLine(lines, "cname", true);
          if c == |lines| then Err("CNAME line not found")
          else Ok(SimulcastOffer(offer, first, rtx.value, n, lines[c][Value].s, v[0] + (" " + v[1])))
  }

  /** addLegacySimulcast; the stream count is a uint8_t. */
  method AddLegacySimulcast(offer: Object, n: nat) returns (r: Result<Object>)
    requires SimulcastReady(offer) && n < 256
    ensures r == LegacySimulcast(offer, n)
  {
    if n <= 1 {
      return Ok(offer);
    }
    var lines := ItemsOf(Look(offer, Ssrcs));
    var m := FindLine(lines, "msid", false);
    if m == |lines| {
      return Err("a=ssrc line with msid information not found");
    }
    var v := SplitTokens(lines[m][Value].s, ' ');
    var first := U32(lines[m][Id].n);
    var rtx := FirstRtx(GroupsOf(offer), first);
    if rtx.Err? {
      return Err(rtx.message);
    }
    var c := FindLine(lines, "cname", true);
    if c == |lines| {
      return Err("CNAME line not found");
    }
    var cname, msid := lines[c][Value].s, v[0] + (" " + v[1]);
    var ssrcs, rtxs := NumberStreams(first, rtx.value, n);
    var line := JoinTokens(DigitTexts(ssrcs), ' ');
    var lines1 := PairLines(ssrcs, cname, msid);
    var lines2 := PairLines(rtxs, cname, msid);
    var groups := PairGroups(ssrcs, rtxs);
    r := Ok(offer[SsrcGroups := Arr([GroupOf("SIM", line)] + groups)][Ssrcs := Arr(lines1 + lines2)]);
  }

  method NumberStreams(first: nat, rtx: nat, n: nat) returns (ssrcs: seq<nat>, rtxs: seq<nat>)
    ensures ssrcs == Range(first, n) && rtxs == RtxRange(rtx, n)
  {
    ssrcs, rtxs := [], [];
    for i := 0 to n
      invariant ssrcs == Range(first, i) && rtxs == RtxRange(rtx, i)
    {
      ssrcs := ssrcs + [Nth(first, i)];
      if rtx != 0 {
        rtxs := rtxs + [Nth(rtx, i)];
      }
    }
  }

  method PairLines(ssrcs: seq<nat>, cname: string, msid: string) returns (lines: seq<Object>)
    ensures lines == LinePairs(ssrcs, cname, msid)
  {
    lines := [];
    for i := 0 to |ssrcs|
      invariant lines == LinePairs(ssrcs[..i], cname, msid)
    {
      assert ssrcs[..i + 1][..i] == ssrcs[..i];
      lines := lines + [SsrcLine(ssrcs[i], "cname", cname), SsrcLine(ssrcs[i], "msid", msid)];
    }
    assert ssrcs[..|ssrcs|] == ssrcs;
  }

  method PairGroups(ssrcs: seq<nat>, rtxs: seq<nat>) returns (groups: seq<Object>)
    requires |rtxs| <= |ssrcs|
    ensures groups == FidGroups(ssrcs, rtxs)
  {
    groups := [];
    for i := 0 to |rtxs|
      invariant |groups| == i && forall j :: 0 <= j < i ==> groups[j] == GroupOf("FID", FidText(ssrcs[j], rtxs[j]))
    {
      groups := groups + [GroupOf("FID", FidText(ssrcs[i], rtxs[i]))];
    }
  }

  // ----- the round trip -----

  function Doubled(ids: seq<nat>): seq<nat> {
    if ids == [] then [] else Doubled(ids[..|ids| - 1]) + [ids[|ids| - 1], ids[|ids| - 1]]
  }

  predicate AdjacentDistinct(ids: seq<nat>) {
    forall i :: 0 < i < |ids| ==> ids[i - 1] != ids[i]
  }

  lemma {:induction false} UniqueOfDoubled(ids: seq<nat>)
    requires AdjacentDistinct(ids)
    ensures Unique(Doubled(ids)) == ids
    ensures ids != [] ==> Doubled(ids) != [] && Doubled(ids)[|Doubled(ids)| - 1] == ids[|ids| - 1]
  {
    hide Unique, Doubled;
    if ids == [] {
      NothingDoubled();
    } else {
      var n := |ids| - 1;
      var d, x := Doubled(ids[..n]), ids[n];
      assert n > 0 ==> ids[..n][n - 1] == ids[n - 1];
      UniqueOfDoubled(ids[..n]);
      if n == 0 {
        assert ids[..n] == [];
        NothingDoubled();
      }
      UniqueSnoc(d, x);
      UniqueSnoc(d + [x], x);
      DoubledSnoc(ids[..n], x);
      assert ids == ids[..n] + [x];
    }
  }

  lemma NothingDoubled()
    ensures Doubled([]) == [] && Unique([]) == []
  {
  }

  lemma DoubledSnoc(ids: seq<nat>, x: nat)
    ensures Doubled(ids + [x]) == (Doubled(ids) + [x]) + [x]
  {
    assert (ids + [x])[..|ids|] == ids;
  }

  lemma UniqueSnoc(d: seq<nat>, x: nat)
    ensures Unique(d + [x]) == if d != [] && d[|d| - 1] == x then Unique(d) else Unique(d) + [x]
  {
    assert (d + [x])[..|d|] == d;
  }

  lemma {:induction false} LinePairsIds(ssrcs: seq<nat>, cname: string, msid: string)
    requires forall i :: 0 <= i < |ssrcs| ==> ssrcs[i] < TWO_32
    ensures var lines := LinePairs(ssrcs, cname, msid);
      (forall i :: 0 <= i < |lines| ==> IdLine(lines[i])) && Ids(lines) == Doubled(ssrcs)
  {
    hide IdLine, IdOf, SsrcLine;
    if ssrcs != [] {
      var n := |ssrcs| - 1;
      LinePairsIds(ssrcs[..n], cname, msid);
      LineIds(ssrcs[n], cname, msid);
      assert Ids(LinePairs(ssrcs, cname, msid)) == Ids(LinePairs(ssrcs[..n], cname, msid)) + [ssrcs[n], ssrcs[n]];
    }
  }

  lemma LineIds(ssrc: nat, cname: string, msid: string)
    requires ssrc < TWO_32
    ensures var a, b := SsrcLine(ssrc, "cname", cname), SsrcLine(ssrc, "msid", msid);
      IdLine(a) && IdLine(b) && IdOf(a) == IdOf(b) == ssrc
  {
  }

  lemma {:induction false} DoubledConcat(a: seq<nat>, b: seq<nat>)
    ensures Doubled(a + b) == Doubled(a) + Doubled(b)
  {
    if b == [] {
      assert a + b == a;
    } else {
      assert (a + b)[..|a + b| - 1] == a + b[..|b| - 1];
      DoubledConcat(a, b[..|b| - 1]);
    }
  }

  /** The pairs the FID lines stand for. */
  function Zip(ssrcs: seq<nat>, rtxs: seq<nat>): (pairs: seq<(nat, nat)>)
    requires |rtxs| <= |ssrcs|
    ensures |pairs| == |rtxs|
  {
    seq(|rtxs|, i requires 0 <= i < |rtxs| => (ssrcs[i], rtxs[i]))
  }

  lemma StoullDigits(n: nat)
    requires n < TWO_32
    ensures Stoull(Digits(n)) == Some(n)
  {
    hide Digits;
    ReadIntegerDigits(n);
  }

  lemma FidTextTokens(a: nat, b: nat)
    ensures Split(FidText(a, b), ' ') == [Digits(a), Digits(b)]
  {
    hide Digits, Split;
    assert ' ' !in Digits(a) && ' ' !in Digits(b);
    SplitToken(Digits(a), Digits(b), ' ');
    SplitToken(Digits(b), "", ' ');
    assert [Digits(a)] + [Digits(b)] == [Digits(a), Digits(b)];
  }

  lemma FidTextReads(a: nat, b: nat)
    requires a < TWO_32 && b < TWO_32
    ensures FidLine(GroupOf("FID", FidText(a, b))) && FidPair(GroupOf("FID", FidText(a, b))) == Some((a, b))
  {
    hide Digits, Split, FidText, Stoull;
    FidTextTokens(a, b);
    StoullDigits(a);
    StoullDigits(b);
  }

  predicate Small(ids: seq<nat>) {
    forall i :: 0 <= i < |ids| ==> ids[i] < TWO_32
  }

  lemma {:induction false} FidGroupsRead(sim: Object, ssrcs: seq<nat>, rtxs: seq<nat>)
    requires GroupLine(sim) && sim[Semantics].s != "FID"
    requires |rtxs| <= |ssrcs| && Small(ssrcs) && Small(rtxs)
    ensures var groups := [sim] + FidGroups(ssrcs, rtxs);
      FidLines(groups) && FidPairs(groups) == Some(Zip(ssrcs, rtxs))
  {
    hide FidLine, FidPair, GroupOf, FidText;
    var groups := [sim] + FidGroups(ssrcs, rtxs);
    if rtxs == [] {
      assert groups == [sim] && groups[..0] == [];
      assert FidLine(sim) by {
        FidLineOther(sim);
      }
    } else {
      var n := |rtxs| - 1;
      FidGroupsRead(sim, ssrcs, rtxs[..n]);
      FidTextReads(ssrcs[n], rtxs[n]);
      GroupSemantics(FidText(ssrcs[n], rtxs[n]));
      assert groups[..n + 1] == [sim] + FidGroups(ssrcs, rtxs[..n]);
      assert groups[n + 1] == GroupOf("FID", FidText(ssrcs[n], rtxs[n]));
      assert Zip(ssrcs, rtxs) == Zip(ssrcs, rtxs[..n]) + [(ssrcs[n], rtxs[n])];
    }
  }

  lemma FidLineOther(line: Object)
    requires GroupLine(line) && line[Semantics].s != "FID"
    ensures FidLine(line)
  {
  }

  lemma GroupSemantics(text: string)
    ensures GroupLine(GroupOf("FID", text)) && GroupOf("FID", text)[Semantics].s == "FID"
  {
  }

  // ----- removing the RTX SSRCs -----

  function Kept(ids: seq<nat>, out: set<nat>): seq<nat> {
    if ids == [] then []
    else
      var k := Kept(ids[..|ids| - 1], out);
      if ids[|ids| - 1] in out then k else k + [ids[|ids| - 1]]
  }

  lemma {:induction false} RemoveFromKept(ids: seq<nat>, out: set<nat>, x: nat)
    ensures Remove(Kept(ids, out), x) == Kept(ids, out + {x})
  {
    if ids != [] {
      var n := |ids| - 1;
      RemoveFromKept(ids[..n], out, x);
      var k := Kept(ids[..n], out);
      assert (k + [ids[n]])[..|k|] == k;
    }
  }

  function Seconds(pairs: seq<(nat, nat)>): set<nat> {
    set i | 0 <= i < |pairs| :: pairs[i].1
  }

  lemma {:induction false} KeepAll(ids: seq<nat>)
    ensures Kept(ids, {}) == ids
  {
    if ids != [] {
      KeepAll(ids[..|ids| - 1]);
    }
  }

  lemma {:induction false} RemoveRtxKeeps(ids: seq<nat>, pairs: seq<(nat, nat)>)
    ensures RemoveRtx(ids, pairs) == Kept(ids, Seconds(pairs))
  {
    if pairs == [] {
      KeepAll(ids);
      assert Seconds(pairs) == {};
    } else {
      var n := |pairs| - 1;
      RemoveRtxKeeps(ids, pairs[..n]);
      RemoveFromKept(ids, Seconds(pairs[..n]), pairs[n].1);
      assert Seconds(pairs) == Seconds(pairs[..n]) + {pairs[n].1} by {
        forall x | x in Seconds(pairs)
          ensures x in Seconds(pairs[..n]) + {pairs[n].1}
        {
          var i :| 0 <= i < |pairs| && pairs[i].1 == x;
          assert i < n ==> pairs[..n][i].1 == x;
        }
        forall x | x in Seconds(pairs[..n])
          ensures x in Seconds(pairs)
        {
          var i :| 0 <= i < n && pairs[..n][i].1 == x;
          assert pairs[i].1 == x;
        }
      }
    }
  }

  lemma {:induction false} KeptConcat(a: seq<nat>, b: seq<nat>, out: set<nat>)
    requires forall i :: 0 <= i < |a| ==> a[i] !in out
    requires forall i :: 0 <= i < |b| ==> b[i] in out
    ensures Kept(a + b, out) == a
  {
    if b != [] {
      assert (a + b)[..|a + b| - 1] == a + b[..|b| - 1];
      KeptConcat(a, b[..|b| - 1], out);
    } else if a != [] {
      assert a + b == a;
      KeptConcat(a[..|a| - 1], [], out);
      assert a[..|a| - 1] + [] == a[..|a| - 1];
    }
  }

  lemma {:induction false} KeptExcludes(ids: seq<nat>, out: set<nat>)
    ensures forall i :: 0 <= i < |Kept(ids, out)| ==> Kept(ids, out)[i] !in out
  {
    if ids != [] {
      KeptExcludes(ids[..|ids| - 1], out);
    }
  }

  // ----- the RTX map -----

  lemma {:induction false} RtxMapAt(pairs: seq<(nat, nat)>, i: nat)
    requires i < |pairs| && forall j, k :: 0 <= j < k < |pairs| ==> pairs[j].0 != pairs[k].0
    ensures pairs[i].0 in RtxMap(pairs) && RtxMap(pairs)[pairs[i].0] == pairs[i].1
  {
    if i < |pairs| - 1 {
      RtxMapAt(pairs[..|pairs| - 1], i);
    }
  }

  // ----- legacy simulcast -----

  /** The two SSRC ranges have no number in common modulo 2^32. */
  predicate DisjointRanges(first: nat, rtx: nat, n: nat) {
    rtx != 0 ==> forall i, j :: 0 <= i < n && 0 <= j < n ==> Nth(first, i) != Nth(rtx, j)
  }

  function StreamEncodings(first: nat, rtx: nat, n: nat): (r: seq<EncodingParameters>)
    ensures |r| == n
  {
    seq(n, i requires 0 <= i < n => EncodingParameters(Some(Nth(first, i)), if rtx == 0 then None
      else Some(Nth(rtx, i))))
  }

  lemma RangeDistinct(first: nat, n: nat)
    requires n < 256
    ensures Small(Range(first, n)) && forall i, j :: 0 <= i < j < n ==> Range(first, n)[i] != Range(first, n)[j]
  {
  }

  lemma RewrittenIds(ssrcs: seq<nat>, rtxs: seq<nat>, cname: string, msid: string)
    requires Small(ssrcs) && Small(rtxs)
    ensures var lines := LinePairs(ssrcs, cname, msid) + LinePairs(rtxs, cname, msid);
      (forall i :: 0 <= i < |lines| ==> IdLine(lines[i])) && Ids(lines) == Doubled(ssrcs + rtxs)
  {
    hide LinePairs, IdLine, IdOf, Doubled;
    LinePairsIds(ssrcs, cname, msid);
    LinePairsIds(rtxs, cname, msid);
    var a, b := LinePairs(ssrcs, cname, msid), LinePairs(rtxs, cname, msid);
    assert Ids(a + b) == Ids(a) + Ids(b);
    DoubledConcat(ssrcs, rtxs);
  }

  lemma RtxRangeSmall(rtx: nat, n: nat)
    requires n < 256
    ensures Small(RtxRange(rtx, n)) && |RtxRange(rtx, n)| <= n
  {
    RangeDistinct(rtx, n);
  }

  /** The SSRC members of a rewritten offer, in the reader's terms. */
  lemma SimulcastMembers(offer: Object, first: nat, rtx: nat, n: nat, cname: string, msid: string)
    requires n < 256
    ensures var out := SimulcastOffer(offer, first, rtx, n, cname, msid);
      var ssrcs, rtxs := Range(first, n), RtxRange(rtx, n);
      && ReadableOffer(out) && Ids(out[Ssrcs].items) == Doubled(ssrcs + rtxs)
      && FidPairs(GroupsOf(out)) == Some(Zip(ssrcs, rtxs))
  {
    hide LinePairs, FidGroups, FidLine, IdLine, Range, RtxRange, FidPairs, Ids, Doubled, GroupOf, Join;
    var ssrcs, rtxs := Range(first, n), RtxRange(rtx, n);
    RangeDistinct(first, n);
    RtxRangeSmall(rtx, n);
    RewrittenIds(ssrcs, rtxs, cname, msid);
    SimGroup(Join(DigitTexts(ssrcs), ' '));
    FidGroupsRead(GroupOf("SIM", Join(DigitTexts(ssrcs), ' ')), ssrcs, rtxs);
  }

  lemma SimGroup(text: string)
    ensures GroupLine(GroupOf("SIM", text)) && GroupOf("SIM", text)[Semantics].s != "FID"
  {
  }

  /** What is read back are the streams in order, exactly when the ranges are disjoint. */
  lemma SimulcastRoundTrip(offer: Object, first: nat, rtx: nat, n: nat, cname: string, msid: string)
    requires 2 <= n < 256
    ensures var out := SimulcastOffer(offer, first, rtx, n, cname, msid);
      && ReadableOffer(out)
      && (RtpEncodings(out) == Ok(StreamEncodings(first, rtx, n)) <==> DisjointRanges(first, rtx, n))
  {
    hide SimulcastOffer, Ids, FidPairs, ReadableOffer, Unique, Doubled;
    var out := SimulcastOffer(offer, first, rtx, n, cname, msid);
    var ssrcs, rtxs := Range(first, n), RtxRange(rtx, n);
    SimulcastMembers(offer, first, rtx, n, cname, msid);
    DoubledNonEmpty(ssrcs + rtxs);
    RemoveRtxKeeps(Unique(Doubled(ssrcs + rtxs)), Zip(ssrcs, rtxs));
    if DisjointRanges(first, rtx, n) {
      DisjointStreams(first, rtx, n);
    } else {
      OverlappingStreams(first, rtx, n);
    }
  }

  lemma DoubledNonEmpty(ids: seq<nat>)
    requires ids != []
    ensures Doubled(ids) != []
  {
  }

  lemma ZipSeconds(ssrcs: seq<nat>, rtxs: seq<nat>)
    requires |rtxs| <= |ssrcs|
    ensures Seconds(Zip(ssrcs, rtxs)) == set i | 0 <= i < |rtxs| :: rtxs[i]
  {
    forall x | x in Seconds(Zip(ssrcs, rtxs))
      ensures x in set i | 0 <= i < |rtxs| :: rtxs[i]
    {
      var i :| 0 <= i < |rtxs| && Zip(ssrcs, rtxs)[i].1 == x;
      assert rtxs[i] == x;
    }
    forall i | 0 <= i < |rtxs|
      ensures rtxs[i] in Seconds(Zip(ssrcs, rtxs))
    {
      assert Zip(ssrcs, rtxs)[i].1 == rtxs[i];
    }
  }

  lemma DisjointStreams(first: nat, rtx: nat, n: nat)
    requires 2 <= n < 256 && DisjointRanges(first, rtx, n)
    ensures var ssrcs, rtxs := Range(first, n), RtxRange(rtx, n); var pairs := Zip(ssrcs, rtxs);
      Encodings(Kept(Unique(Doubled(ssrcs + rtxs)), Seconds(pairs)), RtxMap(pairs)) == StreamEncodings(first, rtx, n)
  {
    hide Kept, Unique, Doubled, RtxMap, Range, Seconds;
    var ssrcs, rtxs := Range(first, n), RtxRange(rtx, n);
    var pairs := Zip(ssrcs, rtxs);
    RangeDistinct(first, n);
    RangeDistinct(rtx, n);
    forall i | 0 < i < |ssrcs + rtxs|
      ensures (ssrcs + rtxs)[i - 1] != (ssrcs + rtxs)[i]
    {
      if i == n {
        assert Nth(first, n - 1) != Nth(rtx, 0);
      }
    }
    UniqueOfDoubled(ssrcs + rtxs);
    ZipSeconds(ssrcs, rtxs);
    forall i | 0 <= i < |ssrcs|
      ensures ssrcs[i] !in Seconds(pairs)
    {
      assert forall j :: 0 <= j < |rtxs| ==> rtxs[j] != ssrcs[i];
    }
    KeptConcat(ssrcs, rtxs, Seconds(pairs));
    StreamMap(first, rtx, n);
  }

  lemma StreamMap(first: nat, rtx: nat, n: nat)
    requires n < 256
    ensures var ssrcs, rtxs := Range(first, n), RtxRange(rtx, n);
      Encodings(ssrcs, RtxMap(Zip(ssrcs, rtxs))) == StreamEncodings(first, rtx, n)
  {
    hide RtxMap, Range;
    var ssrcs, rtxs := Range(first, n), RtxRange(rtx, n);
    RangeDistinct(first, n);
    if rtx == 0 {
      EmptyMap();
    } else {
      forall i | 0 <= i < n
        ensures ssrcs[i] in RtxMap(Zip(ssrcs, rtxs)) && RtxMap(Zip(ssrcs, rtxs))[ssrcs[i]] == Nth(rtx, i)
      {
        RtxMapAt(Zip(ssrcs, rtxs), i);
      }
    }
  }

  lemma EmptyMap()
    ensures RtxMap([]) == map[]
  {
  }

  lemma OverlappingStreams(first: nat, rtx: nat, n: nat)
    requires 2 <= n < 256 && !DisjointRanges(first, rtx, n)
    ensures var ssrcs, rtxs := Range(first, n), RtxRange(rtx, n); var pairs := Zip(ssrcs, rtxs);
      Encodings(Kept(Unique(Doubled(ssrcs + rtxs)), Seconds(pairs)), RtxMap(pairs)) != StreamEncodings(first, rtx, n)
  {
    hide Kept, Unique, Doubled, RtxMap, Range, Seconds;
    var ssrcs, rtxs := Range(first, n), RtxRange(rtx, n);
    var pairs := Zip(ssrcs, rtxs);
    var i, j :| 0 <= i < n && 0 <= j < n && Nth(first, i) == Nth(rtx, j);
    ZipSeconds(ssrcs, rtxs);
    assert rtxs[j] in Seconds(pairs);
    var kept := Kept(Unique(Doubled(ssrcs + rtxs)), Seconds(pairs));
    KeptExcludes(Unique(Doubled(ssrcs + rtxs)), Seconds(pairs));
    var got := Encodings(kept, RtxMap(pairs));
    if |kept| == n {
      assert kept[i] != rtxs[j];
      assert got[i].ssrc != StreamEncodings(first, rtx, n)[i].ssrc;
    }
  }

  /** addLegacySimulcast, then getRtpEncodings and getCname. */
  lemma LegacySimulcastRoundTrip(offer: Object, n: nat)
    requires SimulcastReady(offer) && 2 <= n < 256 && LegacySimulcast(offer, n).Ok?
    ensures var out, lines := LegacySimulcast(offer, n).value, ItemsOf(Look(offer, Ssrcs));
      var m, c := FindLine(lines, "msid", false), FindLine(lines, "cname", true);
      && m < |lines| && c < |lines| && HasStr(lines[c], Value) && HasNum(lines[m], Id)
      && var first := U32(lines[m][Id].n); var rtx := FirstRtx(GroupsOf(offer), first);
      && rtx.Ok? && ReadableOffer(out)
      && (RtpEncodings(out) == Ok(StreamEncodings(first, rtx.value, n)) <==> DisjointRanges(first, rtx.value, n))
      && Cname(out) == lines[c][Value].s
      && (FirstAttribute(lines) == c ==> Cname(out) == Cname(offer))
  {
    hide SimulcastOffer, RtpEncodings, ReadableOffer, FirstRtx, Split;
    var lines := ItemsOf(Look(offer, Ssrcs));
    var m, c := FindLine(lines, "msid", false), FindLine(lines, "cname", true);
    var first := U32(lines[m][Id].n);
    var rtx := FirstRtx(GroupsOf(offer), first).value;
    var v := Split(lines[m][Value].s, ' ');
    SimulcastRoundTrip(offer, first, rtx, n, lines[c][Value].s, v[0] + (" " + v[1]));
    SimulcastCname(offer, first, rtx, n, lines[c][Value].s, v[0] + (" " + v[1]));
  }

  lemma SimulcastCname(offer: Object, first: nat, rtx: nat, n: nat, cname: string, msid: string)
    requires n >= 1
    ensures Cname(SimulcastOffer(offer, first, rtx, n, cname, msid)) == cname
  {
    hide LinePairs, FidGroups, Range, SsrcLine;
    var a, b := LinePairs(Range(first, n), cname, msid), LinePairs(RtxRange(rtx, n), cname, msid);
    LinePairsStart(Range(first, n), cname, msid);
    CnameOfFirst(SimulcastOffer(offer, first, rtx, n, cname, msid), Range(first, n)[0], cname);
  }

  lemma CnameOfFirst(offer: Object, ssrc: nat, cname: string)
    requires HasArr(offer, Ssrcs) && offer[Ssrcs].items != [] && offer[Ssrcs].items[0] == SsrcLine(ssrc, "cname", cname)
    ensures Cname(offer) == cname
  {
  }

  lemma {:induction false} LinePairsStart(ssrcs: seq<nat>, cname: string, msid: string)
    requires ssrcs != []
    ensures LinePairs(ssrcs, cname, msid) != []
    ensures LinePairs(ssrcs, cname, msid)[0] == SsrcLine(ssrcs[0], "cname", cname)
  {
    if |ssrcs| > 1 {
      LinePairsStart(ssrcs[..|ssrcs| - 1], cname, msid);
    } else {
      assert ssrcs[..0] == [];
    }
  }
}
