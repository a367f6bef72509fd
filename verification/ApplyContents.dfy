/** What applyCodecParameters leaves alone in an answer, where it adds an entry, and what it makes of
    a configuration that this library has printed. */
module ApplyContents {
  import opened Text
  import opened Json
  import opened SdpText
  import opened RtpTypes
  import opened FmtpConfig
  import opened ApplyParameters

  function ListOf(o: Object, k: Key): seq<Object> {
    if HasArr(o, k) then o[k].items else []
  }

  predicate EntryOf(e: Object, payload: int) {
    Payload in e && e[Payload] == Num(payload)
  }

  predicate Has(entries: seq<Object>, payload: int) {
    exists i :: 0 <= i < |entries| && EntryOf(entries[i], payload)
  }

  /** The first entry of its payload type. */
  predicate Leads(entries: seq<Object>, i: nat, payload: int)
    requires i < |entries|
  {
    EntryOf(entries[i], payload) && forall j :: 0 <= j < i ==> !EntryOf(entries[j], payload)
  }

  /** An Opus codec of the offer that the answer has too. */
  predicate Rewritten(codecs: seq<CodecParameters>, rtps: seq<Object>, payload: int) {
    && Has(rtps, payload)
    && exists i :: 0 <= i < |codecs| && Lower(codecs[i].mimeType) == "audio/opus" && codecs[i].payloadType == payload
  }

  // ----- what stays -----

  ghost predicate SameButFmtp(a: Object, b: Object) {
    forall k :: k != Fmtp ==> (k in a <==> k in b) && (k in a && k in b ==> a[k] == b[k])
  }

  ghost predicate SameButConfig(a: Object, b: Object) {
    forall k :: k != Config ==> (k in a <==> k in b) && (k in a && k in b ==> a[k] == b[k])
  }

  predicate MayChange(codecs: seq<CodecParameters>, rtps: seq<Object>, fmtps: seq<Object>, i: nat)
    requires i < |fmtps|
  {
    var e := fmtps[i];
    HasNum(e, Payload) && Rewritten(codecs, rtps, e[Payload].n) && Leads(fmtps, i, e[Payload].n)
  }

  /** Nothing but a payload type and a configuration. */
  predicate Plain(e: Object) {
    e.Keys == {Payload, Config} && HasNum(e, Payload) && HasStr(e, Config)
  }

  /** The entries so far, in place; only the first one of a rewritten payload type may change, and
      only its configuration. */
  ghost predicate InPlace(codecs: seq<CodecParameters>, rtps: seq<Object>, before: seq<Object>, after: seq<Object>) {
    && |before| <= |after|
    && forall i :: 0 <= i < |before| ==>
         SameButConfig(before[i], after[i]) && (after[i] == before[i] || MayChange(codecs, rtps, before, i))
  }

  /** Behind them, one plain entry for each rewritten payload type that had none. */
  predicate AddedBehind(codecs: seq<CodecParameters>, rtps: seq<Object>, before: seq<Object>, after: seq<Object>) {
    forall i :: |before| <= i < |after| ==>
      Plain(after[i]) && MayChange(codecs, rtps, after, i) && !Has(before, after[i][Payload].n)
  }

  /** What all codecs together may do to an answer. */
  ghost predicate Touches(codecs: seq<CodecParameters>, a: Object, r: Object) {
    && SameButFmtp(a, r)
    && InPlace(codecs, ListOf(a, Rtp), ListOf(a, Fmtp), ListOf(r, Fmtp))
    && AddedBehind(codecs, ListOf(a, Rtp), ListOf(a, Fmtp), ListOf(r, Fmtp))
    && (r == a || exists payload :: Rewritten(codecs, ListOf(a, Rtp), payload))
  }

  lemma EntryIs(entries: seq<Object>, payload: int)
    ensures var i := EntryFor(entries, payload);
      && (i < |entries| <==> Has(entries, payload)) && (i < |entries| ==> Leads(entries, i, payload))
  {
    var i := EntryFor(entries, payload);
    assert i < |entries| ==> EntryOf(entries[i], payload);
  }

  /** One entry worked on: the first one of the payload type, or a new one behind the others. */
  ghost predicate Worked(before: seq<Object>, after: seq<Object>, payload: int, i: nat)
    requires i < |after|
  {
    && (forall j :: 0 <= j < |before| && j < |after| && j != i ==> after[j] == before[j])
    && Leads(after, i, payload) && HasStr(after[i], Config)
    && if Has(before, payload)
       then |after| == |before| && HasStr(before[i], Config) && SameButConfig(before[i], after[i])
       else i == |before| && |after| == |before| + 1 && Plain(after[i])
  }

  lemma WorkOnFound(before: seq<Object>, payload: int, i: nat, config: string)
    requires i < |before| && Leads(before, i, payload) && HasStr(before[i], Config)
    ensures Worked(before, before[i := before[i][Config := Str(config)]], payload, i)
  {
    hide EntryOf, SameButConfig;
    ConfigSet(before[i], config, payload);
    assert Has(before, payload);
  }

  lemma ConfigSet(e: Object, config: string, payload: int)
    ensures var r := e[Config := Str(config)];
      SameButConfig(e, r) && HasStr(r, Config) && (EntryOf(r, payload) <==> EntryOf(e, payload))
  {
  }

  lemma WorkOnNew(before: seq<Object>, payload: int, config: string)
    requires !Has(before, payload)
    ensures Worked(before, before + [map[Payload := Num(payload), Config := Str(config)]], payload, |before|)
  {
  }

  lemma NoEntry(before: seq<Object>, payload: int)
    requires !Has(before, payload)
    ensures EntryFor(before + [map[Payload := Num(payload), Config := Str("")]], payload) == |before|
  {
    var all := before + [map[Payload := Num(payload), Config := Str("")]];
    assert EntryOf(all[|before|], payload);
    assert forall j :: 0 <= j < |before| ==> all[j] == before[j];
  }

  /** What one codec makes of the configurations of an answer. */
  function FmtpsAfter(fmtps: seq<Object>, payload: int, sprop: Option<ParamValue>, read: string -> Double): seq<Object>
    requires AllConfigs(fmtps)
  {
    var i := EntryFor(fmtps, payload);
    if i < |fmtps| then fmtps[i := fmtps[i][Config := Str(NewConfig(fmtps[i][Config].s, sprop, read))]]
    else fmtps + [map[Payload := Num(payload), Config := Str(NewConfig("", sprop, read))]]
  }

  predicate AllConfigs(fmtps: seq<Object>) {
    forall i :: 0 <= i < |fmtps| ==> HasStr(fmtps[i], Config)
  }

  lemma Listed(m: Object)
    requires AnswerOk(m)
    ensures ItemsOf(Look(m, Rtp)) == ListOf(m, Rtp) && ItemsOf(Look(m, Fmtp)) == ListOf(m, Fmtp)
    ensures AllConfigs(ListOf(m, Fmtp))
  {
    forall i | 0 <= i < |ListOf(m, Fmtp)|
      ensures HasStr(ListOf(m, Fmtp)[i], Config)
    {
      assert ConfigEntry(m[Fmtp].items[i]);
    }
  }

  lemma FmtpSet(m: Object, fmtps: seq<Object>)
    ensures SameButFmtp(m, m[Fmtp := Arr(fmtps)]) && HasArr(m[Fmtp := Arr(fmtps)], Fmtp)
    ensures ListOf(m[Fmtp := Arr(fmtps)], Fmtp) == fmtps
  {
  }

  lemma CodecApplies(codec: CodecParameters, m: Object, read: string -> Double)
    requires AnswerOk(m)
    ensures var r, fmtps, p := ApplyCodec(codec, m, read), ListOf(m, Fmtp), codec.payloadType;
      if Lower(codec.mimeType) != "audio/opus" || !Has(ListOf(m, Rtp), p) then r == m
      else
        && SameButFmtp(m, r) && HasArr(r, Fmtp) && AllConfigs(fmtps)
        && ListOf(r, Fmtp) == FmtpsAfter(fmtps, p, Find(codec.parameters, "sprop-stereo"), read)
  {
    hide NewConfig, Lower, EntryFor, Find, SameButFmtp, ListOf, Has, Leads, AllConfigs;
    var fmtps, p := ListOf(m, Fmtp), codec.payloadType;
    Listed(m);
    EntryIs(ListOf(m, Rtp), p);
    if Concerns(codec, m) {
      AllFor(m, p);
      var all := FmtpsFor(m, p);
      var i := EntryFor(all, p);
      var after := FmtpsAfter(fmtps, p, Find(codec.parameters, "sprop-stereo"), read);
      assert HasStr(all[i], Config) by {
        assert AllConfigs(all);
        ConfigAt(all, i);
      }
      Rewrites(fmtps, p, Find(codec.parameters, "sprop-stereo"), read);
      FmtpSet(m, after);
    }
  }

  lemma ConfigAt(fmtps: seq<Object>, i: nat)
    requires i < |fmtps| && AllConfigs(fmtps)
    ensures HasStr(fmtps[i], Config)
  {
  }

  /** The list the code works on. */
  function Extended(fmtps: seq<Object>, payload: int): seq<Object> {
    if EntryFor(fmtps, payload) < |fmtps| then fmtps
    else fmtps + [map[Payload := Num(payload), Config := Str("")]]
  }

  lemma AllFor(m: Object, payload: int)
    requires AnswerOk(m)
    ensures FmtpsFor(m, payload) == Extended(ListOf(m, Fmtp), payload) && AllConfigs(FmtpsFor(m, payload))
  {
    hide ListOf, EntryFor;
    Listed(m);
  }

  lemma Rewrites(fmtps: seq<Object>, payload: int, sprop: Option<ParamValue>, read: string -> Double)
    requires AllConfigs(fmtps)
    ensures var all := Extended(fmtps, payload);
      var i := EntryFor(all, payload);
      && i < |all| && HasStr(all[i], Config)
      && all[i := all[i][Config := Str(NewConfig(all[i][Config].s, sprop, read))]]
           == FmtpsAfter(fmtps, payload, sprop, read)
  {
    hide NewConfig, EntryFor;
    EntryIs(fmtps, payload);
    if EntryFor(fmtps, payload) == |fmtps| {
      NoEntry(fmtps, payload);
      var e: Object := map[Payload := Num(payload), Config := Str("")];
      assert e[Config := Str(NewConfig("", sprop, read))]
          == map[Payload := Num(payload), Config := Str(NewConfig("", sprop, read))];
    }
  }

  /** In particular: all entries but one stay, that one is the first of the payload type, or new. */
  lemma CodecWorks(codec: CodecParameters, m: Object, read: string -> Double)
    requires AnswerOk(m)
    ensures var r, fmtps, p := ApplyCodec(codec, m, read), ListOf(m, Fmtp), codec.payloadType;
      if Lower(codec.mimeType) != "audio/opus" || !Has(ListOf(m, Rtp), p) then r == m
      else
        && SameButFmtp(m, r)
        && exists i: nat :: i < |ListOf(r, Fmtp)| && Worked(fmtps, ListOf(r, Fmtp), p, i)
             && ListOf(r, Fmtp)[i][Config] == Str(NewConfig(if Has(fmtps, p) then fmtps[i][Config].s else "",
                  Find(codec.parameters, "sprop-stereo"), read))
  {
    hide ApplyCodec, Worked, SameButFmtp, NewConfig, Lower, EntryFor, Find;
    CodecApplies(codec, m, read);
    var fmtps, p, sprop := ListOf(m, Fmtp), codec.payloadType, Find(codec.parameters, "sprop-stereo");
    EntryIs(fmtps, p);
    if Has(fmtps, p) {
      var i := EntryFor(fmtps, p);
      WorkOnFound(fmtps, p, i, NewConfig(fmtps[i][Config].s, sprop, read));
      Witnessed(fmtps, FmtpsAfter(fmtps, p, sprop, read), p, i);
    } else {
      WorkOnNew(fmtps, p, NewConfig("", sprop, read));
      Witnessed(fmtps, FmtpsAfter(fmtps, p, sprop, read), p, |fmtps|);
    }
  }

  lemma Witnessed(before: seq<Object>, after: seq<Object>, payload: int, i: nat)
    requires i < |after| && Worked(before, after, payload, i)
    ensures HasStr(after[i], Config) && (Has(before, payload) ==> i < |before| && HasStr(before[i], Config))
  {
  }

  // ----- the frame -----

  lemma SamePayload(a: Object, b: Object, payload: int)
    requires SameButConfig(a, b)
    ensures EntryOf(a, payload) <==> EntryOf(b, payload)
    ensures HasNum(a, Payload) ==> HasNum(b, Payload) && a[Payload] == b[Payload]
    ensures Plain(a) && HasStr(b, Config) ==> Plain(b)
  {
    if Plain(a) && HasStr(b, Config) {
      StaysPlain(a, b);
    }
  }

  lemma StaysPlain(a: Object, b: Object)
    requires SameButConfig(a, b) && Plain(a) && HasStr(b, Config)
    ensures Plain(b)
  {
    forall k
      ensures k in b <==> k in {Payload, Config}
    {
      assert k != Config ==> (k in a.Keys <==> k in b);
    }
    assert Payload in a && Payload in b;
  }

  /** Whose payload types an entry may have. */
  lemma MoreCodecs(codecs: seq<CodecParameters>, rtps: seq<Object>, n: nat, payload: int)
    requires n <= |codecs| && Rewritten(codecs[..n], rtps, payload)
    ensures Rewritten(codecs, rtps, payload)
  {
    hide Lower, Has;
  }

  lemma InPlaceStep(codecs: seq<CodecParameters>, rtps: seq<Object>, a: seq<Object>, m: seq<Object>, r: seq<Object>,
      payload: int, i: nat)
    requires codecs != [] && InPlace(codecs[..|codecs| - 1], rtps, a, m)
    requires i < |r| && Worked(m, r, payload, i) && Rewritten(codecs, rtps, payload)
    ensures InPlace(codecs, rtps, a, r)
  {
    hide Rewritten, SameButConfig, EntryOf;
    forall j | 0 <= j < |a|
      ensures SameButConfig(a[j], r[j]) && (r[j] == a[j] || MayChange(codecs, rtps, a, j))
    {
      assert SameButConfig(a[j], m[j]);
      if j == i {
        StillLeads(a, m, r, payload, i);
        TransitiveButConfig(a[j], m[j], r[j]);
        MayChangeNow(codecs, rtps, a, j, payload);
      } else if m[j] != a[j] {
        MoreCodecs(codecs, rtps, |codecs| - 1, a[j][Payload].n);
      }
    }
  }

  lemma MayChangeNow(codecs: seq<CodecParameters>, rtps: seq<Object>, a: seq<Object>, j: nat, payload: int)
    requires j < |a| && Leads(a, j, payload) && Rewritten(codecs, rtps, payload)
    ensures MayChange(codecs, rtps, a, j)
  {
  }

  lemma TransitiveButConfig(a: Object, b: Object, c: Object)
    requires SameButConfig(a, b) && SameButConfig(b, c)
    ensures SameButConfig(a, c)
  {
  }

  lemma StillLeads(a: seq<Object>, m: seq<Object>, r: seq<Object>, payload: int, i: nat)
    requires |a| <= |m| && i < |a| && i < |r| && Worked(m, r, payload, i)
    requires forall j :: 0 <= j < |a| ==> SameButConfig(a[j], m[j])
    ensures Leads(a, i, payload) && SameButConfig(m[i], r[i])
  {
    hide EntryOf, SameButConfig;
    assert SameButConfig(m[i], r[i]);
    SamePayload(a[i], m[i], payload);
    SamePayload(m[i], r[i], payload);
    forall j | 0 <= j < i
      ensures !EntryOf(a[j], payload)
    {
      assert r[j] == m[j];
      SamePayload(a[j], m[j], payload);
    }
  }

  lemma AddedStep(codecs: seq<CodecParameters>, rtps: seq<Object>, a: seq<Object>, m: seq<Object>, r: seq<Object>,
      payload: int, i: nat)
    requires codecs != [] && AddedBehind(codecs[..|codecs| - 1], rtps, a, m)
    requires |a| <= |m| && forall j :: 0 <= j < |a| ==> SameButConfig(a[j], m[j])
    requires i < |r| && Worked(m, r, payload, i) && Rewritten(codecs, rtps, payload)
    ensures AddedBehind(codecs, rtps, a, r)
  {
    hide Rewritten, SameButConfig, EntryOf, Plain;
    forall j | |a| <= j < |r|
      ensures Plain(r[j]) && MayChange(codecs, rtps, r, j) && !Has(a, r[j][Payload].n)
    {
      if j == |m| {
        NewLeads(codecs, rtps, m, r, payload);
        NotBefore(a, m, payload);
      } else {
        assert Plain(m[j]) && MayChange(codecs[..|codecs| - 1], rtps, m, j) && !Has(a, m[j][Payload].n);
        OldLeads(codecs, rtps, m, r, payload, i, j);
      }
    }
  }

  lemma PlainHas(e: Object, payload: int)
    requires Plain(e) && EntryOf(e, payload)
    ensures HasNum(e, Payload) && e[Payload].n == payload
  {
  }

  lemma NewLeads(codecs: seq<CodecParameters>, rtps: seq<Object>, m: seq<Object>, r: seq<Object>, payload: int)
    requires |r| == |m| + 1 && Worked(m, r, payload, |m|) && Rewritten(codecs, rtps, payload)
    ensures Plain(r[|m|]) && MayChange(codecs, rtps, r, |m|) && r[|m|][Payload].n == payload && !Has(m, payload)
  {
    hide Rewritten, SameButConfig, EntryOf, Plain;
    assert !Has(m, payload);
    PlainHas(r[|m|], payload);
  }

  lemma NotBefore(a: seq<Object>, m: seq<Object>, payload: int)
    requires |a| <= |m| && (forall j :: 0 <= j < |a| ==> SameButConfig(a[j], m[j])) && !Has(m, payload)
    ensures !Has(a, payload)
  {
    hide SameButConfig, EntryOf;
    forall j | 0 <= j < |a|
      ensures !EntryOf(a[j], payload)
    {
      SamePayload(a[j], m[j], payload);
    }
  }

  lemma OldLeads(codecs: seq<CodecParameters>, rtps: seq<Object>, m: seq<Object>, r: seq<Object>, payload: int, i: nat,
      j: nat)
    requires codecs != [] && i < |r| && Worked(m, r, payload, i) && j < |m| <= |r|
    requires Plain(m[j]) && MayChange(codecs[..|codecs| - 1], rtps, m, j)
    ensures Plain(r[j]) && MayChange(codecs, rtps, r, j) && r[j][Payload] == m[j][Payload]
  {
    hide Rewritten, SameButConfig, EntryOf, Plain;
    var p := m[j][Payload].n;
    MoreCodecs(codecs, rtps, |codecs| - 1, p);
    forall k | 0 <= k <= j
      ensures EntryOf(r[k], p) <==> EntryOf(m[k], p)
    {
      if k == i {
        SamePayload(m[k], r[k], p);
      }
    }
    if j == i {
      SamePayload(m[j], r[j], p);
    }
  }

  lemma SameLists(a: Object, b: Object)
    requires SameButFmtp(a, b)
    ensures ListOf(a, Rtp) == ListOf(b, Rtp)
  {
  }

  lemma TransitiveButFmtp(a: Object, b: Object, c: Object)
    requires SameButFmtp(a, b) && SameButFmtp(b, c)
    ensures SameButFmtp(a, c)
  {
  }

  lemma {:induction false} ApplyTouches(codecs: seq<CodecParameters>, a: Object, read: string -> Double)
    requires AnswerOk(a)
    ensures Touches(codecs, a, ApplyAll(codecs, a, read))
  {
    hide ApplyCodec, Worked, NewConfig, Lower, SameButFmtp, InPlace, AddedBehind, Has, Find, ListOf;
    if codecs == [] {
      NothingTouched(a);
    } else {
      var n := |codecs| - 1;
      var m, r, c := ApplyAll(codecs[..n], a, read), ApplyAll(codecs, a, read), codecs[n];
      ApplyTouches(codecs[..n], a, read);
      SameLists(a, m);
      CodecWorks(c, m, read);
      if Lower(c.mimeType) == "audio/opus" && Has(ListOf(m, Rtp), c.payloadType) {
        var i: nat :| i < |ListOf(r, Fmtp)| && Worked(ListOf(m, Fmtp), ListOf(r, Fmtp), c.payloadType, i);
        assert Rewritten(codecs, ListOf(a, Rtp), c.payloadType);
        TransitiveButFmtp(a, m, r);
        InPlaceStep(codecs, ListOf(a, Rtp), ListOf(a, Fmtp), ListOf(m, Fmtp), ListOf(r, Fmtp), c.payloadType, i);
        assert InPlace(codecs[..n], ListOf(a, Rtp), ListOf(a, Fmtp), ListOf(m, Fmtp));
        InPlaceIs(codecs[..n], ListOf(a, Rtp), ListOf(a, Fmtp), ListOf(m, Fmtp));
        AddedStep(codecs, ListOf(a, Rtp), ListOf(a, Fmtp), ListOf(m, Fmtp), ListOf(r, Fmtp), c.payloadType, i);
      } else {
        MoreTouches(codecs, a, m);
      }
    }
  }

  /** And every rewritten payload type has an entry in the end. */
  lemma {:induction false} EntryThere(codecs: seq<CodecParameters>, a: Object, read: string -> Double, payload: int)
    requires AnswerOk(a) && Rewritten(codecs, ListOf(a, Rtp), payload)
    ensures Has(ListOf(ApplyAll(codecs, a, read), Fmtp), payload)
  {
    hide ApplyCodec, NewConfig, Lower, SameButFmtp, EntryOf, Plain, SameButConfig, Find, ListOf;
    var n := |codecs| - 1;
    var m, r, c := ApplyAll(codecs[..n], a, read), ApplyAll(codecs, a, read), codecs[n];
    ApplyTouches(codecs[..n], a, read);
    SameLists(a, m);
    CodecWorks(c, m, read);
    var before, after := ListOf(m, Fmtp), ListOf(r, Fmtp);
    if Lower(c.mimeType) == "audio/opus" && c.payloadType == payload {
      var i: nat :| i < |after| && Worked(before, after, payload, i);
      assert EntryOf(after[i], payload);
    } else {
      EntryThere(codecs[..n], a, read, payload);
      var j :| 0 <= j < |before| && EntryOf(before[j], payload);
      if Lower(c.mimeType) == "audio/opus" && Has(ListOf(m, Rtp), c.payloadType) {
        var i: nat :| i < |after| && Worked(before, after, c.payloadType, i);
        if i == j {
          SamePayload(before[j], after[j], payload);
        }
        assert EntryOf(after[j], payload);
      }
    }
  }

  lemma InPlaceIs(codecs: seq<CodecParameters>, rtps: seq<Object>, a: seq<Object>, m: seq<Object>)
    requires InPlace(codecs, rtps, a, m)
    ensures |a| <= |m| && forall j :: 0 <= j < |a| ==> SameButConfig(a[j], m[j])
  {
  }

  lemma NothingTouched(a: Object)
    ensures Touches([], a, a)
  {
  }

  lemma MoreTouches(codecs: seq<CodecParameters>, a: Object, m: Object)
    requires codecs != [] && Touches(codecs[..|codecs| - 1], a, m)
    ensures Touches(codecs, a, m)
  {
    hide Rewritten, Plain, SameButConfig, SameButFmtp, Has, Leads;
    var n := |codecs| - 1;
    var rtps, before, after := ListOf(a, Rtp), ListOf(a, Fmtp), ListOf(m, Fmtp);
    forall payload | Rewritten(codecs[..n], rtps, payload)
      ensures Rewritten(codecs, rtps, payload)
    {
      MoreCodecs(codecs, rtps, n, payload);
    }
  }

  // ----- the configurations -----

  /** The configuration of the first entry of a payload type; none is an empty one. */
  function TextOf(fmtps: seq<Object>, payload: int): string {
    if fmtps == [] then ""
    else if EntryOf(fmtps[0], payload) then (if HasStr(fmtps[0], Config) then fmtps[0][Config].s else "")
    else TextOf(fmtps[1..], payload)
  }

  lemma {:induction false} LeadingText(fmtps: seq<Object>, payload: int, i: nat)
    requires i < |fmtps| && Leads(fmtps, i, payload) && HasStr(fmtps[i], Config)
    ensures TextOf(fmtps, payload) == fmtps[i][Config].s
  {
    hide EntryOf;
    if i > 0 {
      assert !EntryOf(fmtps[0], payload);
      assert fmtps[1..][i - 1] == fmtps[i];
      LeadingText(fmtps[1..], payload, i - 1);
    }
  }

  lemma {:induction false} NoText(fmtps: seq<Object>, payload: int)
    requires !Has(fmtps, payload)
    ensures TextOf(fmtps, payload) == ""
  {
    hide EntryOf;
    if fmtps != [] {
      assert !EntryOf(fmtps[0], payload);
      NoText(fmtps[1..], payload);
    }
  }

  lemma {:induction false} SameText(a: seq<Object>, b: seq<Object>, payload: int)
    requires |a| <= |b|
    requires forall j :: 0 <= j < |a| ==> a[j] == b[j] || (!EntryOf(a[j], payload) && !EntryOf(b[j], payload))
    requires forall j :: |a| <= j < |b| ==> !EntryOf(b[j], payload)
    ensures TextOf(a, payload) == TextOf(b, payload)
  {
    hide EntryOf;
    if a != [] {
      assert a[0] == b[0] || (!EntryOf(a[0], payload) && !EntryOf(b[0], payload));
      SameText(a[1..], b[1..], payload);
    } else {
      assert !Has(b, payload);
      NoText(b, payload);
    }
  }

  lemma OtherText(before: seq<Object>, after: seq<Object>, payload: int, i: nat, other: int)
    requires i < |after| && Worked(before, after, payload, i) && other != payload
    ensures TextOf(after, other) == TextOf(before, other)
  {
    hide SameButConfig, Plain, TextOf;
    assert EntryOf(after[i], payload) && !EntryOf(after[i], other);
    if i < |before| {
      assert Has(before, payload);
      SamePayload(before[i], after[i], other);
    }
    SameText(before, after, other);
  }

  /** One codec: the configuration of its payload type is read, changed and written back; others stay. */
  lemma CodecText(codec: CodecParameters, m: Object, read: string -> Double, payload: int)
    requires AnswerOk(m)
    ensures var before, after := TextOf(ListOf(m, Fmtp), payload),
        TextOf(ListOf(ApplyCodec(codec, m, read), Fmtp), payload);
      if Lower(codec.mimeType) == "audio/opus" && codec.payloadType == payload && Has(ListOf(m, Rtp), payload)
      then after == NewConfig(before, Find(codec.parameters, "sprop-stereo"), read)
      else after == before
  {
    hide ApplyCodec, EntryOf, SameButConfig, Plain, NewConfig, Lower, SameButFmtp, Find, ListOf, TextOf, AnswerOk;
    CodecWorks(codec, m, read);
    var r, p := ApplyCodec(codec, m, read), codec.payloadType;
    var before, after := ListOf(m, Fmtp), ListOf(r, Fmtp);
    if Lower(codec.mimeType) == "audio/opus" && Has(ListOf(m, Rtp), p) {
      var i: nat :| i < |after| && Worked(before, after, p, i)
        && after[i][Config] == Str(NewConfig(if Has(before, p) then before[i][Config].s else "",
             Find(codec.parameters, "sprop-stereo"), read));
      if p == payload {
        WorkedText(before, after, p, i);
      } else {
        OtherText(before, after, p, i, payload);
      }
    }
  }

  lemma WorkedText(before: seq<Object>, after: seq<Object>, payload: int, i: nat)
    requires i < |after| && Worked(before, after, payload, i)
    ensures HasStr(after[i], Config) && TextOf(after, payload) == after[i][Config].s
    ensures Has(before, payload) ==>
      i < |before| && HasStr(before[i], Config) && TextOf(before, payload) == before[i][Config].s
    ensures !Has(before, payload) ==> TextOf(before, payload) == ""
  {
    hide SameButConfig, Plain, TextOf, EntryOf;
    LeadingText(after, payload, i);
    if Has(before, payload) {
      assert SameButConfig(before[i], after[i]);
      forall j | 0 <= j < |before|
        ensures SameButConfig(before[j], before[j])
      {
        ButConfigReflexive(before[j]);
      }
      StillLeads(before, before, after, payload, i);
      LeadingText(before, payload, i);
    } else {
      NoText(before, payload);
    }
  }

  lemma ButConfigReflexive(e: Object)
    ensures SameButConfig(e, e)
  {
  }

  /** What the last Opus codec of a payload type with a boolean `sprop-stereo` says. */
  function Stereo(codecs: seq<CodecParameters>, payload: int): Option<bool> {
    if codecs == [] then None
    else
      var c := codecs[|codecs| - 1];
      match Find(c.parameters, "sprop-stereo")
      case Some(PBool(b)) =>
        if Lower(c.mimeType) == "audio/opus" && c.payloadType == payload then Some(b)
        else Stereo(codecs[..|codecs| - 1], payload)
      case _ => Stereo(codecs[..|codecs| - 1], payload)
  }

  /** The parameters with `stereo` as it was asked for. */
  function StereoSet(p: Params, stereo: Option<bool>): Params {
    match stereo
    case None => p
    case Some(true) => Set(p, "stereo", PInt(1))
    case Some(false) => Set(p, "stereo", PInt(0))
  }

  /** Parameters that this library prints and reads back. */
  predicate Printable(p: Params, read: string -> Double) {
    Sorted(p) && CleanParams(p) && AllReadable(p, read) && Fits32(p)
  }

  lemma {:induction false} SetTwice(p: Params, key: string, v: ParamValue, w: ParamValue)
    ensures Set(Set(p, key, v), key, w) == Set(p, key, w)
  {
    if p != [] {
      SetTwice(p[1..], key, v, w);
    }
  }

  lemma {:induction false} SetFits(p: Params, key: string, n: int)
    requires Fits32(p) && -0x8000_0000 <= n < 0x8000_0000
    ensures Fits32(Set(p, key, PInt(n)))
  {
    hide Less;
    if p != [] {
      SetFits(p[1..], key, n);
    }
  }

  lemma StereoPrintable(p: Params, stereo: Option<bool>, read: string -> Double)
    requires Printable(p, read)
    ensures Printable(StereoSet(p, stereo), read)
  {
    hide Sorted, CleanParams, AllReadable, Fits32, Set;
    if stereo.Some? {
      StereoClean(p, Some(PBool(stereo.value)), read);
      SetFits(p, "stereo", if stereo.value then 1 else 0);
    }
  }

  /** One codec writes the parameters back with its own `stereo`. */
  lemma StereoStep(p: Params, stereo: Option<bool>, sprop: Option<ParamValue>, read: string -> Double)
    requires Printable(p, read)
    ensures NewConfig(ConfigText(StereoSet(p, stereo)), sprop, read)
         == ConfigText(StereoSet(p, if sprop.Some? && sprop.value.PBool? then Some(sprop.value.b) else stereo))
  {
    hide Sorted, CleanParams, AllReadable, Fits32, Set, NewConfig, ConfigText;
    var q := StereoSet(p, stereo);
    StereoPrintable(p, stereo, read);
    if sprop.Some? && sprop.value.PBool? {
      var v := PInt(if sprop.value.b then 1 else 0);
      assert WithStereo(q, sprop) == Set(q, "stereo", v) == Set(p, "stereo", v) by {
        if stereo.Some? {
          SetTwice(p, "stereo", PInt(if stereo.value then 1 else 0), v);
        }
      }
      StereoPrintable(p, Some(sprop.value.b), read);
    }
    NewConfigKeeps(q, sprop, read);
  }

  lemma {:induction false} ApplyTexts(codecs: seq<CodecParameters>, a: Object, read: string -> Double, payload: int,
      p: Params)
    requires AnswerOk(a) && Has(ListOf(a, Rtp), payload)
    requires Printable(p, read) && TextOf(ListOf(a, Fmtp), payload) == ConfigText(p)
    ensures TextOf(ListOf(ApplyAll(codecs, a, read), Fmtp), payload)
      == ConfigText(StereoSet(p, Stereo(codecs, payload)))
  {
    hide ApplyCodec, AnswerOk, NewConfig, Lower, Has, Find, ListOf, TextOf, Printable, ConfigText, StereoSet;
    if codecs == [] {
      assert StereoSet(p, None) == p by {
        NoStereo(p);
      }
    } else {
      var n := |codecs| - 1;
      var m, c := ApplyAll(codecs[..n], a, read), codecs[n];
      ApplyTexts(codecs[..n], a, read, payload, p);
      SameRtps(codecs[..n], a, read);
      CodecText(c, m, read, payload);
      StereoStep(p, Stereo(codecs[..n], payload), Find(c.parameters, "sprop-stereo"), read);
    }
  }

  lemma NoStereo(p: Params)
    ensures StereoSet(p, None) == p
  {
  }

  lemma SameRtps(codecs: seq<CodecParameters>, a: Object, read: string -> Double)
    requires AnswerOk(a)
    ensures ListOf(ApplyAll(codecs, a, read), Rtp) == ListOf(a, Rtp)
  {
    hide ApplyAll, ListOf, SameButFmtp, InPlace, AddedBehind, AnswerOk;
    ApplyTouches(codecs, a, read);
    SameLists(a, ApplyAll(codecs, a, read));
  }

  /** The configuration of a payload type of the answer, if this library has printed it from sorted and readable
      parameters that fit 32 bits, or if there is none: the new one reads as the same parameters, but
      `stereo` is 1 or 0 where the last Opus codec of that payload type with a boolean `sprop-stereo` says true or
      false. */
  lemma ConfigApplied(codecs: seq<CodecParameters>, a: Object, read: string -> Double, payload: int, p: Params)
    requires AnswerOk(a) && Has(ListOf(a, Rtp), payload)
    requires Printable(p, read) && TextOf(ListOf(a, Fmtp), payload) == ConfigText(p)
    ensures var q := ParseParams(TextOf(ListOf(ApplyAll(codecs, a, read), Fmtp), payload), read);
      && Sorted(q)
      && (Stereo(codecs, payload) == None ==> q == p)
      && (Stereo(codecs, payload) == Some(true) ==> Find(q, "stereo") == Some(PInt(1)))
      && (Stereo(codecs, payload) == Some(false) ==> Find(q, "stereo") == Some(PInt(0)))
      && forall key :: key != "stereo" ==> Find(q, key) == Find(p, key)
  {
    hide ApplyAll, AnswerOk, Has, Find, ListOf, TextOf, Stereo, ConfigText, ParseParams, Sorted, CleanParams,
      AllReadable, Fits32, Set;
    var stereo := Stereo(codecs, payload);
    ApplyTexts(codecs, a, read, payload, p);
    StereoPrintable(p, stereo, read);
    ConfigRoundTrip(StereoSet(p, stereo), read);
    if stereo.Some? {
      var v := PInt(if stereo.value then 1 else 0);
      forall key
        ensures Find(Set(p, "stereo", v), key) == if key == "stereo" then Some(v) else Find(p, key)
      {
        SetFinds(p, "stereo", v, key);
      }
    }
  }
}
