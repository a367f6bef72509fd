/** applyCodecParameters: the Opus configuration of an answer is rewritten to what the offer's
    codec parameters ask for. */
module ApplyParameters {
  import opened Text
  import opened Json
  import opened SdpText
  import opened RtpTypes
  import opened FmtpConfig

  /** The value is printed through a 32-bit int. */
  function Narrow(p: Params): (r: Params)
    ensures |r| == |p| && forall i :: 0 <= i < |p| ==> r[i].key == p[i].key
  {
    seq(|p|, i requires 0 <= i < |p| => NarrowParam(p[i]))
  }

  function NarrowParam(p: Param): Param {
    if p.value.PInt? then Param(p.key, PInt(AsInt32(p.value.n))) else p
  }

  /** `sprop-stereo` counts only as a JSON boolean. */
  function WithStereo(p: Params, sprop: Option<ParamValue>): Params {
    if sprop.Some? && sprop.value.PBool? then Set(p, "stereo", PInt(if sprop.value.b then 1 else 0)) else p
  }

  function NewConfig(config: string, sprop: Option<ParamValue>, read: string -> Double): string {
    ConfigText(Narrow(WithStereo(ParseParams(config, read), sprop)))
  }

  // ----- the answer -----

  /** Index of the first entry for a payload type, or the length. */
  function EntryFor(entries: seq<Object>, payload: int): (i: nat)
    ensures i <= |entries|
    ensures i < |entries| ==> Payload in entries[i] && entries[i][Payload] == Num(payload)
    ensures forall j :: 0 <= j < i ==> !(Payload in entries[j] && entries[j][Payload] == Num(payload))
  {
    if entries == [] || (Payload in entries[0] && entries[0][Payload] == Num(payload)) then 0
    else 1 + EntryFor(entries[1..], payload)
  }

  predicate ConfigEntry(e: Object) {
    HasStr(e, Config)
  }

  /** What the code demands of an answer: config texts. */
  predicate AnswerOk(answer: Object) {
    HasArr(answer, Rtp)
    && (Fmtp in answer ==> answer[Fmtp].Arr? && forall i ::
      0 <= i < |answer[Fmtp].items| ==> ConfigEntry(answer[Fmtp].items[i]))
  }

  /** The fmtp entries, one added for the payload type if there is none. */
  function FmtpsFor(answer: Object, payload: int): (r: seq<Object>)
    ensures EntryFor(r, payload) < |r|
  {
    var fmtps := ItemsOf(Look(answer, Fmtp));
    if EntryFor(fmtps, payload) < |fmtps| then fmtps
    else
      var r := fmtps + [map[Payload := Num(payload), Config := Str("")]];
      assert Payload in r[|fmtps|] && r[|fmtps|][Payload] == Num(payload);
      r
  }

  predicate Concerns(codec: CodecParameters, answer: Object) {
    var rtps := ItemsOf(Look(answer, Rtp));
    Lower(codec.mimeType) == "audio/opus" && EntryFor(rtps, codec.payloadType) < |rtps|
  }

  function ApplyCodec(codec: CodecParameters, answer: Object, read: string -> Double): (r: Object)
    requires AnswerOk(answer)
    ensures AnswerOk(r)
  {
    if !Concerns(codec, answer) then answer
    else
      var fmtps := FmtpsFor(answer, codec.payloadType);
      var i := EntryFor(fmtps, codec.payloadType);
      assert ConfigEntry(fmtps[i]);
      var config := NewConfig(fmtps[i][Config].s, Find(codec.parameters, "sprop-stereo"), read);
      answer[Fmtp := Arr(fmtps[i := fmtps[i][Config := Str(config)]])]
  }

  // ----- what it changes -----

  predicate Fits32(p: Params) {
    forall i :: 0 <= i < |p| && p[i].value.PInt? ==> -0x8000_0000 <= p[i].value.n < 0x8000_0000
  }

  lemma NarrowFits(p: Params)
    ensures Narrow(p) == p <==> Fits32(p)
  {
    if Fits32(p) {
      assert forall i :: 0 <= i < |p| ==> Narrow(p)[i] == p[i];
    } else {
      var i :| 0 <= i < |p| && p[i].value.PInt? && !(-0x8000_0000 <= p[i].value.n < 0x8000_0000);
      assert Narrow(p)[i] != p[i];
    }
  }

  lemma NarrowClean(p: Params, read: string -> Double)
    requires Sorted(p) && CleanParams(p) && AllReadable(p, read)
    ensures Sorted(Narrow(p)) && CleanParams(Narrow(p)) && AllReadable(Narrow(p), read)
  {
    hide Less;
    forall i | 0 <= i < |p|
      ensures CleanParam(Narrow(p)[i]) && Readable(Narrow(p)[i], read)
    {
      assert CleanParam(p[i]) && Readable(p[i], read);
    }
  }

  lemma {:induction false} SetClean(p: Params, key: string, v: ParamValue, read: string -> Double)
    requires CleanParams(p) && AllReadable(p, read) && CleanParam(Param(key, v)) && Readable(Param(key, v), read)
    ensures CleanParams(Set(p, key, v)) && AllReadable(Set(p, key, v), read)
  {
    hide Less, CleanParam, Readable;
    if p != [] {
      SetClean(p[1..], key, v, read);
    }
  }

  lemma StereoClean(p: Params, sprop: Option<ParamValue>, read: string -> Double)
    requires Sorted(p) && CleanParams(p) && AllReadable(p, read)
    ensures var q := WithStereo(p, sprop); Sorted(q) && CleanParams(q) && AllReadable(q, read)
  {
    hide Sorted, CleanParams, AllReadable, Set;
    if sprop.Some? && sprop.value.PBool? {
      var v := PInt(if sprop.value.b then 1 else 0);
      SetSorted(p, "stereo", v);
      SetClean(p, "stereo", v, read);
    }
  }

  /** A configuration printed by this library, with `stereo` set if a boolean `sprop-stereo` asks
      for it, is what is written back, exactly when all its integers fit 32 bits. */
  lemma NewConfigKeeps(p: Params, sprop: Option<ParamValue>, read: string -> Double)
    requires Sorted(p) && CleanParams(p) && AllReadable(p, read)
    ensures var q := WithStereo(p, sprop);
      NewConfig(ConfigText(p), sprop, read) == ConfigText(q) <==> Fits32(q)
  {
    hide Sorted, CleanParams, AllReadable, ConfigText, ParseParams, WithStereo, Narrow, Fits32;
    var q := WithStereo(p, sprop);
    ConfigRoundTrip(p, read);
    StereoClean(p, sprop, read);
    ConfigRoundTrip(q, read);
    NarrowClean(q, read);
    ConfigRoundTrip(Narrow(q), read);
    NarrowFits(q);
  }

  /** An integer that does not fit is written back as another one. */
  lemma LargeInteger(key: string, n: int, read: string -> Double)
    requires var p := Param(key, PInt(n)); CleanParam(p) && Readable(p, read)
    ensures NewConfig(ConfigText([Param(key, PInt(n))]), None, read) == ConfigText([Param(key, PInt(AsInt32(n)))])
    ensures ConfigText([Param(key, PInt(AsInt32(n)))]) == ConfigText([Param(key, PInt(n))])
      <==> -0x8000_0000 <= n < 0x8000_0000
  {
    hide ConfigText, ParseParams, CleanParam, Readable;
    var p := [Param(key, PInt(n))];
    assert CleanParam(p[0]) && Readable(p[0], read);
    ConfigRoundTrip(p, read);
    assert Narrow(p) == [Param(key, PInt(AsInt32(n)))];
    NewConfigKeeps(p, None, read);
    assert Fits32(p) <==> -0x8000_0000 <= p[0].value.n < 0x8000_0000;
  }

  /** `maxaveragebitrate=2147483648` becomes `maxaveragebitrate=-2147483648`. */
  lemma LargeBitrate(read: string -> Double)
    ensures var p, q := [Param("maxaveragebitrate", PInt(0x8000_0000))],
      [Param("maxaveragebitrate", PInt(-0x8000_0000))];
      NewConfig(ConfigText(p), None, read) == ConfigText(q) != ConfigText(p)
  {
    hide ConfigText, NewConfig, CleanText, IsStringKey;
    BitrateKey();
    LargeInteger("maxaveragebitrate", 0x8000_0000, read);
  }

  lemma BitrateKey()
    ensures CleanText("maxaveragebitrate") && '=' !in "maxaveragebitrate" && !IsStringKey("maxaveragebitrate")
  {
  }

  /** `stereo` is the only parameter that changes. */
  lemma {:induction false} SetFinds(p: Params, key: string, v: ParamValue, other: string)
    requires Sorted(p)
    ensures Find(Set(p, key, v), other) == if other == key then Some(v) else Find(p, other)
  {
    if p != [] {
      SetFinds(p[1..], key, v, other);
      if other == key && Less(key, p[0].key) {
        LessIrreflexive(key);
      }
    }
  }

  // ----- the loop -----

  function ApplyAll(codecs: seq<CodecParameters>, answer: Object, read: string -> Double): (r: Object)
    requires AnswerOk(answer)
    ensures AnswerOk(r)
  {
    if codecs == [] then answer
    else ApplyCodec(codecs[|codecs| - 1], ApplyAll(codecs[..|codecs| - 1], answer, read), read)
  }

  /** find_if for an entry of a payload type. */
  method SearchEntry(entries: seq<Object>, payload: int) returns (i: nat)
    ensures i == EntryFor(entries, payload)
  {
    i := 0;
    while i < |entries| && !(Payload in entries[i] && entries[i][Payload] == Num(payload))
      invariant i <= |entries|
      invariant forall j :: 0 <= j < i ==> !(Payload in entries[j] && entries[j][Payload] == Num(payload))
    {
      i := i + 1;
    }
  }

  /** The parameters of one configuration: parsed, changed, printed. */
  method RewriteConfig(config: string, sprop: Option<ParamValue>, read: string -> Double) returns (text: string)
    ensures text == NewConfig(config, sprop, read)
  {
    hide ConfigText, ParseParams, Set;
    var parameters := ReadParams(config, read);
    if sprop.Some? && sprop.value.PBool? {
      parameters := Set(parameters, "stereo", PInt(if sprop.value.b then 1 else 0));
    }
    text := PrintConfig(Narrow(parameters));
  }

  /** The loop body for an Opus codec. */
  method Rewrite(codec: CodecParameters, answer: Object, read: string -> Double) returns (out: Object)
    requires AnswerOk(answer) && Lower(codec.mimeType) == "audio/opus"
    ensures out == ApplyCodec(codec, answer, read)
  {
    hide NewConfig, EntryFor, Lower;
    var rtp := SearchEntry(answer[Rtp].items, codec.payloadType);
    if rtp == |answer[Rtp].items| {
      return answer;
    }
    var fmtps := ItemsOf(Look(answer, Fmtp));
    var i := SearchEntry(fmtps, codec.payloadType);
    if i == |fmtps| {
      fmtps := fmtps + [map[Payload := Num(codec.payloadType), Config := Str("")]];
      assert Payload in fmtps[i] && fmtps[i][Payload] == Num(codec.payloadType);
    }
    assert i == EntryFor(fmtps, codec.payloadType) && ConfigEntry(fmtps[i]);
    var config := RewriteConfig(fmtps[i][Config].s, Find(codec.parameters, "sprop-stereo"), read);
    out := answer[Fmtp := Arr(fmtps[i := fmtps[i][Config := Str(config)]])];
  }

  /** applyCodecParameters, codec by codec. */
  method Apply(codecs: seq<CodecParameters>, answer: Object, read: string -> Double) returns (out: Object)
    requires AnswerOk(answer)
    ensures out == ApplyAll(codecs, answer, read)
  {
    hide ApplyCodec, AnswerOk;
    out := answer;
    for i := 0 to |codecs|
      invariant AnswerOk(out) && out == ApplyAll(codecs[..i], answer, read)
    {
      assert codecs[..i + 1][..i] == codecs[..i];
      if Lower(codecs[i].mimeType) == "audio/opus" {
        out := Rewrite(codecs[i], out, read);
      } else {
        OnlyOpus(codecs[i], out, read);
      }
    }
    assert codecs[..|codecs|] == codecs;
  }

  lemma OnlyOpus(codec: CodecParameters, answer: Object, read: string -> Double)
    requires AnswerOk(answer) && Lower(codec.mimeType) != "audio/opus"
    ensures ApplyCodec(codec, answer, read) == answer
  {
  }
}
