/** The validators of ortc.cpp: they reject malformed objects and fill in defaults. */
module OrtcValidation {
  import opened Text
  import opened Regex
  import opened RtpTypes
  import opened SsrcUtils
  import ApplyParameters
  import FmtpConfig

  /** A member of a JSON object: missing, of another type than asked for, or a value. */
  datatype Field<+T> = Absent | Malformed | Present(value: T)

  /** An array element that is meant to be an object. */
  datatype Item<+T> = NotAnObject | Item(value: T)

  datatype RawFeedback = RawFeedback(kind: Field<string>, parameter: Field<string>)

  /** A codec of capabilities (`payloadType` is then its `preferredPayloadType`) or parameters. */
  datatype RawCodec = RawCodec(
    mimeType: Field<string>, payloadType: Field<int>, clockRate: Field<int>, channels: Field<int>,
    parameters: Field<Params>, rtcpFeedback: Field<seq<Item<RawFeedback>>>)

  datatype RawExtCap = RawExtCap(
    kind: Field<string>, uri: Field<string>, preferredId: Field<int>, preferredEncrypt: Field<bool>,
      direction: Field<string>)

  datatype RawCaps = RawCaps(codecs: Field<seq<Item<RawCodec>>>, headerExtensions: Field<seq<Item<RawExtCap>>>)

  datatype RawExt = RawExt(uri: Field<string>, id: Field<int>, encrypt: Field<bool>, parameters: Field<Params>)

  datatype RawEncoding = RawEncoding(
    ssrc: Field<int>, rid: Field<string>, rtx: Field<Field<int>>, dtx: Field<bool>, scalabilityMode: Field<string>)

  datatype RawRtcp = RawRtcp(cname: Field<string>, reducedSize: Field<bool>)

  datatype RawRtp = RawRtp(
    mid: Field<string>, codecs: Field<seq<Item<RawCodec>>>, headerExtensions: Field<seq<Item<RawExt>>>,
    encodings: Field<seq<Item<RawEncoding>>>, rtcp: Field<RawRtcp>)

  // ----- validated objects -----

  datatype Codec = Codec(
    mimeType: string, kind: string, payloadType: Option<int>, clockRate: int, channels: Option<int>,
    parameters: Params, rtcpFeedback: seq<Feedback>)

  datatype ExtCap = ExtCap(kind: string, uri: string, preferredId: int, preferredEncrypt: bool, direction: string)

  datatype Caps = Caps(codecs: seq<Codec>, headerExtensions: seq<ExtCap>)

  datatype Ext = Ext(uri: string, id: int, encrypt: bool, parameters: Params)

  datatype Encoding = Encoding(
    ssrc: Option<int>, rid: Option<string>, rtxSsrc: Option<int>, dtx: bool, scalabilityMode: Option<string>)

  datatype Rtp = Rtp(
    mid: Option<string>, codecs: seq<Codec>, headerExtensions: seq<Ext>, encodings: seq<Encoding>,
    cname: Option<string>, reducedSize: bool)

  // ----- arrays -----

  /** Every element validated, from first to last; the first error wins. */
  function Each<R, T>(items: seq<R>, validate: R -> Result<T>): Result<seq<T>> {
    if items == [] then Ok([])
    else
      match Each(items[..|items| - 1], validate)
      case Err(m) => Err(m)
      case Ok(before) =>
        match validate(items[|items| - 1]) {
          case Err(m) => Err(m)
          case Ok(v) => Ok(before + [v])
        }
  }

  method ValidateEach<R, T>(items: seq<R>, validate: R -> Result<T>) returns (r: Result<seq<T>>)
    ensures r == Each(items, validate)
  {
    var done: seq<T> := [];
    for i := 0 to |items|
      invariant Each(items[..i], validate) == Ok(done)
    {
      assert items[..i + 1][..i] == items[..i];
      var v := validate(items[i]);
      if v.Err? {
        EachFails(items, validate, i + 1);
        return Err(v.message);
      }
      done := done + [v.value];
    }
    assert items[..|items|] == items;
    return Ok(done);
  }

  lemma {:induction false} EachFails<R, T>(items: seq<R>, validate: R -> Result<T>, i: nat)
    requires i <= |items| && Each(items[..i], validate).Err?
    ensures Each(items, validate) == Each(items[..i], validate)
    decreases |items| - i
  {
    if i < |items| {
      assert items[..i + 1][..i] == items[..i];
      EachFails(items, validate, i + 1);
    } else {
      assert items[..i] == items;
    }
  }

  lemma {:induction false} EachOk<R, T>(items: seq<R>, validate: R -> Result<T>, vs: seq<T>)
    ensures Each(items, validate) == Ok(vs)
       <==> |vs| == |items| && forall i :: 0 <= i < |items| ==> validate(items[i]) == Ok(vs[i])
  {
    if items != [] {
      var n := |items| - 1;
      if |vs| == |items| {
        EachOk(items[..n], validate, vs[..n]);
        assert vs == vs[..n] + [vs[n]];
      }
      if Each(items, validate) == Ok(vs) {
        var before := Each(items[..n], validate).value;
        EachOk(items[..n], validate, before);
        assert vs == before + [vs[|vs| - 1]];
      }
    }
  }

  lemma {:induction false} EachSucceeds<R, T>(items: seq<R>, validate: R -> Result<T>)
    ensures Each(items, validate).Ok? <==> forall i :: 0 <= i < |items| ==> validate(items[i]).Ok?
  {
    if items != [] {
      var n := |items| - 1;
      EachSucceeds(items[..n], validate);
      if forall i :: 0 <= i < n ==> validate(items[..n][i]).Ok? {
      } else {
        var i :| 0 <= i < n && validate(items[..n][i]).Err?;
        assert validate(items[i]).Err?;
      }
    }
  }

  // ----- codecs -----

  /** The match of `^(audio|video)/(.+)`, ignoring case, over the whole text: its first group. */
  function MediaKind(mimeType: string): Option<string> {
    var lower := Lower(mimeType);
    if |mimeType| > 6 && ("audio/" <= lower || "video/" <= lower) && AllIn(mimeType[6..], Any) then Some(mimeType[..5])
    else None
  }

  function ValidateFeedback(item: Item<RawFeedback>): Result<Feedback> {
    if item.NotAnObject? then Err("fb is not an object")
    else if !item.value.kind.Present? then Err("missing fb.type")
    else Ok(Feedback(item.value.kind.value, if item.value.parameter.Present? then item.value.parameter.value else ""))
  }

  /** Strings, numbers and null are allowed; booleans stand for everything that is not. */
  function ValidateParam(p: Param): Result<Param> {
    if p.value.PBool? then Err("invalid codec parameter")
    else if p.key == "apt" && !p.value.PInt? then Err("invalid codec apt parameter")
    else Ok(p)
  }

  /** The default applies to the exact spelling "audio" only. */
  function ChannelsOf(kind: string, channels: Field<int>): Option<int> {
    if kind == "audio" then Some(if channels.Present? then channels.value else 1) else None
  }

  function OrEmpty<T>(f: Field<seq<T>>): seq<T> {
    if f.Present? then f.value else []
  }

  function OptionOf<T>(f: Field<T>): Option<T> {
    if f.Present? then Some(f.value) else None
  }

  /** validateRtpCodecCapability, or validateRtpCodecParameters where the payload type is
      mandatory. */
  function ValidateCodec(item: Item<RawCodec>, mandatory: bool): Result<Codec> {
    if item.NotAnObject? then Err("codec is not an object")
    else
      var c := item.value;
      if !c.mimeType.Present? then Err("missing codec.mimeType")
      else if MediaKind(c.mimeType.value).None? then Err("invalid codec.mimeType")
      else if mandatory && !c.payloadType.Present? then Err("missing codec.payloadType")
      else if c.payloadType.Malformed? then Err("invalid codec.preferredPayloadType")
      else if !c.clockRate.Present? then Err("missing codec.clockRate")
      else
        var kind := MediaKind(c.mimeType.value).value;
        match Each(OrEmpty(c.parameters), ValidateParam)
        case Err(m) => Err(m)
        case Ok(parameters) =>
          match Each(OrEmpty(c.rtcpFeedback), ValidateFeedback) {
            case Err(m) => Err(m)
            case Ok(fbs) =>
              Ok(Codec(c.mimeType.value, kind, OptionOf(c.payloadType), c.clockRate.value,
                ChannelsOf(kind, c.channels), parameters, fbs))
          }
  }

  method CheckCodec(item: Item<RawCodec>, mandatory: bool) returns (r: Result<Codec>)
    ensures r == ValidateCodec(item, mandatory)
  {
    if item.NotAnObject? {
      return Err("codec is not an object");
    }
    var c := item.value;
    if !c.mimeType.Present? {
      return Err("missing codec.mimeType");
    }
    var media := MediaKind(c.mimeType.value);
    if media.None? {
      return Err("invalid codec.mimeType");
    }
    if mandatory && !c.payloadType.Present? {
      return Err("missing codec.payloadType");
    }
    if c.payloadType.Malformed? {
      return Err("invalid codec.preferredPayloadType");
    }
    if !c.clockRate.Present? {
      return Err("missing codec.clockRate");
    }
    var channels := ChannelsOf(media.value, c.channels);
    var parameters := ValidateEach(OrEmpty(c.parameters), ValidateParam);
    if parameters.Err? {
      return Err(parameters.message);
    }
    var fbs := ValidateEach(OrEmpty(c.rtcpFeedback), ValidateFeedback);
    if fbs.Err? {
      return Err(fbs.message);
    }
    r := Ok(Codec(c.mimeType.value, media.value, OptionOf(c.payloadType), c.clockRate.value, channels,
      parameters.value, fbs.value));
  }

  function ValidateCodecCap(item: Item<RawCodec>): Result<Codec> {
    ValidateCodec(item, false)
  }

  function ValidateCodecParameters(item: Item<RawCodec>): Result<Codec> {
    ValidateCodec(item, true)
  }

  // ----- capabilities -----

  function ValidateExtCap(item: Item<RawExtCap>): Result<ExtCap> {
    if item.NotAnObject? then Err("ext is not an object")
    else
      var e := item.value;
      if !e.kind.Present? then Err("missing ext.kind")
      else if e.kind.value != "audio" && e.kind.value != "video" then Err("invalid ext.kind")
      else if !e.uri.Present? || e.uri.value == "" then Err("missing ext.uri")
      else if !e.preferredId.Present? then Err("missing ext.preferredId")
      else if e.preferredEncrypt.Malformed? then Err("invalid ext.preferredEncrypt")
      else if e.direction.Malformed? then Err("invalid ext.direction")
      else Ok(ExtCap(e.kind.value, e.uri.value, e.preferredId.value,
                if e.preferredEncrypt.Present? then e.preferredEncrypt.value else false,
                if e.direction.Present? then e.direction.value else "sendrecv"))
  }

  function ValidateCaps(caps: Item<RawCaps>): Result<Caps> {
    if caps.NotAnObject? then Err("caps is not an object")
    else if caps.value.codecs.Malformed? then Err("caps.codecs is not an array")
    else
      match Each(OrEmpty(caps.value.codecs), ValidateCodecCap)
      case Err(m) => Err(m)
      case Ok(codecs) =>
        if caps.value.headerExtensions.Malformed? then Err("caps.headerExtensions is not an array")
        else match Each(OrEmpty(caps.value.headerExtensions), ValidateExtCap) {
          case Err(m) => Err(m)
          case Ok(exts) => Ok(Caps(codecs, exts))
        }
  }

  /** validateRtpCapabilities */
  method CheckCaps(caps: Item<RawCaps>) returns (r: Result<Caps>)
    ensures r == ValidateCaps(caps)
  {
    if caps.NotAnObject? {
      return Err("caps is not an object");
    }
    if caps.value.codecs.Malformed? {
      return Err("caps.codecs is not an array");
    }
    var codecs := ValidateEach(OrEmpty(caps.value.codecs), ValidateCodecCap);
    if codecs.Err? {
      return Err(codecs.message);
    }
    if caps.value.headerExtensions.Malformed? {
      return Err("caps.headerExtensions is not an array");
    }
    var exts := ValidateEach(OrEmpty(caps.value.headerExtensions), ValidateExtCap);
    if exts.Err? {
      return Err(exts.message);
    }
    r := Ok(Caps(codecs.value, exts.value));
  }

  // ----- parameters -----

  function ValidateExtParam(p: Param): Result<Param> {
    if p.value.PBool? || p.value.PNull? then Err("invalid header extension parameter") else Ok(p)
  }

  function ValidateExt(item: Item<RawExt>): Result<Ext> {
    if item.NotAnObject? then Err("ext is not an object")
    else
      var e := item.value;
      if !e.uri.Present? || e.uri.value == "" then Err("missing ext.uri")
      else if !e.id.Present? then Err("missing ext.id")
      else if e.encrypt.Malformed? then Err("invalid ext.encrypt")
      else match Each(OrEmpty(e.parameters), ValidateExtParam) {
        case Err(m) => Err(m)
        case Ok(parameters) => Ok(Ext(e.uri.value, e.id.value, if e.encrypt.Present? then e.encrypt.value else false,
          parameters))
      }
  }

  predicate BadText(f: Field<string>) {
    f.Malformed? || (f.Present? && f.value == "")
  }

  function ValidateEncoding(item: Item<RawEncoding>): Result<Encoding> {
    if item.NotAnObject? then Err("encoding is not an object")
    else
      var e := item.value;
      if e.ssrc.Malformed? then Err("invalid encoding.ssrc")
      else if BadText(e.rid) then Err("invalid encoding.rid")
      else if e.rtx.Malformed? then Err("invalid encoding.rtx")
      else if e.rtx.Present? && !e.rtx.value.Present? then Err("missing encoding.rtx.ssrc")
      else if BadText(e.scalabilityMode) then Err("invalid encoding.scalabilityMode")
      else Ok(Encoding(OptionOf(e.ssrc), OptionOf(e.rid), if e.rtx.Present? then Some(e.rtx.value.value) else None,
                if e.dtx.Present? then e.dtx.value else false, OptionOf(e.scalabilityMode)))
  }

  /** The cname and the reducedSize flag of `rtcp`. */
  function ValidateRtcp(rtcp: Field<RawRtcp>): Result<(Option<string>, bool)> {
    match rtcp
    case Malformed => Err("params.rtcp is not an object")
    case Absent => Ok((None, true))
    case Present(f) =>
      if f.cname.Malformed? then Err("invalid rtcp.cname")
      else Ok((OptionOf(f.cname), if f.reducedSize.Present? then f.reducedSize.value else true))
  }

  function ValidateRtp(rtp: Item<RawRtp>): Result<Rtp> {
    if rtp.NotAnObject? then Err("params is not an object")
    else if BadText(rtp.value.mid) then Err("params.mid is not a string")
    else if !rtp.value.codecs.Present? then Err("missing params.codecs")
    else
      match Each(rtp.value.codecs.value, ValidateCodecParameters)
      case Err(m) => Err(m)
      case Ok(codecs) => ValidateRest(rtp.value, codecs)
  }

  /** What validateRtpParameters checks behind the codecs. */
  function ValidateRest(rtp: RawRtp, codecs: seq<Codec>): Result<Rtp> {
    if rtp.headerExtensions.Malformed? then Err("params.headerExtensions is not an array")
    else
      match Each(OrEmpty(rtp.headerExtensions), ValidateExt)
      case Err(m) => Err(m)
      case Ok(exts) =>
        if rtp.encodings.Malformed? then Err("params.encodings is not an array")
        else match Each(OrEmpty(rtp.encodings), ValidateEncoding) {
          case Err(m) => Err(m)
          case Ok(encodings) =>
            match ValidateRtcp(rtp.rtcp) {
              case Err(m) => Err(m)
              case Ok(rtcp) => Ok(Rtp(OptionOf(rtp.mid), codecs, exts, encodings, rtcp.0, rtcp.1))
            }
        }
  }

  /** validateRtpParameters */
  method CheckRtp(rtp: Item<RawRtp>) returns (r: Result<Rtp>)
    ensures r == ValidateRtp(rtp)
  {
    hide Each;
    if rtp.NotAnObject? {
      return Err("params is not an object");
    }
    if BadText(rtp.value.mid) {
      return Err("params.mid is not a string");
    }
    if !rtp.value.codecs.Present? {
      return Err("missing params.codecs");
    }
    var codecs := ValidateEach(rtp.value.codecs.value, ValidateCodecParameters);
    if codecs.Err? {
      return Err(codecs.message);
    }
    if rtp.value.headerExtensions.Malformed? {
      return Err("params.headerExtensions is not an array");
    }
    var exts := ValidateEach(OrEmpty(rtp.value.headerExtensions), ValidateExt);
    if exts.Err? {
      return Err(exts.message);
    }
    if rtp.value.encodings.Malformed? {
      return Err("params.encodings is not an array");
    }
    var encodings := ValidateEach(OrEmpty(rtp.value.encodings), ValidateEncoding);
    if encodings.Err? {
      return Err(encodings.message);
    }
    var rtcp := ValidateRtcp(rtp.value.rtcp);
    if rtcp.Err? {
      return Err(rtcp.message);
    }
    r := Ok(Rtp(OptionOf(rtp.value.mid), codecs.value, exts.value, encodings.value, rtcp.value.0, rtcp.value.1));
  }

  // ----- validated objects are fixed points -----

  function FieldOf<T>(o: Option<T>): Field<T> {
    if o.Some? then Present(o.value) else Absent
  }

  function RawFeedbacks(fbs: seq<Feedback>): (r: seq<Item<RawFeedback>>)
    ensures |r| == |fbs|
  {
    seq(|fbs|, i requires 0 <= i < |fbs| => Item(RawFeedback(Present(fbs[i].kind), Present(fbs[i].parameter))))
  }

  function AsRawCodec(c: Codec): Item<RawCodec> {
    Item(RawCodec(Present(c.mimeType), FieldOf(c.payloadType), Present(c.clockRate), FieldOf(c.channels),
      Present(c.parameters), Present(RawFeedbacks(c.rtcpFeedback))))
  }

  predicate ValidParams(p: Params) {
    forall i :: 0 <= i < |p| ==> ValidateParam(p[i]) == Ok(p[i])
  }

  /** The kind is read off the MIME type, and only "audio" codecs have channels. */
  predicate ValidCodec(c: Codec) {
    MediaKind(c.mimeType) == Some(c.kind) && (c.channels.Some? <==> c.kind == "audio") && ValidParams(c.parameters)
  }

  lemma ParamsValidate(p: Params, r: Params)
    ensures Each(p, ValidateParam) == Ok(r) <==> r == p && ValidParams(p)
  {
    EachOk(p, ValidateParam, r);
    if |r| == |p| && forall i :: 0 <= i < |p| ==> ValidateParam(p[i]) == Ok(r[i]) {
      assert forall i :: 0 <= i < |p| ==> r[i] == p[i];
      assert r == p;
    }
  }

  lemma FeedbackValidates(fbs: seq<Feedback>)
    ensures Each(RawFeedbacks(fbs), ValidateFeedback) == Ok(fbs)
  {
    EachOk(RawFeedbacks(fbs), ValidateFeedback, fbs);
  }

  /** What a validator lets through is valid ... */
  lemma CodecIsValid(item: Item<RawCodec>, mandatory: bool)
    requires ValidateCodec(item, mandatory).Ok?
    ensures var c := ValidateCodec(item, mandatory).value; ValidCodec(c) && (mandatory ==> c.payloadType.Some?)
  {
    hide Each, ValidateFeedback, MediaKind, ValidParams;
    var parameters := Each(OrEmpty(item.value.parameters), ValidateParam);
    ParamsValidate(OrEmpty(item.value.parameters), parameters.value);
  }

  /** ... and is let through unchanged, exactly when it is valid. */
  lemma CodecValidates(c: Codec, mandatory: bool)
    ensures ValidateCodec(AsRawCodec(c), mandatory) == Ok(c) <==> ValidCodec(c) && (mandatory ==> c.payloadType.Some?)
  {
    hide Each, ValidateFeedback, MediaKind, ValidParams;
    FeedbackValidates(c.rtcpFeedback);
    ParamsValidate(c.parameters, c.parameters);
    if ValidateCodec(AsRawCodec(c), mandatory) == Ok(c) {
      CodecIsValid(AsRawCodec(c), mandatory);
    }
  }

  function AsRawCodecs(codecs: seq<Codec>): (r: seq<Item<RawCodec>>)
    ensures |r| == |codecs|
  {
    seq(|codecs|, i requires 0 <= i < |codecs| => AsRawCodec(codecs[i]))
  }

  function AsRawExtCap(e: ExtCap): Item<RawExtCap> {
    Item(RawExtCap(Present(e.kind), Present(e.uri), Present(e.preferredId), Present(e.preferredEncrypt),
      Present(e.direction)))
  }

  function AsRawExtCaps(exts: seq<ExtCap>): (r: seq<Item<RawExtCap>>)
    ensures |r| == |exts|
  {
    seq(|exts|, i requires 0 <= i < |exts| => AsRawExtCap(exts[i]))
  }

  function AsRawCaps(caps: Caps): Item<RawCaps> {
    Item(RawCaps(Present(AsRawCodecs(caps.codecs)), Present(AsRawExtCaps(caps.headerExtensions))))
  }

  predicate ValidExtCap(e: ExtCap) {
    (e.kind == "audio" || e.kind == "video") && e.uri != ""
  }

  predicate ValidCodecs(codecs: seq<Codec>) {
    forall i :: 0 <= i < |codecs| ==> ValidCodec(codecs[i])
  }

  predicate ValidExtCaps(exts: seq<ExtCap>) {
    forall i :: 0 <= i < |exts| ==> ValidExtCap(exts[i])
  }

  predicate ValidCaps(caps: Caps) {
    ValidCodecs(caps.codecs) && ValidExtCaps(caps.headerExtensions)
  }

  lemma CodecsValidate(codecs: seq<Codec>)
    ensures Each(AsRawCodecs(codecs), ValidateCodecCap) == Ok(codecs) <==> ValidCodecs(codecs)
  {
    hide Each, AsRawCodec, ValidCodec, ValidateCodec;
    EachOk(AsRawCodecs(codecs), ValidateCodecCap, codecs);
    forall i | 0 <= i < |codecs|
      ensures ValidateCodecCap(AsRawCodecs(codecs)[i]) == Ok(codecs[i]) <==> ValidCodec(codecs[i])
    {
      CodecValidates(codecs[i], false);
    }
    if ValidCodecs(codecs) {
    } else {
      var i :| 0 <= i < |codecs| && !ValidCodec(codecs[i]);
      assert ValidateCodecCap(AsRawCodecs(codecs)[i]) != Ok(codecs[i]);
    }
  }

  lemma ExtCapsValidate(exts: seq<ExtCap>)
    ensures Each(AsRawExtCaps(exts), ValidateExtCap) == Ok(exts) <==> ValidExtCaps(exts)
  {
    hide Each;
    EachOk(AsRawExtCaps(exts), ValidateExtCap, exts);
    forall i | 0 <= i < |exts|
      ensures ValidateExtCap(AsRawExtCaps(exts)[i]) == Ok(exts[i]) <==> ValidExtCap(exts[i])
    {
    }
    if ValidExtCaps(exts) {
    } else {
      var i :| 0 <= i < |exts| && !ValidExtCap(exts[i]);
      assert ValidateExtCap(AsRawExtCaps(exts)[i]) != Ok(exts[i]);
    }
  }

  lemma CapsAreValid(caps: Item<RawCaps>)
    requires ValidateCaps(caps).Ok?
    ensures ValidCaps(ValidateCaps(caps).value)
  {
    hide Each, ValidateCodec, ValidCodec;
    var v := ValidateCaps(caps).value;
    EachOk(OrEmpty(caps.value.codecs), ValidateCodecCap, v.codecs);
    EachOk(OrEmpty(caps.value.headerExtensions), ValidateExtCap, v.headerExtensions);
    forall i | 0 <= i < |v.codecs|
      ensures ValidCodec(v.codecs[i])
    {
      CodecIsValid(OrEmpty(caps.value.codecs)[i], false);
    }
    forall i | 0 <= i < |v.headerExtensions|
      ensures ValidExtCap(v.headerExtensions[i])
    {
      assert ValidateExtCap(OrEmpty(caps.value.headerExtensions)[i]) == Ok(v.headerExtensions[i]);
    }
  }

  lemma CapsValidate(caps: Caps)
    ensures ValidateCaps(AsRawCaps(caps)) == Ok(caps) <==> ValidCaps(caps)
  {
    hide Each, ValidCodecs, ValidExtCaps, AsRawCodecs, AsRawExtCaps;
    CodecsValidate(caps.codecs);
    ExtCapsValidate(caps.headerExtensions);
  }

  /** Validating twice is validating once. */
  lemma ValidateTwice(caps: Item<RawCaps>)
    requires ValidateCaps(caps).Ok?
    ensures ValidateCaps(AsRawCaps(ValidateCaps(caps).value)) == ValidateCaps(caps)
  {
    hide ValidateCaps, ValidCaps;
    CapsAreValid(caps);
    CapsValidate(ValidateCaps(caps).value);
  }

  // ----- the same for parameters -----

  function AsRawExts(exts: seq<Ext>): (r: seq<Item<RawExt>>)
    ensures |r| == |exts|
  {
    seq(|exts|, i requires 0 <= i < |exts| =>
      Item(RawExt(Present(exts[i].uri), Present(exts[i].id), Present(exts[i].encrypt), Present(exts[i].parameters))))
  }

  function AsRawEncoding(e: Encoding): Item<RawEncoding> {
    Item(RawEncoding(FieldOf(e.ssrc), FieldOf(e.rid), if e.rtxSsrc.Some? then Present(Present(e.rtxSsrc.value))
      else Absent, Present(e.dtx), FieldOf(e.scalabilityMode)))
  }

  function AsRawEncodings(encodings: seq<Encoding>): (r: seq<Item<RawEncoding>>)
    ensures |r| == |encodings|
  {
    seq(|encodings|, i requires 0 <= i < |encodings| => AsRawEncoding(encodings[i]))
  }

  function AsRawRtp(r: Rtp): Item<RawRtp> {
    Item(RawRtp(FieldOf(r.mid), Present(AsRawCodecs(r.codecs)), Present(AsRawExts(r.headerExtensions)),
      Present(AsRawEncodings(r.encodings)), Present(RawRtcp(FieldOf(r.cname), Present(r.reducedSize)))))
  }

  predicate ValidExtParams(p: Params) {
    forall i :: 0 <= i < |p| ==> ValidateExtParam(p[i]) == Ok(p[i])
  }

  predicate ValidExt(e: Ext) {
    e.uri != "" && ValidExtParams(e.parameters)
  }

  predicate ValidEncoding(e: Encoding) {
    e.rid != Some("") && e.scalabilityMode != Some("")
  }

  predicate ValidRtp(r: Rtp) {
    && r.mid != Some("")
    && (forall i :: 0 <= i < |r.codecs| ==> ValidCodec(r.codecs[i]) && r.codecs[i].payloadType.Some?)
    && (forall i :: 0 <= i < |r.headerExtensions| ==> ValidExt(r.headerExtensions[i]))
    && (forall i :: 0 <= i < |r.encodings| ==> ValidEncoding(r.encodings[i]))
  }

  lemma ExtParamsValidate(p: Params, r: Params)
    ensures Each(p, ValidateExtParam) == Ok(r) <==> r == p && ValidExtParams(p)
  {
    EachOk(p, ValidateExtParam, r);
    if |r| == |p| && forall i :: 0 <= i < |p| ==> ValidateExtParam(p[i]) == Ok(r[i]) {
      assert forall i :: 0 <= i < |p| ==> r[i] == p[i];
      assert r == p;
    }
  }

  lemma RtpIsValid(rtp: Item<RawRtp>)
    requires ValidateRtp(rtp).Ok?
    ensures ValidRtp(ValidateRtp(rtp).value)
  {
    hide Each, ValidateCodec, ValidCodec, ValidateExt, ValidateEncoding;
    var v := ValidateRtp(rtp).value;
    EachOk(rtp.value.codecs.value, ValidateCodecParameters, v.codecs);
    EachOk(OrEmpty(rtp.value.headerExtensions), ValidateExt, v.headerExtensions);
    EachOk(OrEmpty(rtp.value.encodings), ValidateEncoding, v.encodings);
    forall i | 0 <= i < |v.codecs|
      ensures ValidCodec(v.codecs[i]) && v.codecs[i].payloadType.Some?
    {
      assert ValidateCodecParameters(rtp.value.codecs.value[i]) == Ok(v.codecs[i]);
      CodecIsValid(rtp.value.codecs.value[i], true);
    }
    forall i | 0 <= i < |v.headerExtensions|
      ensures ValidExt(v.headerExtensions[i])
    {
      ExtIsValid(OrEmpty(rtp.value.headerExtensions)[i]);
    }
    forall i | 0 <= i < |v.encodings|
      ensures ValidEncoding(v.encodings[i])
    {
      EncodingIsValid(OrEmpty(rtp.value.encodings)[i]);
    }
  }

  lemma ExtIsValid(item: Item<RawExt>)
    requires ValidateExt(item).Ok?
    ensures ValidExt(ValidateExt(item).value)
  {
    hide Each;
    ExtParamsValidate(OrEmpty(item.value.parameters), ValidateExt(item).value.parameters);
  }

  lemma EncodingIsValid(item: Item<RawEncoding>)
    requires ValidateEncoding(item).Ok?
    ensures ValidEncoding(ValidateEncoding(item).value)
  {
  }

  /** Valid parameters are let through unchanged. */
  lemma RtpValidates(r: Rtp)
    requires ValidRtp(r)
    ensures ValidateRtp(AsRawRtp(r)) == Ok(r)
  {
    hide Each, ValidateCodec, ValidCodec, AsRawCodec, ValidateExt, ValidExt, ValidateEncoding, ValidEncoding,
      AsRawExts, AsRawEncodings;
    EachOk(AsRawCodecs(r.codecs), ValidateCodecParameters, r.codecs);
    forall i | 0 <= i < |r.codecs|
      ensures ValidateCodecParameters(AsRawCodecs(r.codecs)[i]) == Ok(r.codecs[i])
    {
      CodecValidates(r.codecs[i], true);
    }
    ExtsValidate(r.headerExtensions);
    EncodingsValidate(r.encodings);
  }

  lemma ExtsValidate(exts: seq<Ext>)
    requires forall i :: 0 <= i < |exts| ==> ValidExt(exts[i])
    ensures Each(AsRawExts(exts), ValidateExt) == Ok(exts)
  {
    hide Each;
    EachOk(AsRawExts(exts), ValidateExt, exts);
    forall i | 0 <= i < |exts|
      ensures ValidateExt(AsRawExts(exts)[i]) == Ok(exts[i])
    {
      assert ValidExt(exts[i]);
      ExtParamsValidate(exts[i].parameters, exts[i].parameters);
    }
  }

  lemma EncodingsValidate(encodings: seq<Encoding>)
    requires forall i :: 0 <= i < |encodings| ==> ValidEncoding(encodings[i])
    ensures Each(AsRawEncodings(encodings), ValidateEncoding) == Ok(encodings)
  {
    hide Each;
    EachOk(AsRawEncodings(encodings), ValidateEncoding, encodings);
    forall i | 0 <= i < |encodings|
      ensures ValidateEncoding(AsRawEncodings(encodings)[i]) == Ok(encodings[i])
    {
      assert ValidEncoding(encodings[i]);
    }
  }

  // ----- what valid codecs cannot say -----

  /** The MIME type may be spelled in capitals, but then the kind is not "audio": the given
      channels are dropped and no default is filled in. */
  lemma CapitalKind(channels: Field<int>)
    ensures var item := Item(RawCodec(Present("AUDIO/opus"), Absent, Present(48000), channels, Absent, Absent));
      ValidateCodecCap(item) == Ok(Codec("AUDIO/opus", "AUDIO", None, 48000, None, [], []))
  {
    assert Lower("AUDIO/opus") == "audio/opus";
    assert "AUDIO/opus"[..5] == "AUDIO" && "audio/" <= "audio/opus";
  }

  lemma {:induction false} NoBooleans(p: Params, key: string)
    requires ValidParams(p)
    ensures match Find(p, key) { case Some(PBool(_)) => false case _ => true }
  {
    if p != [] {
      assert ValidateParam(p[0]) == Ok(p[0]);
      assert ValidParams(p[1..]);
      NoBooleans(p[1..], key);
    }
  }

  /** `sprop-stereo` counts only as a boolean, which no valid codec parameter is: for validated
      parameters applyCodecParameters never sets `stereo`, whatever the configuration. */
  lemma StereoNeverSet(rtp: Item<RawRtp>, i: nat, config: string, read: string -> Double)
    requires ValidateRtp(rtp).Ok? && i < |ValidateRtp(rtp).value.codecs|
    ensures var sprop := Find(ValidateRtp(rtp).value.codecs[i].parameters, "sprop-stereo");
      && ApplyParameters.WithStereo(FmtpConfig.ParseParams(config, read), sprop) == FmtpConfig.ParseParams(config, read)
      && ApplyParameters.NewConfig(config, sprop, read) == ApplyParameters.NewConfig(config, None, read)
  {
    hide ValidateRtp, FmtpConfig.ParseParams, FmtpConfig.ConfigText;
    RtpIsValid(rtp);
    NoBooleans(ValidateRtp(rtp).value.codecs[i].parameters, "sprop-stereo");
  }
}
