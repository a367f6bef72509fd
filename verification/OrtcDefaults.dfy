/** What the validators accept and fill in, member by member. */
module OrtcDefaults {
  import opened Text
  import opened Regex
  import opened RtpTypes
  import opened SsrcUtils
  import opened OrtcValidation

  /** What a member becomes, with a default where it is missing or of another type. */
  function Or<T>(f: Field<T>, default: T): T {
    if f.Present? then f.value else default
  }

  /** Audio or video, whatever the case, a slash and more, on one line. */
  predicate MediaType(mimeType: string) {
    && |mimeType| > 6 && mimeType[5] == '/' && (Lower(mimeType[..5]) == "audio" || Lower(mimeType[..5]) == "video")
    && AllIn(mimeType[6..], Any)
  }

  lemma KindIs(mimeType: string)
    ensures MediaKind(mimeType) == if MediaType(mimeType) then Some(mimeType[..5]) else None
  {
    var lower := Lower(mimeType);
    if |mimeType| > 6 {
      assert lower[..6] == lower[..5] + [lower[5]];
      assert Lower(mimeType[..5]) == lower[..5];
      SlashStays(mimeType[5]);
      assert "audio/" == "audio" + ['/'] && "video/" == "video" + ['/'];
      assert "audio/" <= lower <==> lower[..6] == "audio/";
      assert "video/" <= lower <==> lower[..6] == "video/";
      SameStart(lower, "audio");
      SameStart(lower, "video");
    }
  }

  lemma SameStart(lower: string, kind: string)
    requires |lower| > 6 && |kind| == 5
    ensures lower[..6] == kind + ['/'] <==> lower[..5] == kind && lower[5] == '/'
  {
    assert lower[..6] == lower[..5] + [lower[5]];
  }

  lemma SlashStays(c: char)
    ensures Lower([c])[0] == '/' <==> c == '/'
  {
  }

  predicate FeedbackFilled(item: Item<RawFeedback>, fb: Feedback) {
    && item.Item? && item.value.kind == Present(fb.kind) && fb.parameter == Or(item.value.parameter, "")
  }

  /** Everything but booleans and values that are no JSON scalar; an `apt` must be an integer. */
  predicate GoodParam(p: Param) {
    !p.value.PBool? && (p.key == "apt" ==> p.value.PInt?)
  }

  predicate GoodFeedback(item: Item<RawFeedback>) {
    item.Item? && item.value.kind.Present?
  }

  /** Which codecs are let through. */
  predicate GoodCodec(item: Item<RawCodec>, mandatory: bool) {
    && item.Item? && item.value.mimeType.Present? && MediaType(item.value.mimeType.value)
    && (item.value.payloadType.Present? || (item.value.payloadType.Absent? && !mandatory))
    && item.value.clockRate.Present?
    && (item.value.parameters.Present? ==>
          forall i :: 0 <= i < |item.value.parameters.value| ==> GoodParam(item.value.parameters.value[i]))
    && (item.value.rtcpFeedback.Present? ==>
          forall i :: 0 <= i < |item.value.rtcpFeedback.value| ==> GoodFeedback(item.value.rtcpFeedback.value[i]))
  }

  /** And what they become. */
  predicate CodecFilled(c: RawCodec, v: Codec) {
    && c.mimeType == Present(v.mimeType) && |v.mimeType| > 6 && v.kind == v.mimeType[..5]
    && v.payloadType == (if c.payloadType.Present? then Some(c.payloadType.value) else None)
    && c.clockRate == Present(v.clockRate)
    && v.channels == (if v.kind == "audio" then Some(Or(c.channels, 1)) else None)
    && v.parameters == Or(c.parameters, [])
    && |v.rtcpFeedback| == |Or(c.rtcpFeedback, [])|
    && forall i :: 0 <= i < |v.rtcpFeedback| ==> FeedbackFilled(Or(c.rtcpFeedback, [])[i], v.rtcpFeedback[i])
  }

  lemma CodecDefaults(item: Item<RawCodec>, mandatory: bool)
    ensures ValidateCodec(item, mandatory).Ok? <==> GoodCodec(item, mandatory)
    ensures GoodCodec(item, mandatory) ==> CodecFilled(item.value, ValidateCodec(item, mandatory).value)
  {
    hide Each, MediaKind, MediaType, Lower;
    if item.Item? && item.value.mimeType.Present? {
      KindIs(item.value.mimeType.value);
      ParamsPass(OrEmpty(item.value.parameters));
      FeedbackPasses(OrEmpty(item.value.rtcpFeedback));
      assert MediaType(item.value.mimeType.value) ==> |item.value.mimeType.value| > 6 by {
        LongEnough(item.value.mimeType.value);
      }
    }
  }

  lemma LongEnough(mimeType: string)
    ensures MediaType(mimeType) ==> |mimeType| > 6
  {
  }

  lemma ParamsPass(p: Params)
    ensures var r := Each(p, ValidateParam);
      (r.Ok? <==> forall i :: 0 <= i < |p| ==> GoodParam(p[i])) && (r.Ok? ==> r.value == p)
  {
    hide Each;
    EachSucceeds(p, ValidateParam);
    var r := Each(p, ValidateParam);
    if r.Ok? {
      ParamsValidate(p, r.value);
    }
  }

  lemma FeedbackPasses(items: seq<Item<RawFeedback>>)
    ensures var r := Each(items, ValidateFeedback);
      && (r.Ok? <==> forall i :: 0 <= i < |items| ==> GoodFeedback(items[i]))
      && (r.Ok? ==> |r.value| == |items| && forall i :: 0 <= i < |items| ==> FeedbackFilled(items[i], r.value[i]))
  {
    hide Each;
    EachSucceeds(items, ValidateFeedback);
    var r := Each(items, ValidateFeedback);
    if r.Ok? {
      EachOk(items, ValidateFeedback, r.value);
    }
  }

  // ----- capabilities -----

  predicate GoodExtCap(item: Item<RawExtCap>) {
    && item.Item? && (item.value.kind == Present("audio") || item.value.kind == Present("video"))
    && item.value.uri.Present? && item.value.uri != Present("") && item.value.preferredId.Present?
    && !item.value.preferredEncrypt.Malformed? && !item.value.direction.Malformed?
  }

  predicate ExtCapFilled(e: RawExtCap, v: ExtCap) {
    && e.kind == Present(v.kind) && e.uri == Present(v.uri) && e.preferredId == Present(v.preferredId)
    && v.preferredEncrypt == Or(e.preferredEncrypt, false) && v.direction == Or(e.direction, "sendrecv")
  }

  predicate GoodCaps(caps: Item<RawCaps>) {
    && caps.Item? && !caps.value.codecs.Malformed? && !caps.value.headerExtensions.Malformed?
    && (forall i :: 0 <= i < |Or(caps.value.codecs, [])| ==> GoodCodec(Or(caps.value.codecs, [])[i], false))
    && (forall i ::
      0 <= i < |Or(caps.value.headerExtensions, [])|
      ==> GoodExtCap(Or(caps.value.headerExtensions, [])[i]))
  }

  predicate CodecsFilled(items: seq<Item<RawCodec>>, vs: seq<Codec>) {
    |vs| == |items| && forall i :: 0 <= i < |vs| ==> items[i].Item? && CodecFilled(items[i].value, vs[i])
  }

  predicate ExtCapsFilled(items: seq<Item<RawExtCap>>, vs: seq<ExtCap>) {
    |vs| == |items| && forall i :: 0 <= i < |vs| ==> items[i].Item? && ExtCapFilled(items[i].value, vs[i])
  }

  lemma CodecsPass(items: seq<Item<RawCodec>>, mandatory: bool, validate: Item<RawCodec> -> Result<Codec>)
    requires forall item :: validate(item) == ValidateCodec(item, mandatory)
    ensures var r := Each(items, validate);
      && (r.Ok? <==> forall i :: 0 <= i < |items| ==> GoodCodec(items[i], mandatory))
      && (r.Ok? ==> CodecsFilled(items, r.value))
  {
    hide Each, GoodCodec, CodecFilled, ValidateCodec;
    EachSucceeds(items, validate);
    var r := Each(items, validate);
    if r.Ok? {
      EachOk(items, validate, r.value);
    }
    forall i | 0 <= i < |items|
      ensures validate(items[i]).Ok? <==> GoodCodec(items[i], mandatory)
      ensures validate(items[i]).Ok? ==> items[i].Item? && CodecFilled(items[i].value, validate(items[i]).value)
    {
      CodecDefaults(items[i], mandatory);
      OnlyObjects(items[i], mandatory);
    }
  }

  lemma OnlyObjects(item: Item<RawCodec>, mandatory: bool)
    ensures GoodCodec(item, mandatory) ==> item.Item?
  {
  }

  lemma ExtCapDefaults(item: Item<RawExtCap>)
    ensures ValidateExtCap(item).Ok? <==> GoodExtCap(item)
    ensures GoodExtCap(item) ==> item.Item? && ExtCapFilled(item.value, ValidateExtCap(item).value)
  {
  }

  lemma ExtCapsPass(items: seq<Item<RawExtCap>>)
    ensures var r := Each(items, ValidateExtCap);
      && (r.Ok? <==> forall i :: 0 <= i < |items| ==> GoodExtCap(items[i]))
      && (r.Ok? ==> ExtCapsFilled(items, r.value))
  {
    hide Each, ValidateExtCap, GoodExtCap, ExtCapFilled;
    EachSucceeds(items, ValidateExtCap);
    var r := Each(items, ValidateExtCap);
    if r.Ok? {
      EachOk(items, ValidateExtCap, r.value);
    }
    forall i | 0 <= i < |items|
      ensures ValidateExtCap(items[i]).Ok? <==> GoodExtCap(items[i])
      ensures GoodExtCap(items[i]) ==> items[i].Item? && ExtCapFilled(items[i].value, ValidateExtCap(items[i]).value)
    {
      ExtCapDefaults(items[i]);
    }
  }

  /** Exactly the capabilities that are let through, and what they are filled up to. */
  lemma CapsDefaults(caps: Item<RawCaps>)
    ensures ValidateCaps(caps).Ok? <==> GoodCaps(caps)
    ensures GoodCaps(caps) ==>
      && CodecsFilled(Or(caps.value.codecs, []), ValidateCaps(caps).value.codecs)
      && ExtCapsFilled(Or(caps.value.headerExtensions, []), ValidateCaps(caps).value.headerExtensions)
  {
    hide Each, GoodCodec, GoodExtCap, CodecsFilled, ExtCapsFilled, ValidateCodec, ValidateExtCap;
    if caps.Item? {
      assert OrEmpty(caps.value.codecs) == Or(caps.value.codecs, []);
      assert OrEmpty(caps.value.headerExtensions) == Or(caps.value.headerExtensions, []);
      CodecsPass(OrEmpty(caps.value.codecs), false, ValidateCodecCap);
      ExtCapsPass(OrEmpty(caps.value.headerExtensions));
    }
  }

  // ----- parameters -----

  predicate GoodExtParam(p: Param) {
    !p.value.PBool? && !p.value.PNull?
  }

  predicate GoodExt(item: Item<RawExt>) {
    && item.Item? && item.value.uri.Present? && item.value.uri != Present("") && item.value.id.Present?
    && !item.value.encrypt.Malformed?
    && forall i :: 0 <= i < |Or(item.value.parameters, [])| ==> GoodExtParam(Or(item.value.parameters, [])[i])
  }

  predicate ExtFilled(e: RawExt, v: Ext) {
    && e.uri == Present(v.uri) && e.id == Present(v.id) && v.encrypt == Or(e.encrypt, false)
    && v.parameters == Or(e.parameters, [])
  }

  predicate GoodEncoding(item: Item<RawEncoding>) {
    && item.Item? && !item.value.ssrc.Malformed? && !item.value.rid.Malformed? && item.value.rid != Present("")
    && (item.value.rtx.Absent? || (item.value.rtx.Present? && item.value.rtx.value.Present?))
    && !item.value.scalabilityMode.Malformed? && item.value.scalabilityMode != Present("")
  }

  /** A member that is given, or not. */
  predicate Given<T(==)>(f: Field<T>, v: Option<T>) {
    if v.Some? then f == Present(v.value) else f == Absent
  }

  predicate EncodingFilled(e: RawEncoding, v: Encoding) {
    && Given(e.ssrc, v.ssrc) && Given(e.rid, v.rid) && Given(e.scalabilityMode, v.scalabilityMode)
    && (if v.rtxSsrc.Some? then e.rtx == Present(Present(v.rtxSsrc.value)) else e.rtx == Absent)
    && v.dtx == Or(e.dtx, false)
  }

  predicate GoodRtp(rtp: Item<RawRtp>) {
    && rtp.Item? && !rtp.value.mid.Malformed? && rtp.value.mid != Present("") && rtp.value.codecs.Present?
    && (forall i :: 0 <= i < |rtp.value.codecs.value| ==> GoodCodec(rtp.value.codecs.value[i], true))
    && !rtp.value.headerExtensions.Malformed? && !rtp.value.encodings.Malformed? && !rtp.value.rtcp.Malformed?
    && (forall i :: 0 <= i < |Or(rtp.value.headerExtensions, [])| ==> GoodExt(Or(rtp.value.headerExtensions, [])[i]))
    && (forall i :: 0 <= i < |Or(rtp.value.encodings, [])| ==> GoodEncoding(Or(rtp.value.encodings, [])[i]))
    && (rtp.value.rtcp.Present? ==> !rtp.value.rtcp.value.cname.Malformed?)
  }

  predicate ExtsFilled(items: seq<Item<RawExt>>, vs: seq<Ext>) {
    |vs| == |items| && forall i :: 0 <= i < |vs| ==> items[i].Item? && ExtFilled(items[i].value, vs[i])
  }

  predicate EncodingsFilled(items: seq<Item<RawEncoding>>, vs: seq<Encoding>) {
    |vs| == |items| && forall i :: 0 <= i < |vs| ==> items[i].Item? && EncodingFilled(items[i].value, vs[i])
  }

  /** Without `rtcp` there is no cname, and reducedSize is set. */
  predicate RtcpFilled(rtcp: Field<RawRtcp>, cname: Option<string>, reducedSize: bool) {
    if rtcp.Present? then Given(rtcp.value.cname, cname) && reducedSize == Or(rtcp.value.reducedSize, true)
    else cname == None && reducedSize
  }

  lemma ExtParamsPass(p: Params)
    ensures var r := Each(p, ValidateExtParam);
      (r.Ok? <==> forall i :: 0 <= i < |p| ==> GoodExtParam(p[i])) && (r.Ok? ==> r.value == p)
  {
    hide Each;
    EachSucceeds(p, ValidateExtParam);
    var r := Each(p, ValidateExtParam);
    if r.Ok? {
      ExtParamsValidate(p, r.value);
    }
  }

  lemma ExtDefaults(item: Item<RawExt>)
    ensures ValidateExt(item).Ok? <==> GoodExt(item)
    ensures GoodExt(item) ==> item.Item? && ExtFilled(item.value, ValidateExt(item).value)
  {
    hide Each, GoodExtParam;
    if item.Item? {
      assert OrEmpty(item.value.parameters) == Or(item.value.parameters, []);
      ExtParamsPass(OrEmpty(item.value.parameters));
    }
  }

  lemma ExtsPass(items: seq<Item<RawExt>>)
    ensures var r := Each(items, ValidateExt);
      && (r.Ok? <==> forall i :: 0 <= i < |items| ==> GoodExt(items[i]))
      && (r.Ok? ==> ExtsFilled(items, r.value))
  {
    hide Each, ValidateExt, GoodExt, ExtFilled;
    EachSucceeds(items, ValidateExt);
    var r := Each(items, ValidateExt);
    if r.Ok? {
      EachOk(items, ValidateExt, r.value);
    }
    forall i | 0 <= i < |items|
      ensures ValidateExt(items[i]).Ok? <==> GoodExt(items[i])
      ensures GoodExt(items[i]) ==> items[i].Item? && ExtFilled(items[i].value, ValidateExt(items[i]).value)
    {
      ExtDefaults(items[i]);
    }
  }

  lemma EncodingDefaults(item: Item<RawEncoding>)
    ensures ValidateEncoding(item).Ok? <==> GoodEncoding(item)
    ensures GoodEncoding(item) ==> item.Item? && EncodingFilled(item.value, ValidateEncoding(item).value)
  {
  }

  lemma EncodingsPass(items: seq<Item<RawEncoding>>)
    ensures var r := Each(items, ValidateEncoding);
      && (r.Ok? <==> forall i :: 0 <= i < |items| ==> GoodEncoding(items[i]))
      && (r.Ok? ==> EncodingsFilled(items, r.value))
  {
    hide Each, ValidateEncoding, GoodEncoding, EncodingFilled;
    EachSucceeds(items, ValidateEncoding);
    var r := Each(items, ValidateEncoding);
    if r.Ok? {
      EachOk(items, ValidateEncoding, r.value);
    }
    forall i | 0 <= i < |items|
      ensures ValidateEncoding(items[i]).Ok? <==> GoodEncoding(items[i])
      ensures GoodEncoding(items[i])
        ==> items[i].Item? && EncodingFilled(items[i].value, ValidateEncoding(items[i]).value)
    {
      EncodingDefaults(items[i]);
    }
  }

  /** Exactly the RTP parameters that are let through, and what they are filled up to. */
  lemma RtpDefaults(rtp: Item<RawRtp>)
    ensures ValidateRtp(rtp).Ok? <==> GoodRtp(rtp)
    ensures GoodRtp(rtp) ==>
      var v := ValidateRtp(rtp).value;
      && Given(rtp.value.mid, v.mid) && CodecsFilled(rtp.value.codecs.value, v.codecs)
      && ExtsFilled(Or(rtp.value.headerExtensions, []), v.headerExtensions)
      && EncodingsFilled(Or(rtp.value.encodings, []), v.encodings) && RtcpFilled(rtp.value.rtcp, v.cname, v.reducedSize)
  {
    hide Each, GoodCodec, GoodExt, GoodEncoding, CodecsFilled, ExtsFilled, EncodingsFilled, ValidateCodec, ValidateExt,
      ValidateEncoding;
    if rtp.Item? {
      if rtp.value.codecs.Present? {
        CodecsPass(rtp.value.codecs.value, true, ValidateCodecParameters);
      }
      assert OrEmpty(rtp.value.headerExtensions) == Or(rtp.value.headerExtensions, []);
      assert OrEmpty(rtp.value.encodings) == Or(rtp.value.encodings, []);
      ExtsPass(OrEmpty(rtp.value.headerExtensions));
      EncodingsPass(OrEmpty(rtp.value.encodings));
    }
  }
}
