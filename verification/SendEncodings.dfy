/** The encodings a sending handler reports: read from the local offer, completed with a given
    one, or the given ones as they are. */
module SendEncodings {
  import opened Text
  import opened Json
  import opened SdpText
  import opened RtpTypes
  import opened SsrcUtils
  import opened MediaObjects

  /** What the caller asks for; its other settings are copied in the same way as the mode. */
  datatype GivenEncoding = GivenEncoding(rid: string, scalabilityMode: Option<string>)

  datatype SentEncoding = SentEncoding(ssrc: Option<int>, rtxSsrc: Option<int>, rid: Option<string>,
      scalabilityMode: Option<string>)

  /** The rid of the idx-th encoding; the counter has one byte. */
  function RidOf(idx: nat): string {
    "r" + Digits(idx % 256)
  }

  /** Two and more encodings are numbered, whatever their rids. */
  function Numbered(given: seq<GivenEncoding>): (r: seq<GivenEncoding>)
    ensures |r| == |given|
  {
    if |given| <= 1 then given else seq(|given|, i requires 0 <= i < |given| => given[i].(rid := RidOf(i)))
  }

  /** fillJsonRtpEncodingParameters */
  function Fill(e: SentEncoding, g: GivenEncoding): SentEncoding {
    e.(rid := if g.rid != "" then Some(g.rid) else e.rid,
       scalabilityMode := if g.scalabilityMode.Some? then g.scalabilityMode else e.scalabilityMode)
  }

  const NO_ENCODING := SentEncoding(None, None, None, None)

  function AllFilled(given: seq<GivenEncoding>): (r: seq<SentEncoding>)
    ensures |r| == |given|
  {
    seq(|given|, i requires 0 <= i < |given| => Fill(NO_ENCODING, given[i]))
  }

  function Reported(es: seq<EncodingParameters>): (r: seq<SentEncoding>)
    ensures |r| == |es|
  {
    seq(|es|, i requires 0 <= i < |es| => SentEncoding(es[i].ssrc, es[i].rtxSsrc, None, None))
  }

  /** VP9 with several spatial layers is offered as simulcast and reported as one stream. */
  predicate IsSvc(given: seq<GivenEncoding>, layers: nat, mimeType: string) {
    |given| == 1 && layers > 1 && Lower(mimeType) == "video/vp9"
  }

  /** The simulcast codecs get a mode of their own. */
  function WithModes(es: seq<SentEncoding>, mimeType: string): (r: seq<SentEncoding>)
    ensures |r| == |es|
  {
    if |es| > 1 && (Lower(mimeType) == "video/vp8" || Lower(mimeType) == "video/h264")
    then seq(|es|, i requires 0 <= i < |es| => es[i].(scalabilityMode := Some("S1T3")))
    else es
  }

  /** A single given encoding completes the first one of the offer, which must be there. */
  predicate CanComplete(offer: Object, given: seq<GivenEncoding>) {
    |given| <= 1 ==>
      ReadableOffer(offer)
      && (|given| == 1 && RtpEncodings(offer).Ok? ==> RtpEncodings(offer).value != [])
  }

  function Completed(es: seq<SentEncoding>, given: seq<GivenEncoding>, svc: bool): seq<SentEncoding>
    requires |given| == 1 ==> es != []
  {
    if |given| != 1 then es
    else if svc then [Fill(es[0], given[0])]
    else es[0 := Fill(es[0], given[0])]
  }

  function EncodingsOf(offer: Object, given: seq<GivenEncoding>, mimeType: string,
      layers: nat): Result<seq<SentEncoding>>
    requires CanComplete(offer, given)
  {
    if |given| > 1 then Ok(WithModes(AllFilled(Numbered(given)), mimeType))
    else
      match RtpEncodings(offer)
      case Err(m) => Err(m)
      case Ok(es) => Ok(WithModes(Completed(Reported(es), given, IsSvc(given, layers, mimeType)), mimeType))
  }

  lemma NextByte(i: nat)
    ensures (i % 256 + 1) % 256 == (i + 1) % 256
  {
  }

  method NumberEncodings(given: seq<GivenEncoding>) returns (r: seq<GivenEncoding>)
    ensures r == Numbered(given)
  {
    hide Digits;
    r := given;
    if |given| > 1 {
      var idx := 0;
      for i := 0 to |given|
        invariant |r| == |given| && idx == i % 256
        invariant forall j :: 0 <= j < |given| ==> r[j] == if j < i then given[j].(rid := RidOf(j)) else given[j]
      {
        r := r[i := r[i].(rid := "r" + Digits(idx))];
        NextByte(i);
        idx := (idx + 1) % 256;
      }
    }
  }

  method SetModes(es: seq<SentEncoding>, mimeType: string) returns (r: seq<SentEncoding>)
    ensures r == WithModes(es, mimeType)
  {
    r := es;
    if |es| > 1 && (Lower(mimeType) == "video/vp8" || Lower(mimeType) == "video/h264") {
      for i := 0 to |es|
        invariant |r| == |es|
        invariant forall j :: 0 <= j < |es| ==> r[j] == if j < i then es[j].(scalabilityMode := Some("S1T3")) else es[j]
      {
        r := r[i := r[i].(scalabilityMode := Some("S1T3"))];
      }
    }
  }

  /** The part of Send between the local description and the answer; `layers` are the spatial layers
      of the given mode. */
  method CollectEncodings(offer: Object, given: seq<GivenEncoding>, mimeType: string, layers: nat)
    returns (r: Result<seq<SentEncoding>>)
    requires CanComplete(offer, given)
    ensures r == EncodingsOf(offer, given, mimeType, layers)
  {
    hide RtpEncodings, ReadableOffer, Lower, WithModes, Fill;
    var encodings: seq<SentEncoding> := [];
    if |given| <= 1 {
      var es := GetRtpEncodings(offer);
      if es.Err? {
        return Err(es.message);
      }
      encodings := Reported(es.value);
      if |given| == 1 {
        encodings := encodings[0 := Fill(encodings[0], given[0])];
        if IsSvc(given, layers, mimeType) {
          encodings := [encodings[0]];
        }
      }
      assert encodings == Completed(Reported(es.value), given, IsSvc(given, layers, mimeType));
    } else {
      var numbered := NumberEncodings(given);
      for i := 0 to |given|
        invariant encodings == AllFilled(numbered)[..i]
      {
        encodings := encodings + [Fill(NO_ENCODING, numbered[i])];
      }
      assert AllFilled(numbered)[..|given|] == AllFilled(numbered);
    }
    encodings := SetModes(encodings, mimeType);
    r := Ok(encodings);
  }

  /** Up to 256 given encodings are told apart by their rids, and are reported in their order; one
      given encoding or none leaves the SSRCs to the offer. */
  lemma EncodingsAgree(offer: Object, given: seq<GivenEncoding>, mimeType: string, layers: nat)
    requires CanComplete(offer, given) && EncodingsOf(offer, given, mimeType, layers).Ok?
    ensures var r := EncodingsOf(offer, given, mimeType, layers).value;
      && (|given| > 1 ==>
        && |r| == |given|
        && ((forall i, j :: 0 <= i < j < |r| ==> r[i].rid != r[j].rid) <==> |given| <= 256))
      && (|given| <= 1 ==>
           && RtpEncodings(offer).Ok?
           && |r| == (if IsSvc(given, layers, mimeType) then 1 else |RtpEncodings(offer).value|)
           && forall i :: 0 <= i < |r| ==>
                r[i].ssrc == RtpEncodings(offer).value[i].ssrc && r[i].rtxSsrc == RtpEncodings(offer).value[i].rtxSsrc)
  {
    hide RtpEncodings, ReadableOffer, Lower, Digits;
    var r := EncodingsOf(offer, given, mimeType, layers).value;
    if |given| > 1 {
      forall i | 0 <= i < |r|
        ensures r[i].rid == Some(RidOf(i))
      {
      }
      RidsDiffer(|given|);
      if |given| > 256 {
        assert r[0].rid == r[256].rid;
      }
    }
  }

  lemma RidsDiffer(n: nat)
    ensures n <= 256 ==> forall i: nat, j: nat :: i < j < n ==> RidOf(i) != RidOf(j)
  {
    hide Digits;
    if n <= 256 {
      forall i: nat, j: nat | i < j < n
        ensures RidOf(i) != RidOf(j)
      {
        if RidOf(i) == RidOf(j) {
          assert RidOf(i)[1..] == Digits(i) && RidOf(j)[1..] == Digits(j);
          DigitsInjective(i, j);
        }
      }
    }
  }

  /** The mode that is reported: S1T3 for VP8 and H264 simulcast. */
  function ModeOf(count: nat, mimeType: string, mode: Option<string>): Option<string> {
    if count > 1 && Lower(mimeType) in {"video/vp8", "video/h264"} then Some("S1T3") else mode
  }

  /** Encoding by encoding: several given ones have no SSRC, the rids r0, r1 and so on, and their modes; else the SSRCs
      are those of the offer, and a single given one adds its rid and mode to the first. */
  lemma EncodingsSpelled(offer: Object, given: seq<GivenEncoding>, mimeType: string, layers: nat, i: nat)
    requires CanComplete(offer, given) && EncodingsOf(offer, given, mimeType, layers).Ok?
    requires i < |EncodingsOf(offer, given, mimeType, layers).value|
    ensures var r := EncodingsOf(offer, given, mimeType, layers).value;
      if |given| > 1 then
        i < |given| && r[i] == SentEncoding(None, None, Some("r" + Digits(i % 256)),
          ModeOf(|r|, mimeType, given[i].scalabilityMode))
      else
        RtpEncodings(offer).Ok? && i < |RtpEncodings(offer).value|
        && var e := RtpEncodings(offer).value[i];
        r[i] == if |given| == 1 && i == 0
                then SentEncoding(e.ssrc, e.rtxSsrc, if given[0].rid == "" then None else Some(given[0].rid),
                  ModeOf(|r|, mimeType, given[0].scalabilityMode))
                else SentEncoding(e.ssrc, e.rtxSsrc, None, ModeOf(|r|, mimeType, None))
  {
    hide RtpEncodings, ReadableOffer, Lower, Digits;
  }
}
