/** RTP parameters as the SDP code and the ORTC code exchange them. */
module RtpTypes {
  import opened Text

  /** A floating-point number, by what the code makes of it: the text it prints as a float, and
      the integer a cast yields. */
  datatype Double = Double(text: string, whole: int)

  /** A value of a codec's `parameters` object. */
  datatype ParamValue = PStr(s: string) | PInt(n: int) | PFloat(d: Double) | PBool(b: bool) | PNull

  datatype Param = Param(key: string, value: ParamValue)

  /** A JSON object of parameters, in the key order of std::map. */
  type Params = seq<Param>

  /** operator< of std::string. */
  predicate Less(a: string, b: string) {
    b != "" && (a == "" || a[0] < b[0] || (a[0] == b[0] && Less(a[1..], b[1..])))
  }

  predicate Sorted(p: Params) {
    forall i, j :: 0 <= i < j < |p| ==> Less(p[i].key, p[j].key)
  }

  function Find(p: Params, key: string): Option<ParamValue> {
    if p == [] then None else if p[0].key == key then Some(p[0].value) else Find(p[1..], key)
  }

  /** `p[key] = value` */
  function Set(p: Params, key: string, value: ParamValue): Params {
    if p == [] then [Param(key, value)]
    else if p[0].key == key then [Param(key, value)] + p[1..]
    else if Less(key, p[0].key) then [Param(key, value)] + p
    else [p[0]] + Set(p[1..], key, value)
  }

  function Erase(p: Params, key: string): Params {
    if p == [] then [] else if p[0].key == key then p[1..] else [p[0]] + Erase(p[1..], key)
  }

  datatype Feedback = Feedback(kind: string, parameter: string)

  datatype CodecParameters = CodecParameters(
    mimeType: string, payloadType: int, clockRate: int, channels: Option<int>,
    parameters: Params, rtcpFeedback: seq<Feedback>)

  datatype HeaderExtension = HeaderExtension(uri: string, id: int, encrypt: bool)

  /** `rtx` may be absent, or present with or without an ssrc. */
  datatype EncodingParameters = EncodingParameters(ssrc: Option<int>, rtxSsrc: Option<int>)

  datatype RtpParameters = RtpParameters(
    codecs: seq<CodecParameters>, headerExtensions: seq<HeaderExtension>,
    encodings: seq<EncodingParameters>, cname: Option<string>)

  // ----- the key order -----

  lemma {:induction false} LessIrreflexive(a: string)
    ensures !Less(a, a)
  {
    if a != "" {
      LessIrreflexive(a[1..]);
    }
  }

  lemma {:induction false} LessAsymmetric(a: string, b: string)
    requires Less(a, b)
    ensures !Less(b, a) && a != b
  {
    if a != "" && a[0] == b[0] {
      LessAsymmetric(a[1..], b[1..]);
    }
  }

  /** A key behind all others is appended. */
  lemma {:induction false} SetAppends(p: Params, key: string, value: ParamValue)
    requires forall i :: 0 <= i < |p| ==> Less(p[i].key, key)
    ensures Set(p, key, value) == p + [Param(key, value)]
  {
    if p != [] {
      LessAsymmetric(p[0].key, key);
      SetAppends(p[1..], key, value);
    }
  }

  lemma {:induction false} LessTransitive(a: string, b: string, c: string)
    requires Less(a, b) && Less(b, c)
    ensures Less(a, c)
  {
    if a != "" && a[0] == b[0] && b[0] == c[0] {
      LessTransitive(a[1..], b[1..], c[1..]);
    }
  }

  lemma {:induction false} LessTotal(a: string, b: string)
    ensures a == b || Less(a, b) || Less(b, a)
  {
    if a != "" && b != "" && a[0] == b[0] {
      LessTotal(a[1..], b[1..]);
      if a[1..] == b[1..] {
        assert a == [a[0]] + a[1..] && b == [b[0]] + b[1..];
      }
    }
  }

  /** Assigning a member keeps the key order. */
  lemma {:induction false} SetSorted(p: Params, key: string, value: ParamValue)
    requires Sorted(p)
    ensures Sorted(Set(p, key, value))
    ensures forall i :: 0 <= i < |Set(p, key, value)| ==> var k := Set(p, key, value)[i].key;
      k == key || exists j :: 0 <= j < |p| && p[j].key == k
  {
    hide Less;
    if p != [] {
      SetSorted(p[1..], key, value);
      LessTotal(key, p[0].key);
      var q := Set(p, key, value);
      if key != p[0].key && Less(key, p[0].key) {
        forall j | 0 < j < |q|
          ensures Less(key, q[j].key)
        {
          if j > 1 {
            LessTransitive(key, p[0].key, p[j - 1].key);
          }
        }
      } else if key != p[0].key {
        var rest := Set(p[1..], key, value);
        forall j | 0 <= j < |rest|
          ensures Less(p[0].key, rest[j].key)
        {
          if rest[j].key != key {
            var i :| 0 <= i < |p[1..]| && p[1..][i].key == rest[j].key;
            assert p[i + 1].key == rest[j].key;
          }
        }
      }
    }
  }
}
