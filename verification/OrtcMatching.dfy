/** Codec matching: matchCodecs with its H264 and VP9 cases, and the feedback two codecs share. */
module OrtcMatching {
  import opened Text
  import opened RtpTypes
  import opened SsrcUtils
  import opened MediaObjects
  import opened OrtcValidation
  import ApplyParameters
  import FmtpConfig

  /** `^(audio|video)/rtx$`, ignoring case. */
  predicate IsRtxMime(mimeType: string) {
    Lower(mimeType) == "audio/rtx" || Lower(mimeType) == "video/rtx"
  }

  predicate IsRtx(codec: Codec) {
    IsRtxMime(codec.mimeType)
  }

  // ----- the H264 helpers of WebRTC, which are not part of this model -----

  datatype H264Params = H264Params(levelAsymmetryAllowed: nat, packetizationMode: nat, profileLevelId: string)

  /** The profile level for an answer, or that there is none, or that it cannot be had. */
  datatype LevelAnswer = Throws | Level(profileLevelId: Option<string>)

  datatype H264 = H264(isSameProfile: (H264Params, H264Params) -> bool,
      levelForAnswer: (H264Params, H264Params) -> LevelAnswer)

  // ----- matchCodecs -----

  /** An integer parameter as a byte; 0 if it is not an integer. */
  function ByteParam(codec: Codec, key: string): nat {
    match Find(codec.parameters, key)
    case Some(PInt(n)) => U8(n)
    case _ => 0
  }

  /** A parameter as text; None when it is null, which get<std::string>() does not take. */
  function TextParam(codec: Codec, key: string, default: string): Option<string> {
    match Find(codec.parameters, key)
    case None => Some(default)
    case Some(PInt(n)) => Some(Decimal(FmtpConfig.AsInt32(n)))
    case Some(PFloat(d)) => Some(Decimal(FmtpConfig.AsInt32(d.whole)))
    case Some(PStr(s)) => Some(s)
    case _ => None
  }

  /** Both codecs of a match, as it may have rewritten them. */
  datatype MatchResult = NoMatch | Failed | Matched(a: Codec, b: Codec)

  /** MIME types apart from case, clock rates and channels. */
  predicate SameMedia(a: Codec, b: Codec) {
    Lower(a.mimeType) == Lower(b.mimeType) && a.clockRate == b.clockRate && a.channels == b.channels
  }

  function WithLevel(codec: Codec, level: Option<string>): Codec {
    codec.(parameters := if level.Some? then Set(codec.parameters, "profile-level-id", PStr(level.value))
                         else Erase(codec.parameters, "profile-level-id"))
  }

  function H264ParamsOf(codec: Codec, profileLevelId: string): H264Params {
    H264Params(ByteParam(codec, "level-asymmetry-allowed"), ByteParam(codec, "packetization-mode"), profileLevelId)
  }

  function MatchH264(a: Codec, b: Codec, h: H264): MatchResult {
    if ByteParam(a, "packetization-mode") != ByteParam(b, "packetization-mode") then NoMatch
    else
      var x, y := TextParam(a, "profile-level-id", ""), TextParam(b, "profile-level-id", "");
      if x.None? || y.None? then Failed
      else
        var p, q := H264ParamsOf(a, x.value), H264ParamsOf(b, y.value);
        if !h.isSameProfile(p, q) then NoMatch
        else match h.levelForAnswer(p, q) {
          case Throws => NoMatch
          case Level(level) => Matched(WithLevel(a, level), WithLevel(b, level))
        }
  }

  function MatchVp9(a: Codec, b: Codec): MatchResult {
    var x, y := TextParam(a, "profile-id", "0"), TextParam(b, "profile-id", "0");
    if x.None? || y.None? then Failed else if x != y then NoMatch else Matched(a, b)
  }

  /** matchCodecs, strict and modifying. */
  function MatchStrict(a: Codec, b: Codec, h: H264): MatchResult {
    if !SameMedia(a, b) then NoMatch
    else if Lower(a.mimeType) == "video/h264" then MatchH264(a, b, h)
    else if Lower(a.mimeType) == "video/vp9" then MatchVp9(a, b)
    else Matched(a, b)
  }

  /** Everything but the parameters. */
  predicate SameButParameters(a: Codec, b: Codec) {
    b == a.(parameters := b.parameters)
  }

  lemma {:induction false} EraseFinds(p: Params, key: string, other: string)
    requires Sorted(p)
    ensures Find(Erase(p, key), other) == if other == key then None else Find(p, other)
  {
    if p != [] {
      EraseFinds(p[1..], key, other);
      if p[0].key == key && other == key {
        AbsentBehind(p[1..], key);
      }
    }
  }

  lemma {:induction false} AbsentBehind(p: Params, key: string)
    requires forall i :: 0 <= i < |p| ==> Less(key, p[i].key)
    ensures Find(p, key) == None
  {
    hide Less;
    if p != [] {
      if p[0].key == key {
        LessIrreflexive(key);
      }
      AbsentBehind(p[1..], key);
    }
  }

  lemma {:induction false} EraseSorted(p: Params, key: string)
    requires Sorted(p)
    ensures Sorted(Erase(p, key)) && |Erase(p, key)| <= |p|
    ensures forall i :: 0 <= i < |Erase(p, key)| ==> exists j :: 0 <= j < |p| && p[j] == Erase(p, key)[i]
  {
    hide Less;
    if p != [] && p[0].key != key {
      EraseSorted(p[1..], key);
      var rest := Erase(p[1..], key);
      forall i | 0 <= i < |rest|
        ensures Less(p[0].key, rest[i].key) && exists j :: 0 <= j < |p| && p[j] == rest[i]
      {
        var j :| 0 <= j < |p[1..]| && p[1..][j] == rest[i];
        assert p[j + 1] == rest[i];
      }
    }
  }

  predicate SortedParams(codecs: seq<Codec>) {
    forall i :: 0 <= i < |codecs| ==> Sorted(codecs[i].parameters)
  }

  /** A match changes at most `profile-level-id`, to the same value on both sides. */
  lemma MatchAgrees(a: Codec, b: Codec, h: H264)
    requires Sorted(a.parameters) && Sorted(b.parameters)
    requires MatchStrict(a, b, h).Matched?
    ensures var m := MatchStrict(a, b, h);
      && SameMedia(a, b) && SameButParameters(a, m.a) && SameButParameters(b, m.b)
      && Sorted(m.a.parameters) && Sorted(m.b.parameters)
      && (forall key :: key != "profile-level-id" ==>
            Find(m.a.parameters, key) == Find(a.parameters, key)
              && Find(m.b.parameters, key) == Find(b.parameters, key))
      && (Lower(a.mimeType) == "video/h264" ==>
            && Find(m.a.parameters, "profile-level-id") == Find(m.b.parameters, "profile-level-id")
            && ByteParam(a, "packetization-mode") == ByteParam(b, "packetization-mode"))
      && (Lower(a.mimeType) != "video/h264" ==> m.a == a && m.b == b)
      && (Lower(a.mimeType) == "video/vp9" ==> TextParam(a, "profile-id", "0") == TextParam(b, "profile-id", "0"))
  {
    hide Find, Sorted, Set, Erase, Lower;
    if Lower(a.mimeType) == "video/h264" {
      var p, q := H264ParamsOf(a, TextParam(a, "profile-level-id", "").value),
        H264ParamsOf(b, TextParam(b, "profile-level-id", "").value);
      var level := h.levelForAnswer(p, q).profileLevelId;
      LevelFinds(a, level);
      LevelFinds(b, level);
    }
  }

  /** What H264 codecs must agree on: the packetization mode, and the profile, from which a level for the answer can
      be made. */
  predicate SameH264(a: Codec, b: Codec, h: H264) {
    var x, y := TextParam(a, "profile-level-id", ""), TextParam(b, "profile-level-id", "");
    && ByteParam(a, "packetization-mode") == ByteParam(b, "packetization-mode") && x.Some? && y.Some?
    && var p, q := H264Params(ByteParam(a, "level-asymmetry-allowed"), ByteParam(a, "packetization-mode"), x.value),
      H264Params(ByteParam(b, "level-asymmetry-allowed"), ByteParam(b, "packetization-mode"), y.value);
    h.isSameProfile(p, q) && h.levelForAnswer(p, q).Level?
  }

  /** Two codecs match exactly if they have MIME type, clock rate and channels in common, H264 codecs also mode and
      profile, and VP9 codecs also the profile id, which is 0 where it is not given. A match throws exactly for a
      null profile that it would have to compare. */
  lemma MatchExactly(a: Codec, b: Codec, h: H264)
    ensures var m, same, lower := MatchStrict(a, b, h),
        Lower(a.mimeType) == Lower(b.mimeType) && a.clockRate == b.clockRate && a.channels == b.channels,
        Lower(a.mimeType);
      && (m.Matched? <==>
           && same && (lower == "video/h264" ==> SameH264(a, b, h))
           && (lower == "video/vp9" ==>
                 && TextParam(a, "profile-id", "0").Some?
                 && TextParam(a, "profile-id", "0") == TextParam(b, "profile-id", "0")))
      && (m.Failed? <==>
           && same
           && ((lower == "video/vp9"
                && (TextParam(a, "profile-id", "0").None? || TextParam(b, "profile-id", "0").None?))
               || (lower == "video/h264"
                   && ByteParam(a, "packetization-mode") == ByteParam(b, "packetization-mode")
                   && (TextParam(a, "profile-level-id", "").None? || TextParam(b, "profile-level-id", "").None?))))
  {
    hide Find, Lower, Decimal, Set, Erase;
  }

  /** What is read of a parameter that is missing, an integer, or a text. */
  lemma ParamsAre(c: Codec, key: string, default: string)
    ensures Find(c.parameters, key) == None ==> ByteParam(c, key) == 0 && TextParam(c, key, default) == Some(default)
    ensures forall n :: Find(c.parameters, key) == Some(PInt(n)) ==>
      ByteParam(c, key) == n % 256
      && (-0x8000_0000 <= n < 0x8000_0000 ==> TextParam(c, key, default) == Some(Decimal(n)))
    ensures forall s :: Find(c.parameters, key) == Some(PStr(s)) ==>
      ByteParam(c, key) == 0 && TextParam(c, key, default) == Some(s)
    ensures Find(c.parameters, key) == Some(PNull) ==> ByteParam(c, key) == 0 && TextParam(c, key, default) == None
  {
    hide Find, Decimal;
  }

  lemma LevelFinds(c: Codec, level: Option<string>)
    requires Sorted(c.parameters)
    ensures var d := WithLevel(c, level);
      && Sorted(d.parameters)
      && Find(d.parameters, "profile-level-id") == (if level.Some? then Some(PStr(level.value)) else None)
      && forall key :: key != "profile-level-id" ==> Find(d.parameters, key) == Find(c.parameters, key)
  {
    hide Find, Sorted, Set, Erase;
    forall key: string
      ensures Find(WithLevel(c, level).parameters, key)
           == if key == "profile-level-id" then (if level.Some? then Some(PStr(level.value)) else None)
             else Find(c.parameters, key)
    {
      if level.Some? {
        ApplyParameters.SetFinds(c.parameters, "profile-level-id", PStr(level.value), key);
      } else {
        EraseFinds(c.parameters, "profile-level-id", key);
      }
    }
    if level.Some? {
      SetSorted(c.parameters, "profile-level-id", PStr(level.value));
    } else {
      EraseSorted(c.parameters, "profile-level-id");
    }
  }

  // ----- reduceRtcpFeedback -----

  /** The feedback of `a` that `b` knows as well, in the order of `a`. */
  function ReduceFeedback(a: seq<Feedback>, b: seq<Feedback>): seq<Feedback> {
    if a == [] then []
    else
      var fb := a[|a| - 1];
      ReduceFeedback(a[..|a| - 1], b) + (if fb in b then [fb] else [])
  }

  method ReduceRtcpFeedback(a: seq<Feedback>, b: seq<Feedback>) returns (r: seq<Feedback>)
    ensures r == ReduceFeedback(a, b)
  {
    r := [];
    for i := 0 to |a|
      invariant r == ReduceFeedback(a[..i], b)
    {
      assert a[..i + 1][..i] == a[..i];
      var j := 0;
      while j < |b| && b[j] != a[i]
        invariant j <= |b| && a[i] !in b[..j]
      {
        j := j + 1;
      }
      if j < |b| {
        r := r + [b[j]];
      } else {
        assert b[..j] == b;
      }
    }
    assert a[..|a|] == a;
  }

  /** Exactly the common feedback, each as often as in `a`. */
  lemma {:induction false} FeedbackIsCommon(a: seq<Feedback>, b: seq<Feedback>, fb: Feedback)
    ensures multiset(ReduceFeedback(a, b))[fb] == if fb in b then multiset(a)[fb] else 0
  {
    if a != [] {
      FeedbackIsCommon(a[..|a| - 1], b, fb);
      assert a == a[..|a| - 1] + [a[|a| - 1]];
    }
  }
}
