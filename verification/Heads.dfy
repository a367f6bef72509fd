/** Which rule takes a line: the first characters of an attribute decide which of the anchored
    rules can match it at all, so that first-match order hands a line back to its own rule. */
module Heads {
  import opened Text
  import opened Regex
  import opened Patterns
  import opened LineShapes
  import opened Grammar

  lemma HeadNeeded(r: Rule, s: string)
    requires IsHeaded(r) && Captures(r, s).Some?
    ensures HeadOf(r) <= s
  {
    hide HeadOf, RestOf;
  }

  function At(s: string, i: nat): char {
    if i < |s| then s[i] else '\0'
  }

  /** The one anchored rule whose head `s` can start with; the two rtcp-fb rules share a head
      and so do the two simulcast rules. */
  function Decide(s: string): Rule {
    match At(s, 0)
    case 'r' =>
      if At(s, 1) == 'i' then RRids
      else if At(s, 1) == 'e' then (if At(s, 2) == 'm' then RRemoteCandidates else RInvalid)
      else if At(s, 2) == 'p' then RRtp
      else if At(s, 4) == ':' then RRtcp
      else if At(s, 5) == 'f' then RRtcpFb
      else if At(s, 5) == 'm' then RRtcpMux
      else RRtcpRsize
    case 'f' => if At(s, 1) == 'm' then RFmtp else RFingerprint
    case 'c' => if At(s, 1) == 'o' then RControl else if At(s, 1) == 'r' then RCrypto else RCandidates
    case 'e' => if At(s, 1) == 'n' then REndOfCandidates else if At(s, 6) == ':' then RExt else RExtmapAllowMixed
    case 's' =>
      if At(s, 1) == 'e' then (if At(s, 2) == 't' then RSetup else RInvalid)
      else if At(s, 1) == 's' then (if At(s, 4) == ':' then RSsrcs else RSsrcGroups)
      else if At(s, 1) == 'c' then RSctpMap
      else if At(s, 1) == 'i' then RSimulcast
      else RSourceFilter
    case 'm' =>
      if At(s, 1) == 'i' then RMid
      else if At(s, 1) == 's' then (if At(s, 4) == ':' then RMsid else RMsidSemantic)
      else if At(s, 1) == 'a' then RMaxPtime
      else RMediaClk
    case 'p' => RPtime
    case 'i' =>
      if At(s, 1) != 'c' then RInvalid
      else if At(s, 4) == 'l' then RIcelite
      else if At(s, 4) == 'u' then RIceUfrag
      else if At(s, 4) == 'p' then RIcePwd
      else RIceOptions
    case 'g' => RGroups
    case 't' => RTsRefclk
    case _ => RInvalid
  }

  function Canonical(r: Rule): Rule {
    if r == RRtcpFbTrrInt then RRtcpFb else if r == RSimulcast03 then RSimulcast else r
  }

  /** The characters `Decide` looks at, as far as the head has them. */
  predicate StartsLike(s: string, h: string) {
    && (|h| > 2 ==> At(s, 0) == h[0] && At(s, 1) == h[1] && At(s, 2) == h[2])
    && (|h| > 4 ==> At(s, 4) == h[4]) && (|h| > 5 ==> At(s, 5) == h[5]) && (|h| > 6 ==> At(s, 6) == h[6])
  }

  lemma HeadChars(h: string, s: string)
    requires h <= s
    ensures StartsLike(s, h)
  {
  }

  /** The characters of the head settle the decision; in groups of rules. */
  lemma HeadDecides(r: Rule, s: string)
    requires IsHeaded(r) && HeadOf(r) <= s
    ensures Decide(s) == Canonical(r)
  {
    hide Decide, HeadOf, Canonical, StartsLike;
    HeadChars(HeadOf(r), s);
    match r {
      case RRtp => DecidesA(r, s); case RFmtp => DecidesA(r, s); case RControl => DecidesA(r, s);
      case RRtcp => DecidesA(r, s); case RRtcpFbTrrInt => DecidesA(r, s);
      case RRtcpFb => DecidesB(r, s); case RExt => DecidesB(r, s); case RExtmapAllowMixed => DecidesB(r, s);
      case RCrypto => DecidesB(r, s); case RSetup => DecidesB(r, s);
      case RMid => DecidesC(r, s); case RMsid => DecidesC(r, s); case RPtime => DecidesC(r, s);
      case RMaxPtime => DecidesC(r, s); case RIcelite => DecidesC(r, s);
      case RIceUfrag => DecidesD(r, s); case RIcePwd => DecidesD(r, s); case RFingerprint => DecidesD(r, s);
      case RCandidates => DecidesD(r, s); case REndOfCandidates => DecidesD(r, s);
      case RRemoteCandidates => DecidesE(r, s); case RIceOptions => DecidesE(r, s); case RSsrcs => DecidesE(r, s);
      case RSsrcGroups => DecidesE(r, s); case RMsidSemantic => DecidesE(r, s);
      case RGroups => DecidesF(r, s); case RRtcpMux => DecidesF(r, s); case RRtcpRsize => DecidesF(r, s);
      case RSctpMap => DecidesF(r, s); case RRids => DecidesF(r, s);
      case RSimulcast => DecidesG(r, s); case RSimulcast03 => DecidesG(r, s); case RSourceFilter => DecidesG(r, s);
      case RTsRefclk => DecidesG(r, s); case RMediaClk => DecidesG(r, s);
      case _ =>
    }
  }

  lemma DecidesA(r: Rule, s: string)
    requires r in {RRtp, RFmtp, RControl, RRtcp, RRtcpFbTrrInt} && StartsLike(s, HeadOf(r))
    ensures Decide(s) == Canonical(r)
  {
    hide At;
  }

  lemma DecidesB(r: Rule, s: string)
    requires r in {RRtcpFb, RExt, RExtmapAllowMixed, RCrypto, RSetup} && StartsLike(s, HeadOf(r))
    ensures Decide(s) == Canonical(r)
  {
    hide At;
  }

  lemma DecidesC(r: Rule, s: string)
    requires r in {RMid, RMsid, RPtime, RMaxPtime, RIcelite} && StartsLike(s, HeadOf(r))
    ensures Decide(s) == Canonical(r)
  {
    hide At;
  }

  lemma DecidesD(r: Rule, s: string)
    requires r in {RIceUfrag, RIcePwd, RFingerprint, RCandidates, REndOfCandidates} && StartsLike(s, HeadOf(r))
    ensures Decide(s) == Canonical(r)
  {
    hide At;
  }

  lemma DecidesE(r: Rule, s: string)
    requires r in {RRemoteCandidates, RIceOptions, RSsrcs, RSsrcGroups, RMsidSemantic} && StartsLike(s, HeadOf(r))
    ensures Decide(s) == Canonical(r)
  {
    hide At;
  }

  lemma DecidesF(r: Rule, s: string)
    requires r in {RGroups, RRtcpMux, RRtcpRsize, RSctpMap, RRids} && StartsLike(s, HeadOf(r))
    ensures Decide(s) == Canonical(r)
  {
    hide At;
  }

  lemma DecidesG(r: Rule, s: string)
    requires r in {RSimulcast, RSimulcast03, RSourceFilter, RTsRefclk, RMediaClk} && StartsLike(s, HeadOf(r))
    ensures Decide(s) == Canonical(r)
  {
    hide At;
  }

  /** Position of an attribute rule in the order of trial. */
  function Rank(r: Rule): nat {
    match r
    case RRtp => 0
    case RFmtp => 1
    case RControl => 2
    case RRtcp => 3
    case RRtcpFbTrrInt => 4
    case RRtcpFb => 5
    case RExt => 6
    case RExtmapAllowMixed => 7
    case RCrypto => 8
    case RSetup => 9
    case RMid => 10
    case RMsid => 11
    case RPtime => 12
    case RMaxPtime => 13
    case RDirection => 14
    case RIcelite => 15
    case RIceUfrag => 16
    case RIcePwd => 17
    case RFingerprint => 18
    case RCandidates => 19
    case REndOfCandidates => 20
    case RRemoteCandidates => 21
    case RIceOptions => 22
    case RSsrcs => 23
    case RSsrcGroups => 24
    case RMsidSemantic => 25
    case RGroups => 26
    case RRtcpMux => 27
    case RRtcpRsize => 28
    case RSctpMap => 29
    case RXGoogleFlag => 30
    case RRids => 31
    case RSimulcast => 32
    case RSimulcast03 => 33
    case RSourceFilter => 34
    case RTsRefclk => 35
    case RMediaClk => 36
    case _ => 37
  }

  lemma {:induction false} FirstRulesAt(n: nat, i: nat)
    requires i < n
    ensures FirstRules(n)[i] == AttributeRule(i)
  {
    hide AttributeRule;
    if i < n - 1 {
      FirstRulesAt(n - 1, i);
    }
  }

  lemma ARulesAt(i: nat)
    requires i < ATTRIBUTE_RULES
    ensures ARules()[i] == AttributeRule(i)
  {
    hide FirstRules, AttributeRule;
    FirstRulesAt(ATTRIBUTE_RULES, i);
  }

  lemma RankIsIndex(r: Rule)
    requires Letter(r) == 'a'
    ensures Rank(r) < |ARules()| && ARules()[Rank(r)] == r
  {
    hide ARules, AttributeRule, Rank;
    RuleOfRank(r);
    ARulesAt(Rank(r));
  }

  lemma RuleOfRank(r: Rule)
    requires Letter(r) == 'a'
    ensures Rank(r) < ATTRIBUTE_RULES && AttributeRule(Rank(r)) == r
  {
    if Rank(r) < 10 {
    } else if Rank(r) < 20 {
    } else if Rank(r) < 30 {
    } else {
    }
  }

  lemma RankOfRule(i: nat)
    requires i < ATTRIBUTE_RULES
    ensures Letter(AttributeRule(i)) == 'a'
    ensures Rank(AttributeRule(i)) == i
  {
  }

  lemma {:induction false} FirstMatchIs(rules: seq<Rule>, s: string, k: nat)
    requires k < |rules| && Captures(rules[k], s).Some?
    requires forall j :: 0 <= j < k ==> Captures(rules[j], s).None?
    ensures FirstMatch(rules, s) == Some(rules[k])
  {
    hide Captures;
    if k > 0 {
      assert Captures(rules[0], s).None?;
      FirstMatchIs(rules[1..], s, k - 1);
    }
  }

  /** A line that starts with a direction keyword starts with no head. */
  lemma DirectionUndecided(s: string)
    requires Captures(RDirection, s).Some?
    ensures Decide(s) == RInvalid
  {
    hide Decide, Match, DirectionPattern, RestOf, HeadOf;
    assert Pattern(RDirection) == DirectionPattern();
    DirectionNeedsWord(s);
    DirectionStart(s);
  }

  lemma DirectionNeedsWord(s: string)
    requires Match(DirectionPattern(), s).Some?
    ensures "sendrecv" <= s || "recvonly" <= s || "sendonly" <= s || "inactive" <= s
  {
  }

  lemma DirectionStart(s: string)
    requires "sendrecv" <= s || "recvonly" <= s || "sendonly" <= s || "inactive" <= s
    ensures Decide(s) == RInvalid
  {
    assert forall i :: 0 <= i < 3 ==> "sendrecv"[i] == "sendonly"[i];
  }

  /** The flag rule is not anchored: it needs a colon behind thirteen characters. */
  lemma {:induction false} FlagNeeds(s: string)
    requires forall i :: 13 <= i < |s| ==> s[i] != ':'
    ensures Captures(RXGoogleFlag, s).None?
  {
    hide RestOf, Match, HeadOf;
    var p := Lit("x-google-flag:", Cap(NonSpace, 0, Done));
    assert Pattern(RXGoogleFlag) == p;
    LitFails("x-google-flag:", Cap(NonSpace, 0, Done), s, 13);
    if s != "" {
      FlagNeeds(s[1..]);
      assert Search(p, s) == Search(p, s[1..]);
    }
  }

  /** A line that starts with the head of an anchored rule and matches it is handed to it. */
  lemma DispatchHeaded(r: Rule, s: string)
    requires IsHeaded(r) && r != RSimulcast03 && HeadOf(r) <= s && Captures(r, s).Some?
    requires r == RRtcpFb ==> Captures(RRtcpFbTrrInt, s).None?
    requires Rank(r) > Rank(RXGoogleFlag) ==> Captures(RXGoogleFlag, s).None?
    ensures Dispatch('a', s) == Some(r)
  {
    hide Captures, HeadOf, AttributeRule, Rank;
    RankIsIndex(r);
    forall j | 0 <= j < Rank(r)
      ensures Captures(ARules()[j], s).None?
    {
      ARulesAt(j);
      EarlierFails(AttributeRule(j), r, s, j);
    }
    FirstMatchIs(ARules(), s, Rank(r));
  }

  lemma EarlierFails(e: Rule, r: Rule, s: string, j: nat)
    requires IsHeaded(r) && r != RSimulcast03 && HeadOf(r) <= s
    requires r == RRtcpFb ==> Captures(RRtcpFbTrrInt, s).None?
    requires Rank(r) > Rank(RXGoogleFlag) ==> Captures(RXGoogleFlag, s).None?
    requires j < Rank(r) < ATTRIBUTE_RULES && e == AttributeRule(j)
    ensures Captures(e, s).None?
  {
    hide Captures, Decide, HeadOf, AttributeRule, Rank;
    RankOfRule(j);
    if IsHeaded(e) {
      if Captures(e, s).Some? {
        HeadNeeded(e, s);
        HeadDecides(e, s);
        HeadDecides(r, s);
        RankOrder(e, r);
      }
    } else if e == RDirection {
      if Captures(e, s).Some? {
        DirectionUndecided(s);
        HeadDecides(r, s);
      }
    } else {
      InvalidIsLast(e, r);
    }
  }

  lemma RankOrder(e: Rule, r: Rule)
    requires IsHeaded(e) && IsHeaded(r) && Canonical(e) == Canonical(r) && Rank(e) < Rank(r)
    requires r != RSimulcast03
    ensures e == RRtcpFbTrrInt && r == RRtcpFb
  {
    hide Rank, IsHeaded;
    SharedHeads();
  }

  lemma SharedHeads()
    ensures Rank(RRtcpFbTrrInt) < Rank(RRtcpFb) && Rank(RSimulcast) < Rank(RSimulcast03)
  {
  }

  lemma InvalidIsLast(e: Rule, r: Rule)
    requires Letter(e) == 'a' && IsHeaded(r) && Rank(e) < Rank(r)
    ensures e != RInvalid
  {
  }
}
