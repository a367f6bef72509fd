/** The lines of a description spelled out: what is printed for every kind of line that is emitted, member by
    member, and what a line of that shape is read as. Nothing here goes through the rule table's
    lists of names, formats and types. */
module SdpLines {
  import opened Text
  import opened Json
  import opened Regex
  import opened Patterns
  import opened LineShapes
  import opened Grammar
  import opened SdpText
  import opened SdpTokens
  import opened SdpRoundTrip

  // ----- what is printed -----

  function OriginText(o: Object): string {
    TextAt(o, Username) + (" " + (TextAt(o, SessionId) + (" " + (TextAt(o, SessionVersion) + (" " + (TextAt(o, NetType)
      + (" IP" + (TextAt(o, IpVer) + (" " + TextAt(o, Address))))))))))
  }

  function TimingText(o: Object): string {
    TextAt(o, Start) + (" " + TextAt(o, Stop))
  }

  /** A part that is only there with its value. */
  function Part(prefix: string, o: Object, k: Key): string {
    if TextAt(o, k) != "" then prefix + TextAt(o, k) else ""
  }

  function ConnectionText(o: Object): string {
    "IN IP" + (TextAt(o, Version) + (" " + TextAt(o, Ip)))
  }

  function MediaText(o: Object): string {
    TextAt(o, Type) + (" " + (TextAt(o, Port) + (" " + (TextAt(o, Protocol) + (" " + TextAt(o, Payloads))))))
  }

  function RtpText(o: Object): string {
    "rtpmap:" + (TextAt(o, Payload) + (" " + (TextAt(o, Codec)
      + (if TextAt(o, Encoding) != "" then "/" + (TextAt(o, Rate) + ("/" + TextAt(o, Encoding)))
        else Part("/", o, Rate)))))
  }

  function FmtpText(o: Object): string {
    "fmtp:" + (TextAt(o, Payload) + (" " + TextAt(o, Config)))
  }

  function RtcpFbText(o: Object): string {
    "rtcp-fb:" + (TextAt(o, Payload) + (" " + (TextAt(o, Type) + Part(" ", o, Subtype))))
  }

  function ExtText(o: Object): string {
    "extmap:" + (TextAt(o, Value) + (" " + TextAt(o, Uri)))
  }

  function FingerprintText(o: Object): string {
    "fingerprint:" + (TextAt(o, Type) + (" " + TextAt(o, Hash)))
  }

  function CandidateText(o: Object): string {
    "candidate:" + (TextAt(o, Foundation) + (" " + (TextAt(o, Component) + (" " + (TextAt(o, Transport)
      + (" " + (TextAt(o, Priority) + (" " + (TextAt(o, Ip) + (" " + (TextAt(o, Port)
      + (" typ " + (TextAt(o, Type) + Part(" tcptype ", o, TcpType))))))))))))))
  }

  function SsrcText(o: Object): string {
    "ssrc:" + (TextAt(o, Id) + (if TextAt(o, Attribute) != "" then " " + (TextAt(o, Attribute) + Part(":", o, Value))
      else ""))
  }

  function SsrcGroupText(o: Object): string {
    "ssrc-group:" + (TextAt(o, Semantics) + (" " + TextAt(o, Ssrcs)))
  }

  function MsidSemanticText(o: Object): string {
    "msid-semantic: " + (TextAt(o, Semantic) + (" " + TextAt(o, Token)))
  }

  function GroupText(o: Object): string {
    "group:" + (TextAt(o, Type) + (" " + TextAt(o, Mids)))
  }

  function RidText(o: Object): string {
    "rid:" + (TextAt(o, Id) + (" " + TextAt(o, Direction)))
  }

  function SimulcastText(o: Object): string {
    "simulcast:" + (TextAt(o, Dir1) + (" " + TextAt(o, List1)))
  }

  /** No builder fills these members. */
  predicate Bare(r: Rule, o: Object) {
    match r
    case RConnection => Ttl !in o
    case RMedia => NumPorts !in o
    case RExt => Direction !in o && EncryptUri !in o && Config !in o
    case RCandidates => RAddr !in o && RPort !in o && Generation !in o && NetworkId !in o && NetworkCost !in o
    case RRids => Params !in o
    case RSimulcast => Dir2 !in o && List2 !in o
    case _ => true
  }

  // ----- the rule table prints that -----

  /** What the format prints from one piece on. */
  predicate Step(f: seq<Piece>, t: seq<string>, i: nat, j: nat)
    requires i < j <= |f| <= |t|
  {
    Fill(f, t, i) == f[i].prefix + (if f[i].directive == 'v' then Fill(f, t, j) else t[i] + Fill(f, t, j))
  }

  lemma Fills(f: seq<Piece>, t: seq<string>)
    requires |f| <= |t|
    ensures Fill(f, t, |f|) == ""
    ensures |f| > 0 ==> Step(f, t, 0, 1)
    ensures |f| > 1 ==> Step(f, t, 1, 2)
    ensures |f| > 2 ==> Step(f, t, 2, 3)
    ensures |f| > 3 ==> Step(f, t, 3, 4)
    ensures |f| > 4 ==> Step(f, t, 4, 5)
    ensures |f| > 5 ==> Step(f, t, 5, 6)
  {
  }

  lemma FillsOn(f: seq<Piece>, t: seq<string>)
    requires 6 < |f| <= |t|
    ensures Step(f, t, 6, 7)
    ensures |f| > 7 ==> Step(f, t, 7, 8)
    ensures |f| > 8 ==> Step(f, t, 8, 9)
    ensures |f| > 9 ==> Step(f, t, 9, 10)
    ensures |f| > 10 ==> Step(f, t, 10, 11)
    ensures |f| > 11 ==> Step(f, t, 11, 12)
    ensures |f| > 12 ==> Step(f, t, 12, 13)
  {
  }

  lemma NothingBehind(t: seq<string>)
    ensures forall i :: 0 <= i < |t| ==> t[i] + "" == t[i]
  {
  }

  lemma NothingBefore(f: seq<Piece>, t: seq<string>)
    requires |f| <= |t|
    ensures forall i :: 0 <= i <= |f| ==> "" + Fill(f, t, i) == Fill(f, t, i)
  {
  }

  lemma OriginPrints(o: Object)
    ensures |Format(ROrigin, o)| <= |Names(ROrigin)| && Content(ROrigin, o) == OriginText(o)
  {
    hide Fill, TextAt;
    Fills(Format(ROrigin, o), Texts(ROrigin, o));
    NothingBehind(Texts(ROrigin, o));
    assert "" + OriginText(o) == OriginText(o);
  }

  lemma TimingPrints(o: Object)
    ensures |Format(RTiming, o)| <= |Names(RTiming)| && Content(RTiming, o) == TimingText(o)
  {
    hide Fill, TextAt;
    Fills(Format(RTiming, o), Texts(RTiming, o));
    NothingBehind(Texts(RTiming, o));
    assert "" + TimingText(o) == TimingText(o);
  }

  lemma ConnectionPrints(o: Object)
    requires Bare(RConnection, o)
    ensures |Format(RConnection, o)| <= |Names(RConnection)| && Content(RConnection, o) == ConnectionText(o)
  {
    hide Fill, TextAt;
    Fills(Format(RConnection, o), Texts(RConnection, o));
    NothingBehind(Texts(RConnection, o));
  }

  lemma MediaPrints(o: Object)
    requires Bare(RMedia, o)
    ensures |Format(RMedia, o)| <= |Names(RMedia)| && Content(RMedia, o) == MediaText(o)
  {
    hide Fill, TextAt;
    Fills(Format(RMedia, o), Texts(RMedia, o));
    NothingBehind(Texts(RMedia, o));
    assert "" + MediaText(o) == MediaText(o);
  }

  lemma RtpPrints(o: Object)
    ensures |Format(RRtp, o)| <= |Names(RRtp)| && Content(RRtp, o) == RtpText(o)
  {
    hide Fill, TextAt, HasValue;
    HasValueIsText(o, Encoding);
    HasValueIsText(o, Rate);
    Fills(Format(RRtp, o), Texts(RRtp, o));
    NothingBehind(Texts(RRtp, o));
  }

  lemma FmtpPrints(o: Object)
    ensures |Format(RFmtp, o)| <= |Names(RFmtp)| && Content(RFmtp, o) == FmtpText(o)
  {
    hide Fill, TextAt;
    Fills(Format(RFmtp, o), Texts(RFmtp, o));
    NothingBehind(Texts(RFmtp, o));
  }

  lemma RtcpFbPrints(o: Object)
    ensures |Format(RRtcpFb, o)| <= |Names(RRtcpFb)| && Content(RRtcpFb, o) == RtcpFbText(o)
  {
    hide Fill, TextAt, HasValue;
    HasValueIsText(o, Subtype);
    Fills(Format(RRtcpFb, o), Texts(RRtcpFb, o));
    NothingBehind(Texts(RRtcpFb, o));
  }

  lemma ExtPieces(o: Object)
    requires Bare(RExt, o)
    ensures Format(RExt, o) == [Piece("extmap:", 'd'), Piece("", 'v'), Piece("", 'v'), Piece(" ", 's')]
    ensures Texts(RExt, o) == [TextAt(o, Value), "", "", TextAt(o, Uri), ""]
  {
  }

  lemma ExtPrints(o: Object)
    requires Bare(RExt, o)
    ensures |Format(RExt, o)| <= |Names(RExt)| && Content(RExt, o) == ExtText(o)
  {
    hide Fill, TextAt, Format, Names, Texts;
    ExtPieces(o);
    var f, t := Format(RExt, o), Texts(RExt, o);
    Fills(f, t);
    NothingBehind(t);
    NothingBefore(f, t);
  }

  lemma FingerprintPrints(o: Object)
    ensures |Format(RFingerprint, o)| <= |Names(RFingerprint)| && Content(RFingerprint, o) == FingerprintText(o)
  {
    hide Fill, TextAt;
    Fills(Format(RFingerprint, o), Texts(RFingerprint, o));
    NothingBehind(Texts(RFingerprint, o));
  }

  lemma CandidatePieces(o: Object)
    requires Bare(RCandidates, o)
    ensures Format(RCandidates, o) == [Piece("candidate:", 's'), Piece(" ", 'd'), Piece(" ", 's'), Piece(" ", 'd'),
      Piece(" ", 's'), Piece(" ", 'd'), Piece(" typ ", 's'), Piece("", 'v'), Piece("", 'v'),
      if TextAt(o, TcpType) != "" then Piece(" tcptype ", 's') else Piece("", 'v'), Piece("", 'v'), Piece("", 'v')]
  {
  }

  lemma CandidateTokens(o: Object)
    requires Bare(RCandidates, o)
    ensures Texts(RCandidates, o) == [TextAt(o, Foundation), TextAt(o, Component), TextAt(o, Transport),
      TextAt(o, Priority), TextAt(o, Ip), TextAt(o, Port), TextAt(o, Type), "", "", TextAt(o, TcpType), "", "", ""]
  {
    hide ArgText;
    CandidateNamed();
    assert TextAt(o, RAddr) == TextAt(o, RPort) == "" by { NothingAt(o, RAddr); NothingAt(o, RPort); }
    NothingAt(o, Generation);
    NothingAt(o, NetworkId);
    NothingAt(o, NetworkCost);
  }

  lemma CandidateNamed()
    ensures Names(RCandidates) == [Foundation, Component, Transport, Priority, Ip, Port, Type, RAddr, RPort, TcpType,
      Generation, NetworkId, NetworkCost]
  {
  }

  lemma NothingAt(o: Object, k: Key)
    requires k !in o
    ensures TextAt(o, k) == ""
  {
  }

  lemma CandidatePrints(o: Object)
    requires Bare(RCandidates, o)
    ensures |Format(RCandidates, o)| <= |Names(RCandidates)| && Content(RCandidates, o) == CandidateText(o)
  {
    hide Fill, TextAt, Format, Names, Texts, CandidateNames;
    CandidatePieces(o);
    CandidateTokens(o);
    CandidateNamed();
    var f, t := Format(RCandidates, o), Texts(RCandidates, o);
    Fills(f, t);
    FillsOn(f, t);
    NothingBehind(t);
    NothingBefore(f, t);
  }

  lemma SsrcPieces(o: Object)
    ensures Format(RSsrcs, o) == [Piece("ssrc:", 'd')]
      + (if HasValue(o, Attribute)
         then [Piece(" ", 's')] + (if HasValue(o, Value) then [Piece(":", 's')] else [])
         else [])
    ensures Texts(RSsrcs, o) == [TextAt(o, Id), TextAt(o, Attribute), TextAt(o, Value)]
  {
    hide TextAt, HasValue;
  }

  lemma SsrcPrints(o: Object)
    ensures |Format(RSsrcs, o)| <= |Names(RSsrcs)| && Content(RSsrcs, o) == SsrcText(o)
  {
    hide Fill, TextAt, HasValue, Format, Names, Texts;
    SsrcPieces(o);
    HasValueIsText(o, Attribute);
    HasValueIsText(o, Value);
    Fills(Format(RSsrcs, o), Texts(RSsrcs, o));
    NothingBehind(Texts(RSsrcs, o));
  }

  lemma SsrcGroupPrints(o: Object)
    ensures |Format(RSsrcGroups, o)| <= |Names(RSsrcGroups)| && Content(RSsrcGroups, o) == SsrcGroupText(o)
  {
    hide Fill, TextAt;
    Fills(Format(RSsrcGroups, o), Texts(RSsrcGroups, o));
    NothingBehind(Texts(RSsrcGroups, o));
  }

  lemma MsidSemanticPrints(o: Object)
    ensures |Format(RMsidSemantic, o)| <= |Names(RMsidSemantic)| && Content(RMsidSemantic, o) == MsidSemanticText(o)
  {
    hide Fill, TextAt;
    Fills(Format(RMsidSemantic, o), Texts(RMsidSemantic, o));
    NothingBehind(Texts(RMsidSemantic, o));
  }

  lemma GroupPrints(o: Object)
    ensures |Format(RGroups, o)| <= |Names(RGroups)| && Content(RGroups, o) == GroupText(o)
  {
    hide Fill, TextAt;
    Fills(Format(RGroups, o), Texts(RGroups, o));
    NothingBehind(Texts(RGroups, o));
  }

  lemma RidPrints(o: Object)
    requires Bare(RRids, o)
    ensures |Format(RRids, o)| <= |Names(RRids)| && Content(RRids, o) == RidText(o)
  {
    hide Fill, TextAt;
    Fills(Format(RRids, o), Texts(RRids, o));
    NothingBehind(Texts(RRids, o));
  }

  lemma SimulcastPrints(o: Object)
    requires Bare(RSimulcast, o)
    ensures |Format(RSimulcast, o)| <= |Names(RSimulcast)| && Content(RSimulcast, o) == SimulcastText(o)
  {
    hide Fill, TextAt;
    Fills(Format(RSimulcast, o), Texts(RSimulcast, o));
    NothingBehind(Texts(RSimulcast, o));
  }
}
