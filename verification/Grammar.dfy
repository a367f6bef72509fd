/** The ordered rule table of libsdptransform: for every line letter the rules in the order
    they are tried, each with its member names, value types, print format and pattern. */
module Grammar {
  import opened Text
  import opened Json
  import opened Regex
  import opened Patterns

  datatype Rule =
    | RVersion | ROrigin | RName | RDescription | RUri | REmail | RPhone | RTimeZones | RRepeats
    | RTiming | RConnection | RBandwidth | RMedia
    | RRtp | RFmtp | RControl | RRtcp | RRtcpFbTrrInt | RRtcpFb | RExt | RExtmapAllowMixed
    | RCrypto | RSetup | RMid | RMsid | RPtime | RMaxPtime | RDirection | RIcelite | RIceUfrag
    | RIcePwd | RFingerprint | RCandidates | REndOfCandidates | RRemoteCandidates | RIceOptions
    | RSsrcs | RSsrcGroups | RMsidSemantic | RGroups | RRtcpMux | RRtcpRsize | RSctpMap
    | RXGoogleFlag | RRids | RSimulcast | RSimulcast03 | RSourceFilter | RTsRefclk | RMediaClk
    | RInvalid

  /** The attribute rules by position. */
  function AttributeRule(i: nat): Rule {
    match i
    case 0 => RRtp case 1 => RFmtp case 2 => RControl case 3 => RRtcp
    case 4 => RRtcpFbTrrInt case 5 => RRtcpFb case 6 => RExt case 7 => RExtmapAllowMixed
    case 8 => RCrypto case 9 => RSetup case 10 => RMid case 11 => RMsid
    case 12 => RPtime case 13 => RMaxPtime case 14 => RDirection case 15 => RIcelite
    case 16 => RIceUfrag case 17 => RIcePwd case 18 => RFingerprint case 19 => RCandidates
    case 20 => REndOfCandidates case 21 => RRemoteCandidates case 22 => RIceOptions case 23 => RSsrcs
    case 24 => RSsrcGroups case 25 => RMsidSemantic case 26 => RGroups case 27 => RRtcpMux
    case 28 => RRtcpRsize case 29 => RSctpMap case 30 => RXGoogleFlag case 31 => RRids
    case 32 => RSimulcast case 33 => RSimulcast03 case 34 => RSourceFilter case 35 => RTsRefclk
    case 36 => RMediaClk
    case _ => RInvalid
  }

  const ATTRIBUTE_RULES := 38

  function FirstRules(n: nat): (rules: seq<Rule>)
    ensures |rules| == n
  {
    if n == 0 then [] else FirstRules(n - 1) + [AttributeRule(n - 1)]
  }

  /** The rules of an `a=` line, in the order they are tried. */
  function ARules(): (rules: seq<Rule>)
    ensures |rules| == ATTRIBUTE_RULES
  {
    FirstRules(ATTRIBUTE_RULES)
  }

  /** The rules of one line letter, in the order they are tried. */
  function RulesOf(letter: char): seq<Rule> {
    match letter
    case 'v' => [RVersion]
    case 'o' => [ROrigin]
    case 's' => [RName]
    case 'i' => [RDescription]
    case 'u' => [RUri]
    case 'e' => [REmail]
    case 'p' => [RPhone]
    case 'z' => [RTimeZones]
    case 'r' => [RRepeats]
    case 't' => [RTiming]
    case 'c' => [RConnection]
    case 'b' => [RBandwidth]
    case 'm' => [RMedia]
    case 'a' => ARules()
    case _ => []
  }

  function Letter(r: Rule): char {
    match r
    case RVersion => 'v'
    case ROrigin => 'o'
    case RName => 's'
    case RDescription => 'i'
    case RUri => 'u'
    case REmail => 'e'
    case RPhone => 'p'
    case RTimeZones => 'z'
    case RRepeats => 'r'
    case RTiming => 't'
    case RConnection => 'c'
    case RBandwidth => 'b'
    case RMedia => 'm'
    case _ => 'a'
  }

  /** Rules that fill an array member. */
  predicate IsPush(r: Rule) {
    r in {RBandwidth, RRtp, RFmtp, RRtcpFbTrrInt, RRtcpFb, RExt, RCrypto, RCandidates, RSsrcs,
      RSsrcGroups, RGroups, RRids, RInvalid}
  }

  /** The member a rule prints and fills: its `push` array, or its `name`. */
  function Member(r: Rule): Key
    requires r != RMedia
  {
    match r
    case RVersion => Version
    case ROrigin => Origin
    case RName => Name
    case RDescription => Description
    case RUri => Uri
    case REmail => Email
    case RPhone => Phone
    case RTimeZones => TimeZones
    case RRepeats => Repeats
    case RTiming => Timing
    case RConnection => Connection
    case RBandwidth => Bandwidth
    case RRtp => Rtp
    case RFmtp => Fmtp
    case RControl => Control
    case RRtcp => Rtcp
    case RRtcpFbTrrInt => RtcpFbTrrInt
    case RRtcpFb => RtcpFb
    case RExt => Ext
    case RExtmapAllowMixed => ExtmapAllowMixed
    case RCrypto => Crypto
    case RSetup => Setup
    case RMid => Mid
    case RMsid => Msid
    case RPtime => Ptime
    case RMaxPtime => MaxPtime
    case RDirection => Direction
    case RIcelite => Icelite
    case RIceUfrag => IceUfrag
    case RIcePwd => IcePwd
    case RFingerprint => Fingerprint
    case RCandidates => Candidates
    case REndOfCandidates => EndOfCandidates
    case RRemoteCandidates => RemoteCandidates
    case RIceOptions => IceOptions
    case RSsrcs => Ssrcs
    case RSsrcGroups => SsrcGroups
    case RMsidSemantic => MsidSemantic
    case RGroups => Groups
    case RRtcpMux => RtcpMux
    case RRtcpRsize => RtcpRsize
    case RSctpMap => SctpMap
    case RXGoogleFlag => XGoogleFlag
    case RRids => Rids
    case RSimulcast => Simulcast
    case RSimulcast03 => Simulcast03
    case RSourceFilter => SourceFilter
    case RTsRefclk => TsRefclk
    case RMediaClk => MediaClk
    case RInvalid => Invalid
  }

  function CandidateNames(): seq<Key> {
    [Foundation, Component, Transport, Priority, Ip, Port, Type, RAddr, RPort, TcpType, Generation, NetworkId,
      NetworkCost]
  }

  /** Members of the object a rule reads and writes; empty for a scalar. */
  function Names(r: Rule): seq<Key> {
    match r
    case ROrigin => [Username, SessionId, SessionVersion, NetType, IpVer, Address]
    case RTiming => [Start, Stop]
    case RConnection => [Version, Ip, Ttl]
    case RBandwidth => [Type, Limit]
    case RMedia => [Type, Port, NumPorts, Protocol, Payloads]
    case RRtp => [Payload, Codec, Rate, Encoding]
    case RFmtp => [Payload, Config]
    case RRtcp => [Port, NetType, IpVer, Address]
    case RRtcpFbTrrInt => [Payload, Value]
    case RRtcpFb => [Payload, Type, Subtype]
    case RExt => [Value, Direction, EncryptUri, Uri, Config]
    case RCrypto => [Id, Suite, Config, SessionConfig]
    case RFingerprint => [Type, Hash]
    case RCandidates => CandidateNames()
    case RSsrcs => [Id, Attribute, Value]
    case RSsrcGroups => [Semantics, Ssrcs]
    case RMsidSemantic => [Semantic, Token]
    case RGroups => [Type, Mids]
    case RSctpMap => [SctpMapNumber, App, MaxMessageSize]
    case RRids => [Id, Direction, Params]
    case RSimulcast => [Dir1, List1, Dir2, List2]
    case RSimulcast03 => [Value]
    case RSourceFilter => [FilterMode, NetType, AddressTypes, DestAddress, SrcList]
    case RInvalid => [Value]
    case _ => []
  }

  /** `name` set and `names` not empty: the members live in an object of their own. */
  predicate IsNested(r: Rule) {
    r != RMedia && !IsPush(r) && Names(r) != []
  }

  datatype ValueType = S | D | U

  function Types(r: Rule): seq<ValueType> {
    match r
    case RVersion => [D]
    case ROrigin => [S, U, U, S, D, S]
    case RTiming => [D, D]
    case RConnection => [D, S, D]
    case RBandwidth => [S, D]
    case RMedia => [S, D, D, S, S]
    case RRtp => [D, S, D, S]
    case RFmtp => [D, S]
    case RRtcp => [D, S, D, S]
    case RRtcpFbTrrInt => [S, D]
    case RRtcpFb => [S, S, S]
    case RExt => [D, S, S, S, S]
    case RCrypto => [D, S, S, S]
    case RPtime => [D]
    case RMaxPtime => [D]
    case RFingerprint => [S, S]
    case RCandidates => [S, D, S, D, S, D, S, S, D, S, D, D, D, D]
    case RSsrcs => [D, S, S]
    case RSsrcGroups => [S, S]
    case RMsidSemantic => [S, S]
    case RGroups => [S, S]
    case RSctpMap => [D, S, D]
    case RRids => [S, S, S]
    case RSimulcast => [S, S, S, S]
    case RSourceFilter => [S, S, S, S, S]
    case _ => [S]
  }

  predicate HasValue(o: Object, k: Key) {
    k in o && match o[k] {
      case Str(s) => s != ""
      case Num(_) => true
      case _ => false
    }
  }

  /** The literal an anchored attribute rule starts with. */
  function HeadOf(r: Rule): OneLine {
    match r
    case RRtp => "rtpmap:"
    case RFmtp => "fmtp:"
    case RControl => "control:"
    case RRtcp => "rtcp:"
    case RRtcpFbTrrInt => "rtcp-fb:"
    case RRtcpFb => "rtcp-fb:"
    case RExt => "extmap:"
    case RExtmapAllowMixed => "extmap-allow-mixed"
    case RCrypto => "crypto:"
    case RSetup => "setup:"
    case RMid => "mid:"
    case RMsid => "msid:"
    case RPtime => "ptime:"
    case RMaxPtime => "maxptime:"
    case RIcelite => "ice-lite"
    case RIceUfrag => "ice-ufrag:"
    case RIcePwd => "ice-pwd:"
    case RFingerprint => "fingerprint:"
    case RCandidates => "candidate:"
    case REndOfCandidates => "end-of-candidates"
    case RRemoteCandidates => "remote-candidates:"
    case RIceOptions => "ice-options:"
    case RSsrcs => "ssrc:"
    case RSsrcGroups => "ssrc-group:"
    case RMsidSemantic => "msid-semantic:"
    case RGroups => "group:"
    case RRtcpMux => "rtcp-mux"
    case RRtcpRsize => "rtcp-rsize"
    case RSctpMap => "sctpmap:"
    case RXGoogleFlag => "x-google-flag:"
    case RRids => "rid:"
    case RSimulcast => "simulcast:"
    case RSimulcast03 => "simulcast: "
    case RSourceFilter => "source-filter:"
    case RTsRefclk => "ts-refclk:"
    case RMediaClk => "mediaclk:"
    case _ => ""
  }

  /** Rules whose line is their head and one value. */
  predicate IsToken(r: Rule) {
    r in {RControl, RSetup, RMid, RMsid, RPtime, RMaxPtime, RIceUfrag, RIcePwd, RRemoteCandidates, RIceOptions,
      RXGoogleFlag, RSimulcast03, RTsRefclk, RMediaClk}
  }

  function OriginFormat(o: Object): seq<Piece> {
    [Piece("", 's'), Piece(" ", 'd'), Piece(" ", 'd'), Piece(" ", 's'), Piece(" IP", 'd'), Piece(" ", 's')]
  }

  function TimingFormat(o: Object): seq<Piece> {
    [Piece("", 'd'), Piece(" ", 'd')]
  }

  function ConnectionFormat(o: Object): seq<Piece> {
    [Piece("IN IP", 'd'), Piece(" ", 's')] + (if HasValue(o, Ttl) then [Piece("/", 'd')] else [])
  }

  function BandwidthFormat(o: Object): seq<Piece> {
    [Piece("", 's'), Piece(":", 'd')]
  }

  function MediaFormat(o: Object): seq<Piece> {
    [Piece("", 's'), Piece(" ", 'd'), Optional(HasValue(o, NumPorts), "/"), Piece(" ", 's'), Piece(" ", 's')]
  }

  function RtpFormat(o: Object): seq<Piece> {
    if HasValue(o, Encoding) then [Piece("rtpmap:", 'd'), Piece(" ", 's'), Piece("/", 's'), Piece("/", 's')]
    else if HasValue(o, Rate) then [Piece("rtpmap:", 'd'), Piece(" ", 's'), Piece("/", 's')]
    else [Piece("rtpmap:", 'd'), Piece(" ", 's')]
  }

  function FmtpFormat(o: Object): seq<Piece> {
    [Piece("fmtp:", 'd'), Piece(" ", 's')]
  }

  function RtcpFormat(o: Object): seq<Piece> {
    if HasValue(o, Address) then [Piece("rtcp:", 'd'), Piece(" ", 's'), Piece(" IP", 'd'), Piece(" ", 's')]
    else [Piece("rtcp:", 'd')]
  }

  function RtcpFbTrrIntFormat(o: Object): seq<Piece> {
    [Piece("rtcp-fb:", 's'), Piece(" trr-int ", 'd')]
  }

  function RtcpFbFormat(o: Object): seq<Piece> {
    [Piece("rtcp-fb:", 's'), Piece(" ", 's')] + (if HasValue(o, Subtype) then [Piece(" ", 's')] else [])
  }

  function ExtFormat(o: Object): seq<Piece> {
    [Piece("extmap:", 'd'), Optional(HasValue(o, Direction), "/"), Optional(HasValue(o, EncryptUri), " "),
      Piece(" ", 's')] + (if HasValue(o, Config) then [Piece(" ", 's')] else [])
  }

  function CryptoFormat(o: Object): seq<Piece> {
    [Piece("crypto:", 'd'), Piece(" ", 's'), Piece(" ", 's')]
    + (if HasValue(o, SessionConfig) then [Piece(" ", 's')] else [])
  }

  function FingerprintFormat(o: Object): seq<Piece> {
    [Piece("fingerprint:", 's'), Piece(" ", 's')]
  }

  function CandidatesFormat(o: Object): seq<Piece> {
    [Piece("candidate:", 's'), Piece(" ", 'd'), Piece(" ", 's'), Piece(" ", 'd'), Piece(" ", 's'), Piece(" ", 'd'),
      Piece(" typ ", 's')]
    + (if HasValue(o, RAddr) then [Piece(" raddr ", 's'), Piece(" rport ", 'd')] else [Piece("", 'v'), Piece("", 'v')])
    + [Optional(HasValue(o, TcpType), " tcptype ")]
    + (if HasValue(o, Generation) then [Piece(" generation ", 'd')] else [])
    + [Optional(HasValue(o, NetworkId), " network-id "), Optional(HasValue(o, NetworkCost), " network-cost ")]
  }

  function SsrcsFormat(o: Object): seq<Piece> {
    [Piece("ssrc:", 'd')]
    + (if HasValue(o, Attribute)
       then [Piece(" ", 's')] + (if HasValue(o, Value) then [Piece(":", 's')] else [])
       else [])
  }

  function SsrcGroupsFormat(o: Object): seq<Piece> {
    [Piece("ssrc-group:", 's'), Piece(" ", 's')]
  }

  function MsidSemanticFormat(o: Object): seq<Piece> {
    [Piece("msid-semantic: ", 's'), Piece(" ", 's')]
  }

  function GroupsFormat(o: Object): seq<Piece> {
    [Piece("group:", 's'), Piece(" ", 's')]
  }

  function SctpMapFormat(o: Object): seq<Piece> {
    [Piece("sctpmap:", 's'), Piece(" ", 's')] + (if HasValue(o, MaxMessageSize) then [Piece(" ", 's')] else [])
  }

  function RidsFormat(o: Object): seq<Piece> {
    [Piece("rid:", 's'), Piece(" ", 's')] + (if HasValue(o, Params) then [Piece(" ", 's')] else [])
  }

  function SimulcastFormat(o: Object): seq<Piece> {
    [Piece("simulcast:", 's'), Piece(" ", 's')] + (if HasValue(o, Dir2) then [Piece(" ", 's'), Piece(" ", 's')] else [])
  }

  function SourceFilterFormat(o: Object): seq<Piece> {
    [Piece("source-filter: ", 's'), Piece(" ", 's'), Piece(" ", 's'), Piece(" ", 's'), Piece(" ", 's')]
  }

  function Format(r: Rule, o: Object): seq<Piece> {
    if IsToken(r) then [Piece(HeadOf(r), 's')] else StructuredFormat(r, o)
  }

  function StructuredFormat(r: Rule, o: Object): seq<Piece> {
    match r
    case ROrigin => OriginFormat(o)
    case RTiming => TimingFormat(o)
    case RConnection => ConnectionFormat(o)
    case RBandwidth => BandwidthFormat(o)
    case RMedia => MediaFormat(o)
    case RRtp => RtpFormat(o)
    case RFmtp => FmtpFormat(o)
    case RRtcp => RtcpFormat(o)
    case RRtcpFbTrrInt => RtcpFbTrrIntFormat(o)
    case RRtcpFb => RtcpFbFormat(o)
    case RExt => ExtFormat(o)
    case RCrypto => CryptoFormat(o)
    case RFingerprint => FingerprintFormat(o)
    case RCandidates => CandidatesFormat(o)
    case RSsrcs => SsrcsFormat(o)
    case RSsrcGroups => SsrcGroupsFormat(o)
    case RMsidSemantic => MsidSemanticFormat(o)
    case RGroups => GroupsFormat(o)
    case RSctpMap => SctpMapFormat(o)
    case RRids => RidsFormat(o)
    case RSimulcast => SimulcastFormat(o)
    case RSourceFilter => SourceFilterFormat(o)
    case _ => [Piece("", 's')]
  }

  predicate IsHeaded(r: Rule) {
    Letter(r) == 'a' && r !in {RDirection, RXGoogleFlag, RInvalid}
  }

  /** Rules for a line that is the keyword itself. */
  predicate IsKeyword(r: Rule) {
    r in {RExtmapAllowMixed, RIcelite, REndOfCandidates, RRtcpMux, RRtcpRsize}
  }

  /** What the pattern of a headed rule asks for behind its head. */
  function RestOf(r: Rule): Pat {
    match r
    case RRtp => RtpRest()
    case RFmtp => Cap(Digit, 0, Lit(" ", Cap(Any, 0, Done)))
    case RControl => Cap(Any, 0, Done)
    case RRtcp => RtcpRest()
    case RRtcpFbTrrInt => RtcpFbTrrIntRest()
    case RRtcpFb => RtcpFbRest()
    case RExt => ExtRest()
    case RCrypto => CryptoRest()
    case RSetup => Cap(Word, 0, Done)
    case RMid => Cap(NonSpace, 0, Done)
    case RMsid => Cap(Any, 0, Done)
    case RPtime => Cap(Digit, 0, Done)
    case RMaxPtime => Cap(Digit, 0, Done)
    case RIceUfrag => Cap(NonSpace, 0, Done)
    case RIcePwd => Cap(NonSpace, 0, Done)
    case RFingerprint => FingerprintRest()
    case RCandidates => CandidatesRest()
    case RRemoteCandidates => Cap(Any, 0, Done)
    case RIceOptions => Cap(NonSpace, 0, Done)
    case RSsrcs => SsrcsRest()
    case RSsrcGroups => Cap(WordOr("!#$%&'*+,-."), 0, Lit(" ", Cap(Any, 0, Done)))
    case RMsidSemantic => MsidSemanticRest()
    case RGroups => Cap(Word, 0, Lit(" ", Cap(Any, 0, Done)))
    case RSctpMap => SctpMapRest()
    case RRids => RidsRest()
    case RSimulcast => SimulcastRest()
    case RSimulcast03 => Cap(Any, 1, End)
    case RSourceFilter => SourceFilterRest()
    case RTsRefclk => Cap(Any, 0, Done)
    case RMediaClk => Cap(Any, 0, Done)
    case _ => Done
  }


  function Pattern(r: Rule): Pat {
    if IsKeyword(r) then Word_(HeadOf(r), Done)
    else if IsHeaded(r) then Lit(HeadOf(r), RestOf(r))
    else OtherPattern(r)
  }

  function OtherPattern(r: Rule): Pat {
    match r
    case RVersion => Cap(Digit, 0, End)
    case ROrigin => OriginPattern()
    case RTiming => TimingPattern()
    case RConnection => ConnectionPattern()
    case RBandwidth => BandwidthPattern()
    case RMedia => MediaPattern()
    case RDirection => DirectionPattern()
    case RXGoogleFlag => Lit("x-google-flag:", Cap(NonSpace, 0, Done))
    case _ => Cap(Any, 0, Done)
  }

  /** The captures of a rule's regular expression; only x-google-flag is not anchored
      (the other patterns without `^` match everywhere, hence at the start). */
  function Captures(r: Rule, content: string): Option<seq<string>> {
    if r == RXGoogleFlag then Search(Pattern(r), content) else Match(Pattern(r), content)
  }

  /** The rule a line is handed to: the first one that matches. */
  function FirstMatch(rules: seq<Rule>, content: string): Option<Rule> {
    if rules == [] then None
    else if Captures(rules[0], content).Some? then Some(rules[0])
    else FirstMatch(rules[1..], content)
  }

  function Dispatch(letter: char, content: string): Option<Rule> {
    FirstMatch(RulesOf(letter), content)
  }
}
