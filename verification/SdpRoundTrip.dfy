/** Printing is stable through parsing. */
module SdpRoundTrip {
  import opened Text
  import opened Json
  import opened Regex
  import opened Patterns
  import opened LineShapes
  import opened Grammar
  import opened SdpText
  import opened SdpTokens
  import opened Heads

  // ----- one object -----

  predicate Distinct<T(==)>(xs: seq<T>) {
    forall i, j :: 0 <= i < j < |xs| ==> xs[i] != xs[j]
  }

  lemma NamesAreDistinct(r: Rule)
    ensures Distinct(Names(r))
  {
    hide CandidateNames;
    match r {
      case ROrigin => case RConnection => case RMedia => case RRtp => case RRtcp => case RRtcpFb => case RExt =>
      case RCandidates => CandidateNamesDistinct(Names(r));
      case _ => LateNamesDistinct(r);
    }
  }

  lemma LateNamesDistinct(r: Rule)
    requires r !in {ROrigin, RConnection, RMedia, RRtp, RRtcp, RRtcpFb, RExt, RCandidates}
    ensures Distinct(Names(r))
  {
    hide CandidateNames;
  }

  lemma CandidateNamesDistinct(names: seq<Key>)
    requires names == CandidateNames()
    ensures Distinct(names)
  {
  }

  /** A captured text turned into its value and printed again is the text. */
  predicate Stable(text: string, t: ValueType) {
    ArgText(ToType(text, t)) == text
  }

  lemma DigitsStable(n: nat, t: ValueType)
    requires n < TWO_63
    ensures Stable(Digits(n), t)
  {
    DecimalRoundTrip(n);
    assert Decimal(n) == Digits(n);
  }

  /** What the parsed object holds for a name. */
  lemma {:induction false} AttachLook(names: seq<Key>, types: seq<ValueType>, caps: seq<string>, loc: Object,
      i: nat, j: nat)
    requires i <= j < |names| == |caps| && |names| <= |types| && Distinct(names)
    ensures Look(AttachNames(names, types, caps, loc, i), names[j])
         == if caps[j] != "" then ToType(caps[j], types[j]) else Look(loc, names[j])
    decreases |names| - i
  {
    var loc' := if caps[i] != "" then loc[names[i] := ToType(caps[i], types[i])] else loc;
    if i < j {
      AttachLook(names, types, caps, loc', i + 1, j);
    } else {
      AttachOther(names, types, caps, loc', i + 1, names[i]);
    }
  }

  /** Other members stay as they are. */
  lemma {:induction false} AttachOther(names: seq<Key>, types: seq<ValueType>, caps: seq<string>, loc: Object,
      i: nat, k: Key)
    requires i <= |names| == |caps| && |names| <= |types|
    requires forall j :: i <= j < |names| ==> names[j] != k
    ensures var out := AttachNames(names, types, caps, loc, i); (k in out <==> k in loc) && Look(out, k) == Look(loc, k)
    decreases |names| - i
  {
    if i < |names| {
      AttachOther(names, types, caps, if caps[i] != "" then loc[names[i] := ToType(caps[i], types[i])]
        else loc, i + 1, k);
    }
  }

  /** The object that parsing the printed line of `o` yields. */
  function Reparsed(r: Rule, o: Object, into: Object): Object {
    TypesCoverNames(r);
    AttachNames(Names(r), Types(r), Texts(r, o), into, 0)
  }

  predicate AllStable(r: Rule, o: Object)
    requires |Names(r)| <= |Types(r)|
  {
    forall i :: 0 <= i < |Names(r)| && Texts(r, o)[i] != "" ==> Stable(Texts(r, o)[i], Types(r)[i])
  }

  lemma ReparsedText(r: Rule, o: Object, into: Object, j: nat)
    requires |Names(r)| <= |Types(r)| && AllStable(r, o) && j < |Names(r)|
    requires Names(r)[j] !in into
    ensures TextAt(Reparsed(r, o, into), Names(r)[j]) == TextAt(o, Names(r)[j])
  {
    NamesAreDistinct(r);
    AttachLook(Names(r), Types(r), Texts(r, o), into, 0, j);
  }

  lemma HasValueIsText(o: Object, k: Key)
    ensures HasValue(o, k) <==> TextAt(o, k) != ""
  {
  }

  predicate SameValues(o: Object, p: Object, keys: set<Key>) {
    forall k :: k in keys ==> (HasValue(o, k) <==> HasValue(p, k))
  }

  /** The members a format function asks for. */
  function Optionals(r: Rule): set<Key> {
    match r
    case RConnection => {Ttl}
    case RMedia => {NumPorts}
    case RRtp => {Encoding, Rate}
    case RRtcp => {Address}
    case RRtcpFb => {Subtype}
    case RExt => {Direction, EncryptUri, Config}
    case RCrypto => {SessionConfig}
    case RCandidates => {RAddr, TcpType, Generation, NetworkId, NetworkCost}
    case RSsrcs => {Attribute, Value}
    case RSctpMap => {MaxMessageSize}
    case RRids => {Params}
    case RSimulcast => {Dir2}
    case _ => {}
  }

  lemma FormatByValues(r: Rule, o: Object, p: Object)
    requires SameValues(o, p, Optionals(r))
    ensures Format(r, o) == Format(r, p)
  {
    hide HasValue, Format, SameValues, Optionals;
    match r {
      case RCandidates => CandidateFormatByValues(o, p);
      case RSsrcs => LateFormatByValues(r, o, p);
      case RSctpMap => LateFormatByValues(r, o, p);
      case RRids => LateFormatByValues(r, o, p);
      case RSimulcast => LateFormatByValues(r, o, p);
      case RCrypto => LateFormatByValues(r, o, p);
      case RConnection => EarlyFormatByValues(r, o, p);
      case RMedia => EarlyFormatByValues(r, o, p);
      case RRtp => EarlyFormatByValues(r, o, p);
      case RRtcp => EarlyFormatByValues(r, o, p);
      case RRtcpFb => EarlyFormatByValues(r, o, p);
      case RExt => EarlyFormatByValues(r, o, p);
      case _ => PlainFormat(r, o, p);
    }
  }

  /** The other formats are fixed. */
  lemma PlainFormat(r: Rule, o: Object, p: Object)
    requires r !in {RConnection, RMedia, RRtp, RRtcp, RRtcpFb, RExt, RCandidates, RCrypto, RSsrcs, RSctpMap, RRids,
      RSimulcast}
    ensures Format(r, o) == Format(r, p)
  {
    hide HeadOf, ConnectionFormat, MediaFormat, RtpFormat, RtcpFormat, RtcpFbFormat, ExtFormat, CandidatesFormat,
      CryptoFormat, SsrcsFormat, SctpMapFormat, RidsFormat, SimulcastFormat;
  }

  lemma EarlyFormatByValues(r: Rule, o: Object, p: Object)
    requires r in {RConnection, RMedia, RRtp, RRtcp, RRtcpFb, RExt} && SameValues(o, p, Optionals(r))
    ensures Format(r, o) == Format(r, p)
  {
    hide HasValue, HeadOf;
    match r {
      case RConnection => case RMedia => case RRtp => case RRtcp => case RRtcpFb => case RExt => case _ =>
    }
  }

  lemma LateFormatByValues(r: Rule, o: Object, p: Object)
    requires r in {RCrypto, RSsrcs, RSctpMap, RRids, RSimulcast} && SameValues(o, p, Optionals(r))
    ensures Format(r, o) == Format(r, p)
  {
    hide HasValue;
    match r {
      case RCrypto => case RSsrcs => case RSctpMap => case RRids => case RSimulcast => case _ =>
    }
  }

  lemma CandidateFormatByValues(o: Object, p: Object)
    requires SameValues(o, p, Optionals(RCandidates))
    ensures Format(RCandidates, o) == Format(RCandidates, p)
  {
    hide HasValue;
  }

  lemma OptionalsAreNames(r: Rule, k: Key)
    requires k in Optionals(r)
    ensures k in Names(r)
  {
    hide CandidateNames;
    match r {
      case RConnection => case RMedia => case RRtp => case RRtcp =>
      case RCandidates => CandidateOptionals(k);
      case _ => LateOptionals(r, k);
    }
  }

  lemma LateOptionals(r: Rule, k: Key)
    requires k in Optionals(r) && r !in {RConnection, RMedia, RRtp, RRtcp, RCandidates}
    ensures k in Names(r)
  {
    hide CandidateNames;
  }

  lemma CandidateOptionals(k: Key)
    requires k in {RAddr, TcpType, Generation, NetworkId, NetworkCost}
    ensures k in CandidateNames()
  {
    var n := CandidateNames();
    assert n[7] == RAddr && n[9] == TcpType && n[10] == Generation && n[11] == NetworkId && n[12] == NetworkCost;
  }

  /** The format depends on the printed texts only. */
  lemma FormatByTexts(r: Rule, o: Object, p: Object)
    requires forall j :: 0 <= j < |Names(r)| ==> TextAt(o, Names(r)[j]) == TextAt(p, Names(r)[j])
    ensures Format(r, o) == Format(r, p)
  {
    hide Format, Names, Optionals, HasValue;
    forall k | k in Optionals(r)
      ensures HasValue(o, k) <==> HasValue(p, k)
    {
      OptionalsAreNames(r, k);
      HasValueIsText(o, k);
      HasValueIsText(p, k);
    }
    FormatByValues(r, o, p);
  }

  lemma ContentByTexts(r: Rule, o: Object, p: Object)
    requires forall j :: 0 <= j < |Names(r)| ==> TextAt(o, Names(r)[j]) == TextAt(p, Names(r)[j])
    ensures Content(r, o) == Content(r, p) && Texts(r, o) == Texts(r, p)
  {
    FormatByTexts(r, o, p);
    assert Texts(r, o) == Texts(r, p);
  }

  lemma {:induction false} ExpandIsFill(f: seq<Piece>, args: seq<Json>, t: seq<string>, i: nat)
    requires i <= |f| <= |args| == |t|
    requires forall j :: 0 <= j < |t| ==> t[j] == ArgText(args[j])
    ensures Expand(f, args, i) == Fill(f, t, i)
    decreases |f| - i
  {
    if i < |f| {
      ExpandIsFill(f, args, t, i + 1);
    }
  }

  /** Numbers printed for well-formed objects are canonical decimals. */
  lemma ElementStable(r: Rule, o: Object)
    requires ElementOk(r, o)
    ensures |Names(r)| <= |Types(r)| && AllStable(r, o)
  {
    TypesCoverNames(r);
    forall i | 0 <= i < |Names(r)| && Texts(r, o)[i] != ""
      ensures Stable(Texts(r, o)[i], Types(r)[i])
    {
      if Types(r)[i] != S {
        NumericName(r, o, i);
        DigitsStable(o[Names(r)[i]].n, Types(r)[i]);
      }
    }
  }

  lemma NumericName(r: Rule, o: Object, i: nat)
    requires ElementOk(r, o) && i < |Names(r)| <= |Types(r)| && Types(r)[i] != S && TextAt(o, Names(r)[i]) != ""
    ensures Counter(o, Names(r)[i])
  {
  }

  /** The content of a line, its rule's arguments being members of one object. */
  lemma MakeLineContent(r: Rule, loc: Object, o: Object)
    requires Names(r) != [] && |Format(r, o)| <= |Names(r)|
    requires FormatObject(r, loc) == o
    requires forall j :: 0 <= j < |Names(r)| ==> Argument(r, loc, Names(r)[j]) == Look(o, Names(r)[j])
    ensures MakeLine(r, loc) == Line(Letter(r), Content(r, o))
  {
    hide Format, Names, Argument, IsNested;
    ExpandIsFill(Format(r, o), Arguments(r, loc), Texts(r, o), 0);
  }

  /** The parsed object prints the same line. */
  lemma ReparsedPrints(r: Rule, o: Object, into: Object)
    requires ElementOk(r, o) && forall j :: 0 <= j < |Names(r)| ==> Names(r)[j] !in into
    ensures var p := Reparsed(r, o, into); Content(r, p) == Content(r, o) && Texts(r, p) == Texts(r, o)
  {
    hide Format, Names, ElementOk, Reparsed;
    ElementStable(r, o);
    forall j | 0 <= j < |Names(r)|
      ensures TextAt(Reparsed(r, o, into), Names(r)[j]) == TextAt(o, Names(r)[j])
    {
      ReparsedText(r, o, into, j);
    }
    ContentByTexts(r, o, Reparsed(r, o, into));
  }

  // ----- one rule for one location -----

  /** Members that only a nested rule's fallback could find in a location. */
  predicate NoStray(loc: Object) {
    Ttl !in loc && Dir2 !in loc && List2 !in loc
  }

  /** What a location may hold for a rule. */
  predicate RuleOk(r: Rule, loc: Object) {
    r != RMedia && Member(r) in loc ==>
      var v := loc[Member(r)];
      if !IsElementRule(r) then ScalarOk(r, v)
      else if IsPush(r) then v.Arr? && forall i :: 0 <= i < |v.items| ==> ElementOk(r, v.items[i])
      else v.Obj? && ElementOk(r, v.fields)
  }

  function ReparsedItems(r: Rule, items: seq<Object>): (out: seq<Object>)
    ensures |out| == |items|
  {
    seq(|items|, i requires 0 <= i < |items| => Reparsed(r, items[i], map[]))
  }

  /** The member value that parsing the rule's lines yields. */
  function Reread(r: Rule, v: Json): Json {
    TypesCoverNames(r);
    if !IsElementRule(r) then ToType(ArgText(v), Types(r)[0])
    else if IsPush(r) then Arr(ReparsedItems(r, ItemsOf(v)))
    else Obj(Reparsed(r, FieldsOf(v), map[]))
  }

  function FeedLines(loc: Object, lines: seq<Line>): Object {
    if lines == [] then loc else FeedLine(FeedLines(loc, lines[..|lines| - 1]), lines[|lines| - 1])
  }

  lemma PushMakes(r: Rule, o: Object)
    requires IsPush(r) && ElementOk(r, o)
    ensures MakeLine(r, o) == Line(Letter(r), Content(r, o))
  {
    hide ElementOk, Format, Names, Captures, Dispatch, Content, Texts, Argument, FormatObject, MakeLine;
    ElementNamed(r, o);
    PushArguments(r, o);
    ElementReads(r, o);
    MakeLineContent(r, o, o);
  }

  lemma {:induction false} FeedItems(r: Rule, items: seq<Object>, acc: Object)
    requires IsPush(r) && forall i :: 0 <= i < |items| ==> ElementOk(r, items[i])
    requires ItemsOf(Look(acc, Member(r))) == []
    ensures FeedLines(acc, ItemLines(r, items)) == if items == [] then acc
      else acc[Member(r) := Arr(ReparsedItems(r, items))]
  {
    hide ElementOk, MakeLine, FeedLine, Reparsed, Member, IsPush, ReparsedItems, ItemLines;
    NothingReparsed(r);
    if items != [] {
      var n := |items| - 1;
      var before := ItemLines(r, items[..n]);
      FeedItems(r, items[..n], acc);
      ItemLinesSnoc(r, items);
      assert (before + [MakeLine(r, items[n])])[..n] == before;
      FeedItem(r, items[n], FeedLines(acc, before), MakeLine(r, items[n]));
      ReparsedSnoc(r, items);
    }
  }

  lemma ItemLinesSnoc(r: Rule, items: seq<Object>)
    requires items != []
    ensures ItemLines(r, items) == ItemLines(r, items[..|items| - 1]) + [MakeLine(r, items[|items| - 1])]
  {
    hide MakeLine;
  }

  lemma NothingReparsed(r: Rule)
    ensures ReparsedItems(r, []) == []
  {
  }

  lemma ReparsedSnoc(r: Rule, items: seq<Object>)
    requires items != []
    ensures ReparsedItems(r, items) == ReparsedItems(r, items[..|items| - 1]) + [Reparsed(r, items[|items| - 1], map[])]
  {
    hide Reparsed;
  }

  lemma FeedItem(r: Rule, o: Object, loc: Object, line: Line)
    requires IsPush(r) && ElementOk(r, o) && line == MakeLine(r, o)
    ensures FeedLine(loc, line)
         == loc[Member(r) := Arr(ItemsOf(Look(loc, Member(r))) + [Reparsed(r, o, map[])])]
  {
    hide Captures, Dispatch, Content, Texts, ElementOk, Format, MakeLine, ParseReg, Member, Names, Attach, Reparsed;
    PushMakes(r, o);
    ElementReads(r, o);
    ParsePush(r, loc, Texts(r, o));
    ElementNamed(r, o);
    AttachIsReparsed(r, o);
  }

  lemma AttachIsReparsed(r: Rule, o: Object)
    requires Names(r) != []
    ensures Attach(r, Texts(r, o), map[]) == Reparsed(r, o, map[])
  {
    hide Names, Types, Texts;
  }

  lemma ParsePush(r: Rule, loc: Object, caps: seq<string>)
    requires IsPush(r)
    ensures ParseReg(r, loc, caps) == loc[Member(r) := Arr(ItemsOf(Look(loc, Member(r))) + [Attach(r, caps, map[])])]
  {
    hide Member, Attach;
  }

  lemma NestedMissing(r: Rule, o: Object, n: Key)
    requires IsNested(r) && ElementOk(r, o) && n in Names(r) && n !in o
    ensures n in {Ttl, Dir2, List2}
  {
  }

  lemma NestedArgument(r: Rule, loc: Object, n: Key)
    requires IsNested(r) && Member(r) in loc && loc[Member(r)].Obj? && ElementOk(r, loc[Member(r)].fields)
      && NoStray(loc)
    requires n in Names(r)
    ensures Argument(r, loc, n) == Look(loc[Member(r)].fields, n)
  {
    hide ElementOk, Names, Member, IsPush, Argument;
    var o := loc[Member(r)].fields;
    OwnArgument(r, loc, n);
    if n !in o {
      NestedMissing(r, o, n);
    }
  }

  /** The rule's own object comes first. */
  lemma OwnArgument(r: Rule, loc: Object, n: Key)
    requires IsNested(r) && Member(r) in loc && loc[Member(r)].Obj?
    ensures var o := loc[Member(r)].fields; Argument(r, loc, n) == if n in o then o[n] else Look(loc, n)
  {
    hide Names, Member, IsPush;
  }

  lemma NestedMakes(r: Rule, loc: Object)
    requires IsNested(r) && Member(r) in loc && loc[Member(r)].Obj? && ElementOk(r, loc[Member(r)].fields)
      && NoStray(loc)
    ensures MakeLine(r, loc) == Line(Letter(r), Content(r, loc[Member(r)].fields))
  {
    hide Format, ElementOk, Content, MakeLine, Names, Member, Argument, NoStray, Captures, Dispatch;
    var o := loc[Member(r)].fields;
    ElementReads(r, o);
    forall j | 0 <= j < |Names(r)|
      ensures Argument(r, loc, Names(r)[j]) == Look(o, Names(r)[j])
    {
      NestedArgument(r, loc, Names(r)[j]);
    }
    MakeLineContent(r, loc, o);
  }

  lemma FeedNested(r: Rule, loc: Object, acc: Object)
    requires IsNested(r) && IsElementRule(r) && RuleOk(r, loc) && NoStray(loc) && Member(r) in loc && Member(r) !in acc
    ensures FeedLine(acc, MakeLine(r, loc)) == acc[Member(r) := Reread(r, loc[Member(r)])]
  {
    hide Captures, Dispatch, Content, Texts, ElementOk, MakeLine;
    NestedMakes(r, loc);
    ElementReads(r, loc[Member(r)].fields);
  }

  lemma ScalarShape(r: Rule)
    requires IsScalarRule(r)
    ensures !IsElementRule(r) && !IsPush(r) && Names(r) == [] && r != RMedia
  {
  }

  lemma ScalarFormat(r: Rule, o: Object)
    requires IsScalarRule(r)
    ensures |Format(r, o)| == 1 && Format(r, o)[0].directive == 's' && Format(r, o) == Format(r, map[])
  {
  }

  lemma ScalarKind(r: Rule, v: Json)
    requires ScalarOk(r, v)
    ensures IsScalarRule(r) && (if r == RVersion then v.Num? && 0 <= v.n < TWO_63 else v.Str?)
  {
  }

  lemma ScalarMakes(r: Rule, loc: Object)
    requires IsScalarRule(r) && Member(r) in loc && ScalarOk(r, loc[Member(r)])
    ensures MakeLine(r, loc) == Line(Letter(r), ScalarContent(r, loc[Member(r)]))
  {
    hide IsScalarRule, IsElementRule, IsPush, Names, Format, ScalarOk, Member;
    ScalarShape(r);
    var v := loc[Member(r)];
    ScalarKind(r, v);
    assert FieldsOf(v) == map[];
    assert Arguments(r, loc) == [v];
    ScalarFormat(r, map[]);
    ExpandIsFill(Format(r, map[]), [v], [ArgText(v)], 0);
    assert ArgText(v) + "" == ArgText(v);
  }

  lemma ScalarRules(r: Rule, v: Json)
    requires ScalarOk(r, v)
    ensures IsScalarRule(r) && !IsElementRule(r) && !IsPush(r) && Names(r) == [] && r != RMedia
  {
    hide ScalarOk, IsScalarRule, IsElementRule, IsPush, Names;
    ScalarKind(r, v);
    ScalarShape(r);
  }

  lemma FeedScalar(r: Rule, loc: Object, acc: Object)
    requires r != RMedia && Member(r) in loc && ScalarOk(r, loc[Member(r)])
    ensures FeedLine(acc, MakeLine(r, loc)) == acc[Member(r) := Reread(r, loc[Member(r)])]
  {
    hide Captures, Dispatch, ScalarContent, MakeLine, ScalarOk;
    ScalarRules(r, loc[Member(r)]);
    ScalarMakes(r, loc);
    ScalarReads(r, loc[Member(r)]);
  }

  /** What a location becomes when one rule's lines are parsed into it. */
  function WithRule(r: Rule, loc: Object, acc: Object): Object {
    if LinesOf(r, loc) == [] then acc else acc[Member(r) := Reread(r, loc[Member(r)])]
  }

  lemma FeedRule(r: Rule, loc: Object, acc: Object)
    requires r != RMedia && RuleOk(r, loc) && NoStray(loc)
    requires Member(r) in acc ==> IsPush(r) && acc[Member(r)] == Arr([])
    ensures FeedLines(acc, LinesOf(r, loc)) == WithRule(r, loc, acc)
  {
    hide MakeLine, FeedLine, ElementOk, ScalarOk, Reparsed, ReparsedItems, Names, Types, Member, IsPush, IsElementRule,
      IsNested, NoStray;
    if Member(r) in loc {
      var v := loc[Member(r)];
      if IsPush(r) {
        PushRules(r, v);
        FeedItems(r, v.items, acc);
      } else {
        if IsElementRule(r) {
          ElementIsNested(r);
          FeedNested(r, loc, acc);
        } else {
          FeedScalar(r, loc, acc);
        }
        assert LinesOf(r, loc) == [MakeLine(r, loc)];
        assert FeedLines(acc, []) == acc;
        assert LinesOf(r, loc)[..0] == [];
      }
    }
  }

  lemma ElementIsNested(r: Rule)
    requires IsElementRule(r) && !IsPush(r) && r != RMedia
    ensures IsNested(r)
  {
  }

  lemma PushRules(r: Rule, v: Json)
    requires IsPush(r) && (if !IsElementRule(r) then ScalarOk(r, v) else true)
    ensures IsElementRule(r)
  {
  }

  // ----- all rules of a location -----

  /** The rule that owns a member. */
  function RuleFor(k: Key): Rule {
    match k
    case Version => RVersion case Origin => ROrigin case Name => RName case Description => RDescription
    case Uri => RUri case Email => REmail case Phone => RPhone case TimeZones => RTimeZones
    case Repeats => RRepeats case Timing => RTiming case Connection => RConnection case Bandwidth => RBandwidth
    case Rtp => RRtp case Fmtp => RFmtp case Control => RControl case Rtcp => RRtcp
    case RtcpFbTrrInt => RRtcpFbTrrInt case RtcpFb => RRtcpFb case Ext => RExt
      case ExtmapAllowMixed => RExtmapAllowMixed
    case Crypto => RCrypto case Setup => RSetup case Mid => RMid case Msid => RMsid
    case Ptime => RPtime case MaxPtime => RMaxPtime case Direction => RDirection case Icelite => RIcelite
    case IceUfrag => RIceUfrag case IcePwd => RIcePwd case Fingerprint => RFingerprint case Candidates => RCandidates
    case EndOfCandidates => REndOfCandidates case RemoteCandidates => RRemoteCandidates case IceOptions => RIceOptions
      case Ssrcs => RSsrcs
    case SsrcGroups => RSsrcGroups case MsidSemantic => RMsidSemantic case Groups => RGroups case RtcpMux => RRtcpMux
    case RtcpRsize => RRtcpRsize case SctpMap => RSctpMap case XGoogleFlag => RXGoogleFlag case Rids => RRids
    case Simulcast => RSimulcast case Simulcast03 => RSimulcast03 case SourceFilter => RSourceFilter
      case TsRefclk => RTsRefclk
    case MediaClk => RMediaClk case Invalid => RInvalid
    case _ => RMedia
  }

  /** The owner of a rule's member is the rule; the table is walked in parts. */
  lemma MemberIsOwned(r: Rule)
    requires r != RMedia
    ensures RuleFor(Member(r)) == r
  {
    hide RuleFor, Member;
    match r {
      case RVersion => LineOwned(r); case ROrigin => LineOwned(r); case RName => LineOwned(r);
      case RDescription => LineOwned(r); case RUri => LineOwned(r); case REmail => LineOwned(r);
      case RPhone => LineOwned(r); case RTimeZones => LineOwned(r); case RRepeats => LineOwned(r);
      case RTiming => LineOwned(r); case RConnection => LineOwned(r); case RBandwidth => LineOwned(r);
      case RRtp => CodecOwned(r); case RFmtp => CodecOwned(r); case RControl => CodecOwned(r);
      case RRtcp => CodecOwned(r); case RRtcpFbTrrInt => CodecOwned(r);
      case RRtcpFb => ExtOwned(r); case RExt => ExtOwned(r); case RExtmapAllowMixed => ExtOwned(r);
      case RCrypto => ExtOwned(r);
      case RSetup => MediaOwned(r); case RMid => MediaOwned(r); case RMsid => MediaOwned(r);
      case RPtime => MediaOwned(r);
      case RMaxPtime => DirectionOwned(r); case RDirection => DirectionOwned(r);
      case RIcelite => DirectionOwned(r); case RIceUfrag => DirectionOwned(r);
      case RIcePwd => CandidateOwned(r); case RFingerprint => CandidateOwned(r);
      case RCandidates => CandidateOwned(r); case REndOfCandidates => CandidateOwned(r);
      case RRemoteCandidates => SsrcOwned(r); case RIceOptions => SsrcOwned(r); case RSsrcs => SsrcOwned(r);
      case RSsrcGroups => SsrcOwned(r);
      case RMsidSemantic => GroupOwned(r); case RGroups => GroupOwned(r); case RRtcpMux => GroupOwned(r);
      case RRtcpRsize => GroupOwned(r);
      case RSctpMap => StreamOwned(r); case RXGoogleFlag => StreamOwned(r); case RRids => StreamOwned(r);
      case RSimulcast => SimulcastOwned(r); case RSimulcast03 => SimulcastOwned(r);
      case RSourceFilter => SimulcastOwned(r);
      case RTsRefclk => ClockOwned(r); case RMediaClk => ClockOwned(r); case RInvalid => ClockOwned(r);
    }
  }

  lemma LineOwned(r: Rule)
    requires r in {RVersion, ROrigin, RName, RDescription, RUri, REmail,
               RPhone, RTimeZones, RRepeats, RTiming, RConnection, RBandwidth}
    ensures RuleFor(Member(r)) == r
  {
  }

  lemma CodecOwned(r: Rule)
    requires r in {RRtp, RFmtp, RControl, RRtcp, RRtcpFbTrrInt}
    ensures RuleFor(Member(r)) == r
  {
  }

  lemma ExtOwned(r: Rule)
    requires r in {RRtcpFb, RExt, RExtmapAllowMixed, RCrypto}
    ensures RuleFor(Member(r)) == r
  {
  }

  lemma MediaOwned(r: Rule)
    requires r in {RSetup, RMid, RMsid, RPtime}
    ensures RuleFor(Member(r)) == r
  {
  }

  lemma DirectionOwned(r: Rule)
    requires r in {RMaxPtime, RDirection, RIcelite, RIceUfrag}
    ensures RuleFor(Member(r)) == r
  {
  }

  lemma CandidateOwned(r: Rule)
    requires r in {RIcePwd, RFingerprint, RCandidates, REndOfCandidates}
    ensures RuleFor(Member(r)) == r
  {
  }

  lemma SsrcOwned(r: Rule)
    requires r in {RRemoteCandidates, RIceOptions, RSsrcs, RSsrcGroups}
    ensures RuleFor(Member(r)) == r
  {
  }

  lemma GroupOwned(r: Rule)
    requires r in {RMsidSemantic, RGroups, RRtcpMux, RRtcpRsize}
    ensures RuleFor(Member(r)) == r
  {
  }

  lemma StreamOwned(r: Rule)
    requires r in {RSctpMap, RXGoogleFlag, RRids}
    ensures RuleFor(Member(r)) == r
  {
  }

  lemma SimulcastOwned(r: Rule)
    requires r in {RSimulcast, RSimulcast03, RSourceFilter}
    ensures RuleFor(Member(r)) == r
  {
  }

  lemma ClockOwned(r: Rule)
    requires r in {RTsRefclk, RMediaClk, RInvalid}
    ensures RuleFor(Member(r)) == r
  {
  }

  /** What a location becomes when the lines of all rules are parsed into it. */
  function WithRules(rules: seq<Rule>, loc: Object, acc: Object): Object {
    if rules == [] then acc else WithRule(rules[|rules| - 1], loc, WithRules(rules[..|rules| - 1], loc, acc))
  }

  predicate AllOk(rules: seq<Rule>, loc: Object, acc: Object) {
    && NoStray(loc)
    && (forall i :: 0 <= i < |rules| ==>
          && rules[i] != RMedia && RuleOk(rules[i], loc)
          && (Member(rules[i]) in acc ==> IsPush(rules[i]) && acc[Member(rules[i])] == Arr([])))
  }

  lemma {:induction false} WithRulesOther(rules: seq<Rule>, loc: Object, acc: Object, k: Key)
    requires forall i :: 0 <= i < |rules| ==> rules[i] != RuleFor(k) && rules[i] != RMedia
    ensures var out := WithRules(rules, loc, acc); (k in out <==> k in acc) && Look(out, k) == Look(acc, k)
  {
    hide LinesOf, Reread, RuleFor, Member;
    if rules != [] {
      WithRulesOther(rules[..|rules| - 1], loc, acc, k);
      MemberIsOwned(rules[|rules| - 1]);
    }
  }

  lemma {:induction false} FeedLinesConcat(acc: Object, a: seq<Line>, b: seq<Line>)
    ensures FeedLines(acc, a + b) == FeedLines(FeedLines(acc, a), b)
  {
    hide FeedLine;
    if b == [] {
      assert a + b == a;
    } else {
      assert (a + b)[..|a + b| - 1] == a + b[..|b| - 1];
      FeedLinesConcat(acc, a, b[..|b| - 1]);
    }
  }

  lemma {:induction false} FeedRules(rules: seq<Rule>, loc: Object, acc: Object)
    requires Distinct(rules) && AllOk(rules, loc, acc)
    ensures FeedLines(acc, ObjectLines(rules, loc)) == WithRules(rules, loc, acc)
  {
    hide FeedLines, LinesOf, WithRule, Member, RuleOk, RuleFor;
    if rules == [] {
      NoLines(acc);
    } else {
      var n := |rules| - 1;
      var prefix, r := rules[..n], rules[n];
      FeedRules(prefix, loc, acc);
      FeedLinesConcat(acc, ObjectLines(prefix, loc), LinesOf(r, loc));
      MemberIsOwned(r);
      WithRulesOther(prefix, loc, acc, Member(r));
      LookSame(WithRules(prefix, loc, acc), acc, Member(r));
      FeedRule(r, loc, WithRules(prefix, loc, acc));
    }
  }

  lemma NoLines(acc: Object)
    ensures FeedLines(acc, []) == acc
  {
  }

  lemma LookSame(a: Object, b: Object, k: Key)
    requires (k in a <==> k in b) && Look(a, k) == Look(b, k)
    ensures k in a ==> a[k] == b[k]
  {
  }

  // ----- printing the result again -----

  /** The rereading of a rule's member prints the same lines. */
  lemma LinesAgree(r: Rule, loc: Object, out: Object)
    requires r != RMedia && RuleOk(r, loc) && NoStray(loc) && NoStray(out)
    requires if LinesOf(r, loc) != [] then Member(r) in out && out[Member(r)] == Reread(r, loc[Member(r)])
             else Member(r) in out ==> IsPush(r) && out[Member(r)] == Arr([])
    ensures LinesOf(r, out) == LinesOf(r, loc)
  {
    hide MakeLine, ElementOk, ScalarOk, Reparsed, Names, Types, Member, IsPush, IsElementRule, IsNested,
      NoStray, ToType;
    if LinesOf(r, loc) != [] {
      var v := loc[Member(r)];
      if IsPush(r) {
        PushRules(r, v);
        forall i | 0 <= i < |v.items|
          ensures MakeLine(r, Reparsed(r, v.items[i], map[])) == MakeLine(r, v.items[i])
        {
          PushAgrees(r, v.items[i]);
        }
      } else if IsElementRule(r) {
        ElementIsNested(r);
        NestedAgrees(r, loc, out);
      } else {
        ScalarAgrees(r, loc, out);
      }
    }
  }

  lemma NestedEmpty(r: Rule, o: Object, n: Key)
    requires IsNested(r) && ElementOk(r, o) && n in Names(r) && TextAt(o, n) == ""
    ensures n in {Ttl, Dir2, List2}
  {
    hide TextAt, Counter, Token1, Token0, CandidateNames;
    match r {
      case ROrigin =>
        TokenShows(o, Username, NonSpace);
        CounterShows(o, SessionId);
        CounterShows(o, SessionVersion);
        TokenShows(o, NetType, NonSpace);
        CounterShows(o, IpVer);
        TokenShows(o, Address, NonSpace);
      case RTiming =>
        CounterShows(o, Start);
        CounterShows(o, Stop);
      case RConnection =>
        CounterShows(o, Version);
        TokenShows(o, Ip, Except("\\S/\r\n"));
      case RFingerprint =>
        TokenShows(o, Type, NonSpace);
        TokenShows(o, Hash, NonSpace);
      case RMsidSemantic =>
        TokenShows(o, Semantic, Word);
        TokenShows(o, Token, NonSpace);
      case RSimulcast =>
        TextShows(o, Dir1);
        TokenShows(o, List1, WordOr(STREAM_CHARS));
      case _ =>
    }
  }

  lemma CounterShows(o: Object, n: Key)
    requires Counter(o, n)
    ensures TextAt(o, n) != ""
  {
    CounterText(o, n);
  }

  lemma TextShows(o: Object, n: Key)
    requires HasStr(o, n) && o[n].s != ""
    ensures TextAt(o, n) != ""
  {
  }

  lemma TokenShows(o: Object, n: Key, cls: Class)
    requires Token1(o, n, cls)
    ensures TextAt(o, n) != ""
  {
  }

  lemma NestedAgrees(r: Rule, loc: Object, out: Object)
    requires IsNested(r) && IsElementRule(r) && RuleOk(r, loc) && NoStray(loc) && NoStray(out) && Member(r) in loc
    requires Member(r) in out && out[Member(r)] == Reread(r, loc[Member(r)])
    ensures MakeLine(r, out) == MakeLine(r, loc)
  {
    hide ElementOk, MakeLine, Reparsed, Format, Content, Texts;
    var o := loc[Member(r)].fields;
    var p := Reparsed(r, o, map[]);
    NestedMakes(r, loc);
    ReparsedPrints(r, o, map[]);
    ReparsedFormat(r, o);
    forall j | 0 <= j < |Names(r)|
      ensures Argument(r, out, Names(r)[j]) == Look(p, Names(r)[j])
    {
      if Names(r)[j] !in p {
        ReparsedFallback(r, o, Names(r)[j]);
      }
    }
    MakeLineContent(r, out, p);
  }

  lemma ReparsedFallback(r: Rule, o: Object, n: Key)
    requires IsNested(r) && ElementOk(r, o) && n in Names(r) && n !in Reparsed(r, o, map[])
    ensures n in {Ttl, Dir2, List2}
  {
    hide ElementOk, Reparsed, Format, Names, Content, ToType;
    var p := Reparsed(r, o, map[]);
    ReparsedPrints(r, o, map[]);
    var j :| 0 <= j < |Names(r)| && Names(r)[j] == n;
    assert Texts(r, o)[j] == Texts(r, p)[j];
    NestedEmpty(r, o, n);
  }

  lemma ScalarAgrees(r: Rule, loc: Object, out: Object)
    requires r != RMedia && Member(r) in loc && ScalarOk(r, loc[Member(r)])
    requires Member(r) in out && out[Member(r)] == Reread(r, loc[Member(r)])
    ensures MakeLine(r, out) == MakeLine(r, loc)
  {
    hide MakeLine, ScalarContent;
    var v := loc[Member(r)];
    ScalarRules(r, v);
    ScalarUnchanged(r, v);
    ScalarMakes(r, loc);
    ScalarMakes(r, out);
  }

  lemma ScalarType(r: Rule)
    requires IsScalarRule(r)
    ensures |Types(r)| >= 1 && Types(r)[0] == if r == RVersion then D else S
  {
  }

  lemma ScalarUnchanged(r: Rule, v: Json)
    requires ScalarOk(r, v)
    ensures |Types(r)| >= 1 && ToType(ArgText(v), Types(r)[0]) == v
  {
    hide ScalarOk, IsScalarRule, Types;
    ScalarKind(r, v);
    ScalarType(r);
    if v.Num? {
      DecimalRoundTrip(v.n);
    }
  }

  lemma PushAgrees(r: Rule, o: Object)
    requires IsPush(r) && ElementOk(r, o)
    ensures MakeLine(r, Reparsed(r, o, map[])) == MakeLine(r, o)
  {
    hide ElementOk, Names, MakeLine, Reparsed, Format, Content, Texts, ReadsBack, IsNested, Member;
    PushMakes(r, o);
    ReparsedPrints(r, o, map[]);
    var p := Reparsed(r, o, map[]);
    ReparsedFormat(r, o);
    PushArguments(r, p);
    MakeLineContent(r, p, p);
  }

  lemma PushArguments(r: Rule, o: Object)
    requires IsPush(r)
    ensures FormatObject(r, o) == o && forall j ::
      0 <= j < |Names(r)| ==> Argument(r, o, Names(r)[j]) == Look(o, Names(r)[j])
  {
    hide Names;
  }

  lemma ElementNamed(r: Rule, o: Object)
    requires ElementOk(r, o)
    ensures Names(r) != []
  {
  }

  lemma ReparsedFormat(r: Rule, o: Object)
    requires ElementOk(r, o)
    ensures Names(r) != [] && |Format(r, Reparsed(r, o, map[]))| <= |Names(r)|
  {
    hide ElementOk, Reparsed, Names, Format, Content, Captures, Dispatch;
    ElementReads(r, o);
    ElementNamed(r, o);
    ReparsedPrints(r, o, map[]);
    var p := Reparsed(r, o, map[]);
    forall j | 0 <= j < |Names(r)|
      ensures TextAt(o, Names(r)[j]) == TextAt(p, Names(r)[j])
    {
      assert Texts(r, o)[j] == Texts(r, p)[j];
    }
    FormatByTexts(r, o, p);
  }
}
