/** sdptransform::write and sdptransform::parse over the rule table. */
module SdpText {
  import opened Text
  import opened Json
  import opened Regex
  import opened Patterns
  import opened Grammar

  // ----- write -----

  function FieldsOf(v: Json): Object {
    if v.Obj? then v.fields else map[]
  }

  function ItemsOf(v: Json): seq<Object> {
    if v.Arr? then v.items else []
  }

  function Look(o: Object, n: Key): Json {
    if n in o then o[n] else Str("")
  }

  /** The argument for one name: from the rule's own object, else from the location itself. */
  function Argument(r: Rule, loc: Object, n: Key): Json {
    if IsNested(r) && Member(r) in loc && n in FieldsOf(loc[Member(r)]) then FieldsOf(loc[Member(r)])[n]
    else Look(loc, n)
  }

  function Arguments(r: Rule, loc: Object): seq<Json> {
    if Names(r) != [] then seq(|Names(r)|, i requires 0 <= i < |Names(r)| => Argument(r, loc, Names(r)[i]))
    else if r != RMedia && Member(r) in loc then [loc[Member(r)]]
    else []
  }

  /** The object a rule's format function looks at. */
  function FormatObject(r: Rule, loc: Object): Object {
    if r == RMedia || IsPush(r) then loc else FieldsOf(Look(loc, Member(r)))
  }

  /** The text of the directives from `i` on; a directive without an argument is copied. */
  function Expand(format: seq<Piece>, args: seq<Json>, i: nat): string
    requires i <= |format|
    decreases |format| - i
  {
    if i == |format| then ""
    else if i >= |args| then ['%', format[i].directive] + Expand(format, args, i + 1)
    else if format[i].directive == 'v' then format[i].prefix + Expand(format, args, i + 1)
    else format[i].prefix + (ArgText(args[i]) + Expand(format, args, i + 1))
  }

  datatype Line = Line(letter: char, content: string)

  function MakeLine(r: Rule, loc: Object): Line {
    Line(Letter(r), Expand(Format(r, FormatObject(r, loc)), Arguments(r, loc), 0))
  }

  function ItemLines(r: Rule, items: seq<Object>): (lines: seq<Line>)
    ensures |lines| == |items|
  {
    seq(|items|, i requires 0 <= i < |items| => MakeLine(r, items[i]))
  }

  /** What one rule prints for a location: its named member, or every entry of its array. */
  function LinesOf(r: Rule, loc: Object): seq<Line> {
    if r == RMedia || Member(r) !in loc then []
    else if IsPush(r) then ItemLines(r, ItemsOf(loc[Member(r)]))
    else [MakeLine(r, loc)]
  }

  function ObjectLines(rules: seq<Rule>, loc: Object): seq<Line> {
    if rules == [] then [] else ObjectLines(rules[..|rules| - 1], loc) + LinesOf(rules[|rules| - 1], loc)
  }

  const OUTER_LETTERS := "vosiuepcbtrza"
  const INNER_LETTERS := "icba"

  /** The rules of a session in printing order: the letters of the RFC order, rule by rule. */
  function OuterRules(): seq<Rule> {
    [RVersion, ROrigin, RName, RDescription, RUri, REmail, RPhone, RConnection, RBandwidth, RTiming,
      RRepeats, RTimeZones] + ARules()
  }

  function InnerRules(): seq<Rule> {
    [RDescription, RConnection, RBandwidth] + ARules()
  }

  function SectionLines(m: Object): seq<Line> {
    [MakeLine(RMedia, m)] + ObjectLines(InnerRules(), m)
  }

  function MediaLines(media: seq<Object>): seq<Line> {
    if media == [] then [] else MediaLines(media[..|media| - 1]) + SectionLines(media[|media| - 1])
  }

  function MediaOf(session: Object): seq<Object> {
    ItemsOf(Look(session, Media))
  }

  function SessionLines(session: Object): seq<Line> {
    ObjectLines(OuterRules(), session) + MediaLines(MediaOf(session))
  }

  function WithPayloads(m: Object): Object {
    if Payloads in m then m else m[Payloads := Str("")]
  }

  function AllWithPayloads(media: seq<Object>): seq<Object> {
    seq(|media|, i requires 0 <= i < |media| => WithPayloads(media[i]))
  }

  /** The members `write` adds to the session it is given. */
  function FillDefaults(session: Object): Object {
    var s1 := if Version in session then session else session[Version := Num(0)];
    var s2 := if Name in s1 then s1 else s1[Name := Str("-")];
    s2[Media := Arr(AllWithPayloads(MediaOf(s2)))]
  }

  function LineText(line: Line): string {
    [line.letter, '='] + (line.content + "\r\n")
  }

  function Render(lines: seq<Line>): string {
    if lines == [] then "" else Render(lines[..|lines| - 1]) + LineText(lines[|lines| - 1])
  }

  /** sdptransform::write. */
  function WriteText(session: Object): string {
    Render(SessionLines(FillDefaults(session)))
  }

  // ----- parse -----

  /** The value of a captured text; a number that does not fit its type reads as 0. */
  function ToType(text: string, t: ValueType): Json {
    match t
    case S => Str(text)
    case D =>
      var n := WholeInteger(text);
      Num(if n.Some? && -TWO_63 <= n.value < TWO_63 then n.value else 0)
    case U =>
      var n := WholeInteger(text);
      Num(if n.Some? && 0 <= n.value < TWO_64 then n.value else 0)
  }

  /** Non-empty captures become members, in the order of the rule's names. */
  function AttachNames(names: seq<Key>, types: seq<ValueType>, caps: seq<string>, loc: Object, i: nat): Object
    requires i <= |names| <= |types|
    decreases |names| - i
  {
    if i == |names| then loc
    else if i < |caps| && caps[i] != "" then
      AttachNames(names, types, caps, loc[names[i] := ToType(caps[i], types[i])], i + 1)
    else AttachNames(names, types, caps, loc, i + 1)
  }

  lemma TypesCoverNames(r: Rule)
    ensures |Names(r)| <= |Types(r)| && |Types(r)| >= 1
  {
  }

  function Attach(r: Rule, caps: seq<string>, loc: Object): Object {
    TypesCoverNames(r);
    if Names(r) == [] && r != RMedia then
      loc[Member(r) := ToType(if caps == [] then "" else caps[0], Types(r)[0])]
    else AttachNames(Names(r), Types(r), caps, loc, 0)
  }

  /** parseReg: the captures of a matching line become part of the location. */
  function ParseReg(r: Rule, loc: Object, caps: seq<string>): Object {
    if r == RMedia then Attach(r, caps, loc)
    else if IsPush(r) then
      loc[Member(r) := Arr(ItemsOf(Look(loc, Member(r))) + [Attach(r, caps, map[])])]
    else if IsNested(r) then
      loc[Member(r) := Obj(Attach(r, caps, FieldsOf(Look(loc, Member(r)))))]
    else Attach(r, caps, loc)
  }

  /** One line for a location: the first matching rule takes it, else it is dropped. */
  function FeedLine(loc: Object, line: Line): Object {
    match Dispatch(line.letter, line.content)
    case None => loc
    case Some(r) =>
      var caps := Captures(r, line.content);
      if caps.Some? then ParseReg(r, loc, caps.value) else loc
  }

  datatype ParseState = ParseState(session: Object, media: seq<Object>)

  function NewSection(): Object {
    map[Rtp := Arr([]), Fmtp := Arr([])]
  }

  /** A line goes to the latest m-section, or to the session before the first one. */
  function ParseLine(st: ParseState, line: Line): ParseState {
    var media := if line.letter == 'm' then st.media + [NewSection()] else st.media;
    if media == [] then ParseState(FeedLine(st.session, line), [])
    else st.(media := media[|media| - 1 := FeedLine(media[|media| - 1], line)])
  }

  function ParseLines(st: ParseState, lines: seq<Line>): ParseState {
    if lines == [] then st else ParseLine(ParseLines(st, lines[..|lines| - 1]), lines[|lines| - 1])
  }

  /** The raw line without the `\r` of its line end. */
  function Chomp(raw: string): string {
    if raw != "" && raw[|raw| - 1] == '\r' then raw[..|raw| - 1] else raw
  }

  predicate IsValidLine(raw: string) {
    |raw| >= 2 && 'a' <= raw[0] <= 'z' && raw[1] == '='
  }

  function ReadLines(raws: seq<string>): seq<Line> {
    if raws == [] then []
    else
      var raw := Chomp(raws[|raws| - 1]);
      ReadLines(raws[..|raws| - 1]) + (if IsValidLine(raw) then [Line(raw[0], raw[2..])] else [])
  }

  const EMPTY_STATE := ParseState(map[], [])

  /** sdptransform::parse. */
  function ParseText(sdp: string): Object {
    var st := ParseLines(EMPTY_STATE, ReadLines(Split(sdp, '\n')));
    st.session[Media := Arr(st.media)]
  }
}
