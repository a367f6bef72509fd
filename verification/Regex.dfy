/** The fragment of ECMAScript regular expressions the SDP grammar uses, with its greedy,
    backtracking semantics. A pattern ends in its own continuation, so that an optional group
    is an alternative between "the group, then the rest" and "its captures unset, then the rest". */
module Regex {
  import opened Text

  datatype Class =
    | Digit        // \d
    | Word         // \w
    | NonSpace     // \S
    | Space        // \s
    | Any          // .
    | Except(out: string)
    | WordOr(extra: string)
    | OneOf(chars: string)

  predicate IsWord(c: char) {
    'a' <= c <= 'z' || 'A' <= c <= 'Z' || '0' <= c <= '9' || c == '_'
  }

  predicate In(c: char, cls: Class) {
    match cls
    case Digit => IsDigit(c)
    case Word => IsWord(c)
    case NonSpace => !IsSpace(c)
    case Space => IsSpace(c)
    case Any => c != '\n' && c != '\r'
    case Except(out) => c !in out
    case WordOr(extra) => IsWord(c) || c in extra
    case OneOf(chars) => c in chars
  }

  predicate AllIn(s: string, cls: Class) {
    forall i :: 0 <= i < |s| ==> In(s[i], cls)
  }

  datatype Pat =
    | Done                                  // the match may stop here
    | End                                   // $
    | Lit(text: string, rest: Pat)
    | Word_(word: string, rest: Pat)        // a captured literal
    | One(one: Class, rest: Pat)            // one captured character
    | Cap(cls: Class, min: nat, rest: Pat)  // a captured run
    | Run(cls: Class, min: nat, rest: Pat)  // a run outside any capture
    | Skip(one: Class, rest: Pat)           // one character outside any capture
    | Alt(first: Pat, second: Pat)
    | Unset(count: nat, rest: Pat)          // captures of a group that took no part

  /** Length of the longest run of `cls` at the start of `s`. */
  function RunLength(s: string, cls: Class): (n: nat)
    ensures n <= |s|
  {
    if s != "" && In(s[0], cls) then 1 + RunLength(s[1..], cls) else 0
  }

  /** The captures of a match that starts at the beginning of `s`. */
  function Match(p: Pat, s: string): Option<seq<string>>
    decreases p, 0
  {
    match p
    case Done => Some([])
    case End => if s == "" then Some([]) else None
    case Lit(text, rest) => if text <= s then Match(rest, s[|text|..]) else None
    case Word_(word, rest) => if word <= s then Prepend(word, Match(rest, s[|word|..])) else None
    case One(cls, rest) => if s != "" && In(s[0], cls) then Prepend([s[0]], Match(rest, s[1..])) else None
    case Skip(cls, rest) => if s != "" && In(s[0], cls) then Match(rest, s[1..]) else None
    case Cap(cls, min, rest) => Longest(rest, min, s, RunLength(s, cls), true)
    case Run(cls, min, rest) => Longest(rest, min, s, RunLength(s, cls), false)
    case Alt(a, b) => var m := Match(a, s); if m.Some? then m else Match(b, s)
    case Unset(count, rest) => Blanks(count, Match(rest, s))
  }

  function Prepend(t: string, m: Option<seq<string>>): Option<seq<string>> {
    if m.Some? then Some([t] + m.value) else None
  }

  function Blanks(count: nat, m: Option<seq<string>>): Option<seq<string>> {
    if m.Some? then Some(Blank(count) + m.value) else None
  }

  /** The captures of a group that took no part. */
  function Blank(count: nat): (b: seq<string>)
    ensures |b| == count && forall i :: 0 <= i < count ==> b[i] == ""
  {
    seq(count, _ => "")
  }

  /** A greedy run of `n` characters, given back one by one until the rest matches. */
  function Longest(rest: Pat, min: nat, s: string, n: nat, capture: bool): Option<seq<string>>
    requires n <= |s|
    decreases rest, 1 + n
  {
    if n < min then None
    else
      var m := Match(rest, s[n..]);
      if m.Some? then (if capture then Prepend(s[..n], m) else m)
      else if n == 0 then None
      else Longest(rest, min, s, n - 1, capture)
  }

  /** std::regex_search with a `^` in front of the pattern. */
  predicate Matches(p: Pat, s: string) {
    Match(p, s).Some?
  }

  /** std::regex_search without an anchor: the leftmost position that matches. */
  function Search(p: Pat, s: string): Option<seq<string>>
    decreases |s|
  {
    var m := Match(p, s);
    if m.Some? then m else if s == "" then None else Search(p, s[1..])
  }

  // ----- how a printed token is read back -----

  lemma {:induction false} RunLengthOf(tok: string, rest: string, cls: Class)
    requires AllIn(tok, cls)
    requires rest == "" || !In(rest[0], cls)
    ensures RunLength(tok + rest, cls) == |tok|
  {
    if tok == "" {
      assert tok + rest == rest;
    } else {
      assert (tok + rest)[1..] == tok[1..] + rest;
      RunLengthOf(tok[1..], rest, cls);
    }
  }

  lemma LitStep(text: string, k: Pat, s: string)
    ensures Match(Lit(text, k), text + s) == Match(k, s)
  {
    assert (text + s)[|text|..] == s;
  }

  lemma WordStep(word: string, k: Pat, s: string)
    ensures Match(Word_(word, k), word + s) == Prepend(word, Match(k, s))
  {
    assert (word + s)[|word|..] == s;
  }

  /** A token is captured whole when what follows cannot belong to it. */
  lemma CapStep(cls: Class, min: nat, k: Pat, tok: string, s: string)
    requires AllIn(tok, cls) && min <= |tok|
    requires s == "" || !In(s[0], cls)
    requires Match(k, s).Some?
    ensures Match(Cap(cls, min, k), tok + s) == Some([tok] + Match(k, s).value)
  {
    RunLengthOf(tok, s, cls);
    assert (tok + s)[|tok|..] == s && (tok + s)[..|tok|] == tok;
  }

  /** The last token of a line. */
  lemma CapLast(cls: Class, min: nat, k: Pat, tok: string)
    requires AllIn(tok, cls) && min <= |tok|
    requires Match(k, "").Some?
    ensures Match(Cap(cls, min, k), tok) == Some([tok] + Match(k, "").value)
  {
    CapStep(cls, min, k, tok, "");
    assert tok + "" == tok;
  }

  lemma RunSkip(cls: Class, k: Pat, s: string)
    requires s == "" || !In(s[0], cls)
    ensures Match(Run(cls, 0, k), s) == Match(k, s)
  {
    assert RunLength(s, cls) == 0 && s[0..] == s;
  }
}
