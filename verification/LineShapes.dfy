/** Pattern by pattern: what a print format writes for a list of texts, the regular expression
    of the same rule reads back as that list, for every choice of texts from its classes. */
module LineShapes {
  import opened Text
  import opened Regex
  import opened Patterns

  /** A print format filled in with texts, from piece `i` on. */
  function Fill(format: seq<Piece>, texts: seq<string>, i: nat): string
    requires i <= |format| <= |texts|
    decreases |format| - i
  {
    if i == |format| then ""
    else if format[i].directive == 'v' then format[i].prefix + Fill(format, texts, i + 1)
    else format[i].prefix + (texts[i] + Fill(format, texts, i + 1))
  }

  // ----- reading back what a format printed -----

  /** The pattern captures exactly the texts printed from piece `i` on. */
  predicate Reads(p: Pat, f: seq<Piece>, t: seq<string>, i: nat)
    requires i <= |f| <= |t|
  {
    Match(p, Fill(f, t, i)) == Some(t[i..])
  }

  /** What is printed from piece `i` on cannot prolong a token of the class. */
  predicate Delimited(f: seq<Piece>, t: seq<string>, i: nat, cls: Class)
    requires i <= |f| <= |t|
  {
    Fill(f, t, i) == "" || !In(Fill(f, t, i)[0], cls)
  }

  lemma ReadsCap(cls: Class, min: nat, k: Pat, f: seq<Piece>, t: seq<string>, i: nat)
    requires i < |f| <= |t| && f[i].prefix == "" && f[i].directive != 'v'
    requires AllIn(t[i], cls) && min <= |t[i]|
    requires Delimited(f, t, i + 1, cls) && Reads(k, f, t, i + 1)
    ensures Reads(Cap(cls, min, k), f, t, i)
  {
    hide Match, RunLength;
    CapStep(cls, min, k, t[i], Fill(f, t, i + 1));
    assert Fill(f, t, i) == t[i] + Fill(f, t, i + 1);
    assert [t[i]] + t[i + 1..] == t[i..];
  }

  /** `text`, then a token captured whole, then whatever the rest reads. */
  lemma ReadsTok(text: string, cls: Class, min: nat, k: Pat, f: seq<Piece>, t: seq<string>, i: nat)
    requires i < |f| <= |t| && f[i].prefix == text && f[i].directive != 'v'
    requires AllIn(t[i], cls) && min <= |t[i]|
    requires Delimited(f, t, i + 1, cls) && Reads(k, f, t, i + 1)
    ensures Reads(Lit(text, Cap(cls, min, k)), f, t, i)
    ensures Fill(f, t, i) == text + (t[i] + Fill(f, t, i + 1))
  {
    hide Match, RunLength;
    LitStep(text, Cap(cls, min, k), t[i] + Fill(f, t, i + 1));
    CapStep(cls, min, k, t[i], Fill(f, t, i + 1));
    assert [t[i]] + t[i + 1..] == t[i..];
  }

  /** `text`, then one digit. */
  lemma ReadsDigit(text: string, k: Pat, f: seq<Piece>, t: seq<string>, i: nat)
    requires i < |f| <= |t| && f[i].prefix == text && f[i].directive != 'v'
    requires |t[i]| == 1 && IsDigit(t[i][0])
    requires Reads(k, f, t, i + 1)
    ensures Reads(Lit(text, One(Digit, k)), f, t, i)
    ensures Fill(f, t, i) == text + (t[i] + Fill(f, t, i + 1))
  {
    var s := t[i] + Fill(f, t, i + 1);
    LitStep(text, One(Digit, k), s);
    assert s[1..] == Fill(f, t, i + 1) && [s[0]] == t[i];
    assert [t[i]] + t[i + 1..] == t[i..];
  }

  lemma ReadsDone(f: seq<Piece>, t: seq<string>)
    requires |f| == |t|
    ensures Reads(Done, f, t, |f|) && Reads(End, f, t, |f|)
  {
    assert t[|f|..] == [];
  }

  /** Names behind the last printed piece: their group takes no part. */
  lemma ReadsNothing(group: Pat, count: nat, k: Pat, f: seq<Piece>, t: seq<string>)
    requires |f| + count == |t| && forall j :: |f| <= j < |t| ==> t[j] == ""
    requires Match(group, "").None? && k in {Done, End}
    ensures Reads(Alt(group, Unset(count, k)), f, t, |f|)
    ensures Fill(f, t, |f|) == ""
  {
    NothingCaptured(count, k);
    BlankTail(t, |f|);
  }

  lemma NothingCaptured(count: nat, k: Pat)
    requires k in {Done, End}
    ensures Match(Unset(count, k), "") == Some(Blank(count))
  {
    assert Match(k, "") == Some([]);
    assert Blank(count) + [] == Blank(count);
  }

  lemma BlankTail(t: seq<string>, n: nat)
    requires n <= |t| && forall j :: n <= j < |t| ==> t[j] == ""
    ensures t[n..] == Blank(|t| - n)
  {
  }

  lemma NothingToRead(text: string, k: Pat)
    requires text != ""
    ensures Match(Lit(text, k), "").None? && Match(Run(Space, 0, Lit(text, k)), "").None?
  {
  }

  /** A literal that differs in its `i`-th character does not match. */
  lemma LitFails(text: string, k: Pat, s: string, i: nat)
    requires i < |text| && (i < |s| ==> s[i] != text[i])
    ensures Match(Lit(text, k), s).None?
  {
  }

  /** A skipped piece: its group takes no part. */
  lemma ReadsVoid(group: Pat, k: Pat, f: seq<Piece>, t: seq<string>, i: nat)
    requires i < |f| <= |t| && f[i] == Piece("", 'v') && t[i] == ""
    requires Match(group, Fill(f, t, i + 1)).None?
    requires Reads(k, f, t, i + 1)
    ensures Reads(Alt(group, Unset(1, k)), f, t, i)
    ensures Fill(f, t, i) == Fill(f, t, i + 1)
  {
    assert Fill(f, t, i) == Fill(f, t, i + 1);
    assert Blank(1) + t[i + 1..] == t[i..];
  }

  lemma ReadsFirst(a: Pat, b: Pat, f: seq<Piece>, t: seq<string>, i: nat)
    requires i <= |f| <= |t| && Reads(a, f, t, i)
    ensures Reads(Alt(a, b), f, t, i)
  {
  }

  /** A blank run in front of a separator is empty. */
  lemma ReadsUnspaced(k: Pat, f: seq<Piece>, t: seq<string>, i: nat)
    requires i <= |f| <= |t| && Reads(k, f, t, i) && Delimited(f, t, i, Space)
    ensures Reads(Run(Space, 0, k), f, t, i)
  {
    RunSkip(Space, k, Fill(f, t, i));
  }

  // ----- the rules -----

  lemma OriginShape(f: seq<Piece>, t: seq<string>)
    requires |t| == 6 && AllIn(t[0], NonSpace) && AllIn(t[1], Digit) && AllIn(t[2], Digit)
    requires AllIn(t[3], NonSpace) && |t[4]| == 1 && IsDigit(t[4][0]) && AllIn(t[5], NonSpace)
    requires f == [Piece("", 's'), Piece(" ", 'd'), Piece(" ", 'd'), Piece(" ", 's'), Piece(" IP", 'd'),
      Piece(" ", 's')]
    ensures Reads(OriginPattern(), f, t, 0)
  {
    hide Match;
    var k5 := Lit(" ", Cap(NonSpace, 0, Done));
    var k4 := Lit(" IP", One(Digit, k5));
    var k3 := Lit(" ", Cap(NonSpace, 0, k4));
    var k2 := Lit(" ", Cap(Digit, 0, k3));
    ReadsDone(f, t);
    ReadsTok(" ", NonSpace, 0, Done, f, t, 5);
    ReadsDigit(" IP", k5, f, t, 4);
    ReadsTok(" ", NonSpace, 0, k4, f, t, 3);
    ReadsTok(" ", Digit, 0, k3, f, t, 2);
    ReadsTok(" ", Digit, 0, k2, f, t, 1);
    ReadsCap(NonSpace, 0, Lit(" ", Cap(Digit, 0, k2)), f, t, 0);
  }

  lemma TimingShape(f: seq<Piece>, t: seq<string>)
    requires |t| == 2 && AllIn(t[0], Digit) && AllIn(t[1], Digit)
    requires f == [Piece("", 'd'), Piece(" ", 'd')]
    ensures Reads(TimingPattern(), f, t, 0)
  {
    hide Match;
    ReadsDone(f, t);
    ReadsTok(" ", Digit, 0, Done, f, t, 1);
    ReadsCap(Digit, 0, Lit(" ", Cap(Digit, 0, Done)), f, t, 0);
  }

  lemma ConnectionShape(f: seq<Piece>, t: seq<string>)
    requires |t| == 3 && |t[0]| == 1 && IsDigit(t[0][0]) && AllIn(t[1], Except("\\S/")) && t[2] == ""
    requires f == [Piece("IN IP", 'd'), Piece(" ", 's')]
    ensures Reads(ConnectionPattern(), f, t, 0)
  {
    hide Match;
    var k2 := OptionalTail("/", Digit);
    NothingToRead("/", Cap(Digit, 0, Done));
    ReadsNothing(Lit("/", Cap(Digit, 0, Done)), 1, Done, f, t);
    ReadsTok(" ", Except("\\S/"), 0, k2, f, t, 1);
    ReadsDigit("IN IP", Lit(" ", Cap(Except("\\S/"), 0, k2)), f, t, 0);
  }

  lemma MediaShape(f: seq<Piece>, t: seq<string>)
    requires |t| == 5 && AllIn(t[0], Word) && AllIn(t[1], Digit) && t[2] == ""
    requires AllIn(t[3], WordOr("/")) && AllIn(t[4], Any)
    requires f == [Piece("", 's'), Piece(" ", 'd'), Piece("", 'v'), Piece(" ", 's'), Piece(" ", 's')]
    ensures Reads(MediaPattern(), f, t, 0)
  {
    hide Match;
    var k4 := OptionalTail(" ", Any);
    ReadsDone(f, t);
    ReadsTok(" ", Any, 0, Done, f, t, 4);
    ReadsFirst(Lit(" ", Cap(Any, 0, Done)), Unset(1, Done), f, t, 4);
    ReadsTok(" ", WordOr("/"), 0, k4, f, t, 3);
    LitFails("/", Cap(Digit, 0, MediaTail()), Fill(f, t, 3), 0);
    ReadsVoid(Lit("/", Cap(Digit, 0, MediaTail())), MediaTail(), f, t, 2);
    var k2 := Alt(Lit("/", Cap(Digit, 0, MediaTail())), Unset(1, MediaTail()));
    ReadsTok(" ", Digit, 0, k2, f, t, 1);
    ReadsCap(Word, 0, Lit(" ", Cap(Digit, 0, k2)), f, t, 0);
  }

  lemma RtpShape(f: seq<Piece>, t: seq<string>)
    requires |t| == 4 && AllIn(t[0], Digit) && AllIn(t[1], WordOr("-.")) && AllIn(t[2], Digit) && AllIn(t[3], NonSpace)
    requires 3 <= |f| <= 4 && f[0] == Piece("rtpmap:", 'd') && f[1] == Piece(" ", 's') && f[2] == Piece("/", 's')
    requires if |f| == 4 then f[3] == Piece("/", 's') else t[3] == ""
    ensures Reads(Lit("rtpmap:", RtpRest()), f, t, 0)
  {
    hide Match;
    var encoding := Lit("/", Cap(NonSpace, 0, Done));
    if |f| == 4 {
      ReadsDone(f, t);
      ReadsTok("/", NonSpace, 0, Done, f, t, 3);
      ReadsUnspaced(encoding, f, t, 3);
      ReadsFirst(Run(Space, 0, encoding), Unset(1, Done), f, t, 3);
    } else {
      NothingToRead("/", Cap(NonSpace, 0, Done));
      ReadsNothing(Run(Space, 0, encoding), 1, Done, f, t);
    }
    ReadsTok("/", Digit, 0, EncodingTail(), f, t, 2);
    ReadsUnspaced(Lit("/", Cap(Digit, 0, EncodingTail())), f, t, 2);
    ReadsFirst(Run(Space, 0, Lit("/", Cap(Digit, 0, EncodingTail()))), Unset(2, Done), f, t, 2);
    ReadsTok(" ", WordOr("-."), 0, RtpTail(), f, t, 1);
    ReadsTok("rtpmap:", Digit, 0, Lit(" ", Cap(WordOr("-."), 0, RtpTail())), f, t, 0);
  }

  /** Two tokens behind a head: fmtp, ssrc-group, group, fingerprint. */
  lemma PairShape(head: string, c0: Class, c1: Class, f: seq<Piece>, t: seq<string>)
    requires |t| == 2 && AllIn(t[0], c0) && AllIn(t[1], c1) && !In(' ', c0)
    requires |f| == 2 && f[0].prefix == head && f[0].directive != 'v' && f[1] == Piece(" ", 's')
    ensures Reads(Lit(head, Cap(c0, 0, Lit(" ", Cap(c1, 0, Done)))), f, t, 0)
  {
    hide Match;
    ReadsDone(f, t);
    ReadsTok(" ", c1, 0, Done, f, t, 1);
    ReadsTok(head, c0, 0, Lit(" ", Cap(c1, 0, Done)), f, t, 0);
  }

  /** The last of three tokens, printed or empty. */
  lemma OptionalEnd(separator: OneLine, c2: Class, f: seq<Piece>, t: seq<string>)
    requires |t| == 3 && AllIn(t[2], c2) && separator != "" && 2 <= |f| <= 3
    requires if |f| == 3 then f[2] == Piece(separator, 's') else t[2] == ""
    ensures Reads(OptionalTail(separator, c2), f, t, 2)
    ensures Fill(f, t, 2) == if |f| == 3 then separator + t[2] else ""
  {
    hide Match, AllIn, In;
    if |f| == 3 {
      ReadsDone(f, t);
      assert Fill(f, t, 3) == "" && t[2] + "" == t[2];
      ReadsTok(separator, c2, 0, Done, f, t, 2);
      ReadsFirst(Lit(separator, Cap(c2, 0, Done)), Unset(1, Done), f, t, 2);
    } else {
      NothingToRead(separator, Cap(c2, 0, Done));
      ReadsNothing(Lit(separator, Cap(c2, 0, Done)), 1, Done, f, t);
    }
  }

  /** Two tokens and an optional third that is either printed or empty: rtcp-fb, ssrc, rid. */
  lemma TripleShape(head: string, c0: Class, min: nat, c1: Class, separator: OneLine, c2: Class, f: seq<Piece>,
      t: seq<string>)
    requires |t| == 3 && AllIn(t[0], c0) && AllIn(t[1], c1) && AllIn(t[2], c2)
    requires min <= |t[0]| && min <= |t[1]|
    requires !In(' ', c0) && separator != "" && !In(separator[0], c1)
    requires 2 <= |f| <= 3 && f[0].prefix == head && f[0].directive != 'v' && f[1] == Piece(" ", 's')
    requires if |f| == 3 then f[2] == Piece(separator, 's') else t[2] == ""
    ensures Reads(Lit(head, Cap(c0, min, Lit(" ", Cap(c1, min, OptionalTail(separator, c2))))), f, t, 0)
    ensures Fill(f, t, 0) == head + (t[0] + Fill(f, t, 1)) && Fill(f, t, 1) == " " + (t[1] + Fill(f, t, 2))
    ensures Fill(f, t, 2) == if |f| == 3 then separator + t[2] else ""
  {
    hide Match, AllIn, In, OptionalTail, Fill, Reads;
    OptionalEnd(separator, c2, f, t);
    ReadsTok(" ", c1, min, OptionalTail(separator, c2), f, t, 1);
    ReadsTok(head, c0, min, Lit(" ", Cap(c1, min, OptionalTail(separator, c2))), f, t, 0);
  }

  lemma EncryptFails(uri: string)
    requires AllIn(uri, NonSpace)
    ensures Match(Lit(" ", Word_(ENCRYPT_URI, ExtUri())), " " + uri).None?
  {
    LitStep(" ", Word_(ENCRYPT_URI, ExtUri()), uri);
    if ENCRYPT_URI <= uri {
      LitFails(" ", Cap(NonSpace, 0, OptionalTail(" ", NonSpace)), uri[|ENCRYPT_URI|..], 0);
    }
  }

  lemma ExtShape(f: seq<Piece>, t: seq<string>)
    requires |t| == 5 && AllIn(t[0], Digit) && t[0] != "" && t[1] == t[2] == t[4] == "" && AllIn(t[3], NonSpace)
    requires f == [Piece("extmap:", 'd'), Piece("", 'v'), Piece("", 'v'), Piece(" ", 's')]
    ensures Reads(Lit("extmap:", ExtRest()), f, t, 0)
  {
    hide Match;
    var config := Lit(" ", Cap(NonSpace, 0, Done));
    NothingToRead(" ", Cap(NonSpace, 0, Done));
    ReadsNothing(config, 1, Done, f, t);
    ReadsTok(" ", NonSpace, 0, OptionalTail(" ", NonSpace), f, t, 3);
    EncryptFails(t[3]);
    assert t[3] + "" == t[3];
    ReadsVoid(Lit(" ", Word_(ENCRYPT_URI, ExtUri())), ExtUri(), f, t, 2);
    LitFails("/", Cap(Word, 1, ExtEncrypt()), Fill(f, t, 2), 0);
    ReadsVoid(Lit("/", Cap(Word, 1, ExtEncrypt())), ExtEncrypt(), f, t, 1);
    ReadsTok("extmap:", Digit, 1, Alt(Lit("/", Cap(Word, 1, ExtEncrypt())), Unset(1, ExtEncrypt())), f, t, 0);
  }

  lemma StarStep(text: string, k: Pat, tok: string, s: string)
    requires tok != "" && AllIn(tok, Digit)
    ensures Match(Lit(text, StarOrDigits(k)), text + (tok + s)) == Match(Lit(text, Cap(Digit, 0, k)), text + (tok + s))
  {
    LitStep(text, StarOrDigits(k), tok + s);
    LitStep(text, Cap(Digit, 0, k), tok + s);
    assert !("*" <= tok + s) by {
      assert (tok + s)[0] == tok[0];
    }
  }

  lemma FeedbackShape(f: seq<Piece>, t: seq<string>)
    requires |t| == 3 && AllIn(t[0], Digit) && t[0] != "" && AllIn(t[1], WordOr("-")) && AllIn(t[2], WordOr("-"))
    requires 2 <= |f| <= 3 && f[0] == Piece("rtcp-fb:", 's') && f[1] == Piece(" ", 's')
    requires if |f| == 3 then f[2] == Piece(" ", 's') else t[2] == ""
    ensures Reads(Lit("rtcp-fb:", RtcpFbRest()), f, t, 0)
    ensures Fill(f, t, 0) == "rtcp-fb:" + (t[0] + (" " + (t[1] + (if |f| == 3 then " " + t[2] else ""))))
  {
    hide Match;
    TripleShape("rtcp-fb:", Digit, 0, WordOr("-"), " ", WordOr("-"), f, t);
    StarStep("rtcp-fb:", FeedbackTail(), t[0], Fill(f, t, 1));
  }

  /** A run and a literal that cannot start inside it: no way of giving characters back helps. */
  lemma {:induction false} LongestFails(text: string, k: Pat, s: string, n: nat, cls: Class)
    requires n <= |s| && text != "" && !In(text[0], cls)
    requires forall i :: 0 <= i < n ==> In(s[i], cls)
    requires Match(Lit(text, k), s[n..]).None?
    ensures Longest(Lit(text, k), 0, s, n, true).None?
  {
    if n > 0 {
      LitFails(text, k, s[n - 1..], 0);
      LongestFails(text, k, s, n - 1, cls);
    }
  }

  lemma CapFails(cls: Class, text: string, k: Pat, tok: string, s: string)
    requires AllIn(tok, cls) && (s == "" || !In(s[0], cls))
    requires text != "" && !In(text[0], cls)
    requires Match(Lit(text, k), s).None?
    ensures Match(Cap(cls, 0, Lit(text, k)), tok + s).None?
  {
    RunLengthOf(tok, s, cls);
    assert (tok + s)[|tok|..] == s;
    LongestFails(text, k, tok + s, |tok|, cls);
  }

  lemma TrrIntHeadFails(kind: string, tail: string, k: Pat)
    requires AllIn(kind, WordOr("-")) && kind != "trr-int"
    requires tail != "" ==> tail[0] == ' '
    ensures Match(Lit(" trr-int ", k), " " + (kind + tail)).None?
  {
    var text, s, n := " trr-int ", " " + (kind + tail), |kind|;
    assert forall i :: 0 <= i < n ==> s[i + 1] == kind[i];
    if n < 7 {
      assert text == [' ', 't', 'r', 'r', '-', 'i', 'n', 't', ' '];
      LitFails(text, k, s, n + 1);
    } else if n > 7 {
      assert In(kind[7], WordOr("-")) && s[8] == kind[7];
      LitFails(text, k, s, 8);
    } else {
      var i :| 0 <= i < 7 && kind[i] != "trr-int"[i];
      assert "trr-int"[i] == text[i + 1];
      LitFails(text, k, s, i + 1);
    }
  }

  /** Only the type `trr-int` with a number behind it belongs to the rule for it. */
  lemma TrrIntFails(payload: string, kind: string, tail: string)
    requires payload != "" && AllIn(payload, Digit) && AllIn(kind, WordOr("-")) && kind != "trr-int"
    requires tail != "" ==> tail[0] == ' '
    ensures Match(Lit("rtcp-fb:", RtcpFbTrrIntRest()), "rtcp-fb:" + (payload + (" " + (kind + tail)))).None?
  {
    var k := Cap(Digit, 0, Done);
    var text, s := " trr-int ", " " + (kind + tail);
    StarStep("rtcp-fb:", Lit(text, k), payload, s);
    LitStep("rtcp-fb:", Cap(Digit, 0, Lit(text, k)), payload + s);
    TrrIntHeadFails(kind, tail, k);
    CapFails(Digit, text, k, payload, s);
  }

  lemma BlankPair(t: seq<string>, i: nat)
    requires i + 1 < |t| && t[i] == t[i + 1] == ""
    ensures Blank(2) + t[i + 2..] == t[i..]
  {
  }

  /** Two skipped pieces of one group. */
  lemma ReadsVoidPair(group: Pat, k: Pat, f: seq<Piece>, t: seq<string>, i: nat)
    requires i + 1 < |f| <= |t| && f[i] == f[i + 1] == Piece("", 'v') && t[i] == t[i + 1] == ""
    requires Match(group, Fill(f, t, i + 2)).None?
    requires Reads(k, f, t, i + 2)
    ensures Reads(Alt(group, Unset(2, k)), f, t, i)
    ensures Fill(f, t, i) == Fill(f, t, i + 2)
  {
    assert Fill(f, t, i + 1) == Fill(f, t, i + 2);
    assert Fill(f, t, i) == Fill(f, t, i + 1);
    BlankPair(t, i);
    assert Match(Unset(2, k), Fill(f, t, i)) == Blanks(2, Match(k, Fill(f, t, i)));
  }

  lemma MissingGroup(text: string, k: Pat, rest: seq<string>)
    requires text != "" && Match(k, "") == Some(rest)
    ensures Match(OptionalGroup(text, Digit, k), "") == Some([""] + rest)
  {
    NothingToRead(text, Cap(Digit, 0, k));
    assert Blank(1) == [""];
  }

  /** The optional attributes at the end of a candidate line, none of them printed. */
  lemma NoAttributes()
    ensures Match(CandidateAfterTcp(), "") == Some(["", "", ""])
  {
    var cost := OptionalGroup(" network-cost ", Digit, Done);
    var id := OptionalGroup(" network-id ", Digit, cost);
    assert [""] + [] == [""] && [""] + [""] == ["", ""] && [""] + ["", ""] == ["", "", ""];
    MissingGroup(" network-cost ", Done, []);
    MissingGroup(" network-id ", cost, [""]);
    MissingGroup(" generation ", id, ["", ""]);
  }

  lemma CandidateEnd(f: seq<Piece>, t: seq<string>)
    requires |t| == 13 && t[10] == t[11] == t[12] == ""
    requires |f| == 12 && f[10] == f[11] == Piece("", 'v')
    ensures Reads(CandidateAfterTcp(), f, t, 10) && Fill(f, t, 10) == ""
  {
    NoAttributes();
    assert Fill(f, t, 12) == "" && Fill(f, t, 11) == "" && Fill(f, t, 10) == "";
    assert t[10..] == ["", "", ""];
  }

  lemma CandidateTcpShape(f: seq<Piece>, t: seq<string>)
    requires |t| == 13 && AllIn(t[9], NonSpace) && t[7] == t[8] == t[10] == t[11] == t[12] == ""
    requires |f| == 12 && f[7] == f[8] == f[10] == f[11] == Piece("", 'v')
    requires f[9] == if t[9] != "" then Piece(" tcptype ", 's') else Piece("", 'v')
    ensures Reads(CandidateTail(), f, t, 7) && Delimited(f, t, 7, NonSpace)
  {
    hide Match, AllIn, CandidateAfterTcp;
    CandidateEnd(f, t);
    var tcp := Lit(" tcptype ", Cap(NonSpace, 0, CandidateAfterTcp()));
    if t[9] != "" {
      ReadsTok(" tcptype ", NonSpace, 0, CandidateAfterTcp(), f, t, 9);
      ReadsFirst(tcp, Unset(1, CandidateAfterTcp()), f, t, 9);
    } else {
      NothingToRead(" tcptype ", Cap(NonSpace, 0, CandidateAfterTcp()));
      ReadsVoid(tcp, CandidateAfterTcp(), f, t, 9);
    }
    var related := Lit(" rport ", Cap(Digit, 0, CandidateTcp()));
    LitFails(" raddr ", Cap(NonSpace, 0, related), Fill(f, t, 9), 1);
    ReadsVoidPair(Lit(" raddr ", Cap(NonSpace, 0, related)), CandidateTcp(), f, t, 7);
  }

  lemma CandidateShape(f: seq<Piece>, t: seq<string>)
    requires |t| == 13 && AllIn(t[0], NonSpace) && AllIn(t[1], Digit) && AllIn(t[2], NonSpace) && AllIn(t[3], Digit)
    requires AllIn(t[4], NonSpace) && AllIn(t[5], Digit) && AllIn(t[6], NonSpace) && AllIn(t[9], NonSpace)
    requires t[7] == t[8] == t[10] == t[11] == t[12] == ""
    requires f == [Piece("candidate:", 's'), Piece(" ", 'd'), Piece(" ", 's'), Piece(" ", 'd'), Piece(" ", 's'),
      Piece(" ", 'd'), Piece(" typ ", 's'), Piece("", 'v'), Piece("", 'v'),
      if t[9] != "" then Piece(" tcptype ", 's') else Piece("", 'v'), Piece("", 'v'), Piece("", 'v')]
    ensures Reads(Lit("candidate:", CandidatesRest()), f, t, 0)
  {
    hide Match;
    var k6 := Lit(" typ ", Cap(NonSpace, 0, CandidateTail()));
    var k5 := Lit(" ", Cap(Digit, 0, k6));
    var k4 := Lit(" ", Cap(NonSpace, 0, k5));
    var k3 := Lit(" ", Cap(Digit, 0, k4));
    var k2 := Lit(" ", Cap(NonSpace, 0, k3));
    CandidateTcpShape(f, t);
    ReadsTok(" typ ", NonSpace, 0, CandidateTail(), f, t, 6);
    ReadsTok(" ", Digit, 0, k6, f, t, 5);
    ReadsTok(" ", NonSpace, 0, k5, f, t, 4);
    ReadsTok(" ", Digit, 0, k4, f, t, 3);
    ReadsTok(" ", NonSpace, 0, k3, f, t, 2);
    ReadsTok(" ", Digit, 0, k2, f, t, 1);
    ReadsTok("candidate:", NonSpace, 0, Lit(" ", Cap(Digit, 0, k2)), f, t, 0);
  }

  lemma MsidSemanticShape(f: seq<Piece>, t: seq<string>)
    requires |t| == 2 && AllIn(t[0], Word) && AllIn(t[1], NonSpace)
    requires f == [Piece("msid-semantic: ", 's'), Piece(" ", 's')]
    ensures Reads(Lit("msid-semantic:", MsidSemanticRest()), f, t, 0)
  {
    hide AllIn, RunLength, Longest;
    var last := Lit(" ", Cap(NonSpace, 0, Done));
    ReadsDone(f, t);
    ReadsTok(" ", NonSpace, 0, Done, f, t, 1);
    var tokens := Cap(Word, 0, last);
    var s := t[0] + Fill(f, t, 1);
    CapStep(Word, 0, last, t[0], Fill(f, t, 1));
    assert [t[0]] + t[1..] == t[0..];
    assert (" " + s)[1..] == s;
    assert Match(Skip(Space, tokens), " " + s) == Match(tokens, s);
    LitStep("msid-semantic:", Alt(Skip(Space, tokens), tokens), " " + s);
    assert Fill(f, t, 0) == "msid-semantic: " + s == "msid-semantic:" + (" " + s);
  }

  lemma SimulcastShape(f: seq<Piece>, t: seq<string>)
    requires |t| == 4 && t[0] in {"send", "recv"} && AllIn(t[1], WordOr(STREAM_CHARS)) && t[1] != ""
      && t[2] == t[3] == ""
    requires f == [Piece("simulcast:", 's'), Piece(" ", 's')]
    ensures Reads(Lit("simulcast:", SimulcastRest()), f, t, 0)
    ensures Fill(f, t, 0) == "simulcast:" + (t[0] + (" " + t[1]))
  {
    var second := SendOrRecv(Lit(" ", Cap(WordOr(STREAM_CHARS), 1, End)));
    ReadsNothing(Alt(Skip(Space, second), second), 2, End, f, t);
    assert t[1] + "" == t[1];
    ReadsTok(" ", WordOr(STREAM_CHARS), 1, SimulcastTail(), f, t, 1);
    var k := Lit(" ", Cap(WordOr(STREAM_CHARS), 1, SimulcastTail()));
    var s := Fill(f, t, 1);
    LitStep("simulcast:", SendOrRecv(k), t[0] + s);
    WordStep(t[0], k, s);
    if t[0] == "recv" {
      assert !("send" <= t[0] + s) by {
        assert (t[0] + s)[0] == 'r';
      }
    }
    assert [t[0]] + t[1..] == t[0..];
  }

  lemma WordFails(word: string, s: string, i: nat)
    requires i < |word| && (i < |s| ==> s[i] != word[i])
    ensures Match(Word_(word, Done), s).None?
  {
  }

  lemma DirectionWords(v: string)
    requires IsDirection(v)
    ensures Match(DirectionPattern(), v) == Some([v])
  {
    KeywordLine(v);
    if v != "sendrecv" {
      WordFails("sendrecv", v, if v == "sendonly" then 4 else 0);
    }
    if v != "recvonly" {
      WordFails("recvonly", v, 0);
    }
    if v == "inactive" {
      WordFails("sendonly", v, 0);
    }
  }

  /** One token behind a head: setup, mid, ice-ufrag, ice-pwd, ice-options. */
  lemma ScalarLine(head: string, cls: Class, tok: string)
    requires AllIn(tok, cls)
    ensures Match(Lit(head, Cap(cls, 0, Done)), head + tok) == Some([tok])
  {
    LitStep(head, Cap(cls, 0, Done), tok);
    CapLast(cls, 0, Done, tok);
    assert [tok] + [] == [tok];
  }

  /** A line that is a single keyword. */
  lemma KeywordLine(word: string)
    ensures Match(Word_(word, Done), word) == Some([word])
  {
    WordStep(word, Done, "");
    assert word + "" == word && [word] + [] == [word];
  }
}
