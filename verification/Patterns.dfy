/** The print formats and regular expressions of the grammar rules, apart from the table
    that assigns them. */
module Patterns {
  import opened Text
  import opened Regex

  /** Fixed text of a format: no line break inside. */
  type OneLine = s: string | '\n' !in s witness ""

  /** A directive of a print format with the text in front of it. No format has text behind
      its last directive, and none uses `%%`. */
  datatype Piece = Piece(prefix: OneLine, directive: char)

  function Optional(shown: bool, prefix: OneLine): Piece {
    if shown then Piece(prefix, 's') else Piece("", 'v')
  }

  /** `( (.*))?` and its kind: an optional token at the end of a line. */
  function OptionalTail(separator: string, cls: Class): Pat {
    Alt(Lit(separator, Cap(cls, 0, Done)), Unset(1, Done))
  }

  function MediaTail(): Pat {
    Lit(" ", Cap(WordOr("/"), 0, OptionalTail(" ", Any)))
  }

  function RtpTail(): Pat {
    Alt(Run(Space, 0, Lit("/", Cap(Digit, 0, EncodingTail()))), Unset(2, Done))
  }

  function EncodingTail(): Pat {
    Alt(Run(Space, 0, Lit("/", Cap(NonSpace, 0, Done))), Unset(1, Done))
  }

  function StarOrDigits(rest: Pat): Pat {
    Alt(Word_("*", rest), Cap(Digit, 0, rest))
  }

  function FeedbackTail(): Pat {
    Lit(" ", Cap(WordOr("-"), 0, OptionalTail(" ", WordOr("-"))))
  }

  const ENCRYPT_URI := "urn:ietf:params:rtp-hdrext:encrypt"

  function ExtUri(): Pat {
    Lit(" ", Cap(NonSpace, 0, OptionalTail(" ", NonSpace)))
  }

  function ExtEncrypt(): Pat {
    Alt(Lit(" ", Word_(ENCRYPT_URI, ExtUri())), Unset(1, ExtUri()))
  }

  function OptionalGroup(text: string, cls: Class, rest: Pat): Pat {
    Alt(Lit(text, Cap(cls, 0, rest)), Unset(1, rest))
  }

  function CandidateAfterTcp(): Pat {
    OptionalGroup(" generation ", Digit,
      OptionalGroup(" network-id ", Digit, OptionalGroup(" network-cost ", Digit, Done)))
  }

  function CandidateTcp(): Pat {
    OptionalGroup(" tcptype ", NonSpace, CandidateAfterTcp())
  }

  function CandidateTail(): Pat {
    Alt(Lit(" raddr ", Cap(NonSpace, 0, Lit(" rport ", Cap(Digit, 0, CandidateTcp())))), Unset(2, CandidateTcp()))
  }

  function SendOrRecv(rest: Pat): Pat {
    Alt(Word_("send", rest), Word_("recv", rest))
  }

  /** [a-zA-Z0-9\-_~;,] */
  const STREAM_CHARS := "-~;,"

  function SimulcastTail(): Pat {
    var second := SendOrRecv(Lit(" ", Cap(WordOr(STREAM_CHARS), 1, End)));
    Alt(Alt(Skip(Space, second), second), Unset(2, End))
  }

  function OriginPattern(): Pat {
    Cap(NonSpace, 0, Lit(" ", Cap(Digit, 0, Lit(" ", Cap(Digit, 0, Lit(" ", Cap(NonSpace, 0,
      Lit(" IP", One(Digit, Lit(" ", Cap(NonSpace, 0, Done)))))))))))
  }

  function TimingPattern(): Pat {
    Cap(Digit, 0, Lit(" ", Cap(Digit, 0, Done)))
  }

  function ConnectionPattern(): Pat {
    Lit("IN IP", One(Digit, Lit(" ", Cap(Except("\\S/"), 0, OptionalTail("/", Digit)))))
  }

  function BandwidthPattern(): Pat {
    var limit := Lit(":", Cap(Digit, 0, Done));
    Alt(Word_("TIAS", limit),
      Alt(Word_("AS", limit), Alt(Word_("CT", limit), Alt(Word_("RR", limit), Word_("RS", limit)))))
  }

  function MediaPattern(): Pat {
    Cap(Word, 0, Lit(" ", Cap(Digit, 0, Alt(Lit("/", Cap(Digit, 0, MediaTail())), Unset(1, MediaTail())))))
  }

  function RtpRest(): Pat {
    Cap(Digit, 0, Lit(" ", Cap(WordOr("-."), 0, RtpTail())))
  }

  function RtcpRest(): Pat {
    Cap(Digit, 0, Alt(
      Lit(" ", Cap(NonSpace, 0, Lit(" IP", One(Digit, Lit(" ", Cap(NonSpace, 0, Done)))))), Unset(3, Done)))
  }

  function RtcpFbTrrIntRest(): Pat {
    StarOrDigits(Lit(" trr-int ", Cap(Digit, 0, Done)))
  }

  function RtcpFbRest(): Pat {
    StarOrDigits(FeedbackTail())
  }

  function ExtRest(): Pat {
    Cap(Digit, 1, Alt(Lit("/", Cap(Word, 1, ExtEncrypt())), Unset(1, ExtEncrypt())))
  }

  function CryptoRest(): Pat {
    Cap(Digit, 0, Lit(" ", Cap(Word, 0, Lit(" ", Cap(NonSpace, 0, OptionalTail(" ", NonSpace))))))
  }

  predicate IsDirection(v: string) {
    v == "sendrecv" || v == "recvonly" || v == "sendonly" || v == "inactive"
  }

  function DirectionPattern(): Pat {
    Alt(Word_("sendrecv", Done), Alt(Word_("recvonly", Done), Alt(Word_("sendonly", Done), Word_("inactive", Done))))
  }

  function FingerprintRest(): Pat {
    Cap(NonSpace, 0, Lit(" ", Cap(NonSpace, 0, Done)))
  }

  function CandidatesRest(): Pat {
    Cap(NonSpace, 0, Lit(" ", Cap(Digit, 0, Lit(" ", Cap(NonSpace, 0, Lit(" ", Cap(Digit, 0,
      Lit(" ", Cap(NonSpace, 0, Lit(" ", Cap(Digit, 0, Lit(" typ ", Cap(NonSpace, 0, CandidateTail())))))))))))))
  }

  function SsrcsRest(): Pat {
    Cap(Digit, 0, Lit(" ", Cap(WordOr("-"), 0, OptionalTail(":", Any))))
  }

  function MsidSemanticRest(): Pat {
    var tokens := Cap(Word, 0, Lit(" ", Cap(NonSpace, 0, Done)));
    Alt(Skip(Space, tokens), tokens)
  }

  function SctpMapRest(): Pat {
    Cap(Digit, 1, Lit(" ", Cap(NonSpace, 0, OptionalTail(" ", Digit))))
  }

  function RidsRest(): Pat {
    Cap(Word, 1, Lit(" ", Cap(Word, 1, OptionalTail(" ", Any))))
  }

  function SimulcastRest(): Pat {
    SendOrRecv(Lit(" ", Cap(WordOr(STREAM_CHARS), 1, SimulcastTail())))
  }

  function SourceFilterRest(): Pat {
    var addresses := Lit(" ", Cap(NonSpace, 0, Lit(" ", Cap(Any, 0, Done))));
    var net := Lit(" ", Cap(NonSpace, 0,
      Lit(" ", Alt(Word_("IP4", addresses), Alt(Word_("IP6", addresses), Word_("*", addresses))))));
    Run(Space, 1, Alt(Word_("excl", net), Word_("incl", net)))
  }
}
