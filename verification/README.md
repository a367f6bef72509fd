# A verified model of the client's negotiation core

This project models the part of libmediasoupclient that negotiates media with a mediasoup
router: the SDP text codec, the m-section builders, the remote session description as a state
machine, the ORTC capability pipeline, the SSRC and fmtp codecs, and the transport set-up of
the two handlers. `dafny verify dfyconfig.toml` checks all of it.

Code that works step by step in the original is a method with loops, or a class whose methods
update fields; each is proved equal to a specification function, and the properties are lemmas
about those functions or class invariants.

## What is proved

**SDP text** (`Regex`, `Patterns`, `Grammar`, `LineShapes`, `Heads`, `SdpText`, `SdpTokens`,
`SdpRoundTrip`, `SdpStability`, `SdpTheorem`, `SdpLines`, `SdpReadings`, `SdpWriting`,
`Sdptransform`). The ordered rule table of
libsdptransform is modelled with the backtracking semantics of its regular expressions. Every
line printed for well-formed tokens is handed back, in first-match order, to the rule that
printed it, and captures exactly the printed texts. Hence `write(parse(write(s))) == write(s)`.
Beside the table stands a writer without one: for every rule the client emits, the line as a
concatenation of its members by name, and the lines in the order they come in. The two write the
same text for all sessions of such members (`SdpWriting.WritesSimply`), and each of these lines
is read back as exactly those members (`SdpReadings`).
Two places where the code is not what one might expect: the `x-google-flag` rule has no `^`, so
it could take lines that merely contain that text; and the character range `+-.` in the
`ssrc-group` rule also admits the comma.

**m-sections** (`MediaObjects`, `MediaSections`, `MediaTokens`, `MediaTexts`). The objects built
for answers and offers, and all their lines down to the characters, as a function of the ICE
parameters, candidates, role, codecs, options, extensions, rids and SSRCs. The payload list reads back as the `rtp` entries exactly for
payload types of one byte; the SSRC lines of an offer give back its encoding exactly unless a
non-zero RTX SSRC equals the SSRC. Every codec option reaches the answer; of them only the four
Opus flags also reach the offered codec, with the same value, and the numeric and video options
leave it as it was. Sections made of well-formed tokens meet the condition of the stability
theorem and keep meeting it when closed, disabled or updated.

**The remote description** (`RemoteStates`, `RemoteSdp`, `RemoteText`, `DescriptionText`). The class `RemoteSdp`
is a cache of a list of sections: its index map, first mid, mirrored media array and BUNDLE
list are functions of that list after every method. Over every run: the number of sections is
the largest number ever open at once exactly if all of them have been open at once since a SCTP
section (which never reuses a closed slot) was last added beside a closed one, and larger
otherwise; an open mid keeps its slot until it is closed; the first section never closes; the
slot predicted before a role update is the one that is filled; the k-th text starts with an origin
line that says `10000` and k modulo 2^32, and is read as saying so; and the text is stable through parsing.

**Capabilities** (`OrtcValidation`, `OrtcDefaults`, `OrtcMatching`, `OrtcExtended`,
`OrtcParameters`, `OrtcContents`). Raw JSON members are `Absent`, `Malformed` or `Present`.
Validation is idempotent, its fixed points are characterised, and so is what it accepts and
fills in. Two codecs match exactly under the stated condition on their parameters. Extended codecs are an order-preserving selection of the remote codecs, each
paired with its first strict match in the state earlier profile rewrites have left; its RTX
payload types are those of the first RTX codecs of the two given codecs it stands for. Receiving
capabilities validate exactly when every remote codec with a partner has a payload type, so for
payload types of one byte and known directions they always do, each RTX entry directly behind
the codec its apt names. Sending and remote sending parameters are aligned and stay so under
`reduceCodecs`, so that the unchecked lookup of the offered codec behind it succeeds. The header
extensions of each result are given as selections of the remote ones, with ids, encryption and
direction; the feedback asked for is that of the local codec but for the congestion control the
sent extensions rule out.

**SSRCs and fmtp** (`FmtpConfig`, `SsrcUtils`, `SimulcastContents`, `ApplyParameters`,
`ApplyContents`). A printed configuration is read back exactly if its values are readable, with or
without blanks around the items. The encodings of any offer are given by the SSRC and FID lines;
an offer rewritten to legacy simulcast is given line by line and reads back as the n streams
exactly if the two ranges are disjoint. `applyCodecParameters` changes nothing but the
configurations of Opus codecs that the answer has, adds an entry only where one of those has none,
and of a configuration printed by this library changes `stereo` alone.

**Handlers** (`SendEncodings`, `HandlerStates`, `Handlers`). Peer-connection calls are oracles
that return or throw. `OnConnect` returns at most once, roles are then opposite and fixed,
once the transport is ready every answer says `active` if this side is the server and `passive`
if it is the client, and every id that was not stopped has an open
section. A receiving handler keeps account of the mids that failed calls have left behind: an id
that is not stored is fresh exactly if it is none of those. The encodings a sending handler
reports are those of the offer, the first completed by a single given encoding, or the given
ones, told apart by their rids exactly up to 256 of them.

## Where the code falls short of what it seems to promise

- RTX payload types of an extended codec are both set or both null exactly unless the first RTX
  codecs of its two sides both exist and one of them alone lacks a payload type, as in
  `OrtcExtended.UnnumberedRtx`; if all RTX codecs have payload types they are always together
  (`OrtcExtended.RtxTogether`).
- `reduceCodecs` with a given codec reads the entry behind the match. Behind the last entry the
  list is padded with null, and asking that for its MIME type throws. For the lists the sending
  builders make, the given codec is selected exactly if it matches the media codec and an RTX
  codec follows (`OrtcParameters.SelectedNeedsRtx`, `OrtcParameters.ReducedSending`). Opus,
  which has no RTX codec, cannot be selected by itself, and an RTX codec given as the codec to
  select fails in the same way (`OrtcParameters.OpusAlone`).
- `generateProbatorRtpParameters` of parameters without codecs yields a null codec, which does
  not validate (`OrtcParameters.ProbatorReceivable`).
- `applyCodecParameters` writes integers through a 32-bit type: a configuration survives exactly
  if its integers fit, and a bitrate of 2^31 becomes negative (`ApplyParameters.LargeBitrate`).
  It reads `sprop-stereo` only as a boolean, which the validators reject as a codec parameter,
  while the answer builder writes 0 or 1; so for validated parameters it never sets `stereo`
  (`OrtcValidation.StereoNeverSet`).
- A receiving call that fails behind the new section leaves that section open under an id that
  is not stored, and the next generated id is the same one. Trying again with it, or with the
  same explicit mid, puts the mid into the BUNDLE list twice (`HandlerStates.FailedIdIsTaken`);
  so does a data channel after a failed first one, which appends a second "datachannel" section
  (`HandlerStates.DataRetryDoubles`).
- SCTP sections never reuse a closed slot: with two media sections, one of them closed, the
  third section is new although only two were ever open (`RemoteStates.SctpExceeds`).
- A mid is to be closed at most once while it has a section: the index lookup inserts slot 0 for
  an unknown mid (src/sdp/RemoteSdp.cpp:261), so the methods require a known one, and the
  handlers discharge that for every id that is stopped once.
- `AUDIO/...` MIME types pass validation, but their kind is then `AUDIO`, so the default channel
  count is not filled in and given channels are erased (`OrtcValidation.CapitalKind`).

## Model

| member | source | states |
|---|---|---|
| Text.SplitTokens | include/Utils.hpp:81-91 | the getline loop delivers the tokens of the text, none behind a trailing delimiter |
| Text.JoinTokens | include/Utils.hpp:93-106 | the loop puts the delimiter between tokens and nowhere else |
| Text.SplitJoin | include/Utils.hpp:81-106 | splitting undoes joining exactly for delimiter-free tokens with a non-empty last one |
| Text.DecimalRoundTrip | deps/libsdptransform/src/parser.cpp:266-274 | a printed integer is read back as itself |
| Heads.DispatchHeaded | deps/libsdptransform/src/parser.cpp:78-89 | a line that starts with a rule's head and matches it is taken by that rule and no earlier one, apart from the unanchored flag rule and the shared rtcp-fb head |
| SdpTokens.ElementReads | deps/libsdptransform/src/grammar.cpp:31-1072 | every structured line of well-formed tokens is dispatched to its own rule, whose captures are the printed texts |
| SdpTokens.ScalarReads | deps/libsdptransform/src/grammar.cpp:10-1072 | the same for lines with a single value, keywords and directions included |
| Sdptransform.WriteLine | deps/libsdptransform/src/writer.cpp:111-210 | the argument and format loops print the line the rule stands for, `%v` consuming an argument silently |
| Sdptransform.Write | deps/libsdptransform/src/writer.cpp:15-109 | the nested loops print the lines in the RFC letter order and fill in version, name, media and payloads |
| Sdptransform.Parse | deps/libsdptransform/src/parser.cpp:35-95 | the line loop builds the session: lines go to the latest m-section, invalid lines are dropped |
| Sdptransform.AttachProperties | deps/libsdptransform/src/parser.cpp:242-264 | non-empty captures become members with the type of their position |
| Sdptransform.StoreCaptures | deps/libsdptransform/src/parser.cpp:210-240 | captures are pushed, nested or merged as the rule says |
| SdpRoundTrip.ReparsedPrints | deps/libsdptransform/src/parser.cpp:242-264 | the object read from a printed line prints the same line |
| SdpRoundTrip.FeedRules | deps/libsdptransform/src/parser.cpp:78-89 | feeding back the lines of all rules of a location rebuilds every member that printed a line |
| SdpStability.SectionReprints | deps/libsdptransform/src/writer.cpp:74-106 | a reread m-section prints exactly the lines it was read from |
| SdpStability.ParseSession | deps/libsdptransform/src/parser.cpp:35-95 | parsing the printed lines yields one reread object per m-section and the reread session |
| SdpTheorem.ParseOfWrite | deps/libsdptransform/src/parser.cpp:35-95 | parsing the written text yields the reread session, line ends and filtering included |
| SdpTheorem.WriteParseWrite | deps/libsdptransform/src/writer.cpp:15-210 | writing, parsing and writing again reproduces the text of every session of well-formed tokens |
| SdpLines.OriginPrints | deps/libsdptransform/src/grammar.cpp:36-49 | the o= line is username, session id, session version, network type, IP version and address, in this order |
| SdpLines.CandidatePrints | deps/libsdptransform/src/grammar.cpp:647-699 | the candidate line is its members by name in their order, raddr, rport and tcptype only where they are there |
| SdpWriting.AttributesPrinted | deps/libsdptransform/src/grammar.cpp:298-1072 | the a= lines of a location are those of its members, each spelled out, in one fixed order |
| SdpWriting.SectionPrinted | deps/libsdptransform/src/writer.cpp:74-106 | an m-section is its m= line, its c= line and its a= lines, spelled out |
| SdpWriting.WritesSimply | deps/libsdptransform/src/writer.cpp:15-109 | the table-driven writer prints what a writer without a table prints, for every session of the members the client emits |
| SdpWriting.DefaultsFilled | deps/libsdptransform/src/writer.cpp:26-41 | version 0 and the name - are filled in where they are missing |
| SdpReadings.OriginLine | deps/libsdptransform/src/grammar.cpp:36-49 | an o= line is read as exactly its six members |
| SdpReadings.MediaLine | deps/libsdptransform/src/parser.cpp:54-76 | an m= line starts a section with exactly its kind, port, protocol and payloads |
| SdpReadings.RtpLine | deps/libsdptransform/src/grammar.cpp:299-323 | an rtpmap line is read as one more entry with its payload type, codec, rate and encoding |
| SdpReadings.FmtpLine | deps/libsdptransform/src/grammar.cpp:325-340 | an fmtp line is read as one more entry with its payload type and configuration |
| SdpReadings.CandidateLine | deps/libsdptransform/src/grammar.cpp:647-699 | a candidate line is read as one more entry with exactly the printed members |
| SdpReadings.SsrcLine | deps/libsdptransform/src/grammar.cpp:732-762 | an ssrc line is read as one more entry with its id, attribute and value |
| FmtpConfig.PrintConfig | src/sdp/MediaSection.cpp:271-286 | the printing loop yields the semicolon-joined items |
| FmtpConfig.ReadParams | deps/libsdptransform/src/parser.cpp:97-114 | the parameter loop skips blank parameters and inserts the others in order |
| FmtpConfig.ConfigRoundTrip | deps/libsdptransform/src/parser.cpp:97-114 | a printed configuration is read back as the same parameters exactly if every value is a 64-bit integer under an untyped or integer key, a float under an untyped key whose text reads as that float, or a non-empty string that does not read as a number or sits under a string key |
| FmtpConfig.BlanksIgnored | deps/libsdptransform/src/parser.cpp:97-114 | blanks around the items of a printed configuration do not change what is read |
| FmtpConfig.KeyTypes | deps/libsdptransform/src/parser.cpp:357-393 | which keys settle the type of their value, and what other values are read as |
| SsrcUtils.GetRtpEncodings | src/sdp/Utils.cpp:413-476 | the ssrc list with adjacent repeats dropped and RTX SSRCs removed, in order, with the RTX map of the FID lines; an error without lines or with unreadable numbers |
| SsrcUtils.AddLegacySimulcast | src/sdp/Utils.cpp:220-386 | the loops rewrite the offer to the ranges of SSRCs, or report the missing line |
| SsrcUtils.SimulcastRoundTrip | src/sdp/Utils.cpp:413-476 | the encodings read from a rewritten offer are the n streams in order exactly if the two 32-bit ranges are disjoint |
| SsrcUtils.LegacySimulcastRoundTrip | src/sdp/Utils.cpp:220-386 | the same from the original offer, for 2 to 255 streams; the cname is that of its cname line |
| SimulcastContents.OfferEncodings | src/sdp/Utils.cpp:413-476 | for any offer: the SSRCs that differ from the line before and that no FID group names second, in order, each with the second SSRC of the last FID group it starts |
| SimulcastContents.SimulcastSpelled | src/sdp/Utils.cpp:220-386 | the rewritten groups and lines one by one: a SIM group of all SSRCs, a FID group per pair, a cname and an msid line per SSRC, from the first msid line, its first group and the first numbered cname line; all other members stay |
| SimulcastContents.SimulcastRefuses | src/sdp/Utils.cpp:224-305 | one stream leaves the offer alone; more are refused without an msid line or without a numbered cname line |
| ApplyParameters.NewConfigKeeps | src/sdp/Utils.cpp:514-550 | a configuration printed by the library, with stereo set from a boolean sprop-stereo, is what is written back exactly if its integers fit 32 bits |
| ApplyParameters.LargeInteger | src/sdp/Utils.cpp:531-550 | a single integer is written back as its 32-bit value, the same text exactly if it fits |
| ApplyParameters.LargeBitrate | src/sdp/Utils.cpp:531-550 | maxaveragebitrate=2147483648 is written back as a negative number |
| ApplyParameters.Apply | src/sdp/Utils.cpp:478-552 | the codec loop rewrites the configuration of every Opus codec the answer has, adding an entry where there is none |
| ApplyContents.ApplyTouches | src/sdp/Utils.cpp:478-552 | for any codecs: other members stay; entries stay in place and only the first one of a payload type of an Opus codec that the answer has may change, in its configuration only; behind them come plain entries for such payload types that had none |
| ApplyContents.EntryThere | src/sdp/Utils.cpp:503-510 | every such payload type has an entry in the end |
| ApplyContents.ConfigApplied | src/sdp/Utils.cpp:514-550 | a configuration printed from sorted, readable 32-bit parameters, or a missing one, reads as the same parameters afterwards, with stereo 1 or 0 as the last Opus codec of that payload type with a boolean sprop-stereo says |
| MediaObjects.BuildTransport | src/sdp/MediaSection.cpp:20-52 | ICE members and the candidate loop yield the transport part |
| MediaObjects.PrintPayloads | src/sdp/MediaSection.cpp:307-319 | the payload loop prints payload types modulo 256, separated by spaces |
| MediaObjects.AnswerCodecs | src/sdp/MediaSection.cpp:149-305 | the codec loop prints the configured codecs and updates the offered ones, each found by payload type |
| MediaObjects.CollectExts | src/sdp/MediaSection.cpp:322-340 | the header extensions present in the offer, in order |
| MediaObjects.CollectRids | src/sdp/MediaSection.cpp:371-385 | the sending rids as receiving ones, in order |
| MediaObjects.BuildAnswer | src/sdp/MediaSection.cpp:111-397 | the whole answer section, and the offered codecs as the options left them |
| MediaObjects.BuildOffer | src/sdp/MediaSection.cpp:411-589 | the whole offer section |
| MediaSections.MediaSection.SetIceParameters | src/sdp/MediaSection.cpp:75-81 | only the two ICE members change |
| MediaSections.MediaSection.Disable | src/sdp/MediaSection.cpp:83-94 | inactive, without extensions, SSRCs, simulcast and rids; the port stays |
| MediaSections.MediaSection.Close | src/sdp/MediaSection.cpp:96-109 | in addition port 0 and no extmap-allow-mixed |
| MediaSections.MediaSection.SetDtlsRole | src/sdp/MediaSection.cpp:399-409 | answers take the image of the role, unknown roles change nothing, offers stay actpass |
| MediaSections.DisabledIs | src/sdp/MediaSection.cpp:83-94 | a disabled section is inactive and lacks the five stream members; everything else is as before |
| MediaSections.ClosedIs | src/sdp/MediaSection.cpp:96-109 | a closed one has port 0 as well and no extmap-allow-mixed |
| MediaSections.IceIs | src/sdp/MediaSection.cpp:75-81 | the fragment becomes the ufrag, the password the pwd, and nothing else changes |
| MediaSections.RoleIs | src/sdp/MediaSection.cpp:399-409 | answers say active to a client, passive to a server and actpass to auto; offers say actpass |
| MediaTexts.AnswerWritten | src/sdp/MediaSection.cpp:111-397 | every line of an audio or video answer in terms of the arguments |
| MediaTexts.OfferWritten | src/sdp/MediaSection.cpp:411-589 | every line of an audio or video offer in terms of the arguments |
| MediaTexts.DataAnswerWritten | src/sdp/MediaSection.cpp:388-395 | every line of an application answer in terms of the arguments |
| MediaTexts.DataOfferWritten | src/sdp/MediaSection.cpp:583-589 | every line of an application offer in terms of the arguments |
| MediaSections.ReadPayloads | deps/libsdptransform/src/parser.cpp:116-129 | the loop reads the tokens as integers, or fails on the first unreadable one |
| MediaSections.OfferPayloads | src/sdp/MediaSection.cpp:512-524 | the printed payload list reads back as the rtp entries in order exactly for payload types 0 to 255 |
| MediaSections.AnswerPayloads | src/sdp/MediaSection.cpp:307-319 | the same for answers, whatever the codec options |
| MediaSections.OfferSsrcRoundTrip | src/sdp/MediaSection.cpp:541-581 | with a cname the encoding and the cname are read back, the encoding exactly unless a non-zero RTX SSRC equals the SSRC; without a cname there is nothing to read |
| MediaSections.OptionsReachAnswer | src/sdp/MediaSection.cpp:184-260 | every parameter of an answered codec is what the options say for it, flags as 0 or 1, or what it was; the rest of the codec stays |
| MediaSections.OptionsAgree | src/sdp/MediaSection.cpp:184-260 | of the offered codecs only the Opus one found by payload type changes, and only by the four flags, stereo as sprop-stereo, each with the value it has in the answer; numeric and video options leave it as it was |
| MediaTokens.WellFormedSection | src/sdp/MediaSection.cpp:20-597 | sections of well-formed members meet the hypothesis of the stability theorem |
| MediaTokens.OfferWellFormed | src/sdp/MediaSection.cpp:411-589 | offers built from clean inputs are well formed |
| MediaTokens.AnswerWellFormed | src/sdp/MediaSection.cpp:111-397 | answers built from clean inputs are well formed, whatever the options |
| MediaTokens.ClosedWellFormed | src/sdp/MediaSection.cpp:83-109 | closing and disabling keep a section well formed |
| RemoteStates.BundleSplits | src/sdp/RemoteSdp.cpp:351-369 | splitting the BUNDLE text gives exactly the open mids in order |
| RemoteStates.StepKeepsInv | src/sdp/RemoteSdp.cpp:90-369 | every operation keeps mids usable and distinct and the first section open |
| RemoteStates.AllowedExactly | src/sdp/RemoteSdp.cpp:290-349 | a new open section keeps the invariant exactly if its mid is fresh or, where it replaces a closed section, that of the replaced one |
| RemoteStates.RetryDoubles | src/sdp/RemoteSdp.cpp:290-369 | a section with the mid of one that is still open puts that mid into the BUNDLE list twice |
| RemoteStates.SlotStability | src/sdp/RemoteSdp.cpp:257-349 | over every run an open mid keeps its index until it is closed itself, and sections never get fewer |
| RemoteStates.FirstSectionStays | src/sdp/RemoteSdp.cpp:264-269 | the first section is never closed or replaced and leads the BUNDLE list; slot 0 is next only for an empty description |
| RemoteStates.HighWaterMark | src/sdp/RemoteSdp.cpp:130-245 | the number of sections is at least the largest number ever open at once, exceeds it by at most the SCTP sections added beside a closed slot, and never decreases |
| RemoteStates.HighWaterExact | src/sdp/RemoteSdp.cpp:130-245 | the two numbers are equal exactly if all sections have been open at once since a SCTP section was last added beside a closed one |
| RemoteStates.SctpExceeds | src/sdp/RemoteSdp.cpp:193-208 | two media sections, the second closed, and a SCTP section make three sections of which two were ever open |
| RemoteStates.NothingWasted | src/sdp/RemoteSdp.cpp:147-175 | without SCTP sections the two numbers are equal |
| RemoteStates.VersionCounts | src/sdp/RemoteSdp.cpp:278-288 | after k texts the session version is k modulo 2^32 |
| RemoteStates.SlotPrediction | src/Handler.cpp:204-233 | the slot found before a role update is the slot Send fills after it; all other sections are what the update made them |
| RemoteSdps.RemoteSdp.constructor | src/sdp/RemoteSdp.cpp:14-78 | a valid empty description with the latest fingerprint |
| RemoteSdps.RemoteSdp.GetNextMediaSectionIdx | src/sdp/RemoteSdp.cpp:130-145 | the least closed index with its mid, or the length; 0 only without sections |
| RemoteSdps.RemoteSdp.RegenerateBundleMids | src/sdp/RemoteSdp.cpp:351-369 | the loop writes the BUNDLE text of the open sections and nothing else |
| RemoteSdps.RemoteSdp.AddMediaSection | src/sdp/RemoteSdp.cpp:290-307 | a section with a fresh mid is appended; map, mirror, first mid and BUNDLE follow |
| RemoteSdps.RemoteSdp.ReplaceMediaSection | src/sdp/RemoteSdp.cpp:309-349 | the section of a known mid is replaced in place; map, mirror and BUNDLE follow |
| RemoteSdps.RemoteSdp.Send | src/sdp/RemoteSdp.cpp:147-175 | the answer section goes where the given mid says; with the predicted mid, into the least closed slot |
| RemoteSdps.RemoteSdp.SendSctpAssociation | src/sdp/RemoteSdp.cpp:177-191 | an application answer is always appended |
| RemoteSdps.RemoteSdp.RecvSctpAssociation | src/sdp/RemoteSdp.cpp:193-208 | the datachannel offer is always appended |
| RemoteSdps.RemoteSdp.Receive | src/sdp/RemoteSdp.cpp:210-245 | the offer section takes the least closed slot, or is appended |
| RemoteSdps.RemoteSdp.CloseMediaSection | src/sdp/RemoteSdp.cpp:257-276 | the section of a known mid is closed, the first one only disabled; everything else stays |
| RemoteSdps.RemoteSdp.UpdateDtlsRole | src/sdp/RemoteSdp.cpp:110-128 | every section takes the role, and the mirror follows |
| RemoteSdps.RemoteSdp.UpdateIceParameters | src/sdp/RemoteSdp.cpp:90-108 | every section takes the ICE parameters, and the mirror follows; ice-lite is never dropped |
| RemoteSdps.RemoteSdp.GetSdp | src/sdp/RemoteSdp.cpp:278-288 | the version is raised modulo 2^32, and the text, that of the whole list, starts with the version line and the origin line that carries 10000 and the new version |
| RemoteText.SessionIsOk | src/sdp/RemoteSdp.cpp:24-77 | descriptions of well-formed sections meet the hypothesis of the stability theorem |
| RemoteText.DescriptionStable | src/sdp/RemoteSdp.cpp:278-288 | after every run of clean operations the text survives parsing and printing unchanged |
| DescriptionText.DescriptionStarts | src/sdp/RemoteSdp.cpp:24-77 | every description starts with the session part, spelled out with its version, fingerprint and BUNDLE list |
| DescriptionText.VersionInText | src/sdp/RemoteSdp.cpp:278-288 | the k-th text of every run starts with v=0 and an origin line with 10000 and k modulo 2^32 |
| DescriptionText.VersionRead | src/sdp/RemoteSdp.cpp:278-288 | parsing the k-th text of a clean run gives session id 10000 and session version k modulo 2^32 |
| RemoteStates.RolesAre | src/sdp/RemoteSdp.cpp:110-128 | after a role update every answer says the setup of that role and every offer actpass |
| RemoteStates.IceAre | src/sdp/RemoteSdp.cpp:90-108 | after an ICE update every section has the new fragment and password |
| RemoteStates.ShutIs | src/sdp/RemoteSdp.cpp:257-276 | closing makes the section inactive with port 0 unless it is the first, and leaves the others alone |
| OrtcValidation.CheckCodec | src/ortc.cpp:87-172 | checks in order, then kind, channels, parameters and feedback with defaults |
| OrtcValidation.CheckCaps | src/ortc.cpp:39-80 | the first invalid codec or extension is reported; otherwise all are filled in |
| OrtcValidation.CheckRtp | src/ortc.cpp:252-324 | the same for RTP parameters with encodings and rtcp |
| OrtcValidation.CodecIsValid | src/ortc.cpp:105-171 | a codec let through has the kind of its MIME type, channels exactly if that is "audio", and clean parameters |
| OrtcValidation.CapitalKind | src/ortc.cpp:105-135 | AUDIO/opus passes with the kind AUDIO and without channels, whatever channels are given |
| OrtcValidation.StereoNeverSet | src/sdp/Utils.cpp:520-529 | with the sprop-stereo of validated parameters applyCodecParameters sets no stereo, whatever the configuration |
| OrtcValidation.CodecValidates | src/ortc.cpp:331-416 | a codec is let through unchanged exactly if it is valid |
| OrtcValidation.CapsValidate | src/ortc.cpp:39-80 | capabilities are a fixed point of validation exactly if all codecs and extensions are valid |
| OrtcValidation.ValidateTwice | src/ortc.cpp:39-245 | validating twice is validating once |
| OrtcValidation.RtpValidates | src/ortc.cpp:252-546 | valid parameters are let through unchanged |
| OrtcDefaults.CodecDefaults | src/ortc.cpp:87-172 | exactly which codecs are let through, and every member of the result, defaults included |
| OrtcDefaults.CapsDefaults | src/ortc.cpp:39-245 | the same for capabilities; extensions are sendrecv and not encrypted by default |
| OrtcDefaults.RtpDefaults | src/ortc.cpp:252-546 | the same for RTP parameters; no dtx and a reduced size by default |
| OrtcMatching.MatchAgrees | src/ortc.cpp:1619-1709 | a strict match has the same media on both sides and rewrites at most profile-level-id, to the same value; VP9 profiles agree |
| OrtcMatching.MatchExactly | src/ortc.cpp:1619-1709 | exactly which codecs match strictly, and which matches throw |
| OrtcMatching.ReduceRtcpFeedback | src/ortc.cpp:1721-1741 | the search loop keeps the feedback of the first codec that the second has too |
| OrtcMatching.FeedbackIsCommon | src/ortc.cpp:1721-1741 | exactly the common feedback is kept, as often as in the first codec |
| OrtcExtended.PairCodecs | src/ortc.cpp:1004-1041 | the pairing loop with its rewrites of both lists, or a thrown match |
| OrtcExtended.PairRtx | src/ortc.cpp:1046-1073 | the RTX loop sets both RTX payload types where both sides have an RTX codec |
| OrtcExtended.PairExts | src/ortc.cpp:1078-1116 | extensions known to both sides, with the direction seen from this side |
| OrtcExtended.GetExtendedRtpCapabilities | src/ortc.cpp:982-1119 | validation of both sides, then pairing; the first error is reported |
| OrtcExtended.Selection | src/ortc.cpp:1004-1041 | the pairs are an order-preserving selection of the remote codecs that are not RTX, each with its first match at that point; what is left out has no match |
| OrtcExtended.ExtendedSelection | src/ortc.cpp:982-1119 | the same for the finished result, each codec fitting a local codec and not being RTX |
| OrtcExtended.RtxPairing | src/ortc.cpp:1046-1073 | a codec stands for a picked remote codec and its local partner; its RTX payload types are those of the first RTX codecs of these two, or null; both or none are set exactly unless both RTX codecs exist and one of them alone lacks a payload type |
| OrtcExtended.RtxTogether | src/ortc.cpp:1046-1073 | if every RTX codec of both capabilities has a payload type, every extended codec has both RTX payload types or none |
| OrtcExtended.UnnumberedRtx | src/ortc.cpp:1071-1072 | capabilities for which only the remote RTX payload type is set |
| OrtcExtended.ExtendedIsOk | src/ortc.cpp:982-1119 | the result of validated capabilities has valid codecs, none RTX, and RTX payload types only beside payload types |
| OrtcContents.ExtSelection | src/ortc.cpp:1078-1116 | the extended extensions are the remote ones known here, in order, with recvId of the remote one, sendId and encrypt of the first local one of that kind and URI, and sendonly and recvonly exchanged |
| OrtcParameters.GetRecvRtpCapabilities | src/ortc.cpp:1125-1207 | both loops yield codecs with their RTX codecs, and the extensions that can be received |
| OrtcParameters.RecvCapsValidate | src/ortc.cpp:1125-1207 | receiving capabilities validate exactly if every remote codec has a payload type |
| OrtcParameters.RecvClosed | src/Device.cpp:70-85 | over the given capabilities: receiving capabilities validate exactly if every remote codec with a partner has a payload type, and then every RTX entry directly follows the codec its apt stands for |
| OrtcParameters.RecvUsual | src/Device.cpp:70-85 | if remote media codecs have payload types 0 to 255 and remote extensions one of the four directions, validation never fails, changes nothing the second time, and every apt is the payload type just before it |
| OrtcParameters.RtxAdjacent | src/ortc.cpp:1157-1179 | every RTX entry follows a media entry whose payload type modulo 256 is its apt |
| OrtcParameters.AptNamesCodec | src/ortc.cpp:1170-1174 | the apt is that payload type itself exactly for payload types of one byte |
| OrtcContents.RecvContents | src/ortc.cpp:1125-1207 | the validated receiving capabilities: for each codec the local parameters under the remote payload type and its RTX codec; the known remote extensions that are sendrecv or sendonly, under their remote ids |
| OrtcParameters.GetSendingRtpParameters | src/ortc.cpp:1214-1303 | the loop stops behind the first codec of the kind; extensions are those that can be sent |
| OrtcParameters.EraseFeedback | src/ortc.cpp:1411-1420 | the erase loop leaves an order-preserving filter |
| OrtcParameters.WithoutIs | src/ortc.cpp:1453-1467 | the filter keeps exactly the feedback of other kinds, as often as before |
| OrtcParameters.GetSendingRemoteRtpParameters | src/ortc.cpp:1308-1470 | remote parameters with feedback reduced to Transport-CC, else REMB, else neither |
| OrtcParameters.SendingAgrees | src/ortc.cpp:1214-1470 | both builders agree on count, MIME type, payload type, clock rate, channels and extensions; the remote one asks for exactly the local feedback that is not goog-remb where the transport-wide-cc extension is sent, else not transport-cc where abs-send-time is, else neither |
| OrtcContents.SentExts | src/ortc.cpp:1283-1300 | the extensions sent are the known remote ones of the kind that are sendrecv or recvonly, in order, with id and encrypt of the first local one |
| OrtcContents.SendContents | src/ortc.cpp:1229-1281 | the codec sent is the first of the kind, with the local parameters on this side and the remote ones for the other, and its RTX codec |
| OrtcContents.SentFeedback | src/ortc.cpp:1408-1468 | the feedback asked for is that of the local codec filtered by the extensions sent, in order |
| OrtcParameters.CheckCanSend | src/ortc.cpp:1528-1538 | the search finds a codec of the kind |
| OrtcParameters.CanSendBuilds | src/ortc.cpp:1528-1538 | a kind can be sent exactly if each of the two builders yields a codec |
| OrtcParameters.GetReducedCodecs | src/ortc.cpp:1564-1599 | the first codec or the first match, with the RTX codec behind it; otherwise no match, or the null entry behind the last codec, or only null for an empty list |
| OrtcParameters.ReduceAligned | src/ortc.cpp:1564-1599 | aligned lists are reduced to the same positions, or both refused in the same way |
| OrtcParameters.ReducedSending | src/Handler.cpp:193-202 | with no given codec both lists are kept whole exactly if the kind can be sent, with one exactly if it matches the media codec and an RTX codec follows; otherwise both are refused alike |
| OrtcParameters.ReducedFindable | src/Handler.cpp:193-202 | for the two reduced lists the unchecked lookup of the offered codec always finds one, given that the codec sent has a payload type |
| OrtcParameters.SelectedNeedsRtx | src/ortc.cpp:1583-1591 | for every given codec: selected exactly if it matches the media codec and RTX follows, no match exactly if it matches no entry, the null entry is read in all other cases |
| OrtcParameters.OpusAlone | src/ortc.cpp:1583-1591 | Opus alone given Opus, and any codec with RTX given the RTX codec, read the null entry |
| OrtcParameters.LookupSucceeds | src/sdp/MediaSection.cpp:172-180 | for aligned lists the unchecked lookup of the offered codec always finds one |
| OrtcParameters.CheckCanReceive | src/ortc.cpp:1544-1562 | validation, then the search for the first payload type |
| OrtcParameters.CanReceiveKnown | src/ortc.cpp:1544-1562 | valid parameters with a codec can be received exactly if their first payload type is that of a media entry of the receiving capabilities |
| OrtcParameters.GenerateProbatorRtpParameters | src/ortc.cpp:1475-1523 | the first codec, the two bandwidth extensions, and the fixed SSRC, mid and cname |
| OrtcParameters.ProbatorValidates | src/ortc.cpp:1475-1523 | probator parameters of valid parameters with a codec validate, keeping the codec |
| OrtcParameters.ProbatorReceivable | src/ortc.cpp:1475-1562 | they are receivable exactly when the original ones are, exactly if those have a codec |
| OrtcContents.ProbatorContents | src/ortc.cpp:1475-1523 | mid and cname probator, SSRC 1234, the first codec and the two bandwidth extensions |
| HandlerStates.RolesOverRuns | src/Handler.cpp:72-147 | over any attempts, failed ones included: OnConnect returns at most once, then roles are opposite and fixed, and a declared client or server role is the remote one |
| HandlerStates.StepKeepsSetups | src/sdp/MediaSection.cpp:132-140 | answers keep the setup of the current role and offers actpass under every other operation |
| HandlerStates.ReadySetups | src/Handler.cpp:127-147 | once some attempt has succeeded, answers say active exactly if this side is the server, which a declared role other than server, or being the sender, makes it |
| HandlerStates.FreshExactly | src/Handler.cpp:643-659 | an id that is not stored is fresh exactly if no failed call has left it behind |
| HandlerStates.GeneratedIsFresh | src/Handler.cpp:643-652 | the id made from the map size is never stored; it is fresh exactly if no failed call has left it behind |
| HandlerStates.StoredFits | src/Handler.cpp:643-700 | storing the id of the new section keeps the account of ids, which makes the next one fresh |
| HandlerStates.FailedIdIsTaken | src/Handler.cpp:648-659 | after a failure in between, the next generated id is the same and taken; trying it again puts it into the BUNDLE list twice |
| HandlerStates.DataRetryDoubles | src/Handler.cpp:711-768 | a data channel after a failed first one appends a second section whose mid is then twice in the BUNDLE list |
| HandlerStates.StepKeepsLive | src/Handler.cpp:770-785 | every id not stopped keeps an open section, so it can be closed |
| Handlers.Handler.constructor | src/Handler.cpp:61-82 | the forced role is the opposite of a declared one, and everything starts fitting |
| Handlers.Handler.SetupTransport | src/Handler.cpp:127-147 | the remote role is set before the connect, which may fail; readiness only after it |
| Handlers.Handler.AnswersSay | src/sdp/MediaSection.cpp:399-409 | in every valid handler that is ready, every answer says active or passive by the local role |
| Handlers.Handler.Receive | src/Handler.cpp:634-709 | success exactly if every call returns; the offer of the parameters, with the cname and the consumer id as msid, lands in the least closed slot and nothing else changes; the id is stored last, or left behind by a failure; the invariants hold after every failure |
| Handlers.Handler.ReceiveDataChannel | src/Handler.cpp:711-768 | the datachannel section is made once and appended, nothing else changes, and the flag is set only at the end; a failure leaves the section behind |
| Handlers.Handler.StopReceiving | src/Handler.cpp:770-803 | the section of a known id is closed; the id stays in the map |
| SendEncodings.NumberEncodings | src/Handler.cpp:181-188 | the loop names two and more encodings r0, r1, ..., modulo 256 |
| SendEncodings.CollectEncodings | src/Handler.cpp:293-338 | the encodings of the offer, the first completed by a single given one, or the given ones; simulcast codecs get the mode S1T3; an unreadable offer is reported |
| SendEncodings.EncodingsAgree | src/Handler.cpp:181-338 | two and more given encodings are reported in order and have distinct rids exactly up to 256; otherwise count and SSRCs are those of the offer, one for VP9 with spatial layers |
| SendEncodings.EncodingsSpelled | src/Handler.cpp:293-338 | each reported encoding by its SSRCs, rid and mode |
| Handlers.Handler.Send | src/Handler.cpp:170-363 | success exactly if every call returns and the encodings can be read; the section at the index predicted before the set-up is the answer for the role opposite to the local one, and all others are what the set-up made them |
| Handlers.Handler.SendDataChannel | src/Handler.cpp:365-449 | stream ids go round modulo 1024; the application answer is made once and appended |
| Handlers.Handler.StopSending | src/Handler.cpp:451-484 | the section of a known id is closed before the calls that may fail |
| Handlers.Handler.RestartIce | src/Handler.cpp:589-617 | all sections take the ICE parameters; roles and readiness stay; success exactly if the transport is not ready yet or every call returns |

## Left out

- WebRTC itself (peer connection, transceivers, tracks, statistics, certificates): its calls are oracles, and what it returns is a parameter.
- The H264 helpers of WebRTC are uninterpreted functions; the write-back of `profile-level-id` is modelled.
- `extractRtpCapabilities` and `extractDtlsParameters`: field-by-field copies from a parsed session.
- The conversions between floats and texts: a float is its printed text with its whole part, and reading one is a parameter of the parser; texts beyond the range of a float count as numbers.
- Values that are objects where a scalar is printed: the original dumps them as JSON.
- The grammar rules for imageattr and framerate, which nothing here emits; the other rules are in the table even where nothing emits them, but their lines are not spelled out member by member.
- The sctp-port member has no grammar rule, so it is kept in section objects but never printed, as in the original.
- Null and false members of SDP objects, which the code never creates here.
- Partial changes of an argument whose validation throws: validators return the filled-in object or an error.
- Array and object values of codec parameters are represented by booleans: the validators reject both alike.
- SsrcUtils.Cname: gives the empty text for a line whose value is missing or not a string, where the original throws or is undefined.
- ICE, DTLS, SCTP and codec-option validators, and `validateSctpStreamParameters`: type checks field by field.
- `DisableMediaSection` and the branch of `ReplaceMediaSection` for an empty mid: nothing reaches them.
- The JSON of capability codecs passed to `reduceCodecs` is taken as validated. The null its out-of-range read appends to the list given to it is not kept: the callers pass copies that they overwrite (src/Handler.cpp:191-202).
- Handlers.Handler.Receive: not for a retry under a mid a failed call has left behind; `HandlerStates.FailedIdIsTaken` and `RemoteStates.RetryDoubles` say what that does.
- Handlers.Handler.ReceiveDataChannel: not for a retry after a failed first call; `HandlerStates.DataRetryDoubles` says what that does.
- In the handlers: the call of `addLegacySimulcast` for VP9 with spatial layers and the reading of a scalability mode (their results are parameters; `addLegacySimulcast` is modelled on its own), settings of given encodings other than rid and scalability mode, the answer text after `applyCodecParameters` (modelled on its own), and track replacement.
- `mapMidTransceiver` is the set of its keys; the transceivers are foreign objects whose mid is the key.
- `Producer`, `Consumer`, `DataProducer`, `DataConsumer`, `Transport` and `Device` beyond the calls named above; JNI, Java and Objective-C wrappers.
