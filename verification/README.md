# Verified models of the ZZ9000 driver cores

The AmigaOS drivers for the ZZ9000 card keep the logic that is hard to get
right apart from the operating system: a feed engine shared by two tasks, a
streaming reader for firmware releases, a configuration file that is printed
and parsed, a clock resolver, a capture calibration, three network models, the
firmware push and the launcher's audio ring. This project models those cores in
Dafny and proves what they are for. `dafny verify dfyconfig.toml` checks all of
it.

Code that changes state in place is modelled as classes, arrays and loops, each
method proved against a specification function or a state machine; the
properties are then proved about those, over every run, every way of cutting
the input, or every candidate. Whatever lies outside a core (the card, the
application, the firmware, AHI, the host's files, a callback) is an adversary:
an arbitrary function or an arbitrary enabled step.

| part | modules |
|---|---|
| MHI feed engine | `MhiWorld` (the state machine: feeder, application, transport control, card), `MhiBuffers`, `MhiListProof`, `MhiSessionProof`, `MhiTheorems`, `MhiPlayer` (the decoder object) |
| release reader | `Bytes`, `Words`, `Crc32`, `BlockFold`, `Padding`, `Sha256Spec`, `Sha256`, `Chunked`, `ChunkedCoding`, `ZipNames`, `ZipSpec` (a byte-at-a-time machine), `ZipChecks`, `ZipDelay` (when parsing is put off), `ZipReader` (the reader object), `ZipTheorems`, `ZipRun` |
| configuration | `Decimals`, `ConfigModel`, `ConfigParse`, `ConfigGenerate`, `ConfigTheorems`, `ConfigReload` |
| clock resolver | `PllResolver` |
| capture calibration | `CaptureEye`, `CaptureEdges`, `CapturePattern`, `CaptureFields`, `Bitwise` |
| network | `NetTx`, `NetRx`, `NetMcast` |
| firmware push | `FwupNames`, `FwupTrace` (what the card is told and then holds), `FwupMirror` (how it answers), `FwupBundle`, `FwupInstall` |
| launcher audio | `AhiRing` (a poll, and the world around it), `AhiProof`, `AhiTheorems`, `AhiEpochs`, `AhiLauncher` (the launcher object) |

## Where the code does not do what it is for

The code is modelled as it is. Where a property fails, the exact condition is
proved, and a concrete run or input shows the failure.

- MHI (`mhi/mhizz9000.c:1636-1656`): the feeder rescans the list without looking
  at the status, so a buffer queued by another task between a Stop's list drain
  and its session close is sent to the session being closed. The account of the
  next session is then wrong. `MhiTheorems.FaithfulExactlyWhen` is the exact
  condition, `QueueInWindowIsLost` the run, `SubmittedIsPrefix` the result for
  callers that do not queue inside a Stop.
- Configuration (`common/zzcfg_amiga.c:419-477`): the scan position has 16 bits.
  A text of exactly 65535 characters without a final newline sends it back to 0
  and the scan never ends: `ConfigParse.ScanEndsExactlyWhen` is the exact
  condition, `EndlessText` the input. The card file's own reader passes at most
  8193 bytes (`ZZTop/Core/settings.c:28,69`), so the text cannot come from there.
- Receive (`net/rx.c:76-81`): two serials are discounted on every wrap, although
  the header (`net/rx.h:27-28`) says that firmware before 2.8 does not skip them.
  There a frame is counted right exactly when the serial did not wrap
  (`NetRx.OldFirmwareCounted`, `OldFirmwareWrap`).
- Release reader (`common/fw_release.c:1033-1062`): a local header is parsed
  only on the next feed when at most three of its bytes came before the piece
  that completes it, so the same archive can report an error one feed later.
  `ZipRun.DelayedExactlyWhen` says exactly when a result is held back,
  `CuttingMatters` cuts one header in two ways with two outcomes; what is held
  back is the format error of a bad name length and nothing else.
- Firmware push (`common/fwup_client.c:378-424`): the early returns leave the
  status in the caller's result structure OK while the function returns an
  error. `FwupInstall.ReportExactlyWhen` is the exact condition,
  `MissingBootFile` an input.
- Firmware probe (`common/fwup_client.c:198-211`): the status mirror says that a
  command was completed, not which. A command is sure of its own status exactly
  when nothing was left to complete (`FwupMirror.OwnExactlyWhen`); that holds up
  to the first wait that times out, and a push stops there (`SessionOwn`,
  `BusyEndsPush`), but a probe made while the card still works on such a command
  reads shifted answers (`ProbeMisled`).
- Launcher audio (`ZZRun/zzrun_policy.h:151-155`): a stream published under the
  epoch number the launcher has already accepted, while requests of the old one
  are still out, is charged with the old one's bytes.
  `AhiEpochs.TailStaysExactlyWhen` is the condition for one poll,
  `AccountedExactlyWhen` for whole runs, and `ReusedEpochRun` a run that leaves
  the tail past the head. The other theorems hold for every run without such a
  publication (`NothingCarriedOver`), whatever numbers are reused otherwise.

## Model

| member | source | states |
|---|---|---|
| MhiTheorems.FedIsPrefixOfQueued | mhi/mhizz9000.c:354-458 | In every interleaving of feeder, application, transport control and card: the bytes fed off the list are a prefix of the concatenation of the buffers queued since the last list drain, and the buffers reclaimed followed by those on the list are the queue, in order, each once. |
| MhiTheorems.StatusAgreesWithQueue | mhi/mhizz9000.c:326-346 | In every interleaving: played buffers come first, a played buffer has been handed over whole, and an unfed buffer implies have_unfed and excludes OUT_OF_DATA. |
| MhiTheorems.OvertakenChunkBooksNothing | mhi/mhizz9000.c:440-456 | In every run a FEED whose list was drained while it blocked leaves the player untouched; otherwise exactly its chunk is appended to the fed bytes. |
| MhiTheorems.SkippedCopyIsSafe | mhi/mhizz9000.c:403-415 | Whenever the staging memo lets the copy be skipped for the current list, the staging buffer holds exactly the chunk just picked, even if a freed node address has been reused. |
| MhiTheorems.SubmittedIsPrefix | mhi/mhizz9000.c:354-458 | If no buffer is queued between a Stop's list drain and the end of that Stop: submitted_bytes is the length (mod 2^32) of the fed prefix, the card holds those bytes once each and in order, recorded stream ends are true ends, and a buffer is played only once the card's cursor reached its end or a drain that covers it finished. |
| MhiTheorems.FaithfulExactlyWhen | mhi/mhizz9000.c:1624-1657 | Over runs that end with no Stop in progress: the session account is faithful throughout if and only if no chunk of a new list was booked inside a Stop's window. |
| MhiTheorems.QueueDisciplineSuffices | mhi/mhizz9000.c:1624-1657 | Not calling MHIQueueBuffer between the drain and the end of a Stop rules such bookings out. |
| MhiTheorems.QueueInWindowIsLost | mhi/mhizz9000.c:1636-1656 | A concrete run showing the window is real: a buffer queued inside it is sent to the session Stop then closes, and the next session starts with it already marked as handed over. |
| MhiTheorems.RunKeepsSession | mhi/mhizz9000.c:354-458 | The session invariant holds in every state of a run that books nothing in a Stop's window. |
| MhiTheorems.CloseLosesBooked | mhi/mhizz9000.c:551-592 | Once a chunk has been booked in the window, closing the session makes the account unfaithful. |
| MhiSessionProof.StepKeepsSession | mhi/mhizz9000.c:551-592 | Every step of feeder, drain, application and control keeps the session invariant, except booking inside the window. |
| MhiSessionProof.ConsumedIsPassed | mhi/mhizz9000.c:333-342 | With under 2^31 bytes outstanding the signed 32-bit comparison retires a buffer exactly when the card's true cursor has passed its true end. |
| MhiSessionProof.RetireJustified | mhi/mhizz9000.c:326-346 | Every buffer marked played is justified by the cursor or by a finished drain. |
| MhiBuffers.SignedDistanceDecides | mhi/mhizz9000.c:338-340 | Two counters kept modulo 2^32 compare correctly while less than 2^31 apart. |
| MhiListProof.StepKeepsList | mhi/mhizz9000.c:354-458 | Every step keeps the list invariant: positions, order, counts, flags, the memo and what is in flight. |
| MhiListProof.RunKeepsList | mhi/mhizz9000.c:354-458 | The list invariant holds in every state of every run. |
| MhiListProof.BookKeepsList | mhi/mhizz9000.c:440-456 | The window after an accepted FEED keeps the list invariant and books the chunk exactly if the list is still the one it came from. |
| MhiPlayer.Decoder.CompleteConsumed | mhi/mhizz9000.c:326-346 | The walk leaves the decoder as the state machine has it after retiring (the longest front part of the list that the cursor or a drain covers is marked), and signals exactly if that changed something. |
| MhiPlayer.Decoder.ScanUnfed | mhi/mhizz9000.c:364-394 | The scan window is the state machine's scan step: it returns the first node with bytes left and sets have_unfed to whether there is one. |
| MhiPlayer.Decoder.CutChunk | mhi/mhizz9000.c:396-396 | The chunk cut to the staging buffer is the one the state machine stages next. |
| MhiPlayer.Decoder.BookChunk | mhi/mhizz9000.c:440-455 | The window after an accepted FEED is the state machine's booking step: the chunk is added to its node and to submitted_bytes, or nothing changes if the list generation moved. |
| MhiPlayer.Decoder.DrainBufferList | mhi/mhizz9000.c:1270-1278 | The list is empty, its generation advanced and have_unfed cleared. |
| MhiPlayer.Decoder.QueueBuffer | mhi/mhizz9000.c:1385-1436 | Queueing is the state machine's queue step: the buffer is appended unfed, local drain state is cancelled, and OUT_OF_DATA returns to PLAYING. |
| MhiPlayer.Decoder.GetEmpty | mhi/mhizz9000.c:1442-1470 | Reclaiming is the state machine's reclaim step, and returns the head buffer exactly if it is played. |
| MhiPlayer.Decoder.Stop | mhi/mhizz9000.c:1636-1647 | The whole window of Stop is the state machine's stop step, and says whether a session has to be closed. |
| Crc32.CrcAppends | common/fw_release.c:597-616 | Updating with a and then b equals one update with a followed by b, for the bitwise definition by reflected division. |
| Crc32.LookupDivides | common/fw_release.c:612-614 | One table look-up step equals dividing by eight bits. |
| Crc32.BuildEntry | common/fw_release.c:604-608 | A table entry is its index divided bit by bit. |
| Crc32.BuildTable | common/fw_release.c:602-611 | The table built on first use holds the right entry at every index. |
| Crc32.Update | common/fw_release.c:597-616 | The table-driven update equals the bit-by-bit reflected 0xedb88320 division, for every byte string and starting value. |
| Sha256.Hasher.Update | common/fw_release.c:686-701 | The buffered update appends to the message hashed, however the bytes are cut. |
| Sha256.Hasher.Finish | common/fw_release.c:703-723 | Finishing gives the fold of the block function over the FIPS 180-4 padded message, including when the padding needs an extra block. |
| Sha256.Hasher.Reset | common/fw_release.c:674-684 | Initialising forgets what was hashed before. |
| Padding.PadLong | common/fw_release.c:708-716 | More than 55 trailing bytes: the padding spans two blocks. |
| Padding.PadShort | common/fw_release.c:713-716 | Up to 55 trailing bytes: it fits one. |
| BlockFold.AbsorbAppends | common/fw_release.c:686-701 | Folding whole blocks over a concatenation is folding over the parts. |
| Sha256.Expand | common/fw_release.c:646-656 | The 64-word schedule is filled as section 6.2.2 of FIPS 180-4 defines it. |
| Sha256.HashBlock | common/fw_release.c:623-672 | The eight-variable loop computes the compression function of section 6.2.2 of FIPS 180-4. |
| Sha256.HashPieces | common/fw_release.c:674-723 | Init, one update for every piece and final give the SHA-256 digest of the concatenated pieces, for every message under 2^61 bytes and every way of cutting it. |
| Words.ShiftsRotate | common/fw_release.c:618-621 | The two shifts joined by or are a rotation. |
| Chunked.RunAppends | common/fw_release.c:432-505 | Decoding a concatenation is decoding the parts one after the other. |
| Chunked.HaltedAbsorbs | common/fw_release.c:437-437 | DONE and ERROR are absorbing. |
| Chunked.Decoder.FeedByte | common/fw_release.c:439-500 | Each one-byte state does one step of the byte machine. |
| Chunked.Decoder.FeedPiece | common/fw_release.c:469-477 | A run of chunk data handed over in one piece is that many steps, or a refusal that ends the decoder. |
| Chunked.Decoder.Feed | common/fw_release.c:432-505 | Feeding a piece is running the byte machine over it; what the sink received is always a prefix of the decoded data, and all of it unless the sink refused. |
| ChunkedCoding.DecodesEncoded | common/fw_release.c:432-505 | The decoder inverts chunked coding (section 7.1 of RFC 9112): it is DONE and has delivered exactly the concatenated chunk data, whatever follows. |
| ChunkedCoding.DoneMeansEncoded | common/fw_release.c:432-505 | It is DONE only on inputs that begin with a well-formed chunked message, and delivered that message's data. |
| ChunkedCoding.DoneExactlyWhenEncoded | common/fw_release.c:432-505 | Both directions: DONE if and only if the input begins with a chunked message. |
| ChunkedCoding.DecodePieces | common/fw_release.c:432-505 | An encoded message fed in any pieces to an accepting sink is decoded to its data. |
| ZipNames.ChosenUnderRoot | common/fw_release.c:821-860 | A selected bundle member lies directly under the one root directory, at its destination, and a second BOOT.bin is never selected. |
| ZipSpec.RunAppends | common/fw_release.c:1025-1160 | Reading a concatenation is reading the parts one after the other. |
| ZipSpec.HeaderRuns | common/fw_release.c:1031-1062 | Up to the end of a local header only the bytes collected so far matter. |
| ZipSpec.NameRuns | common/fw_release.c:1063-1081 | Name and extra field are taken byte by byte up to the member's beginning. |
| ZipSpec.SkipRuns | common/fw_release.c:1082-1093 | A skipped member passes over exactly its size. |
| ZipSpec.BodyRuns | common/fw_release.c:1094-1105 | Content arriving in any pieces meets the same checks. |
| ZipSpec.StepSound | common/fw_release.c:1025-1160 | Every byte keeps the machine's own bounds. |
| ZipChecks.VerdictSticks | common/fw_release.c:892-935 | A running check once failed stays failed on any longer content. |
| ZipChecks.ReleaseRules | common/fw_release.c:892-973 | The checks of the release reader are of the kind for which cutting does not matter. |
| ZipReader.Reader.FeedHeader | common/fw_release.c:1031-1062 | Exactly the bytes of one local header are collected; it is parsed at once if four of its bytes were there before, and otherwise, when this piece completes it, on the next feed. |
| ZipReader.Reader.FeedName | common/fw_release.c:1063-1081 | Collecting name and extra field and beginning the member. |
| ZipReader.Reader.BeginEntry | common/fw_release.c:976-1012 | What a member is, and which members are refused, before its data. |
| ZipReader.Reader.Gather | common/fw_release.c:901-930 | The running checks of BOOT.bin and of a module, head buffer and hash included. |
| ZipReader.Reader.GatherModule | common/fw_release.c:909-930 | A module's header is checked when its 128th byte arrives, and only image bytes are hashed. |
| ZipReader.Reader.Output | common/fw_release.c:892-935 | Content is checked, then handed to the sink. |
| ZipReader.Reader.EntryDone | common/fw_release.c:938-973 | CRC, size and target checks at the end of a member, then the next header or the end. |
| ZipReader.Reader.FeedPiece | common/fw_release.c:1094-1105 | A piece of stored content. |
| ZipReader.Reader.Feed | common/fw_release.c:1025-1160 | Unless a callback refuses, feeding a piece refines running the byte machine over it, and leaves a complete header unparsed if and only if the piece is put off; the end is sticky. |
| ZipRun.ReadArchive | common/fw_release.c:725-755 | Unless a callback refuses: the result is the byte machine's over all the bytes, unless the header it depends on is put off; the callbacks were told of exactly the completed members, and have exactly the data so far of a member being read. |
| ZipRun.DelayedExactlyWhen | common/fw_release.c:1031-1062 | A finished machine is reported as more input wanted if and only if the input ends with the last byte of a local header with a bad name length, and at most three of that header's bytes came before the last piece that was not empty. |
| ZipRun.CuttingMatters | common/fw_release.c:1031-1062 | The concrete input: a header with no name, in one piece, gets MORE; cut into 10 and 20 bytes it gets the format error at once. |
| ZipRun.PostponedByLast | common/fw_release.c:1031-1062 | Whether the parsing is put off depends on the last piece that was not empty alone. |
| ZipDelay.HeaderTurned | common/fw_release.c:1031-1062 | One turn of the feed loop over header bytes waits exactly when it ends a header of which at most three bytes were there. |
| ZipDelay.ProgressMore | common/fw_release.c:1027-1062 | Over the turns of one feed: the machine read so far, and whether a header is left waiting. |
| ZipDelay.HeadIsSuffix | common/fw_release.c:1031-1036 | The header bytes collected are the last bytes of the input. |
| ZipTheorems.MemberRuns | common/fw_release.c:976-1105 | An acceptable stored member is read whole and taken (sections 4.3.7 and 4.4 of PKWARE APPNOTE.TXT). |
| ZipTheorems.BundleEnds | common/fw_release.c:1025-1160 | Every bundle is read to its end with exactly its selected members extracted. |
| ZipTheorems.EndsBundle | common/fw_release.c:1025-1160 | Whatever is read to its end is a bundle. |
| ZipTheorems.DoneExactlyWhenBundle | common/fw_release.c:1032-1046 | Both directions: DONE if and only if the input is acceptable stored members with a BOOT.bin among them, then a central directory. |
| ZipTheorems.PassedVerified | common/fw_release.c:938-961 | Passing the reader's checks is having the right size and CRC and, for a module, header, exact length and image digest. |
| ZipTheorems.StepIntact | common/fw_release.c:938-973 | Every byte keeps: all closed members verified, under one root, at most one BOOT.bin. |
| ZipTheorems.ExtractedVerified | common/fw_release.c:862-973 | On every input, every member ever reported complete is verified (a module: valid header, length 128 plus image size, matching CRC, image SHA-256 equal to the header's), at most one is BOOT.bin, and DONE implies it was found. |
| Decimals.ParseNumber | common/zzcfg_amiga.c:177-205 | The bounded decimal scan accepts exactly the numbers up to the bound, without overflow. |
| Decimals.ParseSigned | common/zzcfg_amiga.c:209-221 | The sign, the magnitude scan and the two bounds accept exactly the signed numbers in range. |
| Decimals.NumberReads | common/zzcfg_amiga.c:177-205 | A number's own digits read back as it. |
| Decimals.SignedReads | common/zzcfg_amiga.c:209-221 | A signed value's own text reads back within its range. |
| Decimals.ParseHundredths | include/zz9000_gamma.h:33-63 | The gamma scan computes the hundredths its grammar defines. |
| Decimals.HundredthsReads | include/zz9000_gamma.h:33-63 | Every gamma from 0.20 to 5.00 reads back from its printed text. |
| ConfigModel.ProfileFromLegacy | common/zzcfg_amiga.c:308-322 | The table search for the legacy key trio. |
| ConfigModel.LegacyEquivalent | common/zzcfg_amiga.c:308-335 | A profile the legacy keys can express survives the trip through them; a centred one becomes full_60. |
| ConfigModel.Sanitize | common/zzcfg_amiga.c:348-354 | The result is supported, and a supported profile is kept. |
| ConfigModel.KeyFound | common/zzcfg_amiga.c:489-921 | Every key is found under its own name, |
| ConfigModel.KeyOnly | common/zzcfg_amiga.c:489-921 | and under no other. |
| ConfigModel.FindName | common/zzcfg_amiga.c:390-401 | The chain of comparisons finds the first equal name. |
| ConfigModel.NumReads | common/zzcfg_amiga.c:533-597 | Every value allowed for a numeric key reads back from its printed text, |
| ConfigModel.AcceptAllowed | common/zzcfg_amiga.c:533-597 | and only allowed values are ever accepted. |
| ConfigParse.CheckFirstToken | common/zzcfg_amiga.c:116-128 | The boundary rule for the Fast RAM key. |
| ConfigParse.ScanAdvancesExactlyWhen | common/zzcfg_amiga.c:419-477 | The 16-bit position moves past every line if and only if the text is not 65535 characters without a final newline. |
| ConfigParse.ScanEndsExactlyWhen | common/zzcfg_amiga.c:419-477 | The scan reaches the end of the text if and only if the text is shorter than 65535 characters or ends with a newline. |
| ConfigParse.EndlessText | common/zzcfg_amiga.c:419-477 | The concrete input: over 65535 times one letter the position is 0 again after every round. |
| ConfigParse.ReadNumber | common/zzcfg_amiga.c:533-597 | The chain of scans and range tests computes how the value of a numeric key is read. |
| ConfigParse.FindKey | common/zzcfg_amiga.c:489-921 | The chain of key comparisons, scene keys included, finds the key meant. |
| ConfigParse.SetKey | common/zzcfg_amiga.c:489-921 | The assignment of one key, with the loops of the number scans and of the profile tables. |
| ConfigParse.StepLine | common/zzcfg_amiga.c:426-922 | One line: comment, key, value, extra words, and the assignment. |
| ConfigParse.ParseText | common/zzcfg_amiga.c:417-923 | The scanning loop, with every scan and table search it calls, computes the fold of the line step over the lines. |
| ConfigGenerate.HasAudio | common/zzcfg_amiga.c:925-937 | Whether any audio key is present. |
| ConfigGenerate.AppendScenes | common/zzcfg_amiga.c:961-993 | The scene loops write exactly the masked keys, or fail if they do not fit. |
| ConfigGenerate.SceneTextRenders | common/zzcfg_amiga.c:961-993 | What they write is the lines of the present scene keys in order. |
| ConfigGenerate.AppendAudio | common/zzcfg_amiga.c:939-995 | The audio block, or failure if it does not fit. |
| ConfigGenerate.Generate | common/zzcfg_amiga.c:997-1095 | The whole text, or nothing if it does not fit the buffer, built through the two staging buffers. |
| ConfigGenerate.VideoFits | common/zzcfg_amiga.c:1006-1023 | The video lines never overrun or lose a byte in their staging buffer, |
| ConfigGenerate.FastRamFits | common/zzcfg_amiga.c:1007-1030 | nor does the Fast RAM line. |
| ConfigTheorems.EntryLine | common/zzcfg_amiga.c:445-487 | A generated active line sets exactly its key to its value. |
| ConfigTheorems.CommentLine | common/zzcfg_amiga.c:435-462 | A comment line does nothing. |
| ConfigTheorems.RenderedParse | common/zzcfg_amiga.c:417-923 | Parsing rendered lines is applying them one after the other. |
| ConfigTheorems.RoundTrip | common/zzcfg_amiga.c:417-1095 | Parsing what was generated from any well-formed settings, over any defaults with presence flags clear, restores every present setting, leaves every absent one at its default, and gives the profile back as its legacy equivalent when the legacy trio is written. |
| ConfigTheorems.AlwaysFits | common/zzcfg_amiga.c:1032-1094 | The text is shorter than 8192 bytes for all settings, all eight audio scenes full included. |
| ConfigTheorems.SaveAndLoad | common/zzcfg_amiga.c:997-1095 | Generating and parsing as one procedure restores the settings. |
| ConfigReload.MalformedPoisons | common/zzcfg_amiga.c:440-487 | A line that begins with the Fast RAM key poisons it exactly when it is over-long or not one valid setting. |
| ConfigReload.PoisonSticks | common/zzcfg_amiga.c:604-620 | No later line turns malformed Fast RAM input into a setting. |
| ConfigReload.MalformedNeverEnables | common/zzcfg_amiga.c:440-1030 | A text with a malformed Fast RAM line anywhere in it reads as invalid whatever other lines say, and saving what was read and loading it again leaves Fast RAM as the defaults have it. |
| ConfigReload.ParsedIsWellFormed | common/zzcfg_amiga.c:417-923 | Whatever the text, reading it over settings that can be saved gives settings that can be saved. |
| ConfigReload.ReloadRestores | common/zzcfg_amiga.c:417-1095 | For every text: saving what was loaded from it and loading that brings every present setting back. |
| PllResolver.ClockFitsWord | include/zz_custom_mode.h:60-72 | No frequency overflows its 32-bit word. |
| PllResolver.FastSide | include/zz_custom_mode.h:111-121 | Up to the quotient divider every clock is too fast, the more so the smaller the divider. |
| PllResolver.SlowSide | include/zz_custom_mode.h:111-121 | Above it every clock is too slow, the more so the larger. |
| PllResolver.TwoDividersSuffice | include/zz_custom_mode.h:97-100 | Of all 128 output dividers only the two adjacent to the ideal one can minimise the error. |
| PllResolver.Consider | include/zz_custom_mode.h:118-131 | One candidate keeps the best tuple honest and first among ties. |
| PllResolver.TryDividers | include/zz_custom_mode.h:116-132 | After a feedback pair the best is at least as good as every divider of it. |
| PllResolver.TryMultipliers | include/zz_custom_mode.h:110-133 | After a divider row the best is at least as good as all of it. |
| PllResolver.ResolveClock | include/zz_custom_mode.h:101-141 | Nonzero if and only if some legal tuple lies within requested/200 of a request from 25 to 165 MHz; the tuple is legal, no legal tuple over all dividers 1..128 has smaller error, and ties keep the first pair. |
| CaptureEye.WrapIsCanonical | include/zz9000_capture_calibration.h:140-146 | The wrap is the one phase in range that differs by whole turns. |
| CaptureEye.WrapIsOnCircle | include/zz9000_capture_calibration.h:140-146 | The truncating remainder with its two corrections is reduction onto the circle. |
| CaptureEye.DistanceIsShortest | include/zz9000_capture_calibration.h:148-152 | The distance is the shorter way round. |
| CaptureEye.RunInMaximal | include/zz9000_capture_calibration.h:197-203 | Every circular run of clean bins lies in a maximal one. |
| CaptureEye.RunLength | include/zz9000_capture_calibration.h:202-203 | The inner loop measures the maximal run that starts at a bin. |
| CaptureEye.SelectEye | include/zz9000_capture_calibration.h:183-219 | Fails exactly when no maximal run of three or more bins exists; otherwise returns the best of all maximal runs by length, then nearness of its centre to the entry phase, then lowest start. |
| CaptureEye.EyeIsLongest | include/zz9000_capture_calibration.h:178-182 | That is the longest of all circular runs of clean bins. |
| CaptureEdges.Refine | ZZCapture/ZZCapture.c:888-897 | At most five tests per edge; ends with good and bad adjacent, good measured clean and bad measured dirty. |
| CaptureEdges.RefineOnce | ZZCapture/ZZCapture.c:888-897 | One test halves the bracket and keeps its good end measured clean and its bad end measured dirty. |
| CaptureEdges.Sweep | ZZCapture/ZZCapture.c:859-867 | The mask is what the 64 measurements found. |
| CaptureEdges.LowerBracket | ZZCapture/ZZCapture.c:876-883 | The lower bracket starts with a clean and a dirty end, across the signed wrap too. |
| CaptureEdges.UpperBracket | ZZCapture/ZZCapture.c:884-886 | So does the upper. |
| CaptureEdges.RefineBoth | ZZCapture/ZZCapture.c:887-900 | Both edges refined, at most ten tests. |
| CaptureEdges.LongCheck | ZZCapture/ZZCapture.c:901-908 | The middle of the refined interval is measured once more and passes only if clean. |
| CaptureEdges.MeasureInterval | ZZCapture/ZZCapture.c:876-909 | Refining and the long check together. |
| CaptureEdges.Calibrate | ZZCapture/ZZCapture.c:840-909 | Every outcome is justified by the measurements made: a pass names an interval whose ends were measured clean and their outer neighbours dirty, and a centre measured clean. |
| CapturePattern.Inverse | include/zz9000_capture_calibration.h:271-273 | 13 inverts 197 modulo 256. |
| CapturePattern.PatternInjective | include/zz9000_capture_calibration.h:221-231 | The 256 colours are distinct. |
| CapturePattern.VoteIsMatch | include/zz9000_capture_calibration.h:271-276 | A pixel votes for an origin exactly when it matches the pattern at that origin. |
| CapturePattern.VoteCounts | include/zz9000_capture_calibration.h:271-276 | The vote counts are the match counts. |
| CapturePattern.TiesAreMinimisers | include/zz9000_capture_calibration.h:277-283 | The tied bests are the origins of fewest mismatches. |
| CapturePattern.AnalyzeRow | include/zz9000_capture_calibration.h:263-292 | residual_pixels is the minimum mismatch over all 256 origins, ties the number of minimisers, an origin is reported exactly when it is unique; bit_mask then has exactly the bits in which some pixel differs there and residual_bits counts all differing bits, none exactly when no pixel mismatches. |
| CapturePattern.CountBits | include/zz9000_capture_calibration.h:287-291 | The last loop counts the differing bits and collects their positions. |
| Bitwise.CountOnes | include/zz9000_capture_calibration.h:290-290 | Clearing the lowest set bit until none is left counts the set bits. |
| CapturePattern.FindOrigin | include/zz9000_capture_calibration.h:236-238 | The pen of the first pixel, if it is a pattern colour. |
| CapturePattern.PatternErrors | include/zz9000_capture_calibration.h:233-243 | Zero if and only if the whole capture is the pattern at some origin; otherwise the mismatch count at the origin the first pixel names. |
| CapturePattern.CapturePaletteHasRedOnTop | include/zz9000_capture_calibration.h:227-230 | The capture palette carries its red value in the top byte. |
| CaptureFields.StallRefutes | ZZCapture/ZZCapture.c:347-352 | A no-progress deadline that passes shows the field does not recur, |
| CaptureFields.NoStallRecurs | ZZCapture/ZZCapture.c:347-352 | and without one the field recurs until its quota is met. |
| CaptureFields.TimeLeft | ZZCapture/ZZCapture.c:293-297 | While a needed field is incomplete and in time, captures are left. |
| CaptureFields.CleanMeans | ZZCapture/ZZCapture.c:319-328 | A clean score means every capture was right and all captures of one field were equal. |
| CaptureFields.RunLoop | ZZCapture/ZZCapture.c:309-365 | The loop ends by the quotas, by a deadline or by a snapshot that fails, each exactly when it is due, never by running out of captures. |
| CaptureFields.MeasurePhase | ZZCapture/ZZCapture.c:289-366 | For every order of field parities and every pattern of failing snapshots: success if and only if the phase was set, the two discarded snapshots succeed, each needed parity recurs within field_limit captures until its quota is met, and no snapshot until then fails; progressive mode takes exactly count+1 captures. |
| FwupNames.NameValidExactly | common/fwup_client.c:67-80 | A name is valid exactly if it is flat or names a module file in ZZ9K/, the only place a slash can occur. |
| FwupNames.BeforeTransitive | common/fwup_client.c:289-290 | strcmp order is transitive, |
| FwupNames.BeforeTotal | common/fwup_client.c:289-290 | total and asymmetric. |
| FwupNames.InsertAscends | common/fwup_client.c:289-293 | Inserting keeps the list ascending and adds exactly the entry. |
| FwupNames.CollectedExactly | common/fwup_client.c:272-295 | A directory is accepted exactly when all its .ZZM names are valid and at most 128; the list is then a sorted permutation of them. |
| FwupNames.Modules.Shift | common/fwup_client.c:289-293 | The shifting loop inserts in place. |
| FwupNames.Modules.OpenGap | common/fwup_client.c:289-292 | Everything greater than the new name moves up by one, and the gap is at its place. |
| FwupNames.Modules.Collect | common/fwup_client.c:272-295 | One visit: ignored, refused with its status, or inserted. |
| FwupTrace.SentIsStored | common/fwup_client.c:323-358 | Replayed by the card, a whole transfer stores exactly its source under its target and changes no other file. |
| FwupTrace.CutStores | common/fwup_client.c:323-358 | Wherever a transfer is cut, its file is stored, and whole, exactly if its Close has taken effect, and nothing else changes; a failed transfer's Close takes effect only if the wait for it timed out. |
| FwupTrace.SegmentsStored | common/fwup_client.c:407-425 | Whole transfers in order store their files in order. |
| FwupTrace.BootOpensBehind | common/fwup_client.c:407-425 | BOOT.bin is opened only behind every module's complete transfer. |
| FwupTrace.BootOpensOnModules | common/fwup_client.c:407-425 | When it is opened the card holds every module with exactly its source's bytes and nothing else has changed, whatever the card answers. |
| FwupTrace.FailedModuleStops | common/fwup_client.c:416-424 | A module failure means BOOT.bin is never opened; the card holds what was sent before, and the failed module only if its Close timed out and took effect all the same. |
| FwupTrace.SuccessIsInstalled | common/fwup_client.c:425-429 | Success is reported exactly when BOOT.bin was transferred whole behind all modules, and then the card holds all of them. |
| FwupTrace.BootChangesLast | common/fwup_client.c:360-429 | Wherever the command sequence is cut, the card's BOOT.bin is the old one until a Close of it takes effect, answered OK or timed out; from then on the card holds it and every module. |
| FwupBundle.Card.Run | common/fwup_client.c:178-189 | A command is issued once and answered once; a timed-out wait is one of the answers, and then the card may or may not carry the command out. |
| FwupMirror.CompletedExactly | common/fwup_client.c:138-142 | With fewer than 256 commands out, the sequence test sees exactly whether one of them was completed, before the first completion and across the wrap too. |
| FwupMirror.PollMirror | common/fwup_client.c:144-163 | The two polling loops answer the status of the last command completed at the first read that shows a change, and BUSY exactly if no read does. |
| FwupMirror.PollStatus | common/fwup_client.c:113-132 | Without a mirror: the first status that is not BUSY within the limit. |
| FwupMirror.OwnExactlyWhen | common/fwup_client.c:178-189 | A command is sure to be answered with its own status if and only if every earlier one was completed when it was issued. |
| FwupMirror.SessionOwn | common/fwup_client.c:178-189 | On a card with nothing to do at first, and as long as no wait has timed out, every command is answered with its own status. |
| FwupMirror.BusyEndsPush | common/fwup_client.c:323-358 | In a push only an Abort, whose answer is not looked at, follows a wait that timed out; so every status a push acts on is the command's own. |
| FwupMirror.Probe | common/fwup_client.c:198-211 | The probe says yes exactly if its Abort is answered and its Write answered with one of the two refusals. |
| FwupMirror.ProbeTells | common/fwup_client.c:198-211 | On a card with nothing left to do that is its own refusal, when both answers come in time. |
| FwupMirror.ProbeMisled | common/fwup_client.c:198-211 | The concrete run: on a card still at work on a command whose wait timed out, the Write is answered with the Abort's status, and a card that refuses it in time is taken for one without the protocol. |
| FwupBundle.Card.OpenFile | common/fwup_client.c:213-217 | An invalid name is refused without a command. |
| FwupBundle.Card.WriteChunk | common/fwup_client.c:219-227 | The bytes sent are those in the card's buffer; a bad length is refused without a command. |
| FwupBundle.File.Read | common/fwup_client.c:338-343 | A read overwrites the buffer with the next bytes of the source, zero only at its end. |
| FwupBundle.Pump | common/fwup_client.c:337-351 | The loop writes consecutive chunks of 1 to 16384 bytes that make up the source, or stops at the first fault. |
| FwupBundle.SendFile | common/fwup_client.c:323-358 | A file is either sent whole (opened, every byte once and in order, closed) or failed (nothing sent, not opened, or aborted); with nothing going wrong it is sent. |
| FwupInstall.MakeModuleDir | common/fwup_client.c:297-311 | The sibling directory, unless the path is too long. |
| FwupInstall.ListDir | common/fwup_client.c:391-394 | Visiting the directory collects it, and fails on a refusal or a broken scan. |
| FwupInstall.TotalFits | common/fwup_client.c:395-399 | The 32-bit size check refuses exactly the totals that would overflow. |
| FwupInstall.PlanIsSorted | common/fwup_client.c:389-399 | What is planned is the valid module files, ascending, at most 128. |
| FwupInstall.JobsNameModules | common/fwup_client.c:412-414 | No module target is BOOT.bin and every one is a valid name. |
| FwupInstall.PushModules | common/fwup_client.c:407-424 | Modules are sent whole in order up to the first that fails. |
| FwupInstall.PushAll | common/fwup_client.c:407-429 | Then BOOT.bin, only if all of them were. |
| FwupInstall.Install | common/fwup_client.c:360-429 | A refused plan sends nothing; otherwise the command sequence is whole transfers of the planned modules in ascending order, then one more attempt; with nothing going wrong it succeeds. The status in the report is the one returned exactly when the plan was not refused and no path was too long. |
| FwupInstall.ReportExactlyWhen | common/fwup_client.c:378-429 | The result structure carries the returned status if and only if something was attempted: the plan was not refused, and no module's path was too long. |
| FwupInstall.MissingBootFile | common/fwup_client.c:378-383 | The concrete input: with no boot file the function fails and its result structure says OK. |
| FwupInstall.InstallOnCard | common/fwup_client.c:360-429 | End to end: success means the card holds every planned module and BOOT.bin as their sources are and nothing else changed; and wherever the command sequence is cut, BOOT.bin is the old one until a Close of it takes effect, the last command of a successful run or one whose wait timed out, and then everything is in place. |
| AhiTheorems.HandedIsStream | ZZRun/ZZRun.c:2359-2453 | In every run of application, firmware, AHI and launcher that publishes no stream under the accepted number over requests still out: the buffers handed over for the current stream, joined and swapped back, are its first bytes, each once and in order, in whole frames; the published tail plus what is in flight equals them; the tail never passes the head. |
| AhiTheorems.InFlightIsIntact | ZZRun/ZZRun.c:2332-2357 | A request in flight still holds one submitted buffer unchanged, and no two hold the same one. |
| AhiTheorems.OldRequestsAreDropped | ZZRun/ZZRun.c:2383-2394 | Completions of a replaced stream never move the new stream's tail. |
| AhiEpochs.TailStaysExactlyWhen | ZZRun/zzrun_policy.h:151-155 | For every driver state, the first poll of a stream just published leaves its tail alone if and only if its number is seen to be new or no request of an older one has come back. |
| AhiEpochs.AccountedExactlyWhen | ZZRun/zzrun_policy.h:151-155 | Over all runs from the beginning: every stream's account holds throughout if and only if no stream is published, under the number the launcher has already accepted, while requests are still out. |
| AhiEpochs.CarriedIsCharged | ZZRun/ZZRun.c:2383-2411 | Publishing over requests that are still out breaks the account at once. |
| AhiEpochs.ReusedEpochRun | ZZRun/zzrun_policy.h:151-155 | The concrete run, from the beginning: its last poll leaves the tail of an empty stream four bytes past its head. |
| AhiEpochs.FreshIsTuned | ZZRun/ZZRun.c:2383-2404 | If no number is ever reused, every accepted stream is played at its own rate and channels. |
| AhiTheorems.ServiceDelivers | ZZRun/ZZRun.c:2415-2452 | A poll hands over a buffer unless less than a frame waits, both requests are out, or the rate played at is below fifty: the ring never stalls at its end. |
| AhiTheorems.ServiceRate | ZZRun/ZZRun.c:2383-2404 | The rate played at is the stream's own, unless the launcher took it for one already accepted. |
| AhiTheorems.StepKeeps | ZZRun/ZZRun.c:2359-2453 | Every step keeps the account. |
| AhiTheorems.RunKeeps | ZZRun/ZZRun.c:2359-2453 | So does every run. |
| AhiTheorems.RefillIs | ZZRun/ZZRun.c:2413-2452 | What a refill takes is the next bytes of the stream, or nothing. |
| AhiTheorems.CollectCounts | ZZRun/ZZRun.c:2407-2411 | Collecting moves bytes from in flight to released; their sum stays. |
| AhiTheorems.JoinKeeps | ZZRun/ZZRun.c:2383-2404 | Entering a stream starts its account at zero. |
| AhiProof.ReapCounts | ZZRun/ZZRun.c:2309-2330 | Whatever the order in which requests return, the tail advances by exactly what they carried. |
| AhiProof.NextSlice | ZZRun/ZZRun.c:2421-2450 | What stands in the ring behind the staged position is the next of the stream, within the ring's end. |
| AhiProof.FillHolds | ZZRun/ZZRun.c:2413-2422 | The application's writes leave every byte not yet released in place. |
| AhiProof.SwapTwice | ZZRun/ZZRun.c:2446-2451 | Swapping is its own inverse. |
| AhiRing.Amount | ZZRun/ZZRun.c:2421-2430 | How much is taken: whole frames, within the available, the contiguous, the fiftieth of a second and the buffer; nothing exactly if one of them is less than a frame. |
| AhiRing.Poll | ZZRun/ZZRun.c:2359-2453 | A poll keeps the launcher's state well formed. |
| AhiLauncher.Launcher.AbortPending | ZZRun/ZZRun.c:2206-2223 | All requests idle, the port empty. |
| AhiLauncher.Launcher.CloseDevice | ZZRun/ZZRun.c:2225-2256 | The device closed and the stream forgotten. |
| AhiLauncher.Launcher.OpenDevice | ZZRun/ZZRun.c:2258-2296 | Opens only two channels with a rate, if AHI lets it. |
| AhiLauncher.Launcher.Collect | ZZRun/ZZRun.c:2309-2330 | The two nested loops compute the collected slots, tail and flag. |
| AhiLauncher.Launcher.Retire | ZZRun/ZZRun.c:2318-2323 | A returned request is idle again, and no other changes. |
| AhiLauncher.Launcher.FreeSlot | ZZRun/ZZRun.c:2298-2307 | The first idle request, or none. |
| AhiLauncher.Launcher.Send | ZZRun/ZZRun.c:2443-2452 | The copy loop leaves the swapped slice in the request's buffer and marks it pending with that many bytes. |
| AhiLauncher.Launcher.RefillNext | ZZRun/ZZRun.c:2413-2452 | The last part of a poll refines its specification. |
| AhiLauncher.Launcher.ServeStream | ZZRun/ZZRun.c:2403-2452 | The tail is published exactly if something was collected. |
| AhiLauncher.Launcher.Join | ZZRun/ZZRun.c:2383-2402 | Dropping a replaced stream, opening the device, accepting the epoch. |
| AhiLauncher.Launcher.Service | ZZRun/ZZRun.c:2359-2453 | A whole poll on the shared window equals Poll of the values before it. |
| AhiLauncher.NoneReturned | ZZRun/ZZRun.c:2407-2411 | Without a completion the tail and the slots are as before. |
| NetMcast.HashIsPieces | net/mcast.c:7-17 | The hash is the exclusive or of the eight 6-bit pieces of the 48-bit address, and below 64. |
| NetMcast.RefsMember | net/mcast.c:56-66 | An address has references exactly if it is a member. |
| NetMcast.BucketsUpdate | net/mcast.c:85-95 | Which buckets are in use after one entry changes. |
| NetMcast.EntryChanges | net/mcast.c:114-150 | Every change keeps addresses distinct, each refcount equal to successful joins minus leaves, and the live count exact. |
| NetMcast.JoinFilters | net/mcast.c:125-135 | After a join the card's buckets are again the hashes of the live groups. |
| NetMcast.LeaveFilters | net/mcast.c:141-149 | So they are after a last leave. |
| NetMcast.Membership.constructor | net/mcast.c:153-158 | A reset table and card satisfy the invariant. |
| NetMcast.Membership.Lookup | net/mcast.c:104-112 | The live entry of the address, or the first free one. |
| NetMcast.Membership.CheckBucket | net/mcast.c:85-95 | Whether a live group hashes to the bucket. |
| NetMcast.Membership.Join | net/mcast.c:114-137 | A join keeps the invariant and says exactly when it fails and that failing changes nothing. |
| NetMcast.Membership.Leave | net/mcast.c:139-150 | So does a leave. |
| NetMcast.Membership.Delivered | net/mcast.c:68-83 | A group frame passes the filter and is selected exactly when its group has more joins than leaves. |
| NetTx.WordReads | net/tx.c:35-40 | The command word reads back as the slot and length meant. |
| NetTx.WrappedDifference | net/tx.c:14-15 | The 15-bit difference of two counters less than a range apart is their distance. |
| NetTx.StepKeeps | net/tx.c:4-46 | Retiring, looking and sending keep inuse equal to submissions minus retirements last observed. |
| NetTx.RunKeeps | net/tx.c:4-46 | So does every run. |
| NetTx.SlotIsFree | net/tx.c:28-33 | In every run the slot handed out is not owned by the card; none is handed out exactly when four are outstanding as last observed. |
| NetTx.Driver.ReclaimSlots | net/tx.c:12-26 | Reclaiming frees what the status says retired, capped by what is outstanding. |
| NetTx.Driver.Submitted | net/tx.c:42-46 | After a slot was handed out, submitting passes exactly that slot to the card, which did not own it before, and keeps inuse exact. |
| NetTx.Driver.Drain | net/tx.c:48-57 | Success is returned exactly when nothing is in use, and then every submission has retired. |
| NetRx.GapIsDistance | net/rx.c:76-81 | Two serials g frames apart read as a gap of g across the wrap that skips 0 and 1. |
| NetRx.GapCounted | net/rx.c:76-89 | A frame is counted right if and only if at most 127 were lost before it; beyond, it is bad data. |
| NetRx.OldFirmwareCounted | net/rx.c:79-84 | On firmware that does not skip serials, counted right if and only if the serial did not wrap. |
| NetRx.OldFirmwareWrap | net/rx.c:79-84 | The counterexample: 0xffff to 0 with nothing lost is bad data. |
| NetRx.NoFrameUncounted | net/rx.c:26-90 | Over every restart-free run with at most 127 lost between presented frames, with stale headers found again, waiting frames that replace them between the two reads and firmware without a ready count included: delivered plus overruns is the serials issued since the first delivered frame, and bad_data stays 0. |
| NetRx.RunAccounts | net/rx.c:26-90 | The account holds after every event. |
| NetRx.Framer.NextFrame | net/rx.c:26-90 | The decision with its state update, case by case. |
| NetRx.HeaderSplit | net/rx.c:11-19 | Serial first gives an empty slot or the frame's own header, if serial 0 never names a frame. |
| NetRx.SplitNeedsBoth | net/rx.h:71-90 | Why each order is unsafe on the other firmware. |
| NetRx.BudgetKept | net/rx.c:92-108 | The framer sleeps at its own priority and never handles 64 frames in a row there without yielding or sleeping. |


## Left out

AmigaOS, register access, interrupts, memory allocation, user interface,
diagnostics, network transport, installer and start-up code are not modelled;
their results are parameters or steps of the environment. Members that would
only add easy properties are left out too: aperture tables, live-crop packing,
the gamma slider, variant names, version comparison, error strings.

- MhiTheorems.SubmittedIsPrefix: assumes no buffer is queued inside a Stop, because the property is false there; `FaithfulExactlyWhen` has the condition.
- MHI: one control task issues Play, Pause and Stop, so transport_gen is not modelled; list_gen is an unbounded number; the zero-length end-of-stream extension, terminal mailbox errors and the AHI ownership handshake are not part of this model.
- MHI: the mailbox, the shared memory and the decoder on the card appear only through their replies: accepted, backpressure, consumed cursor and drained.
- ZipReader.Reader.Feed: stored members only; deflated members and data descriptors put the model into an absorbing state, because the inflater is not part of this model.
- ZipTheorems.BundleEnds: bundles of stored members only, for the same reason.
- ZipTheorems.EndsBundle: of what is read to its end without inflating.
- ZipTheorems.DoneExactlyWhenBundle: a bundle with a deflated member, which the source also accepts, is not DONE here.
- ZipTheorems.ExtractedVerified: says nothing past the first deflated member.
- ZipRun.ReadArchive: of a member that fails its checks the callbacks may have been handed a part; how much depends on the cutting and is not stated.
- ZipReader.Reader.Feed: says nothing about the state after a callback refuses, except that the end is then final; which callbacks refuse is an arbitrary function of what they were told.
- ZipReader.Reader.Output: the 40-byte and 128-byte head buffers are prefixes of the content gathered so far.
- Release reader: the HTTP head, the JSON scan, the version tags and the URL split are not modelled.
- Sha256.Hasher.Update: the bit counter is kept modulo 2^64, and the digest theorem is stated below 2^61 bytes, where it does not wrap.
- ConfigParse.ParseText: defined for exactly the texts on which the original terminates (`ScanEndsExactlyWhen`).
- ConfigGenerate.Generate: the formatting of snprintf is not modelled; texts are concatenated, and cut where a staging buffer ends.
- Configuration: reading and writing the file on the card and the gadget helpers are not modelled, nor the lookups from a profile to its output and refresh.
- PllResolver.ResolveClock: a mode's geometry checks are not modelled.
- CaptureFields.MeasurePhase: the record of the first failure, the sequence statistics and the waits between fields are not modelled; captures and their failures are arbitrary sequences.
- CaptureFields.RunLoop: likewise without that record.
- CaptureEdges.Calibrate: restoring the entry phase and printing are not modelled.
- NetTx.SlotIsFree: a driver reset while submissions are outstanding is not modelled.
- NetRx.NoFrameUncounted: restarts that reuse a serial are excluded, since `net/rx.h:98-102` documents that the slot cannot tell them apart; so are torn headers and gaps of more than 127 frames, which are bad data.
- NetMcast.Membership.Join: whether the card can filter is constant while the driver runs; the status labels of SANA-II are names.
- FwupBundle.Card.Run: one answer per command, the outcome of the wait that `FwupMirror` models; the ticks of quiet before legacy polling are not modelled, and a command whose wait timed out takes effect at once or never.
- FwupMirror.Probe: with a mirror; what `PollStatus` reads without one is an arbitrary register.
- FwupBundle.Card.OpenFile: the name staged in the card's buffer is an argument of the command.
- FwupInstall.Install: progress calls and the restore command are not modelled; a host path names the same bytes throughout a run.
- AhiTheorems.HandedIsStream: each poll is one step, the ring size is a multiple of 4 dividing 2^32, and the route and rate are fixed within a stream.
- AhiLauncher.Launcher.OpenDevice: message ports, requests and buffers are there from the start; only whether AHI opens is modelled.
- AhiRing.Poll: the launcher's status line and stop request when AHI does not open are not modelled.
