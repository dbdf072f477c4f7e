# Softwake daemon: a verified model

Softwake is a local voice assistant. Its daemon listens, talks to language and
speech services, and runs tools for an operator. This project models the parts
of it that decide something hard, and proves what they promise.

Three things run through all of it. Where the program changes state in place,
the model is a class whose methods have the same fields and branches, each tied
by its contract to a function of the old state; the lemmas are about that
function. Where the program depends on something outside (a model's answer, an
operator, a socket, a clock, a permission that may change between two steps)
the model takes any answer at all. Where a documented promise turns out not to
hold, the code is kept as it is and a lemma says exactly when the promise holds.

| module | component |
|---|---|
| `Calendar`, `Rfc3339` | day number to civil date, timestamps, the calendar window |
| `EditDistance`, `ReplyLatch` | two edit-distance programs, the reply normaliser, the ambient reply latch |
| `Base64Url`, `Percent`, `Framing` | codecs: base64url, percent-encoding, Content-Length frames |
| `EarlyTts`, `Capture` | stream cutters: sentences out of a growing reply, frames out of samples |
| `ToolLoop` | the chat tool loop |
| `Hands` | the confirmation gate in front of the tools |
| `VoiceWorker`, `VoiceBridge` | the voice-agent worker and the daemon's end of it |
| `Serve` | delivery to connected clients |
| `ModeConfirm` | the sleep / hibernate / fuzzy-wake question |
| `Wrappers`, `Text`, `Decimal`, `Bytes`, `Utf8`, `Clock` | shared: options and results, Rust's string helpers, decimal numerals, UTF-8, logical time |

What an operation computes is stated twice: once as the specification function
its method is tied to, and once, without that function, by lemmas whose names
mostly end in `Exactly`.

Four promises do not hold as written, and are stated exactly:

- The calendar window's `timeMin` sorts below `timeMax` if and only if the two
  years print equally wide (`Rfc3339.WindowIsOrdered`); the first windows that
  fail open in the last days of the year 9999 (`Rfc3339.WindowBreaksExactly`,
  `Rfc3339.WindowBreaksAtYear10000`).
- `clamp_spoken_to_text` is documented as never skipping a new reply. It does
  skip its beginning when the new round's first partial text is already as long
  as the old offset (`EarlyTts.NewRoundIsSpokenWhole`). From a fresh start this
  takes two rounds, the first of which ends in a question
  (`EarlyTts.NewRoundCanLoseItsStart`, `EarlyTts.SecondReplyLosesItsStart`).
- One waiting call at a time is kept by every request but one: an always-allowed
  shell line that looks like an install replaces the waiting call
  (`Hands.WaitingCallIsKept`), which two steps from the start can do
  (`Hands.WaitingCallCanBeLost`).
- A new utterance player is meant never to leave two playing. In every run at
  most one sounds at any time if and only if no step is a started and written
  chunk taken, outside the room route, beside a player that is closed, still plays
  out, and is no longer the remembered one because another thread's took its
  place (`VoiceWorker.OneVoice`, `VoiceWorker.TakeoverLetsTwoSound`). The same
  player is what a barge-in and the room route miss (`VoiceWorker.BargeSilences`,
  `VoiceWorker.RoomIsSilent`).

Time is an integer count of nanoseconds, strings are sequences of Unicode
characters, and byte strings are sequences of integers from 0 to 255. Whatever
64-bit or 32-bit limits matter are written out: the narrowing of the year, the
saturating counters, the parsed content length.

## Model

| member | source | states |
|---|---|---|
| Calendar.CivilRoundTrip | crates/softwake-daemon/src/cloud_tools.rs:571-583 | the date returned is a real Gregorian date whose standard day number is the input if and only if the day lies in the years a 32-bit year can hold, negative days included |
| Calendar.CivilReachesEveryDate | crates/softwake-daemon/src/cloud_tools.rs:571-583 | every real date with a 32-bit year is what the conversion yields for its own day number |
| Calendar.CivilSuccessor | crates/softwake-daemon/src/cloud_tools.rs:571-583 | day n + 1 is the calendar successor of day n, across month ends, leap days, centuries and eras |
| Calendar.WideCivilIsInverse | crates/softwake-daemon/src/cloud_tools.rs:572-581 | before the year is narrowed, every integer day number gives a valid date that maps back to it |
| Calendar.Parts | crates/softwake-daemon/src/cloud_tools.rs:572-577 | era, year of era and day of the March year locate the day: the year starts where the January-based count says, and the day is inside it |
| Calendar.ArithmeticIsExact | crates/softwake-daemon/src/cloud_tools.rs:571-583 | for every 64-bit day number, all intermediate values fit their 64-bit types if and only if the shift to March does, up to 719468 days below the limit |
| Calendar.YearOfEraBrackets | crates/softwake-daemon/src/cloud_tools.rs:575-577 | the division formula yields the one year of the era that contains the day, leap day of the 400th year included |
| Calendar.MarchYearDate | crates/softwake-daemon/src/cloud_tools.rs:577-581 | the 153-day month formula yields the valid date that lies that many days after the first of March |
| Calendar.YearFits | crates/softwake-daemon/src/cloud_tools.rs:582 | the year survives the cast to 32 bits exactly from day -784353015833 to day 784351576776 |
| Calendar.NarrowedYear | crates/softwake-daemon/src/cloud_tools.rs:582 | the cast leaves the date alone exactly on those days |
| Calendar.DayNumberOrders | crates/softwake-daemon/src/cloud_tools.rs:571-583 | calendar order is day-number order, so no two dates share a number |
| Calendar.NextDayCounts | crates/softwake-daemon/src/cloud_tools.rs:571-583 | stepping to the calendar successor counts one day |
| Calendar.EpochIsFirstOfJanuary1970 | crates/softwake-daemon/src/cloud_tools.rs:571-583 | day 0 is 1970-01-01 |
| Rfc3339.TimestampRoundTrip | crates/softwake-daemon/src/cloud_tools.rs:544-562 | the text is 20 characters long, and reads back with every field in range as the second it was printed from, if and only if the second is in a year up to 9999 |
| Rfc3339.ParseOfRender | crates/softwake-daemon/src/cloud_tools.rs:552-561 | a printed date and clock read back as themselves up to the year 9999 and are refused by the reader after it |
| Rfc3339.TimestampOrder | crates/softwake-daemon/src/cloud_tools.rs:544-562 | dictionary order of two timestamps is time order while their years print equally wide |
| Rfc3339.WindowEnd | crates/softwake-connectors/src/calendar_api.rs:29-36 | whatever number of days is asked for, the window is not empty, at most 90 days long, and ends in a year the date routine can hold |
| Rfc3339.WindowIsAsAsked | crates/softwake-daemon/src/cloud_tools.rs:142-148 | the window is as many days as asked for, 7 where none are, 90 at most |
| Rfc3339.KnownTimestamp | crates/softwake-daemon/src/cloud_tools.rs:544-562 | the first second, letter by letter, which any earlier one prints as |
| Rfc3339.WindowIsOrdered | crates/softwake-daemon/src/cloud_tools.rs:142-148 | `timeMin` sorts below `timeMax` if and only if the years of the two ends have equally many digits |
| Rfc3339.WindowInFourDigitYears | crates/softwake-daemon/src/cloud_tools.rs:142-148 | every window that ends by the last second of the year 9999 is in order |
| Rfc3339.WindowBreaksExactly | crates/softwake-daemon/src/cloud_tools.rs:142-148 | a window opened up to the last second of the year 9999 is in order if and only if it also ends by then |
| Rfc3339.WindowBreaksAtYear10000 | crates/softwake-daemon/src/cloud_tools.rs:142-148 | a listing opened on the last second of the year 9999 is out of order |
| EditDistance.EditDistance | crates/softwake-daemon/src/reply_latch.rs:130-151 | the two-row program with swapped rows computes recursive Levenshtein distance |
| EditDistance.EditDistanceForIntent | crates/softwake-daemon/src/mode_intent.rs:290-307 | the variant answers the length gap when it exceeds 1 and Levenshtein distance otherwise |
| EditDistance.EarlyExitIsSafe | crates/softwake-daemon/src/mode_intent.rs:174-177 | the early exit never changes the answer to "is the distance exactly 1", never overstates the distance, and is exact when lengths differ by at most one |
| EditDistance.LevIsFewestEdits | crates/softwake-daemon/src/reply_latch.rs:130-151 | the distance is at most n exactly when a chain of at most n insertions, deletions and replacements of one character leads from one text to the other |
| EditDistance.LevTriangle | crates/softwake-daemon/src/reply_latch.rs:130-151 | the triangle inequality |
| EditDistance.LevSymmetric | crates/softwake-daemon/src/reply_latch.rs:130-151 | the distance is symmetric |
| EditDistance.LevZero | crates/softwake-daemon/src/reply_latch.rs:130-151 | the distance is zero exactly for equal texts |
| EditDistance.LevBounds | crates/softwake-daemon/src/reply_latch.rs:130-151 | the distance is at least the gap of the lengths and at most the longer length |
| ReplyLatch.NormalizeText | crates/softwake-daemon/src/reply_latch.rs:79-93 | the loop with its `last_space` flag computes the specification scan, trimmed |
| ReplyLatch.NormalizeIsWords | crates/softwake-daemon/src/reply_latch.rs:77-93 | normalising keeps exactly the ASCII letters and digits, lower-cased, with one space where whitespace separates two of them |
| ReplyLatch.NormalizeFixpoint | crates/softwake-daemon/src/reply_latch.rs:77-93 | the result is single-spaced ASCII words, such texts are exactly the ones left alone, and normalising twice is normalising once |
| ReplyLatch.NearIdenticalTexts | crates/softwake-daemon/src/reply_latch.rs:95-104 | the program with its prefilter and edit distance decides the near-identical relation |
| ReplyLatch.NearIdenticalExactly | crates/softwake-daemon/src/reply_latch.rs:95-104 | on all texts: near-identical means distance at most 2 and byte lengths at most 2 apart |
| ReplyLatch.PrefilterIsLossless | crates/softwake-daemon/src/reply_latch.rs:95-104 | on ASCII texts the prefilter loses nothing: near-identical exactly when the distance is at most 2 |
| ReplyLatch.NormalizedPrefilterIsLossless | crates/softwake-daemon/src/reply_latch.rs:77-104 | on every pair of normalised replies, which are all the latch compares, near-identical is a distance of at most 2 |
| ReplyLatch.PrefilterLosesWideCharacters | crates/softwake-daemon/src/reply_latch.rs:100-102 | taken alone, beyond ASCII, the function refuses a pair one edit apart; the latch never asks about one |
| ReplyLatch.NearIdenticalLaws | crates/softwake-daemon/src/reply_latch.rs:95-104 | reflexive and symmetric, and two hops are at most four edits apart |
| ReplyLatch.ReplyLatch.Record | crates/softwake-daemon/src/reply_latch.rs:37-54 | the stored entries and the answer are those of the specification step after the same history; with a clock that never runs back, it trips exactly when two earlier replies support it |
| ReplyLatch.ReplyLatch.WouldTrigger | crates/softwake-daemon/src/reply_latch.rs:27-35 | answers, without changing anything, what recording the same reply now would answer, and trips exactly when two earlier replies support it |
| ReplyLatch.ReplyLatch.Clear | crates/softwake-daemon/src/reply_latch.rs:22-25 | forgets the streak |
| ReplyLatch.CountsAgree | crates/softwake-daemon/src/reply_latch.rs:45-63 | counting in the window without pruning equals pruning and then counting |
| ReplyLatch.ShortExactly | crates/softwake-daemon/src/reply_latch.rs:66-75 | a reply counts exactly when 1 to 120 characters of it are left once normalised |
| ReplyLatch.PruningIsInvisible | crates/softwake-daemon/src/reply_latch.rs:39-54 | with a clock that never runs back, the entries still in the window are those of the full, never pruned history |
| ReplyLatch.TripsExactly | crates/softwake-daemon/src/reply_latch.rs:37-54 | the latch trips exactly when two earlier short replies, since the last clear or long or empty reply, are within 90 s and, normalised, at most two edits away |
| Base64Url.EncodeB64Url | crates/softwake-connectors/src/email_send_api.rs:103-123 | the chunked loop computes the specification encoding |
| Base64Url.PushB64Digits | crates/softwake-connectors/src/email_send_api.rs:125-133 | appends the leading six-bit digits of a 24-bit group as symbols of the URL-safe alphabet |
| Base64Url.Base64UrlNoPad | crates/softwake-daemon/src/ctl.rs:530-555 | the other encoder's index loop computes the same text |
| Base64Url.EncodeShape | crates/softwake-connectors/src/email_send_api.rs:103-123 | ceil(4n/3) characters, all of the URL-safe alphabet, so no `=` |
| Base64Url.EncodeExactly | crates/softwake-connectors/src/email_send_api.rs:103-133 | where every bit goes: three bytes make four letters of the alphabet, the highest bits first, two make three and one makes two (section 5 of RFC 4648) |
| Base64Url.DecodeB64Url | crates/softwake-connectors/src/inbox_api.rs:290-336 | the remapping, padding, stripping, chunking decoder and its UTF-8 check compute the specification decoding, refusals included |
| Base64Url.DecodeUndoesEncode | crates/softwake-connectors/src/inbox_api.rs:290-336 | decoding undoes encoding on every byte string, with none, some or all of its `=` padding |
| Base64Url.DecodeTextUndoesEncode | crates/softwake-connectors/src/inbox_api.rs:290-336 | with the UTF-8 check: an encoding decodes to a text if and only if its bytes are that text's UTF-8 |
| Base64Url.WrappedTextDecodes | crates/softwake-connectors/src/inbox_api.rs:296-316 | an encoding with whitespace anywhere in it decodes to its bytes exactly when the whitespace, modulo four, is no more than the `=` it lacks, and is refused otherwise: padding is added before stripping |
| Base64Url.DecodeExactly | crates/softwake-connectors/src/inbox_api.rs:292-302 | remapping, padding and the refused length, before the chunks are cut |
| Base64Url.StripExactly | crates/softwake-connectors/src/inbox_api.rs:314 | what is stripped: the five kinds of ASCII whitespace, wherever they stand |
| Base64Url.ChunksExactly | crates/softwake-connectors/src/inbox_api.rs:313-335 | chunk after chunk of four; one character alone, or a refused chunk, refuses all |
| Base64Url.ChunkExactly | crates/softwake-connectors/src/inbox_api.rs:315-334 | the bytes of every chunk: refused when one of its first two characters is outside the alphabet, shorter when a later one is |
| Utf8.FromUtf8Exactly | crates/softwake-connectors/src/inbox_api.rs:335 | the strict reading accepts exactly the bytes that some text encodes to, surrogates, long forms and broken ends refused, and yields that text (section 4 of RFC 3629) |
| Utf8.LossyKeepsText | crates/softwake-daemon/src/mcp_client.rs:239 | the lossy reading of a text's UTF-8 is the text |
| Utf8.BrokenExactly | crates/softwake-daemon/src/mcp_client.rs:239 | of broken input the longest beginning of some character becomes one replacement character |
| Utf8.KnownEncodings | crates/softwake-connectors/src/inbox_api.rs:335 | one character of each length, byte by byte |
| Base64Url.EncodeIsInjective | crates/softwake-connectors/src/email_send_api.rs:103-123 | no two byte strings share an encoding |
| Percent.EncodeQ | crates/softwake-connectors/src/drive_api.rs:295-310 | the byte loop (the same as `encode_path`) computes the plain encoding |
| Percent.EncodeQuery | crates/softwake-connectors/src/inbox_api.rs:361-377 | the byte loop computes the query encoding, space as `+` |
| Percent.EncodeQSingleQuoted | crates/softwake-connectors/src/drive_api.rs:312-314 | the output holds no quote, is canonical, and reads back by decoding and then un-doubling: no quote of the value can end the quoted string |
| Percent.DecodeUndoesEncode | crates/softwake-connectors/src/inbox_api.rs:361-394 | percent-decoding undoes both forms on every byte string |
| Percent.EncodeIsInjective | crates/softwake-connectors/src/inbox_api.rs:361-394 | distinct inputs never collide |
| Percent.EncodeIsCanonical | crates/softwake-connectors/src/drive_api.rs:295-310 | the output is unreserved characters bare, `+` for a space in the query form only, and upper-case `%HH` for nothing that could have stood bare (sections 2.1 and 2.3 of RFC 3986) |
| Percent.UndoubleUndoesDouble | crates/softwake-connectors/src/drive_api.rs:312-314 | un-doubling quotes undoes doubling them, on every byte string |
| Percent.QuotedReadsBack | crates/softwake-connectors/src/drive_api.rs:312-314 | decoding and then un-doubling gives the bytes back, so no quote in the text can end the quoted string |
| Framing.Pipe.WriteMessage | crates/softwake-daemon/src/mcp_client.rs:206-220 | a header with the decimal body length, a blank line and the body are appended to the pipe; a value that cannot be encoded leaves it alone |
| Framing.Pipe.ReadLineBytes | crates/softwake-daemon/src/mcp_client.rs:272-293 | one byte at a time: the line, or end of file, or a line over 16 KiB; exactly the bytes read are gone |
| Framing.Pipe.ReadBodyBytes | crates/softwake-daemon/src/mcp_client.rs:222-255 | headers, last Content-Length, limit and body as specified, with exactly the bytes each outcome consumes |
| Framing.Pipe.ReadMessage | crates/softwake-daemon/src/mcp_client.rs:222-258 | the same with the decoding of the body, which is consumed whether or not it decodes |
| Framing.HeaderParses | crates/softwake-daemon/src/mcp_client.rs:239-248 | the header line written for a length is read back as that length, decimal digits and trimming included |
| Framing.FrameExactly | crates/softwake-daemon/src/mcp_client.rs:206-218 | what is written for a body, byte by byte |
| Framing.ReadLineExactly | crates/softwake-daemon/src/mcp_client.rs:272-293 | a line ends at the first line feed within 16 KiB, with exactly the bytes up to it consumed |
| Framing.ContentLengthExactly | crates/softwake-daemon/src/mcp_client.rs:239-248 | of several headers the last that names a length decides, even when its number does not parse; none gives none |
| Framing.ReadsAnyMessage | crates/softwake-daemon/src/mcp_client.rs:222-255 | any headers behind either blank line, any body: every outcome, with exactly the bytes it consumes |
| Framing.ParseUsizeExactly | crates/softwake-daemon/src/mcp_client.rs:244 | a number is read with leading zeros and one plus sign, and only when it fits 64 bits |
| Framing.ReadUndoesWrite | crates/softwake-daemon/src/mcp_client.rs:206-258 | reading what was written returns the body and leaves exactly what follows it; a body over 4 MiB is refused with its header consumed and its bytes left |
| Framing.ReadAllUndoesWriteAll | crates/softwake-daemon/src/mcp_client.rs:206-258 | any sequence of bodies of at most 4 MiB comes back in order, and nothing behind them is touched |
| Framing.ValuesComeBack | crates/softwake-daemon/src/mcp_client.rs:206-258 | any sequence of values, each of which JSON writes in at most 4 MiB and reads back, comes back in order, and nothing behind them is touched |
| EarlyTts.NextSpeakableEnd | crates/softwake-daemon/src/early_tts.rs:24-74 | the scanning loops compute the specification cut |
| EarlyTts.AbbrevWord | crates/softwake-daemon/src/early_tts.rs:77-89 | the backward loop decides whether the word before a period is one to three letters |
| EarlyTts.AbbrevExactly | crates/softwake-daemon/src/early_tts.rs:76-89 | a word is an abbreviation exactly when its maximal run of letters has one to three of them |
| EarlyTts.BoundaryExactly | crates/softwake-daemon/src/early_tts.rs:33-62 | on characters alone: a boundary is at least twelve characters in, and `!` or `?` before whitespace or the end, or a period before whitespace, behind no letter or at least four, before a capital or nothing |
| EarlyTts.NextEndExactly | crates/softwake-daemon/src/early_tts.rs:24-74 | the first such mark decides the cut, which takes the whitespace behind it; and there is none where there is no such mark, or while a fresh reply is under 24 characters |
| EarlyTts.FirstEndFound | crates/softwake-daemon/src/early_tts.rs:33-71 | a cut is made behind the first boundary and all whitespace after it |
| EarlyTts.NoFirstEnd | crates/softwake-daemon/src/early_tts.rs:33-73 | no cut is made only where there is no boundary |
| EarlyTts.NextEndAdvances | crates/softwake-daemon/src/early_tts.rs:24-74 | a cut moves forward, stays inside the text, and takes something audible with it; so draining ends |
| EarlyTts.TakeSpeech | crates/softwake-daemon/src/early_tts.rs:112-131 | the draining loop computes the specification drain |
| EarlyTts.LineIsItsSentences | crates/softwake-daemon/src/early_tts.rs:112-131 | what is spoken is the sentences between the cuts, each trimmed, with one space between them |
| EarlyTts.RemainderExactly | crates/softwake-daemon/src/early_tts.rs:133-140 | the remainder is what stands behind the offset, or all of a text shorter than it, trimmed |
| EarlyTts.DrainConserves | crates/softwake-daemon/src/early_tts.rs:112-131 | one drain speaks exactly the non-whitespace characters it passes over, in order, and stops only where nothing is ready |
| EarlyTts.SecondDrainIsEmpty | crates/softwake-daemon/src/early_tts.rs:112-131 | draining the same text again yields nothing and moves nothing |
| EarlyTts.SpeakConserves | crates/softwake-daemon/src/early_tts.rs:100-131 | over any stream of growing texts, from any offset, the offset never goes back and the lines carry exactly the characters passed |
| EarlyTts.SpeechIsComplete | crates/softwake-daemon/src/early_tts.rs:100-140 | early lines and the closing remainder together are everything from the clamped offset on, once each and in order |
| EarlyTts.WholeReplyIsSpoken | crates/softwake-daemon/src/early_tts.rs:100-140 | a reply streamed from offset 0 is spoken whole: nothing lost, repeated or reordered |
| EarlyTts.NewRoundIsSpokenWhole | crates/softwake-daemon/src/early_tts.rs:100-110 | with an old offset still stored, a fresh text is spoken whole if and only if its first partial text is shorter than that offset or blank below it |
| EarlyTts.NewRoundCanLoseItsStart | crates/softwake-daemon/src/early_tts.rs:100-140 | from offset 0: any first round that is one question of 24 characters or more leaves its length behind, and any second round whose first partial text is no shorter, and not blank below it, is not spoken whole |
| EarlyTts.SecondReplyLosesItsStart | crates/softwake-daemon/src/early_tts.rs:100-140 | one such pair of replies |
| EarlyTts.StoredOffsets | crates/softwake-daemon/src/early_tts.rs:112-131 | over any texts, growing or not, the stored offset is 0 or at least 12 |
| EarlyTts.CutsAreLong | crates/softwake-daemon/src/early_tts.rs:36-43 | every cut takes at least 12 characters |
| EarlyTts.InnerCutIsFinal | crates/softwake-daemon/src/early_tts.rs:24-74 | a cut strictly inside a partial text is made at the same place in every longer text |
| EarlyTts.EndCutStays | crates/softwake-daemon/src/early_tts.rs:44-69 | a cut at the very end of a partial text stays there exactly when the text goes on with a solid character behind whitespace, a capital after a period; otherwise it moves later, never earlier |
| EarlyTts.InnerDrainIsFinal | crates/softwake-daemon/src/early_tts.rs:112-131 | a drain that ends inside a partial text commits nothing a longer text would cut otherwise: two drains are one |
| EarlyTts.ChunkingDoesNotMatter | crates/softwake-daemon/src/early_tts.rs:112-131 | over a whole growing stream none of whose partial texts before the last is drained to its very end, what is spoken is what one drain of the last text speaks, wherever the stream was broken |
| Capture.PipeWireCapture.PushSamples | crates/softwake-audio/src/pipewire_native.rs:108-122 | delivered, dropped and queued frames plus the remainder stay the input cut in order; the queue is the newest 100 frames, and one is dropped only behind a full queue; a poisoned lock changes nothing |
| Capture.PipeWireCapture.PollFrame | crates/softwake-audio/src/pipewire_native.rs:319-330 | the oldest frame is delivered once; a stopped capture is emptied instead; a poisoned lock is an error that keeps the queue |
| Capture.PipeWireCapture.ClearQueue | crates/softwake-audio/src/pipewire_native.rs:101-106 | queue and remainder are emptied, unless the lock is poisoned |
| Capture.PipeWireCapture.Start | crates/softwake-audio/src/pipewire_native.rs:266-298 | a second start changes nothing; a first one starts from an emptied queue and leaves exactly what its worker pushed before it reported |
| Capture.PipeWireCapture.Stop | crates/softwake-audio/src/pipewire_native.rs:300-317 | stopping a stopped capture is an error that keeps the queue; otherwise it is stopped and emptied, also when the worker panicked |
| Capture.CutIsExact | crates/softwake-audio/src/pipewire_native.rs:112-121 | every frame has exactly 160 samples, the remainder fewer, and together they are the input |
| Capture.CutInParts | crates/softwake-audio/src/pipewire_native.rs:112-121 | cutting a first part, and then its remainder with a second part, is cutting both at once |
| Capture.PushTwice | crates/softwake-audio/src/pipewire_native.rs:108-122 | two pushes leave the queue and remainder of one push of both |
| Capture.SplittingDoesNotMatter | crates/softwake-audio/src/pipewire_native.rs:108-122 | however samples are split across pushes, queue and remainder depend only on their concatenation |
| Capture.PushKeepsBounds | crates/softwake-audio/src/pipewire_native.rs:113-117 | the queue is the newest 100 of all frames, and fewer than 160 samples are left |
| ToolLoop.RunToolLoop | crates/softwake-daemon/src/tool_loop.rs:97-191 | the loop returns in the first of the six rounds that does not go on, with the result, wire, requests and invocations of the specification run |
| ToolLoop.RunIsItsStory | crates/softwake-daemon/src/tool_loop.rs:107-190 | whatever the environment does, a run is a story of at most six rounds: it starts on the messages given, every round but the last makes calls that are all answered and none waits, and the last ends it as its own turn says: a message is said as it is, an error is that error, a cancel or the sixth round's empty turn or calls give the closing reply, and a waiting call is what is waited for |
| ToolLoop.BlockAnswers | crates/softwake-daemon/src/tool_loop.rs:147-179 | each call's tool message carries exactly the detail or the failure of its own invocation, on its parsed or an MCP tool's raw arguments; that it waits; or that it was skipped, and for which call |
| ToolLoop.InvokedExactly | crates/softwake-daemon/src/tool_loop.rs:243-262 | the invocations of a round are, in order, exactly its calls that can be invoked |
| ToolLoop.NonBlankExactly | crates/softwake-daemon/src/tool_loop.rs:198-212 | what counts as said is a text that is not blank, trimmed |
| ToolLoop.RunCalls | crates/softwake-daemon/src/tool_loop.rs:147-179 | one answer per call; calls are dispatched up to and including the first that waits, and skipped after it |
| ToolLoop.SoftFinalizeReply | crates/softwake-daemon/src/tool_loop.rs:193-240 | the fallback reply: last content, else newest assistant text, else the last three tool texts in order |
| ToolLoop.FirstPending | crates/softwake-daemon/src/tool_loop.rs:148-178 | the first call whose dispatch waits, with none before it waiting |
| ToolLoop.LastRound | crates/softwake-daemon/src/tool_loop.rs:108-190 | there is such a round, every one before it made tool calls of which none waits, and it is unique (`ToolLoop.LastRoundIs`) |
| ToolLoop.InvocationsOfRun | crates/softwake-daemon/src/tool_loop.rs:107-190 | all invocations of a run are made with tools still offered and are settled, but for a last one that waits and ends the run |
| ToolLoop.AtMostSixTurns | crates/softwake-daemon/src/tool_loop.rs:107-190 | whatever the model does, at most six turns are asked for, the sixth without tools, and tools run only in the first five rounds |
| ToolLoop.WaitsExactlyForThePendingCall | crates/softwake-daemon/src/tool_loop.rs:147-186 | nothing is invoked after a result that waits, and the run's result is that very pending call if and only if some invocation waited |
| ToolLoop.EveryCallIsAnswered | crates/softwake-daemon/src/tool_loop.rs:147-179 | however the run ends, each request for tools on the wire is followed by exactly one tool message per call, ids matching, in call order |
| ToolLoop.ClosingReplyOnlyQuotes | crates/softwake-daemon/src/tool_loop.rs:193-240 | the closing reply invents nothing: it is the last content, else the assistant text nothing was said after, else the first 240 characters of each of the newest three tool messages in their order, else a fixed sentence |
| Hands.Gate.RequestTool | crates/softwake-daemon/src/dispatch.rs:463-491 | new state and answer are those of the specification step: voice state, known name, then decision |
| Hands.Gate.ConfirmTool | crates/softwake-daemon/src/dispatch.rs:498-575 | id, name, voice state and permission are checked now, the tool runs, and only then the record goes |
| Hands.Gate.CancelTool | crates/softwake-daemon/src/dispatch.rs:577-632 | id and name are checked, then the record goes, in any voice state |
| Hands.Gate.ClearWaiting | crates/softwake-daemon/src/dispatch.rs:634-649 | drops and logs whatever waits |
| Hands.Gate.RunTool | crates/softwake-daemon/src/dispatch.rs:688-720 | what a request decided safe does at once |
| Hands.Gate.Stage | crates/softwake-daemon/src/dispatch.rs:722-770 | busy while a call waits; otherwise a validated call is stored |
| Hands.Gate.Store | crates/softwake-daemon/src/dispatch.rs:772-795 | the record gets the next id, saturating at 64 bits |
| Hands.Gate.RunShell | crates/softwake-daemon/src/dispatch.rs:797-843 | empty line, install reroute, confirmation or run, in that order |
| Hands.Gate.RunSoftwareInstall | crates/softwake-daemon/src/dispatch.rs:1410-1438 | without an always-allow grant the install is stored, with no question whether another call waits |
| Hands.Gate.ExecuteRegistry | crates/softwake-daemon/src/dispatch.rs:845-862 | what runs depends on the registry's row for the name |
| Hands.Gate.ExecuteConfirmRow | crates/softwake-daemon/src/dispatch.rs:864-937 | the rows with an effect: the sink for `notify`, the outbox for `email_send`, the two effect slots |
| Hands.EffectsAreGated | crates/softwake-daemon/src/dispatch.rs:463-575 | in any state and any world, sink and outbox change only in a step that succeeds, taken while awake, and either decided safe or confirmed by matching id and name and not denied now; and then by one line or one message |
| Hands.RunEffectsAreGated | crates/softwake-daemon/src/dispatch.rs:463-649 | the same in every run, the one line and the one message included, with voice state, permissions and tool answers changing between steps |
| Hands.ToolsAreGated | crates/softwake-daemon/src/dispatch.rs:463-575 | in any state and any world a step hands at most one call to a tool, and only while awake and not denied, by a request decided safe, a shell line that needs no confirming while nothing waits, or a confirm of matching id and name; the call is the step's own, and no shell line reaches an install |
| Hands.RunToolsAreGated | crates/softwake-daemon/src/dispatch.rs:463-649 | the same in every run; and a confirm hands over exactly what an earlier request, awake and not denied, put on record and what has waited untouched since |
| Hands.ExecuteEffects | crates/softwake-daemon/src/dispatch.rs:845-937 | running a tool's row: only `notify` fills the sink, only `email_send` the outbox, only on success, and the waiting record is never touched |
| Hands.RequestEffects | crates/softwake-daemon/src/dispatch.rs:463-491 | a request shows an effect only when awake, decided safe and successful |
| Hands.ConfirmDelivers | crates/softwake-daemon/src/dispatch.rs:498-575 | a confirm with matching id and name, awake and not denied, appends the notification's one line or the email's one message, and the record goes |
| Hands.ConfirmExactly | crates/softwake-daemon/src/dispatch.rs:498-575 | a confirm answers Ok if and only if it matches, awake and not denied, and its tool succeeds on the record's arguments; it answers what the tool said (nothing for a control), the record is gone, one call was handed over, and one line, message or effect slot is set exactly where that tool has one |
| Hands.ExecuteExactly | crates/softwake-daemon/src/dispatch.rs:845-1040 | the same for a tool's row alone: success exactly as the world's answer to its own call, one call handed over, and its mark exactly there |
| Hands.ExecuteFailsAs | crates/softwake-daemon/src/dispatch.rs:845-1040 | which error each failure becomes |
| Hands.RefusalsExactly | crates/softwake-daemon/src/dispatch.rs:498-632 | why a confirm or cancel is refused before anything runs, in the order of the checks |
| Hands.RequestRunsExactly | crates/softwake-daemon/src/dispatch.rs:463-843 | a request answers Ran if and only if it is decided safe, or a shell line that needs no confirming, and its tool succeeds; it names itself and what was said, and one call, its own, was handed over |
| Hands.RequestStagesExactly | crates/softwake-daemon/src/dispatch.rs:722-843 | a request answers Staged if and only if it is of a kind that waits; the record has the next id, the expanded or trimmed arguments and its description, and nothing was handed over |
| Hands.RequestRefusals | crates/softwake-daemon/src/dispatch.rs:463-491 | a request is turned away as forbidden, unknown, denied or busy, in that order |
| Hands.RequestIsNoted | crates/softwake-daemon/src/dispatch.rs:1539-1557 | what the log says of every request: its outcome, risk and detail under the next number |
| Hands.ResolutionIsNoted | crates/softwake-daemon/src/dispatch.rs:498-649 | what the log says of every confirm, cancel and clear |
| Hands.PushCappedKeepsNewest | crates/softwake-daemon/src/dispatch.rs:1525-1557 | the bounded sink and log keep the newest entries |
| Hands.ActsExactlyOnce | crates/softwake-daemon/src/dispatch.rs:463-575 | asked, confirmed and confirmed again, each in another world: the effect of the arguments asked for is there once, after the first confirm |
| Hands.ConfirmRunsWhatWasStaged | crates/softwake-daemon/src/dispatch.rs:463-575 | in every run, a confirm that shows an effect runs the very arguments an earlier request asked for, awake and under a decision to ask first, whose record has waited untouched since; the effect is what today's tools make of them |
| Hands.EffectsOfDifferentCalls | crates/softwake-daemon/src/dispatch.rs:498-575 | in every run, two confirms that show an effect name different ids |
| Hands.StagedEarlier | crates/softwake-daemon/src/dispatch.rs:722-795 | whatever waits was staged by an earlier awake request and has waited ever since |
| Hands.FailureKeepsRecord | crates/softwake-daemon/src/dispatch.rs:498-632 | a confirm or cancel that fails keeps the record; one that succeeds takes exactly the record it named |
| Hands.SecondRequestIsBusy | crates/softwake-daemon/src/dispatch.rs:722-735 | a second call that needs confirming is refused as busy with the first, which stays, and shows no effect |
| Hands.WaitingCallIsKept | crates/softwake-daemon/src/dispatch.rs:797-843 | a request keeps the waiting call if and only if it is not an always-allowed shell line that looks like an install; that one replaces it under the next id |
| Hands.WaitingCallCanBeLost | crates/softwake-daemon/src/dispatch.rs:797-843 | from the start, in two steps: a waiting notification is replaced by an install, and its id can then be neither confirmed nor cancelled |
| Hands.StepKeepsIds | crates/softwake-daemon/src/dispatch.rs:463-649 | every step: ids only grow, a new record takes the next one, otherwise the record stays or goes; a step that resolves a call leaves none waiting |
| Hands.RunKeepsIds | crates/softwake-daemon/src/dispatch.rs:772-795 | in every run the waiting record carries the newest id handed out |
| Hands.CounterGrows | crates/softwake-daemon/src/dispatch.rs:772-795 | between two states of a run the counter never falls, and has grown wherever a call waits again |
| Hands.ResolvedOnce | crates/softwake-daemon/src/dispatch.rs:498-649 | in every run, two steps that resolve a call resolve different ids |
| VoiceWorker.Worker.OnUpload | crates/softwake-daemon/src/voice_agent.rs:436-446 | a failed upload ends the worker: players killed, error and stop posted, session closed |
| VoiceWorker.Worker.OnCommand | crates/softwake-daemon/src/voice_agent.rs:447-465 | cancel, context and room route take the specification step |
| VoiceWorker.Worker.OnStop | crates/softwake-daemon/src/voice_agent.rs:466-479 | a stop or a dropped command channel takes the specification step |
| VoiceWorker.Worker.OnAudio | crates/softwake-daemon/src/voice_agent.rs:488-511 | an audio chunk is dropped and cancelled under the room route, else written and announced once |
| VoiceWorker.Worker.OnSpeechStarted | crates/softwake-daemon/src/voice_agent.rs:523-532 | barge-in takes the specification step |
| VoiceWorker.Worker.OnSpeechStopped | crates/softwake-daemon/src/voice_agent.rs:533-540 | end of the operator's speech takes the specification step |
| VoiceWorker.Worker.OnEvent | crates/softwake-daemon/src/voice_agent.rs:512-553 | transcripts, ends of audio and quiet events take the specification step |
| VoiceWorker.Worker.OnServerError | crates/softwake-daemon/src/voice_agent.rs:541-547 | noise after an idle cancel is only posted, any other error also silences |
| VoiceWorker.Worker.OnSocketClosed | crates/softwake-daemon/src/voice_agent.rs:554-559 | a closed socket takes the specification step |
| VoiceWorker.Worker.Write | crates/softwake-daemon/src/voice_agent.rs:581-608 | opens a player on the first chunk behind an interrupt, writes, and aborts on a failed write |
| VoiceWorker.Worker.Abort | crates/softwake-daemon/src/voice_agent.rs:564-572 | kills the open player and whatever is still remembered |
| VoiceWorker.TurnOfActions | crates/softwake-daemon/src/voice_agent.rs:432-561 | on every turn the server is told to cancel exactly once where the reply is called off and never elsewhere, the session is closed and contexts are sent exactly where they should be, the events posted are exactly the turn's own, in order, and a chunk is written exactly when it gets through |
| VoiceWorker.RunCallsOff | crates/softwake-daemon/src/voice_agent.rs:432-561 | in every run, the next input sends one cancel if and only if it is a cancel, a stop, the room taking over, or the operator speaking over a response, an open player or the room route |
| VoiceWorker.LinesAreKept | crates/softwake-daemon/src/voice_agent.rs:512-522 | in every run, the transcripts posted are, in order, those of the socket events taken up before the return, the assistant's and the operator's never confused |
| VoiceWorker.TurnOfFields | crates/softwake-daemon/src/voice_agent.rs:432-561 | room route, room cancel, active response and return after every turn |
| VoiceWorker.TurnOfPlayersExactly | crates/softwake-daemon/src/voice_agent.rs:432-608 | on every turn the players are aborted, written to, closed or left alone, exactly as the input says |
| VoiceWorker.ChunkExactly | crates/softwake-daemon/src/voice_agent.rs:581-608 | which player is open and remembered after a chunk, in every outcome of starting and writing |
| VoiceWorker.WriteExactly | crates/softwake-voice/src/playback.rs:582-650 | a chunk adds a voice only by opening a player and getting through, and silences the one remembered before |
| VoiceWorker.AbortExactly | crates/softwake-daemon/src/voice_agent.rs:564-572 | an abort kills the open and the remembered player and forgets both |
| VoiceWorker.OutsideExactly | crates/softwake-voice/src/playback.rs:214-343 | what a player's exit, another thread's interrupt and another thread's player do |
| VoiceWorker.ReturnedExactly | crates/softwake-daemon/src/voice_agent.rs:432-561 | the worker has returned exactly when an input ended it |
| VoiceWorker.NoiseExactly | crates/softwake-daemon/src/voice_agent.rs:285-288 | an error is noise exactly when it mentions one of the two phrases, in any case of its ASCII letters |
| VoiceWorker.StepKeepsInvariant | crates/softwake-daemon/src/voice_agent.rs:432-561 | every command, every event and everything other threads do, in any order, keeps the worker's invariant |
| VoiceWorker.RunKeepsInvariant | crates/softwake-daemon/src/voice_agent.rs:432-561 | so does every run from the start |
| VoiceWorker.RoomIsSilent | crates/softwake-daemon/src/voice_agent.rs:432-561 | in every run, while the room route is set there is no open player, no active response, and the next step writes no audio; `room_cancelled` equals `room_route`; and nothing plays out if and only if no player is orphaned |
| VoiceWorker.OneVoice | crates/softwake-daemon/src/voice_agent.rs:497-510 | in every run "audio is playing" was posted exactly once for each player that got a first chunk through; and at most one of the worker's players sounds at every moment if and only if no step is a started and written chunk taken by a running worker, outside the room route, beside an orphan |
| VoiceWorker.AloneIsUndisturbed | crates/softwake-voice/src/playback.rs:214-343 | in any run in which no other thread's player is remembered, though others may interrupt at any time, no player is orphaned and at most one sounds at every moment |
| VoiceWorker.SecondVoice | crates/softwake-daemon/src/voice_agent.rs:581-608 | after any run that leaves at most one player sounding, any next input lets two sound if and only if it is such a chunk |
| VoiceWorker.TakeoverLetsTwoSound | crates/softwake-daemon/src/voice_agent.rs:587-597 | runs in which that happens, a line of transcript coming between |
| VoiceWorker.StepLetsTwoSound | crates/softwake-daemon/src/voice_agent.rs:432-608 | the same for one step from any state with the players' invariant in which at most one sounds |
| VoiceWorker.RunKeepsPlayers | crates/softwake-daemon/src/voice_agent.rs:432-608 | in every run whatever sounds was started, and under the room route it is not the remembered player |
| VoiceWorker.BargeSilences | crates/softwake-daemon/src/voice_agent.rs:523-572 | in every run, the operator's speech, a cancel, the room taking over, a real error or the end of the session leaves nothing audible if and only if all that sounds is the open or the remembered player |
| VoiceWorker.OnlyAudioWritesAudio | crates/softwake-daemon/src/voice_agent.rs:432-561 | no input but an audio chunk outside the room route writes audio |
| VoiceWorker.WriteKeeps | crates/softwake-daemon/src/voice_agent.rs:581-608 | a chunk, with its announcement, keeps the invariant whether starting or writing succeeds or fails |
| VoiceBridge.VoiceAgentBridge.PumpEvents | crates/softwake-daemon/src/voice_agent.rs:190-258 | one drain of the worker's events leaves the fields and the hint of the specification fold |
| VoiceBridge.SpeaksAfterLastStart | crates/softwake-daemon/src/voice_agent.rs:190-258 | after any events the bridge speaks exactly when the last event that matters was "audio is playing" |
| VoiceBridge.UserSpeechStaysApart | crates/softwake-daemon/src/voice_agent.rs:225-230 | what the operator says changes neither the assistant's line nor its flag, the note, the phase or the speech count |
| VoiceBridge.LineGrows | crates/softwake-daemon/src/voice_agent.rs:190-258 | while nothing starts it afresh the assistant's line grows at its end by every piece |
| VoiceBridge.LineSinceStart | crates/softwake-daemon/src/voice_agent.rs:190-258 | after any events the line is what its last fresh start gave, and every piece since, in order |
| VoiceBridge.GatheredExactly | crates/softwake-daemon/src/voice_agent.rs:216-230 | the operator's words are gathered trimmed, in order and but for the blank ones, and barge-ins counted up to 32 bits |
| VoiceBridge.HintExactly | crates/softwake-daemon/src/voice_agent.rs:190-242 | the note, the phase and the speaking flag after each kind of event |
| VoiceBridge.HangupExactly | crates/softwake-daemon/src/voice_agent.rs:244-249 | a closed channel ends the session's hint and keeps what was gathered |
| Serve.Shared.Subscribe | crates/softwake-daemon/src/serve.rs:363-367 | a fresh id joins the end of the list with an empty open channel |
| Serve.Shared.Unsubscribe | crates/softwake-daemon/src/serve.rs:369-371 | that id leaves, the others keep their order |
| Serve.Shared.Broadcast | crates/softwake-daemon/src/serve.rs:373-381 | every subscriber is offered the event once, and exactly the closed ones leave the list |
| Serve.BroadcastIsLocal | crates/softwake-daemon/src/serve.rs:373-381 | what a broadcast does to a client depends on its own subscription and channel only: taken, missed with 32 waiting, or dropped from the list |
| Serve.StepKeepsInvariant | crates/softwake-daemon/src/serve.rs:363-423 | any step of any thread keeps every client's invariant |
| Serve.RunKeepsInvariant | crates/softwake-daemon/src/serve.rs:363-423 | so does every interleaving from the start |
| Serve.OneResponsePerRequest | crates/softwake-daemon/src/serve.rs:384-423 | in every interleaving a client's responses are its requests, one each and in order, short of at most the one in hand; a thread ready to read owes none; what reached the socket is a beginning of that |
| Serve.CausedEventsComeFirst | crates/softwake-daemon/src/serve.rs:582-592 | the events of a request's outcome precede its response in the client's stream, or were missed |
| Serve.FollowUpsComeBehind | crates/softwake-daemon/src/serve.rs:457-479 | the events of the automatic speech that follows a request up come behind its response, and before the next one unless missed |
| Serve.RequestsAreCarriedOut | crates/softwake-daemon/src/serve.rs:457-592 | in every interleaving, each request read is carried out as it asks: once answered it has broadcast exactly the events of its outcome, in order and all before the answer; what followed it up is a beginning of what was to follow, and all of it once the next request is read |
| Serve.PhaseIsAfter | crates/softwake-daemon/src/serve.rs:384-423 | in every interleaving a client is greeting, serving or leaving exactly as the last of its connect, handshake, hang-up and failed answer says |
| Serve.ThreadsAreNeverStuck | crates/softwake-daemon/src/serve.rs:384-423 | in every reachable state the next step of a client's life is open to its thread, and a waiting message to its writer |
| Serve.StepsAreInTurn | crates/softwake-daemon/src/serve.rs:419-592 | no thread acts out of turn: a request is read and a client leaves only when nothing is in hand or still to follow, an answer is tried only when its events are told |
| Serve.PartingIsAtOnce | crates/softwake-daemon/src/serve.rs:369-371 | an unsubscribed client is off the list, and a failed write closes its channel, in the same step |
| Serve.PartingIsForGood | crates/softwake-daemon/src/serve.rs:420-423 | no later step brings anything to the socket of a closed channel, or an event to a client off the list |
| Serve.WriterTakesOldest | crates/softwake-daemon/src/serve.rs:703-716 | the writer takes the oldest message of the queue to the socket |
| Serve.WithoutExactly | crates/softwake-daemon/src/serve.rs:369-371 | leaving the list moves nobody else |
| Serve.ResponseSplitsStream | crates/softwake-daemon/src/serve.rs:582-592 | in every interleaving a response stands in its client's stream at the moment it was given: behind every broadcast since the client subscribed, but for those it missed, and before every later one |
| Serve.OwnStepIsEnabled | crates/softwake-daemon/src/serve.rs:582-592 | no deadlock: while a request is in hand, the client's own thread can move, or its queue is full and its writer can |
| Serve.TodoShrinks | crates/softwake-daemon/src/serve.rs:582-592 | every step of the thread takes one off what is left to do for the request, and no step of anyone else adds to it or touches the request |
| Serve.AnswerIsReachable | crates/softwake-daemon/src/serve.rs:384-423 | from every reachable state with a request in hand, the client's own thread and writer alone reach its answer, or the end of its connection, within two steps for each broadcast left and three more |
| Serve.EveryEventIsOffered | crates/softwake-daemon/src/serve.rs:384-406 | while a client is connected, every broadcast since it subscribed, which is before `hello_ok`, was taken or missed, never both |
| Serve.MissedOnlyWhenFull | crates/softwake-daemon/src/serve.rs:375-380 | an event is missed only in a broadcast that finds the client's open queue holding 32 messages |
| Serve.SharedOrder | crates/softwake-daemon/src/serve.rs:373-381 | in every interleaving two clients see the events they share in the same order |
| Serve.OthersNeverMatter | crates/softwake-daemon/src/serve.rs:373-423 | a step of another thread does to a client what its broadcast does, or nothing, however full or closed others are |
| ModeConfirm.ModeConfirm.Arm | crates/softwake-daemon/src/mode_confirm.rs:50-66 | nothing arms while a confirm waits, even an expired one; a fuzzy arm succeeds exactly when every earlier fuzzy arm is 45 s past |
| ModeConfirm.ModeConfirm.Clear | crates/softwake-daemon/src/mode_confirm.rs:68-71 | the waiting confirm goes, the fuzzy clock stays |
| ModeConfirm.ModeConfirm.FuzzyAllowed | crates/softwake-daemon/src/mode_confirm.rs:85-102 | true exactly when nothing waits and all earlier fuzzy arms, not only the remembered one, are 45 s past |
| ModeConfirm.SpacedAfter | crates/softwake-daemon/src/mode_confirm.rs:55-60 | waiting one cooldown after the last fuzzy arm is waiting long enough after all of them |
| ModeConfirm.FewArmsInSpan | crates/softwake-daemon/src/mode_confirm.rs:51-71 | any span of T seconds holds at most T/45 + 1 fuzzy-wake questions |
| Text.TrimExactly | crates/softwake-daemon/src/early_tts.rs:120 | trimming takes all whitespace off both ends and nothing else |
| Text.WhitespaceExactly | crates/softwake-daemon/src/early_tts.rs:39 | the characters that count as whitespace, by their codes |
| Text.JoinPlaces | crates/softwake-daemon/src/early_tts.rs:129 | every joined item stands whole in its place, with the separator between it and the next |

## Left out

- Rfc3339.FormatRfc3339: is defined for seconds whose year fits 32 bits; the clock's 64-bit milliseconds stay far below that, larger arguments do not occur.
- Calendar.Parts: is exact integer arithmetic; the day numbers for which the program's 64-bit arithmetic is the same are stated by `Calendar.ArithmeticIsExact`, and what it does beyond them (a panic or a wrap, by build) is not modelled.
- JSON itself is a parameter of the MCP pipe: an encoder and a decoder of which nothing is assumed.
- VoiceWorker.OneVoice: another thread's use of the player is two separate events, an interrupt and a takeover of the remembered place; what those threads play is not modelled.
- Serve.EveryEventIsOffered: counts from the subscription; the greeting message itself is the step from greeting to serving, its bytes are not modelled.
- Alphabet and hexadecimal tables are written as character ranges, and shifts and masks as arithmetic.
- Which characters are alphabetic or upper-case is a parameter of the sentence cutter.
- Overflow of `Instant` arithmetic, at the far end of the clock.
- What the tools themselves do (shell, schedule, memory, skills, connectors, MCP calls, the policy engine, the account that sends an email): answers of the environment in `Hands` and `ToolLoop`.
- Notifications that the schedule pushes past the gate (`crates/softwake-daemon/src/runtime.rs`).
- The commands of the runtime, its status cache and thinking text, and the room fan-outs: background broadcasts in `Serve`.
- HTTP, sockets, TLS, OAuth, secrets, the PipeWire session and down-mix, player processes.
- The phrase tables of `mode_intent.rs` and the other text clauses of `is_fuzzy_wake_text`, slash commands, schedule and skill intents: string tables with little to prove.
- Chat compaction, remote-agent leases, announcement queues, Telegram: they rest on code outside these files.
- Levels and tones of audio: floating point.
- Real time: fairness of threads and playback duration.
