# logd: log parser, log record and HTTP client

A Dafny model of the three parts of logd that carry its logic, with proofs about every input or every run.

**The log parser** (`logging/parse.go`) is a machine of seventeen states that scans a buffer rune by rune with two
cursors. A chunk is appended to the text kept from before, and that text is scanned *again* from the start of the open
token, in the state and with the half-built log that were left behind. `Parser.dfy` is the class with its cursors and
its loop. It is proved (by `Cursors.dfy`, which says what moving a cursor means) against `ParserSpec.dfy`, the same machine
with the open token's text in place of cursors and with a `Panic` outcome where the code would slice or index out of range.
`Pipeline.dfy` says what a caller of the class gets. The theorems are about that machine:

- `ParserSafety.dfy`: no one-shot parse of any bytes panics, and a run of chunks panics exactly under a stated condition;
  every newline gives one log under every chunking; parsing whole lines is a homomorphism.
- `ParserChunks.dfy`: feeding chunks equals parsing at once, with the exact condition (`Sync`) for ASCII streams, stated on
  the logs that a caller gets.
- `ParserSpans.dfy`: for every text of any bytes the index ranges that the parser takes are disjoint, in reading order and
  inside the line of their log.
- `ParserRules.dfy`: the double-key rule, the two spellings of the call type, and a text on which chunking panics.
- `LineForms.dfy`: which lines are read into which fields, for every form of header (each field with or without an opening
  bracket, any separators and blanks) and for messages, with every set of characters written out.

**The log record and its printers** (`logging/logging.go`) are the class `Log` in `LogObject.dfy`, whose writers append to
a buffer. `LogKeys.dfy` says on the fields themselves what each key stands for. `Printer.dfy` says what they append,
`LogMap.dfy` relates the record to an ordered map, and `Json.dfy` reads the JSON back with an independent reader of flat
objects (sections 4 and 7 of RFC 8259); `JsonConverse.dfy` shows that its condition is needed. `RoundTrip.dfy` joins
parser and printer, and `ExactHeader.dfy` and `ExactRoundTrip.dfy` say exactly which logs come back.

**The asynchronous HTTP client** (`http/http.go`, with its callers in `lua/http.go` and `lua/lua.go`) is a transition
system in `ClientModel.dfy`: script threads, one bounded queue and one worker per unit of concurrency, an unbuffered
error channel with its poller, an unbuffered quit channel, the client's lock and `luaLock`. Illegal channel operations
are possible in the model and set a flag, so their absence is proved. `ClientSafety.dfy` and `ClientHistory.dfy` hold
the invariants and what follows for whole runs, `ClientErrors.dfy` follows errors from the failed request to the hook,
`ClientProgress.dfy` and `ClientDrain.dfy` hold deadlock freedom and termination, `ClientPosts.dfy` says on which queue
a posted request lands and `ClientConfig.dfy` which configuration is in force, `ClientClose.dfy` says what Close and
Flush leave behind, and `ClientReconfigure.dfy` and `ClientDeadlock.dfy` the one way in which the client can deadlock.

A Go string is a Dafny string of bytes; ranging over it decodes UTF-8 as section 4 of RFC 3629 says (`Text.dfy`);
`Encoding.dfy` proves that this is the inverse of the encoding arithmetic of section 3. A run-time panic is an outcome
(`Results.dfy`), not a precondition.

## What the code does that its documentation does not say

- A chunk boundary can change the logs. `ParserChunks.SyncExactly` gives the condition under which it cannot, whatever text
  follows; the three causes are a bracket inside a header token, a key (or first value) with a space in it, and a value that
  starts with a colon.
- A chunk boundary can panic: `ParserSafety.RunPanicsExactly` says when, `ParserRules.InnerSpaceCanPanic` gives a text.
- Changing the HTTP concurrency or buffer size from a hook can deadlock, because the hook keeps `luaLock` while `Init` waits
  for workers that wait for the poller that waits for `luaLock`. `ClientReconfigure.ConfigChangeDeadlocksExactly` says when.
- `Get("timestamp")` always reports a value, a single space for a log without date and time, although `Get` is documented to
  return false for a key that is not set (`LogMap.GetFindsExactly`).
- A printed log with fewer than two entries does not come back from the parser (`RoundTrip.RoundTripExactly`);
  `ExactRoundTrip.ReparsesExactly` says which others do.
- The JSON writer escapes neither header fields nor all control characters, so its output is not always JSON
  (`JsonConverse.JsonIsFaithfulExactly`).
- Escaping replaces bytes that are not UTF-8 (`Printer.UnescapeEscape`).

## Model

| member | source | states |
|---|---|---|
| `Text.RuneWidthOfPrefix` | logging/parse.go:246-247 | Ranging over text decodes the same runes whatever follows an ASCII byte, so a scan can be split after one. |
| `Encoding.EncodedIsRune` | logging/parse.go:246-247 | Every scalar value, encoded by shifts and masks, is read as one rune of that length, whatever follows. |
| `Encoding.RuneIsEncoded` | logging/logging.go:216-222 | Bytes that are read as one rune of several bytes are the encoding of a scalar value above 0x7F. |
| `Encoding.Utf8Exactly` | logging/logging.go:216-222 | Well-formed text, as used below, is exactly what encoding a sequence of scalar values writes. |
| `Encoding.EncodedIsWritten` | logging/logging.go:209-222 | Every encoded value other than the seven escaped characters is written as it is. |
| `Encoding.StrayByteIsReplaced` | logging/logging.go:209-222 | A byte at which no encoding starts is written as U+FFFD, and reading goes on after it. |
| `ParserObject.Parser.constructor` | logging/parse.go:267-271 | A new parser is in the date state with no text and an empty log. |
| `ParserObject.Parser.Reset` | logging/parse.go:274-277 | Resets state and cursors only: buffered text and the half-built log stay. |
| `ParserObject.Parser.HandleNextKey` | logging/parse.go:33-50 | For all cursor positions with start <= end <= i, the cursor code does what `KeyStep` does to the open token, and the bound is kept. |
| `ParserObject.Parser.HandleNextMultiKey` | logging/parse.go:52-70 | Likewise for `MultiKeyStep`; fails exactly when `raw[start:end-1]` or the last property does not exist. |
| `ParserObject.Parser.ConsumeCurrent` | logging/parse.go:72-79 | The token becomes the value of the last property, if there is one. |
| `ParserObject.Parser.ConsumeLog` | logging/parse.go:81-92 | The token becomes the message, or the last value when that is still empty. |
| `ParserObject.Parser.HandleNextValue` | logging/parse.go:94-113 | Cursor code refines `ValueStep`, bound kept. |
| `ParserObject.Parser.HandleTransition` | logging/parse.go:115-126 | Skips a blank, or moves to the next state and asks for the rune to be read again. |
| `ParserObject.Parser.HandleNextDate` | logging/parse.go:128-141 | Cursor code refines `DateStep` for date and time. |
| `ParserObject.Parser.HandleNextHeader` | logging/parse.go:143-156 | Cursor code refines `HeaderStep` for level, thread and class. |
| `ParserObject.Parser.HandleNextThreadBracket` | logging/parse.go:158-168 | Cursor code refines `ThreadBracketStep`. |
| `ParserObject.Parser.HandleNextThread` | logging/parse.go:170-180 | Cursor code refines `ThreadStep`: the first rune decides between a bracketed and a plain thread. |
| `ParserObject.Parser.HandleNextCallType` | logging/parse.go:182-193 | Cursor code refines `CallTypeStep`. |
| `ParserObject.Parser.VerifyCallType` | logging/parse.go:195-204 | Cursor code refines `VerifyCallTypeStep`; fails exactly when there is no first property. |
| `ParserObject.Parser.Next` | logging/parse.go:206-240 | One rune through the whole dispatch, with the re-entry after blanks, is `Step`; it fails exactly when `Step` panics. |
| `ParserObject.Parser.FinishLine` | logging/parse.go:248-254 | A newline emits the log and leaves a fresh line. |
| `ParserObject.Parser.ScanBuffer` | logging/parse.go:246-258 | The rune loop computes `Scan`: same panics, same logs, same pending line. |
| `ParserObject.Parser.Parse` | logging/parse.go:243-264 | Parsing a chunk is `Feed`: the kept text and the chunk are scanned in the carried-over state, and what follows the last start is kept. |
| `ParserObject.Parse` | logging/parse.go:280-284 | A new parser on the whole text gives the logs of `Scan` from a fresh line. |
| `ParserSafety.StepSafe` | logging/parse.go:33-240 | The safety invariant (a property wherever one is read, a non-empty token in the double-key state, never the error state) is kept by every step on every rune, and no step panics. |
| `ParserSafety.ScanSafe` | logging/parse.go:206-264 | No one-shot parse panics, for all bytes. |
| `ParserSafety.ResumePanicsExactly` | logging/parse.go:52-62 | A resumed parse panics if and only if it re-enters the double-key state on text that starts with a space. |
| `ParserSafety.RunPanicsExactly` | logging/parse.go:243-264 | A whole run of chunks panics if and only if one of its boundaries does so; otherwise the parser rests in a safe state. |
| `ParserSafety.ScanConcat` | logging/parse.go:246-258 | Scanning a text that ends in ASCII and then another is scanning both. |
| `ParserSafety.StepKeepsSuffix` | logging/parse.go:33-204 | A step only drops text from the front of what is kept. |
| `ParserSafety.OneLogPerNewline` | logging/parse.go:246-258 | A scan emits as many logs as it reads newlines. |
| `ParserSafety.LogsEqualNewlines` | logging/parse.go:246-263 | For every chunking that does not panic, logs emitted equal newlines fed. |
| `ParserSafety.LineEndIsFresh` | logging/parse.go:248-254 | After a text that ends in a newline nothing is pending. |
| `ParserSafety.LinesAppend` | logging/parse.go:280-284 | Parsing turns concatenation after a whole line into list append, for all bytes. |
| `ParserSafety.LineChunksAreExact` | logging/parse.go:243-264 | Chunks that end in newlines never panic and give the logs of the whole text, for all bytes. |
| `ParserChunks.StepReplays` | logging/parse.go:243-264 | In every state, scanning the kept text again leads back to where the scan was, and each safe character keeps this. |
| `ParserChunks.FeedIsScan` | logging/parse.go:260-261 | Then a resumed parse equals one that was never interrupted, for any further chunk. |
| `ParserChunks.ChunkedEqualsBatch` | logging/parse.go:243-264 | For every `Sync` stream and every chunking: same logs and same pending line as one parse of the whole. |
| `ParserChunks.BracketShows` | logging/parse.go:143-147 | Cut after a bracket inside a header token, a line that then ends gives another log. |
| `ParserChunks.LateKeyShows` | logging/parse.go:36-46 | So does a line cut after a key or first value that ends while the cursors are behind. |
| `ParserChunks.LeadingColonShows` | logging/parse.go:101-103 | So does a line cut after a colon that starts a value, when a space follows. |
| `ParserChunks.FirstUnsafe` | logging/parse.go:243-264 | For an ASCII stream that is not `Sync`: chunks of it and a continuation for which the logs differ from those of one parse of all the text, or a step panics. |
| `ParserChunks.SyncGoesOn` | logging/parse.go:243-264 | After any chunking of a `Sync` stream, whatever bytes are fed next, the logs and the pending line are those of one parse. |
| `ParserChunks.SyncExactly` | logging/parse.go:243-264 | For ASCII text, `Sync` holds if and only if, for every chunking of it or of a part read so far and whatever comes next, no step panics and the logs are those of one parse. |
| `ParserSpans.StepEffect` | logging/parse.go:33-204 | What a step does to the log is one of seven acts on the open token, chosen by state and rune alone. |
| `ParserSpans.StepPlaced` | logging/parse.go:33-240 | Each step keeps the ranges taken so far in order and before the open token, whatever it gives up or takes. |
| `ParserSpans.DoubleKeyTakes` | logging/parse.go:59-64 | A double key gives up the range of the key that was there. |
| `ParserSpans.RenameTakes` | logging/parse.go:195-204 | The range taken for a call type becomes that of the first key, before the range of its value. |
| `ParserSpans.FinishOrdered` | logging/parse.go:81-92 | The range of the last token comes after all others. |
| `ParserSpans.FieldsInOrder` | logging/parse.go:33-264 | For any text of any bytes, the logs are what is cut out at the ranges taken beside the scan; the ranges of each log are inside its own line, left to right and without overlap. |
| `ParserRules.LastKeyWins` | logging/parse.go:52-70 | For any n, `k1: ... kn: v` after the first pair gives one property with key kn and value v and leaves the earlier ones alone, in mid-line and at its end. |
| `ParserRules.CallTypeSpellingsAgree` | logging/parse.go:182-204 | `X: k:...` and `callType: X, k:...` parse alike, whatever follows. |
| `ParserRules.InnerSpaceCanPanic` | logging/parse.go:36-61 | A text that parses at once and panics when followed by any further chunk. |
| `ParserRules.EscapedKeyComesBack` | logging/parse.go:36-46 | A key with a space and a backslash comes back, because the parser drops as much as escaping adds. |
| `LineForms.HeaderIsRead` | logging/parse.go:115-180 | For every header of single-byte runes (date and time of `0123456789:,.-`, each ended by one other ASCII character but `[` and newline; level, class and an unbracketed thread without blank, bracket or newline, ended by a blank or `]`; a bracketed thread without tab, `]` or newline; any blanks between): the five fields are exactly these, and the body comes next, whatever it is. |
| `LineForms.ReadThread` | logging/parse.go:158-180 | A thread with or without brackets is read as the thread, and the class comes next. |
| `LineForms.CommonForms` | logging/parse.go:115-180 | In particular for the layout `[dateTtime] [level] thread class`, and for five fields between any runs of spaces and tabs. |
| `LineForms.MessageAlone` | logging/parse.go:81-88 | A body without a colon is the message, and the log has no property. |
| `LineForms.CallTypeAndMessage` | logging/parse.go:182-204 | The body `x: m` with m one word gives the property `callType` with value x, and the message m. |
| `LineForms.TrailingMessage` | logging/parse.go:81-88 | A word without a colon after the last pair is the message. |
| `LineForms.LineWithMessage` | logging/parse.go:128-264 | A whole line of such a header and a body without a colon gives one log with exactly these six fields. |
| `Pipeline.ParseText` | logging/parse.go:280-284 | Parsing any whole text returns without panic, with one log for each newline. |
| `Pipeline.FeedChunks` | logging/parse.go:243-264 | Calls of `Parse` on one parser are `FeedAll`: same panics, same logs, same text and half-built log left over. |
| `Pipeline.RunPipeline` | cmd/logd/main.go:97-129 | The read loop hands on as many logs as newlines were read, and for `Sync` text those of the whole, wherever the reads ended. |
| `Printer.UnescapeEscape` | logging/logging.go:186-212 | Escaping has a left inverse if and only if the text is well-formed UTF-8. |
| `Printer.EscapeHasNoControl` | logging/logging.go:193-202 | Escaped text holds no raw newline or tab. |
| `Printer.EscapeIdentity` | logging/logging.go:209-210 | Text without the seven characters is written as it is. |
| `Printer.EscapeLetters` | logging/logging.go:186-211 | The characters that are escaped are bytes 8, 9, 10, 12, 13, 34 and 92, as b, t, n, f, r, quote and backslash, and no other. |
| `LogKeys.LookupByKey` | logging/logging.go:144-166 | Get of "thread", "class", "level", "date", "time" and "msg" is the field of that name, if it is not empty; of "timestamp" date, space, time. |
| `LogKeys.PutByKey` | logging/logging.go:111-128 | Set of each of the six changes that field and nothing else. |
| `LogKeys.PutTimestamp` | logging/logging.go:97-110 | Set of "timestamp" clears both parts, or sets the parts on both sides of the one space, or panics, which is exactly when there is no such split. |
| `LogKeys.DropByKey` | logging/logging.go:67-70 | Remove of each key clears its field and nothing else. |
| `LogKeys.PresentByKey` | logging/logging.go:95-128 | Set and Remove report a field exactly if it was not empty. |
| `LogKeys.OtherKeys` | logging/logging.go:71-137 | Every other text is a property key: found, replaced and removed at its first position, appended when absent. |
| `LogKeys.EntriesInOrder` | logging/logging.go:238-241 | The message is written after the properties, as `msg`, and only if it is not empty. |
| `LogKeys.LineLayout` | logging/logging.go:259-280 | The text of a line: the five fields with their separators and brackets, a dash for an empty thread or class, then the entries. |
| `LogObject.UpsertAt` | logging/logging.go:130-136 | Upserting a present key changes the value at its first position only. |
| `LogObject.UpsertNew` | logging/logging.go:137-137 | Upserting a new key appends it. |
| `LogObject.DeleteAt` | logging/logging.go:76-86 | Deleting shifts what follows the first occurrence by one. |
| `LogObject.SplitAtSpace` | logging/logging.go:105-110 | A timestamp with one space is date, space, time, neither with a space in it. |
| `LogObject.WriteEscaped` | logging/logging.go:216-222 | The rune loops append the escaped text. |
| `LogObject.AppendProp` | logging/logging.go:214-223 | Appends separator, escaped key, separator, escaped value. |
| `LogObject.Log.constructor` | logging/logging.go:49-53 | A new log has only empty fields. |
| `LogObject.Log.Reset` | logging/logging.go:56-58 | Back to the empty log. |
| `LogObject.Log.Remove` | logging/logging.go:67-91 | Clears a field or deletes the first property with the key in place, and reports whether it was there. |
| `LogObject.Log.Set` | logging/logging.go:95-140 | Sets a field, the date and time pair, or upserts a property; reports prior presence; panics exactly on a non-empty timestamp without exactly one space. |
| `LogObject.Log.Get` | logging/logging.go:144-178 | Returns the field or the first property with the key, and whether there is one. |
| `LogObject.Log.Serialize` | logging/logging.go:225-242 | Appends all entries, the message last, with the header separator before the first and the key separator between them. |
| `LogObject.Log.WriteJSONTo` | logging/logging.go:244-257 | Appends `JsonOf` of the log to what the buffer held. |
| `LogObject.Log.WriteTo` | logging/logging.go:259-280 | Appends `TextOf` of the log to what the buffer held. |
| `LogMap.GetAgrees` | logging/logging.go:142-178 | Get, and the reports of Set and Remove, agree with a map model, the timestamp being the pair of date and time. |
| `LogMap.GetFindsExactly` | logging/logging.go:142-178 | Get finds a key if and only if Set and Remove would report it, or it is the timestamp, which is found as one space when unset. |
| `LogMap.UpsertKeepsOrder` | logging/logging.go:130-137 | Set leaves all other properties and their order alone. |
| `LogMap.DeleteKeepsOrder` | logging/logging.go:76-86 | Remove leaves exactly the other properties, in order. |
| `LogMap.PutRefines` | logging/logging.go:95-140 | Set refines the map update, fails on the same inputs, and keeps keys unique and unreserved. |
| `LogMap.DropRefines` | logging/logging.go:67-91 | Remove refines the map removal and keeps keys unique and unreserved. |
| `LogMap.RunRefines` | logging/logging.go:56-140 | Any run of Set, Remove and Reset is a run on the map; every lookup afterwards agrees. |
| `LogMap.NewLogRefines` | logging/logging.go:49-178 | In particular every run from a new log. |
| `Json.EscapeDecodes` | logging/logging.go:186-212 | Escaped text between quotes is a JSON string for the original text, when its only control characters are the five escaped ones. |
| `Json.JsonIsMembers` | logging/logging.go:225-257 | The separators of `serialize` close one string and open the next: the output is a list of members in braces. |
| `Json.JsonIsFaithful` | logging/logging.go:186-257 | The output is one flat JSON object; reading it gives timestamp, level, thread, class, the properties in order, then `msg` when not empty. |
| `JsonConverse.RawReadsBack` | logging/logging.go:244-254 | Text written raw between quotes is read back only if it holds no quote, backslash or control character. |
| `JsonConverse.EscapedReadsBack` | logging/logging.go:186-212 | Escaped text is read back only if it is well-formed UTF-8 without control characters that are not escaped. |
| `JsonConverse.JsonIsFaithfulExactly` | logging/logging.go:186-257 | The output reads back as the log if and only if header fields need no escaping and the other texts are such. |
| `RoundTrip.RunHeader` | logging/parse.go:128-180 | From a fresh line the scan reads a printed header into the same header fields, and may be cut anywhere in it. |
| `RoundTrip.RunEntries` | logging/parse.go:33-113 | It reads any number of printed entries after the first back in order. |
| `RoundTrip.TwoEntriesReparse` | logging/parse.go:81-113 | A well-formed log with two or more entries comes back: same header, same entries, the message as last property `msg`. |
| `RoundTrip.OneEntryDiffers` | logging/parse.go:182-204 | With one entry it does not: the key is taken for the call type. |
| `RoundTrip.NoEntryDiffers` | logging/parse.go:81-88 | With none it does not: the class is taken for the message. |
| `RoundTrip.RoundTripExactly` | logging/logging.go:225-280 | For well-formed logs, parsing undoes printing if and only if there are at least two entries. |
| `ExactHeader.FieldExact` | logging/parse.go:128-168 | A header field comes back only if each of its bytes is a rune of its own that joins the token. |
| `ExactHeader.HeaderExact` | logging/logging.go:259-279 | A printed header with a level comes back only if all five fields are such. |
| `ExactHeader.RawHeaderRun` | logging/parse.go:128-180 | Then it does come back, also with bytes that are not ASCII. |
| `ExactRoundTrip.KeyExact` | logging/parse.go:33-50 | A later key without a colon comes back only if it holds no space. |
| `ExactRoundTrip.ValueExact` | logging/parse.go:94-113 | A later value comes back only if it does not start with a space and no comma ends it. |
| `ExactRoundTrip.FirstExact` | logging/parse.go:182-204 | The first entry comes back only if its key holds no colon and starts with no blank, and its value holds no space, comma or colon. |
| `ExactRoundTrip.ReparsesExactly` | logging/logging.go:225-280 | For logs with a level and two or more entries of printable text without the colons of a double key: parsing undoes printing if and only if every field is one that comes back. |
| `RoundTrip.ReprintIsSame` | logging/logging.go:259-280 | A log whose message has moved into the properties prints as before. |
| `RoundTrip.PrintedTextIsFixedPoint` | logging/logging.go:225-280 | Print, parse, print gives the first printed text. |
| `RoundTrip.PrintedLinesReparse` | logging/parse.go:243-264 | Any number of printed logs, one per line, come back in order with nothing pending. |
| `RoundTrip.PrintedLinesAreSync` | logging/parse.go:243-264 | Printed lines with no value that starts with a colon are `Sync`. |
| `RoundTrip.ChunkedRoundTrip` | logging/parse.go:243-264 | However the printed text is cut, feeding the chunks gives the logs back. |
| `RoundTrip.OneLogPerPrintedLine` | logging/logging.go:186-242 | For any logs with newline-free headers, whatever their properties hold, the parser finds as many logs as were printed. |
| `ClientSafety.PosterFindsOpenQueues` | http/http.go:217-236 | A thread that is sending in Post holds the client lock, no one is in Close or Init, and every queue is open. |
| `ClientSafety.OneStopper` | http/http.go:240-252 | At most one thread is in `stopWorkers`. |
| `ClientSafety.QuitBelongs` | http/http.go:247-252 | The quit received in iteration i is the one of worker i. |
| `ClientSafety.RunningMeansOpen` | http/http.go:256-263 | A worker that has not stopped finds error and quit channels open. |
| `ClientSafety.StepControl` | http/http.go:84-263 | Every step keeps the invariant on locks, exclusive calls, quits against closed queues, and workers. |
| `ClientHistory.StepInv` | http/http.go:84-263 | Every step also keeps: accepted is finished, then in flight, then queued, queue by queue and in order; reports are the failures. |
| `ClientHistory.StopDrains` | http/http.go:247-252 | When `stopWorkers` is through, all queues are empty, all workers stopped and all accepted requests finished. |
| `ClientHistory.ReachableInv` | http/http.go:136-167 | The invariant holds in every reachable state. |
| `ClientHistory.ChannelsAreSafe` | http/http.go:95-117 | In every reachable state no send hit a closed channel and no queue, quit or error channel was closed twice, the number of queues is the concurrency, and a worker that is about to send finds the channel open. |
| `ClientHistory.AttemptedInOrder` | http/http.go:84-118 | Over whole runs with flushes and reconfigurations, requests of one queue are attempted in order of acceptance; on a queue that a smaller configuration gave up, all have finished. |
| `ClientPosts.PostedWhereAsked` | http/http.go:190-237 | Over every run: an accepted request was posted with an affinity below the concurrency of the time; with an affinity it is on that very queue, without one on the first that was not full when tried, or on queue 0 if all were full. |
| `ClientPosts.AffinityKeepsOrder` | http/http.go:220-223 | Over every run: all accepted requests of one affinity are on one queue, and those finished are the first accepted, in that order. |
| `ClientPosts.AcceptedExactly` | http/http.go:190-237 | When a run has come to rest: accepted and finished are exactly the requests posted with an affinity below the concurrency of the time. |
| `ClientPosts.AcceptedBelowConcurrency` | http/http.go:190-195 | In a run without Init these are the requests posted with an affinity below the initial concurrency. |
| `ClientErrors.ErrorsConserved` | http/http.go:95-100 | Over every run: the requests that fail on a queue are, in order, those whose error was sent and perhaps one that waits to be sent; no error is sent twice; the poller has handled what was sent, in order, but perhaps for the last. |
| `ClientErrors.OnlyFailuresSent` | http/http.go:97-100 | On each queue the errors sent are those of the failed requests, in order: none for a request that succeeded. |
| `ClientErrors.FailuresHandledOnce` | lua/http.go:121-148 | When a run has come to rest, `on_http_error` was called exactly once for each request that failed and for no other. |
| `ClientHistory.RunDistinct` | http/http.go:190-237 | In every run no request is accepted twice, or accepted while it is still being sent. |
| `ClientHistory.ExactlyOnePlace` | http/http.go:84-118 | An accepted request is on one queue, of this configuration or an earlier one, and in exactly one of finished, in flight and queued. |
| `ClientHistory.BacklogBounded` | http/http.go:136-142 | Accepted but unfinished requests never exceed Concurrency * (ChanBuffer + 1). |
| `ClientHistory.StopIsBarrier` | http/http.go:240-263 | When Flush, Close or Init is done stopping workers, everything accepted at any earlier point of the run has finished, every queue is empty and every worker stopped. |
| `ClientProgress.NeverStuck` | lua/http.go:79-89 | As long as a thread, a request or an error is left, some step of the program is possible, unless Init from a hook is caught in the cycle. |
| `ClientProgress.StuckMeansDone` | lua/http.go:121-148 | A reachable state without a possible step is quiet or caught in that cycle. |
| `ClientProgress.QuietMeansFinished` | http/http.go:90-112 | In a quiet state every accepted request has finished. |
| `ClientProgress.DoomedForever` | http/http.go:148-153 | Once caught, no step of anyone lets Init go on. |
| `ClientDrain.StepLess` | http/http.go:84-263 | Every step of the program makes a measure smaller. |
| `ClientDrain.RunsAreBounded` | http/http.go:84-263 | Without new calls a run is no longer than the measure says. |
| `ClientDrain.ClientDrains` | lua/lua.go:418-443 | With no Init in progress, in whatever order steps are taken, the program comes to rest with every Post, hook, Flush and Close returned, every accepted request finished and every error handled. |
| `ClientReconfigure.StepPressure` | lua/http.go:101-119 | While Init runs, unfinished requests and unhandled errors never grow in number, and only a request that succeeds makes them fewer. |
| `ClientReconfigure.InitDeadlocksExactly` | http/http.go:148-167 | A call of Init in progress can deadlock if and only if errors are reported and at least two requests or errors are outstanding. |
| `ClientReconfigure.ConfigChangeDeadlocksExactly` | lua/http.go:101-119 | The same, as a condition on the state in which a hook changes the settings. |
| `ClientReconfigure.InitReturns` | http/http.go:148-167 | Where it cannot deadlock, Init returns: until then the program can always go on, and only for a bounded number of steps. |
| `ClientConfig.ConfigInForce` | http/http.go:136-167 | Over every run: number and size of the queues are those given to the last call of Init that returned, or the first ones; Flush and Close change neither. |
| `ClientConfig.SendsWhileRoom` | http/http.go:136-142 | A queue takes a request exactly as long as it holds fewer than the buffer size. |
| `ClientClose.ClosedExactly` | http/http.go:240-263 | Over every run: once Close has returned, and not before, all channels are closed, all queues empty, all workers stopped and no thread in the client; otherwise, whenever no thread is stopping the workers, as after each Flush and Init, every queue is open and has a worker at work. |
| `ClientClose.PollerEndsWithClose` | lua/lua.go:438-443 | When no step is possible any more, the error poller has ended if and only if Close has returned. |
| `ClientDeadlock.InitFromHookDeadlocks` | lua/builtin.go:197-202 | The deadlock is reachable: two requests posted from a hook fail while the hook changes a setting. |
| `ClientDeadlock.DoomedRuns` | http/http.go:148-153 | No run from there lets Init return. |

## Left out

- The Lua virtual machine, its stack and argument decoding: a foreign library; a hook is any finite number of steps under `luaLock`.
- Kafka (`lua/kafka.go`): a thin wrapper over another library.
- The ticker and its restart (`lua/lua.go`): its restarts run unsynchronised, so there is no property of it that the code keeps.
- HTTP transport, timeouts, trace ids and debug logging: only success or failure of a request remains; a request whose URL is
  refused never reaches a queue and is not modelled.
- The command line, directory watcher, signals and profiling (`cmd/logd`): input and output. Of the read loop, hooks that
  fail and so end it are left out.
- The client is modelled on values, as a transition system: what it does in place on fields and channels appears as steps on
  one system state, and goroutines as interleavings of steps. Memory-model effects of unsynchronised reads are not captured.
- Calls of Close and Init that overlap Post or Flush: they take no lock in the code, and the model lets them start only when
  no other thread is in the client, and no call start while they run. `on_http_error` does not post or reconfigure.
- Init with an invalid configuration, which leaves the client unusable, and the first, lazy initialisation: runs start from an
  initialised client. Init again after Sandbox Close is a new run.
- The poller's use of the Lua state after Sandbox Close: it depends on timing that the code does not control.
- Field contents of lines with runes of several bytes, or cut where the stream is not `Sync`: only safety, span order and the
  number of logs are stated there.
- LineForms.HeaderIsRead: the fields hold no rune of several bytes, since after one the cursors are behind and the fields are not
  those of the line; nor an opening bracket except in front, where the code drops as many bytes as there are brackets.
- ParserObject.Parser.Reset: in mid-line it keeps the buffered text and the half-built log, so it is not a fresh parser; only
  its effect is stated.
- ExactRoundTrip.ReparsesExactly: assumes a non-empty level, entries of ASCII text that needs no escaping, and for entries
  after the first the absence of the colons that make a double key. Outside, fields can come back by coincidence:
  `ParserRules.EscapedKeyComesBack` is such a case, because the parser drops a byte for each space in a key while the printer
  adds one for each backslash. No exact condition is stated there.
- JsonConverse.JsonIsFaithfulExactly: the reader accepts string values and the two-character escapes, which is all that the
  writer produces; `\u` escapes, numbers and nesting are not read, and bytes are not checked to be UTF-8.
- `Props`, `String`, `JSON`, `Reader` and `JSONReader`: they return a field or wrap the two writers.
