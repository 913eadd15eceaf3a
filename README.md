# Output sinks of bigquery-runner, in Dafny

This project models the three output sinks of the BigQuery runner extension
(`packages/core/src/output.ts`). Each sink implements the `Output` interface:
`open`, `writeHeads`, `writeRows`, `close` and `dispose`.

- The **viewer sink** (`createViewerOutput`) turns `open`, `writeRows` and
  `close` into one message envelope each, `{source: "bigquery-runner",
  payload: {event, payload?}}`, and hands it to the caller's `postMessage`.
  The "rows" payload carries the column ids of `flat.heads`, the rows of
  `flat.toRows` from the page's first row number, the job and table
  information unchanged, and the serialized edge information.
  `writeHeads` and `dispose` post nothing.
- The **log sink** (`createLogOutput`) shows its output channel on `open`. It
  appends the formatter's header, rows (always from row number 0) and footer
  on `writeHeads`, `writeRows` and `close`. `dispose` does nothing.
- The **file sink** (`createFileOutput`) writes the same texts to a writable
  stream. It skips an empty header. `close` writes the footer, then ends the
  stream. `dispose` ends the stream without writing.

Layout:

- `types.dfy` (module `Types`) holds the values the sinks exchange with their
  collaborators. `Op` is one call of the `Output` interface.
- `viewer_sink.dfy`, `log_sink.dfy` and `file_sink.dfy` hold one module per
  sink. Each module has:
  - a class for the destination the sink is given (`MessagePort`,
    `OutputChannel`, `WritableStream`);
  - a class for the sink, whose methods change only that destination;
  - a `Perform` method that dispatches one `Op`;
  - pure functions giving the effect of one call and of a sequence of calls,
    with lemmas about them;
  - client methods that replay the scenarios of `output.test.ts` on fresh
    objects.

The sinks are verified for every formatter, every flat and every edge-info
serializer, because these collaborators enter only as function values:
- `Formatter` is a record of `header`, `rows` and `footer` functions;
- `Flat` is `heads` plus a `toRows` function;
- `toSerializableEdgeInfo` is the viewer sink's `serialize` function.

Row numbers are unbounded integers.

The writable stream follows Node's behaviour. A chunk written after `end` is
not delivered; the stream reports a write-after-end error instead, recorded
as `writeAfterEnd`. Calling `end` on an ended stream changes nothing. The
sinks never check whether the stream has ended.

The model follows the code on two points where a reader might expect
otherwise:

- The sinks keep no lifecycle state (no opened, closed or disposed flag).
  Every operation is accepted in every state and in any order, so `Perform`
  and `Run` have no precondition.
- The viewer and log sinks' `dispose` does nothing, so calls after it still
  post and append (`ViewerSink.DisposeChangesNothing`,
  `LogSink.DisposeChangesNothing`). Only the file sink stops delivering after
  `dispose`, and only because the stream refuses writes after its end
  (`FileSink.DisposeThenAnything`); a `close` after `dispose` then raises the
  stream's write-after-end error (`FileSink.CloseAfterDispose`).

## Model

| member | source | states |
|---|---|---|
| `ViewerSink.OpenMessage` | packages/core/src/output.ts:49-54 | the envelope `open` posts has source "bigquery-runner", event "open" and no inner payload |
| `ViewerSink.CloseMessage` | packages/core/src/output.ts:81-86 | the envelope `close` posts has source "bigquery-runner", event "close" and no inner payload |
| `ViewerSink.HeaderIds` | packages/core/src/output.ts:67 | the header has one id per head, and the i-th id is the id of the i-th head |
| `ViewerSink.RowsMessage` | packages/core/src/output.ts:61-78 | the "rows" envelope is tagged "bigquery-runner"; its payload holds the head ids in order, `toRows` from `edgeInfo.rowNumberStart`, the job and table information unchanged, and the serialized edge information |
| `ViewerSink.Message` | packages/core/src/output.ts:48-87 | each posting call hands over one envelope with source "bigquery-runner", whose event names the call ("open", "rows", "close"), with an inner payload exactly for `writeRows`, and that payload is the one `RowsMessage` describes |
| `ViewerSink.ViewerPosts` | packages/core/src/output.ts:47-92 | one call posts at most one envelope; it posts one exactly when it is `open`, `writeRows` or `close`, tagged "bigquery-runner", with an inner payload exactly for `writeRows` |
| `ViewerSink.ViewerTrace` | packages/core/src/output.ts:47-92 | a call sequence posts at most one envelope per call, each tagged "bigquery-runner" |
| `ViewerSink.PostingCalls` | packages/core/src/output.ts:47-92 | the posting calls (`open`, `writeRows`, `close`) of a call sequence: every kept call posts, there are no more of them than calls, and a single call is kept exactly when it posts |
| `ViewerSink.PostingCallsCounts` | packages/core/src/output.ts:47-92 | each posting call is kept exactly as many times as it occurs in the sequence, and no other call is kept |
| `ViewerSink.PostingCallsConcat` | packages/core/src/output.ts:47-92 | the posting calls of two sequences run one after another are those of the first followed by those of the second, so call order is kept |
| `ViewerSink.ViewerTraceConcat` | packages/core/src/output.ts:47-92 | calls made one after another post their envelopes one after another |
| `ViewerSink.ViewerTraceIsPostingCalls` | packages/core/src/output.ts:47-92 | a call sequence posts exactly one envelope per `open`, `writeRows` and `close`, in call order, and nothing for `writeHeads` and `dispose` |
| `ViewerSink.ViewerTraceShape` | packages/core/src/output.ts:49-54 | every posted envelope has source "bigquery-runner" and event "open", "rows" or "close", and has an inner payload exactly when its event is "rows" |
| `ViewerSink.QuietCallsPostNothing` | packages/core/src/output.ts:57-59 | any sequence of `writeHeads` and `dispose` calls posts nothing |
| `ViewerSink.DisposeChangesNothing` | packages/core/src/output.ts:89-91 | `dispose` tears nothing down: the calls after it post exactly what they would have posted without it |
| `ViewerSink.OpenThenClose` | packages/core/src/output.ts:48-55 | `open`, any number of `writeHeads`/`dispose` calls, then `close` post exactly [open, close], with no "rows" envelope |
| `ViewerSink.MessagePort.PostMessage` | packages/core/src/output.ts:45 | the supplied `postMessage` receives the envelope after all earlier ones |
| `ViewerSink.ViewerOutput.constructor` | packages/core/src/output.ts:42-46 | the sink keeps the `postMessage` port and the edge-information serializer it is given, and nothing else |
| `ViewerSink.ViewerOutput.Open` | packages/core/src/output.ts:48-55 | `open` posts exactly one envelope, event "open", with no inner payload |
| `ViewerSink.ViewerOutput.WriteHeads` | packages/core/src/output.ts:57-59 | `writeHeads` leaves the port unchanged |
| `ViewerSink.ViewerOutput.WriteRows` | packages/core/src/output.ts:61-78 | `writeRows` posts exactly one "rows" envelope built from its arguments |
| `ViewerSink.ViewerOutput.Close` | packages/core/src/output.ts:80-87 | `close` posts exactly one envelope, event "close", with no inner payload |
| `ViewerSink.ViewerOutput.Dispose` | packages/core/src/output.ts:89-91 | `dispose` leaves the port unchanged |
| `ViewerSink.ViewerOutput.Perform` | packages/core/src/output.ts:15-27 | any call, in any state, appends to the posted messages exactly what `ViewerPosts` says: one envelope for `open`/`writeRows`/`close`, none for `writeHeads`/`dispose` |
| `ViewerSink.ViewerOutput.Run` | packages/core/src/output.ts:47-92 | a sequence of calls, in any order and any state, appends to the posted messages exactly `ViewerTrace` of the sequence |
| `ViewerSink.OpenCloseScenario` | packages/core/src/output.test.ts:25-38 | `open` then `close` on a fresh sink posts [open, close], the last being `{source: "bigquery-runner", payload: {event: "close"}}` |
| `ViewerSink.BeforeOpenScenario` | packages/core/src/output.test.ts:40-64 | `writeRows`, `close` and `dispose` are accepted on a sink never opened, and post "rows" then "close" |
| `ViewerSink.FormatScenario` | packages/core/src/output.test.ts:66-133 | `open`, `writeHeads`, `writeRows` on a flat with the single column "foo" and a page starting at row 1 post [open, rows], where the rows payload has header ["foo"], rows from row number 1 and the serialized edge information |
| `LogSink.ConcatAppend` | packages/core/src/output.ts:113-118 | the channel text of two runs of appends is the first text followed by the second |
| `LogSink.LogAppends` | packages/core/src/output.ts:109-122 | one call appends one chunk when it is `writeHeads`, `writeRows` or `close` and none for `open` and `dispose`; the `writeRows` chunk is the formatter's rows from row number 0 |
| `LogSink.LogShows` | packages/core/src/output.ts:106-108 | one call shows the channel exactly when it is `open`, and every show keeps the focus |
| `LogSink.LogTrace` | packages/core/src/output.ts:105-123 | a call sequence appends at most one chunk per call |
| `LogSink.ShowTrace` | packages/core/src/output.ts:106-108 | a call sequence shows the channel at most once per call, always keeping the focus |
| `LogSink.LogTraceConcat` | packages/core/src/output.ts:105-123 | calls made one after another append their chunks one after another |
| `LogSink.ShowTraceConcat` | packages/core/src/output.ts:106-108 | calls made one after another show the channel one after another |
| `LogSink.TraceStep` | packages/core/src/output.ts:105-123 | extending a prefix of the calls by the next call extends the appended chunks and the shows by that call's effect |
| `LogSink.DisposeChangesNothing` | packages/core/src/output.ts:120-122 | `dispose` leaves the channel usable: the calls after it append and show exactly what they would have without it |
| `LogSink.LogTextConcat` | packages/core/src/output.ts:105-123 | the channel text of two runs of calls is the text of the first run followed by that of the second |
| `LogSink.LogSessionText` | packages/core/src/output.ts:106-119 | `open; writeHeads; writeRows; close` leaves exactly header ++ rows (from row 0) ++ footer and shows the channel once, keeping the focus |
| `LogSink.QuietCallsAppendNothing` | packages/core/src/output.ts:106-108 | any sequence of `open` and `dispose` calls appends no text |
| `LogSink.LogIgnoresPageInfo` | packages/core/src/output.ts:112-116 | two call sequences that differ only in the job, table or edge information of their `writeRows` calls append the same chunks, because rows are always rendered from row number 0 |
| `LogSink.OutputChannel.Show` | packages/core/src/output.ts:101 | `show` records its argument and leaves the text alone |
| `LogSink.OutputChannel.Append` | packages/core/src/output.ts:102 | `append` adds the value at the end of the channel text |
| `LogSink.LogOutput.constructor` | packages/core/src/output.ts:95-104 | the sink keeps the formatter and the channel it is given and nothing else |
| `LogSink.LogOutput.Open` | packages/core/src/output.ts:106-108 | `open` calls `show(true)` and appends nothing |
| `LogSink.LogOutput.WriteHeads` | packages/core/src/output.ts:109-111 | `writeHeads` appends exactly `formatter.header(flat)` |
| `LogSink.LogOutput.WriteRows` | packages/core/src/output.ts:112-116 | `writeRows` appends exactly `formatter.rows(structs, 0, flat)` |
| `LogSink.LogOutput.Close` | packages/core/src/output.ts:117-119 | `close` appends exactly `formatter.footer()` |
| `LogSink.LogOutput.Dispose` | packages/core/src/output.ts:120-122 | `dispose` leaves the channel unchanged |
| `LogSink.LogOutput.Perform` | packages/core/src/output.ts:105-123 | any call, in any state, appends exactly `LogAppends` and shows exactly `LogShows`; `dispose` changes nothing |
| `LogSink.LogOutput.Run` | packages/core/src/output.ts:105-123 | a sequence of calls, in any order and any state, appends exactly `LogTrace` of the sequence and shows exactly `ShowTrace` of it |
| `LogSink.SessionScenario` | packages/core/src/output.test.ts:136-181 | a full session on a fresh channel leaves header ++ rows from row 0 ++ footer as the channel text, with one `show(true)` |
| `FileSink.AfterWrite` | packages/core/src/output.ts:140 | `write` delivers the chunk while the stream is open; once it has ended it delivers nothing and the write-after-end error is raised; it never ends the stream |
| `FileSink.AfterEnd` | packages/core/src/output.ts:155 | `end` ends the stream and neither delivers nor reports anything |
| `FileSink.FileStep` | packages/core/src/output.ts:133-157 | one call keeps what was delivered and adds at most one chunk, exactly when it writes (`writeRows`, `close`, a non-empty header) to an open stream; it has ended the stream exactly when it had ended or the call is `close` or `dispose`; it raises write-after-end exactly when it writes to an ended stream |
| `FileSink.FileRun` | packages/core/src/output.ts:133-157 | a call sequence keeps what was delivered, adds at most one chunk per call, and never undoes the end or a write-after-end error |
| `FileSink.RunStep` | packages/core/src/output.ts:133-157 | extending a prefix of the calls by the next call applies that call to the stream the prefix left |
| `FileSink.FileRunConcat` | packages/core/src/output.ts:133-157 | calls made one after another act on the stream one after another |
| `FileSink.NothingWrittenAfterEnd` | packages/core/src/output.ts:148-156 | once the stream has ended, no call delivers anything more, and the stream stays ended |
| `FileSink.DisposeThenAnything` | packages/core/src/output.ts:154-156 | after a `dispose`, whatever is called next, the stream has ended and holds exactly what it held before the `dispose` |
| `FileSink.CloseAfterDispose` | packages/core/src/output.ts:148-156 | `close` after `dispose` delivers no footer and raises the stream's write-after-end error |
| `FileSink.EndedIff` | packages/core/src/output.ts:148-156 | the stream has ended exactly when it had already ended or some call was `close` or `dispose` |
| `FileSink.RepeatedDispose` | packages/core/src/output.ts:154-156 | n `dispose` calls end the stream and write nothing; they act as one call, or as none when n = 0 |
| `FileSink.SessionWritten` | packages/core/src/output.ts:134-153 | `open; writeHeads; writeRows; close` on a fresh stream delivers the header if it is non-empty, then the rows from row 0, then the footer, and ends the stream with no error |
| `FileSink.WritableStream.Write` | packages/core/src/output.ts:131 | a write is delivered while the stream is open; after the end it is not delivered and raises the write-after-end error |
| `FileSink.WritableStream.End` | packages/core/src/output.ts:131 | `end` ends the stream and changes nothing else |
| `FileSink.FileOutput.constructor` | packages/core/src/output.ts:126-132 | the sink keeps the formatter and the stream it is given and nothing else |
| `FileSink.FileOutput.Open` | packages/core/src/output.ts:134-136 | `open` leaves the stream unchanged |
| `FileSink.FileOutput.WriteHeads` | packages/core/src/output.ts:137-142 | `writeHeads` writes the header only when it is non-empty, and otherwise changes nothing |
| `FileSink.FileOutput.WriteRows` | packages/core/src/output.ts:143-147 | `writeRows` writes exactly `formatter.rows(structs, 0, flat)` |
| `FileSink.FileOutput.Close` | packages/core/src/output.ts:148-153 | `close` writes the footer, then ends the stream |
| `FileSink.FileOutput.Dispose` | packages/core/src/output.ts:154-156 | `dispose` ends the stream without writing, whether or not `close` ran |
| `FileSink.FileOutput.Perform` | packages/core/src/output.ts:133-157 | any call, in any state, changes the stream exactly as `FileStep` says; `open` changes nothing |
| `FileSink.FileOutput.Run` | packages/core/src/output.ts:133-157 | a sequence of calls, in any order and any state, leaves the stream exactly as `FileRun` says |
| `FileSink.DisposeScenario` | packages/core/src/output.test.ts:186-200 | on a fresh stream, `open` leaves it open, and `dispose` right after ends it with nothing written |
| `FileSink.SessionScenario` | packages/core/src/output.test.ts:202-343 | a full session on a fresh stream delivers the header if non-empty, the rows from row 0 and the footer, and ends the stream |

## Left out

- Asynchrony. Every operation is modelled as a call that completes at once, and concurrent overlapping calls are out of scope.
- The `Promise` that `close` of the file sink awaits. The race between `error` and `finish` on the stream is not modelled, and neither is the rejection that reports a stream error. `close` is modelled as "footer written, then stream ended".
- The `Thenable<boolean>` that `postMessage` returns. The viewer sink awaits it but ignores it.
- The bodies of the formatters (table, markdown, CSV, JSON), of `createFlat`/`toRows` and of `toSerializableEdgeInfo`. They are not part of this model; they enter as function values. The concrete table, markdown and CSV texts in `output.test.ts` are properties of those formatters, so the scenarios state them only in terms of `header`, `rows` and `footer`.
- `Struct`, `JobInfo` and `TableInfo` values are modelled as plain maps of values. The sinks never look inside them.
- The heads of a flat carry only their `id`, which is the only attribute the sinks read.
- JavaScript numbers in row values are modelled as integers. Floating point is not modelled.
- `packages/extension/src/dryRunner.ts` is editor and query orchestration. `src/config.d.ts` holds type declarations only. Neither is part of this model.
