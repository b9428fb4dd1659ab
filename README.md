# Meeting summariser: verified model of its sequential core

The application is a browser tool that takes a meeting transcript (spoken
live, or pasted), has an external generative model extract key points,
decisions and action items from it, shows the result, and exports it as
plain text or as a paginated PDF. This project models, in Dafny, the parts of
it that are sequential logic, and proves what they promise:

- `types.dfy` (module `Types`): the action item with optional owner and
  deadline, the summary, the input mode, and the `|| 'N/A'` defaulting.
- `summary_export.dfy` (module `SummaryExport`): the plain-text export
  (`generateTextFile`) as a method with loops, proved equal to a
  specification function that a parser reads back; the on-screen summary
  view and its section visibility.
- `summary_pdf.dfy` (module `SummaryPdf`): the PDF export's vertical cursor
  and page-break logic (`downloadPdf` / `addSection`) as methods on a
  document object, proved against pure layout functions, with lemmas on
  those functions (fit or new page, page growth, advance per line, header
  placement).
- `recorder.dfy` (module `Recorder`): the live-capture component as a class
  over a recognition engine that only counts starts and stops: the result
  fold, error handling, the restart on end, and toggling.
- `text.dfy` (module `Text`) and `orchestrator.dfy` (module `Orchestrator`):
  JavaScript's `trim` and the application state object with its summarize,
  reset and mode handlers, the disabled-button predicate and what the page
  shows.

Inputs that come from outside are parameters: the PDF library's text
wrapping is a function `wrap` from a string to its number of lines, at least
one; the outcome of the summarisation request is an `Outcome` value passed to the
handler; speech results arrive as a sequence of `(isFinal, transcript)` with a
`resultIndex`.

Three details of the code that the model keeps: starting a recording clears
only the committed buffer and publishes `""` (the interim text is a local of
each result event, so there is no interim buffer to clear); the PDF's second
header is "Decisions" while the screen's is "Decisions Made"; and the engine
is not restarted when it ends during a recording (see Findings).

## Model

| member | source | states |
|---|---|---|
| `Types.OrNA` | components/SummaryDisplay.tsx:30 | the "N/A" fallback of an optional field: "N/A" exactly when the field is missing, empty, or itself "N/A"; otherwise the field's value; never empty |
| `SummaryExport.AppendBullets` | components/SummaryDisplay.tsx:26 | a `forEach` appends exactly the bullet lines of the list, in order, to the content |
| `SummaryExport.GenerateTextFile` | components/SummaryDisplay.tsx:23-32 | the built string equals the text export `TextFile(s)` |
| `SummaryExport.TextFileRoundTrip` | components/SummaryDisplay.tsx:24-30 | when no item has a line break, parsing the export gives back the key points, the decisions and the action-item lines: fixed headers in fixed order, every item once, in order, empty lists included |
| `SummaryExport.TextFileStartsWithTitle` | components/SummaryDisplay.tsx:24-25 | the export begins with "Meeting Summary\n\nKey Points:\n" |
| `SummaryExport.MissingOwnerAndDeadline` | components/SummaryDisplay.tsx:30 | an item with no (or empty) owner and deadline renders as "<task> (Owner: N/A, Deadline: N/A)" |
| `SummaryExport.SummaryView` | components/SummaryDisplay.tsx:99-114 | each on-screen section is present iff its list is non-empty, Key Points before Decisions Made before Action Items, and the table has one row per action item with its task and defaulted owner and deadline |
| `SummaryExport.ScreenMatchesExport` | components/SummaryDisplay.tsx:128-130 | the exported line of an item is built from exactly the cells the table shows |
| `SummaryPdf.ItemsLayoutSteps` | components/SummaryDisplay.tsx:64-71 | one draw per item, in order, with text "- item" and its line count; each at the page-break rule's position for the cursor below the previous item; the end cursor is below the last item |
| `SummaryPdf.ItemsFitOrTop` | components/SummaryDisplay.tsx:66-71 | every item is drawn where `y + 7·L <= 280` or at the top margin `y = 20` |
| `SummaryPdf.ItemsPageGrowth` | components/SummaryDisplay.tsx:66-68 | pages never decrease and grow by at most one per item |
| `SummaryPdf.ItemsAdvanceWithoutBreak` | components/SummaryDisplay.tsx:70-71 | without a page break the cursor moves down by 7 per drawn line |
| `SummaryPdf.SectionLayoutShape` | components/SummaryDisplay.tsx:56-74 | an empty section draws nothing and keeps cursor and page; otherwise header at the cursor, items from 10 lower, end 5 below the last item; without a break the section advances by 10 + 7·lines + 5 |
| `SummaryPdf.PdfLayoutStart` | components/SummaryDisplay.tsx:49-54 | the title is drawn at 20 on page 1 and the first non-empty section's header is drawn at 40 on page 1; with every list empty only the title is drawn and the cursor ends at 40 |
| `SummaryPdf.PdfItemsMatchText` | components/SummaryDisplay.tsx:65 | the texts the PDF draws for a list, one per line, are exactly that list's bullet lines in the text export |
| `SummaryPdf.HeaderBelowPageBottom` | components/SummaryDisplay.tsx:60-61 | a header is not bound-checked: a concrete summary puts the Decisions header at 284, below the 280 limit |
| `SummaryPdf.PdfDoc.constructor` | components/SummaryDisplay.tsx:48 | a new document has one page and nothing drawn |
| `SummaryPdf.PdfDoc.Text` | components/SummaryDisplay.tsx:70 | a text call is recorded on the current page and changes no page |
| `SummaryPdf.PdfDoc.AddPage` | components/SummaryDisplay.tsx:67 | adding a page increments the page count and draws nothing |
| `SummaryPdf.AddItem` | components/SummaryDisplay.tsx:65-71 | one item: a new page at the top margin exactly when the item would cross the bottom limit, the item drawn there on the current page, the cursor moved below it |
| `SummaryPdf.AddItems` | components/SummaryDisplay.tsx:64-72 | the item loop draws exactly the item layout and leaves the cursor and page at its end |
| `SummaryPdf.AddSection` | components/SummaryDisplay.tsx:56-74 | `addSection` draws exactly the section layout and leaves the cursor and page at its end |
| `SummaryPdf.DownloadPdf` | components/SummaryDisplay.tsx:47-78 | the document holds exactly the draws of the whole layout and its final page count |
| `Recorder.FinalsAppend` | components/AudioRecorder.tsx:34-35 | the committed text of two result lists in sequence is the concatenation of theirs |
| `Recorder.InterimsAppend` | components/AudioRecorder.tsx:36-37 | the interim text of two result lists in sequence is the concatenation of theirs |
| `Recorder.FinalsOfInterims` | components/AudioRecorder.tsx:33-38 | only final results commit text, and only non-final ones make interim text |
| `Recorder.RecognitionEngine.Start` | components/AudioRecorder.tsx:74 | a start is counted once, stops unchanged |
| `Recorder.RecognitionEngine.Stop` | components/AudioRecorder.tsx:69 | a stop is counted once, starts unchanged |
| `Recorder.AudioRecorder.constructor` | components/AudioRecorder.tsx:20-29 | mounting: not recording, empty buffer, the not-supported notice iff there is no engine |
| `Recorder.AudioRecorder.OnResult` | components/AudioRecorder.tsx:31-41 | results below `resultIndex` are ignored; each final one appends its text and ". " to the committed buffer, which keeps the old one as prefix; the interim text is rebuilt from empty; committed + interim is published; flag and error untouched |
| `Recorder.AudioRecorder.OnError` | components/AudioRecorder.tsx:43-47 | the error becomes "Speech recognition error: " + code, recording stops, the buffer is kept |
| `Recorder.AudioRecorder.OnEndAsWritten` | components/AudioRecorder.tsx:49-54 | restarts the engine iff the flag captured at mount is set; changes nothing else |
| `Recorder.AudioRecorder.OnEnd` | components/AudioRecorder.tsx:49-54 | restarts the engine iff the recorder is recording; buffers untouched |
| `Recorder.AudioRecorder.ToggleRecording` | components/AudioRecorder.tsx:65-78 | no engine: no change; recording: one stop, not recording, buffer kept; idle: buffer cleared, "" published, one start, recording, error cleared |
| `Recorder.StaleRestartScenario` | components/AudioRecorder.tsx:49-63 | with the handler as written, an engine ending mid-recording is not restarted though the recorder still shows recording |
| `Recorder.RestartScenario` | components/AudioRecorder.tsx:49-54 | with the intended handler, it is restarted once and the committed text is unchanged |
| `Text.TrimStart` | App.tsx:21 | a suffix of the input, not starting with whitespace, whatever was removed being whitespace |
| `Text.TrimEnd` | App.tsx:21 | a prefix of the input, not ending with whitespace, whatever was removed being whitespace |
| `Text.Trim` | App.tsx:21 | no longer than the input, neither starting nor ending with whitespace |
| `Text.TrimIsSlice` | App.tsx:21 | `trim()` returns a slice of the input with only whitespace before and after it |
| `Text.TrimEmptyIffBlank` | App.tsx:21 | `trim()` gives "" exactly when every character is whitespace |
| `Text.TrimsToEmpty` | App.tsx:21 | `!s.trim()` is true exactly for whitespace-only strings |
| `Orchestrator.FailureMessage` | App.tsx:33 | the banner text is the fixed unknown-error text exactly when a non-`Error` was thrown or the `Error` carried that text, and empty exactly when the `Error`'s message is empty |
| `Orchestrator.FailureViews` | App.tsx:33 | after a failed request the page shows the input panel again, and the error banner unless the thrown `Error` had an empty message |
| `Orchestrator.Views` | App.tsx:51-77 | input panel iff no summary and not loading; loader iff loading; banner iff a non-empty error; summary panel iff a summary; the input panel never shows with the loader or a summary |
| `Orchestrator.SummarizeDisabled` | App.tsx:62 | disabled iff the transcript is whitespace-only or loading is on |
| `Orchestrator.SummarizeButtonEnabled` | App.tsx:51-62 | whenever the input panel shows, its button is enabled iff the transcript has a non-whitespace character |
| `Orchestrator.App.constructor` | App.tsx:14-18 | the initial state: Record mode, empty transcript, no summary, no error, not loading |
| `Orchestrator.App.SetInputMode` | App.tsx:14 | a mode switch changes nothing else |
| `Orchestrator.App.SetTranscript` | App.tsx:15 | the transcript is replaced, nothing else changes |
| `Orchestrator.App.BeginSummarize` | App.tsx:20-27 | a request is sent iff the transcript is not whitespace-only; if not, only the empty-transcript error is set; if so, error and summary are cleared, loading is on and one request carries the transcript |
| `Orchestrator.App.CompleteSummarize` | App.tsx:28-36 | success stores the returned summary, failure stores its message; loading is off after both; the transcript is untouched |
| `Orchestrator.App.HandleSummarize` | App.tsx:20-37 | blank: only the error changes and nothing is sent; otherwise exactly one request, loading off, and the new summary with no error or the message with no summary; the transcript never changes |
| `Orchestrator.App.HandleReset` | App.tsx:39-44 | empty transcript, no summary, no error, not loading, mode kept, and only the input panel shows; the new state does not depend on the old one apart from the mode, so resetting twice equals resetting once |

## Left out

- The summarisation service (`services/geminiService.ts`): the model call, the prompt, the response schema, `JSON.parse` and the API-key check are outside the model; a request is recorded in `App.requests` and its outcome is a parameter.
- File download: the Blob, object URL and anchor click of the text export, and `doc.save` of the PDF, are I/O; the model stops at the string and at the document's draws.
- PDF fonts, font sizes and the `align: 'center'` option are not modelled; the wrapping of `splitTextToSize` (width 180) is the `wrap` parameter, so the actual line texts are not modelled, only their count.
- `SummaryExport.TextFileRoundTrip`: recovers the action-item lines, not the task/owner/deadline triples, because "N/A" defaulting makes an absent, an empty and a literal "N/A" owner read back alike; it also assumes no item contains a line break, since one that does splits into several lines.
- `Recorder.AudioRecorder.OnResult`: only the first alternative of each result is modelled, because the source reads only that one.
- The engine's configuration (continuous, interim results, locale) is not modelled.
- Mounting and unmounting of the recorder is not composed with the application state: the recorder unmounts whenever the mode leaves Record (components/TranscriptDisplay.tsx:29) and whenever the input panel hides at the start of a summarize (App.tsx:51); each unmount calls `recognition.stop()`, and a later mount is a fresh, idle recorder with an empty buffer over the same module-level engine (components/AudioRecorder.tsx:12, 57-61). The model has the mount (`AudioRecorder` constructor) but not the cleanup or the sharing of one engine across mounts.
- React's rendering, batching and scheduling and the async interleaving of events are concurrency and framework behaviour, not modelled. A reset while a request is outstanding cannot happen from this page: no Start Over button is shown while loading (App.tsx:51, 77), so `BeginSummarize` and `CompleteSummarize` are modelled back to back.
- The Upload mode is a placeholder with no behaviour; `components/Loader.tsx`, `components/InputTabs.tsx`, `components/TranscriptDisplay.tsx`, `components/ActionButtons.tsx` and `components/Header.tsx` are presentation. The summary panel passes `showReset={true}`, so it renders only the Start Over button and no Generate Summary button (components/ActionButtons.tsx:15, 24); the model does not state this.

## Findings

| source | as written | input that shows it | evidently intended | confidence | as-written member | corrected member |
|---|---|---|---|---|---|---|
| components/AudioRecorder.tsx:49-54 | `onend` tests `isRecording` from the closure of an effect that runs once at mount (empty dependency list, line 63), so it always sees `false` | mount with an engine, toggle to start recording, then the engine ends: the recorder still shows Recording but `start` is not called again | restart the engine when it ends while the recorder is recording, as the comment on line 51 says | high; not executed | `Recorder.AudioRecorder.OnEndAsWritten`, `Recorder.StaleRestartScenario` | `Recorder.AudioRecorder.OnEnd`, `Recorder.RestartScenario` |
