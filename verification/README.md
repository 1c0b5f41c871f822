# PitchCraft pitch pipeline in Dafny

PitchCraft turns a startup idea into a pitch. This project models the core of
that pipeline:

- The form's `main` handler (`src/pages/PitchInputForm.jsx`):
  - rejects a blank idea;
  - builds the prompt and asks the remote model;
  - reads the reply in three stages: the whole text as JSON, then its brace span, then the raw text as a summary;
  - saves the result and shows it, with the loading flag switched around all of this.
- The service `generatePitch` (`src/service/googlegemini.js`):
  - takes the brace span of the model's reply and parses it;
  - on any failure, returns the deterministic fallback pitch that `generateFallbackPitch` builds from the idea alone.
- The dashboard (`src/pages/Dashboard.jsx`):
  - shows each stored pitch as a card, with a placeholder for every missing field;
  - writes a PDF that lists eight fields in a fixed order under a moving vertical cursor, and names the file after the startup.

The modules:

- `JsValues`: JSON values, string property reads, and the `value || fallback` idiom.
- `Text`: JavaScript's `split`, `join` and `trim`.
- `BraceSpan`: the pattern `/\{[\s\S]*\}/`, given a reference definition (leftmost match, then longest) and proved equal to a first-`{`/last-`}` computation.
- `Fallback`: `generateFallbackPitch`.
- `Gemini`: `generatePitch`.
- `PitchForm`: `main`, modelled as the ordered list of effects a run performs and the state those effects leave.
- `Dashboard`: the cards, the PDF and the file name.

The parts of the pipeline that are not visible code become parameters of the model:

- the remote model: a function from model id and prompt to a reply or a thrown error;
- `JSON.parse`: a function returning a value or nothing for a `SyntaxError`;
- jsPDF's `splitTextToSize`;
- `toLocaleString`;
- whether the Firestore write succeeds;
- the clock.

Three behaviours of the code worth stating:

- `generatePitch` validates nothing. It never raises a validation error and always makes the remote call (`Gemini.EmptyIdeaIsNotRejected`).
- The fallback startup name is not always non-empty. An idea of spaces only gives the empty name (`Fallback.SpacesOnlyGiveEmptyName`).
- The form checks only the idea: an empty industry is sent as is (`PitchForm.IndustryIsNotChecked`).

## Model

| member | source | states |
|---|---|---|
| JsValues.StringField | src/pages/Dashboard.jsx:133-155 | a field reads as present exactly when the object has the key holding a string, and then it is that string |
| JsValues.Or | src/pages/Dashboard.jsx:133 | `x \|\| fallback` keeps a non-empty string, gives the fallback for a missing or empty one, and is never empty when the fallback is not |
| Text.Split | src/service/googlegemini.js:7 | `split(" ")` gives one part more than the input has spaces |
| Text.Take | src/service/googlegemini.js:7 | `slice(0, 2)` keeps the first two elements in order, or the whole list when it is shorter |
| Text.SplitDecomposes | src/service/googlegemini.js:7 | `split(" ")` yields at least one part, no part holds a space, and joining the parts with a space gives the input back |
| Text.SplitUnique | src/service/googlegemini.js:7 | any space-free parts that join back to the input are exactly what `split` returns |
| Text.Trim | src/pages/PitchInputForm.jsx:18 | `trim()` is empty exactly when every character is ECMAScript white space; otherwise it neither starts nor ends with white space and is a verbatim stretch of the input |
| Text.TrimLeavesOnlyWhiteSpace | src/pages/PitchInputForm.jsx:18 | everything `trim()` cuts, before and after the kept stretch, is white space |
| BraceSpan.SpanBounds | src/service/googlegemini.js:36 | there are no bounds exactly when the pattern matches nowhere; found bounds are the reported match: leftmost start, longest end from it |
| BraceSpan.Extract | src/service/googlegemini.js:36 | the span is missing exactly when nothing matches; otherwise it is the reported match's text, starting with `{` and ending with `}` |
| BraceSpan.ReportedMatchUnique | src/service/googlegemini.js:36 | at most one start and end pair is leftmost-then-longest |
| BraceSpan.ExtractIsReportedMatch | src/service/googlegemini.js:36 | whenever a reported match exists, the extraction returns exactly its text |
| BraceSpan.ExtractSpan | src/service/googlegemini.js:36 | a span that starts with `{` and ends with `}`, with no `{` before it and no `}` after it, is exactly what is extracted |
| BraceSpan.ExtractFramed | src/pages/PitchInputForm.jsx:51 | prose before the first `{` and after the last `}` is dropped, and everything between them is kept, other braces included |
| Fallback.StartupName | src/service/googlegemini.js:7 | the startup name never contains a space |
| Fallback.StartupNameOfWords | src/service/googlegemini.js:7 | for any split of the idea into space-free words, the name is the first word when there is one and the first two run together otherwise |
| Fallback.StartupNameOfTwoWords | src/service/googlegemini.js:7 | only the first two words count: an idea `w0 w1 rest` with space-free `w0`, `w1` is named `w0w1`, whatever `rest` is |
| Fallback.StartupNameOfOneWord | src/service/googlegemini.js:7 | an idea without a space, the empty one included, is its own name |
| Fallback.SpacesOnlyGiveEmptyName | src/service/googlegemini.js:7 | the idea `" "` gives the empty name |
| Fallback.Tagline | src/service/googlegemini.js:8-16 | a tone in the table gets its tagline, and any other tone gets the professional one |
| Fallback.TaglineByTone | src/service/googlegemini.js:8-16 | the taglines of professional, casual and innovative; fun and motivational fall back to the professional tagline; every result comes from the table |
| Fallback.ElevatorPitch | src/service/googlegemini.js:17 | the sentence holds name, industry and idea verbatim at fixed offsets between the template words, and ends with a full stop |
| Fallback.GenerateFallbackPitch | src/service/googlegemini.js:5-19 | total on every input; the name is the first two words of the idea run together, and space-free; the tagline is the table's entry for the tone; and the idea is the sentence's tail before the full stop |
| Fallback.ToJson | src/service/googlegemini.js:14-18 | the returned object reads back the three fields and has no `name` property |
| Fallback.WorkedName | src/service/googlegemini.js:7 | "app for student mentors" is named "appfor" |
| Fallback.WorkedSentence | src/service/googlegemini.js:17 | the worked example's sentence, letter for letter |
| Fallback.WorkedExample | src/service/googlegemini.js:5-19 | the idea "app for student mentors" in Education with the casual tone gives "appfor", "Making Life Better" and the full sentence |
| Gemini.Prompt | src/service/googlegemini.js:26-31 | idea, industry and tone each appear verbatim, in that order, at offsets fixed by what precedes them |
| Gemini.GeneratePitch | src/service/googlegemini.js:22-43 | a failed call gives the fallback; a reply with no span gives the fallback; otherwise the result is the parse of the reported span, or the fallback when that parse throws |
| Gemini.ReplyWithoutBraceIsLikeFailure | src/service/googlegemini.js:36-41 | a reply without `{` gives the same result as a failed call |
| Gemini.EmptyIdeaIsNotRejected | src/service/googlegemini.js:22-41 | an empty idea is not rejected: with a failing call the caller gets a pitch whose name is empty |
| Gemini.ParsedSpanReturnedUnchanged | src/service/googlegemini.js:37 | a span that parses is returned as parsed, unvalidated |
| PitchForm.Prompt | src/pages/PitchInputForm.jsx:22-39 | idea, tone and industry appear verbatim, in that order, at offsets fixed by the template text before them |
| PitchForm.SummaryOnly | src/pages/PitchInputForm.jsx:52 | the summary-only object reads back the text under `summary` and nothing under any other key |
| PitchForm.ParseReply | src/pages/PitchInputForm.jsx:47-53 | a reply that parses whole is used as is; otherwise the parse of the reported brace span is used; with no span, the raw text becomes the summary; a span that fails to parse escapes as an error |
| PitchForm.ReplayRuns | src/pages/PitchInputForm.jsx:20-67 | replaying each run's effects switches loading off, and only the successful run changes the displayed pitch |
| PitchForm.RunsShowOnlySavedPitches | src/pages/PitchInputForm.jsx:56-61 | in a successful run the pitch is shown right after it is saved, and a run whose save fails shows nothing |
| PitchForm.Attempt | src/pages/PitchInputForm.jsx:20-67 | the run starts with loading on and the request and ends with loading off; a read value is saved, and shown when the save succeeds; nothing is saved when the reading threw, and only the read value is ever saved; the output is set only right after a successful save of that very value; the inputs are untouched |
| PitchForm.Submit | src/pages/PitchInputForm.jsx:17-68 | a blank idea only alerts and changes nothing (iff); otherwise loading is on, the request goes out with the prompt, and loading is off at the end; the displayed pitch changes only to a value just saved; whatever is saved is what the three-stage reading of the model's reply produced, and when that reading produces a value for a non-blank idea it is saved, and shown if the save succeeds |
| PitchForm.FailedReadGivesFailedRun | src/pages/PitchInputForm.jsx:62-67 | when the call or the reading throws, the run logs, alerts and switches loading off, without saving or showing |
| PitchForm.SpanParseFailureIsNotRecovered | src/pages/PitchInputForm.jsx:52 | a brace span that fails to parse is not wrapped as a summary: nothing is saved, the display is unchanged, and the failure alert is shown |
| PitchForm.SuccessfulRun | src/pages/PitchInputForm.jsx:20-67 | a readable reply and a working save give exactly: loading on, request, save, show, loading off |
| PitchForm.IndustryIsNotChecked | src/pages/PitchInputForm.jsx:18 | an empty industry does not stop the request |
| Dashboard.FromDocument | src/pages/Dashboard.jsx:19 | each of the seven text fields of a stored pitch is present exactly when the document holds a string under its key, and is then that string; the timestamp's seconds are kept |
| Dashboard.SavedTimeLabel | src/pages/PitchInputForm.jsx:58 | a pitch saved at a time in milliseconds shows that time rounded down to the second, except that the first second after the epoch reads "Just now" |
| Dashboard.CreatedAtLabel | src/pages/Dashboard.jsx:159-165 | missing or zero seconds show "Just now"; other seconds are formatted as milliseconds, seconds times 1000 |
| Dashboard.CardView | src/pages/Dashboard.jsx:132-165 | no name, tagline, summary, problem, solution or audience on a card is blank; every non-empty stored field is shown as stored, and a missing or empty one shows "Unnamed Startup", "No tagline", "No summary available." or an em dash |
| Dashboard.PlaceholderShownIff | src/pages/Dashboard.jsx:133-155 | a placeholder appears exactly when the value is missing, empty, or equal to the placeholder |
| Dashboard.ProseReplyCard | src/pages/Dashboard.jsx:133-155 | a pitch saved from a reply with no JSON shows its text as the summary and placeholders everywhere else |
| Dashboard.FallbackPitchShowsUnnamed | src/pages/Dashboard.jsx:133 | the fallback pitch's name is stored under `startupName`, so its card would read "Unnamed Startup" |
| Dashboard.Content | src/pages/Dashboard.jsx:45 | a field's PDF body is wrapped from its text when non-empty and from an em dash when missing or empty |
| Dashboard.PdfContents | src/pages/Dashboard.jsx:50-62 | the PDF has one content per title, eight in all |
| Dashboard.CursorMonotone | src/pages/Dashboard.jsx:40-47 | the cursor moves down by at least ten units per field, so no two titles share a position |
| Dashboard.FileName | src/pages/Dashboard.jsx:64 | the file name ends in `_PitchCraft.pdf`, and what precedes that is the non-empty startup name, or "Pitch" |
| Dashboard.UnnamedFileNameCollides | src/pages/Dashboard.jsx:64 | an unnamed pitch and one named "Pitch" download under the same file name |
| Dashboard.DownloadPdf | src/pages/Dashboard.jsx:32-65 | heading first, then the eight fields in their fixed order, each title at the cursor (40, then plus seven per line plus ten) with its content, or an em dash, six units lower, then the save under the file name |

## Left out

- Firebase authentication, logout, navigation, and the dashboard's greeting, loading spinner and empty-state screen (`Dashboard.jsx:10-30`, `:67-124`) are view and session code outside the pipeline.
- The live Firestore subscription (`Dashboard.jsx:18-22`) is left out. The dashboard is modelled for one document at a time, given as its JSON data and the seconds of its timestamp. The document id (`Date.now()` as text) and the `id` field merged into each document are not modelled.
- The rendering of `output` under the form (`PitchInputForm.jsx:135-195`) is view code and is not modelled.
- Fonts, font sizes and the bold/normal switching in the PDF are not modelled. jsPDF's line wrapping is a parameter, and the model, like the code, never starts a new page.
- Logging (`console.warn`, `console.error`) is left out; a logged error appears only as the `LogError` effect.
- `await` ordering and concurrency are not modelled: React batching, and a second click while loading, which the disabled button prevents. Each run is one sequence of effects.
- JsValues.StringField: a stored field that holds a non-string value (a number, an array, an object) reads as missing, whereas the JavaScript would display or stringify it.
- Fallback.Tagline: the table lookup `taglines[tone]` is modelled as a plain map. A tone naming an inherited object property, such as `"constructor"`, would return that property in JavaScript, not the professional tagline.
- Gemini.GeneratePitch: an error thrown by the SDK or by `response.text()` is one `Failed` reply, and a `SyntaxError` from `JSON.parse` is the parser returning nothing; both lead to the fallback. The message logged at `googlegemini.js:40` is not kept. The model also does not require the parser to return an object for a span starting with `{`.
- PitchForm.Submit: a reply whose `response.text` is undefined is not modelled; the reply is always a string.
- `Date.prototype.toLocaleString` and the conversion of the saved `Date` to a Firestore timestamp are parameters or left out. `Dashboard.StoredSeconds` rounds milliseconds down to seconds.
- JavaScript's `Number` is not modelled: seconds are unbounded integers, and a `NaN` timestamp cannot occur.
