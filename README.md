# Meeting upload endpoint: a verified model

This project models the meeting-processing endpoint of a meeting-recording
service. An authenticated user uploads an audio file. The endpoint has it
transcribed by a speech-to-text service and asks a chat-completion model for
the decisions and action items in the transcript. It then titles the meeting
with today's date, stores one meeting row and replies with the row's id.

The model covers the decision logic of that endpoint:

- `Validation`: the audio whitelist, which accepts a file when its declared type
  is one of five audio types or its name ends in `.mp3`, `.m4a`, `.webm` or
  `.wav` in any letter case. It also has the blank-transcript guard, built on
  a model of JavaScript's `trim` and its whitespace set.
- `Transcription`: the speech-to-text adapter's error mapping.
- `Extraction`: the adapter that checks the completion's content, normalises
  the parsed JSON (`decisions` / `action_items` forced to arrays) and maps every
  failure to one message.
- `Title`: "Meeting on <Month> <day>, <year>" in the en-US long format.
- `Types`: `ActionItem` / `MeetingSummary`, their JSON encoding and the typed
  read-back of a stored summary.
- `Pipeline`: `POST` as a pure function over the outcomes of its collaborators
  (`Collaborators`). It returns the HTTP reply and the log of the
  collaborators it invoked (`Effect`). Each collaborator outcome is either a
  value or a thrown fault (`Outcomes.Call`). The session, the user lookup, the
  form, the transcription, the completion, `JSON.parse`, the clock and the
  insert are all inputs.

Behaviours of the code worth noting:

- An empty completion raises its own "No response" error inside the
  extraction adapter, but the adapter's `catch` replaces it with the generic
  extraction-failed message, so a caller cannot tell an empty completion from
  any other extraction failure.
- The normaliser does not produce a typed summary. It keeps any extra keys of
  the parsed object, and it does not check the array elements. `Types.Decode`
  is the typed view, defined only when every element has its declared type.
- A session whose email is the empty string is rejected with 401 like a
  missing session, because the code tests the email for truthiness.

## Model

| member | source | states |
|---|---|---|
| `Validation.IsValidAudio` | src/app/api/meetings/process/route.ts:91-97 | a file is accepted iff its type is one of the five listed audio types or its name ends with `.` and one of mp3, m4a, webm, wav (ASCII case-insensitive) |
| `Validation.AudioExtensionIgnoresCase` | src/app/api/meetings/process/route.ts:92 | changing the letter case of a file name never changes whether it has an audio extension |
| `Validation.AudioExtensionOnlySuffix` | src/app/api/meetings/process/route.ts:92 | the pattern is anchored at the end: anything may precede an audio extension |
| `Validation.Trim` | src/app/api/meetings/process/route.ts:103 | `trim` yields the window of the string left after removing JavaScript whitespace at both ends: everything outside it is whitespace, and a non-empty window starts and ends with non-whitespace |
| `Validation.IsBlank` | src/app/api/meetings/process/route.ts:103-108 | the transcript guard fires iff every character of the transcript is JavaScript whitespace (the empty string included) |
| `Transcription.TranscribeAudio` | src/app/api/meetings/process/route.ts:11-22 | the upstream text is passed on untrimmed; every upstream failure becomes the error "Failed to transcribe audio file" |
| `Extraction.Normalize` | src/app/api/meetings/process/route.ts:48-58 | on an object, each of `decisions` / `action_items` becomes `[]` exactly when missing or not an array, independently, and all other keys are untouched; arrays are unchanged; `null` and primitives throw |
| `Extraction.NormalizeIdempotent` | src/app/api/meetings/process/route.ts:51-56 | normalising a normalised value changes nothing |
| `Extraction.NormalizeKeepsWellFormed` | src/app/api/meetings/process/route.ts:51-58 | a completion already holding both arrays passes through unchanged |
| `Extraction.NormalizeFillsMissingActionItems` | src/app/api/meetings/process/route.ts:54-56 | a completion lacking `action_items` reads back with an empty action-item list and its decisions intact |
| `Extraction.ExtractActionItems` | src/app/api/meetings/process/route.ts:43-62 | succeeds iff the completion has non-empty content that parses and normalises, returning the normalised value; every failure surfaces as exactly "Failed to extract action items from transcript" |
| `Extraction.EmptyResponseMasked` | src/app/api/meetings/process/route.ts:43-62 | absent or empty-string content raises "No response from GPT-4" inside the adapter, and the caller only sees the generic extraction error |
| `Types.DecodeRoundTrip` | src/types/index.ts:1-9 | every summary reads back unchanged from its JSON encoding |
| `Title.MonthName` | src/app/api/meetings/process/route.ts:116-118 | the en-US long month names contain no space or comma |
| `Title.NatToStringRoundTrip` | src/app/api/meetings/process/route.ts:116-120 | the numeric day and year are decimal numerals, without a leading zero, that denote the number formatted |
| `Title.MeetingTitle` | src/app/api/meetings/process/route.ts:114-120 | every title starts with "Meeting on " |
| `Title.TitleInjective` | src/app/api/meetings/process/route.ts:114-120 | distinct dates give distinct titles: the title determines the date |
| `Title.TitleOnFifthOfMarch` | src/app/api/meetings/process/route.ts:114-120 | 5 March 2024 gives "Meeting on March 5, 2024" |
| `Pipeline.Authenticate` | src/app/api/meetings/process/route.ts:67-71 | no truthy session email gives 401 "Unauthorized" after the session read alone; otherwise the user lookup follows |
| `Pipeline.LookUpUser` | src/app/api/meetings/process/route.ts:73-80 | the user is looked up by the session's email; no user gives 404 "User not found" |
| `Pipeline.ReadUpload` | src/app/api/meetings/process/route.ts:82-97 | a missing file gives 400 "No file provided" and a refused file 400 "Invalid file type. Please upload an audio file.", both before transcription |
| `Pipeline.ProcessFile` | src/app/api/meetings/process/route.ts:99-108 | the accepted file is transcribed; a failed transcription throws the fixed transcription error, and a blank transcript gives 400 "Transcription resulted in empty text" before extraction |
| `Pipeline.Persist` | src/app/api/meetings/process/route.ts:110-139 | extraction is requested with the transcript; on success exactly one row (today's title, the file name, the untrimmed transcript, the normalised summary, the user's id) is created and 200 carries its id |
| `Pipeline.Post` | src/app/api/meetings/process/route.ts:65-149 | the collaborators run in pipeline order, none skipped or repeated, and stop at the first exit; transcription, extraction and the insert are each reached iff every earlier gate passed; the one row created is the one the outcomes determine; the reply is 200 with the row's id iff the insert succeeded, and an error body otherwise |
| `Pipeline.EarlyExits` | src/app/api/meetings/process/route.ts:66-97 | 401 "Unauthorized" after the session read alone; 404 "User not found" after the lookup by the session's email; 400 "No file provided" and 400 "Invalid file type. Please upload an audio file." before transcription; a throw from the session, lookup or form gives 500 with its message |
| `Pipeline.LateFailures` | src/app/api/meetings/process/route.ts:99-148 | a failed transcription gives 500 "Failed to transcribe audio file" and a blank transcript 400 "Transcription resulted in empty text", both before extraction; any extraction failure gives 500 "Failed to extract action items from transcript" before the insert; a failed insert gives 500 with its error's message |
| `Pipeline.UnreachedStagesIrrelevant` | src/app/api/meetings/process/route.ts:65-149 | collaborators after the exit point do not affect the reply or the log, so they are in effect never consulted |

## Left out

- The speech-to-text and chat-completion calls, including the prompt text, the model names and the temperature. They are network calls. Only their outcomes are modelled, as inputs.
- The database and the session library. The user lookup, the insert and the session read are modelled only as given outcomes. Store-assigned ids and timestamps are not modelled.
- Multipart parsing and `JSON.parse`. The form's `file` field is an input, and `JSON.parse` is a parameter that returns a value or throws. A form field that holds a string instead of a file is not modelled.
- Reading the clock and the locale library. Today's date is an input (year at least 1, month 1 to 12, day 1 to 31), and only the en-US long-month format is modelled. Time zones are not modelled.
- Logging, and the `async`/`await` structure.
- JSON object key order. Objects are maps, so the position of a key added by the normaliser is not modelled.
- `Extraction.Normalize`: when the parsed value is an array, the two properties the code assigns are not part of its JSON value. The model gives the array unchanged and does not model the in-memory object carrying them. The exact text of the TypeError for `null` and primitives is abstracted, because the adapter replaces it anyway.
- The UI pages and components, and the dashboard query. They only render what the store returns.
