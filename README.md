# Oral-answer analysis front end: a verified model of its logic

The application lets a user upload an audio recording of a spoken answer on a topic. It
sends the recording to a backend that transcribes and scores it, then shows the score,
the correct aspects, the mistakes and the recommendations. It keeps the ten most recent
analyses in the browser's local storage. This project models the logic behind the page
in Dafny and proves what that logic guarantees.

- **History store** (`MockApi`, `mock_api.dfy`). The one local-storage key is the field
  `stored` of a `HistoryStore` object. It holds `Missing` (no key, or the empty string),
  `Corrupt` (text that does not parse) or `Stored(records)`. The four operations read,
  prepend-and-trim, filter or remove that value. The proofs cover the bound of ten, the
  newest-first order and eviction. They also cover deletion of every matching id with
  order kept, and the fallback to an empty history.
- **Backend client** (`RealApi`, `real_api.dfy`). This module holds the adapter from the
  backend payload to the UI's `AnalysisResponse` and the steps of `analyzeAudio`. `JsField`
  tells an absent property from a `null` one and from a value, which is what `??` and the
  runtime's `TypeError`s depend on. `Fetched` is what `fetch` and `response.json()`
  produced. `Outcome` is the value the call settles with.
- **Controller** (`App`, `app.dfy`). The page's state fields live in a `Controller` class
  that holds the store. Its handlers take as parameters the network outcome, the
  clock-derived id and date, and the answer to the confirmation dialog.
- **Components**:
  - `AnalysisForm` models the form's file and playback state, the submit guard, `isValid`
    (with ECMAScript's `trim`) and `formatTime`.
  - `AnalysisHistory` models the panel statistics, the badge colour and the count noun.
  - `ResultsDisplay` models the emoji and the message.
  - `ScoreIndicator` models the colours, the description, the letter grade and the "до 100"
    figure.
  - `Bands` holds the 0–10 banding that two of these components share.

Behaviour worth knowing, as the code has it:

- `deleteAnalysis` removes every record carrying the id, not only the first.
- The error message of a failed request has three sources, in this order:
  1. the body's non-empty `error` string;
  2. the fixed text "Ошибка сервера" when the body parses but has no usable `error`;
  3. the status text when the body does not parse, or parses to `null`.
- The adapter is not total: it reads `data.analysis.score` unguarded. An OK response whose
  payload lacks `analysis` therefore ends in a thrown `TypeError`, not in a defaulted
  result.
- `handleDeleteAnalysis` always ends in a reset, because after the filter the id can never
  be found. It does not update `showHistory`.
- The score scales disagree. The colour bands and the description use 6 and 8 as
  thresholds, as if scores ran from 0 to 10. The grade, the emoji and the message use 60
  to 90, as if they ran from 0 to 100. `ScoreIndicator.ScalesDisagree` proves it: every
  score from 8 up to 60 gets the green band and the top description, yet grade D and the
  lowest emoji and message.

## Model

| member | source | states |
|---|---|---|
| MockApi.Slice | src/app/api/mockApi.ts:29 | `slice(0, end)` is the prefix of length min(end, length) |
| MockApi.SaveInto | src/app/api/mockApi.ts:25-31 | the saved list has at most 10 records, the new one first, then the previous list's first 9 in order |
| MockApi.Without | src/app/api/mockApi.ts:46-50 | no surviving record has the id; a record survives exactly when it was there and has another id; never longer |
| MockApi.WithoutAppend | src/app/api/mockApi.ts:48 | the filter distributes over concatenation, so survivors keep their relative order |
| MockApi.WithoutAbsent | src/app/api/mockApi.ts:46-50 | deleting an id no record carries leaves the list unchanged |
| MockApi.WithoutIdempotent | src/app/api/mockApi.ts:46-50 | deleting the same id twice equals deleting it once |
| MockApi.SaveKeepsDuplicateIds | src/app/api/mockApi.ts:25-31 | no uniqueness check: a record with the newest record's id is saved beside it |
| MockApi.SaveAllKeepsNewest | src/app/api/mockApi.ts:25-31 | repeated saves from a list of at most 10 leave the first 10 of (saved records newest first, then the old list) |
| MockApi.ElevenSavesKeepLastTen | src/app/api/mockApi.ts:26-30 | eleven saves into an empty store keep exactly the last ten, newest first |
| MockApi.HistoryStore.GetAnalysisHistory | src/app/api/mockApi.ts:33-39 | never fails: the stored records, or `[]` when the key is missing, empty or unparsable |
| MockApi.HistoryStore.SaveAnalysis | src/app/api/mockApi.ts:25-31 | the key then holds the new record followed by the previous history's first 9, at most 10 in all |
| MockApi.HistoryStore.ClearAnalysisHistory | src/app/api/mockApi.ts:42-44 | the key is removed, so the next read yields `[]` whatever was stored |
| MockApi.HistoryStore.DeleteAnalysis | src/app/api/mockApi.ts:46-50 | the key then holds the previous history without any record with that id; unchanged content if the id was absent |
| RealApi.MapBackendToFrontend | src/app/api/realApi.ts:36-44 | given an `analysis` value that is neither missing nor `null`: text or `""`, the numeric score or 0 when missing, null or NaN, and the three lists passed through or `[]` |
| RealApi.MapRecoversResponse | src/app/api/realApi.ts:36-44 | a response sent in the backend's shape is recovered field for field |
| RealApi.MapDefaultsEverything | src/app/api/realApi.ts:36-44 | with all optional fields absent the result is `""`, 0 and three empty lists |
| RealApi.ErrorMessage | src/app/api/realApi.ts:62-71 | the body's non-empty `error`; else "Ошибка сервера" when the body parsed to a non-null value; else the status text (a body that does not parse, or parses to `null`) |
| RealApi.NonOkAlwaysThrows | src/app/api/realApi.ts:62-74 | a non-OK response always throws an `Error` carrying that message and never returns a result |
| RealApi.ReadPayload | src/app/api/realApi.ts:76-78 | the OK path yields a result exactly when the body is a JSON object whose `analysis` is neither missing nor `null`, and then the adapted payload; otherwise it throws an `Error` (SyntaxError or TypeError) |
| RealApi.Outcome | src/app/api/realApi.ts:49-79 | a fetch rejection rethrows its error; a non-OK response throws the message `ErrorMessage` picks; a result comes exactly from an OK response whose body has an `analysis` value that is neither missing nor `null`, and it is the adapted payload |
| RealApi.OkWithoutAnalysisThrows | src/app/api/realApi.ts:39 | an OK response whose payload's `analysis` is missing or `null` throws the `TypeError` of reading `score`, never a defaulted result |
| RealApi.OkReturnsMapped | src/app/api/realApi.ts:76-78 | an OK response with an `analysis` value that is neither missing nor `null` returns exactly the adapted payload |
| RealApi.OutcomeThrowsOnlyErrors | src/app/api/realApi.ts:49-79 | whatever `analyzeAudio` throws is an `Error` instance |
| RealApi.AnalyzeAudio | src/app/api/realApi.ts:49-79 | the request holds exactly the parts `audio` then `topic`; the outcome is the one the response determines |
| App.ErrorText | src/app/App.tsx:58-63 | the thrown `Error`'s message, or the fixed fallback for anything else |
| App.Find | src/app/App.tsx:89 | finds the first record with the id, and finds none exactly when no record has it |
| App.DeletedIdIsGone | src/app/App.tsx:83-92 | after the filter, looking the id up finds nothing |
| App.Controller.constructor | src/app/App.tsx:20-30 | initial state, then the mount-time load of the stored history |
| App.Controller.LoadHistory | src/app/App.tsx:32-36 | `history` is the stored list; `showHistory` holds exactly when it is non-empty |
| App.Controller.HandleAnalyze | src/app/App.tsx:38-67 | topic and file name set in any case. Success: result shown, record first in history and storage. Failure: error set, nothing saved. Loading ends false |
| App.Controller.HandleReset | src/app/App.tsx:69-74 | result, error, topic and file name cleared; history untouched |
| App.Controller.HandleSelectAnalysis | src/app/App.tsx:76-81 | shows the chosen record's result, topic and file name; storage and history untouched |
| App.Controller.HandleDeleteAnalysis | src/app/App.tsx:83-92 | storage and history lose every record with the id, and the view is always reset |
| App.Controller.HandleClearHistory | src/app/App.tsx:94-104 | confirmed: storage removed, history empty, panel hidden, a reset only if a result was shown; otherwise nothing changes |
| App.Controller.ToggleHistory | src/app/App.tsx:129 | the header button flips `showHistory`; history, result, error, loading flag, topic and file name stay |
| Bands.TenPointBand | src/app/components/ScoreIndicator.tsx:41-57 | high for at least 8, middle for [6, 8), low below 6: exhaustive and exclusive |
| Bands.TenPointBandMonotone | src/app/components/AnalysisHistory.tsx:37-41 | a higher score never gets a lower colour band |
| AnalysisHistory.SafeScores | src/app/components/AnalysisHistory.tsx:22-26 | one entry per record, in order: the score when it is a number, else 0 |
| AnalysisHistory.MaxOf | src/app/components/AnalysisHistory.tsx:35 | `Math.max` of a non-empty list is at least every element and equal to one |
| AnalysisHistory.BestScore | src/app/components/AnalysisHistory.tsx:34-35 | at least every safe score and equal to one of them; 0 for none |
| AnalysisHistory.MeanWithinBounds | src/app/components/AnalysisHistory.tsx:28-32 | the sum divided by the count lies within any bounds of the scores |
| AnalysisHistory.AverageScore | src/app/components/AnalysisHistory.tsx:28-32 | 0 for no scores; otherwise it lies between the smallest and the best score |
| AnalysisHistory.AverageTimesCount | src/app/components/AnalysisHistory.tsx:28-32 | for at least one score, the average times the count gives back the sum, so it is the mean |
| AnalysisHistory.ScoreColor | src/app/components/AnalysisHistory.tsx:37-41 | the badge classes of the score's 0–10 band |
| AnalysisHistory.CountLabel | src/app/components/AnalysisHistory.tsx:57 | "запись" exactly for one record, "записей" otherwise |
| AnalysisHistory.Summarize | src/app/components/AnalysisHistory.tsx:18-35 | nothing for an empty history; otherwise the count, its noun ("запись" for one record, "записей" otherwise), the best score, and the average, which is `AverageScore` of the safe scores (their mean, by `AverageTimesCount`) |
| ResultsDisplay.TierOf | src/app/components/ResultsDisplay.tsx:13-27 | the band is 4, 3, 2, 1, 0 for at least 90, [80, 90), [70, 80), [60, 70), below 60 |
| ResultsDisplay.ScoreEmoji | src/app/components/ResultsDisplay.tsx:13-19 | the emoji of the score's band: 🎉 🌟 👍 📝 📚 from the top band down |
| ResultsDisplay.ScoreMessage | src/app/components/ResultsDisplay.tsx:21-27 | the message of the score's band, by the same four thresholds |
| ResultsDisplay.TierMonotone | src/app/components/ResultsDisplay.tsx:13-27 | a higher score never lands in a lower band |
| ResultsDisplay.EmojiAndMessageAgree | src/app/components/ResultsDisplay.tsx:13-27 | two scores share an emoji exactly when they share a message, exactly when they share a band |
| ScoreIndicator.ScoreColor | src/app/components/ScoreIndicator.tsx:41-45 | the text colour of the score's 0–10 band |
| ScoreIndicator.ProgressColor | src/app/components/ScoreIndicator.tsx:47-51 | the bar gradient of the score's 0–10 band |
| ScoreIndicator.GlowColor | src/app/components/ScoreIndicator.tsx:53-57 | the glow of the score's 0–10 band |
| ScoreIndicator.ColoursAgree | src/app/components/ScoreIndicator.tsx:41-57 | the three colour helpers always agree on the band |
| ScoreIndicator.DescriptionLines | src/app/components/ScoreIndicator.tsx:65-67 | exactly one description fragment is shown, the one of the score's band |
| ScoreIndicator.LetterGrade | src/app/components/ScoreIndicator.tsx:155 | A for at least 90, B for [75, 90), C for [60, 75), D below 60 |
| ScoreIndicator.GradeMonotone | src/app/components/ScoreIndicator.tsx:155 | a higher score never gets a lower grade |
| ScoreIndicator.PointsToHundred | src/app/components/ScoreIndicator.tsx:161 | 100 − floor(score): between 100 − score and 101 − score, within [0, 100] for a score in [0, 100] |
| ScoreIndicator.ScalesDisagree | src/app/components/ScoreIndicator.tsx:155 | a score in [8, 60) gets the green colour and top description, yet grade D and the lowest emoji and message |
| AnalysisForm.Trim | src/app/components/AnalysisForm.tsx:109 | `trim()` gives the slice of the input with only white space before and after it, neither starting nor ending with white space |
| AnalysisForm.TrimEmptyIff | src/app/components/AnalysisForm.tsx:109 | `trim()` leaves nothing exactly when every character is ECMAScript white space |
| AnalysisForm.IsValid | src/app/components/AnalysisForm.tsx:109 | valid exactly when the topic has a non-white-space character and a file is chosen |
| AnalysisForm.Form.constructor | src/app/components/AnalysisForm.tsx:12-17 | empty topic, no file or URL, not playing, time 0 |
| AnalysisForm.Form.SetTopic | src/app/components/AnalysisForm.tsx:135 | the topic becomes the typed value; nothing else changes |
| AnalysisForm.Form.HandleFileChange | src/app/components/AnalysisForm.tsx:30-44 | the first chosen file is taken only if its MIME type starts with "audio/": file and URL set, not playing, time 0; otherwise nothing changes. The object URL is non-empty, as `URL.createObjectURL` guarantees |
| AnalysisForm.Form.HandleRemoveFile | src/app/components/AnalysisForm.tsx:46-57 | no file, no URL, not playing, time 0 |
| AnalysisForm.Form.TogglePlayPause | src/app/components/AnalysisForm.tsx:59-68 | flips `isPlaying` when the audio element is mounted, and changes nothing otherwise |
| AnalysisForm.Form.HandleEnded | src/app/components/AnalysisForm.tsx:82-85 | not playing, time 0 |
| AnalysisForm.Form.HandleSubmit | src/app/components/AnalysisForm.tsx:101-107 | calls `onSubmit` exactly when a file is chosen and the untrimmed topic is non-empty, with those two values unchanged |
| AnalysisForm.ValidFormPassesSubmitGuard | src/app/components/AnalysisForm.tsx:101-109 | a valid form always passes the submit guard; a blank topic is not valid |
| AnalysisForm.NatToString | src/app/components/AnalysisForm.tsx:98 | `toString()` of a natural number is a non-empty string of decimal digits with no leading zero (a first `0` only for 0 itself) |
| AnalysisForm.NatToStringRoundTrip | src/app/components/AnalysisForm.tsx:98 | reading those digits back gives the number |
| AnalysisForm.MinutesAndSeconds | src/app/components/AnalysisForm.tsx:96-97 | for t ≥ 0, `floor(t / 60)` and `floor(t % 60)` are quotient and remainder of floor(t) by 60 |
| AnalysisForm.PaddedSeconds | src/app/components/AnalysisForm.tsx:98 | seconds below 60, padded, are exactly two digits that read back as the value |
| AnalysisForm.FormatTime | src/app/components/AnalysisForm.tsx:95-99 | for t ≥ 0: the whole minutes, ":", then the remaining whole seconds as exactly two digits |
| AnalysisForm.FormatTimeOfNonNegative | src/app/components/AnalysisForm.tsx:95-99 | for t ≥ 0: minutes, ":", two-digit seconds below 60; minutes × 60 + seconds = floor(t) |

## Left out

- The HTTP exchange is not modelled: `fetch`, the hard-coded URL, the multipart wire
  encoding and JSON parsing. What they produce is the input `Fetched`.
- A non-string `error` field in an error body is not modelled; the model reads `error`
  only as a string.
- A value that `Number()` turns into an infinity is not modelled; `Numeric` has only finite
  numbers and NaN.
- localStorage and JSON encoding are not modelled. A stored text that parses to something
  other than an array is not modelled either.
- The optional `audioUrl` of a saved record is not modelled, because the application never
  sets it.
- The runtime's `TypeError` messages, from reading a property of `null` or `undefined`, use
  V8's wording. Other engines word them differently.
- The async sequencing of `handleAnalyze` is not modelled: `isLoading` is true only between
  the handler's steps. A second submission while one is pending is excluded by the disabled
  button and is not modelled.
- An exception thrown by `saveAnalysis` inside the `try` of `handleAnalyze` (for example a
  full storage quota) is not modelled.
- Nondeterministic inputs are parameters: `Date.now()` and `toISOString()`, the answer of
  `confirm()`, and the URL from `URL.createObjectURL`. Revoking object URLs is not modelled.
- The audio element is not modelled: its `play`/`pause` calls, seeking, `timeupdate` and
  `loadedmetadata` (and the `duration` state they feed), and clearing the file input's
  value. The element's presence is a parameter of `TogglePlayPause`.
- Rendering is not modelled: JSX, animations, icons, `window.scrollTo`, the score
  count-up timer and interval, and `toFixed`, `toLocaleDateString` and MB-size displays.
- The mount-time effect that loads the history is folded into `App.Controller.constructor`.
- AnalysisHistory.AverageScore: uses exact real arithmetic, so floating-point rounding of
  the sum and the division is not modelled.
- AnalysisForm.FormatTimeOfNonNegative: states the format only for non-negative times, the
  only ones the audio element reports. `FormatTime` is defined for every real, with
  JavaScript's truncating `%`. NaN and infinite times are not modelled.
- AnalysisForm.FormatTime: states the format only for non-negative times, for the same
  reason as `FormatTimeOfNonNegative`.
- AnalysisForm.Form.HandleFileChange: requires a non-empty object URL, as
  `URL.createObjectURL` always returns one. The source tests the URL for truthiness, and for
  an empty URL the model's `Some("")` would differ from the source's `""`.
- ScoreIndicator.PointsToHundred: scores are reals, so NaN is not modelled.
- `src/types/analysis.ts` and the duplicate `AnalysisRequest`/`AnalysisResponse`
  declarations in `mockApi.ts` describe no behaviour. `AnalysisResponse` is declared once,
  in `MockApi`.
- The build configuration `vite.config.ts` and the module-level `console.log` of
  `realApi.ts` are not modelled.
