# EchoAI mock-interview app: session logic in Dafny

This project models the three small state machines inside the EchoAI mobile
front-end and proves properties about them:

- **The interview session** (`app/interview.tsx`, module `Interview`). A class
  `InterviewSession` holds the current question index, the list of recorded
  answer URIs, the recording flag and recorder instance, and two panel toggles.
  The handlers start a recording, stop it, jump to a question and flip the
  panels. `SubmitAll` is the submission step up to the network call. It checks
  every recorded file, stops at the first one that is missing or empty or
  whose lookup throws, and otherwise builds the multipart payload. That payload is one `questions`
  field followed by one `answers` file part per recording. Device and file
  system results are plain inputs:
  - `StartOutcome`: permission denied, a device call threw, or started.
  - `StopOutcome`: a device call threw, or stopped with a URI that may be null.
  - `FileTable`: for each file, whether the lookup throws, and otherwise
    whether the file exists and its size.
- **The interview-type selection wizard** (`app/selection.tsx`, module
  `Selection`). A class `SelectionScreen` holds the mode and seven optional
  choices. Every button handler toggles a value. The mode, main-topic and
  sub-topic handlers then apply the level-based `resetSelections`; the
  specific-area handler clears the difficulty directly; the difficulty,
  company, role and question-type handlers clear nothing. A pure record
  `Selection` carries the proceed guard and the `onProceed` navigation target. The two-level `topics` table is a
  constant, and the option lists come from it.
- **The user session store** (`store/userStore.ts`, module `UserStore`). A
  class `UserSession` with `user` and `isAuthenticated`. The invariant
  "authenticated exactly when a user is held" holds after the constructor and
  after each of `SetUser`, `Login` and `Logout`.

The model follows the code as written:

- A stop appends the URI to the end of the list, even after a jump. It does not
  store the URI at the current index.
- A stop makes no size check.
- `currentIndex` never goes past the last question. The final stop leaves it
  there and triggers the submission.
- `startRecording` has no guard against a second start. A new recorder replaces
  the old one.
- A jump is allowed while recording.
- `if (uri)` and the `a && b && c` guards treat the empty string as absent.
  `Nullable.Truthy` models this.

## Model

| member | source | states |
|---|---|---|
| Interview.InterviewSession.constructor | app/interview.tsx:43-48 | A new session is at question 0 with no recordings and no recorder. The question list is hidden and subtitles are shown. The session invariant holds. |
| Interview.InterviewSession.StartRecording | app/interview.tsx:63-116 | A denied permission or a failing device call changes nothing. A started recorder becomes the instance and sets `isRecording`, even if a recorder was already held. Index and recordings are unchanged. |
| Interview.InterviewSession.StopRecording | app/interview.tsx:118-160 | With no recorder, or when a device call throws, nothing changes. Otherwise a truthy URI is appended at the end and earlier entries are kept; a null or empty URI leaves the list alone. The recorder is cleared and `isRecording` becomes false. Below the last question the index rises by exactly 1 and nothing is submitted. On the last question the index stays and the submission runs over the list as it was before this stop. The index stays on a question. |
| Interview.InterviewSession.GoToQuestion | app/interview.tsx:227-232 | Another index becomes current and hides the question panel, with nothing else changed. The current index changes nothing. |
| Interview.InterviewSession.ToggleQuestions | app/interview.tsx:219-221 | Flips the question panel and nothing else. |
| Interview.InterviewSession.ToggleSubtitles | app/interview.tsx:223-225 | Flips subtitle visibility and nothing else. |
| Interview.FirstUnusable | app/interview.tsx:167-178 | Returns no index exactly when every recording passes the check. Otherwise it returns the first recording that fails, because it is missing, empty or its lookup throws; all recordings before it pass. |
| Interview.SubmitAll | app/interview.tsx:163-191 | The check loop with early return and the part-by-part payload loop compute exactly `SubmissionOf` for the given list. |
| Interview.Usable | app/interview.tsx:169-171 | A recording passes the check exactly when its lookup returns and the abort test of line 171 (the file does not exist, or its size is 0) is false; a passing file has a size above 0. |
| Interview.SubmissionOf | app/interview.tsx:167-191 | Uploads exactly when every recording passes the check. Otherwise it stops at the first recording that fails. If that recording's lookup threw, the submission ends silently with no alert and no upload. Otherwise it is an abort naming the 1-based position `i+1` and the size of that recording. In every case all earlier recordings passed. An upload's answer files are exactly the list in order, and its `questions` fields are exactly the question list, once. |
| Interview.PayloadLayout | app/interview.tsx:183-191 | The payload has one part more than the list. Part 0 is the `questions` field. Part i+1 is the `answers` file for recording i, named `answer_<i>.m4a` with type `audio/m4a`. No two parts share a file name. |
| Interview.FormOf | app/interview.tsx:183-191 | The payload has one part more than the list, with the `questions` field first. Reading it back yields the recording list unchanged, in order, and the question list exactly once. |
| Interview.AnswerPartsLayout | app/interview.tsx:185-191 | The answer parts numbered from `from` are one per recording, with recording j at part j named after `from + j`. |
| Interview.AnswerPartsReadBack | app/interview.tsx:185-191 | The answer parts alone read back to the recording list and carry no `questions` field. |
| Interview.Decimal | app/interview.tsx:188 | The printed index is a non-empty string of decimal digits. |
| Interview.DecimalInjective | app/interview.tsx:188 | Two indices with the same decimal numeral are equal. |
| Interview.AnswerNameInjective | app/interview.tsx:188 | Two equal file names `answer_<i>.m4a` and `answer_<j>.m4a` mean i = j. |
| Interview.AnswerNamesDistinct | app/interview.tsx:185-191 | Different positions in the list get different answer file names. |
| Interview.StaleRecordingsScenario | app/interview.tsx:140-152 | Three questions, each answered with a non-empty file. The upload triggered by the final stop carries only the first two answers. |
| Interview.InterviewSession.StopRecordingLatest | app/interview.tsx:140-152 | Same as `StopRecording`, except that the final submission runs over the list that includes the URI just added. |
| Interview.LatestRecordingsScenario | app/interview.tsx:140-152 | The same three answers through `StopRecordingLatest` upload all three, in order. |
| Selection.Lookup | app/selection.tsx:174-200 | Property access `table[key]` is absent exactly when `key` is not among the table's keys. When present, it is the value stored under `key`. |
| Selection.MainTopicOptions | app/selection.tsx:150 | The main-topic bubbles are the keys of `topics`, `Technical` then `Non-Technical`. |
| Selection.SubTopicOptions | app/selection.tsx:174 | The sub-topic bubbles under an offered main topic are the keys of that topic's entry in `topics`; there are none under any other name. |
| Selection.SpecificOptions | app/selection.tsx:200 | Any specific-area bubbles shown under `main` and `sub` are the list stored at `topics[main][sub]`; there are none under a name that is not a main topic. |
| Selection.SpecificsOffered | app/selection.tsx:34-49 | Under an offered main topic and an offered sub-topic, the sub-topic name is non-empty and the list of specific areas is non-empty with non-empty names. |
| Selection.TopicOptionsOffered | app/selection.tsx:34-49 | The main topics offered are `Technical` and `Non-Technical`. Each offers sub-topics, and each offered sub-topic offers at least one specific area. No offered name is empty. |
| Selection.ProceedEnabled | app/selection.tsx:310-317 | "Start Interview" is enabled only with a mode chosen. In topic mode, main topic, sub-topic, specific area and difficulty are all set. In company mode, company, role and question type are all set. |
| Selection.OnProceed | app/selection.tsx:84-105 | Navigates exactly when the "Start Interview" guard holds. It passes exactly main topic, sub-topic, specific area and difficulty in topic mode, or exactly company, role and question type in company mode. |
| Selection.TopicProceedIffDifficulty | app/selection.tsx:310-317 | In topic mode, for any state the handlers keep consistent, proceeding is enabled exactly when a difficulty is chosen. |
| Selection.CompanyProceedIffAllChosen | app/selection.tsx:310-317 | In company mode, for any consistent state, proceeding is enabled exactly when company, role and question type are all chosen. |
| Selection.SelectionScreen.constructor | app/selection.tsx:56-63 | Starts with no mode and no choice, in a consistent state. |
| Selection.SelectionScreen.ResetSelections | app/selection.tsx:65-82 | 'all' clears all seven choices. 'main' clears only sub-topic, specific area and difficulty. 'sub' clears only specific area and difficulty. 'specific' and 'none' change nothing. The mode is never touched, and consistency is kept. |
| Selection.SelectionScreen.PressMode | app/selection.tsx:111-128 | A mode bubble sets the mode to none if it was already that mode, and to that mode otherwise. Either way it clears all seven choices. |
| Selection.SelectionScreen.PressMainTopic | app/selection.tsx:156-159 | Toggles the main topic and clears sub-topic, specific area and difficulty. Everything else is unchanged. |
| Selection.SelectionScreen.PressSubTopic | app/selection.tsx:180-183 | Toggles the sub-topic and clears specific area and difficulty. Everything else is unchanged. |
| Selection.SelectionScreen.PressSpecific | app/selection.tsx:206-209 | Toggles the specific area and clears the difficulty. Everything else is unchanged. |
| Selection.SelectionScreen.PressDifficulty | app/selection.tsx:232 | Toggles the difficulty. Nothing else changes. |
| Selection.SelectionScreen.PressCompany | app/selection.tsx:254 | Toggles the company. Nothing else changes. |
| Selection.SelectionScreen.PressRole | app/selection.tsx:273 | Toggles the role. Nothing else changes. |
| Selection.SelectionScreen.PressQuestionType | app/selection.tsx:293 | Toggles the question type. Nothing else changes. |
| UserStore.UserSession.constructor | store/userStore.ts:30-31 | Starts with no user and not authenticated. The invariant holds. |
| UserStore.UserSession.SetUser | store/userStore.ts:34-37 | Holds `u`, and is authenticated exactly when `u` is not null. |
| UserStore.UserSession.Login | store/userStore.ts:39-42 | Holds the given user and is authenticated. |
| UserStore.UserSession.Logout | store/userStore.ts:44-47 | Holds no user and is not authenticated. |

Each handler of `SelectionScreen` only receives values the screen actually
shows at that moment. For example, a sub-topic bubble exists only once a main
topic is chosen, and offers only the keys of `topics[main]`. Under that
condition the handlers preserve `Consistent`: each choice was offered under
the choices above it, and it exists only in its own mode.

## Left out

- Audio capture, audio-mode switching and text-to-speech are left out. This
  covers `expo-av`, `expo-speech`, and the effect that speaks each question
  when the index changes. They are device I/O, so only their results enter
  the model, as `StartOutcome` and `StopOutcome`.
- The file-size lookup `FileSystem.getInfoAsync` is left out. Its answer is
  the `FileTable` map: either the lookup throws, or it reports whether the file
  exists and its size. A size it does not report reads as 0, as `?? 0` does.
  A lookup that throws ends the submission as `LookupFailed`. The call is
  outside any `try` and `submitAll` is not awaited, so nothing reports the
  error.
- Every handler is treated as one atomic step. In the code the async
  handlers await device calls between their guards and their state updates,
  and the record button keeps calling `stopRecording` while `isRecording` is
  still true. So the model cannot produce these interleavings:
  - A second tap on stop during the awaits reruns `stopRecording` with the
    same recorder. If both device calls return, the functional updater
    appends the URI twice, but the stale `currentIndex + 1` advances the
    index only once. If the second `stopAndUnloadAsync` throws, its catch
    appends nothing.
  - A `goToQuestion` tapped during the awaits of a stop is overwritten by the
    stale `currentIndex + 1`. On the last question, the stale index submits
    instead of advancing.
- The upload itself (`apiRequest` to `/interview/submit`), the navigation to
  the review screen and the alerts are left out. `SubmitAll` ends with the
  payload, the abort or `LookupFailed`, before the network call. The payload's `questions`
  field holds the question list itself; the `JSON.stringify` encoding is left out.
- `SubTopicOptions` and `SpecificOptions` return `[]` for a main topic or
  sub-topic that is not a key of `topics`. There, `Object.keys(topics[x])`
  and `topics[x][y].map` would throw a TypeError. The screen never passes
  such a name: every handler keeps the selection consistent.
- Navigation from `onProceed` is its result value, a `Route`. Rendering,
  styles and the unused constants `moreCompanies` and `moreRoles` are left
  out; the screen never shows the latter two.
- `isLoading` in the interview screen is declared and never used, so it is
  left out.
- The store's AsyncStorage persistence is left out. So are the HTTP service
  wrapper and the other screens (login, register, resume upload, review,
  tabs), which are network or display code.

## Findings

| source | as written | input that shows it | evidently intended | confidence | as-written member | corrected member |
|---|---|---|---|---|---|---|
| app/interview.tsx:140-152 | `stopRecording` queues the new URI with `setRecordings`, then calls `submitAll`. `submitAll` reads the `recordings` array captured by that render, which lacks the URI just recorded, so the last answer is not in the upload that the final stop triggers. | Questions `["Q1","Q2","Q3"]`, three starts and three stops, each returning a URI of a non-empty file. The upload holds 2 answer parts. | The upload holds all 3 answers, in order. | not executed | Interview.StaleRecordingsScenario | Interview.InterviewSession.StopRecordingLatest |
