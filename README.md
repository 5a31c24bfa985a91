# Study planner assistant — a Dafny model

This project models the core of the `iahelp` study-planner web app:

- **Task store** (`StudyPlannerContext`). This is the list of study tasks held by the React provider. It has two operations that replace the list: `addTask` puts a fresh, incomplete task in front, and `toggleComplete` flips the `completed` flag of the tasks carrying an id. The provider also computes the completion percentage `progress`, rounded to the nearest integer. It is modelled as the class `StudyPlanner` with a `seq<Task>` field.
- **Chat assistant** (`Chatbot`). This is the message log and the input draft of the chat component.
  - `push` appends a message.
  - `process` recognises the built-in commands: `aide`/`help`, `ajouter <titre>`/`add <titre>`, progress and list requests. It answers from the task store and adds a task when asked.
  - `onSubmit` first logs the user's text and a `...` typing indicator. It then either handles a built-in command locally or asks the model adapter. In both cases it removes every message whose text is `...`.
  - It is modelled as the class `Chatbot`, which holds a `StudyPlanner`.
- **Model adapter** (`Model`). This is `queryModel` and its helpers `callProxy` and `callGemini`.
  - The mode is chosen in a fixed order: a configured proxy URL, then a configured Gemini key, then offline.
  - Every failure of the remote call becomes a reply string.
  - In offline mode it gives canned replies.
  - The model works on values. The outcome of each HTTP request is a parameter, so the adapter is a pure function of the configuration, the outcomes and the prompt.

`Text` models the JavaScript string operations the code relies on: `trim`, `toLowerCase`, `startsWith`, `includes`, `indexOf`, `join`, `split` and number-to-string. `Wrappers` holds `Option` and `Result`.

Some behaviours of the code are modelled as written and stated as lemmas:

- **Leading space in an add command.** When the input starts with a space, `indexOf(' ')` finds that space. The new task's title is then the whole trimmed input, command word included (`LeadingSpaceKeepsCommandWord`).
- **Missing-title branch never taken.** An input that passes the add test always has a non-empty title, so the "missing title" branch of `process` is never reached (`AddTitleNonEmpty`, `NeverAddWithoutTitle`).
- **Inputs that bypass `process`.** `onSubmit`'s local-command test omits `progrès`, `tâche` and `tache`, although `process` would handle them. Such inputs go to the model adapter (`ProgresGoesRemote`, `TacheGoesRemote`).
- **Filter also removes user messages.** The indicator filter removes a user's own message when it is exactly `...` (`WithoutIndicatorKeeps`).

## Model

| member | source | states |
|---|---|---|
| StudyPlannerContext.StudyPlanner.constructor | iahelp/src/context/StudyPlannerContext.tsx:30-38 | the provider starts from the task list restored from storage |
| StudyPlannerContext.StudyPlanner.AddTask | iahelp/src/context/StudyPlannerContext.tsx:44-48 | the returned task has the given title, due date and notes, the fresh id and `completed` false; the new list is that task followed by the old list; unique ids stay unique |
| StudyPlannerContext.StudyPlanner.ToggleComplete | iahelp/src/context/StudyPlannerContext.tsx:50-52 | the new list is the old list with each task mapped through `ToggleIfMatch`; unique ids stay unique |
| StudyPlannerContext.StudyPlanner.Progress | iahelp/src/context/StudyPlannerContext.tsx:54 | the provider's current `progress` is `ProgressOf` its tasks: the completion percentage rounded half up (the `p` with `2n·p − n <= 200c < 2n·p + n`), at most 100, 0 while the list is empty and 100 once every task is completed |
| StudyPlannerContext.ToggleIfMatch | iahelp/src/context/StudyPlannerContext.tsx:51 | id, title, due date and notes are kept; `completed` is negated exactly when the id matches |
| StudyPlannerContext.Toggled | iahelp/src/context/StudyPlannerContext.tsx:51 | same length as the input, and each position holds the toggled task from the same position |
| StudyPlannerContext.ToggleTwice | iahelp/src/context/StudyPlannerContext.tsx:50-52 | toggling the same id twice gives back the original list |
| StudyPlannerContext.ToggleUnknown | iahelp/src/context/StudyPlannerContext.tsx:50-52 | toggling an id no task carries changes nothing |
| StudyPlannerContext.ToggleKeepsIds | iahelp/src/context/StudyPlannerContext.tsx:50-52 | toggling keeps the set of ids and their uniqueness |
| StudyPlannerContext.ToggleMovesCountByOne | iahelp/src/context/StudyPlannerContext.tsx:50-54 | with unique ids, toggling a present task raises the completed count by one if that task was open, and lowers it by one if it was done |
| StudyPlannerContext.AddKeepsIdsUnique | iahelp/src/context/StudyPlannerContext.tsx:44-46 | putting a task with a fresh id in front keeps ids unique and adds exactly that id |
| StudyPlannerContext.AddKeepsCompletedCount | iahelp/src/context/StudyPlannerContext.tsx:44-46 | adding an incomplete task grows the list by one and leaves the completed count unchanged |
| StudyPlannerContext.CompletedCount | iahelp/src/context/StudyPlannerContext.tsx:54 | the completed count is at most the list length; it equals the length iff every task is completed and is 0 iff none is |
| StudyPlannerContext.ProgressOf | iahelp/src/context/StudyPlannerContext.tsx:54 | `progress` of a list is at most 100 and is 0 for an empty list |
| StudyPlannerContext.RoundedPercent | iahelp/src/context/StudyPlannerContext.tsx:54 | `Math.round(c / n * 100)` in exact integer arithmetic, `(200c + n) div 2n`; `RoundHalfUp` states that this is the half-up rounding of `100c/n` |
| StudyPlannerContext.ProgressRounds | iahelp/src/context/StudyPlannerContext.tsx:54 | `progress` is in 0..100 and is 0 for an empty list; otherwise it is the completed share times 100 rounded half up (within half a unit); it is 100 when all tasks are completed and 0 when none is |
| StudyPlannerContext.RoundHalfUp | iahelp/src/context/StudyPlannerContext.tsx:54 | `round(c/n*100)` for `c <= n` is at most 100, brackets `100c/n` within one half, and gives 100 for `c = n` and 0 for `c = 0` |
| StudyPlannerContext.RoundingHidesOneTask | iahelp/src/context/StudyPlannerContext.tsx:54 | the converse fails: with 201 tasks, 200 completed already give 100 and 1 completed gives 0 |
| Model.CallProxy | iahelp/src/lib/model.ts:10-20 | a thrown request keeps its error; a non-2xx status gives `Proxy error: <status>`; a 2xx response succeeds and yields the `reply` field when it is non-empty |
| Model.CallGemini | iahelp/src/lib/model.ts:22-46 | no key gives the missing-key error; a thrown request keeps its error; a non-2xx status gives `Gemini: <status> <body>`; a 2xx response yields the first candidate's trimmed text, or `Réponse vide du modèle.` when that is empty; a success is never empty and has no surrounding white space |
| Model.PartTexts | iahelp/src/lib/model.ts:43 | one text per part, in order, a part without text giving the empty string |
| Model.JoinParts | iahelp/src/lib/model.ts:43 | the parts' texts joined with no separator; empty exactly when every part has no text or empty text |
| Model.FirstCandidateText | iahelp/src/lib/model.ts:43 | the candidate text is the trim of the joined parts; it is empty exactly when there are no parts or they join to blank text, and otherwise has no surrounding white space |
| Model.ModeOf | iahelp/src/lib/model.ts:49-53 | the proxy is used iff a proxy URL is configured; direct Gemini is used iff there is no proxy and a key is configured; offline iff neither is configured |
| Model.Configured | iahelp/src/lib/model.ts:52-53 | a configuration value is truthy: present and not the empty string |
| Model.HttpOk | iahelp/src/lib/model.ts:16 | `res.ok`: the status is in the 2xx range |
| Model.OfflineReply | iahelp/src/lib/model.ts:58-63 | a help word gets the command list; otherwise a prompt starting with `ajouter ` gets the add hint; otherwise a prompt mentioning `avancement`, `progress` or `progrès` gets the progress notice; otherwise the untrimmed prompt is echoed; every reply is one of these four forms |
| Model.AsReply | iahelp/src/lib/model.ts:51-56 | a remote value is the reply as it is; an error becomes the connection-error prefix followed by exactly its message |
| Model.QueryModel | iahelp/src/lib/model.ts:48-64 | with a proxy configured the reply is the proxy's result as a reply; otherwise with a key it is Gemini's; with neither it is the offline reply |
| Model.ProxyTakesPrecedence | iahelp/src/lib/model.ts:51-52 | with a proxy configured, the reply is the proxy's result; given the same proxy outcome, neither the key, nor the Gemini outcome, nor the prompt plays any further part |
| Model.KeyUsedWithoutProxy | iahelp/src/lib/model.ts:52-53 | without a proxy but with a key, the reply is Gemini's result; given the same Gemini outcome, neither the proxy outcome nor the prompt plays any further part |
| Model.NoKeyErrorUnreachable | iahelp/src/lib/model.ts:22-23 | in direct mode the missing-key branch is never taken: a thrown request keeps its own error and a 2xx response succeeds |
| Model.FailureBecomesReply | iahelp/src/lib/model.ts:51-56 | a failure of the remote call in use becomes `Erreur de connexion au modèle: ` followed by its message |
| Model.OfflineOnlyWithoutConfig | iahelp/src/lib/model.ts:51-63 | with nothing configured, the reply is the offline reply whatever the remote outcomes would be |
| Model.OfflineEchoesPrompt | iahelp/src/lib/model.ts:59-63 | offline, a prompt that matches no canned case is echoed verbatim and untrimmed, right after the offline prefix, from which it can be read back |
| Model.ProxyReplyField | iahelp/src/lib/model.ts:16-18 | a 2xx proxy response with a non-empty `reply` yields exactly that reply |
| Model.GeminiBlankAnswer | iahelp/src/lib/model.ts:42-45 | a 2xx Gemini response with no parts, or whose parts join to blank text, yields `Réponse vide du modèle.` |
| Chatbot.Chatbot.constructor | iahelp/src/components/Chatbot.tsx:8-12 | the log starts with the greeting alone and the draft is empty |
| Chatbot.Chatbot.Push | iahelp/src/components/Chatbot.tsx:14 | the message is appended at the end of the log; nothing else changes |
| Chatbot.Chatbot.SetDraft | iahelp/src/components/Chatbot.tsx:103 | the draft becomes the typed text; the log is unchanged |
| Chatbot.Chatbot.Process | iahelp/src/components/Chatbot.tsx:26-60 | exactly one bot message is appended: `ReplyFor` of the input's command and the tasks before the call; the task list changes only for a titled add, which puts a fresh task in front |
| Chatbot.Chatbot.OnSubmit | iahelp/src/components/Chatbot.tsx:62-90 | a blank draft changes nothing; a local command gives the filtered log of user text, indicator and `process` reply, and updates the tasks as `process` does; any other input gives the filtered log of user text and indicator, then the model's reply, with the tasks unchanged; the draft is cleared |
| Chatbot.Classify | iahelp/src/components/Chatbot.tsx:27-59 | the tests are made in the order help, add, progress, list, and the first that holds decides: a help word is help; otherwise an add command adds the trimmed text after the input's first space; otherwise a progress word gives the progress; otherwise a list word gives the listing; otherwise the input is not understood |
| Chatbot.Normalised | iahelp/src/components/Chatbot.tsx:27 | `trim().toLowerCase()` is no longer than the input, is empty exactly for a blank input, and has no surrounding white space |
| Chatbot.AfterFirstSpace | iahelp/src/components/Chatbot.tsx:34 | the whole text when it has no space; otherwise the text is a space-free prefix, one space, then the result |
| Chatbot.TitleOf | iahelp/src/components/Chatbot.tsx:34 | the title has no surrounding white space, is empty exactly when what follows the first space is blank, and is the trimmed input when the input has no space |
| Chatbot.CommandsIgnoreCase | iahelp/src/components/Chatbot.tsx:27-74 | inputs equal up to ASCII case normalise alike, so they take the same route at line 74 and the same branch of `process`, an add keeping its own title |
| Chatbot.UpperCaseHelp | iahelp/src/components/Chatbot.tsx:27-29 | `AIDE` normalises to `aide` and is the help command |
| Chatbot.TaskLine | iahelp/src/components/Chatbot.tsx:54 | a listing line is the check mark (✅ when completed, ⬜ otherwise), a space, then the title |
| Chatbot.TaskLines | iahelp/src/components/Chatbot.tsx:54 | one listing line per task, in list order |
| Chatbot.TasksAfter | iahelp/src/components/Chatbot.tsx:33-41 | only a titled add changes the list, and it prepends an incomplete task with that title, a fresh id and no due date or notes |
| Chatbot.ReplyFor | iahelp/src/components/Chatbot.tsx:29-59 | each branch's reply: the help text; for an add, `Tâche ajoutée : "<title>"` quoting the extracted title; the missing-title reply; the progress reply with the rounded percentage and the completed and total counts; for a listing, the no-task reply on an empty list and otherwise the header followed by the task lines joined by newlines; the not-understood reply; no reply is the indicator text `...` |
| Chatbot.ListingLines | iahelp/src/components/Chatbot.tsx:54-55 | splitting the listing after its header at the newlines, as the chat bubble does at line 98, gives back one line per task in list order, when no title holds a newline |
| Chatbot.IsLocalCommand | iahelp/src/components/Chatbot.tsx:74 | every help word and add command is handled locally, and every input handled locally passes one of the tests of `process` |
| Chatbot.WithoutIndicator | iahelp/src/components/Chatbot.tsx:77 | the filter never lengthens the log and leaves no message whose text is `...` |
| Chatbot.CommandSpace | iahelp/src/components/Chatbot.tsx:33-34 | an input passing the add test has a space followed later by a non-space character |
| Chatbot.AddTitleNonEmpty | iahelp/src/components/Chatbot.tsx:33-38 | the title extracted for an add command is never empty |
| Chatbot.AddIsNotHelp | iahelp/src/components/Chatbot.tsx:28-33 | no input passing the add test is a help word, so the add branch is reached for every add command |
| Chatbot.NeverAddWithoutTitle | iahelp/src/components/Chatbot.tsx:33-41 | the missing-title reply is never chosen, and every add command adds its extracted title |
| Chatbot.LeadingSpaceKeepsCommandWord | iahelp/src/components/Chatbot.tsx:33-39 | for an input starting with a space, the added title is the whole trimmed input and still starts with the command word |
| Chatbot.CommandWordDropped | iahelp/src/components/Chatbot.tsx:34 | for an input starting with the command word, the title is the trimmed text after the word and its space |
| Chatbot.LocalCommandsAreUnderstood | iahelp/src/components/Chatbot.tsx:74-75 | every input the local test accepts gets a real answer from `process`: not the fallback and not the missing-title reply |
| Chatbot.ProgresGoesRemote | iahelp/src/components/Chatbot.tsx:44-74 | `progrès` fails the local test although `process` would answer it with the progress |
| Chatbot.TacheGoesRemote | iahelp/src/components/Chatbot.tsx:49-74 | `tâche` and `tache` fail the local test although `process` would answer them with the list |
| Chatbot.HelpRepliesAgree | iahelp/src/components/Chatbot.tsx:28-29 | the help reply of `process` is the same text as the model adapter's offline help reply |
| Chatbot.AddNotRecognisedOffline | iahelp/src/lib/model.ts:59-63 | offline, an `add ` input that does not mention progress is echoed, although `process` treats it as an add command |
| Chatbot.OfflineRepliesForSubmitted | iahelp/src/components/Chatbot.tsx:74-82 | an input sent to an offline adapter never gets the help or add hint reply, only the progress notice or the echo |
| Chatbot.WithoutIndicatorKeeps | iahelp/src/components/Chatbot.tsx:77 | the filter keeps exactly the messages whose text is not `...`, the user's own included |
| Chatbot.WithoutIndicatorAppend | iahelp/src/components/Chatbot.tsx:77 | filtering distributes over concatenation of logs |
| Chatbot.SubmissionLog | iahelp/src/components/Chatbot.tsx:64-85 | after one submission, the log is the filtered earlier log, then the user's text unless it is `...`, then the reply; on the local path this needs the reply not to be `...`, which `ReplyFor` ensures, while on the remote path even a reply of `...` stays |
| Text.Trim | iahelp/src/components/Chatbot.tsx:27 | the result is the input with its leading and trailing white space removed; it is empty iff the input is all white space |
| Text.IndexOf | iahelp/src/components/Chatbot.tsx:34 | -1 iff the character is absent, otherwise the index of its first occurrence |
| Text.LowerChar | iahelp/src/components/Chatbot.tsx:27 | an ASCII upper-case letter becomes its lower-case letter (code + 32), any other character is kept, and the result is never upper case |
| Text.Lower | iahelp/src/components/Chatbot.tsx:27 | same length, every character lower-cased by `LowerChar`, so no `A`..`Z` is left |
| Text.LowerIdempotent | iahelp/src/lib/model.ts:59 | lower-casing twice is lower-casing once |
| Text.TrimIgnoresCase | iahelp/src/components/Chatbot.tsx:73 | strings equal up to ASCII case trim at the same positions, so `trim().toLowerCase()` gives the same result for both |
| Text.StartsWith | iahelp/src/components/Chatbot.tsx:33 | `startsWith`: the second string is a prefix of the first |
| Text.Contains | iahelp/src/components/Chatbot.tsx:44 | `includes`, by recursion: the needle is a prefix of the string or is contained in its tail; `ContainsOccurrence` gives its meaning |
| Text.ContainsOccurrence | iahelp/src/components/Chatbot.tsx:49 | `includes` holds exactly when the needle occurs at some position of the string |
| Text.Join | iahelp/src/components/Chatbot.tsx:54 | `join`: the parts in order with the separator between consecutive ones; `SplitJoin`, `Split` and `JoinEmpty` state what it produces |
| Text.Split | iahelp/src/components/Chatbot.tsx:98 | `split` on one character gives at least one piece, no piece holds the separator, and joining the pieces with it gives back the input |
| Text.SplitJoin | iahelp/src/components/Chatbot.tsx:54-98 | splitting at a separator undoes joining with it, for at least one part and parts free of the separator |
| Text.JoinEmpty | iahelp/src/lib/model.ts:43 | joining with the empty separator gives the empty string exactly when every part is empty |
| Text.NatToString | iahelp/src/components/Chatbot.tsx:45 | the decimal digits of the number, with no leading zero, whose value is the number |

## Left out

- Persistence is not modelled. The `localStorage` read and JSON parse at start-up, and the write on every change, are left out. The constructor takes the restored list.
- `uuidv4` is not modelled. The fresh id is a parameter of `AddTask` and `Process`, and it is required to be absent from the list.
- `fetch`, the request payloads and the JSON decoding are not modelled. The environment variables and the `MODEL` name are left out too. Each request's result is a parameter: an error that was thrown, or a status with the decoded fields.
- `String(data.reply)` of a non-string `reply` is not modelled. The proxy's `reply` is taken to be a string already, and an absent or empty one falls back to the serialised body.
- Model.CallGemini: only `parts` of the first candidate is modelled. A missing candidate, a missing content and a missing parts array all count as no parts.
- Floating point is not modelled. `Math.round(c / n * 100)` is computed exactly as `(200c + n) div 2n`. A case where the double result lands just off a half is not reproduced.
- Unicode is not modelled. `trim` strips ASCII white space only, and `toLowerCase` lowers ASCII letters only.
- Concurrency and rendering are left out: React state batching, the `await` in `onSubmit`, and messages pushed by another submission while a reply is awaited. `OnSubmit` is one atomic step. `Process` reads the tasks as they were when it was called, as the rendered closure does.
- The `catch` in `onSubmit` is not modelled. `queryModel` turns every failure into a string, so it cannot be reached.
- The scroll effect, `preventDefault`, the JSX, `ProgressView`, `App` and the sample proxy server are not part of this model: they render or serve and decide nothing.
- The Java back end under `Study Planner/` is not part of this model. It covers sessions, subjects, statistics and authentication, and it is a separate application.
