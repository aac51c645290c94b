# task-list-ai: a verified model of the task state logic

This project models, in Dafny, the state logic of a browser task list that
asks a language model for tasks:

- **App** (`app.dfy`, from `src/App.jsx`): the ordered task collection and
  its three pure updaters (`addTasks`, `updateTask`, `deleteTask`), the
  completed count shown in the header, and the dark-mode toggle.
- **TaskGenerator** (`task_generator.dfy`, from `src/TaskGenerator.jsx`):
  the `generateTasks` procedure. A class `Component` holds the component's
  fields `context`, `apiKey`, `loading` and `error`. The procedure checks the
  context and picks the key. It builds the request and parses the answer:
  first the whole text, then the slice the regular expression
  `/\[[\s\S]*\]/` matches. It decorates every element with `id`,
  `completed` and `createdAt`, and it classifies errors by HTTP status. The
  request is awaited in the source, so the model splits the procedure into
  `Start` (before the await) and `Finish` (after it). `GenerateTasks` runs
  both.
- **TaskList** (`task_list.dfy`, from `src/TaskList.jsx`): a class
  `Component` with the fields `editingTask`, `editForm` and
  `notifications`, and the handlers that change them. The handlers issue
  store updates as `TaskUpdate` values: toggle-complete with its completion
  webhook, start, cancel and save editing, and show or remove a notification.

Shared modules: `Values` (`values.dfy`) models JavaScript values, with
truthiness, object spread `{...a, ...b}` (`Merge`, `Spread`) and template
interpolation (`Display`). `Text` (`text.dfy`) models `String.prototype.trim`
with ECMAScript's white-space set. `Arrays` (`arrays.dfy`) models
`Array.prototype.filter` and the "same relative order" relation.
`Wrappers` (`wrappers.dfy`) holds `Option` and `Result`.

A task record is a plain object, `map<string, Value>`. `JSON.parse` is a
parameter `parse: string -> Option<Value>`. The completion call's outcome is
an input `Reply`: `Answered(content)`, `Rejected(status)` or `Unreachable`.
The webhook's outcome is a boolean `delivered`. `Date.now()` and
`new Date().toISOString()` are parameters. `tasks.map` reads the clock once
per element, so the decoration takes `clock: nat -> int` and
`stamp: nat -> string`, indexed by element.

Behaviour of the code a reader may not expect:
- Decoration reads the clock separately for each element. One `createdAt`
  and `id = base + index` hold only when the clock does not tick during the
  batch (`SteadyClockDecoration`). Ids within a batch are distinct when the
  clock never runs backwards (`BatchIdsIncrease`).
- `updateTask` changes every task whose id matches, not only the first one.
- Generated tasks with an empty name or description are not rejected, and
  the count of 4 is only requested in the prompt.
- The configured default key is not trimmed: a default of spaces only is
  truthy and is used.
- A parse failure, a non-array parse result, a transport failure and any
  status other than 401 or 429 all give the same generic message.
- When the whole text parses but is not an array (an object wrapping the
  array, say), the fallback is not tried. `tasks.map` then throws and the
  generic message is shown.

## Model

| member | source | states |
|---|---|---|
| `Arrays.Filter` | src/App.jsx:63 | `filter` keeps exactly the elements the test accepts: every survivor was in the input and passes the test, and every input element that passes survives |
| `Arrays.FilterIsSubsequence` | src/App.jsx:63 | the survivors of `filter` keep their relative order |
| `Arrays.FilterConcat` | src/App.jsx:63 | filtering a concatenation filters each part in place |
| `Arrays.FilterKeepsAll` | src/App.jsx:63 | a filter whose test accepts every element returns its input unchanged |
| `Arrays.FilterIdempotent` | src/App.jsx:63 | filtering twice with the same test equals filtering once |
| `Values.Truthy` | src/App.jsx:105 | JavaScript truthiness: a boolean is itself, a number is truthy when non-zero, a string when non-empty, arrays and objects always, `undefined` and `null` never |
| `Values.Merge` | src/App.jsx:58 | `{...base, ...over}` has the keys of both; a key of `over` takes its value from `over`; every other key keeps its value from `base` |
| `Values.Spread` | src/TaskGenerator.jsx:75 | `{...v}` copies an object's fields as they are; an array or string gives one field per index, keyed by the index's decimal numeral, and no other field; other values give no fields |
| `Values.Decimal` | src/TaskGenerator.jsx:75 | the numeral of an index: non-empty, only digits, read left to right (`DigitsValue`) it denotes the index, one digit exactly below 10, and no leading zero |
| `Values.IndexFields` | src/TaskGenerator.jsx:75 | the fields spread from an array or string: index i's numeral holds element i, and there are no other fields |
| `Values.DecimalInjective` | src/TaskGenerator.jsx:75 | different indices have different numerals, so the index fields of a spread array or string never overwrite each other |
| `Values.NumberText` | src/TaskList.jsx:37 | `String(n)` of an integer starts with `-` exactly when the number is negative; the digits (after the sign, if any) denote the number's magnitude |
| `Values.JoinWithCommas` | src/TaskList.jsx:37 | joining pieces with `,` puts the first piece first, and the length is the pieces' total length plus one comma between each consecutive pair |
| `Values.JoinPlacesPiece` | src/TaskList.jsx:37 | in the joined text, piece k starts after the earlier pieces and one comma each, and a comma follows it unless it is the last |
| `Values.ElementTexts` | src/TaskList.jsx:37 | an array contributes one text per element, in order, each the empty text for an `undefined` or `null` element and the element's own `${}` text otherwise |
| `Values.Display` | src/TaskList.jsx:37 | `${v}` inserts a string unchanged; it gives `undefined`, `null`, `true` or `false`, the numeral of a number, `[object Object]` for an object; an array gives its elements' texts joined with commas, so a one-string array gives that string |
| `Values.DisplayArrayPlacesElement` | src/TaskList.jsx:37 | in `${arr}`, element k's text sits after the earlier elements' texts and one comma each, followed by a comma unless it is the last element |
| `Text.Trim` | src/TaskGenerator.jsx:12 | `trim()` returns the slice of its input left after white space is dropped at both ends; the slice neither starts nor ends with white space |
| `Text.TrimIdempotent` | src/TaskList.jsx:65-68 | trimming an already trimmed text changes nothing |
| `App.HasId` | src/App.jsx:57 | `task.id === taskId`: when the task has an id, it equals `taskId`; when it has none, `taskId` is `undefined` |
| `App.AddTasks` | src/App.jsx:52-54 | the result is the old collection followed by the batch: existing entries are unchanged and batch order is kept |
| `App.UpdateTask` | src/App.jsx:56-60 | length is preserved; an entry whose id differs stays identical in the same position; each matching entry becomes its merge with `updates` |
| `App.UpdateMergesFields` | src/App.jsx:58 | in a matching entry, a field named in `updates` takes the new value and every other field keeps its old value or stays absent |
| `App.UpdateMissingIsNoop` | src/App.jsx:56-60 | updating an id that no entry has leaves the collection unchanged |
| `App.UpdateKeepsIds` | src/App.jsx:57-58 | an update whose fields do not include `id` leaves every entry's id as it was |
| `App.DeleteTask` | src/App.jsx:62-64 | no remaining entry has the id; every entry with another id remains; the survivors keep their relative order (a subsequence of the input) |
| `App.DeleteMissingIsNoop` | src/App.jsx:62-64 | deleting an id that no entry has leaves the collection unchanged |
| `App.DeleteIdempotent` | src/App.jsx:62-64 | deleting the same id twice equals deleting it once |
| `App.DeleteConcat` | src/App.jsx:63 | deleting from a concatenation deletes from each part in place, so order is kept across the whole collection |
| `App.UpdateAfterDelete` | src/App.jsx:56-64 | `updateTask(id, u)` after `deleteTask(id)` equals `deleteTask(id)` alone |
| `App.CompletedCount` | src/App.jsx:105 | the number of entries whose `completed` is truthy is at most the collection length |
| `App.CompletedCountAdd` | src/App.jsx:52-54 | the completed count of an appended collection is the sum of the counts of its two parts |
| `App.CompletingOneTaskCountsOnce` | src/App.jsx:56-60 | an update that makes one uncompleted entry with a unique id completed raises the completed count by exactly one |
| `App.ToggleDarkMode` | src/App.jsx:66-68 | the flag always flips, so toggling twice restores it |
| `TaskGenerator.Prompt` | src/TaskGenerator.jsx:28-39 | the prompt is the fixed head, then the context verbatim and untrimmed, then the fixed tail |
| `TaskGenerator.RequestFor` | src/TaskGenerator.jsx:41-55 | the request goes to the completions URL with model `gpt-3.5-turbo`, 500 tokens, the prompt and `Bearer <key>` |
| `TaskGenerator.SelectCredential` | src/TaskGenerator.jsx:18-22 | the trimmed typed key when it is non-empty; otherwise the default when it is a non-empty string; otherwise no key; a chosen key is never empty |
| `TaskGenerator.ExtractArrayText` | src/TaskGenerator.jsx:65-67 | there is a match exactly when some `[` has a `]` after it; the match is the contiguous slice from the first `[` to the last `]`, so it starts with `[` and ends with `]` |
| `TaskGenerator.ParseResponse` | src/TaskGenerator.jsx:60-71 | if the whole text parses, that value is used; a value obtained otherwise is the parse of the bracketed slice; nothing is obtained only if the whole text does not parse |
| `TaskGenerator.FallbackFindsWrappedArray` | src/TaskGenerator.jsx:64-67 | when the whole text does not parse, the result is the parse of the slice from the first `[` to the last `]` |
| `TaskGenerator.NoBracketsNoTasks` | src/TaskGenerator.jsx:65-70 | a text that does not parse and has no `[` followed by `]` yields nothing |
| `TaskGenerator.Decorate` | src/TaskGenerator.jsx:74-79 | one task per element; element i gets `id` = clock reading i + i, `completed` = false and `createdAt` = stamp i, which override the element's own fields; every other field of the spread element is kept |
| `TaskGenerator.SteadyClockDecoration` | src/TaskGenerator.jsx:76-78 | with a clock that does not tick during the batch, element i gets id `base + i` and all elements share one `createdAt` |
| `TaskGenerator.BatchIdsIncrease` | src/TaskGenerator.jsx:76 | with a clock that never runs backwards, ids within one batch strictly increase, so they are distinct |
| `TaskGenerator.ErrorMessage` | src/TaskGenerator.jsx:86-92 | status 401 gives the invalid-key message, 429 the rate-limit message, anything else (or no status) the generic message, and each message arises only from its case |
| `TaskGenerator.Ingest` | src/TaskGenerator.jsx:57-92 | a batch is produced exactly when the answer's trimmed text yields an array under the two-stage parse, and it is the decoration of that whole array; otherwise the error message for the reply's status |
| `TaskGenerator.IngestAllOrNothing` | src/TaskGenerator.jsx:74-81 | a produced batch has exactly one task per parsed element: tasks are never partially accepted |
| `TaskGenerator.IngestClassifiesErrors` | src/TaskGenerator.jsx:84-92 | on failure the message is invalid-key exactly for a 401 rejection, rate-limit exactly for a 429 rejection, and generic for everything else including parse failures |
| `TaskGenerator.Component.constructor` | src/TaskGenerator.jsx:6-9 | context, key and error start empty and `loading` false; the default key is the configured one |
| `TaskGenerator.Component.Start` | src/TaskGenerator.jsx:11-25 | an empty trimmed context sets the context error; otherwise a missing key sets the key error; in both cases no request is made and `loading` is untouched; otherwise `loading` becomes true, `error` is cleared and the request for the context and chosen key is made |
| `TaskGenerator.Component.Finish` | src/TaskGenerator.jsx:57-95 | on success the batch of `Ingest` is handed over and the context cleared; on failure nothing is handed over, the context is kept and `error` is the message of `Ingest`; `loading` ends false and `apiKey` is untouched |
| `TaskGenerator.Component.GenerateTasks` | src/TaskGenerator.jsx:11-96 | a request is made exactly when the context and key checks pass; without a request nothing is delivered, context and `loading` are unchanged, and `error` is the empty-context message when the trimmed context is empty, else the missing-key message; with one, `loading` ends false and the outcome is that of `Ingest` |
| `TaskList.PayloadFor` | src/TaskList.jsx:23-30 | the payload carries the task's id, name, description and timeframe, the completion time, and `action = "task_completed"` |
| `TaskList.ToggleUpdate` | src/TaskList.jsx:44-46 | the toggle update targets the task's id and holds only `completed`, set to the negation of the task's current status |
| `TaskList.ToggleFlipsCompletion` | src/TaskList.jsx:45-46 | applied to the store, the toggle flips the toggled task's completion and keeps every other field of it |
| `TaskList.ToggleTwiceRestores` | src/TaskList.jsx:44-46 | toggling a task with a boolean status twice gives back the same task |
| `TaskList.CompletingRaisesCount` | src/TaskList.jsx:44-46 | toggling an uncompleted task with a unique id raises the completed count by one |
| `TaskList.SentMessage` | src/TaskList.jsx:37 | the success text is `Task "`, then the task name's text, then `" completion sent to webhook` |
| `TaskList.FailedMessage` | src/TaskList.jsx:40 | the failure text is `Failed to send webhook for "`, then the task name's text, then a closing `"` |
| `TaskList.WithoutNotification` | src/TaskList.jsx:75-77 | every notification with the id is removed, every other one remains, in the same relative order |
| `TaskList.WithoutNotificationConcat` | src/TaskList.jsx:75-77 | removing an id from a concatenation removes it from each part and keeps the kept parts in order, so every kept duplicate stays |
| `TaskList.WithoutNotificationStable` | src/TaskList.jsx:75-77 | removing an id no notification has changes nothing; removing an id twice equals removing it once |
| `TaskList.SaveChanges` | src/TaskList.jsx:64-69 | changes exist exactly when both inputs are strings that are non-empty once trimmed; they then hold only `name` and `description`, trimmed |
| `TaskList.SavedTextIsTrimmed` | src/TaskList.jsx:66-69 | a saved name or description is non-empty and neither starts nor ends with white space |
| `TaskList.ResaveIsStable` | src/TaskList.jsx:64-69 | saving the trimmed texts a save just sent issues the very same changes |
| `TaskList.Component.constructor` | src/TaskList.jsx:5-8 | nothing is being edited, the form is blank and there are no notifications |
| `TaskList.Component.ShowNotification` | src/TaskList.jsx:10-13 | exactly one notification, with the given id, message and kind, is appended at the end |
| `TaskList.Component.RemoveNotification` | src/TaskList.jsx:75-77 | the notifications become those of `WithoutNotification` |
| `TaskList.Component.SendWebhook` | src/TaskList.jsx:21-42 | posts the payload of `PayloadFor` to the webhook URL with a 5000 ms timeout; appends one `success` notification when the post is delivered, else one `error` notification; no task update is issued |
| `TaskList.Component.HandleToggleComplete` | src/TaskList.jsx:44-52 | always issues exactly the toggle update, whatever the webhook's outcome; makes the webhook post (URL, payload, timeout) exactly when the task becomes completed, then appends one success or error notification naming the task; a true-to-false toggle changes no notification |
| `TaskList.Component.StartEditing` | src/TaskList.jsx:54-57 | `editingTask` becomes the task's id and the form takes the task's name and description |
| `TaskList.Component.CancelEditing` | src/TaskList.jsx:59-62 | restores the initial editing state: nothing edited, blank form |
| `TaskList.Component.EditName` | src/TaskList.jsx:140 | typing replaces the form's name and keeps its description |
| `TaskList.Component.EditDescription` | src/TaskList.jsx:146 | typing replaces the form's description and keeps its name |
| `TaskList.Component.SaveEdit` | src/TaskList.jsx:64-73 | with valid inputs: one update with the trimmed texts for the edited task, editing reset and one success notification appended; otherwise no update and no state change |

## Left out

- The POST to the completion endpoint and the POST to the webhook are not modelled. Their results are inputs: `Reply` and `delivered`. A malformed response envelope carries no HTTP status, so it is modelled as `Unreachable`.
- The request's `temperature: 0.7` is not modelled, because it is floating-point configuration.
- The `Content-Type` headers are not modelled. The webhook's 5000 ms timeout is recorded in the post, but its timing is not modelled: a timeout is one way for `delivered` to be false.
- `localStorage`, `document.documentElement.classList` and `matchMedia` are not modelled, because they are browser I/O. The JSON round trip of the stored collection relies on the browser's serializer, which is not part of this model.
- The internals of `JSON.parse` are not modelled. It is an arbitrary parameter.
- `Date.now()` and `toISOString()` are parameters, not clocks. Ids are not claimed unique across batches, nor are notification ids.
- The five-second expiry timer is not modelled. Its firing is the `RemoveNotification` event.
- The rendering, the word count, the Enter-key handler and the disabled state of the generate button are not modelled, because they are markup.
- `console.error` logging is not modelled.
- React applies state updates later and in batches. The model applies each handler's updates at once. The generation's await is modelled by the `Start`/`Finish` split. `HandleToggleComplete` runs the webhook to completion inside one step, so events interleaved during the post are not modelled.
- Numbers are integers. Fractions, NaN and the exponent notation of very large numbers are not modelled.
- Strings are sequences of code points, not UTF-16 code units.
- Objects are maps, so the insertion order of keys is not modelled.
- `task.id === taskId` compares values structurally. JavaScript compares object and array ids by reference; the ids the source creates are numbers.
- `App.UpdateTask`: the update's object is always fresh. Its aliasing with the previous array, which React relies on, is not modelled.
- `TaskList.SaveChanges`: the model does not separate the `TypeError` that `.trim()` throws on a non-string input from the silent no-op on blank input. In both cases nothing changes.
- src/AiSection.jsx and src/Chat.jsx are not part of this model. Each is one network call plus display.
