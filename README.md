# AIPad stores and services, modelled in Dafny

AIPad is a desktop productivity app: a secret vault, notes, todos, a
calendar, a Pomodoro timer and a chat with a local Ollama server. These
modules model the logic under its glue code, store by store:

- **Vault session** (`vault.dfy`): the LOCKED/UNLOCKED machine. It holds the
  decrypted secrets, the cached master password and a five-minute
  idle-lock deadline on an explicit clock. It also covers the list
  transforms of add, update and remove, and the case-insensitive search.
- **Vault persistence** (`encryption.dfy`): the salt and blob entries in
  local storage, with the salt reused once stored. It also covers the
  12-byte IV ‖ ciphertext framing, the byte ↔ binary-string loops around
  base64, and the "No vault found" and "Invalid password" errors. PBKDF2
  with HMAC-SHA256 (section 5.2 of RFC 8018), AES-GCM (section 7 of NIST
  SP 800-38D), base64 (section 4 of RFC 4648), UTF-8 and JSON are function
  values. Their round trips are the hypothesis `Sound`, and wrong-key
  rejection is `RejectsOtherKeys`.
- **Pomodoro timer** (`pomodoro.dfy`): the idle/work/break machine with its
  event loop, its invariant, and the MM:SS display.
- **Todos** (`todos.dfy`): the GTD and Eisenhower views, the insert
  defaults, the whitelisted partial update, and the local removal done by
  delete.
- **Notes** (`notes.dfy`): the active note, the pinned-first ordering and
  the search. It also covers the six-test partial update that always adds
  `updated_at`, and the effect of create, add and delete on the active id.
- **Calendar** (`calendar.dfy`): the event and time-block inserts, the
  update built from `Object.entries`, the removals, and the events of the
  selected day.
- **Ollama store** (`ollama_store.dfy`): the model-selection rule, which
  prefers the stored name and otherwise takes the largest model after the
  in-place sort. It also covers the chat history and the guarded chat
  helper.
- **Ollama service** (`ollama_service.dfy`): the chat payload with the one
  retry without tools, and the NDJSON line buffer of the streaming chat.

Shared pieces:

- `common.dfy`: `Option`/`Result`, JavaScript truthiness, `Filter`, and
  string helpers.
- `sorting.dfy`: a stable insertion sort standing for `Array.prototype.sort`
  with a comparator.
- `sql.dfy`: statements as (text, parameters) pairs and the shared
  partial-update builder.
- `types.dfy`: the record shapes.

SQL is never executed. Each store keeps `log`, the statements it issued.
Reading a table back after a write is the parameter `reloaded`. Ids, clock
readings, random salts and IVs, HTTP replies and JSON parsing are
parameters too.

Where the code and the written design disagree, the model follows the code:

- Vault categories are spelled `api_key`, `ssh_key` and so on, as in
  src/lib/types/index.ts.
- `createVault` overwrites an existing vault instead of refusing.
- The stores that the design calls thin wrappers are modelled anyway,
  because their code has the contracts stated here.

## Model

| member | source | states |
|---|---|---|
| Vault.AppendSecretShape | src/lib/stores/vault.ts:67-82 | addSecret appends exactly one secret at the end, with the given id, the draft's name, category, value and notes, and created_at equal to updated_at; the earlier secrets are unchanged and in order |
| Vault.UpdateSecretsShape | src/lib/stores/vault.ts:84-95 | updateSecret keeps the length and order; secrets with another id are unchanged; in each matching one every field the patch gives (id, name, category, value, notes, created_at) is taken from the patch, every field it omits is kept, and updated_at is refreshed |
| Vault.UpdateSecretsIdempotent | src/lib/stores/vault.ts:84-95 | applying the same patch twice at the same instant equals applying it once, provided the patch does not change the id |
| Vault.RemoveSecretsSpec | src/lib/stores/vault.ts:97-104 | removeSecret keeps exactly the secrets with another id, each as often as in the list, and it distributes over concatenation, so their order is kept |
| Vault.RemoveUndoesAdd | src/lib/stores/vault.ts:67-104 | removing the id of a secret just added under a fresh id gives back the original list |
| Vault.FilteredSecretsSpec | src/lib/stores/vault.ts:16-28 | an empty query returns the whole list; otherwise the result is the order-preserving sub-list whose lowercased name, category or notes contain the lowercased query, each matching secret as often as in the list; the query's case does not matter |
| Vault.ValueNotSearched | src/lib/stores/vault.ts:21-26 | whether a secret matches does not depend on its value |
| Vault.LowerIdempotent | src/lib/stores/vault.ts:20 | lowercasing keeps the length and lowercasing twice is lowercasing once |
| Vault.LockIdempotent | src/lib/stores/vault.ts:60-65 | lockVault leaves the session locked with no secrets, an empty password and no pending timer; locking twice equals locking once |
| Vault.UnlockOutcome | src/lib/stores/vault.ts:39-50 | unlockVault returns true exactly when loading succeeds; it then installs the loaded list and the password and arms a deadline five minutes ahead; on failure the session is unchanged |
| Vault.CreateOverwrites | src/lib/stores/vault.ts:52-58 | after a successful save, createVault gives an unlocked, empty session with the password cached and a fresh deadline; loading afterwards yields the empty list whatever was stored before |
| Vault.IdleAutoLock | src/lib/stores/vault.ts:30-33 | after an unlock, the timer locks the vault at the deadline five minutes later, and any earlier instant leaves the session alone |
| Vault.MutationsRearm | src/lib/stores/vault.ts:67-104 | a successful create unlocks under the given password, and add, update and remove keep the lock state and password; each of the four replaces the deadline with one five minutes after the operation, and the timer locks the vault when that deadline is reached |
| Vault.EmptyVaultRoundTrip | src/lib/stores/vault.ts:39-65 | create, lock, then unlock with the same password succeeds and gives an unlocked, empty vault |
| Vault.MutationPersists | src/lib/stores/vault.ts:39-82 | a secret added after create is the only secret listed after a lock and unlock with the same password |
| Vault.WrongPasswordStaysLocked | src/lib/stores/vault.ts:39-50 | unlocking with a password whose derived key differs returns false and the session stays locked |
| Vault.VaultSession.constructor | src/lib/stores/vault.ts:8-13 | the store starts locked, with no secrets, no password, no timer and an empty query |
| Vault.VaultSession.ResetLockTimer | src/lib/stores/vault.ts:30-33 | the pending deadline is replaced by one five minutes from now; nothing else changes |
| Vault.VaultSession.HasVault | src/lib/stores/vault.ts:35-37 | reports whether the blob entry exists |
| Vault.VaultSession.UnlockVault | src/lib/stores/vault.ts:39-50 | performs exactly the unlock step on the storage entries |
| Vault.VaultSession.CreateVault | src/lib/stores/vault.ts:52-58 | performs exactly the create step: the password is cached first, then the empty list is saved, then the session is unlocked and the timer re-armed; the save's outcome is returned, and a failed save leaves the lock state, secrets and deadline as they were |
| Vault.VaultSession.LockVault | src/lib/stores/vault.ts:60-65 | performs exactly the lock step |
| Vault.VaultSession.AddSecret | src/lib/stores/vault.ts:67-82 | re-arms the timer, appends the new secret and saves the whole new list under the cached password |
| Vault.VaultSession.UpdateSecret | src/lib/stores/vault.ts:84-95 | re-arms the timer, merges the matching secrets and saves the whole new list |
| Vault.VaultSession.RemoveSecret | src/lib/stores/vault.ts:97-104 | re-arms the timer, drops the matching secrets and saves the whole new list |
| Vault.VaultSession.TimerFires | src/lib/stores/vault.ts:32 | when the clock has reached the pending deadline the vault locks; otherwise nothing changes |
| Encryption.BinaryRoundTrip | src/lib/services/encryption.ts:40-54 | the binary string of a byte list has one character per byte, all below 256, and converting it back gives the bytes |
| Encryption.Base64RoundTrip | src/lib/services/encryption.ts:40-54 | encoding bytes to base64 and decoding gives them back, and only the empty list encodes to the empty string |
| Encryption.Unframe | src/lib/services/encryption.ts:98-100 | the two slices at offset 12 concatenate to the blob, and the first has length 12, or the whole length when the blob is shorter |
| Encryption.FrameSplit | src/lib/services/encryption.ts:80-100 | splitting IV ‖ ciphertext at offset 12 returns the 12-byte IV and the ciphertext it was built from |
| Encryption.SaltFor | src/lib/services/encryption.ts:60-68 | with no stored salt, the fresh 16-byte salt is stored base64-encoded and used; otherwise storage is untouched and the stored salt is used after decoding |
| Encryption.EncryptData | src/lib/services/encryption.ts:56-86 | encryption writes storage only through the salt step, and fails exactly when the stored salt does not decode |
| Encryption.DecryptData | src/lib/services/encryption.ts:88-93 | with no salt entry, decryption fails with "No vault found" before any key is derived |
| Encryption.DecryptAuthentication | src/lib/services/encryption.ts:95-111 | once the salt and blob decode, a failed authenticated decryption is reported as "Invalid password", and a success returns the decoding of the cipher's plaintext and nothing else |
| Encryption.SaveVault | src/lib/services/encryption.ts:118-125 | a failed save leaves storage unchanged; a successful one stores the blob entry |
| Encryption.LoadVault | src/lib/services/encryption.ts:127-132 | with no blob entry, loading returns the empty list |
| Encryption.SaltStable | src/lib/services/encryption.ts:60-68 | after one successful encryption, a second one leaves storage unchanged and uses the same salt |
| Encryption.SaveLoadRoundTrip | src/lib/services/encryption.ts:118-132 | loading with the same password after a successful save returns exactly the saved list |
| Encryption.SaveKeepsWorking | src/lib/services/encryption.ts:118-125 | after one successful save every later save succeeds, because the stored salt decodes |
| Encryption.WrongPasswordRejected | src/lib/services/encryption.ts:102-111 | a vault saved under one password fails to load with "Invalid password" under a password whose derived key differs |
| Encryption.VaultExistsIsBlobPresence | src/lib/services/encryption.ts:134-136 | vaultExists is true exactly when the blob key is present, setting or removing the salt does not change it, and without a blob loading yields the empty list |
| Encryption.DeleteVaultResets | src/lib/services/encryption.ts:138-141 | after deleteVault no vault exists, no salt is stored, and the next encryption succeeds and stores the fresh salt |
| Encryption.BytesToBinary | src/lib/services/encryption.ts:40-45 | the `+=` loop builds the binary string of the bytes |
| Encryption.BinaryToBuffer | src/lib/services/encryption.ts:47-54 | the fill loop builds a new array holding each character code modulo 256 |
| Encryption.ArrayBufferToBase64 | src/lib/services/encryption.ts:40-45 | returns the base64 text of the bytes |
| Encryption.Base64ToArrayBuffer | src/lib/services/encryption.ts:47-54 | returns the decoded bytes, or nothing when the text is not base64 |
| Encryption.VaultStorage.constructor | src/lib/services/encryption.ts:9-11 | the storage holds the given entries and primitives |
| Encryption.VaultStorage.SetItem | src/lib/services/encryption.ts:65 | sets one entry and leaves the others |
| Encryption.VaultStorage.RemoveItem | src/lib/services/encryption.ts:139-140 | removes one entry and leaves the others |
| Encryption.VaultStorage.Encrypt | src/lib/services/encryption.ts:56-86 | the imperative encryption, with the salt check and the two `combined.set` copies, ends in the state and result of the encryption function |
| Encryption.VaultStorage.Decrypt | src/lib/services/encryption.ts:88-112 | returns the result of the decryption function |
| Encryption.VaultStorage.Save | src/lib/services/encryption.ts:118-125 | ends in the state and result of the save function |
| Encryption.VaultStorage.Load | src/lib/services/encryption.ts:127-132 | returns the result of the load function |
| Encryption.VaultStorage.Exists | src/lib/services/encryption.ts:134-136 | reports whether the blob entry exists |
| Encryption.VaultStorage.Delete | src/lib/services/encryption.ts:138-141 | removes the blob and the salt entries and nothing else |
| Pomodoro.DisplayReadsBack | src/lib/stores/pomodoro.ts:40-44 | for t at least 0, the display is digits, a colon and two digits; minutes times 60 plus seconds is t, seconds are below 60, and its length is 5 exactly when t is below 6000 |
| Pomodoro.PadKeepsValue | src/lib/stores/pomodoro.ts:43 | padStart(2, "0") on a digit string keeps its value, gives at least two digits, and exactly two when there were at most two |
| Pomodoro.Start | src/lib/stores/pomodoro.ts:52-71 | startPomodoro enters a running work phase of the work duration, keeps the cycle, links the todo, records the new session and arms the interval |
| Pomodoro.AfterWork | src/lib/stores/pomodoro.ts:107-120 | the end of work gives a long break with cycle 1 when the cycle is at least 4, otherwise a short break with the next cycle; the remaining time equals the total; the running flag, todo and session are kept |
| Pomodoro.TickSpec | src/lib/stores/pomodoro.ts:73-83 | tick does nothing when paused or at zero or below, counts down while the result stays positive, ends the phase instead of storing zero, and in a state satisfying the invariant never leaves zero |
| Pomodoro.WorkEndLogs | src/lib/stores/pomodoro.ts:85-120 | the end of work records the completed session when there is one, which the invariant guarantees, and then moves to the break |
| Pomodoro.BreakEndRestarts | src/lib/stores/pomodoro.ts:121-124 | the end of a break starts a running work phase for the same todo, with the same cycle, a new session and the interval armed |
| Pomodoro.PauseResume | src/lib/stores/pomodoro.ts:127-136 | pause and resume change only the running flag and the interval; pausing twice is pausing once; resuming a paused running timer restores it |
| Pomodoro.ResetSpec | src/lib/stores/pomodoro.ts:26-34 | reset restores the state captured at load (idle, 25:00, cycle 1, no session), stops the interval and keeps the durations, so a changed work duration does not show |
| Pomodoro.SettingsSpec | src/lib/stores/pomodoro.ts:143-163 | only durations given as non-zero numbers are overwritten, and the clock is re-timed to the work duration only when idle |
| Pomodoro.StepKeepsInv | src/lib/stores/pomodoro.ts:52-163 | every operation keeps the invariant: cycle within 1..4, interval armed exactly while running, time and durations non-zero, idle exactly when there is no session |
| Pomodoro.RunKeepsInv | src/lib/stores/pomodoro.ts:52-163 | any sequence of operations keeps the invariant |
| Pomodoro.Reachable | src/lib/stores/pomodoro.ts:26-34 | from the initial state, every sequence of operations keeps the cycle within 1..4, the interval armed exactly while running, the time non-zero, and idle exactly when there is no session |
| Pomodoro.LongBreakAfterFour | src/lib/stores/pomodoro.ts:107-124 | from the first work phase, seven phase ends alternate work and short break and reach the long break with cycle 1 after the fourth work phase |
| Pomodoro.PomodoroTimer.constructor | src/lib/stores/pomodoro.ts:19-38 | the store starts in the initial state with the default durations, no interval and an empty log |
| Pomodoro.PomodoroTimer.StartPomodoro | src/lib/stores/pomodoro.ts:52-71 | performs exactly the start step |
| Pomodoro.PomodoroTimer.HandlePhaseEnd | src/lib/stores/pomodoro.ts:85-125 | performs exactly the phase-end step |
| Pomodoro.PomodoroTimer.Tick | src/lib/stores/pomodoro.ts:73-83 | performs exactly the tick step |
| Pomodoro.PomodoroTimer.PausePomodoro | src/lib/stores/pomodoro.ts:127-130 | performs exactly the pause step |
| Pomodoro.PomodoroTimer.ResumePomodoro | src/lib/stores/pomodoro.ts:132-136 | performs exactly the resume step |
| Pomodoro.PomodoroTimer.ResetPomodoro | src/lib/stores/pomodoro.ts:138-141 | performs exactly the reset step |
| Pomodoro.PomodoroTimer.UpdatePomodoroSettings | src/lib/stores/pomodoro.ts:143-163 | performs exactly the settings step, overwriting the durations object in place |
| Todos.ViewsPartition | src/lib/stores/todos.ts:22-30 | activeTodos and completedTodos partition the list by multiplicity and by membership; inboxTodos holds exactly the inbox todos, each as often as in the list, and distributes over concatenation, so it keeps their order |
| Todos.QuadrantsSpec | src/lib/stores/todos.ts:32-40 | each quadrant list holds exactly the non-done todos of its quadrant, and together they make up the active todos by multiplicity |
| Todos.QuadrantsCover | src/lib/stores/todos.ts:32-40 | the four quadrant filters of any list add up to it by multiplicity (hence they are disjoint) |
| Todos.CreateTodoStatement | src/lib/stores/todos.ts:61-74 | the insert is the eight-column statement of todos.ts:62-64, carries the id and content, and priority, quadrant, status and description fall back to "p3", "schedule", "inbox" and "" when missing or falsy, with due date and project to null |
| Todos.BuildUpdate | src/lib/stores/todos.ts:79-108 | the field loop with its idx++ counter builds exactly the whitelisted partial update |
| Sql.WhitelistUpdateSpec | src/lib/stores/todos.ts:79-108 | there is no statement exactly when no whitelisted field is defined; otherwise it names exactly the defined fields, null included, in whitelist order, numbered 1..n, carries their values, and has the id as parameter n+1 |
| Sql.DefinedFieldsSpec | src/lib/stores/todos.ts:97-102 | a whitelisted field is named exactly when the update defines it, and names come out in whitelist order |
| Sql.WhitelistSingle | src/lib/stores/todos.ts:79-108 | an update defining a single whitelisted key gives the one-assignment statement |
| Sql.PlaceholderInjective | src/lib/stores/todos.ts:99 | distinct placeholder numbers give distinct placeholders |
| Sql.Or | src/lib/stores/todos.ts:67-72 | `value or fallback` is the value when truthy and the fallback otherwise, so it is truthy when the fallback is |
| Todos.MoveTodoQuadrantStatement | src/lib/stores/todos.ts:139-144 | moveTodoQuadrant issues the update that sets only eisenhower |
| Todos.RemoveTodosSpec | src/lib/stores/todos.ts:120-123 | deleteTodo keeps exactly the todos with another id, each as often as in the list, distributes over concatenation so it keeps their order, and changes nothing when no todo has that id |
| Todos.CreateProjectStatement | src/lib/stores/todos.ts:125-134 | the project insert carries the id and name, and the description and color default to "" and "#58a6ff" only when omitted |
| Todos.TodosStore.constructor | src/lib/stores/todos.ts:14-15 | the store starts with no todos, no projects and an empty log |
| Todos.TodosStore.CreateTodo | src/lib/stores/todos.ts:56-77 | issues the insert, reloads the todos and returns the new id |
| Todos.TodosStore.UpdateTodo | src/lib/stores/todos.ts:79-110 | issues and reloads only when there is a statement; otherwise nothing changes |
| Todos.TodosStore.CompleteTodo | src/lib/stores/todos.ts:112-118 | issues the fixed completion statement with the id and reloads |
| Todos.TodosStore.DeleteTodo | src/lib/stores/todos.ts:120-123 | issues the delete and removes the todos with that id from the local list |
| Todos.TodosStore.CreateProject | src/lib/stores/todos.ts:125-137 | issues the project insert, reloads the projects and returns the new id |
| Todos.TodosStore.MoveTodoQuadrant | src/lib/stores/todos.ts:139-144 | issues the eisenhower-only update and reloads |
| Notes.FindNoteSpec | src/lib/stores/notes.ts:13-16 | activeNote is the first note with the active id, and null exactly when no note has it |
| Notes.NoteBeforeIsTotalPreorder | src/lib/stores/notes.ts:22-27 | the pinned-first, newest-first comparator is a total preorder |
| Notes.FilteredNotesSpec | src/lib/stores/notes.ts:18-35 | with no query the view is a permutation with every pinned note first and updated_at descending among equal pinned status; with a query it is the order-preserving sub-list whose lowercased title or content text contains the lowercased query, each matching note as often as in the list |
| Notes.NoteUpdateSpec | src/lib/stores/notes.ts:64-100 | updateNote always issues a statement: the defined fields in list order numbered 1..n, then `updated_at = datetime('now')` with no placeholder, with pinned passed as 1 when the given value is truthy and 0 otherwise, and the id as parameter n+1 |
| Notes.BuildUpdateNote | src/lib/stores/notes.ts:64-100 | the six tests with their idx++ counter build exactly that statement |
| Notes.PushIfDefined | src/lib/stores/notes.ts:69-92 | one test adds the field with the next placeholder and its parameter exactly when it is defined |
| Notes.DeleteNoteSpec | src/lib/stores/notes.ts:104-108 | deleteNote keeps exactly the notes with another id, each as often as in the list, and distributes over concatenation, so their order is kept; afterwards the active note is null if it was the deleted one and otherwise unchanged |
| Notes.NotesStore.constructor | src/lib/stores/notes.ts:8-11 | the store starts with no notes or folders, no active note and an empty query |
| Notes.NotesStore.Filtered | src/lib/stores/notes.ts:18-35 | returns the view; with no query the store's own list is sorted in place and is the result |
| Notes.NotesStore.CreateNote | src/lib/stores/notes.ts:51-62 | inserts an "Untitled" note, reloads, and makes the new id active |
| Notes.NotesStore.UpdateNote | src/lib/stores/notes.ts:64-102 | issues the update statement and reloads, keeping the active id |
| Notes.NotesStore.DeleteNote | src/lib/stores/notes.ts:104-108 | issues the delete, removes the notes with that id, and clears the active id only when it was that id |
| Notes.NotesStore.CreateFolder | src/lib/stores/notes.ts:110-121 | inserts the folder, reloads the folders and returns the new id |
| Notes.NotesStore.AddNote | src/lib/stores/notes.ts:123-135 | inserts the titled note, reloads, returns the new id, and leaves the active id unchanged |
| Calendar.CreateEventStatement | src/lib/stores/calendar.ts:53-66 | the insert takes its fields from the event; description falls back to "" and color to "#58a6ff" when falsy; all_day becomes 1 or 0 |
| Calendar.CreateTimeBlockStatement | src/lib/stores/calendar.ts:98-110 | the insert takes its fields from the block; category and color fall back to "deep_work" and "#58a6ff" when falsy |
| Calendar.UpdateEventStatementSpec | src/lib/stores/calendar.ts:71-87 | updateEvent assigns every entry but id, in entry order, numbered 1..n, passes each entry's value, all_day as 1 when its value is truthy and 0 otherwise, and the id as parameter n+1; there is no statement exactly when every key is id or there are none |
| Calendar.BuildUpdateEvent | src/lib/stores/calendar.ts:71-87 | the entry loop that skips id, with its idx++ counter, builds exactly that statement |
| Calendar.RemoveSpec | src/lib/stores/calendar.ts:89-92 | deleteEvent and deleteTimeBlock keep exactly the entries with another id, each as often as in the list, and distribute over concatenation, so the order is kept |
| Calendar.EventsOnSpec | src/lib/stores/calendar.ts:29-33 | the events of the selected day are exactly those starting on it, in list order, each with its multiplicity |
| Calendar.CalendarStore.constructor | src/lib/stores/calendar.ts:18-19 | the store starts with no events, no time blocks and an empty log |
| Calendar.CalendarStore.CreateEvent | src/lib/stores/calendar.ts:49-69 | issues the insert, reloads the events and returns the new id |
| Calendar.CalendarStore.UpdateEvent | src/lib/stores/calendar.ts:71-87 | issues and reloads only when there is a statement; otherwise nothing changes |
| Calendar.CalendarStore.DeleteEvent | src/lib/stores/calendar.ts:89-92 | issues the delete and removes the events with that id |
| Calendar.CalendarStore.CreateTimeBlock | src/lib/stores/calendar.ts:94-113 | issues the insert, reloads the time blocks and returns the new id |
| Calendar.CalendarStore.DeleteTimeBlock | src/lib/stores/calendar.ts:115-118 | issues the delete and removes the time blocks with that id |
| Ollama.SelectSpec | src/lib/stores/ollama.ts:19-27 | a stored name found among the models is selected, with the list as given; otherwise, when there are models, the list is sorted in place by size, largest first, and a largest model is selected and persisted; with no models nothing changes |
| Ollama.BiggerFirstIsTotalPreorder | src/lib/stores/ollama.ts:24 | the comparator `b.size - a.size` is a total preorder |
| Ollama.LargestFirst | src/lib/stores/ollama.ts:24 | the sort by that comparator is a permutation in descending size, and its first model is among the largest |
| Ollama.ChatWithSpec | src/lib/stores/ollama.ts:65-79 | with no selected model nothing is posted and the call fails with "No model selected"; otherwise one non-streaming payload without tools is posted, and the reply's content or the error comes back |
| Ollama.ContainsName | src/lib/stores/ollama.ts:20 | the search finds a model exactly when one has the name |
| Ollama.OllamaStore.constructor | src/lib/stores/ollama.ts:7-10 | the store starts disconnected, with no models, no selection, no history, and the given persisted name |
| Ollama.OllamaStore.CheckOllamaConnection | src/lib/stores/ollama.ts:12-30 | the health check is returned and stored; when healthy, the listed models, the selection and the persisted name follow the selection rule, and otherwise nothing else changes |
| Ollama.OllamaStore.SetModel | src/lib/stores/ollama.ts:32-35 | the selected and the persisted name are both the argument |
| Ollama.OllamaStore.AddChatMessage | src/lib/stores/ollama.ts:37-39 | the history gains exactly the message, at the end |
| Ollama.OllamaStore.ClearChatHistory | src/lib/stores/ollama.ts:41-43 | the history is empty and nothing else changes |
| Ollama.OllamaStore.ChatWithOllama | src/lib/stores/ollama.ts:65-79 | posts and answers as the chat helper does for the selected model |
| OllamaService.PayloadOf | src/lib/services/ollama.ts:60-67 | the payload is never streaming and carries tools exactly when the tool list is non-empty |
| OllamaService.ChatSpec | src/lib/services/ollama.ts:59-85 | one or two non-streaming payloads are posted; the second exactly when tools were offered and the error text contains "does not support tools"; the retry carries no tools; the outcome is the last reply's message or its error text |
| OllamaService.SplitJoin | src/lib/services/ollama.ts:116 | joining the pieces of `split("\n")` with newlines gives the text back |
| OllamaService.SplitNoNewline | src/lib/services/ollama.ts:116 | no piece of a split contains a newline |
| OllamaService.SplitSingle | src/lib/services/ollama.ts:116 | a text without a newline splits into itself |
| OllamaService.SplitAppend | src/lib/services/ollama.ts:115-117 | splitting a grown text keeps the old text's complete lines and re-splits its unterminated rest together with what was added |
| OllamaService.ChunkSplit | src/lib/services/ollama.ts:115-117 | after a chunk, the complete lines joined with newlines, a newline and the new buffer are the old buffer plus the chunk, and the new buffer has no newline |
| OllamaService.YieldsSpec | src/lib/services/ollama.ts:119-129 | every yielded text is the non-empty content of a non-blank line that parsed, and nothing is yielded when every line is blank or malformed |
| OllamaService.YieldsAppend | src/lib/services/ollama.ts:119-129 | lines are handled in input order: what a list yields is what its parts yield, one after the other |
| OllamaService.TrailingFragmentNotYielded | src/lib/services/ollama.ts:111-117 | a final chunk with no newline adds nothing to what the stream yields |
| OllamaService.HandleLines | src/lib/services/ollama.ts:119-129 | the inner loop appends what the complete lines yield |
| OllamaService.BufferStep | src/lib/services/ollama.ts:115-117 | one read keeps every line already split and replaces the buffer by the split of the buffer and the chunk |
| OllamaService.ChatStream | src/lib/services/ollama.ts:88-131 | a streaming payload is posted; an HTTP failure gives "Ollama error: " and the status; no body gives nothing; otherwise exactly what the complete lines of the whole stream yield |
| Sorting.SortByCorrect | src/lib/stores/notes.ts:22 | the sort with a total-preorder comparator returns a permutation in comparator order |
| Sorting.SortByLength | src/lib/stores/ollama.ts:24 | the sort keeps the length, whatever the comparator |

## Left out

- Cryptography, encoders and JSON: PBKDF2, AES-GCM, `crypto.getRandomValues`, `btoa`/`atob`, `TextEncoder`/`TextDecoder` and `JSON` are function values with stated round trips, not implementations. Nonce uniqueness depends on randomness and is not stated.
- Encryption.ErrorMessage: the two failures thrown by library calls (a stored text that is not base64, a decrypted text that is not JSON) carry the exception names `InvalidCharacterError` and `SyntaxError`, not their browser-specific messages.
- Vault.AppendSecretShape: the two `new Date().toISOString()` readings of addSecret (src/lib/stores/vault.ts:74-75) and the timer re-arm are one clock reading `now`, so created_at equals updated_at by construction; in the source the two stamps can differ when the clock advances between the calls.
- Timers: `setTimeout` and `setInterval` are a deadline on an explicit clock and an `armed` flag. `handlePhaseEnd` runs atomically, so the asynchronous gap in which further ticks could repeat a phase end is not modelled. The same holds for the un-awaited `saveVault` of add, update and remove.
- Pomodoro.PomodoroTimer.Tick: requires the interval to be armed, because the source calls `tick` only from its interval callback.
- Durations and timestamps are integers. NaN and fractional settings are out of scope, and `pomodoroProgress` (floating-point) and notifications are not modelled.
- The database (src/lib/services/db.ts) is not part of this model: statements are recorded, reads are the `reloaded` parameters, and the boolean conversion done by `loadNotes`/`loadEvents` is not modelled.
- HTTP: `ollamaHealthCheck`, `listModels`, `fetch` and response bodies are parameters (the health answer, the listed models, `send`, `StreamReply`). The tool JSON schema and the `AIPAD_TOOLS`/`SYSTEM_PROMPT` constants are left out. So is the case where the success body is not JSON or lacks `message`.
- Ollama.ChatWithSpec: `result.content` is always a string here, so the `|| ""` fallback for a missing content is not exercised.
- Streaming: the chunks arrive already decoded. The streaming UTF-8 decode across chunk boundaries is not modelled.
- Dates: `isSameDay(parseISO(...))` is the abstract predicate `onSelectedDay`. The `Date` parsing in the note comparator is replaced by integer `updated_at`. `currentMonthDays` is not modelled.
- Strings: lowercasing covers ASCII letters only. JavaScript's full Unicode case mapping is not modelled.
- Ollama.SelectSpec: states the size order and the permutation but not that models of equal size keep their relative order, although the model's insertion sort is stable like `Array.prototype.sort`.
- Notes.FilteredNotesSpec: likewise omits the relative order of notes that compare equal.
- Vault.UpdateSecretsShape: a patch key present with the value `undefined` (which `{ ...sec, ...updates }` copies, blanking the field) is not expressible; an absent key and an undefined one are both `None`, which keeps the old field.
- Aliasing: the in-place `models.sort` and `$notes.sort` are reassignments of the store's list field. That the array the caller passed in is the same object is not modelled.
- Unmodelled files: src-tauri/src/lib.rs (PTY processes and threads), theme.ts, navigation.ts, main.ts and vite.config.ts (configuration and bootstrapping). types/index.ts is used only for the record shapes.
- The trivial store wiring is not modelled separately: aliases (`addTodo`, `selectModel`, `addEvent`), combined derived stores, `setOllamaBaseUrl`, `fetchModels`, `setSelectedDate`/`setCalendarView`, and the `loadX` readers.
