# wechatbot-go: a verified model of its delivery, session and text cores

This project models, in Dafny 4.11, the parts of wechatbot-go that are hardest
to get right, and proves what they promise for every input, every interleaving
and every crash:

- **Delivery** (`dispatcher.go`, `run.go`, `internal/store`): one user's messages are
  handled in order through a chain of `done` channels, unrelated users run concurrently
  under three semaphores, and a persisted cursor moves only over the contiguous prefix
  of completed batches. Modules `Wire`, `Replay`, `Stores`, `Dispatcher` hold the data,
  the stores and the lock-protected ledger as classes; `Delivery` is the protocol as
  small steps (a step per select, lock section, channel operation and store write, with
  cancellation, the clock, crashes between steps and inside the commit loop, and
  restarts); `DeliveryOrder`, `DeliveryAccounting`, `DeliveryProgress`,
  `DeliveryDurability`, `DeliveryReplay`, `DeliveryVerdicts`, `DeliveryFaults`,
  `DeliveryRuns` and `DeliveryTheorems` prove its properties; `Receiver` is the
  sequential receiving path as imperative code, and `DeliveryRefinement` proves that the
  concurrent dispatcher refines it.
- **Session and reauthentication** (`reauth.go`, `session.go`, `login.go`,
  `internal/store/reauth.go`, `internal/store/context.go`, `internal/auth/login.go`):
  `Session` is the protocol as small steps over the in-memory session, the marker, the
  credentials file and the context files, with every disk write failing or not and a
  crash between any two steps; `SessionSafety` proves its invariant, `SessionTheorems`
  what follows for every run, `SessionRecovery` exactly what a restart recovers,
  `SessionMisread` exactly what an unreadable marker loses, `SessionRuns` what can
  always be done. `StateFiles` holds the stores and the path loops as imperative code,
  `AuthLogin` the QR authentication loops, `SessionErrors` the normalization of error
  trees.
- **Text and bytes**: `Redact`, `RedactJson`, `RedactTwice`, `RedactCut` (the key
  scanner against the JSON tree and on text that is none), `LessThan`, `LessThanTags`,
  `LessThanText`, `LessThanFences` (the `<` normalizer), `MessageGraph` (cloning and
  normalizing cyclic items on the heap), `Chunking`, `Utf8` (rune-aware chunking),
  `BotAgent`, `BotAgentGrammar`, `BotAgentFound` (the agent string), `Aes`, `AesKey`,
  `AesKeyForms` (padding, block mode, key encodings). `Seqs` holds facts about cutting
  and joining sequences.

Loops of the source are Dafny loops proved against functions of the text that
is still to be read; the properties are lemmas about those functions.

## Results worth reading first

- A cancelled waiter closes its `done` and drops its tail while its predecessor
  still runs; `DeliveryTheorems.ExecutesInOrder` shows that ordering holds all the
  same, because an uncancelled context is part of the invariant.
- `DeliveryDurability.NoMessageLost`: after any run with crashes anywhere, the cursor a
  restart would use is the end of a gapless chain of server responses every
  message of which was acknowledged, dropped, skipped as a replay or not a user
  message; and by `DeliveryVerdicts.EveryVerdictEarned` each of those verdicts was earned.
- `DeliveryRuns.EverythingGetsDelivered`: every response of the server can be delivered, from
  every start.
- `DeliveryRefinement.ConcurrentRefinesSequential`: in clean runs the concurrent dispatcher
  ends with the cursor, replay index, tokens and per-conversation handler calls of
  the sequential fold.
- `SessionTheorems.MarkerRemoved`, `OrdinaryInstall` and `MarkerOnlyGrows`: the marker
  protocol is fail-closed; `SessionRecovery.ComesBackIff` says exactly when
  invalidated credentials can come back without a QR code: when both the marker
  write and the removal of the credentials file failed. `MarkerOnlyGrows` excludes markers
  read as an error, and has to: `SessionMisread.RecordKeptIff` says exactly which records
  survive one.
- `SessionRuns.AnyDiskRecovers`: fail-closed is not locked out; a confirmed code of the right
  account leads from any disk to a session.
- `SessionRecovery.AllEmptyIff`: the claim that a forced login shows its QR code only
  over emptied context files is true exactly when a context path or an account is
  configured. Otherwise a first attempt that records the new account's file and fails
  to clear it is followed by a second attempt that starts over that file
  (`SessionRecovery.RecordedFileNotEmpty`). The files recorded when the state was published
  are always empty, and nothing is installed over a file that is not
  (`SessionTheorems.ForcedQr`, `SessionTheorems.MarkerRemoved`).

## Modelling decisions

- A write or removal of a file either takes full effect or leaves the old file and
  reports an error; its outcome is a parameter of the step or method.
- Server answers, handler results, decoding results, clocks and the reading of files
  are parameters. A handler panic counts as Retry. Of the hooks only a failing AfterReceive is an outcome.
- In `Session`, sessionMu, requestMu and loginMu appear as who holds them; a section
  under the innermost mutex is one step; the goroutine that closes a `done` channel
  may be delayed arbitrarily after it released sessionMu. Paths are canonical there, and whether
  the cursor and replay paths collide with others is a nondeterministic outcome.
  `NewContextStore` is what a path of an account stands for.
- A token fingerprint determines its token (an injective hash).
- In `Redact`, unquoting a key and `SensitiveKey` are one parameter: the set of quoted
  key bodies that are hidden. `strconv.Unquote` and JSON differ on some escapes;
  `RedactJson.ScannerAgreesOnVerbatimKeys` keeps the two readings apart and needs only that
  neither changes a body without backslash and line feed.
- Text that the source handles as bytes is a sequence of bytes (as characters below
  U+0100, or as integers in `Chunking` and `Aes`).
- `MessageGraph` methods take, as ghost argument, a set of items that no reference leaves;
  every finite heap has one. It serves termination only.

## Model

| member | source | states |
|---|---|---|
| Wire.KeyOfInjective | run.go:316-337 | A replay key determines peer, kind and identity, through the length prefix. |
| Wire.SharedKeySameConversation | run.go:316-351 | Two messages that share any replay key belong to one conversation. |
| Wire.ConversationDeterminesPeer | dispatcher.go:252-257 | Equal conversation keys mean equal peers, the fallback key being nobody's. |
| Wire.WhoIsSpokenWith | run.go:316-351 | The peer of a user's message is its sender and of the bot's own its receiver: conversation key and all replay keys, strongest first, are made with that peer; any other message has no key and no peer. |
| Replay.SeenIffRecentlyCommitted | internal/store/replay.go:55-149 | Through any commits, failed writes and reloads under a monotone clock, SeenAny answers yes exactly if the key's latest successful commit is within the window in floored milliseconds. |
| Replay.PruningIsInvisible | internal/store/replay.go:142-149 | Pruning never changes a later answer. |
| Replay.IndexAgreesWithLog | internal/store/replay.go:109-132 | The index keeps, of every key in the window, the latest commit of an append-only log. |
| Replay.ReplayStore.CommitAll | internal/store/replay.go:109-132 | Memory and file change together to the pruned and stamped index, or neither does; no keys, no write. |
| Replay.ReplayStore.SeenAny | internal/store/replay.go:88-102 | True exactly if one of the non-empty keys is in the index and not older than the cutoff. |
| Replay.PruneReplay | internal/store/replay.go:142-149 | The loop keeps exactly the entries at or after the cutoff. |
| Stores.CursorStore.Set | internal/store/cursor.go:86-95 | Memory and file change together, or neither does. |
| Stores.CursorStore.Load | internal/store/cursor.go:42-67 | Memory becomes the file's cursor; an unreadable file changes nothing. |
| Dispatcher.AdvanceMeaning | dispatcher.go:209-226 | The commit loop commits a contiguous prefix of complete, unfailed batches and sets the cursor to the last non-empty one of exactly that prefix. |
| Dispatcher.AdvanceExhausts | dispatcher.go:209-226 | When the loop ends nothing at the frontier can be committed. |
| Dispatcher.CompleteMeaning | dispatcher.go:172-190 | What reporting one message does: the count drops, an error fails the batch, an executed one cancels, the commit loop runs only if that emptied an unfailed batch. |
| Dispatcher.KeyedDispatcher.AdvanceCursorLocked | dispatcher.go:209-226 | The loop over the dispatcher's fields does exactly what the ledger function says. |
| Dispatcher.KeyedDispatcher.Complete | dispatcher.go:172-190 | The method on the fields refines the ledger function, guards included. |
| Dispatcher.KeyedDispatcher.CancelUnscheduled | dispatcher.go:192-207 | The clamp and the failure mark, on the fields. |
| Dispatcher.KeyedDispatcher.RegisterBatch | dispatcher.go:82-92 | The locked part of submit takes the next id, enters the batch and, when it is empty, commits what it can, on the fields. |
| Dispatcher.KeyedDispatcher.RecordFailureLocked | dispatcher.go:228-238 | Only the first error is kept; it cancels the context and closes the failure channel. |
| DeliveryTheorems.ExecutesInOrder | dispatcher.go:112-170 | A message is processed only after every earlier scheduled message of its conversation was processed without error and reported, in every interleaving, cancellation included. |
| DeliveryOrder.OrderStep | dispatcher.go:131-170 | Every step of every goroutine keeps the ordering invariant. |
| DeliveryTheorems.SlotsMatch | dispatcher.go:44-110 | Live batches are exactly those from the frontier to the next id, slots match them plus at most one unregistered submission, and all three semaphores stay within their bounds. |
| DeliveryTheorems.RemainingMatches | dispatcher.go:172-207 | A live batch's counter equals its unscheduled and in-flight messages; a batch is failed only under a cancelled context. |
| DeliveryTheorems.CompletesOutstanding | dispatcher.go:172-190 | In every reachable state, what is reported or fails to decode belongs to a live batch that still counts it: the early returns of complete never take effect. |
| DeliveryTheorems.GivesBackExactly | dispatcher.go:192-207 | In every reachable state, whenever the submitter gives up it gives back exactly what it had not scheduled, from a live batch that still counts all of it: neither the nil guard nor the clamp of cancelUnscheduled takes effect. |
| DeliveryTheorems.FailurePinsFrontier | dispatcher.go:172-226 | A failed batch stays failed and the frontier never passes it until a restart. |
| DeliveryProgress.NoDeadlock | dispatcher.go:68-170 | Until it is drained, some step of the dispatcher itself is enabled. |
| DeliveryProgress.NeverStuck | dispatcher.go:44-66 | The same for every run and every requested concurrency: the clamped limit is never zero and never exceeded. |
| DeliveryProgress.OwnStepsConsumeWork | dispatcher.go:68-170 | Every step of the dispatcher itself uses up a measure. |
| DeliveryProgress.ComesToRest | dispatcher.go:240-250 | Left alone, the dispatcher is drained after a bounded number of steps. |
| DeliveryDurability.ArchiveIsSafe | dispatcher.go:209-226 | What a state has committed, over all runs, is a gapless chain of consumed batches that ends at the persisted cursor. |
| DeliveryDurability.NoMessageLost | dispatcher.go:172-226 | After any run from the first start, with crashes anywhere, the cursor to resume from ends a gapless chain of responses whose every message was consumed. |
| DeliveryDurability.CrashAnywhere | dispatcher.go:172-226 | Those runs include a crash at every point of every state, in the middle of a commit too. |
| DeliveryVerdicts.EveryVerdictEarned | run.go:277-314 | Every message of that chain was consumed rightly: acknowledged or dropped by a handler call with it that returned so, no user's message, or skipped because its strongest identity had been committed before and inside the window or stood in the first file; unless skipped, all its identities were committed. |
| DeliveryFaults.FaultStopsBatch | run.go:277-314 | A replaced session, a failed token or replay write, a failing hook or a retrying handler, in any reachable state: the batch fails, the context is cancelled, the error kept, no token and no identity stored. |
| DeliveryFaults.NothingStartsAfterCancel | dispatcher.go:131-170 | After a cancellation no message is processed that had not passed the second check. |
| DeliveryFaults.WindowPasses | internal/store/replay.go:88-102 | Once the window has passed, no committed identity suppresses a message any more. |
| DeliveryRuns.EverythingGetsDelivered | dispatcher.go:68-250 | From every start, whatever readable responses the server gives, some run polls exactly those, drains, and ends like the sequential fold over them. |
| DeliveryReplay.HandledOncePerWindow | run.go:277-314 | Across runs and restarts, the handler is called only if every earlier commit that names the strongest identity has left the window. |
| DeliveryReplay.NeverHandledTogether | run.go:277-314 | Deliveries that share an identity are never in the handler together. |
| DeliveryReplay.MissMeansStale | internal/store/replay.go:88-102 | A miss proves that no commit of the key is inside the window. |
| DeliveryReplay.HitMeansCommitted | internal/store/replay.go:88-102 | A hit proves a commit inside the window, or an entry of the file found at the very first start. |
| DeliveryRefinement.ConsumeShare | run.go:277-314 | Processing a message acts on its own conversation's share of the stores and calls and on no other. |
| DeliveryRefinement.ConcurrentRefinesSequential | dispatcher.go:68-226 | Clean concurrent runs end as the sequential fold over the same batches: cursor, replay index, tokens, and the handler calls of each conversation. |
| DeliveryRefinement.FetchedIsPolled | run.go:205-224 | The batches folded are exactly those the poll loop received, in order. |
| DeliveryRefinement.StartingIsFresh | internal/store/replay.go:55-86 | Every first start, on any two files, and every restart after any crash meets what the refinement asks of a start. |
| DeliveryRefinement.CleanRunsFoldWhatWasPolled | run.go:205-246 | Hence from every start a clean run that has drained ends like the sequential fold over what the poll loop received. |
| Receiver.AttemptAllMeaning | run.go:248-267 | The sequential loop succeeds only by folding every message in order. |
| Receiver.AttemptMeaning | run.go:277-314 | A failed message commits no identity, so it is not suppressed when redelivered. |
| Receiver.ConsumedIsLeft | run.go:277-314 | Unless suppressed, a user's message leaves its context token with its sender and is handled, the bot's own leaves it with its receiver, both are remembered under all their identities now, and any other message changes nothing. |
| Receiver.AttemptFailsIff | run.go:277-314 | Exactly which faults fail which message, and what a failed message leaves: no identity, its call and its token if they were reached. |
| Receiver.Bot.ProcessWireMessage | run.go:277-314 | The effects and the error of one message under every fault, a failing AfterReceive hook included, exactly, and in terms of the message's own fields. |
| Receiver.Bot.ProcessMessages | run.go:248-261 | Messages in order up to the first failure or the first found cancelled, exactly. |
| Receiver.Bot.ProcessUpdateBatch | run.go:248-267 | The cursor moves only after every message, and only by a successful write. |
| SessionSafety.RunSafe | reauth.go:75-363 | The session invariant holds in every state of every run from any disk. |
| SessionSafety.SafeInstall | login.go:137-189 | Rechecking, removing the marker and installing keep the invariant. |
| SessionSafety.SafeAdopt | reauth.go:264-363 | Adopting a marker found on disk keeps the invariant. |
| SessionSafety.SafeRetry | reauth.go:162-209 | Retrying a failed cleanup keeps the invariant. |
| SessionSafety.SafeExpire | reauth.go:75-126 | A -14 keeps the invariant whatever login is doing. |
| SessionTheorems.OrdinaryInstall | login.go:73-199 | A login that is not forced installs only while no marker is on disk, and only in a process that has seen no session. |
| SessionTheorems.ForcedQr | reauth.go:128-160 | QR authentication of a forced login starts only for a completed state whose marker is on disk, with the files recorded at its publication and the token memory empty. |
| SessionTheorems.ForcedQrAllEmpty | reauth.go:441-454 | With a configured path or account, every file the marker records is empty then. |
| SessionTheorems.MarkerRemoved | login.go:160-171 | The marker leaves the disk only in the step that installs credentials of its account, not named by it, already on disk, every recorded file empty. |
| SessionTheorems.MarkerOnlyGrows | reauth.go:365-378 | Unless a marker was read as an error, the marker on disk never forgets its token, account or a path before it is removed, across crashes too. |
| SessionMisread.RecordKeptIff | reauth.go:211-277 | From a restart that finds a record, whatever is read, misread, written, failed or crashed before the next install, the marker never forgets any of it exactly if it names no token, no account but the configured one and no file but the one every process starts with. |
| SessionTheorems.RequestsAreCurrent | session.go:50-104 | Every pending request carries the token of the generation it was begun with, which is the current one. |
| SessionRuns.BeginsExactly | session.go:50-80 | A request starts, with the session's token, exactly for the current generation of a live session; otherwise nothing changes. |
| SessionRuns.InstallWaits | login.go:148-189 | A run in which a forced login has come up to its install and waits for the one pending request of the session it replaces; once that ends it installs. |
| SessionRuns.WritesExactly | reauth.go:598-617 | A token of the current session is stored for its user, in memory and in the bot's file, exactly if the write succeeds; nothing else changes. |
| SessionRuns.ReloginSucceeds | login.go:73-199 | From every reachable session a forced login with a confirmed code of its account can get through, whatever requests are pending. |
| SessionRuns.ReauthenticationSucceeds | reauth.go:128-209 | So it can from every pending state that is complete, cleaned up or not. |
| SessionRuns.AnyDiskRecovers | reauth.go:264-363 | So it can after a restart on any disk, with a marker or without, readable or not. |
| SessionRuns.CodeLogsIn | login.go:73-199 | Without a marker an ordinary login can get through by a confirmed code, and takes the account's context tokens. |
| SessionRuns.StoredLogsIn | login.go:73-199 | Or with the stored credentials, read at once or when the server says that the account is bound. |
| SessionTheorems.InstallOpensGeneration | login.go:148-189 | Only an install opens a generation, with no request pending; no generation ever gets a second token. |
| SessionTheorems.InvalidatedAtMostOnce | reauth.go:75-126 | A generation is invalidated at most once. |
| SessionTheorems.LateExpiry | reauth.go:75-126 | A -14 of another generation, of another token or after the first changes nothing; otherwise it makes a state pending. |
| SessionTheorems.NoTokenWhilePending | reauth.go:598-617 | While a state is pending no step adds a context token, in memory or on disk. |
| SessionTheorems.TokensOfThisGeneration | reauth.go:598-617 | After a forced install every token in memory and in the recorded files was written by this process in the installed generation. |
| SessionTheorems.ForcedInstallSeals | login.go:137-189 | A forced install covers exactly the files the marker recorded, and no ordinary install follows it. |
| SessionTheorems.CompletedOnce | reauth.go:105-125 | A published state's channel is closed exactly once, and only by its owner. |
| SessionTheorems.CompletionAdvances | reauth.go:105-125 | The owner of an incomplete state can always move, and moving brings the completion nearer. |
| SessionRecovery.FailClosed | reauth.go:264-363 | From a disk with a marker, readable or not, or without credentials, nothing but a confirmed QR code gives any later process credentials. |
| SessionRecovery.ComesBackIff | reauth.go:434-439 | Invalidated credentials can come back after a crash exactly if both the marker write and the credentials removal failed. |
| SessionRecovery.RecordedFileNotEmpty | login.go:73-146 | Without configured path and account, a run whose second forced login shows its QR code over a recorded file with tokens. |
| SessionRecovery.AllEmptyIff | login.go:73-146 | All recorded files are empty at every forced QR code exactly if a path or an account is configured. |
| StateFiles.ContextStore.Set | internal/store/context.go:84-98 | Memory and file change together, or neither does; empty arguments do nothing. |
| StateFiles.ContextStore.Load | internal/store/context.go:43-64 | Memory becomes the file; an unreadable file changes nothing. |
| StateFiles.ReauthStore.Load | internal/store/reauth.go:53-81 | A broken marker is an error and never an absent one; what is published is on disk. |
| StateFiles.ReauthStore.Required | internal/store/reauth.go:84-92 | Required exactly if some marker file exists, readable or not. |
| StateFiles.ReauthStore.Mark | internal/store/reauth.go:95-105 | Written before published; a failed write changes neither. |
| StateFiles.ReauthStore.Clear | internal/store/reauth.go:108-116 | Removed before unpublished; a failed removal changes neither. |
| StateFiles.CanonicalContextPaths | reauth.go:473-489 | The loop gives the canonical paths in order of first appearance. |
| StateFiles.CanonicalMembers | reauth.go:473-489 | A key is in the result exactly if some non-empty path has it. |
| StateFiles.CanonicalDistinct | reauth.go:473-489 | No key appears twice. |
| StateFiles.CanonicalInOrder | reauth.go:473-489 | The result consists of the canonical forms at the first position of each key, from left to right. |
| StateFiles.ClearContextPaths | reauth.go:456-471 | Every path is tried, the bot's own store is emptied with its file, the error says whether any failed. |
| StateFiles.ClearedFiles | reauth.go:456-471 | Exactly the files whose clearing succeeded are empty, all others keep their tokens. |
| StateFiles.PersistAndClear | reauth.go:441-454 | The marker is extended before anything is cleared; a failed mark touches no file. |
| StateFiles.SuccessMeansEmpty | reauth.go:441-454 | After success every recorded file, the bot's own included, is empty. |
| AuthLogin.PollLoop | internal/auth/login.go:132-231 | The loop over poll answers sends the polls and ends as specified, host redirects and codes included. |
| AuthLogin.Login | internal/auth/login.go:96-232 | Stored credentials only without force; otherwise at most three QR codes. |
| AuthLogin.CodesSound | internal/auth/login.go:96-262 | Never the invalidated token; what is saved is what is returned; a forced login returns only what it has just saved. |
| AuthLogin.CodeSentOnce | internal/auth/login.go:135-208 | A verification code goes with the next poll and with no other. |
| AuthLogin.PollingEnds | internal/auth/login.go:135-231 | One poll for each status up to the first that ends the code; complete fresh credentials that are saved are returned, bound stored ones if not forced, expired or blocked codes are renewed, everything else is an error. |
| AuthLogin.PollsFollowRedirects | internal/auth/login.go:215-222 | Exactly a redirect to a named host moves the next poll, to that host. |
| AuthLogin.CodesAreDecided | internal/auth/login.go:96-232 | The first code that is not renewed decides the login; after three renewals it gives up. |
| SessionErrors.Collect | reauth.go:563-585 | The recursion appends exactly what is kept. |
| SessionErrors.NormalizeSessionChange | reauth.go:553-561 | What is kept plus the session-changed sentinel, joined. |
| SessionErrors.SaysSessionChanged | reauth.go:553-585 | The normalized error matches ErrSessionChanged and never ErrReauthRequired. |
| SessionErrors.KeepsEveryLeaf | reauth.go:553-585 | It matches exactly the leaves that occur in the original, cleanup errors included, hence all that the original matched. |
| SessionErrors.LeavesInOrder | reauth.go:563-585 | What is kept has the leaves of the original in its order and as often, causes before cleanup errors. |
| SessionErrors.UnrelatedKeptWhole | reauth.go:577-584 | An error with a text of its own that mentions neither sentinel is kept whole. |
| Redact.JsonStringEnd | internal/redact/redact.go:471-486 | The loop finds the closing quote of the string, or the end of the text. |
| Redact.JsonValueEnd | internal/redact/redact.go:500-555 | The scan, depth counters included, ends where the specification says. |
| Redact.ReplaceSensitiveJsonFields | internal/redact/redact.go:440-469 | The loop writes exactly the scan of its input. |
| RedactJson.ValueEndsExactly | internal/redact/redact.go:500-555 | The value scan ends exactly at the end of any well-formed value's text, whatever its strings hold. |
| RedactJson.ScannerAgreesWithTree | internal/redact/redact.go:252-273 | On well-formed JSON text the scanner gives the text of the tree in which every hidden key's value is "***". |
| RedactJson.ScannerAgreesOnVerbatimKeys | internal/redact/redact.go:252-273 | The same with Unquote for the scanner and JSON unescaping for the tree, on values whose keys have nothing to unescape. |
| RedactTwice.ScanTwice | internal/redact/redact.go:440-469 | On any text, malformed or not, a second scan changes nothing. |
| RedactCut.CutValueHidden | internal/redact/redact.go:440-555 | Text cut off anywhere inside a hidden key's value shows nothing of the value. |
| RedactCut.UnclosedStringHidden | internal/redact/redact.go:500-512 | A hidden string that never closes is hidden to the end of the text. |
| RedactCut.UnclosedGroupHidden | internal/redact/redact.go:513-555 | So is an object or array that never closes, whatever strings and groups it holds, JSON or not. |
| RedactCut.GroupHidden | internal/redact/redact.go:513-555 | A nested value that closes, JSON or not, is hidden up to its closing character, and what follows is scanned on. |
| RedactCut.BareValueHidden | internal/redact/redact.go:500-555 | Any other value, or none, is hidden up to the next delimiter. |
| RedactCut.UnclosedStringShown | internal/redact/redact.go:440-455 | A string that never closes and belongs to no hidden key is left as it is. |
| LessThan.HtmlTagEnd | internal/markdown/less_than.go:103-161 | The loops find the end of the tag as specified, or none. |
| LessThan.NormalizeLine | internal/markdown/less_than.go:54-69 | The loop writes exactly the normalized line. |
| LessThan.FenceRun | internal/markdown/less_than.go:84-101 | Marker, length and rest of a fence after at most three spaces. |
| LessThan.NormalizeBareLessThan | internal/markdown/less_than.go:17-52 | The whole loop, fence state included, writes the normalized document. |
| LessThan.ShortcutAgrees | internal/markdown/less_than.go:18-20 | Without a less-than sign the full scan would change nothing. |
| LessThanTags.TagEndIff | internal/markdown/less_than.go:103-161 | A tag is recognised exactly when the text starts with one of the grammar, and then to its end. |
| LessThanTags.RemainingInTag | internal/markdown/less_than.go:54-69 | Every less-than sign left in prose is inside a complete allowed tag. |
| LessThanText.NothingElseChanges | internal/markdown/less_than.go:17-69 | Reading U+FF1C as a less-than sign, input and output are the same text. |
| LessThanText.RowsOfOutput | internal/markdown/less_than.go:17-52 | The output has the input's lines, fenced where they were, the fenced ones verbatim. |
| LessThanText.NormalizingIsIdempotent | internal/markdown/less_than.go:17-52 | Normalizing twice changes nothing more. |
| LessThanText.RemainingLessThan | internal/markdown/less_than.go:17-69 | In the output, a less-than sign outside the fences is inside an allowed tag. |
| LessThanFences.OpensIff | internal/markdown/less_than.go:71-101 | A prose line opens a fence exactly if it is printed as one: at most three spaces, at least three equal markers, an info text without backtick after backticks. |
| LessThanFences.ClosesIff | internal/markdown/less_than.go:79-101 | Inside a fence a line closes it exactly if it has at most three spaces, at least as many of the same marker, and blanks. |
| LessThanFences.FencedBlockKept | internal/markdown/less_than.go:17-52 | An opener, lines that do not close it and a closer are kept verbatim, and what follows is prose. |
| LessThanFences.OpenBlockKept | internal/markdown/less_than.go:17-52 | A block that never closes is kept to the end. |
| LessThanFences.ProseLineNormalized | internal/markdown/less_than.go:17-52 | A line outside that opens no fence is normalized, and the next is outside again. |
| LessThanFences.AllowedTagKept | internal/markdown/less_than.go:54-69 | An allowed tag of the grammar is kept. |
| LessThanFences.BareSignReplaced | internal/markdown/less_than.go:54-69 | A less-than sign with which no allowed tag begins is replaced. |
| MessageGraph.Cloner.ClonePointer | outbound.go:200-212 | Terminates on every graph; each visited item gets one clone, new and complete, with references led to clones. |
| MessageGraph.Cloner.ClonePointers | outbound.go:214-224 | The clone's text and reference are new objects with the original's contents. |
| MessageGraph.Normalizer.Normalize | outbound.go:226-242 | Terminates on every graph, shared texts included; every visited item's text and title end up normalized once. |
| MessageGraph.PathsAgree | outbound.go:194-242 | Graphs whose items mirror each other show the same at every reference path. |
| MessageGraph.CloneAndNormalize | outbound.go:167-168 | The result consists of new objects, the old heap is unchanged, and at every path it shows the normalized original. |
| MessageGraph.PrepareItem | outbound.go:167-168 | The same with the normalization of the send path. |
| Chunking.ChunkText | content.go:418-447 | The loop gives exactly the specified chunks. |
| Chunking.FirstRunes | content.go:449-458 | The bytes of the first runes. |
| Chunking.RuneLen | content.go:460-466 | The number of runes, invalid bytes counting as one each. |
| Chunking.ChunksJoin | content.go:418-447 | The chunks concatenate to the text, for every limit. |
| Chunking.ChunkSizes | content.go:418-447 | At most the limit in runes, all but the last more than three tenths of it, every cut at a rune boundary. |
| Chunking.ChunkCount | content.go:418-447 | Hence a bound on the number of chunks. |
| Chunking.CutPreference | content.go:431-438 | Paragraph breaks before line breaks before spaces, of each kind the last that is far enough in. |
| Chunking.ChunksExactly | content.go:418-447 | A text that fits, or has no limit, is one chunk; of any other a piece of the first runes up to the limit is cut off, after the last paragraph break that has more than three tenths of the limit before it, else line break, else space, else at the end, and the rest is chunked alike. |
| Chunking.GoChunks | content.go:418-466 | All of this for Go's decoding of any bytes. |
| Utf8.WidthIff | content.go:418-466 | A rune of several bytes is exactly the UTF-8 encoding of a scalar value. |
| Utf8.RunesOfValid | content.go:460-466 | Valid text has as many runes as scalar values. |
| BotAgent.SanitizeBotAgent | internal/protocol/botagent.go:21-102 | The loops compute the specified string. |
| BotAgent.Truncate | internal/protocol/botagent.go:84-101 | Dropping trailing elements keeps the longest prefix that fits. |
| BotAgentGrammar.ResultInGrammar | internal/protocol/botagent.go:21-102 | The default, or the longest prefix that fits in 256 bytes, never empty, of the elements found in the input: products with optional comments. |
| BotAgentGrammar.SanitizedTwice | internal/protocol/botagent.go:21-102 | Cleaning a cleaned string changes nothing. |
| BotAgentFound.SanitizesWhatIsFound | internal/protocol/botagent.go:21-102 | For any input: of its words, grouped by parentheses with none left out, exactly the products are kept, in order, each with the comment after it, as many as fit. |
| BotAgentFound.ProductAndCommentIff | internal/protocol/botagent.go:14-15 | What a product and a comment are, by code points. |
| BotAgentFound.OnlyWordsCount | internal/protocol/botagent.go:21-29 | White space around and between the words does not matter. |
| Aes.DecryptEncrypt | internal/crypto/aes.go:16-53 | Decryption undoes encryption for every plaintext, 16-byte key and invertible block function. |
| Aes.EncryptedLength | internal/crypto/aes.go:63-65 | The ciphertext has the announced size. |
| Aes.UnpadPad | internal/crypto/aes.go:104-122 | Removing the padding undoes adding it. |
| Aes.PadsWithCount | internal/crypto/aes.go:104-111 | One to sixteen bytes are added, each of them their number. |
| Aes.BlocksApart | internal/crypto/aes.go:16-53 | Each block of the output is the cipher of the same block of the input. |
| Aes.RefusedIff | internal/crypto/aes.go:16-53 | Exactly which keys and texts are refused. |
| Aes.Pkcs7Pad | internal/crypto/aes.go:104-111 | The padding loop. |
| Aes.EncryptAesEcb | internal/crypto/aes.go:16-32 | The block loop, and the error for a key of another length. |
| Aes.DecryptAesEcb | internal/crypto/aes.go:35-53 | The block loop, and the errors for key and ciphertext lengths. |
| AesKey.KeyFromEveryForm | internal/crypto/aes.go:69-102 | Every 16-byte key is recovered from each of its three wire forms. |
| AesKey.NoAmbiguity | internal/crypto/aes.go:69-102 | A text is a form of one key at most. |
| AesKey.KeysAreSixteenBytes | internal/crypto/aes.go:69-93 | Whatever is decoded is a 16-byte key. |
| AesKeyForms.HexInEitherCase | internal/crypto/aes.go:69-74 | Each hexadecimal letter may be in either case. |
| AesKeyForms.KeyInUrlSafeForm | internal/crypto/aes.go:75-82 | Both base64 forms may be in the URL-safe alphabet. |
| AesKeyForms.OthersRefused | internal/crypto/aes.go:84-93 | Base64 of anything else is refused. |

## Left out

- HTTP calls, headers, QR display, CDN upload and download, remote downloads: network plumbing; a server response is a parameter.
- Power-loss durability of atomic writes: the source does not promise it; a write takes effect or does not.
- `StripMarkdown` and the URL, assignment and header passes of `redactText`, and error-message redaction: regular expressions.
- `SensitiveKey` and `strconv.Unquote` themselves: one abstract predicate on quoted keys.
- AES, SHA-256, MD5 and random identifiers: an arbitrary invertible block function and an injective fingerprint.
- Path canonicalisation and Windows case folding: abstract functions in `StateFiles`; canonical paths in `Session`.
- JSON decoding of wire messages and of the state files: a message, a record, or an error.
- Slash commands, the send hooks, what a hook does, message parsing, logging, thumbnails, the config cache, version packing, upload retry: small or single-branch.
- `beginRun`, `finishRun` and the poll loop's retry timer: one bot runs one loop at a time; the poll loop appears as a step that appends a response to the queue.
- The `Err` texts of login and reauthentication: errors are modelled by the state they leave.
- Corruption or deletion of files by other programs while a process runs: only the disk a process starts from is arbitrary.
- SessionTheorems.CompletionAdvances: progress of the owner under a scheduler that lets it run; scheduling fairness itself is not modelled.
- MessageGraph.PrepareItem: pointers to image, voice, file, video and tool items are shared between clone and original, as in the source, and are part of an item's payload.
