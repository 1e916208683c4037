# Shopee product-video bot: the batch lifecycle, in Dafny

This project models the core of a Telegram bot that collects Shopee product links from users and
hands them to admins in batches. Admins film one video per batch, and the bot tells each submitter
where to watch it. The model covers:

- **Submission.** A user's text message is routed to support or to the queue. The link is found,
  resolved, classified by its shape, normalised to its key, and queued unless a video already exists
  for that key.
- **Registration.** `/start` and every user message register the sender.
- **The admin lifecycle.**
  - `/add1`…`/add6` cut a batch from the head of the queue.
  - `/addmanual` and `/add <link>` build a manual batch of at most six links.
  - `/video <link>` stores the video under every key of the pending batch, notifies the batch's
    submitters and clears the session.
  - `/cancelar` leaves manual mode, or else puts the cut batch back at the head of the queue.
  - `/esgotado` and `/bugado` drop one item from the cut batch once its submitter has been told.
  - `/deletarvideo` unlinks every product stored with a video.
  - `/pendentes` and `/enviar` only read the state.

The model has three layers:

- **Step functions.** `Lifecycle` (admin) and `Admission` (user) are pure functions on a `World`:
  the queue, the video store, the registered users and the caller's session. Each returns the new
  world and the reply the admin or user sees. Their contracts say, for every reply, exactly which
  inputs produce it (success and each error alike) and what that reply does to the state. They
  also say that each command keeps the session invariant `WorldValid`.
- **Handlers.** `AdminHandlers` and `UserHandlers` are the imperative handlers, written over the
  mutable stores `Store.BotData` (`bot_data`) and `Store.UserData` (`user_data`). The loops of the
  originals become `while` loops with invariants. Each handler is proved to leave exactly the world
  and reply of its step function.
- **Whole-bot trace.** `Trace` routes any sequence of updates, from any users, as `bot.py`
  registers the handlers, to the step functions that the handlers are proved equal to. It proves the invariant in every reachable state.

`Properties` states what sequences of commands do:

- with no batch open and outside manual mode, cut then cancel is the identity;
- a cut with no cut batch open, and a cancel outside manual mode, each conserve the submissions
  held between the queue and the batch (a cut taken in manual mode is lost by the cancel, see
  below);
- a finalised product short-circuits later submissions;
- a deleted video makes its products queue again;
- dropping a problem product removes exactly that one submission.

Some command sequences lose submissions. The model states each such loss exactly rather than hiding
it:

- a cut over an open cut batch overwrites that batch;
- `/cancelar` in manual mode clears a cut batch that was also open;
- `/video` on a manual batch clears a cut batch that was also open;
- `/addmanual` while a manual batch is being built empties both manual lists;
- a cut taken in manual mode is lost when `/cancelar` leaves manual mode;
- `/start` in the middle of a batch clears it.

The model follows the code in these cases, none of which the code refuses:

- A cut asking for more than the queue holds is not rejected. It is clamped with `min`.
- A cut or `/addmanual` with a batch already open is not refused. The cut overwrites the cut
  batch. `/addmanual` leaves an open cut batch in place and empties a manual batch already being
  built.
- `/esgotado` and `/bugado` work only on a cut batch, never on a manual one. They remove the item
  only when the notice to its submitter goes through.

The network collaborators are parameters of the model:

| collaborator | what it stands for |
|---|---|
| `resolve` | following a short link to its destination |
| `convert` | the affiliate-link API, applied to one link |
| `delivered` | whether a Telegram send to a user succeeds |
| `admins` | the configured admin IDs |

## Model

| member | source | states |
|---|---|---|
| Text.Strip | comandos_user.py:128 | the result is a slice of the input with only whitespace outside it, starts and ends with non-whitespace, and is empty exactly when the input is all whitespace |
| Text.RemoveAll | comandos_user.py:128 | deleting with an empty pattern returns the text; the result is never longer and introduces no new character |
| Text.RemoveAllDeletesLeftmost | comandos_user.py:128 | the leftmost occurrence is deleted, the text before it kept, and the text after it treated the same way, so occurrences are deleted left to right without overlap |
| Text.RemoveAllWithoutOccurrence | comandos_user.py:128 | a text in which the pattern does not occur comes back unchanged |
| Text.ParseInt | comandos_admin.py:15-19 | parsing succeeds exactly when the stripped text is a digit string with at most one leading `+` or `-`; the value is the digits' value, negated after `-` |
| Links.MatchesAtIsLinkPattern | comandos_user.py:100-101 | the pattern test `MatchesAt` holds at a position exactly when `https?://[^\s]*(shopee\|shp\.ee)[^\s]*` can match there: the scheme, non-whitespace up to a host marker, non-whitespace after it |
| Links.SearchFrom | comandos_user.py:99-101 | the result is the leftmost position at or after the start where the link pattern matches; none means no position matches |
| Links.FindShopeeLink | comandos_user.py:99-101 | none exactly when the pattern matches nowhere; otherwise the link is the text from the leftmost match to the end of its run of non-whitespace, so it is non-empty, free of whitespace and occurs in the message |
| Links.RouteMessage | comandos_user.py:103-154 | support exactly when no link is found; otherwise the route carries the found link, and it is a submission exactly when deleting the link leaves only whitespace |
| Links.BareLinkIsSubmission | comandos_user.py:126-154 | a message made of one link with whitespace around it is a submission of exactly that link |
| Links.Classify | comandos_user.py:160-174 | a video link exactly when the lower-cased link contains `/video/`; a product exactly when it is not a video link and has a product shape; unrecognised exactly when it has neither |
| Links.NumericPathAtIsPathPattern | comandos_user.py:169 | the run-based scan matches at a position exactly when the regular expression `/\w+/\d+/\d+` does |
| Links.Normalize | comandos_user.py:177 | the key is the prefix of the link before its first `?`: a prefix, free of `?`, followed by `?` unless it is the whole link |
| Links.NormalizeIsUnique | comandos_user.py:177 | any string with those three properties is the key, so they define it |
| Links.NormalizeIdempotent | comandos_admin.py:341 | normalising a key again gives the same key, so an admin may pass a link or its key |
| Model.Distinct | comandos_admin.py:31 | the result has the same members as the input, each once, and is no longer |
| Model.Targets | comandos_admin.py:31 | a user is notified exactly when some item of the batch is theirs, and never twice |
| Model.SliceIndex | comandos_admin.py:27-28 | the cut position stays within the queue for any count, negative included |
| Model.Associate | comandos_admin.py:183-186 | every key of the batch maps to the video; every other entry is unchanged |
| Model.WithoutVideo | comandos_admin.py:303-310 | exactly the keys stored with the video are gone; the remaining entries are unchanged and none holds that video |
| Model.CountDelivered | comandos_admin.py:189-201 | the number of successful sends is at most the number of targets |
| Model.IndexOfKey | comandos_admin.py:343-349 | a found position holds the key and no earlier item does; none means no item holds it |
| Model.WithoutItem | comandos_admin.py:362 | the batch loses exactly the one item, as a multiset, and keeps nothing new |
| Model.RemoveFirst | comandos_admin.py:362 | removing an item that is present drops exactly one copy of it, as a multiset; removing one that is absent changes nothing |
| Model.RemoveFirstAt | comandos_admin.py:362 | removing by value the first item under a key removes exactly that position |
| Lifecycle.CutArgument | comandos_admin.py:16 | the count of a routed `/addN`, if it parses, is exactly N, and the bare `/addN` always parses to N |
| Lifecycle.CutArgumentIsCommandDigit | comandos_admin.py:16 | a routed `/addN` that parses asks for exactly N |
| Lifecycle.BareCutCommandParses | comandos_admin.py:16 | the bare `/addN` always parses, to N |
| Lifecycle.Cut | comandos_admin.py:10-58 | each reply holds exactly for its inputs: ignored for a non-admin, invalid for an unparsable count, empty for an empty queue, and a cut otherwise; only the cut changes anything; on a cut the batch followed by the new queue is the old queue, its length is min(count, queue length), its targets are its submitters, the reply carries each item's conversion and the count left, the manual keys and stores are untouched, and the invariant is kept |
| Lifecycle.OpenManual | comandos_admin.py:66-76 | an admin enters manual mode with two empty lists; an open cut batch is left in place; the invariant is kept |
| Lifecycle.AddLink | comandos_admin.py:78-143 | each reply holds exactly for its inputs; a link is accepted exactly in manual mode with an argument, fewer than six links and a conversion without an error; the limit is reported exactly at six; the accepted link is appended resolved and converted; outside manual mode one link is converted and nothing is kept; the invariant is kept |
| Lifecycle.PendingBatch | comandos_admin.py:158-168 | a manual batch, with the stored original links, is pending exactly when manual mode or its list is present; otherwise the cut batch is pending exactly when one is stored, with its items and its stored targets |
| Lifecycle.Finalize | comandos_admin.py:145-219 | each reply holds exactly for its inputs: the video is stored exactly for an admin with an argument, a non-empty pending batch and a conversion without an error, and nobody is notified exactly when the batch has no targets; on success every pending key maps to the converted video, other entries are unchanged, the session is cleared and the tally counts each target once; an empty manual batch and a conversion error are reported and change nothing; the invariant is kept |
| Lifecycle.Cancel | comandos_admin.py:221-234 | each reply holds exactly for its inputs; manual mode clears the whole session; otherwise a cut batch goes back in front of the queue, reporting its size; with neither nothing changes; the invariant is kept |
| Lifecycle.DeleteVideo | comandos_admin.py:290-317 | each reply holds exactly for its inputs: not found exactly when no key holds the video, a deletion exactly when some key does; exactly those keys are removed and their number reported; the invariant is kept |
| Lifecycle.MarkProblem | comandos_admin.py:327-370 | each reply holds exactly for its inputs: when the key is found in the cut batch, the item is marked exactly when the notice to its submitter goes through; a mark takes exactly the first item under the key out of the batch, recomputing the targets; a failed notice names that item's submitter and changes nothing; the invariant is kept |
| Lifecycle.BroadcastOutcome | comandos_admin.py:236-288 | each reply holds exactly for its inputs: ignored for a non-admin, usage for an admin with neither text nor photo, nobody registered when the user set is empty, and a send otherwise; success counts the users reached and the two counts add up to the users |
| Admission.Start | comandos_user.py:10-46 | the session is cleared, the sender is registered and nobody else changes, and the admin menu is shown exactly to admins |
| Admission.Submit | comandos_user.py:86-196 | the sender is registered; each reply holds exactly for its inputs: support exactly when no link is found, a video link or an unrecognised link rejected exactly when the resolved link is one, the stored video returned exactly when the product's key is stored; queued exactly for a bare product link without a video, appended as a well-formed record; the admins are alerted exactly when the queue length is a multiple of six; the invariant is kept |
| Store.BotData.constructor | bot.py:29-31 | start-up holds the loaded videos and users and an empty queue |
| Store.UserData.constructor | comandos_admin.py:82 | a user's session before any handler writes to it holds no key, so each `get` reads it as absent |
| Store.UserData.Clear | comandos_admin.py:219 | `user_data.clear()` leaves the empty session |
| AdminHandlers.NotifyAll | comandos_admin.py:189-201 | the notification loop counts each successful send and each failure, adding up to the targets |
| AdminHandlers.AddLinks | comandos_admin.py:10-58 | the handler leaves exactly the world and reply of `Cut` |
| AdminHandlers.Pendentes | comandos_admin.py:60-64 | an admin is told the queue length, anyone else nothing |
| AdminHandlers.AddManual | comandos_admin.py:66-76 | the handler leaves exactly the world and reply of `OpenManual` |
| AdminHandlers.Add | comandos_admin.py:78-143 | the handler leaves exactly the world and reply of `AddLink` |
| AdminHandlers.StoreVideo | comandos_admin.py:183-186 | the store loop ends with the store `Associate` describes and nothing else changed |
| AdminHandlers.Video | comandos_admin.py:145-219 | the handler leaves exactly the world and reply of `Finalize` |
| AdminHandlers.Cancelar | comandos_admin.py:221-234 | the handler leaves exactly the world and reply of `Cancel` |
| AdminHandlers.Enviar | comandos_admin.py:236-288 | the broadcast handler replies what `BroadcastOutcome` says |
| AdminHandlers.SendToAll | comandos_admin.py:277-286 | the loop over the registered users counts exactly the users reached and exactly those missed |
| AdminHandlers.DeletarVideo | comandos_admin.py:290-317 | the handler leaves exactly the world and reply of `DeleteVideo` |
| AdminHandlers.FindItem | comandos_admin.py:343-349 | the search loop finds the position `IndexOfKey` characterises |
| AdminHandlers.HandleProblematicLink | comandos_admin.py:327-370 | the handler leaves exactly the world and reply of `MarkProblem` |
| UserHandlers.Register | comandos_user.py:15-18 | the sender is added to the registered users and nothing else changes |
| UserHandlers.HandleStart | comandos_user.py:10-46 | the handler leaves exactly the world and reply of `Start` |
| UserHandlers.HandleUserMessage | comandos_user.py:86-196 | the handler leaves exactly the world and reply of `Submit` |
| Trace.InitialIsValid | bot.py:29-31 | the start-up state satisfies the invariant |
| Trace.Dispatch | bot.py:39-60 | admin commands from a non-admin and plain text from an admin change nothing; only `/video` and `/deletarvideo` write the video store; only a cut, a cancel and a user's message move the queue; only `/start` and a user's message register anyone |
| Trace.DispatchKeepsValid | bot.py:39-60 | every routed update keeps the sender's view valid |
| Trace.StepKeepsValid | bot.py:39-60 | one update keeps the whole bot valid: shared data and every user's session |
| Trace.RunKeepsValid | bot.py:39-60 | any sequence of updates from any users keeps the whole bot valid |
| Trace.ManualBatchStaysBounded | comandos_admin.py:89-92 | in every reachable state, no manual list holds more than six links and every cut batch carries its own targets |
| Properties.CutTakesNamedCount | comandos_admin.py:26-28 | a routed `/addN` that cuts takes min(N, queue length) items, between one and six |
| Properties.CutSixOfEight | comandos_admin.py:27-52 | `/add6` on eight queued items batches the first six in order and leaves the last two |
| Properties.CutStateIgnoresConversions | comandos_admin.py:33-52 | the new queue and session of a cut do not depend on the conversion results |
| Properties.CutThenCancelRestoresQueue | comandos_admin.py:228-232 | outside manual mode, cancelling right after a cut restores the queue |
| Properties.CutThenCancelIsIdentity | comandos_admin.py:228-232 | with no batch open before, cut then cancel leaves the world exactly as it was |
| Properties.CutConservesHeld | comandos_admin.py:27-52 | with no batch open, a cut loses no submission between queue and batch |
| Properties.CutOverOpenBatchLosesIt | comandos_admin.py:33-34 | a cut over an open cut batch loses exactly that batch |
| Properties.CancelConservesHeld | comandos_admin.py:228-232 | outside manual mode, cancelling loses no submission |
| Properties.ManualCancelDropsCutBatch | comandos_admin.py:225-227 | `/addmanual` then `/cancelar` loses exactly the cut batch that was open |
| Properties.ReopenManualDropsLinks | comandos_admin.py:69-71 | `/addmanual` after an accepted `/add` empties both manual lists, so the accepted link is gone, while the cut batch and the queue are kept |
| Properties.CutDuringManualThenCancelLosesItems | comandos_admin.py:225-227 | a cut during manual mode and then `/cancelar` leaves the cut items in neither the queue nor the session |
| Properties.ManualFinalizeDropsCutBatch | comandos_admin.py:158-164 | finalising a manual batch notifies only the admin and loses exactly the cut batch that was also open |
| Properties.CutFinalizeTallyCoversSubmitters | comandos_admin.py:189-201 | finalising a cut batch counts each distinct submitter of the batch exactly once |
| Properties.FinalizedProductShortCircuits | comandos_user.py:179-181 | after finalising, any product of the batch submitted again gets the new video and queues nothing |
| Properties.FinalizedCutItemShortCircuits | comandos_user.py:179-181 | the submitter of a finalised cut item who submits it again gets the video |
| Properties.DeletedVideoRequeues | comandos_admin.py:314-317 | after deleting a video, a product that had it is queued again when submitted |
| Properties.MarkedProblemLeavesCirculation | comandos_admin.py:359-364 | marking a problem product takes exactly that one submission out of circulation |
| Properties.SubmitIsIdempotentOnceVideoExists | comandos_user.py:179-181 | once a product has a video, submitting it again changes nothing and gives the same answer |
| Properties.QueuedOnlyProducts | comandos_user.py:160-174 | only a bare link whose resolved form is not a video link and has a product shape is queued |
| Properties.SubmitTwiceQueuesTwice | comandos_user.py:183-184 | without a video, the same product submitted twice is queued twice |
| Properties.QueuedSubmissionIsWellFormed | comandos_user.py:183 | a queued record belongs to its sender and is stored under its own link's key |
| Properties.RegistrationIsIdempotent | comandos_user.py:93-97 | registering an already registered user changes nobody |
| Properties.StartDropsCutBatch | comandos_user.py:13 | `/start` keeps the queue but loses exactly the open cut batch |

## Left out

- Telegram itself: message formatting, Markdown escaping, emojis, and the progress messages that are
  later edited. The replies are data constructors carrying the values the texts report.
- The support forwarding to the admins and the admin's reply to a support message
  (`handle_admin_message`). The model records only that a message went to support.
- The static commands `/tutorial`, `/ajuda` and `/cupom`: they only send fixed text.
- HTTP requests, signing and redirect following in `api_shopee.py`. `resolve` and `convert` are
  parameters; `convert` is applied to one link at a time. `Model.ConvertAll` stands for
  `convert_shopee_links` (api_shopee.py:7-34): one `convert` result per link, in order.
- The empty result that `convert_shopee_links` could return. It cannot happen when the API is
  called per link.
- JSON persistence in `database.py` (`save_video_db`, `save_user_ids`): the stores are in memory.
  Start-up takes the loaded stores as arguments.
- Parsing of the configuration and `ADMIN_IDS`: `admins` is a parameter.
- Trace.Run: one environment serves a whole run, so `resolve`, `convert` and `delivered` give the
  same answer for the same input throughout; a user reachable in one update and not in a later one
  is not modelled.
- Failures of the replies and message edits the handlers send to the caller. The model assumes
  they succeed; in the code, an exception partway through a handler leaves its changes half made:
  - in `add_links` (comandos_admin.py:33-52) the batch is stored before the replies and the queue is
    cut only after them;
  - in `video` (comandos_admin.py:183-219) the store is written before the final reply and the
    session is cleared only after it;
  - in `handle_problematic_link` (comandos_admin.py:359-368) the item is removed before the
    confirmation, inside the same `try`, so a failed confirmation reports a failed notice;
  - in `handle_user_message` (comandos_user.py:183-195) the submission is queued before the edit
    and the admin alert is sent only after it.
- The Flask keep-alive server and the asyncio event loop. Each update runs to completion before
  the next; interleaving inside an awaiting handler is not modelled.
- Console logging with `print`.
- Caption entities of `/enviar`: the text to send and whether a photo is attached are parameters.
- Unicode beyond ASCII in `\w`, `\d`, `int()` digits and `str.lower`. Case-insensitive matching
  covers ASCII and U+017F, the only other character the link pattern's letters fold to.
- The order of `list(set(...))`. Python leaves it unspecified; the model fixes first-occurrence
  order.
- A `link_queue` key that was never created reads as the empty queue, as `get(..., [])` does.
  `video_db` and `user_ids` are always present, as start-up creates them.
- The one-off `/add <link>` conversion outside manual mode is kept only as a reply.
- Lifecycle.Cut: for a negative count the batch length is not stated. No routed `/addN` command
  yields one.
- Lifecycle.IsCutCommand: excludes texts such as `/add6/add7`, which, if routed here, parse as 67.
