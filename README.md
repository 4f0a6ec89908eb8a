# Session engine of a WhatsApp travel-agency bot, in Dafny

The bot keeps, for each correspondent (`msg.from`), a session record
`{etapa, finalizado, ultima, timeout}` in the in-memory map `userSessions`,
writes `{etapa, finalizado, ultima}` of every entry to `sessions.json` after
each change, restores that file at start-up, re-arms a five-hour timer on
each message that ends the session when it fires (closing notice, then an
Instagram promotion unless the session was ended in the Instagram stage;
see the timer quirks listed below), and clears every session once at
the end of the day. Messages are handled by `funil`: ids that are not private
contacts (`@c.us`) are ignored; an unknown or idle session is restarted at the
menu; otherwise the menu flow runs over the stages menu, quote (`cotacao`),
check-in, group and Instagram, with `finalizado` making the "agent called"
hand-off happen once per stage entry.

Modules:

- `Text` (text.dfy): `endsWith`, `includes` and `toLowerCase` on strings.
- `Session` (session.dfy): the record, the snapshot entry, events, outbound
  message kinds, the five-hour constant, the expiry test, the check-in media
  test and the flow's transition table (`Transition`).
- `Engine` (engine.dfy): the whole script state as a value (`World`) and one
  function per handler: `HandleMessage` (`funil`), `SendMenu` (`enviarMenu`),
  `EndSession` (`encerrarSessao`), `FireTimer` (a `setTimeout` callback runs),
  `DailySweep`, `Save` (`salvarSessoes`) and the restore relation `Restored`
  (`carregarSessoes`). Session objects live in a heap of their own
  (`sessions: id -> ref`, `heap: ref -> record`) because a timer callback can
  read an object after it has left the map. Pending timers are a map from
  handle to owner, stage argument and due time; `clearTimeout` removes the
  handle.
- `Invariants` (invariants.dfy): every handler keeps `Valid` (no dangling
  references, fresh counters, one object per id, every live session owns the
  pending timer its record names).
- `Flow` (flow.dfy): the transition table row by row and the at-most-once
  hand-off over any run of messages.
- `Properties` (properties.dfy): the engine's promises and its timer
  behaviour, as lemmas over the `Engine` functions.
- `Chatbot` (chatbot.dfy): class `Bot`, the same state as fields updated in
  place, with the script's loops. `SaveSessions`, `SendMenu`,
  `HandleMessage`, `Restart`, `Refresh`, `EndSession`, `FireTimer`,
  `DailySweep` and `RestoreOne` are proved to compute exactly the `Engine`
  function of the same name (`SaveSessions`: `Save`); the restore loop
  `LoadSessions`, and the constructor that runs it, meet the relation
  `Restored`; `SetTimeout` and the sweep loop `ClearAll` are specified
  directly on the fields.

Behaviour kept as the code has it:

- A restart on the expired path builds a new record without `timeout`, so the
  old record's timer is never cancelled; it stays pending and, when it fires,
  ends the new session (`Properties.StaleTimerEndsNewSession`). A session can
  thus have two pending timers.
- A restored session gets a full five-hour timer from the restore time, not
  the time left since `ultima` (`Properties.RestoreArmsFullTimeout`).
- The stage passed to `encerrarSessao` is "menu" for a timer armed by
  `enviarMenu`, the saved stage for one armed on restore, and the stored
  object's stage at firing time for one armed by `funil`
  (`Properties.InstagramChoiceSuppressesPromo`, `Properties.MenuTimerSendsPromo`).
- The end-of-day sweep runs once and is never rescheduled
  (`Properties.SweepClearsOnce`).

## Model

| member | source | states |
|---|---|---|
| Text.Includes | chatbot.js:216 | `mimetype.includes('pdf')` holds exactly when "pdf" occurs at some position of the mimetype |
| Text.EndsWithConcat | chatbot.js:130 | `endsWith` holds exactly when the string is some prefix followed by the suffix |
| Text.Lower | chatbot.js:216 | `filename.toLowerCase()` keeps the length and lower-cases every ASCII letter in place |
| Session.ProjectForgetsTimer | chatbot.js:21-25 | the snapshot entry drops the timer handle and nothing else: records that differ only in their handle project alike, a record rebuilt from a saved entry projects back to it, and a record projects to an entry exactly when its stage, flag and `ultima` are the entry's |
| Session.AcceptsCheckInMedia | chatbot.js:214-216 | only a media event of type image or document can be accepted; every image is; a document is accepted exactly when "pdf" occurs in its mimetype or its lower-cased file name ends in ".pdf" |
| Session.Transition | chatbot.js:150-226 | an agent hand-off happens only from a non-finalized stage, finalizes it and is the only message; the menu is sent exactly on "0" outside the menu; outside the menu only "0" changes the stage; a finalized stage stays silent until "0"; the stage/flag discipline (menu unfinalized, group and Instagram finalized) is preserved |
| Engine.Boot | chatbot.js:13 | the process starts from an empty map, which satisfies the invariant |
| Engine.Lookup | chatbot.js:137 | a record is found exactly for ids present in the map, and it is the stored object itself, `ultima` included |
| Engine.SnapshotOf | chatbot.js:18-26 | the snapshot has exactly the map's keys |
| Engine.ClosingMessages | chatbot.js:88-97 | the closing notice comes first, the promotion follows exactly when the stage argument is not "instagram", and nothing else is sent |
| Engine.Save | chatbot.js:18-27 | the file holds the projection of the map, the projection is the map's own, and nothing but the file changes |
| Engine.SendMenu | chatbot.js:115-123 | the menu is the only message; the map is unchanged; the record names a fresh pending timer owned by the id, passing "menu" and due five hours later; the file is written |
| Engine.Restart | chatbot.js:140-141 | the id holds a fresh `{menu, false, now}` object without a timer; other entries and old objects are kept and no pending timer is cancelled |
| Engine.Refresh | chatbot.js:146-226 | on a live session the map is unchanged, the object takes the flow's stage and flag with `ultima` set to now, and it owns a pending timer whose callback reads the object's stage when it fires |
| Engine.HandleMessage | chatbot.js:129-229 | a non-contact id changes nothing and sends nothing; a contact has a session active now afterwards and the file is written; the menu is sent exactly on a restart or on "0" outside the menu |
| Engine.EndSession | chatbot.js:86-98 | exactly `from` leaves the map; an absent id changes nothing and sends nothing; a present one gets the closing messages, the file is written, and exactly the handle its record names is cancelled while every other pending timer stays |
| Engine.FireTimer | chatbot.js:148 | a timer that is not pending or not yet due does nothing; a due one leaves the pending set and removes its owner's entry, and the closing messages for its stage argument are sent when the owner was present; then the owner's current handle is cancelled too and every other pending timer stays, and an absent owner leaves everything but the fired handle as it was |
| Engine.DailySweep | chatbot.js:241-247 | the sweep is disarmed afterwards; disarmed, it changes nothing; armed, it empties the map, writes an empty file, arms nothing and leaves no live record's timer pending |
| Engine.RestoreOne | chatbot.js:38-41 | the id holds an object with the saved fields, owning a pending timer due five hours from now that passes the saved stage; other entries are kept and no timer is cancelled |
| Engine.Restored | chatbot.js:33-44 | with a file, the restored world is valid, keeps the file, holds the old ids plus the saved ones, and every saved id has exactly its saved fields |
| Chatbot.CleanSessions | chatbot.js:19-26 | the projection loop yields exactly the map's keys and, for each, the record's stage, flag and last-activity time |
| Chatbot.Bot.constructor | chatbot.js:13 | start-up: empty map, sweep scheduled, saved sessions restored as `Restored` describes, invariant established |
| Chatbot.Bot.SetTimeout | chatbot.js:122 | arming hands out a fresh handle and adds exactly one pending timer due a full idle timeout later |
| Chatbot.Bot.SaveSessions | chatbot.js:18-27 | the file is overwritten with the projection of the current map; nothing else changes |
| Chatbot.Bot.SendMenu | chatbot.js:115-123 | `enviarMenu` computes `Engine.SendMenu`: menu sent, the record's old timer cancelled, one new "menu" timer stored, snapshot saved |
| Chatbot.Bot.HandleMessage | chatbot.js:129-229 | `funil` computes `Engine.HandleMessage` and keeps the invariant |
| Chatbot.Bot.Restart | chatbot.js:141 | a new `{menu, false, now}` object without timer replaces the entry |
| Chatbot.Bot.Refresh | chatbot.js:146-226 | on a live session `ultima`, the timer, the stage and the flag become what `Engine.Refresh` says, and the flow's reply is returned |
| Chatbot.Bot.EndSession | chatbot.js:86-98 | `encerrarSessao` computes `Engine.EndSession` |
| Chatbot.Bot.FireTimer | chatbot.js:40 | a timer callback computes `Engine.FireTimer` (stage argument as armed) and keeps the invariant |
| Chatbot.Bot.DailySweep | chatbot.js:241-247 | the sweep callback computes `Engine.DailySweep` and keeps the invariant |
| Chatbot.Bot.ClearAll | chatbot.js:242-245 | the loop leaves the map empty and cancels exactly the handles the entries held |
| Chatbot.Bot.LoadSessions | chatbot.js:33-44 | the restore loop, in any visiting order, produces a world related to the old one by `Restored` |
| Chatbot.Bot.RestoreOne | chatbot.js:38-41 | one iteration stores a new object with the saved fields and a fresh timer passing the saved stage |
| Invariants.HandleMessageValid | chatbot.js:129-229 | handling a message keeps one object per id, and every live session's record names a pending timer that it owns |
| Invariants.SendMenuValid | chatbot.js:119-123 | `enviarMenu` restores the owned-timer invariant for the id it re-arms |
| Invariants.EndSessionValid | chatbot.js:86-98 | ending a session keeps the invariant |
| Invariants.FireTimerValid | chatbot.js:40 | a firing timer keeps the invariant, whichever session it ends |
| Invariants.DailySweepValid | chatbot.js:241-247 | the sweep keeps the invariant |
| Invariants.RestoreOneStep | chatbot.js:37-42 | each restore iteration extends the restored part by one id while keeping every other entry, object and pending timer |
| Flow.MenuChoices | chatbot.js:153-197 | in the menu "1" gives quote/false, "2" check-in/false, "3" group/true with group text then link, "4" Instagram/true with Instagram text then link; any other body changes nothing and sends nothing |
| Flow.ZeroReturnsToMenu | chatbot.js:199-202 | "0" from any non-menu stage yields menu/false and sends the menu, whatever the prior flag |
| Flow.FinalizedStageIgnores | chatbot.js:203 | a finalized non-menu stage ignores every body but "0" |
| Flow.LinkStagesIgnore | chatbot.js:203-225 | the group and Instagram stages never answer anything but "0", finalized or not |
| Flow.QuoteHandOffOnce | chatbot.js:205-211 | the first non-"0" message in an unfinalized quote stage finalizes it and calls the agent; once finalized, nothing more is sent |
| Flow.CheckInRule | chatbot.js:213-224 | in an unfinalized check-in stage the agent is called and the stage finalized exactly when the media test passes; otherwise nothing changes and nothing is sent |
| Flow.CheckInAcceptedExamples | chatbot.js:216 | images are accepted; documents are accepted on a pdf mimetype or on an upper-case ".PDF" name |
| Flow.CheckInRejectedExamples | chatbot.js:214-216 | no media, another message type, or a non-pdf document is refused |
| Flow.AgentNotifiedAtMostOnce | chatbot.js:203-225 | over any run of messages without "0", the stage is kept, the flag never reverts, and the agent is notified once if the run finalizes the stage and never otherwise |
| Flow.QuoteFinalizesOnFirstMessage | chatbot.js:205-211 | in the quote stage any non-empty run finalizes the stage and notifies the agent exactly once |
| Properties.ExpiryBoundary | chatbot.js:12 | an unknown id or a zero `ultima` is expired; exactly five hours idle is not, five hours and one millisecond is |
| Properties.NonContactIgnored | chatbot.js:130 | an id not ending in "@c.us" changes nothing and sends nothing |
| Properties.ExpiredStays | chatbot.js:138 | once expired, a session stays expired at every later time |
| Properties.TouchedIsLive | chatbot.js:138 | a session whose `ultima` was set to a non-zero time is live for the whole five hours after it |
| Properties.ExpiredEventRestarts | chatbot.js:136-144 | an expired or unknown session becomes `{menu, false, now}` with only the menu sent, other entries kept, the snapshot written, one new "menu" timer, and no pending timer cancelled |
| Properties.LiveEventRearms | chatbot.js:146-148 | on a live session `ultima` becomes now, the old handle is cancelled, and exactly one new handle for this id, due five hours later, is stored; its stage argument reads the object unless "0" re-armed it with "menu" |
| Properties.LiveEventFollowsFlow | chatbot.js:150-228 | on a live session the stored stage and flag become the flow's decision, exactly the flow's messages are sent, other entries are kept and the snapshot is written |
| Properties.QuoteNoticeNotRepeated | chatbot.js:203-211 | two quote messages within the idle window: the first calls the agent, the second sends nothing |
| Properties.EndAbsentSession | chatbot.js:87 | ending an absent session is a no-op |
| Properties.EndLiveSession | chatbot.js:86-98 | ending a live session removes only that entry, cancels its timer, writes the snapshot, sends the closing notice and sends the promotion exactly when the stage argument is not "instagram" |
| Properties.NoFiringWhenNotDue | chatbot.js:89 | a cancelled, already fired or not yet due timer does nothing |
| Properties.ReplacedTimerCannotFire | chatbot.js:147 | after a live event the session's previous handle can no longer end it |
| Properties.OwnTimerEndsSession | chatbot.js:148 | the timer a live session owns removes exactly that entry when due and sends the closing messages for its stage argument |
| Properties.InstagramChoiceSuppressesPromo | chatbot.js:148 | the timer armed when "4" is chosen reads the stage at firing time, so it closes without the promotion |
| Properties.MenuTimerSendsPromo | chatbot.js:122 | a timer armed by `enviarMenu` passes "menu", so closing is followed by the promotion |
| Properties.StaleTimerEndsNewSession | chatbot.js:141 | restarting an expired session leaves its old timer pending beside the new one, and that old timer ends the new session when it fires |
| Properties.SweepClearsOnce | chatbot.js:241-247 | the sweep empties the map, saves an empty snapshot and cancels every live timer; a second sweep changes nothing |
| Properties.SnapshotProjects | chatbot.js:19-26 | every key of the map is in the snapshot with exactly its stage, flag and last activity |
| Properties.RestoreOverlays | chatbot.js:37-42 | restoring overlays the saved entries on the map: saved fields win for saved ids, other entries are kept |
| Properties.SaveRestoreRoundTrip | chatbot.js:18-44 | saving and restoring at start-up reproduces stage, flag and last activity for every correspondent |
| Properties.RestoreArmsFullTimeout | chatbot.js:40 | a restored session's timer is due a full idle timeout after the restore and passes the saved stage |

## Left out

- The WhatsApp client, QR code, puppeteer, `getChat`, `getContact`,
  `downloadMedia` and `sendStateTyping` are transport: media type, mimetype
  and file name are plain inputs of an event, and sending is the list of
  message kinds a handler returns.
- The message texts and the first-name greeting are not modelled; messages are
  kinds.
- Reading and writing `sessions.json` and JSON formatting: the file is a value
  (`disk`), absent or holding the snapshot; a file that does not parse is not
  modelled.
- Real time and concurrency: `Date.now()` is an input, timers fire only when
  `FireTimer` is called (at or after their due time), and the `await delay`
  pauses are dropped. Each handler runs atomically, so interleavings of a
  handler with a timer callback or another handler during its `await`s are not
  captured.
- The computation of the delay until 23:59 local time: the sweep is an
  operation that can be invoked, and runs once.
- In an unfinalized check-in stage, a media event of type document whose
  mimetype does not contain "pdf" and that has no file name makes the script
  throw inside `funil` after it has refreshed the session (the `||` reads the
  file name only when the mimetype test fails); a failed media download
  throws there too. The model takes the file name as a string and does not
  model these exceptions.
- `toLowerCase` is modelled on ASCII letters only; other characters are kept
  as they are.
- `Chatbot.Bot.LoadSessions`: its contract is the relation `Restored`, not a
  function, because which fresh object and handle each entry gets depends on
  the order the loop visits the saved entries.
