/** The session engine as a state machine on values. A `World` is everything
    the script keeps: the `userSessions` map, the session objects it points to
    (kept apart so that a timer callback can still read an object that has
    left the map), the pending `setTimeout` callbacks, the file written by
    `salvarSessoes` and the one-shot end-of-day sweep. Each operation of the
    script is a function from a world to a world and the messages it sends. */
module Engine {
  import opened Text
  import opened Session

  /** The stage argument a timer callback passes to `encerrarSessao`: a fixed
      stage (`"menu"` from `enviarMenu`, the stored stage on restore), or the
      `etapa` of a session object read when the timer fires (`sessao.etapa`). */
  datatype StageSource = Literal(stage: Stage) | StageOf(obj: Ref)

  /** A pending `setTimeout(() => encerrarSessao(owner, ...), due - now)`. */
  datatype Timer = Timer(owner: Id, source: StageSource, due: Millis)

  /** The persisted file: correspondent id to `{etapa, finalizado, ultima}`. */
  type Snapshot = map<Id, Saved>

  datatype World = World(
    sessions: map<Id, Ref>,       // userSessions
    heap: map<Ref, Record>,       // the session objects
    timers: map<Handle, Timer>,   // pending timeouts
    nextRef: nat,                 // next fresh object
    nextHandle: nat,              // next fresh timer handle
    disk: Option<Snapshot>,       // sessions.json, None when absent
    sweepArmed: bool)             // the end-of-day timeout has not fired yet

  datatype Outcome = Outcome(world: World, sent: seq<Outbound>)

  /** No reference points outside the heap. */
  ghost predicate NoDangling(w: World)
  {
    && (forall id :: id in w.sessions ==> w.sessions[id] in w.heap)
    && (forall h :: h in w.timers && w.timers[h].source.StageOf? ==> w.timers[h].source.obj in w.heap)
  }

  /** The live session of `id` owns a pending timer. */
  ghost predicate LiveTimer(w: World, id: Id)
    requires id in w.sessions && w.sessions[id] in w.heap
  {
    var t := w.heap[w.sessions[id]].timer;
    t.Some? && t.value in w.timers && w.timers[t.value].owner == id
  }

  /** The invariant every reachable world keeps: fresh counters are fresh,
      distinct correspondents have distinct objects, and the record of every
      live session names a pending timer owned by that session (other pending
      timers may name the same owner). */
  ghost predicate Valid(w: World)
  {
    && NoDangling(w)
    && (forall r :: r in w.heap ==> r < w.nextRef)
    && (forall h :: h in w.timers ==> h < w.nextHandle)
    && (forall a, b :: a in w.sessions && b in w.sessions && w.sessions[a] == w.sessions[b] ==> a == b)
    && (forall id :: id in w.sessions ==> LiveTimer(w, id))
  }

  /** The world at process start: empty map, nothing pending but the sweep. */
  function Boot(file: Option<Snapshot>): (w: World)
    ensures Valid(w)
  {
    World(map[], map[], map[], 0, 0, file, true)
  }

  /** `userSessions[id]`, if any. */
  function Lookup(w: World, id: Id): (r: Option<Record>)
    requires NoDangling(w)
    ensures r.Some? <==> id in w.sessions
    // what is found is the stored object itself, `ultima` included
    ensures r.Some? ==> r.value == w.heap[w.sessions[id]]
  {
    if id in w.sessions then Some(w.heap[w.sessions[id]]) else None
  }

  /** The projection `salvarSessoes` writes: one entry per key of the map. */
  function SnapshotOf(w: World): (s: Snapshot)
    requires NoDangling(w)
    ensures s.Keys == w.sessions.Keys
  {
    map id | id in w.sessions :: Project(w.heap[w.sessions[id]])
  }

  /** `salvarSessoes()`: overwrite the file with the projection. */
  function Save(w: World): (w': World)
    requires NoDangling(w)
    ensures NoDangling(w')
    // the file holds the projection of the map as it stands ...
    ensures w'.disk == Some(SnapshotOf(w')) && SnapshotOf(w') == SnapshotOf(w)
    // ... and nothing but the file changes
    ensures w'.(disk := w.disk) == w
  {
    w.(disk := Some(SnapshotOf(w)))
  }

  /** `clearTimeout(t)`; cancelling nothing or a handle that already fired
      does nothing. */
  function Cancel(timers: map<Handle, Timer>, t: Option<Handle>): map<Handle, Timer>
  {
    if t.Some? then timers - {t.value} else timers
  }

  /** The handles owned by the records currently in the map. */
  function LiveHandles(w: World): set<Handle>
    requires NoDangling(w)
  {
    set id | id in w.sessions && w.heap[w.sessions[id]].timer.Some? :: w.heap[w.sessions[id]].timer.value
  }

  /** `enviarMenu`: send the menu, cancel the record's timer if it has one,
      arm a new one whose callback passes the literal "menu", and save. */
  function SendMenu(w: World, from: Id, now: Millis): (o: Outcome)
    requires NoDangling(w) && from in w.sessions
    ensures o.sent == [MenuText]
    ensures NoDangling(o.world) && o.world.sessions == w.sessions
    // the record names a fresh pending timer of its own that passes "menu"
    ensures o.world.heap[w.sessions[from]].timer == Some(w.nextHandle)
    ensures w.nextHandle in o.world.timers && o.world.timers[w.nextHandle] == Timer(from, Literal(Menu), now + IdleTimeout)
    // the file is written
    ensures o.world.disk == Some(SnapshotOf(o.world))
  {
    var r := w.sessions[from];
    var h := w.nextHandle;
    var timers := Cancel(w.timers, w.heap[r].timer)[h := Timer(from, Literal(Menu), now + IdleTimeout)];
    Outcome(Save(w.(heap := w.heap[r := w.heap[r].(timer := Some(h))],
                    timers := timers, nextHandle := h + 1)),
            [MenuText])
  }

  /** Line 141 of `funil`: a brand-new `{menu, now, false}` object replaces
      whatever `from` held, without a timer; the old object's timer is left
      pending. */
  function Restart(w: World, from: Id, now: Millis): (w': World)
    // `from` now holds a brand-new `{menu, false, now}` object without a timer
    ensures from in w'.sessions && w'.sessions[from] == w.nextRef && w'.nextRef == w.nextRef + 1
    ensures w.nextRef in w'.heap && w'.heap[w.nextRef] == Record(Menu, false, now, None)
    // every other entry and every old object is kept, and no timer is cancelled
    ensures forall id :: id in w.sessions && id != from ==> id in w'.sessions && w'.sessions[id] == w.sessions[id]
    ensures forall r :: r in w.heap && r != w.nextRef ==> r in w'.heap && w'.heap[r] == w.heap[r]
    ensures w'.timers == w.timers
  {
    var r := w.nextRef;
    w.(sessions := w.sessions[from := r],
       heap := w.heap[r := Record(Menu, false, now, None)],
       nextRef := r + 1)
  }

  /** Lines 146-148 and the flow of `funil` on a live session: `ultima`
      becomes `now`, the old timer is cancelled and a new one armed whose
      callback reads the object's stage when it fires, and the stage and flag
      take the values the flow chose. */
  function Refresh(w: World, ev: Event, now: Millis): (w': World)
    requires NoDangling(w) && ev.from in w.sessions
    ensures NoDangling(w') && w'.sessions == w.sessions
    // the object takes the flow's stage and flag, and `ultima` becomes now
    ensures var rec := w.heap[w.sessions[ev.from]];
            var reply := Transition(rec.stage, rec.finalized, ev);
            var rec' := w'.heap[w.sessions[ev.from]];
            rec'.stage == reply.stage && rec'.finalized == reply.finalized && rec'.last == now
    // it owns a pending timer that reads the object's stage when it fires
    ensures LiveTimer(w', ev.from)
    ensures w'.timers[w'.heap[w.sessions[ev.from]].timer.value].source == StageOf(w.sessions[ev.from])
  {
    var r := w.sessions[ev.from];
    var rec := w.heap[r];
    var h := w.nextHandle;
    var reply := Transition(rec.stage, rec.finalized, ev);
    w.(heap := w.heap[r := Record(reply.stage, reply.finalized, now, Some(h))],
       timers := Cancel(w.timers, rec.timer)[h := Timer(ev.from, StageOf(r), now + IdleTimeout)],
       nextHandle := h + 1)
  }

  /** `funil`: drop non-contact ids; restart an expired or unknown session and
      send the menu; otherwise refresh the session, apply the flow (sending
      the menu through `enviarMenu` on "0") and save. */
  function HandleMessage(w: World, ev: Event, now: Millis): (o: Outcome)
    requires NoDangling(w)
    ensures NoDangling(o.world)
    ensures !EndsWith(ev.from, ContactSuffix) ==> o == Outcome(w, [])
    // a private contact has a session afterwards, active now, and the file is written
    ensures EndsWith(ev.from, ContactSuffix) ==>
              && ev.from in o.world.sessions
              && o.world.heap[o.world.sessions[ev.from]].last == now
              && o.world.disk == Some(SnapshotOf(o.world))
    // the menu is sent exactly on a restart or on "0" outside the menu
    ensures EndsWith(ev.from, ContactSuffix) ==>
              ((MenuText in o.sent) <==>
                 Expired(Lookup(w, ev.from), now) ||
                 (ev.from in w.sessions && ResetsToMenu(w.heap[w.sessions[ev.from]].stage, ev.body)))
  {
    if !EndsWith(ev.from, ContactSuffix) then Outcome(w, [])
    else if Expired(Lookup(w, ev.from), now) then SendMenu(Restart(w, ev.from, now), ev.from, now)
    else
      var rec := w.heap[w.sessions[ev.from]];
      var w1 := Refresh(w, ev, now);
      if ResetsToMenu(rec.stage, ev.body) then SendMenu(w1, ev.from, now)
      else Outcome(Save(w1), Transition(rec.stage, rec.finalized, ev).sent)
  }

  /** The messages `encerrarSessao` sends to a live session: the closing
      notice, then the promotion unless the stage argument is "instagram". */
  function ClosingMessages(stage: Stage): (m: seq<Outbound>)
    ensures |m| == (if stage == Instagram then 1 else 2) && m[0] == Closing
    ensures (Promo in m) <==> stage != Instagram
  {
    [Closing] + (if stage != Instagram then [Promo] else [])
  }

  /** `encerrarSessao(from, stage)`: nothing for an absent id; otherwise
      cancel the record's timer, delete the entry and save. The object itself
      stays reachable from any callback that captured it. */
  function EndSession(w: World, from: Id, stage: Stage): (o: Outcome)
    requires NoDangling(w)
    ensures NoDangling(o.world)
    ensures o.world.sessions.Keys == w.sessions.Keys - {from}
    ensures from !in w.sessions ==> o == Outcome(w, [])
    ensures from in w.sessions ==>
              o.sent == ClosingMessages(stage) && o.world.disk == Some(SnapshotOf(o.world))
    // exactly the handle the entry's record names is cancelled; every other
    // pending timer stays
    ensures from in w.sessions ==> o.world.timers == Cancel(w.timers, w.heap[w.sessions[from]].timer)
  {
    if from !in w.sessions then Outcome(w, [])
    else
      var rec := w.heap[w.sessions[from]];
      Outcome(Save(w.(timers := Cancel(w.timers, rec.timer), sessions := w.sessions - {from})),
              ClosingMessages(stage))
  }

  /** The stage a timer callback passes when it runs now. */
  function StageArgument(w: World, t: Timer): Stage
    requires t.source.StageOf? ==> t.source.obj in w.heap
  {
    match t.source
    case Literal(s) => s
    case StageOf(r) => w.heap[r].stage
  }

  /** A timer fires: only a pending timer whose delay has elapsed runs; it
      leaves the pending set and calls `encerrarSessao` on its owner. */
  function FireTimer(w: World, h: Handle, now: Millis): (o: Outcome)
    requires NoDangling(w)
    ensures NoDangling(o.world)
    ensures h !in w.timers || now < w.timers[h].due ==> o == Outcome(w, [])
    // a due timer runs once and removes its owner's entry, whichever object
    // that entry holds now
    ensures h in w.timers && w.timers[h].due <= now ==>
              && h !in o.world.timers
              && o.world.sessions.Keys == w.sessions.Keys - {w.timers[h].owner}
              && o.sent == (if w.timers[h].owner in w.sessions
                            then ClosingMessages(StageArgument(w, w.timers[h])) else [])
    // the owner's current handle is cancelled too (it may be a newer timer
    // than the one firing), and every other pending timer stays
    ensures h in w.timers && w.timers[h].due <= now && w.timers[h].owner in w.sessions ==>
              o.world.timers == Cancel(w.timers - {h}, w.heap[w.sessions[w.timers[h].owner]].timer)
    ensures h in w.timers && w.timers[h].due <= now && w.timers[h].owner !in w.sessions ==>
              o.world == w.(timers := w.timers - {h})
  {
    if h !in w.timers || now < w.timers[h].due then Outcome(w, [])
    else
      var t := w.timers[h];
      EndSession(w.(timers := w.timers - {h}), t.owner, StageArgument(w, t))
  }

  /** The end-of-day callback: cancel every live record's timer, empty the
      map and save. It is scheduled once, so after it has run it never runs
      again. */
  function DailySweep(w: World): (w': World)
    requires NoDangling(w)
    ensures NoDangling(w') && !w'.sweepArmed
    ensures !w.sweepArmed ==> w' == w
    // the armed sweep empties the map, saves it empty, and leaves no timer
    // of a live record pending
    ensures w.sweepArmed ==>
              && w'.sessions == map[] && w'.disk == Some(map[])
              && w'.timers.Keys <= w.timers.Keys
              && LiveHandles(w) !! w'.timers.Keys
  {
    if !w.sweepArmed then w
    else Save(w.(timers := w.timers - LiveHandles(w), sessions := map[], sweepArmed := false))
  }

  /** One iteration of the `carregarSessoes` loop: a fresh object holding the
      saved fields and a fresh full-length timer whose callback passes the
      saved stage. Whatever `id` held before is overwritten, not cancelled. */
  function RestoreOne(w: World, id: Id, s: Saved, now: Millis): (w': World)
    // `id` holds an object with the saved fields ...
    ensures id in w'.sessions && w'.sessions[id] in w'.heap
    ensures Project(w'.heap[w'.sessions[id]]) == s
    // ... owning a pending timer due a full idle timeout from now that passes the saved stage
    ensures LiveTimer(w', id)
    ensures w'.timers[w'.heap[w'.sessions[id]].timer.value] == Timer(id, Literal(s.stage), now + IdleTimeout)
    // other entries are kept and no timer is cancelled
    ensures forall x :: x in w.sessions && x != id ==> x in w'.sessions && w'.sessions[x] == w.sessions[x]
    ensures w.timers.Keys <= w'.timers.Keys
  {
    var r, h := w.nextRef, w.nextHandle;
    w.(sessions := w.sessions[id := r],
       heap := w.heap[r := Record(s.stage, s.finalized, s.last, Some(h))],
       timers := w.timers[h := Timer(id, Literal(s.stage), now + IdleTimeout)],
       nextRef := r + 1, nextHandle := h + 1)
  }

  /** The entry of `id` in `w2` was restored from `s` at time `now` on top of
      `w`: a new object with the saved fields, owning a new pending timer that
      is due a full idle timeout after `now` and passes the saved stage. */
  ghost predicate RestoredEntry(w: World, w2: World, id: Id, s: Saved, now: Millis)
    requires NoDangling(w2) && id in w2.sessions
  {
    var r := w2.sessions[id];
    var rec := w2.heap[r];
    && r !in w.heap
    && Project(rec) == s
    && rec.timer.Some? && rec.timer.value !in w.timers
    && rec.timer.value in w2.timers
    && w2.timers[rec.timer.value] == Timer(id, Literal(s.stage), now + IdleTimeout)
  }

  /** `w2` is `w` after restoring the entries of `snap` whose ids are in
      `done`: those are restored, every other entry, object and pending timer
      is as it was, and the only new timers are the restored ones. */
  ghost predicate RestoredPart(w: World, w2: World, snap: Snapshot, done: set<Id>, now: Millis)
    requires done <= snap.Keys
  {
    && Valid(w2)
    && w2.disk == w.disk && w2.sweepArmed == w.sweepArmed
    && w2.sessions.Keys == w.sessions.Keys + done
    && KeptOutside(w, w2, done)
    && OnlyRestoredTimers(w, w2, done)
    && (forall id :: id in done ==> RestoredEntry(w, w2, id, snap[id], now))
  }

  /** Entries outside `done`, all old objects and all old pending timers are
      untouched in `w2`. */
  ghost predicate KeptOutside(w: World, w2: World, done: set<Id>)
  {
    && (forall id :: id in w.sessions && id !in done ==> id in w2.sessions && w2.sessions[id] == w.sessions[id])
    && (forall r :: r in w.heap ==> r in w2.heap && w2.heap[r] == w.heap[r])
    && (forall h :: h in w.timers ==> h in w2.timers && w2.timers[h] == w.timers[h])
  }

  /** Every timer of `w2` that `w` did not have is the timer of a restored
      entry. */
  ghost predicate OnlyRestoredTimers(w: World, w2: World, done: set<Id>)
    requires NoDangling(w2)
  {
    forall h :: h in w2.timers && h !in w.timers ==>
      w2.timers[h].owner in done && w2.timers[h].owner in w2.sessions &&
      w2.heap[w2.sessions[w2.timers[h].owner]].timer == Some(h)
  }

  /** `carregarSessoes`: when the file exists, every saved entry is restored
      (in whatever order the loop visits them); otherwise nothing changes. */
  ghost predicate Restored(w: World, w2: World, now: Millis)
    // with a file, the result is valid, unchanged on disk, holds the old ids
    // and the saved ones, and every saved id has exactly its saved fields
    ensures Restored(w, w2, now) && w.disk.Some? ==>
              && Valid(w2) && w2.disk == w.disk
              && w2.sessions.Keys == w.sessions.Keys + w.disk.value.Keys
              && forall id :: id in w.disk.value ==> Project(w2.heap[w2.sessions[id]]) == w.disk.value[id]
  {
    if w.disk.None? then w2 == w
    else RestoredPart(w, w2, w.disk.value, w.disk.value.Keys, now)
  }
}
