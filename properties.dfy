/** What the engine promises, stated on the Engine functions: the event
    filter, lazy expiry, timer replacement, the flow as seen through the map
    and the snapshot, session termination, the daily sweep, and the restore
    round trip; and the timer quirks of the script, reproduced as they are. */
module Properties {
  import opened Text
  import opened Session
  import opened Engine

  // ---------------------------------------------------------------- funil

  /** An id that is not a private contact is dropped: nothing changes and
      nothing is sent. */
  lemma NonContactIgnored(w: World, ev: Event, now: Millis)
    requires NoDangling(w) && !EndsWith(ev.from, ContactSuffix)
    ensures HandleMessage(w, ev, now) == Outcome(w, [])
  {
  }

  /** The idle limit is strict and five hours long: a session idle for
      exactly five hours is still live, one millisecond more expires it, and
      an unknown id or a zero `ultima` always counts as expired. */
  lemma ExpiryBoundary(rec: Record, now: Millis)
    ensures Expired(None, now)
    ensures Expired(Some(rec.(last := 0)), now)
    ensures rec.last > 0 ==> !Expired(Some(rec), rec.last + 18_000_000)
    ensures Expired(Some(rec), rec.last + 18_000_001)
  {
  }

  /** Once expired, a session stays expired as time goes on: expiry is never
      undone by waiting. */
  lemma ExpiredStays(cur: Option<Record>, now: Millis, later: Millis)
    requires Expired(cur, now) && now <= later
    ensures Expired(cur, later)
  {
  }

  /** A session whose `ultima` was just set to a non-zero time stays live
      for the whole idle timeout after it. */
  lemma TouchedIsLive(rec: Record, now: Millis, t: Millis)
    requires 0 < now <= t <= now + IdleTimeout
    ensures !Expired(Some(rec.(last := now)), t)
  {
  }

  /** An unknown, `ultima`-less or idle-for-more-than-five-hours session is
      restarted: the entry becomes `{menu, false, now}`, only the menu is sent,
      every other entry is kept, the snapshot is written, and the new object
      owns one new timer that passes "menu". No pending timer is cancelled. */
  lemma ExpiredEventRestarts(w: World, ev: Event, now: Millis)
    requires Valid(w) && EndsWith(ev.from, ContactSuffix) && Expired(Lookup(w, ev.from), now)
    ensures var o := HandleMessage(w, ev, now);
            && o.sent == [MenuText]
            && SnapshotOf(o.world) == SnapshotOf(w)[ev.from := Saved(Menu, false, now)]
            && o.world.disk == Some(SnapshotOf(o.world))
            && (forall h :: h in w.timers ==> h in o.world.timers && o.world.timers[h] == w.timers[h])
            && o.world.heap[o.world.sessions[ev.from]].timer == Some(w.nextHandle)
            && o.world.timers[w.nextHandle] == Timer(ev.from, Literal(Menu), now + IdleTimeout)
  {
  }

  /** On a live session, `ultima` becomes `now`, the previously stored handle
      is cancelled, and exactly one new handle, owned by this id and due a
      full idle timeout from now, is stored; nothing else is armed or
      cancelled. The new callback reads the object's stage when it fires,
      except after "0", where `enviarMenu` re-armed it with "menu". */
  lemma LiveEventRearms(w: World, ev: Event, now: Millis)
    requires Valid(w) && EndsWith(ev.from, ContactSuffix) && !Expired(Lookup(w, ev.from), now)
    ensures ev.from in w.sessions
    ensures var o := HandleMessage(w, ev, now);
            var r := w.sessions[ev.from];
            var before := w.heap[r].timer.value;
            && o.world.sessions == w.sessions
            && o.world.heap[r].last == now
            && before !in o.world.timers
            && var t := o.world.heap[r].timer;
               && t.Some? && t.value !in w.timers && t.value in o.world.timers
               && o.world.timers[t.value].owner == ev.from
               && o.world.timers[t.value].due == now + IdleTimeout
               && o.world.timers[t.value].source ==
                    (if ResetsToMenu(w.heap[r].stage, ev.body) then Literal(Menu) else StageOf(r))
               && o.world.timers.Keys == w.timers.Keys - {before} + {t.value}
               && (forall h :: h in w.timers && h != before ==> o.world.timers[h] == w.timers[h])
  {
  }

  /** On a live session the stored stage and flag become what the flow
      decides, `ultima` becomes `now`, exactly the flow's messages are sent,
      every other entry is kept, and the snapshot is written. */
  lemma LiveEventFollowsFlow(w: World, ev: Event, now: Millis)
    requires Valid(w) && EndsWith(ev.from, ContactSuffix) && !Expired(Lookup(w, ev.from), now)
    ensures ev.from in w.sessions
    ensures var rec := w.heap[w.sessions[ev.from]];
            var reply := Transition(rec.stage, rec.finalized, ev);
            var o := HandleMessage(w, ev, now);
            && o.sent == reply.sent
            && SnapshotOf(o.world) == SnapshotOf(w)[ev.from := Saved(reply.stage, reply.finalized, now)]
            && o.world.disk == Some(SnapshotOf(o.world))
  {
  }

  /** A repeated quote request within the idle window: the first message
      calls the agent, the second sends nothing. */
  lemma QuoteNoticeNotRepeated(w: World, ev1: Event, ev2: Event, t1: Millis, t2: Millis)
    requires Valid(w) && EndsWith(ev1.from, ContactSuffix) && ev2.from == ev1.from
    requires ev1.from in w.sessions
    requires w.heap[w.sessions[ev1.from]].stage == Quote && !w.heap[w.sessions[ev1.from]].finalized
    requires !Expired(Lookup(w, ev1.from), t1)
    requires t1 > 0 && t1 <= t2 <= t1 + IdleTimeout
    requires ev1.body != "0" && ev2.body != "0"
    ensures HandleMessage(w, ev1, t1).sent == [AgentQuote]
    ensures HandleMessage(HandleMessage(w, ev1, t1).world, ev2, t2).sent == []
  {
  }

  // ------------------------------------------------------- encerrarSessao

  /** Ending an absent session does nothing. */
  lemma EndAbsentSession(w: World, from: Id, stage: Stage)
    requires NoDangling(w) && from !in w.sessions
    ensures EndSession(w, from, stage) == Outcome(w, [])
  {
  }

  /** Ending a live session removes exactly that entry, cancels its timer,
      writes the snapshot, sends the closing notice, and sends the promotion
      exactly when the stage argument is not "instagram". */
  lemma EndLiveSession(w: World, from: Id, stage: Stage)
    requires Valid(w) && from in w.sessions
    ensures var o := EndSession(w, from, stage);
            && SnapshotOf(o.world) == SnapshotOf(w) - {from}
            && o.world.disk == Some(SnapshotOf(o.world))
            && w.heap[w.sessions[from]].timer.value !in o.world.timers
            && o.sent[0] == Closing
            && |o.sent| == (if stage == Instagram then 1 else 2)
            && (Promo in o.sent <==> stage != Instagram)
  {
  }

  // --------------------------------------------------------------- timers

  /** A cancelled (or already fired) timer never fires, nor one whose delay
      has not elapsed. */
  lemma NoFiringWhenNotDue(w: World, h: Handle, now: Millis)
    requires NoDangling(w) && (h !in w.timers || now < w.timers[h].due)
    ensures FireTimer(w, h, now) == Outcome(w, [])
  {
  }

  /** Re-arming invalidates the previous timer: after a live event, the
      handle the session held before can no longer end it. */
  lemma ReplacedTimerCannotFire(w: World, ev: Event, now: Millis, later: Millis)
    requires Valid(w) && EndsWith(ev.from, ContactSuffix) && !Expired(Lookup(w, ev.from), now)
    ensures ev.from in w.sessions
    ensures var o := HandleMessage(w, ev, now);
            FireTimer(o.world, w.heap[w.sessions[ev.from]].timer.value, later) == Outcome(o.world, [])
  {
  }

  /** The timer a live session owns ends it once due: the entry is removed
      and the closing messages are sent for the stage the callback passes. */
  lemma OwnTimerEndsSession(w: World, id: Id, now: Millis)
    requires Valid(w) && id in w.sessions
    requires now >= w.timers[w.heap[w.sessions[id]].timer.value].due
    ensures var h := w.heap[w.sessions[id]].timer.value;
            var o := FireTimer(w, h, now);
            && SnapshotOf(o.world) == SnapshotOf(w) - {id}
            && o.sent == ClosingMessages(StageArgument(w, w.timers[h]))
  {
  }

  /** The callback armed by `funil` passes the object's stage at firing time:
      choosing "4" (Instagram) from the menu arms it before the stage changes,
      yet when it fires the object is in the Instagram stage, so no promotion
      follows the closing notice. */
  lemma InstagramChoiceSuppressesPromo(w: World, ev: Event, now: Millis, later: Millis)
    requires Valid(w) && EndsWith(ev.from, ContactSuffix) && !Expired(Lookup(w, ev.from), now)
    requires w.heap[w.sessions[ev.from]].stage == Menu && ev.body == "4"
    requires later >= now + IdleTimeout
    ensures var o := HandleMessage(w, ev, now);
            var h := o.world.heap[o.world.sessions[ev.from]].timer.value;
            FireTimer(o.world, h, later).sent == [Closing]
  {
  }

  /** The callback armed by `enviarMenu` passes "menu", so it is followed by
      the promotion, whatever stage the session reached meanwhile. */
  lemma MenuTimerSendsPromo(w: World, id: Id, now: Millis)
    requires Valid(w) && id in w.sessions
    requires w.timers[w.heap[w.sessions[id]].timer.value].source == Literal(Menu)
    requires now >= w.timers[w.heap[w.sessions[id]].timer.value].due
    ensures FireTimer(w, w.heap[w.sessions[id]].timer.value, now).sent == [Closing, Promo]
  {
  }

  /** The stale-timer leak: when an expired session is restarted, the old
      object's timer stays pending beside the new one (two pending timers for
      one correspondent), and when it fires it ends the new session, however
      recently that session was active. */
  lemma StaleTimerEndsNewSession(w: World, ev: Event, now: Millis, later: Millis)
    requires Valid(w) && EndsWith(ev.from, ContactSuffix) && ev.from in w.sessions
    requires Expired(Lookup(w, ev.from), now)
    requires later >= w.timers[w.heap[w.sessions[ev.from]].timer.value].due
    ensures var old_h := w.heap[w.sessions[ev.from]].timer.value;
            var o := HandleMessage(w, ev, now);
            var new_h := o.world.heap[o.world.sessions[ev.from]].timer.value;
            && old_h in o.world.timers && new_h in o.world.timers && old_h != new_h
            && o.world.timers[old_h].owner == ev.from && o.world.timers[new_h].owner == ev.from
            && ev.from !in FireTimer(o.world, old_h, later).world.sessions
  {
  }

  // ----------------------------------------------------------- the sweep

  /** The sweep empties the map, writes an empty snapshot and cancels every
      live session's timer; it runs once, so running it again changes
      nothing. */
  lemma SweepClearsOnce(w: World)
    requires Valid(w) && w.sweepArmed
    ensures DailySweep(w).sessions == map[]
    ensures DailySweep(w).disk == Some(map[])
    ensures forall id :: id in w.sessions ==> w.heap[w.sessions[id]].timer.value !in DailySweep(w).timers
    ensures DailySweep(DailySweep(w)) == DailySweep(w)
  {
  }

  // ------------------------------------------------- snapshot and restore

  /** The snapshot has exactly the map's keys and, for each, exactly the
      record's stage, flag and last activity. */
  lemma SnapshotProjects(w: World, id: Id)
    requires NoDangling(w) && id in w.sessions
    ensures id in SnapshotOf(w)
    ensures SnapshotOf(w)[id] == Saved(w.heap[w.sessions[id]].stage,
                                       w.heap[w.sessions[id]].finalized,
                                       w.heap[w.sessions[id]].last)
  {
  }

  /** Restoring overlays the saved entries on the map: the saved fields win
      for saved ids, every other entry is kept. */
  lemma RestoreOverlays(w: World, w2: World, now: Millis)
    requires Valid(w) && w.disk.Some? && Restored(w, w2, now)
    ensures SnapshotOf(w2) == SnapshotOf(w) + w.disk.value
  {
  }

  /** Save then restart: the restored sessions have exactly the stage, flag
      and last activity that were saved, for every correspondent. */
  lemma SaveRestoreRoundTrip(w: World, w2: World, now: Millis)
    requires Valid(w) && Restored(Boot(Some(SnapshotOf(w))), w2, now)
    ensures SnapshotOf(w2) == SnapshotOf(w)
  {
  }

  /** A restored session is armed with a full idle timeout from the restore
      time, not the time left since its last activity, and its callback passes
      the saved stage. */
  lemma RestoreArmsFullTimeout(w: World, w2: World, now: Millis, id: Id)
    requires Valid(w) && w.disk.Some? && Restored(w, w2, now) && id in w.disk.value
    ensures id in w2.sessions
    ensures var t := w2.heap[w2.sessions[id]].timer.value;
            t in w2.timers && w2.timers[t] == Timer(id, Literal(w.disk.value[id].stage), now + IdleTimeout)
  {
  }
}
