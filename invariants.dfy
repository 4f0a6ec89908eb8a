/** Every operation of the engine keeps the world invariant `Valid`. */
module Invariants {
  import opened Text
  import opened Session
  import opened Engine

  /** `Valid`, except that the live session of `x` (if any) need not own a
      pending timer: the state inside `funil` just before `enviarMenu`
      re-arms, and inside a timer callback just after its own handle fired.
      A pending timer that `x`'s record names is still `x`'s own. */
  ghost predicate ValidExcept(w: World, x: Id)
  {
    && NoDangling(w)
    && (forall r :: r in w.heap ==> r < w.nextRef)
    && (forall h :: h in w.timers ==> h < w.nextHandle)
    && (forall a, b :: a in w.sessions && b in w.sessions && w.sessions[a] == w.sessions[b] ==> a == b)
    && (forall id :: id in w.sessions && id != x ==> LiveTimer(w, id))
    && (x in w.sessions ==> OwnTimer(w, x))
  }

  /** If the record of `x` names a pending timer, that timer belongs to `x`. */
  ghost predicate OwnTimer(w: World, x: Id)
    requires x in w.sessions && w.sessions[x] in w.heap
  {
    var t := w.heap[w.sessions[x]].timer;
    t.Some? && t.value in w.timers ==> w.timers[t.value].owner == x
  }

  lemma SaveValid(w: World)
    requires Valid(w)
    ensures Valid(Save(w)) && SnapshotOf(Save(w)) == SnapshotOf(w)
  {
  }

  lemma SendMenuValid(w: World, from: Id, now: Millis)
    requires ValidExcept(w, from) && from in w.sessions
    ensures Valid(SendMenu(w, from, now).world)
  {
    var w' := SendMenu(w, from, now).world;
    var h := w.nextHandle;
    var old_t := w.heap[w.sessions[from]].timer;
    forall id | id in w'.sessions ensures LiveTimer(w', id) {
      if id != from {
        assert LiveTimer(w, id);
        var t := w.heap[w.sessions[id]].timer.value;
        assert t != h;
        assert old_t != Some(t);
        assert w.sessions[id] != w.sessions[from];
      }
    }
  }

  lemma RestartValid(w: World, from: Id, now: Millis)
    requires Valid(w)
    ensures ValidExcept(Restart(w, from, now), from)
  {
    var w1 := Restart(w, from, now);
    forall id | id in w1.sessions && id != from ensures LiveTimer(w1, id) {
      assert LiveTimer(w, id);
    }
  }

  lemma RefreshValid(w: World, ev: Event, now: Millis)
    requires Valid(w) && ev.from in w.sessions
    ensures Valid(Refresh(w, ev, now))
  {
    var w1 := Refresh(w, ev, now);
    var r := w.sessions[ev.from];
    var rec := w.heap[r];
    forall id | id in w1.sessions ensures LiveTimer(w1, id) {
      if id != ev.from {
        assert LiveTimer(w, id);
        assert w.sessions[id] != r;
        assert LiveTimer(w, ev.from);
        assert w.heap[w.sessions[id]].timer != rec.timer;
      }
    }
  }

  lemma HandleMessageValid(w: World, ev: Event, now: Millis)
    requires Valid(w)
    ensures Valid(HandleMessage(w, ev, now).world)
  {
    if !EndsWith(ev.from, ContactSuffix) {
    } else if Expired(Lookup(w, ev.from), now) {
      RestartValid(w, ev.from, now);
      SendMenuValid(Restart(w, ev.from, now), ev.from, now);
    } else {
      RefreshValid(w, ev, now);
      var w1 := Refresh(w, ev, now);
      if ResetsToMenu(w.heap[w.sessions[ev.from]].stage, ev.body) {
        SendMenuValid(w1, ev.from, now);
      } else {
        SaveValid(w1);
      }
    }
  }

  lemma EndSessionValid(w: World, from: Id, stage: Stage)
    requires ValidExcept(w, from)
    ensures Valid(EndSession(w, from, stage).world)
  {
    if from in w.sessions {
      var w' := EndSession(w, from, stage).world;
      var t := w.heap[w.sessions[from]].timer;
      forall id | id in w'.sessions ensures LiveTimer(w', id) {
        assert LiveTimer(w, id);
        assert w.sessions[id] != w.sessions[from];
      }
    }
  }

  lemma FireTimerValid(w: World, h: Handle, now: Millis)
    requires Valid(w)
    ensures Valid(FireTimer(w, h, now).world)
  {
    if h in w.timers && w.timers[h].due <= now {
      var t := w.timers[h];
      var w1 := w.(timers := w.timers - {h});
      forall id | id in w1.sessions && id != t.owner ensures LiveTimer(w1, id) {
        assert LiveTimer(w, id);
      }
      EndSessionValid(w1, t.owner, StageArgument(w, t));
    }
  }

  lemma DailySweepValid(w: World)
    requires Valid(w)
    ensures Valid(DailySweep(w))
  {
  }

  lemma RestoreOneValid(w: World, id: Id, s: Saved, now: Millis)
    requires Valid(w)
    ensures Valid(RestoreOne(w, id, s, now))
  {
    var w2 := RestoreOne(w, id, s, now);
    forall x | x in w2.sessions ensures LiveTimer(w2, x) {
      if x != id {
        assert LiveTimer(w, x);
      }
    }
  }

  /** One step of the restore loop extends the restored part by one id. */
  lemma RestoreOneStep(w: World, w1: World, snap: Snapshot, done: set<Id>, id: Id, now: Millis)
    requires done <= snap.Keys && id in snap && id !in done
    requires Valid(w)
    requires RestoredPart(w, w1, snap, done, now)
    ensures RestoredPart(w, RestoreOne(w1, id, snap[id], now), snap, done + {id}, now)
  {
    var w2 := RestoreOne(w1, id, snap[id], now);
    RestoreOneValid(w1, id, snap[id], now);
    RestoreKeeps(w, w1, done, id, snap[id], now);
    RestoreEntries(w, w1, snap, done, id, now);
    RestoreTimers(w, w1, done, id, snap[id], now);
  }

  lemma RestoreKeeps(w: World, w1: World, done: set<Id>, id: Id, s: Saved, now: Millis)
    requires Valid(w1) && KeptOutside(w, w1, done)
    ensures KeptOutside(w, RestoreOne(w1, id, s, now), done + {id})
  {
  }

  lemma RestoreEntries(w: World, w1: World, snap: Snapshot, done: set<Id>, id: Id, now: Millis)
    requires done <= snap.Keys && id in snap && id !in done
    requires Valid(w1) && KeptOutside(w, w1, done) && w1.sessions.Keys == w.sessions.Keys + done
    requires forall x :: x in done ==> RestoredEntry(w, w1, x, snap[x], now)
    ensures NoDangling(RestoreOne(w1, id, snap[id], now))
    ensures forall x :: x in done + {id} ==> RestoredEntry(w, RestoreOne(w1, id, snap[id], now), x, snap[x], now)
  {
    var w2 := RestoreOne(w1, id, snap[id], now);
    RestoreOneValid(w1, id, snap[id], now);
    var r := w1.nextRef;
    forall x | x in done + {id} ensures RestoredEntry(w, w2, x, snap[x], now) {
      if x != id {
        assert RestoredEntry(w, w1, x, snap[x], now);
        assert w1.sessions[x] != r;
      }
    }
  }

  lemma RestoreTimers(w: World, w1: World, done: set<Id>, id: Id, s: Saved, now: Millis)
    requires id !in done
    requires Valid(w1) && OnlyRestoredTimers(w, w1, done)
    ensures NoDangling(RestoreOne(w1, id, s, now))
    ensures OnlyRestoredTimers(w, RestoreOne(w1, id, s, now), done + {id})
  {
    var w2 := RestoreOne(w1, id, s, now);
    RestoreOneValid(w1, id, s, now);
    var r, h := w1.nextRef, w1.nextHandle;
    forall t | t in w2.timers && t !in w.timers
      ensures w2.timers[t].owner in done + {id} && w2.timers[t].owner in w2.sessions
      ensures w2.heap[w2.sessions[w2.timers[t].owner]].timer == Some(t)
    {
      if t != h {
        var o := w1.timers[t].owner;
        assert o in done;
        assert o != id;
        assert w1.sessions[o] != r;
      }
    }
  }
}
