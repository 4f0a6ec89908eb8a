/** The script's mutable state and its handlers, written the way the script
    runs them: fields updated in place, `for` loops over the session map.
    Each handler is proved to compute exactly the corresponding function of
    module Engine, whose properties are proved in module Properties. */
module Chatbot {
  import opened Text
  import opened Session
  import opened Engine
  import Invariants

  /** The loop of `salvarSessoes` that builds `cleanSessions`: one entry per
      key of the map, holding the record's stage, flag and last-activity time
      and nothing else. */
  method CleanSessions(sessions: map<Id, Ref>, heap: map<Ref, Record>) returns (clean: Snapshot)
    requires forall id :: id in sessions ==> sessions[id] in heap
    ensures clean.Keys == sessions.Keys
    ensures forall id :: id in sessions ==>
              clean[id].stage == heap[sessions[id]].stage &&
              clean[id].finalized == heap[sessions[id]].finalized &&
              clean[id].last == heap[sessions[id]].last
  {
    clean := map[];
    var todo := sessions.Keys;
    while todo != {}
      invariant todo <= sessions.Keys
      invariant clean.Keys == sessions.Keys - todo
      invariant forall id :: id in clean ==> clean[id] == Project(heap[sessions[id]])
      decreases todo
    {
      var id :| id in todo;
      var sessao := heap[sessions[id]];
      clean := clean[id := Saved(sessao.stage, sessao.finalized, sessao.last)];
      todo := todo - {id};
    }
  }

  /** The handle `id`'s record names, if any, as a set. */
  function HandleOf(w: World, id: Id): set<Handle>
    requires NoDangling(w) && id in w.sessions
  {
    var t := w.heap[w.sessions[id]].timer;
    if t.Some? then {t.value} else {}
  }

  /** Putting one more entry back into a restricted map adds exactly that
      entry's handle to the live handles. */
  lemma LiveHandlesGrow(w: World, todo: set<Id>, n: Id)
    requires NoDangling(w) && n in todo && todo <= w.sessions.Keys
    ensures LiveHandles(w.(sessions := w.sessions - (todo - {n}))) ==
            LiveHandles(w.(sessions := w.sessions - todo)) + HandleOf(w, n)
  {
    var big := w.(sessions := w.sessions - (todo - {n}));
    var small := w.(sessions := w.sessions - todo);
    forall x | x in LiveHandles(big) ensures x in LiveHandles(small) + HandleOf(w, n) {
      var id :| id in big.sessions && w.heap[big.sessions[id]].timer == Some(x);
      if id != n {
        assert id in small.sessions;
      }
    }
    forall x | x in LiveHandles(small) + HandleOf(w, n) ensures x in LiveHandles(big) {
      if x in HandleOf(w, n) {
        assert n in big.sessions;
      } else {
        var id :| id in small.sessions && w.heap[small.sessions[id]].timer == Some(x);
        assert id in big.sessions;
      }
    }
  }

  class Bot {
    var userSessions: map<Id, Ref>
    var heap: map<Ref, Record>
    var timers: map<Handle, Timer>
    var nextRef: nat
    var nextHandle: nat
    var disk: Option<Snapshot>
    var sweepArmed: bool

    function State(): World
      reads this
    {
      World(userSessions, heap, timers, nextRef, nextHandle, disk, sweepArmed)
    }

    ghost predicate Valid()
      reads this
    {
      Engine.Valid(State())
    }

    /** Start-up: an empty map, the end-of-day sweep scheduled, and the saved
        sessions restored from `file`. */
    constructor (file: Option<Snapshot>, now: Millis)
      ensures Valid() && Restored(Boot(file), State(), now)
    {
      userSessions, heap, timers := map[], map[], map[];
      nextRef, nextHandle := 0, 0;
      disk, sweepArmed := file, true;
      new;
      LoadSessions(now);
    }

    /** `setTimeout(callback, TEMPO_EXPIRACAO)`: a fresh handle for a
        callback that will end `owner`'s session. */
    method SetTimeout(owner: Id, source: StageSource, now: Millis) returns (h: Handle)
      modifies this`timers, this`nextHandle
      ensures h == old(nextHandle) && nextHandle == h + 1
      ensures timers == old(timers)[h := Timer(owner, source, now + IdleTimeout)]
    {
      h := nextHandle;
      nextHandle := nextHandle + 1;
      timers := timers[h := Timer(owner, source, now + IdleTimeout)];
    }

    /** `salvarSessoes`. */
    method SaveSessions()
      requires NoDangling(State())
      modifies this`disk
      ensures State() == Save(old(State()))
    {
      var clean := CleanSessions(userSessions, heap);
      assert clean == SnapshotOf(State());
      disk := Some(clean);
    }

    /** `enviarMenu`. */
    method SendMenu(from: Id, now: Millis) returns (sent: seq<Outbound>)
      requires NoDangling(State()) && from in userSessions
      modifies this
      ensures Outcome(State(), sent) == Engine.SendMenu(old(State()), from, now)
    {
      sent := [MenuText];
      var r := userSessions[from];
      if heap[r].timer.Some? {
        timers := timers - {heap[r].timer.value};
      }
      var h := SetTimeout(from, Literal(Menu), now);
      heap := heap[r := heap[r].(timer := Some(h))];
      SaveSessions();
    }

    /** `funil`. */
    method HandleMessage(ev: Event, now: Millis) returns (sent: seq<Outbound>)
      requires Valid()
      modifies this
      ensures Valid()
      ensures Outcome(State(), sent) == Engine.HandleMessage(old(State()), ev, now)
    {
      Invariants.HandleMessageValid(State(), ev, now);
      if !EndsWith(ev.from, ContactSuffix) {
        return [];
      }
      if Expired(Lookup(State(), ev.from), now) {
        Restart(ev.from, now);
        sent := SendMenu(ev.from, now);
        return;
      }
      var sessao := heap[userSessions[ev.from]];
      var reply := Refresh(ev, now);
      if ResetsToMenu(sessao.stage, ev.body) {
        sent := SendMenu(ev.from, now);
      } else {
        sent := reply.sent;
      }
      SaveSessions();
    }

    /** `funil` on an expired or unknown session: a new object replaces
        whatever was stored. */
    method Restart(from: Id, now: Millis)
      modifies this
      ensures State() == Engine.Restart(old(State()), from, now)
    {
      var r := nextRef;
      nextRef := nextRef + 1;
      heap := heap[r := Record(Menu, false, now, None)];
      userSessions := userSessions[from := r];
    }

    /** `funil` on a live session, up to the final save: refresh `ultima`,
        replace the timer, apply the flow to the stored object. */
    method Refresh(ev: Event, now: Millis) returns (reply: Reply)
      requires NoDangling(State()) && ev.from in userSessions
      modifies this
      ensures reply == Transition(old(heap)[old(userSessions)[ev.from]].stage,
                                  old(heap)[old(userSessions)[ev.from]].finalized, ev)
      ensures State() == Engine.Refresh(old(State()), ev, now)
    {
      var r := userSessions[ev.from];
      var sessao := heap[r];
      heap := heap[r := sessao.(last := now)];
      if sessao.timer.Some? {
        timers := timers - {sessao.timer.value};
      }
      var h := SetTimeout(ev.from, StageOf(r), now);
      heap := heap[r := heap[r].(timer := Some(h))];
      reply := Transition(sessao.stage, sessao.finalized, ev);
      heap := heap[r := heap[r].(stage := reply.stage, finalized := reply.finalized)];
    }

    /** `encerrarSessao`. */
    method EndSession(from: Id, stage: Stage) returns (sent: seq<Outbound>)
      requires NoDangling(State())
      modifies this
      ensures Outcome(State(), sent) == Engine.EndSession(old(State()), from, stage)
    {
      if from !in userSessions {
        return [];
      }
      sent := [Closing];
      var t := heap[userSessions[from]].timer;
      if t.Some? {
        timers := timers - {t.value};
      }
      userSessions := userSessions - {from};
      SaveSessions();
      if stage != Instagram {
        sent := sent + [Promo];
      }
    }

    /** A pending timeout fires. */
    method FireTimer(h: Handle, now: Millis) returns (sent: seq<Outbound>)
      requires Valid()
      modifies this
      ensures Valid()
      ensures Outcome(State(), sent) == Engine.FireTimer(old(State()), h, now)
    {
      Invariants.FireTimerValid(State(), h, now);
      if h !in timers || now < timers[h].due {
        return [];
      }
      var t := timers[h];
      var stage := StageArgument(State(), t);
      timers := timers - {h};
      sent := EndSession(t.owner, stage);
    }

    /** The end-of-day callback: the loop clears every entry, then the
        (now empty) map is saved. */
    method DailySweep()
      requires Valid()
      modifies this
      ensures Valid()
      ensures State() == Engine.DailySweep(old(State()))
    {
      Invariants.DailySweepValid(State());
      if !sweepArmed {
        return;
      }
      sweepArmed := false;
      ghost var w0 := old(State());
      ClearAll();
      assert State() == w0.(timers := w0.timers - LiveHandles(w0), sessions := map[], sweepArmed := false);
      SaveSessions();
    }

    /** The `for (const numero in userSessions)` loop of the sweep: cancel
        each entry's timer and delete the entry. */
    method ClearAll()
      requires NoDangling(State())
      modifies this`userSessions, this`timers
      ensures userSessions == map[]
      ensures timers == old(timers) - LiveHandles(old(State()))
    {
      ghost var w0 := State();
      var todo := userSessions.Keys;
      while todo != {}
        invariant todo <= w0.sessions.Keys
        invariant userSessions == w0.sessions - (w0.sessions.Keys - todo)
        invariant timers == w0.timers - LiveHandles(w0.(sessions := w0.sessions - todo))
        decreases todo
      {
        var numero :| numero in todo;
        LiveHandlesGrow(w0, todo, numero);
        var t := heap[userSessions[numero]].timer;
        if t.Some? {
          timers := timers - {t.value};
        }
        userSessions := userSessions - {numero};
        todo := todo - {numero};
      }
    }

    /** `carregarSessoes`: every saved entry is restored, in whatever order
        the loop visits them. */
    method LoadSessions(now: Millis)
      requires Valid()
      modifies this
      ensures Restored(old(State()), State(), now)
    {
      if disk.None? {
        return;
      }
      var saved := disk.value;
      ghost var w0 := State();
      var todo := saved.Keys;
      while todo != {}
        invariant todo <= saved.Keys
        invariant RestoredPart(w0, State(), saved, saved.Keys - todo, now)
        decreases todo
      {
        var numero :| numero in todo;
        Invariants.RestoreOneStep(w0, State(), saved, saved.Keys - todo, numero, now);
        RestoreOne(numero, saved[numero], now);
        assert saved.Keys - (todo - {numero}) == (saved.Keys - todo) + {numero};
        todo := todo - {numero};
      }
    }

    /** One iteration of the restore loop: `userSessions[numero] =
        {...sessao, timeout: setTimeout(...)}`. */
    method RestoreOne(numero: Id, sessao: Saved, now: Millis)
      modifies this
      ensures State() == Engine.RestoreOne(old(State()), numero, sessao, now)
    {
      var r := nextRef;
      nextRef := nextRef + 1;
      var h := SetTimeout(numero, Literal(sessao.stage), now);
      heap := heap[r := Record(sessao.stage, sessao.finalized, sessao.last, Some(h))];
      userSessions := userSessions[numero := r];
    }
  }
}
