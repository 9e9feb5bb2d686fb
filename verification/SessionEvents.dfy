/**
 What each stretch of code between two awaits does to the session's variables, and
 what the writer owes: every waiter is served by the next two successful saves, and
 every save carries the state its version was committed with.
 */
module SessionEvents {
  import opened Wrappers
  import opened SessionState

  // ---------------------------------------------------------------- the lock

  /** Lock work queues behind everything called before it, under the account it was called for. */
  lemma RequestEffect<S>(v: Vars<S>, work: Work)
    ensures Step(v, RequestLock(work)) == if work.Update? then Some(v.(queue := v.queue + [Ticket(v.gen, Update)])) else None
  {
  }

  /**
   The next in line, once nobody holds the lock: it runs, on the committed state, if it
   was called under the current account and is a creation or finds a state. Otherwise
   it is refused, and a refused creation of an earlier account drops the cached state.
   */
  lemma TakeEffect<S>(v: Vars<S>)
    ensures Step(v, TakeLock) ==
            if v.holder.Some? || v.queue == [] then None
            else
              var t := v.queue[0];
              var current := t.gen == v.gen;
              Some(v.(
                queue := v.queue[1..],
                holder := if current && (t.work.Create? || v.cache.Some?) then Some(Holder(t.gen, v.cache, t.work)) else None,
                holderGen := if current then t.gen else v.holderGen,
                cache := if !current && t.work.Create? then None else v.cache))
  {
  }

  /** What ending the lock work does apart from freeing the lock: only a creation's end does anything. */
  lemma ReleaseEffect<S>(v: Vars<S>, ok: bool)
    ensures Step(v, ReleaseLock(ok)) ==
            if v.holder.None? then None
            else
              var free := v.(holder := None);
              var own := v.holder.value.gen == v.gen;
              if v.holder.value.work.Update? || (!own && ok) then Some(free)
              else if !own then Some(free.(cache := None))
              else if ok then (if v.cache.Some? then Some(free.(identity := Ready)) else None)
              else if v.waiters != [] then None
              else Some(free.(cache := None, identity := Unknown, past := v.past.(start := v.version, states := [], bases := [])))
  {
  }

  // ---------------------------------------------------------------- the writer

  /** The save a writer with nothing in flight owes: a durable one while somebody waits for more than is durable. */
  function Owing<S>(v: Vars<S>): Option<Saving<S>> {
    if v.cache.None? then None
    else if v.wanted > v.durable then Some(Saving(v.version, v.cache.value, true))
    else if v.persisted < v.version then Some(Saving(v.version, v.cache.value, false))
    else None
  }

  /** The save owed goes out, unless one is in flight. */
  function Writing<S>(v: Vars<S>): Vars<S> {
    if v.saving.Some? || Owing(v).None? then v
    else v.(saving := Owing(v), past := v.past.(calls := v.past.calls + [Owing(v).value]))
  }

  /**
   A commit of the current account is the new cached state under the next version, and
   its save goes out if none is in flight; work of an earlier account commits nothing.
   */
  lemma CommitEffect<S>(v: Vars<S>, state: S)
    ensures Step(v, Commit(state)) ==
            if v.holder.None? then None
            else if v.holderGen != v.gen then Some(v)
            else
              var h := v.holder.value;
              Some(Writing(v.(
                cache := Some(state), version := v.version + 1, holder := Some(Holder(h.gen, Some(state), h.work)),
                past := v.past.(states := v.past.states + [state],
                                bases := if h.base.Some? then v.past.bases + [h.base.value] else v.past.bases))))
  {
  }

  /** An accepted own commit is committed exactly if the cached state is still the one it was built on. */
  lemma AdoptEffect<S>(v: Vars<S>, base: S, planned: S)
    requires v.holder.Some? && v.holder.value.base == Some(base)
    ensures Step(v, AdoptOwn(base, planned)) == if v.cache == Some(base) then Step(v, Commit(planned)) else Some(v)
  {
    hide CommitState;
  }

  /** waitDurable: at once for a durable version; otherwise one more waiter, and what it needs is asked for. */
  lemma WaitEffect<S>(v: Vars<S>, version: nat, id: nat)
    requires v.cache.Some? && version <= v.version
    ensures Step(v, Wait(version, id)) == Some(
              if version <= v.durable then v
              else Writing(v.(waiters := v.waiters + [Waiter(version, id)], wanted := if version > v.wanted then version else v.wanted)))
  {
  }

  /**
   A successful save makes its version persisted, and durable if it was a durable one;
   exactly the waiters that are still behind keep waiting, and the next save owed goes out.
   */
  lemma SaveOkEffect<S>(v: Vars<S>)
    requires v.saving.Some?
    ensures Step(v, SaveOk).Some?
    ensures var done, after := v.saving.value, Step(v, SaveOk).value;
            var durable := if done.durable && done.version > v.durable then done.version else v.durable;
            && (forall w :: w in after.waiters <==> w in v.waiters && (w.version > durable || !done.durable))
            && after == Writing(v.(
                 saving := None, persisted := if done.version > v.persisted then done.version else v.persisted, durable := durable,
                 waiters := after.waiters,
                 past := v.past.(lastSaveFailed := false,
                                 confirmed := if done.durable then v.past.confirmed + {done.version} else v.past.confirmed)))
  {
    CoveredExactly(v.waiters, Max(v.durable, v.saving.value.version));
  }

  /** A failed save leaves nobody waiting and nothing wanted; one refused for a stale account also resets the session. */
  lemma SaveErrorEffect<S>(v: Vars<S>, stale: bool)
    ensures Step(v, SaveError(stale)) ==
            if v.saving.None? then None
            else
              var failed := v.(saving := None, waiters := [], wanted := v.durable, past := v.past.(lastSaveFailed := true));
              if stale then Step(failed, Reset) else Some(failed)
  {
    hide Forget;
  }

  // ---------------------------------------------------------------- the account

  /** A reset starts the next generation with no state, no identity and nobody waiting, and owes nothing to disk. */
  lemma ResetEffect<S>(v: Vars<S>)
    ensures Step(v, Reset) == Some(v.(
              gen := v.gen + 1, cache := None, identity := Unknown, waiters := [],
              persisted := v.version, durable := v.version, wanted := v.version,
              past := v.past.(baseline := v.version, start := v.version, states := [], bases := [])))
  {
  }

  /**
   initIdentity: a state that was loaded is bound as the next version, durable as it came
   from disk; without one the device registers and then queues its creation. Whatever
   returns for an earlier generation changes nothing, and a failed load may be retried.
   */
  lemma IdentityEffect<S>(v: Vars<S>, gen: nat, loaded: Option<S>)
    requires gen <= v.gen
    ensures Step(v, StartIdentity) == if v.cache.None? && v.identity.Unknown? then Some(v.(identity := Loading)) else None
    ensures gen < v.gen ==> Step(v, IdentityLoaded(gen, loaded)) == Step(v, LoadFailed(gen)) == Step(v, Registered(gen)) == Some(v)
    ensures gen == v.gen && v.identity.Loading? && v.cache.None? ==>
              Step(v, IdentityLoaded(gen, loaded)) == Some(
                match loaded
                case None => v.(identity := Registering)
                case Some(state) =>
                  v.(cache := loaded, identity := Ready, version := v.version + 1, persisted := v.version + 1, durable := v.version + 1,
                     past := v.past.(baseline := v.version + 1, start := v.version, states := [state], bases := [])))
    ensures gen == v.gen && (v.identity.Loading? || v.identity.Registering?) ==>
              Step(v, LoadFailed(gen)) == Some(v.(identity := Unknown))
    ensures gen == v.gen && v.identity.Registering? ==>
              Step(v, Registered(gen)) == Some(v.(identity := Creating, queue := v.queue + [Ticket(gen, Create)]))
  {
  }

  // ---------------------------------------------------------------- every waiter is served

  /** Neither a failed save nor a reset. */
  predicate Undisturbed<S>(e: Event<S>) {
    !e.SaveError? && !e.Reset?
  }

  function SuccessfulSaves<S>(events: seq<Event<S>>): nat {
    if events == [] then 0
    else SuccessfulSaves(events[..|events| - 1]) + if events[|events| - 1].SaveOk? then 1 else 0
  }

  /** The waiter's version is durable; or after one save, the save in flight will make it so. */
  ghost predicate Served<S>(v: Vars<S>, w: Waiter, saves: nat) {
    || w.version <= v.durable
    || (saves == 0 && w in v.waiters)
    || (saves == 1 && w in v.waiters && v.saving.Some? && v.saving.value.durable && w.version <= v.saving.value.version)
  }

  lemma SaveServes<S>(v: Vars<S>, w: Waiter, saves: nat)
    requires WriterOk(v) && v.saving.Some? && Served(v, w, saves)
    ensures Served(Saved(v), w, saves + 1)
  {
    CoveredExactly(v.waiters, Max(v.durable, v.saving.value.version));
    hide Ordered, OnDisk;
  }

  /** Anything else but a failure leaves the waiter and the save in flight alone. */
  lemma OthersServe<S>(v: Vars<S>, e: Event<S>, w: Waiter, saves: nat)
    requires WriterOk(v) && TurnsOk(v) && Served(v, w, saves) && Step(v, e).Some? && Undisturbed(e) && !e.SaveOk?
    requires e.TakeLock? ==> v.queue[0].gen <= v.gen
    requires v.holder.Some? ==> v.holder.value.gen <= v.gen
    ensures Served(Step(v, e).value, w, saves)
  {
    hide Ordered, OnDisk, Covered, Uncovered;
  }

  lemma {:induction false} ServedSoFar<S(!new)>(events: seq<Event<S>>, more: seq<Event<S>>, w: Waiter)
    requires Run(events).Some? && w in Run(events).value.waiters && Run(events + more).Some?
    requires forall i | 0 <= i < |more| :: Undisturbed(more[i])
    ensures Served(Run(events + more).value, w, SuccessfulSaves(more))
  {
    if more == [] {
      assert events + more == events;
    } else {
      var n := |more| - 1;
      var before := events + more[..n];
      assert (events + more)[..|events + more| - 1] == before && (events + more)[|events + more| - 1] == more[n];
      ServedSoFar(events, more[..n], w);
      AlwaysOk(before);
      var v := Run(before).value;
      QueueIsNotAhead(v);
      hide Run, WriterOk, LockOk, TurnsOk, Served;
      if more[n].SaveOk? {
        SaveServes(v, w, SuccessfulSaves(more[..n]));
      } else {
        OthersServe(v, more[n], w, SuccessfulSaves(more[..n]));
      }
    }
  }

  lemma QueueIsNotAhead<S>(v: Vars<S>)
    requires LockOk(v)
    ensures v.queue != [] ==> v.queue[0].gen <= v.gen
    ensures v.holder.Some? ==> v.holder.value.gen <= v.gen
  {
  }

  /**
   Every waiter is served: whatever happens in between, after two successful saves, with
   no failed save and no reset, its version is durable and it waits no more.
   */
  lemma TwoSavesServeEveryWaiter<S(!new)>(events: seq<Event<S>>, more: seq<Event<S>>, w: Waiter)
    requires Run(events).Some? && w in Run(events).value.waiters && Run(events + more).Some?
    requires forall i | 0 <= i < |more| :: Undisturbed(more[i])
    requires SuccessfulSaves(more) >= 2
    ensures var v := Run(events + more).value; w.version <= v.durable && w !in v.waiters
  {
    ServedSoFar(events, more, w);
    AlwaysOk(events + more);
    hide Run;
  }

  /** And there are two to come: as long as it waits, a save is in flight, at once after a successful one too. */
  lemma WaiterKeepsWriterBusy<S(!new)>(events: seq<Event<S>>, w: Waiter)
    requires Run(events).Some? && w in Run(events).value.waiters
    ensures var v := Run(events).value;
            && v.saving.Some? && Step(v, SaveOk).Some?
            && var next := Step(v, SaveOk).value;
               w in next.waiters ==> v.cache.Some? && next.saving == Some(Saving(v.version, v.cache.value, true))
  {
    AlwaysOk(events);
    var v := Run(events).value;
    CoveredExactly(v.waiters, Max(v.durable, v.saving.value.version));
    hide Run, LockOk, TurnsOk, Ordered, OnDisk;
  }

  // ---------------------------------------------------------------- every save carries its state

  /** The call's bytes are the state that was committed, or loaded, as its version. */
  ghost predicate Carries<S>(past: Past<S>, call: Saving<S>) {
    call.version > past.start ==>
      call.version - past.start <= |past.states| && call.bytes == past.states[call.version - past.start - 1]
  }

  ghost predicate AllCarry<S>(past: Past<S>) {
    forall i :: 0 <= i < |past.calls| ==> Carries(past, past.calls[i])
  }

  ghost predicate CarryOk<S>(v: Vars<S>) {
    && v.version == v.past.start + |v.past.states|
    && (forall i :: 0 <= i < |v.past.calls| ==> v.past.calls[i].version <= v.version)
    && AllCarry(v.past)
  }

  lemma PushCarries<S>(v: Vars<S>)
    requires CarryOk(v) && (v.cache.Some? ==> v.past.states != [] && v.past.states[|v.past.states| - 1] == v.cache.value)
    ensures CarryOk(Push(v)) && CarryOk(Wake(v))
  {
    var calls := Push(v).past.calls;
    assert forall i :: 0 <= i < |v.past.calls| ==> calls[i] == v.past.calls[i] && Carries(v.past, v.past.calls[i]);
  }

  lemma CommitCarries<S>(v: Vars<S>, state: S)
    requires CarryOk(v) && v.holder.Some?
    ensures CarryOk(CommitState(v, state))
  {
    if MayCommit(v) {
      var w := v.(cache := Some(state), version := v.version + 1, holder := Some(v.holder.value.(base := Some(state))),
                  past := Extended(v.past, v.holder.value.base, state));
      forall i | 0 <= i < |w.past.calls| ensures Carries(w.past, w.past.calls[i]) {
        assert Carries(v.past, v.past.calls[i]);
      }
      PushCarries(w);
      hide CarryOk, Wake;
    }
  }

  /** A new account's history starts past every version sent before. */
  lemma NewHistoryCarries<S>(v: Vars<S>, past: Past<S>)
    requires CarryOk(v) && past.calls == v.past.calls && past.start >= v.version
    ensures AllCarry(past)
  {
  }

  lemma StepCarries<S>(v: Vars<S>, e: Event<S>)
    requires CarryOk(v) && SingleChain(v.past, v.cache) && Step(v, e).Some?
    ensures CarryOk(Step(v, e).value)
  {
    match e {
      case Commit(state) => CommitCarries(v, state);
      case AdoptOwn(_, planned) => CommitCarries(v, planned);
      case Wait(version, id) =>
        PushCarries(v.(waiters := v.waiters + [Waiter(version, id)], wanted := if version > v.wanted then version else v.wanted));
      case SaveOk => SavedCarries(v);
      case Reset => NewHistoryCarries(v, Step(v, e).value.past);
      case SaveError(_) => if e.staleAccount { NewHistoryCarries(v, Step(v, e).value.past); }
      case IdentityLoaded(_, _) => if e.gen == v.gen && e.loaded.Some? { NewHistoryCarries(v, Step(v, e).value.past); }
      case ReleaseLock(_) => if Step(v, e).value.past != v.past { NewHistoryCarries(v, Step(v, e).value.past); }
      case _ =>
    }
    hide Carries, Push, Wake, Saved, CommitState, SingleChain;
  }

  lemma SavedCarries<S>(v: Vars<S>)
    requires CarryOk(v) && SingleChain(v.past, v.cache) && v.saving.Some?
    ensures CarryOk(Saved(v))
  {
    var done := v.saving.value;
    var w := v.(saving := None, persisted := Max(v.persisted, done.version), past := v.past.(lastSaveFailed := false));
    var durable := Max(v.durable, done.version);
    var u := w.(durable := durable, waiters := Uncovered(v.waiters, durable),
                past := w.past.(confirmed := w.past.confirmed + {done.version}));
    assert AllCarry(w.past) && AllCarry(u.past) by {
      forall i | 0 <= i < |v.past.calls| ensures Carries(w.past, w.past.calls[i]) && Carries(u.past, u.past.calls[i]) {
        assert Carries(v.past, v.past.calls[i]);
      }
    }
    hide Carries, Push;
    PushCarries(w);
    PushCarries(u);
  }

  lemma {:induction false} AlwaysCarry<S(!new)>(events: seq<Event<S>>)
    requires Run(events).Some?
    ensures CarryOk(Run(events).value)
  {
    if events != [] {
      var n := |events| - 1;
      AlwaysCarry(events[..n]);
      AlwaysOk(events[..n]);
      StepCarries(Run(events[..n]).value, events[n]);
    }
  }

  /**
   Over any run, a save sent for the bound account carries exactly the state that was
   committed, or loaded, as its version; a save of the newest version carries the cached state.
   */
  lemma SavesCarryTheirState<S(!new)>(events: seq<Event<S>>, i: nat)
    requires Run(events).Some? && i < |Run(events).value.past.calls|
    ensures var v := Run(events).value;
            var call := v.past.calls[i];
            && v.version == v.past.start + |v.past.states|
            && (call.version > v.past.start ==>
                  call.version <= v.version && call.bytes == v.past.states[call.version - v.past.start - 1])
            && (call.version == v.version > v.past.start && v.cache.Some? ==> call.bytes == v.cache.value)
  {
    AlwaysCarry(events);
    AlwaysOk(events);
    assert Carries(Run(events).value.past, Run(events).value.past.calls[i]);
    hide Run, WriterOk, TurnsOk;
  }
}
