/**
 The device-state store of one window (mlsSession.js): the FIFO state lock, the
 single coalescing writer with its durability waiters, identity loading and
 account switching. Each event is the code between two awaits, so every
 interleaving of the asynchronous functions is some sequence of events.
 */
module SessionState {
  import opened Wrappers

  /** What lock work starts from: an existing state to update, or none yet. */
  datatype Work = Update | Create

  /** Queued lock work remembers the session generation it was called in. */
  datatype Ticket = Ticket(gen: nat, work: Work)

  /** The running lock work: its generation, the state it read, and its kind. */
  datatype Holder<+S> = Holder(gen: nat, base: Option<S>, work: Work)

  datatype Waiter = Waiter(version: nat, id: nat)

  /** One mls_save_state call. */
  datatype Saving<+S> = Saving(version: nat, bytes: S, durable: bool)

  /** identityPromise: unset, in one of initIdentity's stages, or resolved. */
  datatype Identity = Unknown | Loading | Registering | Creating | Ready

  /**
   What happened so far: saves sent, versions confirmed durable, and the bound account's
   states with what each was made from; `states[k]` is version `start + 1 + k`.
   */
  datatype Past<+S> = Past(calls: seq<Saving<S>>, confirmed: set<nat>, baseline: nat, lastSaveFailed: bool,
                           start: nat, states: seq<S>, bases: seq<S>)

  datatype Vars<+S> = Vars(
    cache: Option<S>, version: nat, gen: nat, holderGen: nat, identity: Identity,
    persisted: nat, durable: nat, wanted: nat, waiters: seq<Waiter>, saving: Option<Saving<S>>,
    queue: seq<Ticket>, holder: Option<Holder<S>>, past: Past<S>)

  datatype Event<+S> =
    | RequestLock(work: Work)
    | TakeLock
    | ReleaseLock(ok: bool)
    | Commit(state: S)
    | AdoptOwn(base: S, planned: S)
    | Wait(version: nat, id: nat)
    | SaveOk
    | SaveError(staleAccount: bool)
    | Reset
    | StartIdentity
    | IdentityLoaded(gen: nat, loaded: Option<S>)
    | LoadFailed(gen: nat)
    | Registered(gen: nat)

  function Initially<S>(): Vars<S> {
    Vars(None, 0, 0, 0, Unknown, 0, 0, 0, [], None, [], None, Past([], {}, 0, false, 0, [], []))
  }

  // ---------------------------------------------------------------- the code between awaits

  /** The top of runWriter's loop: send the newest committed state, or stop. */
  function Push<S>(v: Vars<S>): Vars<S> {
    if v.cache.None? || (v.wanted <= v.durable && v.persisted >= v.version) then v
    else
      var call := Saving(v.version, v.cache.value, v.wanted > v.durable);
      v.(saving := Some(call), past := v.past.(calls := v.past.calls + [call]))
  }

  /** schedulePersist: start the writer unless it is running. */
  function Wake<S>(v: Vars<S>): Vars<S> {
    if v.saving.Some? then v else Push(v)
  }

  /** withStateLock's turn: work of an earlier account, or an update with no state, fails instead of starting. */
  predicate Admitted<S>(v: Vars<S>, t: Ticket) {
    t.gen == v.gen && (t.work.Create? || v.cache.Some?)
  }

  /** The catch around a creation's lock work: it drops the cached state, whichever account that belongs to. */
  function Dropped<S>(v: Vars<S>): Vars<S> {
    v.(cache := None)
  }

  function Turn<S>(v: Vars<S>): Vars<S>
    requires v.queue != []
  {
    var t, rest := v.queue[0], v.(queue := v.queue[1..]);
    if t.gen != v.gen then (if t.work.Create? then Dropped(rest) else rest)
    else if Admitted(v, t) then rest.(holderGen := t.gen, holder := Some(Holder(t.gen, v.cache, t.work)))
    else rest.(holderGen := t.gen)
  }

  /** The account's history after one more commit made from `base`. */
  function Extended<S>(past: Past<S>, base: Option<S>, state: S): Past<S> {
    past.(states := past.states + [state], bases := if base.Some? then past.bases + [base.value] else past.bases)
  }

  /** commitState, refused when the account changed since the work began. */
  predicate MayCommit<S>(v: Vars<S>) {
    v.holderGen == v.gen
  }

  function CommitState<S>(v: Vars<S>, state: S): Vars<S>
    requires v.holder.Some?
  {
    if !MayCommit(v) then v
    else
      Wake(v.(cache := Some(state), version := v.version + 1, holder := Some(v.holder.value.(base := Some(state))),
              past := Extended(v.past, v.holder.value.base, state)))
  }

  /** Some if durable already, else one more waiter. */
  function WaitDurable<S>(v: Vars<S>, version: nat, id: nat): Vars<S> {
    if version <= v.durable then v
    else Wake(v.(waiters := v.waiters + [Waiter(version, id)], wanted := if version > v.wanted then version else v.wanted))
  }

  function Covered(waiters: seq<Waiter>, durable: nat): seq<Waiter> {
    if waiters == [] then []
    else (if waiters[0].version <= durable then [waiters[0]] else []) + Covered(waiters[1..], durable)
  }

  function Uncovered(waiters: seq<Waiter>, durable: nat): seq<Waiter> {
    if waiters == [] then []
    else (if waiters[0].version > durable then [waiters[0]] else []) + Uncovered(waiters[1..], durable)
  }

  function Max(a: nat, b: nat): nat { if a > b then a else b }

  /** The save in flight succeeded; the writer goes on. */
  function Saved<S>(v: Vars<S>): Vars<S>
    requires v.saving.Some?
  {
    var done := v.saving.value;
    var w := v.(saving := None, persisted := Max(v.persisted, done.version), past := v.past.(lastSaveFailed := false));
    if !done.durable then Push(w)
    else
      var durable := Max(v.durable, done.version);
      Push(w.(durable := durable, waiters := Uncovered(v.waiters, durable),
              past := w.past.(confirmed := w.past.confirmed + {done.version})))
  }

  /** The waiters a successful save resolves. */
  function Resolved<S>(v: Vars<S>): seq<Waiter>
    requires v.saving.Some?
  {
    if v.saving.value.durable then Covered(v.waiters, Max(v.durable, v.saving.value.version)) else []
  }

  /** resetForUser: forget the account and whatever it still had queued for disk. */
  function Forget<S>(v: Vars<S>): Vars<S> {
    v.(gen := v.gen + 1, cache := None, identity := Unknown, waiters := [],
       persisted := v.version, durable := v.version, wanted := v.version,
       past := Cleared(v.past, v.version))
  }

  function Cleared<S>(past: Past<S>, baseline: nat): Past<S> {
    past.(baseline := baseline, start := baseline, states := [], bases := [])
  }

  /** The save in flight failed: nobody is left waiting; a stale-account refusal also forgets the account. */
  function NotSaved<S>(v: Vars<S>, staleAccount: bool): Vars<S>
    requires v.saving.Some?
  {
    var w := v.(saving := None, waiters := [], wanted := v.durable, past := v.past.(lastSaveFailed := true));
    if staleAccount then Forget(w) else w
  }

  /** A loaded state becomes the cache; it came from disk. */
  function Bind<S>(v: Vars<S>, state: S): Vars<S> {
    v.(cache := Some(state), identity := Ready, version := v.version + 1,
       persisted := v.version + 1, durable := v.version + 1,
       past := v.past.(baseline := v.version + 1, start := v.version, states := [state], bases := []))
  }

  /** This account's creation failed: its state is not on disk, so it is dropped and may be made anew. */
  function Unbind<S>(v: Vars<S>): Vars<S> {
    Dropped(v).(identity := Unknown, past := v.past.(start := v.version, states := [], bases := []))
  }

  /** The lock work ended. A failed creation takes the cached state with it, its own or a later account's. */
  function Released<S>(v: Vars<S>, ok: bool): Vars<S>
    requires v.holder.Some?
  {
    var h, free := v.holder.value, v.(holder := None);
    if h.work.Update? then free
    else if h.gen == v.gen then (if ok then free.(identity := Ready) else Unbind(free))
    else if ok then free
    else Dropped(free)
  }

  /** A creation of the current account ends well with a state, or badly once its waiters have been rejected. */
  predicate MayRelease<S>(v: Vars<S>, ok: bool) {
    v.holder.Some? && (v.holder.value.work.Create? && v.holder.value.gen == v.gen ==> if ok then v.cache.Some? else v.waiters == [])
  }

  function LockStep<S(==)>(v: Vars<S>, e: Event<S>): Option<Vars<S>> {
    match e
    case RequestLock(work) => if work.Create? then None else Some(v.(queue := v.queue + [Ticket(v.gen, Update)]))
    case TakeLock => if v.holder.Some? || v.queue == [] then None else Some(Turn(v))
    case ReleaseLock(ok) => if MayRelease(v, ok) then Some(Released(v, ok)) else None
    case Commit(state) => if v.holder.None? then None else Some(CommitState(v, state))
    case AdoptOwn(base, planned) =>
      if v.holder.None? || v.holder.value.base != Some(base) then None
      else Some(if v.cache == Some(base) then CommitState(v, planned) else v)
    case _ => None
  }

  function WriterStep<S>(v: Vars<S>, e: Event<S>): Option<Vars<S>> {
    match e
    case Wait(version, id) => if v.cache.None? || version > v.version then None else Some(WaitDurable(v, version, id))
    case SaveOk => if v.saving.None? then None else Some(Saved(v))
    case SaveError(stale) => if v.saving.None? then None else Some(NotSaved(v, stale))
    case _ => None
  }

  function AccountStep<S>(v: Vars<S>, e: Event<S>): Option<Vars<S>> {
    match e
    case Reset => Some(Forget(v))
    case StartIdentity => if v.cache.Some? || !v.identity.Unknown? then None else Some(v.(identity := Loading))
    case IdentityLoaded(gen, loaded) =>
      if gen > v.gen then None
      else if gen < v.gen then Some(v)
      else if !v.identity.Loading? || v.cache.Some? then None
      else if loaded.Some? then Some(Bind(v, loaded.value))
      else Some(v.(identity := Registering))
    case LoadFailed(gen) =>
      if gen > v.gen || (gen == v.gen && !v.identity.Loading? && !v.identity.Registering?) then None
      else Some(if gen == v.gen then v.(identity := Unknown) else v)
    case Registered(gen) =>
      if gen > v.gen || (gen == v.gen && !v.identity.Registering?) then None
      else Some(if gen == v.gen then v.(identity := Creating, queue := v.queue + [Ticket(v.gen, Create)]) else v)
    case _ => None
  }

  /** One event. None when the code cannot be there. */
  function Step<S(==)>(v: Vars<S>, e: Event<S>): Option<Vars<S>> {
    if e.Wait? || e.SaveOk? || e.SaveError? then WriterStep(v, e)
    else if e.Reset? || e.StartIdentity? || e.IdentityLoaded? || e.LoadFailed? || e.Registered? then AccountStep(v, e)
    else LockStep(v, e)
  }

  function Run<S(==)>(events: seq<Event<S>>): Option<Vars<S>> {
    if events == [] then Some(Initially())
    else
      var before := Run(events[..|events| - 1]);
      if before.None? then None else Step(before.value, events[|events| - 1])
  }

  // ---------------------------------------------------------------- invariants

  /** Versions sent so far, oldest first, never decrease and never pass `bound`. */
  ghost predicate Ordered<S>(calls: seq<Saving<S>>, bound: nat) {
    calls == [] ||
    (calls[|calls| - 1].version <= bound && Ordered(calls[..|calls| - 1], calls[|calls| - 1].version))
  }

  ghost predicate Owed(waiters: seq<Waiter>, durable: nat, wanted: nat) {
    forall w :: w in waiters ==> durable < w.version <= wanted
  }

  /** A version on disk: there when the account was loaded, or confirmed by a durable save at least as new. */
  ghost predicate OnDisk<S>(past: Past<S>, version: nat) {
    version <= past.baseline || exists c :: c in past.confirmed && version <= c
  }

  ghost predicate WriterOk<S>(v: Vars<S>) {
    && v.durable <= v.persisted <= v.version && v.wanted <= v.version && v.past.baseline <= v.version
    && OnDisk(v.past, v.durable)
    // Every waiter is still owed something, and a writer is running for it.
    && Owed(v.waiters, v.durable, v.wanted)
    && (v.waiters != [] ==> v.saving.Some? && v.cache.Some?)
    // At most one save in flight: the last one sent.
    && Ordered(v.past.calls, v.version)
    && (v.saving.Some? ==> v.past.calls != [] && v.past.calls[|v.past.calls| - 1] == v.saving.value)
    // A writer idle after a success has left nothing unsaved.
    && (v.saving.None? && v.cache.Some? && !v.past.lastSaveFailed ==> v.persisted == v.version && v.wanted <= v.durable)
  }

  /**
   Each commit was made from exactly the state the previous one left; the last
   one left the cache, unless a failed creation has dropped it since.
   */
  ghost predicate SingleChain<S>(past: Past<S>, cache: Option<S>) {
    match cache
    case None => past.bases == [] && |past.states| <= 1
    case Some(s) => past.states != [] && past.states[|past.states| - 1] == s && past.bases == past.states[..|past.states| - 1]
  }

  /** Lock work runs in the order it was called, so generations never decrease along the queue. */
  ghost predicate InOrder(queue: seq<Ticket>, first: nat, last: nat) {
    && (forall i, j :: 0 <= i <= j < |queue| ==> queue[i].gen <= queue[j].gen)
    && (forall i :: 0 <= i < |queue| ==> first <= queue[i].gen <= last)
  }

  /** No account has two creations under way. */
  ghost predicate OneCreation(queue: seq<Ticket>, gen: nat) {
    forall i, j :: 0 <= i < j < |queue| && queue[i] == Ticket(gen, Create) ==> queue[j] != Ticket(gen, Create)
  }

  function FirstGen<S>(v: Vars<S>): nat {
    if v.holder.Some? then v.holder.value.gen else 0
  }

  ghost predicate LockOk<S>(v: Vars<S>) {
    && v.holderGen <= v.gen
    && (v.holder.Some? ==> v.holder.value.gen == v.holderGen)
    && InOrder(v.queue, FirstGen(v), v.gen)
    // The holder of the current account still builds on the committed state.
    && (v.holder.Some? && v.holderGen == v.gen ==> v.holder.value.base == v.cache)
    && (v.holder.Some? && v.holderGen == v.gen && v.cache.None? ==> v.holder.value.work.Create?)
    && (v.holder.Some? && v.holderGen == v.gen && v.holder.value.work.Create? ==> v.identity.Creating?)
    && (Ticket(v.gen, Create) in v.queue ==> v.identity.Creating?)
    && OneCreation(v.queue, v.gen)
    && (v.holder.Some? && v.holderGen == v.gen && v.holder.value.work.Create? ==> Ticket(v.gen, Create) !in v.queue)
    && SingleChain(v.past, v.cache)
    && (v.cache.Some? ==> v.identity.Ready? || v.identity.Creating?)
    && (v.past.states != [] && v.cache.None? ==> v.identity.Ready?)
  }

  /** Work called under an earlier account holds the lock or is next in line. */
  predicate HeldBack<S>(v: Vars<S>) {
    if v.holder.Some? then v.holder.value.gen < v.gen else v.queue != [] && v.queue[0].gen < v.gen
  }

  /** Nothing has been committed for this account: its state, if bound, is as loaded, and nobody waits. */
  ghost predicate Untouched<S>(v: Vars<S>) {
    && v.persisted == v.durable == v.version && v.wanted <= v.durable && v.waiters == []
    && v.past.bases == [] && |v.past.states| <= 1
    && (v.cache.Some? ==> v.past.states == [v.cache.value] && v.identity.Ready?)
  }

  ghost predicate TurnsOk<S>(v: Vars<S>) {
    HeldBack(v) ==> Untouched(v)
  }

  lemma CoveredExactly(waiters: seq<Waiter>, durable: nat)
    ensures forall w :: w in Covered(waiters, durable) <==> w in waiters && w.version <= durable
    ensures forall w :: w in Uncovered(waiters, durable) <==> w in waiters && w.version > durable
  {
  }

  lemma PushKeepsWriter<S>(v: Vars<S>)
    requires WriterOk(v.(waiters := [], past := v.past.(lastSaveFailed := true))) && v.saving.None?
    requires Owed(v.waiters, v.durable, v.wanted) && (v.waiters != [] ==> v.cache.Some?)
    ensures WriterOk(Push(v))
  {
    var calls := Push(v).past.calls;
    assert calls != v.past.calls ==> calls[..|calls| - 1] == v.past.calls;
    if v.waiters != [] {
      assert v.waiters[0] in v.waiters;
    }
  }

  lemma WaitKeepsWriter<S>(v: Vars<S>, version: nat, id: nat)
    requires WriterOk(v) && v.cache.Some? && version <= v.version
    ensures WriterOk(WaitDurable(v, version, id))
  {
    if version > v.durable && v.saving.None? {
      PushKeepsWriter(v.(waiters := v.waiters + [Waiter(version, id)], wanted := Max(version, v.wanted)));
    }
  }

  lemma BindKeepsWriter<S>(v: Vars<S>, state: S)
    requires WriterOk(v) && v.cache.None?
    ensures WriterOk(Bind(v, state))
  {
  }

  lemma AccountKeepsWriter<S>(v: Vars<S>)
    requires WriterOk(v)
    ensures WriterOk(Forget(v))
    ensures v.waiters == [] ==> WriterOk(Unbind(v)) && WriterOk(Dropped(v))
    ensures v.saving.Some? ==> WriterOk(NotSaved(v, true)) && WriterOk(NotSaved(v, false))
  {
  }

  /** The lock's variables play no part in the writer. */
  lemma LockLeavesWriter<S>(v: Vars<S>, w: Vars<S>)
    requires WriterOk(v) && w == v.(gen := w.gen, holderGen := w.holderGen, identity := w.identity, queue := w.queue, holder := w.holder)
    ensures WriterOk(w)
  {
  }

  lemma ReleaseKeepsWriter<S>(v: Vars<S>, ok: bool)
    requires WriterOk(v) && TurnsOk(v) && MayRelease(v, ok) && v.holderGen <= v.gen && v.holder.value.gen == v.holderGen
    ensures WriterOk(Released(v, ok))
  {
    LockLeavesWriter(v, v.(holder := None));
    LockLeavesWriter(v, v.(holder := None, identity := Ready));
    AccountKeepsWriter(v.(holder := None));
  }

  lemma TurnKeepsWriter<S>(v: Vars<S>)
    requires WriterOk(v) && TurnsOk(v) && v.holder.None? && v.queue != [] && v.queue[0].gen <= v.gen
    ensures WriterOk(Turn(v))
  {
    var rest := v.(queue := v.queue[1..]);
    LockLeavesWriter(v, rest);
    if v.queue[0].gen < v.gen {
      AccountKeepsWriter(rest);
    } else {
      LockLeavesWriter(v, Turn(v));
    }
  }

  lemma LockStepKeepsWriter<S>(v: Vars<S>, e: Event<S>)
    requires WriterOk(v) && LockOk(v) && TurnsOk(v) && LockStep(v, e).Some?
    ensures WriterOk(LockStep(v, e).value)
  {
    match e
    case RequestLock(_) => LockLeavesWriter(v, LockStep(v, e).value);
    case TakeLock => TurnKeepsWriter(v);
    case ReleaseLock(ok) => ReleaseKeepsWriter(v, ok);
    case Commit(state) => CommitKeepsWriter(v, state);
    case AdoptOwn(_, planned) => CommitKeepsWriter(v, planned);
    case _ =>
  }

  lemma AccountStepKeepsWriter<S>(v: Vars<S>, e: Event<S>)
    requires WriterOk(v) && AccountStep(v, e).Some?
    ensures WriterOk(AccountStep(v, e).value)
  {
    if e.Reset? {
      AccountKeepsWriter(v);
    } else if e.IdentityLoaded? && e.gen == v.gen && e.loaded.Some? {
      BindKeepsWriter(v, e.loaded.value);
    } else {
      LockLeavesWriter(v, AccountStep(v, e).value);
    }
  }

  lemma StepKeepsWriter<S>(v: Vars<S>, e: Event<S>)
    requires WriterOk(v) && LockOk(v) && TurnsOk(v) && Step(v, e).Some?
    ensures WriterOk(Step(v, e).value)
  {
    hide WriterOk, LockOk, TurnsOk, LockStep, AccountStep;
    match e
    case Wait(version, id) => WaitKeepsWriter(v, version, id);
    case SaveOk => SavedKeepsWriter(v);
    case SaveError(_) => AccountKeepsWriter(v);
    case _ =>
      if e.Reset? || e.StartIdentity? || e.IdentityLoaded? || e.LoadFailed? || e.Registered? {
        AccountStepKeepsWriter(v, e);
      } else {
        LockStepKeepsWriter(v, e);
      }
  }

  lemma CommitKeepsWriter<S>(v: Vars<S>, state: S)
    requires WriterOk(v) && v.holder.Some?
    ensures WriterOk(CommitState(v, state))
    ensures MayCommit(v) ==> CommitState(v, state).saving.Some?
  {
    if MayCommit(v) && v.saving.None? {
      var w := v.(cache := Some(state), version := v.version + 1);
      PushKeepsWriter(w);
    }
  }

  lemma SavedKeepsWriter<S>(v: Vars<S>)
    requires WriterOk(v) && v.saving.Some?
    ensures WriterOk(Saved(v))
  {
    var done := v.saving.value;
    var w := v.(saving := None, persisted := Max(v.persisted, done.version), past := v.past.(lastSaveFailed := false));
    if done.durable {
      var durable := Max(v.durable, done.version);
      CoveredExactly(v.waiters, durable);
      PushKeepsWriter(w.(durable := durable, waiters := Uncovered(v.waiters, durable),
                         past := w.past.(confirmed := w.past.confirmed + {done.version})));
    } else {
      PushKeepsWriter(w);
    }
  }

  lemma RestInOrder(queue: seq<Ticket>, first: nat, last: nat)
    requires InOrder(queue, first, last) && queue != []
    ensures InOrder(queue[1..], queue[0].gen, last) && InOrder(queue[1..], 0, last)
    ensures forall t :: t in queue[1..] ==> t in queue
  {
  }

  lemma RestHasNoSecond(queue: seq<Ticket>, gen: nat)
    requires OneCreation(queue, gen) && queue != []
    ensures OneCreation(queue[1..], gen) && (queue[0] == Ticket(gen, Create) ==> Ticket(gen, Create) !in queue[1..])
  {
    assert forall i | 0 <= i < |queue| - 1 :: queue[1..][i] == queue[i + 1];
  }

  lemma TurnKeepsLock<S>(v: Vars<S>)
    requires LockOk(v) && TurnsOk(v) && v.holder.None? && v.queue != []
    ensures LockOk(Turn(v))
  {
    var t := v.queue[0];
    RestInOrder(v.queue, 0, v.gen);
    RestHasNoSecond(v.queue, v.gen);
    assert t in v.queue;
    hide InOrder, OneCreation;
  }

  lemma ReleaseKeepsLock<S>(v: Vars<S>, ok: bool)
    requires LockOk(v) && TurnsOk(v) && MayRelease(v, ok)
    ensures LockOk(Released(v, ok))
  {
    assert InOrder(v.queue, 0, v.gen);
    hide InOrder, OneCreation;
  }

  lemma ChainGrows<S>(past: Past<S>, cache: Option<S>, state: S)
    requires SingleChain(past, cache) && (cache.None? ==> past.states == [])
    ensures SingleChain(Extended(past, cache, state), Some(state))
  {
    var states := past.states + [state];
    assert states[..|states| - 1] == past.states;
    if cache.Some? {
      assert past.states == past.states[..|past.states| - 1] + [cache.value];
    }
  }

  lemma CommitKeepsLock<S>(v: Vars<S>, state: S)
    requires LockOk(v) && v.holder.Some?
    ensures LockOk(CommitState(v, state))
  {
    if MayCommit(v) {
      ChainGrows(v.past, v.cache, state);
      var w := CommitState(v, state);
      assert w.past.states == Extended(v.past, v.cache, state).states && w.past.bases == Extended(v.past, v.cache, state).bases;
      assert w.queue == v.queue && w.cache == Some(state) && w.holder == Some(v.holder.value.(base := Some(state)));
      hide InOrder, Extended, Wake;
    }
  }

  /** The writer's variables play no part in the lock. */
  lemma WriterLeavesLock<S>(v: Vars<S>, w: Vars<S>)
    requires LockOk(v) && w.cache == v.cache && w.gen == v.gen && w.holderGen == v.holderGen && w.identity == v.identity
    requires w.queue == v.queue && w.holder == v.holder && w.past.states == v.past.states && w.past.bases == v.past.bases
    ensures LockOk(w)
  {
    hide InOrder;
  }

  lemma QueueingKeepsLock<S>(v: Vars<S>)
    requires LockOk(v)
    ensures LockOk(v.(queue := v.queue + [Ticket(v.gen, Update)]))
  {
  }

  /** A creation queues once: none of its account's is queued or running before. */
  lemma RegisteredKeepsLock<S>(v: Vars<S>)
    requires LockOk(v) && v.identity.Registering?
    ensures LockOk(v.(identity := Creating, queue := v.queue + [Ticket(v.gen, Create)]))
  {
    assert Ticket(v.gen, Create) !in v.queue;
  }

  lemma BindKeepsLock<S>(v: Vars<S>, state: S)
    requires LockOk(v) && v.cache.None? && v.identity.Loading?
    ensures LockOk(Bind(v, state))
  {
    hide InOrder;
  }

  /** A reset outdates the holder and the whole queue. */
  lemma ForgetKeepsLock<S>(v: Vars<S>)
    requires LockOk(v)
    ensures LockOk(Forget(v))
  {
  }

  /** initIdentity moves on to its next stage, or gives up before the lock. */
  lemma StageKeepsLock<S>(v: Vars<S>, next: Identity)
    requires LockOk(v) && v.cache.None? && !v.identity.Ready? && !v.identity.Creating?
    ensures LockOk(v.(identity := next))
  {
    hide InOrder;
  }

  lemma LockStepKeepsLock<S>(v: Vars<S>, e: Event<S>)
    requires LockOk(v) && TurnsOk(v) && LockStep(v, e).Some?
    ensures LockOk(LockStep(v, e).value)
  {
    hide LockOk, Turn, Released, CommitState;
    match e
    case RequestLock(_) => QueueingKeepsLock(v);
    case TakeLock => TurnKeepsLock(v);
    case ReleaseLock(ok) => ReleaseKeepsLock(v, ok);
    case Commit(state) => CommitKeepsLock(v, state);
    case AdoptOwn(_, planned) => CommitKeepsLock(v, planned);
    case _ =>
  }

  lemma AccountStepKeepsLock<S>(v: Vars<S>, e: Event<S>)
    requires LockOk(v) && AccountStep(v, e).Some?
    ensures LockOk(AccountStep(v, e).value)
  {
    match e
    case Reset => ForgetKeepsLock(v);
    case StartIdentity => StageKeepsLock(v, Loading);
    case IdentityLoaded(gen, loaded) =>
      if gen == v.gen && loaded.Some? {
        BindKeepsLock(v, loaded.value);
      } else if gen == v.gen {
        StageKeepsLock(v, Registering);
      }
    case LoadFailed(gen) => if gen == v.gen { StageKeepsLock(v, Unknown); }
    case Registered(gen) => if gen == v.gen { RegisteredKeepsLock(v); }
    case _ =>
  }

  lemma StepKeepsLock<S>(v: Vars<S>, e: Event<S>)
    requires LockOk(v) && TurnsOk(v) && Step(v, e).Some?
    ensures LockOk(Step(v, e).value)
  {
    hide LockOk, TurnsOk, LockStep, AccountStep, Forget;
    match e
    case Wait(version, id) => WriterLeavesLock(v, WaitDurable(v, version, id));
    case SaveOk => WriterLeavesLock(v, Saved(v));
    case SaveError(_) =>
      WriterLeavesLock(v, NotSaved(v, false));
      ForgetKeepsLock(NotSaved(v, false));
    case _ =>
      if e.Reset? || e.StartIdentity? || e.IdentityLoaded? || e.LoadFailed? || e.Registered? {
        AccountStepKeepsLock(v, e);
      } else {
        LockStepKeepsLock(v, e);
      }
  }

  /** As long as earlier work holds the lock or is next, nothing is committed for the current account. */
  lemma StepKeepsTurns<S>(v: Vars<S>, e: Event<S>)
    requires WriterOk(v) && LockOk(v) && TurnsOk(v) && Step(v, e).Some?
    ensures TurnsOk(Step(v, e).value)
  {
    if e.SaveOk? {
      SavedKeepsTurns(v);
    } else if e.Wait? || e.SaveError? {
      hide WriterOk, LockOk;
    } else if e.Reset? || e.StartIdentity? || e.IdentityLoaded? || e.LoadFailed? || e.Registered? {
      AccountStepKeepsTurns(v, e);
    } else {
      LockStepKeepsTurns(v, e);
    }
  }

  lemma AccountStepKeepsTurns<S>(v: Vars<S>, e: Event<S>)
    requires LockOk(v) && TurnsOk(v) && AccountStep(v, e).Some?
    ensures TurnsOk(AccountStep(v, e).value)
  {
    hide InOrder, OneCreation, SingleChain;
    assert v.cache.None? && !v.identity.Ready? ==> v.past.states == [];
    hide LockOk;
  }

  lemma LockStepKeepsTurns<S>(v: Vars<S>, e: Event<S>)
    requires LockOk(v) && TurnsOk(v) && LockStep(v, e).Some?
    ensures TurnsOk(LockStep(v, e).value)
  {
    if e.TakeLock? { RestInOrder(v.queue, 0, v.gen); }
    hide OneCreation, SingleChain, Wake;
  }

  lemma SavedKeepsTurns<S>(v: Vars<S>)
    requires WriterOk(v) && TurnsOk(v) && v.saving.Some?
    ensures TurnsOk(Saved(v))
  {
    if HeldBack(v) {
      assert v.saving.value.version <= v.version;
    }
  }

  lemma {:induction false} AlwaysOk<S(!new)>(events: seq<Event<S>>)
    requires Run(events).Some?
    ensures WriterOk(Run(events).value) && LockOk(Run(events).value) && TurnsOk(Run(events).value)
  {
    if events != [] {
      var before, e := Run(events[..|events| - 1]).value, events[|events| - 1];
      AlwaysOk(events[..|events| - 1]);
      StepKeepsWriter(before, e);
      StepKeepsLock(before, e);
      StepKeepsTurns(before, e);
    }
  }

  // ---------------------------------------------------------------- no lost update

  /** A reset: asked for, or run because a save was refused for naming an account that is no longer the window's. */
  predicate Resets<S>(e: Event<S>) {
    e.Reset? || (e.SaveError? && e.staleAccount)
  }

  predicate IsCreation<S>(h: Option<Holder<S>>, gen: nat) {
    h.Some? && h.value.work.Create? && h.value.gen == gen
  }

  predicate OwnCreationFails<S>(v: Vars<S>, e: Event<S>) {
    e.ReleaseLock? && !e.ok && IsCreation(v.holder, v.gen)
  }

  /** The events that end the history of a bound account. */
  predicate EndsHistory<S>(v: Vars<S>, e: Event<S>) {
    Resets(e) || OwnCreationFails(v, e)
  }

  lemma HistoryGrows<S>(v: Vars<S>, e: Event<S>)
    requires LockOk(v) && Step(v, e).Some? && !EndsHistory(v, e)
    ensures v.past.states <= Step(v, e).value.past.states
  {
    hide InOrder, OneCreation, SingleChain;
  }

  lemma {:induction false} EarlierRuns<S>(events: seq<Event<S>>, i: nat)
    requires Run(events).Some? && i <= |events|
    ensures Run(events[..i]).Some?
  {
    if i == |events| {
      assert events[..i] == events;
    } else {
      assert events[..|events| - 1][..i] == events[..i];
      EarlierRuns(events[..|events| - 1], i);
    }
  }

  /** Nothing from event `i` on ends the account's history. */
  ghost predicate HistoryGoesOn<S>(events: seq<Event<S>>, i: nat) {
    i < |events| ==>
      && var n := |events| - 1;
         Run(events[..n]).Some? && !EndsHistory(Run(events[..n]).value, events[n]) && HistoryGoesOn(events[..n], i)
  }

  /**
   Over any run, the committed states of the bound account form one chain, whatever
   was suspended in between; and as long as nothing resets the session and no own
   creation fails, what was committed stays in that chain.
   */
  lemma {:induction false} NoLostUpdate<S(!new)>(events: seq<Event<S>>, i: nat)
    requires Run(events).Some? && i <= |events| && HistoryGoesOn(events, i)
    ensures var v := Run(events).value;
            && (v.cache.Some? ==> v.past.states != [] && v.cache.value == v.past.states[|v.past.states| - 1])
            && (forall k :: 0 <= k < |v.past.bases| ==> k + 1 < |v.past.states| && v.past.bases[k] == v.past.states[k])
    ensures Run(events[..i]).Some? && Run(events[..i]).value.past.states <= Run(events).value.past.states
  {
    AlwaysOk(events);
    if i == |events| {
      assert events[..i] == events;
    } else {
      var n := |events| - 1;
      assert events[..n][..i] == events[..i];
      NoLostUpdate(events[..n], i);
      AlwaysOk(events[..n]);
      HistoryGrows(Run(events[..n]).value, events[n]);
    }
  }

  /**
   The re-check before adopting an accepted own commit never fires for the
   current account, and work suspended or queued before a reset never commits.
   */
  lemma OnlyCurrentAccountCommits<S(!new)>(events: seq<Event<S>>, base: S, planned: S)
    requires Run(events).Some?
    requires var v := Run(events).value; v.holder.Some? && v.holder.value.base == Some(base)
    ensures var v := Run(events).value;
            var v' := Step(v, AdoptOwn(base, planned)).value;
            if v.holder.value.gen == v.gen
            then v.cache == Some(base) && v'.cache == Some(planned) && v'.past.states == v.past.states + [planned]
            else v' == v && Step(v, Commit(planned)) == Some(v)
    ensures var v := Run(events).value;
            v.queue != [] && v.queue[0].gen != v.gen ==> Turn(v.(holder := None)).holder.None?
  {
    AlwaysOk(events);
  }

  /** A reset outdates everyone at once: the holder and all queued work. */
  lemma ResetOutdatesAll<S(!new)>(events: seq<Event<S>>)
    requires Run(events).Some?
    ensures var v := Step(Run(events).value, Reset).value;
            && (v.holder.Some? ==> v.holder.value.gen < v.gen)
            && (forall t :: t in v.queue ==> t.gen < v.gen)
  {
    AlwaysOk(events);
  }

  // ---------------------------------------------------------------- creations of an earlier account

  /** A creation called under an earlier account fails, at its turn or when it ends. */
  predicate StaleCreationFails<S>(v: Vars<S>, e: Event<S>) {
    || (e.TakeLock? && v.holder.None? && v.queue != [] && v.queue[0].work.Create? && v.queue[0].gen != v.gen)
    || (e.ReleaseLock? && !e.ok && v.holder.Some? && v.holder.value.work.Create? && v.holder.value.gen != v.gen)
  }

  /**
   A bound account loses its state in memory exactly by a reset, whichever account
   was refused, or by a creation that fails: its own or an earlier account's.
   */
  lemma CacheDroppedIff<S(!new)>(events: seq<Event<S>>, e: Event<S>)
    requires Run(events).Some? && Run(events).value.cache.Some? && Step(Run(events).value, e).Some?
    ensures var v := Run(events).value;
            Step(v, e).value.cache.None?
            <==> Resets(e) || OwnCreationFails(v, e) || StaleCreationFails(v, e)
  {
    var v := Run(events).value;
    AlwaysOk(events);
    assert v.identity.Ready? || v.identity.Creating?;
    hide WriterOk, LockOk, TurnsOk, Wake;
  }

  /**
   An earlier account's failing creation touches the current account's cache
   exactly if that account is bound by then. What it drops is the state as it
   was loaded: nothing was committed to it, all of it is on disk, nobody waits.
   */
  lemma StaleCreationTouchesIff<S(!new)>(events: seq<Event<S>>, e: Event<S>)
    requires Run(events).Some? && Step(Run(events).value, e).Some? && StaleCreationFails(Run(events).value, e)
    ensures var v := Run(events).value;
            var after := Step(v, e).value;
            && (after.cache != v.cache <==> v.cache.Some?)
            && after == v.(cache := None, queue := after.queue, holder := None)
            && v.waiters == [] && v.past.bases == [] && OnDisk(v.past, v.version)
            && (v.cache.Some? ==> v.past.states == [v.cache.value] && after.identity.Ready?)
  {
    AlwaysOk(events);
    var v := Run(events).value;
    if e.TakeLock? {
      assert v.queue[0] in v.queue && v.queue[0].gen <= v.gen;
    }
    assert HeldBack(v);
  }

  /** Bound once, without a state now: the identity promise is resolved, so nothing loads one again. */
  predicate LeftWithoutState<S>(v: Vars<S>) {
    v.cache.None? && v.identity.Ready?
  }

  lemma StepLeavesWithoutState<S>(v: Vars<S>, e: Event<S>)
    requires LockOk(v) && LeftWithoutState(v) && Step(v, e).Some? && !Resets(e)
    ensures LeftWithoutState(Step(v, e).value)
    ensures e.TakeLock? ==> Step(v, e).value.holder.None?
  {
    assert e.TakeLock? ==> v.queue[0] in v.queue;
    hide InOrder, OneCreation, SingleChain;
  }

  /** From then on every lock work of the account is refused, until the session is reset or the window reloaded. */
  lemma {:induction false} RefusedUntilReset<S(!new)>(events: seq<Event<S>>, more: seq<Event<S>>)
    requires Run(events).Some? && LeftWithoutState(Run(events).value) && Run(events + more).Some?
    requires forall i | 0 <= i < |more| :: !Resets(more[i])
    ensures LeftWithoutState(Run(events + more).value)
  {
    if more == [] {
      assert events + more == events;
    } else {
      var n := |more| - 1;
      assert (events + more)[..|events + more| - 1] == events + more[..n];
      RefusedUntilReset(events, more[..n]);
      AlwaysOk(events + more[..n]);
      StepLeavesWithoutState(Run(events + more[..n]).value, more[n]);
    }
  }

  lemma RunAppends<S>(events: seq<Event<S>>, e: Event<S>)
    requires Run(events).Some?
    ensures Run(events + [e]) == Step(Run(events).value, e)
  {
    assert (events + [e])[..|events|] == events;
  }

  /** An own commit of one account is suspended, a creation of a second waits behind it, and the user goes on to a third. */
  function SwitchTwice(): seq<Event<int>> {
    [] + [StartIdentity] + [IdentityLoaded(0, Some(10))] + [RequestLock(Update)] + [TakeLock]
    + [Reset] + [StartIdentity] + [IdentityLoaded(1, None)] + [Registered(1)]
    + [Reset] + [StartIdentity] + [IdentityLoaded(2, Some(30))] + [ReleaseLock(true)]
  }

  /** The third account is bound when the second one's turn comes, and is left without its state. */
  lemma StaleCreationUnbindsAccount()
    ensures Run(SwitchTwice()).Some? && Run(SwitchTwice()).value.cache == Some(30)
    ensures StaleCreationFails(Run(SwitchTwice()).value, TakeLock)
    ensures Run(SwitchTwice() + [TakeLock]).Some? && LeftWithoutState(Run(SwitchTwice() + [TakeLock]).value)
  {
    var first := [] + [StartIdentity] + [IdentityLoaded(0, Some(10))] + [RequestLock(Update)] + [TakeLock];
    FirstAccountHoldsLock();
    hide Run;
    SecondAccountQueues(first);
    ThirdAccountBinds(first + [Reset] + [StartIdentity] + [IdentityLoaded(1, None)] + [Registered(1)]);
    RunAppends(SwitchTwice(), TakeLock);
  }

  lemma SecondAccountQueues(events: seq<Event<int>>)
    requires Run(events).Some? && Run(events).value.gen == 0 && IsUpdate(Run(events).value.holder) && Run(events).value.queue == []
    ensures var r := Run(events + [Reset] + [StartIdentity] + [IdentityLoaded(1, None)] + [Registered(1)]);
            && r.Some? && r.value.gen == 1 && IsUpdate(r.value.holder) && r.value.queue == [Ticket(1, Create)]
  {
    hide Run;
    RunAppends(events, Reset);
    RunAppends(events + [Reset], StartIdentity);
    RunAppends(events + [Reset] + [StartIdentity], IdentityLoaded(1, None));
    RunAppends(events + [Reset] + [StartIdentity] + [IdentityLoaded(1, None)], Registered(1));
  }

  lemma FirstAccountHoldsLock()
    ensures var r := Run([] + [StartIdentity] + [IdentityLoaded(0, Some(10))] + [RequestLock(Update)] + [TakeLock]);
            r.Some? && r.value.gen == 0 && IsUpdate(r.value.holder) && r.value.queue == []
  {
    FirstAccountLoads();
    hide Run;
    UpdateRuns([] + [StartIdentity] + [IdentityLoaded(0, Some(10))]);
  }

  lemma UpdateRuns(events: seq<Event<int>>)
    requires Run(events).Some? && Run(events).value.cache.Some? && Run(events).value.holder.None? && Run(events).value.queue == []
    ensures var r := Run(events + [RequestLock(Update)] + [TakeLock]);
            r.Some? && r.value.gen == Run(events).value.gen && IsUpdate(r.value.holder) && r.value.queue == []
  {
    hide Run;
    RunAppends(events, RequestLock(Update));
    RunAppends(events + [RequestLock(Update)], TakeLock);
  }

  lemma ThirdAccountBinds(events: seq<Event<int>>)
    requires Run(events).Some? && Run(events).value.gen == 1 && IsUpdate(Run(events).value.holder)
    requires Run(events).value.queue == [Ticket(1, Create)]
    ensures var r := Run(events + [Reset] + [StartIdentity] + [IdentityLoaded(2, Some(30))] + [ReleaseLock(true)]);
            && r.Some? && r.value.cache == Some(30) && r.value.identity.Ready? && r.value.holder.None?
            && r.value.queue == [Ticket(1, Create)] && r.value.gen == 2
  {
    hide Run;
    RunAppends(events, Reset);
    RunAppends(events + [Reset], StartIdentity);
    RunAppends(events + [Reset] + [StartIdentity], IdentityLoaded(2, Some(30)));
    RunAppends(events + [Reset] + [StartIdentity] + [IdentityLoaded(2, Some(30))], ReleaseLock(true));
  }

  predicate IsUpdate<S>(h: Option<Holder<S>>) {
    h.Some? && h.value.work.Update?
  }

  // ---------------------------------------------------------------- what a reset loses

  /** A state committed as this version was handed to a save. */
  ghost predicate Sent<S>(calls: seq<Saving<S>>, version: nat) {
    exists i :: 0 <= i < |calls| && calls[i].version == version
  }

  /** The newest state of the bound account was committed here and no save has been given it. */
  ghost predicate NeverSent<S>(v: Vars<S>) {
    v.cache.Some? && v.version > v.past.baseline && !Sent(v.past.calls, v.version)
  }

  /** Whatever was accepted for saving since the account was bound had been sent. */
  ghost predicate SentOk<S>(v: Vars<S>) {
    && v.past.baseline <= v.durable <= v.persisted
    && (v.persisted > v.past.baseline ==> Sent(v.past.calls, v.persisted))
  }

  lemma SentStaysSent<S>(calls: seq<Saving<S>>, call: Saving<S>, version: nat)
    ensures Sent(calls + [call], version) <==> Sent(calls, version) || call.version == version
  {
    if Sent(calls, version) {
      var i :| 0 <= i < |calls| && calls[i].version == version;
      assert (calls + [call])[i] == calls[i];
    }
    if call.version == version { assert (calls + [call])[|calls|] == call; }
  }

  lemma PushKeepsSent<S>(v: Vars<S>)
    requires SentOk(v)
    ensures SentOk(Push(v)) && SentOk(Wake(v))
  {
    if v.cache.Some? {
      SentStaysSent(v.past.calls, Saving(v.version, v.cache.value, v.wanted > v.durable), v.persisted);
    }
  }

  lemma SavedKeepsSent<S>(v: Vars<S>)
    requires WriterOk(v) && SentOk(v) && v.saving.Some?
    ensures SentOk(Saved(v))
  {
    var done := v.saving.value;
    assert Sent(v.past.calls, done.version) by { assert v.past.calls[|v.past.calls| - 1] == done; }
    var w := v.(saving := None, persisted := Max(v.persisted, done.version), past := v.past.(lastSaveFailed := false));
    var durable := Max(v.durable, done.version);
    PushKeepsSent(w);
    PushKeepsSent(w.(durable := durable, waiters := Uncovered(v.waiters, durable),
                     past := w.past.(confirmed := w.past.confirmed + {done.version})));
    hide Sent, WriterOk, Push;
  }

  lemma StepKeepsSent<S>(v: Vars<S>, e: Event<S>)
    requires WriterOk(v) && SentOk(v) && Step(v, e).Some?
    ensures SentOk(Step(v, e).value)
  {
    match e {
      case SaveOk => SavedKeepsSent(v);
      case Wait(version, id) =>
        PushKeepsSent(v.(waiters := v.waiters + [Waiter(version, id)], wanted := if version > v.wanted then version else v.wanted));
      case Commit(state) => CommitKeepsSent(v, state);
      case AdoptOwn(_, planned) => CommitKeepsSent(v, planned);
      case _ =>
    }
    hide Sent, Push, Wake, Saved, CommitState;
  }

  lemma CommitKeepsSent<S>(v: Vars<S>, state: S)
    requires SentOk(v)
    ensures v.holder.Some? ==> SentOk(CommitState(v, state))
  {
    if v.holder.Some? {
      PushKeepsSent(v.(cache := Some(state), version := v.version + 1, holder := Some(v.holder.value.(base := Some(state))),
                       past := Extended(v.past, v.holder.value.base, state)));
    }
    hide Sent, Push, Wake;
  }

  lemma {:induction false} AlwaysSent<S(!new)>(events: seq<Event<S>>)
    requires Run(events).Some?
    ensures SentOk(Run(events).value)
  {
    if events != [] {
      var n := |events| - 1;
      AlwaysSent(events[..n]);
      AlwaysOk(events[..n]);
      StepKeepsSent(Run(events[..n]).value, events[n]);
    }
  }

  /** The last save bounds all: a version above it was never sent, and one at it was. */
  lemma SentUpToLast<S>(calls: seq<Saving<S>>, bound: nat, version: nat)
    requires Ordered(calls, bound)
    ensures Sent(calls, version) ==> calls != [] && version <= calls[|calls| - 1].version
    ensures calls != [] ==> Sent(calls, calls[|calls| - 1].version)
  {
    if Sent(calls, version) {
      var i :| 0 <= i < |calls| && calls[i].version == version;
      OrderedNeverDecreases(calls, bound, i, |calls| - 1);
    }
  }

  /** No save has carried this version, and none can any more: the cache is empty or holds a later one. */
  ghost predicate Unsendable<S>(v: Vars<S>, version: nat) {
    !Sent(v.past.calls, version) && (v.version > version || (v.version == version && v.cache.None?))
  }

  lemma PushNeverSends<S>(v: Vars<S>, version: nat)
    requires Unsendable(v, version)
    ensures Unsendable(Push(v), version) && Unsendable(Wake(v), version)
  {
    if v.cache.Some? {
      SentStaysSent(v.past.calls, Saving(v.version, v.cache.value, v.wanted > v.durable), version);
    }
  }

  lemma StepNeverSends<S>(v: Vars<S>, e: Event<S>, version: nat)
    requires Unsendable(v, version) && Step(v, e).Some?
    ensures Unsendable(Step(v, e).value, version)
  {
    match e {
      case SaveOk => SavedNeverSends(v, version);
      case Wait(n, id) =>
        PushNeverSends(v.(waiters := v.waiters + [Waiter(n, id)], wanted := if n > v.wanted then n else v.wanted), version);
      case Commit(state) => CommitNeverSends(v, state, version);
      case AdoptOwn(_, planned) => CommitNeverSends(v, planned, version);
      case _ =>
    }
    hide Sent, Push, Wake, Saved, CommitState;
  }

  lemma SavedNeverSends<S>(v: Vars<S>, version: nat)
    requires Unsendable(v, version) && v.saving.Some?
    ensures Unsendable(Saved(v), version)
  {
    var done := v.saving.value;
    var w := v.(saving := None, persisted := Max(v.persisted, done.version), past := v.past.(lastSaveFailed := false));
    var durable := Max(v.durable, done.version);
    PushNeverSends(w, version);
    PushNeverSends(w.(durable := durable, waiters := Uncovered(v.waiters, durable),
                      past := w.past.(confirmed := w.past.confirmed + {done.version})), version);
    hide Sent, Push;
  }

  lemma CommitNeverSends<S>(v: Vars<S>, state: S, version: nat)
    requires Unsendable(v, version)
    ensures v.holder.Some? ==> Unsendable(CommitState(v, state), version)
  {
    if v.holder.Some? {
      PushNeverSends(v.(cache := Some(state), version := v.version + 1, holder := Some(v.holder.value.(base := Some(state))),
                        past := Extended(v.past, v.holder.value.base, state)), version);
    }
    hide Sent, Push, Wake;
  }

  /** Dropped before any save was given it, a version is never sent, however the run goes on. */
  lemma {:induction false} DroppedForGood<S(!new)>(events: seq<Event<S>>, more: seq<Event<S>>, version: nat)
    requires Run(events).Some? && Run(events + more).Some? && Unsendable(Run(events).value, version)
    ensures Unsendable(Run(events + more).value, version)
  {
    if more == [] {
      assert events + more == events;
    } else {
      var n := |more| - 1;
      assert (events + more)[..|events + more| - 1] == events + more[..n];
      DroppedForGood(events, more[..n], version);
      StepNeverSends(Run(events + more[..n]).value, more[n], version);
    }
  }

  /** The step takes the newest committed state of the bound account away before any save was given it. */
  ghost predicate LosesCommitted<S>(v: Vars<S>, e: Event<S>)
    requires Step(v, e).Some?
  {
    NeverSent(v) && Step(v, e).value.cache.None?
  }

  /** The last save sent, if any, carried an earlier version than the cached one. */
  predicate LastSaveOlder<S>(v: Vars<S>) {
    v.past.calls == [] || v.past.calls[|v.past.calls| - 1].version < v.version
  }

  /** Not accepted for saving and not in the last save: then, and only then, no save was given it. */
  lemma NeverSentIff<S(!new)>(events: seq<Event<S>>)
    requires Run(events).Some? && Run(events).value.cache.Some?
    ensures var v := Run(events).value;
            NeverSent(v) <==> v.persisted < v.version && LastSaveOlder(v)
  {
    var v := Run(events).value;
    AlwaysOk(events);
    AlwaysSent(events);
    hide Run, LockOk, TurnsOk;
    SentUpToLast(v.past.calls, v.version, v.version);
    hide Sent;
  }

  /** An earlier account's failing creation comes while nothing is committed for the bound one. */
  lemma StaleCreationFindsAllSaved<S(!new)>(events: seq<Event<S>>, e: Event<S>)
    requires Run(events).Some? && Step(Run(events).value, e).Some? && StaleCreationFails(Run(events).value, e)
    ensures Run(events).value.persisted == Run(events).value.version
  {
    var v := Run(events).value;
    AlwaysOk(events);
    if e.TakeLock? {
      assert v.queue[0] in v.queue && v.queue[0].gen <= v.gen;
    }
    assert HeldBack(v);
  }

  /**
   What is lost for good, exactly: a reset, or an own creation that fails, loses the
   bound account's newest committed state if and only if it is not persisted and the
   last save sent was of an earlier version. Nothing else loses one.
   */
  lemma CommittedLostIff<S(!new)>(events: seq<Event<S>>, e: Event<S>)
    requires Run(events).Some? && Run(events).value.cache.Some? && Step(Run(events).value, e).Some?
    ensures var v := Run(events).value;
            && (LosesCommitted(v, e) <==> EndsHistory(v, e) && v.persisted < v.version && LastSaveOlder(v))
            && (LosesCommitted(v, e) ==> Unsendable(Step(v, e).value, v.version))
  {
    var v := Run(events).value;
    NeverSentIff(events);
    CacheDroppedIff(events, e);
    if StaleCreationFails(v, e) { StaleCreationFindsAllSaved(events, e); }
    DroppingSendsNothing(v, e);
    hide Run, Step, NeverSent, Unsendable, LastSaveOlder, OwnCreationFails, StaleCreationFails;
  }

  lemma DroppingSendsNothing<S>(v: Vars<S>, e: Event<S>)
    requires Step(v, e).Some? && v.cache.Some?
    ensures NeverSent(v) && Step(v, e).value.cache.None? ==> Unsendable(Step(v, e).value, v.version)
  {
    hide Sent, Extended, Covered, Uncovered;
  }

  /**
   An earlier account's refused save: the bound account loses its newest committed
   state exactly if it has one that is not persisted. The save in flight is from
   before the account was bound, so it cannot have carried it.
   */
  lemma StaleRefusalLosesIff<S(!new)>(events: seq<Event<S>>)
    requires Run(events).Some? && Run(events).value.saving.Some?
    requires Run(events).value.saving.value.version <= Run(events).value.past.baseline
    ensures var v := Run(events).value;
            LosesCommitted(v, SaveError(true)) <==> v.cache.Some? && v.persisted < v.version
  {
    AlwaysOk(events);
    AlwaysSent(events);
    if Run(events).value.cache.Some? { CommittedLostIff(events, SaveError(true)); }
    hide Run, Step, LockOk, TurnsOk, Sent;
  }

  /**
   A save of the first account is in flight when the user switches; the second
   account loads and commits, and an operation waits for that to be durable.
   */
  function SwitchDuringSave(): seq<Event<int>> {
    [] + [StartIdentity] + [IdentityLoaded(0, Some(10))] + [RequestLock(Update)] + [TakeLock] + [Commit(11)] + [ReleaseLock(true)]
    + [Reset] + [StartIdentity] + [IdentityLoaded(1, Some(20))] + [RequestLock(Update)] + [TakeLock] + [Commit(21)] + [Wait(4, 0)]
  }

  /** The first account's save is refused, and the second's committed, awaited state is gone. */
  lemma StaleRefusalLosesCommit()
    ensures Run(SwitchDuringSave()).Some?
    ensures var v := Run(SwitchDuringSave()).value;
            && v.saving == Some(Saving(2, 11, false)) && v.past.states == [20, 21] && v.cache == Some(21) && v.waiters == [Waiter(4, 0)]
            && LosesCommitted(v, SaveError(true)) && Step(v, SaveError(true)).value.waiters == []
  {
    FirstAccountSaves();
    SecondAccountCommits([] + [StartIdentity] + [IdentityLoaded(0, Some(10))] + [RequestLock(Update)] + [TakeLock] + [Commit(11)]);
    StaleRefusalLosesIff(SwitchDuringSave());
    hide Run;
  }

  function Bound(): Vars<int> {
    Bind(Initially().(identity := Loading), 10)
  }

  function Held(): Vars<int> {
    Bound().(holder := Some(Holder(0, Some(10), Update)))
  }

  lemma FirstAccountSaves()
    ensures var r := Run([] + [StartIdentity] + [IdentityLoaded(0, Some(10))] + [RequestLock(Update)] + [TakeLock] + [Commit(11)]);
            && r.Some? && r.value.gen == 0 && IsUpdate(r.value.holder) && r.value.queue == [] && r.value.version == 2
            && r.value.saving == Some(Saving(2, 11, false))
  {
    var e2 := [] + [StartIdentity] + [IdentityLoaded(0, Some(10))];
    FirstAccountLoads();
    BoundTakesLock();
    HeldCommits();
    hide Run, Step, Bound, Held;
    RunAppends(e2, RequestLock(Update));
    RunAppends(e2 + [RequestLock(Update)], TakeLock);
    RunAppends(e2 + [RequestLock(Update)] + [TakeLock], Commit(11));
  }

  lemma BoundTakesLock()
    ensures Step(Bound(), RequestLock(Update)) == Some(Bound().(queue := [Ticket(0, Update)]))
    ensures Step(Bound().(queue := [Ticket(0, Update)]), TakeLock) == Some(Held())
  {
    var queue: seq<Ticket> := [];
    assert queue + [Ticket(0, Update)] == [Ticket(0, Update)] && [Ticket(0, Update)][1..] == queue;
  }

  lemma HeldCommits()
    ensures var r := Step(Held(), Commit(11));
            && r.Some? && r.value.gen == 0 && IsUpdate(r.value.holder) && r.value.queue == [] && r.value.version == 2
            && r.value.saving == Some(Saving(2, 11, false))
  {
    hide Extended;
  }

  lemma FirstAccountLoads()
    ensures Run([] + [StartIdentity] + [IdentityLoaded(0, Some(10))]) == Some(Bound())
  {
    var e0: seq<Event<int>> := [];
    var loading := Initially<int>().(identity := Loading);
    assert Run(e0) == Some(Initially());
    assert Step(Initially<int>(), StartIdentity) == Some(loading) && Step(loading, IdentityLoaded(0, Some(10))) == Some(Bound());
    hide Run, Step, Bound;
    RunAppends(e0, StartIdentity);
    RunAppends(e0 + [StartIdentity], IdentityLoaded(0, Some(10)));
  }

  /** A second account is bound and takes the lock while the first one's save is in flight. */
  lemma SecondAccountBinds(events: seq<Event<int>>)
    requires Run(events).Some? && Run(events).value.gen == 0 && IsUpdate(Run(events).value.holder) && Run(events).value.queue == []
    requires Run(events).value.saving == Some(Saving(2, 11, false)) && Run(events).value.version == 2
    ensures var r := Run(events + [ReleaseLock(true)] + [Reset] + [StartIdentity] + [IdentityLoaded(1, Some(20))]);
            && r.Some? && r.value.gen == 1 && r.value.holder.None? && r.value.queue == []
            && r.value.saving == Some(Saving(2, 11, false)) && r.value.version == 3 == r.value.past.baseline
            && r.value.past.states == [20] && r.value.cache == Some(20) && r.value.waiters == [] && r.value.durable == r.value.persisted == 3
  {
    hide Run;
    RunAppends(events, ReleaseLock(true));
    RunAppends(events + [ReleaseLock(true)], Reset);
    RunAppends(events + [ReleaseLock(true)] + [Reset], StartIdentity);
    RunAppends(events + [ReleaseLock(true)] + [Reset] + [StartIdentity], IdentityLoaded(1, Some(20)));
  }

  lemma SecondAccountCommits(events: seq<Event<int>>)
    requires Run(events).Some? && Run(events).value.gen == 0 && IsUpdate(Run(events).value.holder) && Run(events).value.queue == []
    requires Run(events).value.saving == Some(Saving(2, 11, false)) && Run(events).value.version == 2
    ensures var r := Run(events + [ReleaseLock(true)] + [Reset] + [StartIdentity] + [IdentityLoaded(1, Some(20))]
                         + [RequestLock(Update)] + [TakeLock] + [Commit(21)] + [Wait(4, 0)]);
            && r.Some? && r.value.saving == Some(Saving(2, 11, false)) && r.value.past.baseline == 3
            && r.value.past.states == [20, 21] && r.value.cache == Some(21) && r.value.waiters == [Waiter(4, 0)]
            && r.value.version == 4 && r.value.persisted == 3
  {
    hide Run;
    SecondAccountBinds(events);
    var e := events + [ReleaseLock(true)] + [Reset] + [StartIdentity] + [IdentityLoaded(1, Some(20))];
    RunAppends(e, RequestLock(Update));
    RunAppends(e + [RequestLock(Update)], TakeLock);
    RunAppends(e + [RequestLock(Update)] + [TakeLock], Commit(21));
    RunAppends(e + [RequestLock(Update)] + [TakeLock] + [Commit(21)], Wait(4, 0));
  }

  // ---------------------------------------------------------------- the durable writer

  lemma {:induction false} OrderedNeverDecreases<S>(calls: seq<Saving<S>>, bound: nat, i: nat, j: nat)
    requires Ordered(calls, bound) && i <= j < |calls|
    ensures calls[i].version <= calls[j].version <= bound
  {
    var n := |calls| - 1;
    if j < n {
      OrderedNeverDecreases(calls[..n], calls[n].version, i, j);
    } else if i < j {
      OrderedNeverDecreases(calls[..n], calls[n].version, i, j - 1);
    }
  }

  /** Saves reach the store in version order. */
  lemma SavesNeverGoBack<S(!new)>(events: seq<Event<S>>, i: nat, j: nat)
    requires Run(events).Some? && i <= j < |Run(events).value.past.calls|
    ensures Run(events).value.past.calls[i].version <= Run(events).value.past.calls[j].version
  {
    AlwaysOk(events);
    OrderedNeverDecreases(Run(events).value.past.calls, Run(events).value.version, i, j);
  }

  /** A waiter resolves only once its version is on disk; the others keep waiting, none is dropped. */
  lemma ResolvedMeansOnDisk<S(!new)>(events: seq<Event<S>>, w: Waiter)
    requires Run(events).Some? && Run(events).value.saving.Some? && w in Run(events).value.waiters
    ensures var v := Run(events).value;
            && (w in Resolved(v) ==> OnDisk(Saved(v).past, w.version))
            && (w in Resolved(v) <==> w !in Saved(v).waiters)
  {
    var v := Run(events).value;
    AlwaysOk(events);
    CoveredExactly(v.waiters, Max(v.durable, v.saving.value.version));
    if w in Resolved(v) {
      assert v.saving.value.version in Saved(v).past.confirmed;
      assert w.version <= v.saving.value.version;
    }
  }

  /** waitDurable returns at once only for a version already on disk; otherwise it waits on a running writer. */
  lemma WaitNeverLies<S(!new)>(events: seq<Event<S>>, version: nat, id: nat)
    requires Run(events).Some? && Run(events).value.cache.Some? && version <= Run(events).value.version
    ensures var v := Run(events).value;
            var v' := WaitDurable(v, version, id);
            if v' == v then OnDisk(v.past, version)
            else v'.waiters == v.waiters + [Waiter(version, id)] && v'.saving.Some?
  {
    AlwaysOk(events);
    StepKeepsWriter(Run(events).value, Wait(version, id));
  }

  /** A failed save leaves nobody waiting; after a success an idle writer leaves nothing unsaved and nobody stranded. */
  lemma IdleMeansDone<S(!new)>(events: seq<Event<S>>, stale: bool)
    requires Run(events).Some?
    ensures var v := Run(events).value;
            && (v.saving.Some? ==> NotSaved(v, stale).waiters == [] && NotSaved(v, stale).saving.None?)
            && (v.saving.None? ==> v.waiters == [])
            && (v.saving.Some? && Saved(v).saving.None? && v.cache.Some? ==> Saved(v).persisted == v.version && Saved(v).waiters == [])
  {
    AlwaysOk(events);
    if Run(events).value.saving.Some? {
      SavedKeepsWriter(Run(events).value);
    }
  }

  // ---------------------------------------------------------------- the module variables

  /** Parts the waiters a durable version covers from the rest, each in order. */
  method SplitWaiters(waiters: seq<Waiter>, durable: nat) returns (ready: seq<Waiter>, waiting: seq<Waiter>)
    ensures ready == Covered(waiters, durable) && waiting == Uncovered(waiters, durable)
  {
    ready, waiting := [], [];
    var rest := waiters;
    while rest != []
      invariant Covered(waiters, durable) == ready + Covered(rest, durable)
      invariant Uncovered(waiters, durable) == waiting + Uncovered(rest, durable)
      decreases |rest|
    {
      if rest[0].version <= durable { ready := ready + [rest[0]]; } else { waiting := waiting + [rest[0]]; }
      rest := rest[1..];
    }
  }

  /** mlsSession.js's module variables. Each method is one stretch of code between awaits. */
  class Session<S(==)> {
    var deviceStateCache: Option<S>
    var stateVersion: nat
    var sessionGen: nat
    var lockHolderGen: nat
    var identity: Identity
    var persistedVersion: nat
    var durableVersion: nat
    var durableWanted: nat
    var durableWaiters: seq<Waiter>
    var saving: Option<Saving<S>>
    var queue: seq<Ticket>
    var holder: Option<Holder<S>>
    ghost var past: Past<S>

    constructor ()
      ensures View() == Initially()
    {
      deviceStateCache, saving, holder, identity := None, None, None, Unknown;
      stateVersion, sessionGen, lockHolderGen := 0, 0, 0;
      persistedVersion, durableVersion, durableWanted := 0, 0, 0;
      durableWaiters, queue := [], [];
      past := Past([], {}, 0, false, 0, [], []);
    }

    ghost function View(): Vars<S>
      reads this
    {
      Vars(deviceStateCache, stateVersion, sessionGen, lockHolderGen, identity, persistedVersion, durableVersion,
           durableWanted, durableWaiters, saving, queue, holder, past)
    }

    method RunWriter()
      requires saving.None?
      modifies this
      ensures View() == Push(old(View()))
    {
      var durable := durableWanted > durableVersion;
      if !durable && persistedVersion >= stateVersion { return; }
      if deviceStateCache.None? { return; }
      saving := Some(Saving(stateVersion, deviceStateCache.value, durable));
      past := past.(calls := past.calls + [saving.value]);
    }

    method SchedulePersist()
      modifies this
      ensures View() == Wake(old(View()))
    {
      if saving.None? {
        RunWriter();
      }
    }

    /** The next queued work takes the lock, or fails with MLS_ACCOUNT_SWITCHED. */
    method TakeTurn() returns (started: bool)
      requires queue != [] && holder.None?
      modifies this
      ensures View() == Turn(old(View()))
      ensures started == old(Admitted(View(), queue[0])) == holder.Some?
    {
      var t := queue[0];
      queue := queue[1..];
      if t.gen != sessionGen {
        if t.work.Create? { deviceStateCache := None; }
        return false;
      }
      lockHolderGen := t.gen;
      if t.work.Update? && deviceStateCache.None? { return false; }
      holder := Some(Holder(t.gen, deviceStateCache, t.work));
      started := true;
    }

    /** The lock work settles; a creation's own catch runs before the next turn. */
    method Release(ok: bool)
      requires MayRelease(View(), ok)
      modifies this
      ensures View() == Released(old(View()), ok)
    {
      var h := holder.value;
      holder := None;
      if h.work.Create? {
        if !ok { deviceStateCache := None; }
        if h.gen == sessionGen {
          identity := if ok then Ready else Unknown;
          if !ok { past := past.(start := stateVersion, states := [], bases := []); }
        }
      }
    }

    method Commit(state: S) returns (version: Option<nat>)
      requires holder.Some?
      modifies this
      ensures View() == CommitState(old(View()), state)
      ensures version == if old(MayCommit(View())) then Some(stateVersion) else None
    {
      if lockHolderGen != sessionGen { return None; }
      past := Extended(past, holder.value.base, state);
      deviceStateCache, stateVersion := Some(state), stateVersion + 1;
      holder := Some(holder.value.(base := deviceStateCache));
      SchedulePersist();
      version := Some(stateVersion);
    }

    method AdoptOwnCommit(planned: S) returns (version: Option<nat>)
      requires holder.Some? && holder.value.base.Some?
      modifies this
      ensures Some(View()) == Step(old(View()), AdoptOwn(old(holder.value.base.value), planned))
    {
      if deviceStateCache != holder.value.base { return None; }
      version := Commit(planned);
    }

    method WaitUntilDurable(version: nat, id: nat) returns (already: bool)
      modifies this
      ensures View() == WaitDurable(old(View()), version, id)
      ensures already <==> version <= old(durableVersion)
    {
      if durableVersion >= version { return true; }
      durableWaiters := durableWaiters + [Waiter(version, id)];
      if version > durableWanted { durableWanted := version; }
      SchedulePersist();
      already := false;
    }

    /** The save in flight succeeded; returns the waiters to resolve. */
    method SaveSucceeded() returns (ready: seq<Waiter>)
      requires saving.Some?
      modifies this
      ensures View() == Saved(old(View()))
      ensures ready == old(Resolved(View()))
    {
      var done := saving.value;
      saving, persistedVersion := None, Max(persistedVersion, done.version);
      past := past.(lastSaveFailed := false);
      ready := [];
      if done.durable {
        durableVersion := Max(durableVersion, done.version);
        past := past.(confirmed := past.confirmed + {done.version});
        ready, durableWaiters := SplitWaiters(durableWaiters, durableVersion);
      }
      RunWriter();
    }

    /** The save in flight failed; returns the waiters to reject. */
    method SaveFailed(staleAccount: bool) returns (failed: seq<Waiter>)
      requires saving.Some?
      modifies this
      ensures View() == NotSaved(old(View()), staleAccount)
      ensures failed == old(durableWaiters)
    {
      failed, durableWaiters, durableWanted, saving := durableWaiters, [], durableVersion, None;
      past := past.(lastSaveFailed := true);
      if staleAccount {
        var none := ResetForUser();
      }
    }

    method ResetForUser() returns (failed: seq<Waiter>)
      modifies this
      ensures View() == Forget(old(View()))
      ensures failed == old(durableWaiters)
    {
      sessionGen, deviceStateCache, identity := sessionGen + 1, None, Unknown;
      failed := DropQueuedWork();
    }

    /** Whatever the previous account still had queued for disk is not this one's. */
    method DropQueuedWork() returns (failed: seq<Waiter>)
      modifies `durableWaiters, `persistedVersion, `durableVersion, `durableWanted, `past
      ensures failed == old(durableWaiters) && durableWaiters == []
      ensures persistedVersion == durableVersion == durableWanted == stateVersion && past == Cleared(old(past), stateVersion)
    {
      failed, durableWaiters := durableWaiters, [];
      persistedVersion, durableVersion, durableWanted := stateVersion, stateVersion, stateVersion;
      past := Cleared(past, stateVersion);
    }

    /** initIdentity's load returned for the generation it was started in. */
    method LoadReturned(gen: nat, loaded: Option<S>) returns (bound: bool)
      requires gen < sessionGen || (gen == sessionGen && identity.Loading? && deviceStateCache.None?)
      modifies this
      ensures Some(View()) == AccountStep(old(View()), IdentityLoaded(gen, loaded))
      ensures bound <==> gen == sessionGen && loaded.Some?
    {
      hide Forget, Unbind;
      if gen != sessionGen { return false; }
      if loaded.None? {
        identity := Registering;
        return false;
      }
      identity, deviceStateCache, stateVersion := Ready, loaded, stateVersion + 1;
      persistedVersion, durableVersion := stateVersion, stateVersion;
      past := past.(baseline := stateVersion, start := stateVersion - 1, states := [loaded.value], bases := []);
      bound := true;
    }

    /** The fresh device is registered; its state goes through the lock, unless the account changed. */
    method RegistrationReturned(gen: nat)
      requires gen < sessionGen || (gen == sessionGen && identity.Registering?)
      modifies this
      ensures Some(View()) == AccountStep(old(View()), Registered(gen))
    {
      if gen == sessionGen {
        identity, queue := Creating, queue + [Ticket(sessionGen, Create)];
      }
    }
  }
}
