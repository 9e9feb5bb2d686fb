/**
 Who may write a device's state files (mls_store.rs, background_sync.rs): the
 webview that loaded an account, the background task between a hand-off and the
 next load, and the deferred flush. Every event runs under one mutex; every
 write may be cut where StateStore says, any file may be unreadable at a load,
 and the process may die and start again.
 */
module Ownership {
  import opened Wrappers
  import opened StateStore

  type User = string

  /** All accounts share one keyring key. */
  const KEY: Key := 0

  /** State bytes: the account their credential names, and the changes that led to them. */
  datatype Bytes = Bytes(owner: User, trail: seq<nat>)

  /** `b` was made from `a`. */
  predicate DescendsFrom(b: Bytes, a: Bytes) {
    b.owner == a.owner && a.trail <= b.trail
  }

  /** Bytes with the moment they were handed over; stamps only order the history. */
  datatype Stamped = Stamped(bytes: Bytes, stamp: nat)

  type Files = Disk<Stamped>

  datatype Deferred = Deferred(user: User, state: Stamped)

  /**
   The files of every account, with the stamp of its last acknowledged write as
   history.
   */
  datatype Store = Store(files: map<User, Files>, acked: map<User, nat>)

  /**
   The files with PENDING, JS_OWNER and FOREGROUND_ACTIVE. The rest is history:
   what the window last loaded or handed over, and a clock.
   */
  datatype Vars = Vars(store: Store, pending: Option<Deferred>, jsOwner: Option<User>, foreground: bool,
                       window: Option<Bytes>, clock: nat)

  /**
   `access` says which files a load can read; its `stat` is false when the load
   fails before it reads any, the keyring being out of reach for instance.
   ShowEngine is the developers' menu entry that shows the hidden main window.
   */
  datatype Event =
    | Load(user: User, flush: Reach, access: Access)
    | SaveDeferred(bytes: Bytes)
    | SaveDurable(bytes: Bytes, write: Reach)
    | Flush(flush: Reach)
    | HandOff(flush: Reach)
    | BackgroundDecrypt(user: User, flush: Reach, access: Access, change: nat, write: Reach)
    | ShowEngine
    | Restart

  const START := Vars(Store(map[], map[]), None, None, true, None, 1)

  const NO_FILES: Files := Disk(Absent, Absent, Absent)

  function FilesOf(store: Store, user: User): Files {
    if user in store.files then store.files[user] else NO_FILES
  }

  /** What a load of the account finds in the files it can read. */
  function Found(s: Vars, user: User, access: Access): Option<Stamped> {
    FirstReadable(Seen(FilesOf(s.store, user), access), KEY)
  }

  function Written(files: Files, state: Stamped, reach: Reach): Files {
    Write(files, Sealed(KEY, state), reach)
  }

  function WriteFile(s: Vars, user: User, state: Stamped, reach: Reach): Vars {
    s.(store := Store(s.store.files[user := Written(FilesOf(s.store, user), state, reach)],
                      if reach.Finished? then s.store.acked[user := state.stamp] else s.store.acked))
  }

  /** flush_pending_locked: a failed flush keeps the deferred state for the next attempt. */
  function Flushed(s: Vars, reach: Reach): Vars {
    match s.pending
    case None => s
    case Some(d) => WriteFile(s, d.user, d.state, reach).(pending := if reach.Finished? then None else s.pending)
  }

  /** mls_save_state's guards: the window owns an account, and the bytes are that account's. */
  predicate Accepts(s: Vars, bytes: Bytes) {
    s.foreground && s.jsOwner == Some(bytes.owner)
  }

  function Deferring(s: Vars, bytes: Bytes): Vars {
    if !Accepts(s, bytes) then s
    else s.(pending := Some(Deferred(bytes.owner, Stamped(bytes, s.clock))), window := Some(bytes), clock := s.clock + 1)
  }

  function SavingNow(s: Vars, bytes: Bytes, reach: Reach): Vars {
    if !Accepts(s, bytes) then s
    else
      var state := Stamped(bytes, s.clock);
      WriteFile(s, bytes.owner, state, reach).(
        pending := if reach.Finished? then None else Some(Deferred(bytes.owner, state)),
        window := Some(bytes), clock := s.clock + 1)
  }

  /** A load succeeds with a state, or with nothing where nothing was ever committed. */
  predicate Loads(s: Vars, user: User, access: Access) {
    access.stat && (Found(s, user, access).Some? || !Committed(FilesOf(s.store, user)))
  }

  function LoadedBytes(s: Vars, user: User, access: Access): Bytes {
    if Found(s, user, access).Some? then Found(s, user, access).value.bytes else Bytes(user, [])
  }

  /** mls_load_state: a load that fails claims nothing. */
  function Loading(s: Vars, user: User, flush: Reach, access: Access): Vars {
    var flushed := Flushed(s, flush);
    if !Loads(flushed, user, access) then flushed
    else flushed.(jsOwner := Some(user), foreground := true, window := Some(LoadedBytes(flushed, user, access)))
  }

  function HandingOff(s: Vars, flush: Reach): Vars {
    Flushed(s, flush).(jsOwner := None, foreground := false, window := None)
  }

  /** The decrypted message's state, made from what was loaded. */
  function Decrypted(loaded: Stamped, change: nat, clock: nat): Stamped {
    Stamped(loaded.bytes.(trail := loaded.bytes.trail + [change]), clock)
  }

  /** The decrypt and the save: a deferred state of the account is dropped first, it is what was flushed before the load. */
  function DecryptSaved(s: Vars, user: User, loaded: Stamped, change: nat, write: Reach): Vars {
    WriteFile(s, user, Decrypted(loaded, change, s.clock), write).(
      pending := if s.pending.Some? && s.pending.value.user == user then None else s.pending, clock := s.clock + 1)
  }

  /**
   decrypt_and_cache: load, decrypt (which keeps the credential), save, all while background owns the files.
   A message that does not decrypt counts as a load that fails; the flush has happened by then.
   */
  function BackgroundDecrypting(s: Vars, user: User, flush: Reach, access: Access, change: nat, write: Reach): Vars {
    if s.foreground then s
    else
      var flushed := Flushed(s, flush);
      if !access.stat || Found(flushed, user, access).None? then flushed
      else DecryptSaved(flushed, user, Found(flushed, user, access).value, change, write)
  }

  /** The process dies and starts again: the files stay, the statics are as at the start. */
  function Restarted(s: Vars): Vars {
    s.(pending := None, jsOwner := None, foreground := true, window := None)
  }

  function Step(s: Vars, e: Event): Vars {
    match e
    case Load(user, flush, access) => Loading(s, user, flush, access)
    case SaveDeferred(bytes) => Deferring(s, bytes)
    case SaveDurable(bytes, write) => SavingNow(s, bytes, write)
    case Flush(flush) => Flushed(s, flush)
    case HandOff(flush) => HandingOff(s, flush)
    case BackgroundDecrypt(user, flush, access, change, write) =>
      BackgroundDecrypting(s, user, flush, access, change, write)
    case ShowEngine => s.(foreground := true)
    case Restart => Restarted(s)
  }

  function Run(events: seq<Event>): Vars {
    if events == [] then START else Step(Run(events[..|events| - 1]), events[|events| - 1])
  }

  // ---------------------------------------------------------------- the invariant

  function StampOf(f: File<Stamped>): nat {
    if f.Sealed? then f.value.stamp else 0
  }

  ghost predicate FileOk(f: File<Stamped>, user: User, newest: nat) {
    f.Sealed? ==> f.key == KEY && f.value.bytes.owner == user && f.value.stamp <= newest
  }

  /** Every file that opens is the account's and no newer than `newest`; main is whole, and there before bak. */
  ghost predicate FilesOk(files: Files, user: User, newest: nat) {
    && FileOk(files.main, user, newest) && FileOk(files.tmp, user, newest) && FileOk(files.bak, user, newest)
    && !files.main.Torn? && (files.main.Absent? ==> files.bak.Absent?)
  }

  /** However the next write is cut, a load finds nothing older than `floor`. */
  ghost predicate AtLeast(files: Files, floor: nat) {
    Protected(files, KEY, x => NoOlder(x, floor))
  }

  predicate NoOlder(x: Stamped, floor: nat) {
    x.stamp >= floor
  }

  ghost predicate DiskOk(store: Store, clock: nat) {
    && clock > 0
    && (forall u :: FilesOk(FilesOf(store, u), u, clock - 1))
    && (forall u | u in store.acked :: AtLeast(FilesOf(store, u), store.acked[u]) && store.acked[u] < clock)
  }

  ghost predicate PendingOk(store: Store, clock: nat, d: Deferred) {
    && d.state.bytes.owner == d.user && d.state.stamp < clock
    && FilesOk(FilesOf(store, d.user), d.user, d.state.stamp)
    && (d.user in store.acked ==> store.acked[d.user] <= d.state.stamp)
  }

  ghost predicate Ok(s: Vars) {
    && (s.jsOwner.Some? ==> s.foreground)
    && DiskOk(s.store, s.clock)
    && (s.pending.Some? ==> PendingOk(s.store, s.clock, s.pending.value))
  }

  /** From one store to the next, no account's main file and no acknowledgement goes back. */
  ghost predicate OnlyNewer(a: Store, b: Store) {
    forall u :: NeverBack(a, b, u)
  }

  ghost predicate NeverBack(a: Store, b: Store, user: User) {
    && StampOf(FilesOf(a, user).main) <= StampOf(FilesOf(b, user).main)
    && (user in a.acked ==> user in b.acked && a.acked[user] <= b.acked[user])
  }

  lemma OnlyNewerTransitive(a: Store, b: Store, c: Store)
    requires OnlyNewer(a, b) && OnlyNewer(b, c)
    ensures OnlyNewer(a, c)
  {
    forall u ensures NeverBack(a, c, u) {
      assert NeverBack(a, b, u) && NeverBack(b, c, u);
    }
  }

  lemma WriteKeepsFiles(files: Files, user: User, state: Stamped, reach: Reach)
    requires FilesOk(files, user, state.stamp) && state.bytes.owner == user
    ensures FilesOk(Written(files, state, reach), user, state.stamp)
    ensures StampOf(files.main) <= StampOf(Written(files, state, reach).main)
    ensures reach.Finished? ==> AtLeast(Written(files, state, reach), state.stamp)
  {
  }

  lemma WriteKeepsFloor(files: Files, state: Stamped, reach: Reach, floor: nat)
    requires AtLeast(files, floor) && floor <= state.stamp
    ensures AtLeast(Written(files, state, reach), floor)
  {
    WriteKeepsProtection(files, KEY, state, reach, x => NoOlder(x, floor));
  }

  lemma OlderFilesOk(files: Files, user: User, newest: nat, newer: nat)
    requires FilesOk(files, user, newest) && newest <= newer
    ensures FilesOk(files, user, newer)
  {
  }

  /** A state that is newer than everything the account has, with the clock past it. */
  ghost predicate Newest(s: Vars, user: User, state: Stamped) {
    && state.bytes.owner == user && FilesOk(FilesOf(s.store, user), user, state.stamp)
    && (user in s.store.acked ==> s.store.acked[user] <= state.stamp)
  }

  lemma WriteKeepsDisk(s: Vars, user: User, state: Stamped, reach: Reach, clock: nat)
    requires DiskOk(s.store, s.clock) && Newest(s, user, state) && state.stamp < clock && s.clock <= clock
    ensures var after := WriteFile(s, user, state, reach);
            DiskOk(after.store, clock) && OnlyNewer(s.store, after.store) && Newest(after, user, state)
  {
    var files, after := FilesOf(s.store, user), WriteFile(s, user, state, reach);
    WriteKeepsFiles(files, user, state, reach);
    if user in s.store.acked { WriteKeepsFloor(files, state, reach, s.store.acked[user]); }
    hide FilesOk, AtLeast, Written;
    forall u ensures FilesOk(FilesOf(after.store, u), u, clock - 1) && NeverBack(s.store, after.store, u) {
      assert FilesOk(FilesOf(s.store, u), u, s.clock - 1);
      OlderFilesOk(FilesOf(after.store, u), u, if u == user then state.stamp else s.clock - 1, clock - 1);
    }
  }

  /** Writing such a state keeps everything in order. */
  lemma WriteKeepsOk(s: Vars, user: User, state: Stamped, reach: Reach, pending: Option<Deferred>, clock: nat)
    requires Ok(s) && Newest(s, user, state) && state.stamp < clock && s.clock <= clock
    requires pending in {None, Some(Deferred(user, state))} || (pending == s.pending && (pending.Some? ==> pending.value.user != user))
    ensures var after := WriteFile(s, user, state, reach).(pending := pending, clock := clock);
            Ok(after) && OnlyNewer(s.store, after.store)
  {
    WriteKeepsDisk(s, user, state, reach, clock);
    var after := WriteFile(s, user, state, reach).(pending := pending, clock := clock);
    hide FilesOk, AtLeast, Written, DiskOk;
  }

  lemma FlushKeepsOk(s: Vars, reach: Reach)
    requires Ok(s)
    ensures Ok(Flushed(s, reach)) && OnlyNewer(s.store, Flushed(s, reach).store)
  {
    if s.pending.Some? {
      var d := s.pending.value;
      WriteKeepsOk(s, d.user, d.state, reach, if reach.Finished? then None else s.pending, s.clock);
    }
  }

  lemma SaveKeepsOk(s: Vars, bytes: Bytes, reach: Reach)
    requires Ok(s)
    ensures Ok(SavingNow(s, bytes, reach)) && OnlyNewer(s.store, SavingNow(s, bytes, reach).store)
  {
    if Accepts(s, bytes) {
      var state := Stamped(bytes, s.clock);
      OlderFilesOk(FilesOf(s.store, bytes.owner), bytes.owner, s.clock - 1, s.clock);
      hide FilesOk, AtLeast, WriteFile;
      WriteKeepsOk(s, bytes.owner, state, reach, if reach.Finished? then None else Some(Deferred(bytes.owner, state)), s.clock + 1);
    }
  }

  lemma DeferringKeepsOk(s: Vars, bytes: Bytes)
    requires Ok(s)
    ensures Ok(Deferring(s, bytes)) && OnlyNewer(s.store, Deferring(s, bytes).store)
  {
    if Accepts(s, bytes) {
      forall u ensures FilesOk(FilesOf(s.store, u), u, s.clock) {
        OlderFilesOk(FilesOf(s.store, u), u, s.clock - 1, s.clock);
      }
      hide FilesOk, AtLeast;
    }
  }

  lemma BackgroundKeepsOk(s: Vars, user: User, flush: Reach, access: Access, change: nat, write: Reach)
    requires Ok(s)
    ensures var after := BackgroundDecrypting(s, user, flush, access, change, write);
            Ok(after) && OnlyNewer(s.store, after.store)
  {
    if !s.foreground {
      FlushKeepsOk(s, flush);
      hide Ok, Flushed, DecryptSaved, OnlyNewer, Found;
      var flushed := Flushed(s, flush);
      if access.stat && Found(flushed, user, access).Some? {
        DecryptKeepsOk(flushed, user, access, change, write);
        OnlyNewerTransitive(s.store, flushed.store, DecryptSaved(flushed, user, Found(flushed, user, access).value, change, write).store);
      }
    }
  }

  lemma DecryptKeepsOk(s: Vars, user: User, access: Access, change: nat, write: Reach)
    requires Ok(s) && Found(s, user, access).Some?
    ensures var after := DecryptSaved(s, user, Found(s, user, access).value, change, write);
            Ok(after) && OnlyNewer(s.store, after.store)
  {
    var loaded, files := Found(s, user, access).value, FilesOf(s.store, user);
    assert FilesOk(files, user, s.clock - 1);
    assert loaded.bytes.owner == user;
    OlderFilesOk(files, user, s.clock - 1, s.clock);
    hide FilesOk, AtLeast, WriteFile, Found, FilesOf;
    var dropped := s.pending.Some? && s.pending.value.user == user;
    WriteKeepsOk(s, user, Decrypted(loaded, change, s.clock), write, if dropped then None else s.pending, s.clock + 1);
  }

  lemma StepKeepsOk(s: Vars, e: Event)
    requires Ok(s)
    ensures Ok(Step(s, e)) && OnlyNewer(s.store, Step(s, e).store)
  {
    hide Flushed, SavingNow, Deferring, BackgroundDecrypting, FilesOk, AtLeast, Loads, LoadedBytes;
    match e
    case Load(_, flush, _) => FlushKeepsOk(s, flush);
    case SaveDeferred(bytes) => DeferringKeepsOk(s, bytes);
    case SaveDurable(bytes, write) => SaveKeepsOk(s, bytes, write);
    case Flush(flush) => FlushKeepsOk(s, flush);
    case HandOff(flush) => FlushKeepsOk(s, flush);
    case BackgroundDecrypt(user, flush, access, change, write) =>
      BackgroundKeepsOk(s, user, flush, access, change, write);
    case ShowEngine =>
    case Restart =>
  }

  lemma {:induction false} AlwaysOk(events: seq<Event>)
    ensures Ok(Run(events))
  {
    if events != [] {
      AlwaysOk(events[..|events| - 1]);
      StepKeepsOk(Run(events[..|events| - 1]), events[|events| - 1]);
    }
  }

  ghost predicate Names(f: File<Stamped>, user: User) {
    f.Sealed? ==> f.value.bytes.owner == user
  }

  /** Bytes in an account's directory, in any of its files, and bytes waiting to be flushed there, name that account. */
  lemma FilesNameTheirAccount(events: seq<Event>, user: User)
    ensures var s := Run(events);
            && Names(FilesOf(s.store, user).main, user) && Names(FilesOf(s.store, user).tmp, user) && Names(FilesOf(s.store, user).bak, user)
            && (s.pending.Some? ==> s.pending.value.state.bytes.owner == s.pending.value.user)
  {
    AlwaysOk(events);
    assert FilesOk(FilesOf(Run(events).store, user), user, Run(events).clock - 1);
  }

  /** A deferred state is never older than anything in its account's directory: a flush replaces nothing newer. */
  lemma FlushReplacesNothingNewer(events: seq<Event>)
    requires Run(events).pending.Some?
    ensures var d := Run(events).pending.value;
            var files := FilesOf(Run(events).store, d.user);
            StampOf(files.main) <= d.state.stamp && StampOf(files.tmp) <= d.state.stamp && StampOf(files.bak) <= d.state.stamp
  {
    AlwaysOk(events);
  }

  lemma {:induction false} StoreOnlyNewer(events: seq<Event>, i: nat)
    requires i <= |events|
    ensures OnlyNewer(Run(events[..i]).store, Run(events).store)
  {
    if i == |events| {
      assert events[..i] == events;
    } else {
      var before := events[..|events| - 1];
      assert before[..i] == events[..i];
      StoreOnlyNewer(before, i);
      AlwaysOk(before);
      StepKeepsOk(Run(before), events[|events| - 1]);
      hide Step, OnlyNewer, Ok;
      OnlyNewerTransitive(Run(events[..i]).store, Run(before).store, Run(events).store);
    }
  }

  /**
   No event, the death of the process included, puts older bytes over newer ones in
   main; and once a write has been acknowledged, a later load finds nothing older
   than it if and only if it reads main or an opening tmp, or the backup it falls
   back to is not older.
   */
  lemma FilesNeverGoBack(events: seq<Event>, i: nat, user: User, access: Access)
    requires i <= |events|
    ensures var then0, now := Run(events[..i]), Run(events);
            var files, found := FilesOf(now.store, user), Found(now, user, access);
            && StampOf(FilesOf(then0.store, user).main) <= StampOf(files.main)
            && (user in then0.store.acked ==>
                  && ((found.Some? ==> found.value.stamp >= then0.store.acked[user])
                      <==> NewestRead(files, KEY, access)
                           || (access.bak && Opens(files.bak, KEY) ==> files.bak.value.stamp >= then0.store.acked[user]))
                  && (NewestRead(files, KEY, access) ==> found.Some?))
  {
    StoreOnlyNewer(events, i);
    AlwaysOk(events);
    hide Run;
    var then0, now := Run(events[..i]), Run(events);
    assert NeverBack(then0.store, now.store, user);
    if user in then0.store.acked {
      var floor := then0.store.acked[user];
      assert AtLeast(FilesOf(now.store, user), now.store.acked[user]);
      assert Protected(FilesOf(now.store, user), KEY, x => NoOlder(x, floor));
      ReadAcceptableIff(FilesOf(now.store, user), KEY, access, x => NoOlder(x, floor));
    }
  }

  // ---------------------------------------------------------------- who may write

  /** Event `k` is a load that succeeds. */
  predicate LoadsAt(events: seq<Event>, k: nat)
    requires k < |events|
  {
    events[k].Load? && Loads(Flushed(Run(events[..k]), events[k].flush), events[k].user, events[k].access)
  }

  /** The engine window shown by its developers' menu entry, or a new process. */
  predicate BringsBack(e: Event) {
    e.ShowEngine? || e.Restart?
  }

  /** A hand-off, or the death of the window's process. */
  predicate EndsWindow(e: Event) {
    e.HandOff? || e.Restart?
  }

  /** Since its last hand-off, nothing has brought the window back. */
  ghost predicate BackgroundOwns(events: seq<Event>) {
    exists j :: 0 <= j < |events| && events[j].HandOff?
                && forall k | j < k < |events| :: !LoadsAt(events, k) && !BringsBack(events[k])
  }

  /** Event `j` loaded this account, and no load, hand-off or restart followed it. */
  ghost predicate OwnsSince(events: seq<Event>, user: User, j: nat) {
    && j < |events| && LoadsAt(events, j) && events[j].user == user
    && forall k | j < k < |events| :: !LoadsAt(events, k) && !EndsWindow(events[k])
  }

  /** The last load was this account's, and no hand-off or restart followed it. */
  ghost predicate WindowOwns(events: seq<Event>, user: User) {
    exists j :: OwnsSince(events, user, j)
  }

  lemma LoadsAtKept(events: seq<Event>, e: Event, k: nat)
    requires k < |events|
    ensures LoadsAt(events + [e], k) <==> LoadsAt(events, k)
  {
    assert (events + [e])[..k] == events[..k];
  }

  lemma LoadsAtEnd(events: seq<Event>, e: Event)
    ensures LoadsAt(events + [e], |events|)
            <==> e.Load? && Loads(Flushed(Run(events), e.flush), e.user, e.access)
  {
    assert (events + [e])[..|events|] == events;
  }

  lemma BackgroundOwnsStep(events: seq<Event>, e: Event)
    ensures BackgroundOwns(events + [e])
            <==> e.HandOff? || (BackgroundOwns(events) && !LoadsAt(events + [e], |events|) && !BringsBack(e))
  {
    var all, n := events + [e], |events|;
    forall k | 0 <= k < n ensures LoadsAt(all, k) == LoadsAt(events, k) { LoadsAtKept(events, e, k); }
    hide LoadsAt;
    if e.HandOff? {
      assert all[n].HandOff?;
    }
    if BackgroundOwns(events) && !LoadsAt(all, n) && !BringsBack(e) {
      var j :| 0 <= j < n && events[j].HandOff?
               && forall k | j < k < n :: !LoadsAt(events, k) && !BringsBack(events[k]);
      assert all[j].HandOff? && forall k | j < k <= n :: all[k] == if k < n then events[k] else e;
    }
    if BackgroundOwns(all) && !e.HandOff? {
      var j :| 0 <= j <= n && all[j].HandOff? && forall k | j < k <= n :: !LoadsAt(all, k) && !BringsBack(all[k]);
      assert all[n] == e && j < n;
      assert events[j].HandOff? && forall k | j < k < n :: events[k] == all[k];
    }
  }

  /** Up to the last event, two histories agree on who loaded and who handed off. */
  lemma HistoryKept(events: seq<Event>, e: Event)
    ensures forall k | 0 <= k < |events| :: (events + [e])[k] == events[k] && LoadsAt(events + [e], k) == LoadsAt(events, k)
  {
    forall k | 0 <= k < |events| ensures LoadsAt(events + [e], k) == LoadsAt(events, k) { LoadsAtKept(events, e, k); }
  }

  lemma OwnsSinceKept(events: seq<Event>, e: Event, user: User, j: nat)
    requires !LoadsAt(events + [e], |events|)
    ensures OwnsSince(events + [e], user, j) <==> OwnsSince(events, user, j) && !EndsWindow(e)
  {
    HistoryKept(events, e);
    assert (events + [e])[|events|] == e;
    hide LoadsAt;
  }

  lemma OwnsSinceLoad(events: seq<Event>, e: Event, user: User, j: nat)
    requires LoadsAt(events + [e], |events|)
    ensures OwnsSince(events + [e], user, j) <==> j == |events| && e.user == user
  {
    assert (events + [e])[|events|] == e;
    hide Loads, Flushed, Run;
  }

  lemma WindowOwnsStep(events: seq<Event>, e: Event, user: User)
    ensures WindowOwns(events + [e], user)
            <==> if LoadsAt(events + [e], |events|) then e.user == user else WindowOwns(events, user) && !EndsWindow(e)
  {
    forall j: nat
      ensures OwnsSince(events + [e], user, j)
              <==> if LoadsAt(events + [e], |events|) then j == |events| && e.user == user
                   else OwnsSince(events, user, j) && !EndsWindow(e)
    {
      if LoadsAt(events + [e], |events|) { OwnsSinceLoad(events, e, user, j); } else { OwnsSinceKept(events, e, user, j); }
    }
    hide OwnsSince, LoadsAt;
    assert WindowOwns(events + [e], user) ==> exists j: nat :: OwnsSince(events + [e], user, j);
    if LoadsAt(events + [e], |events|) && e.user == user { assert OwnsSince(events + [e], user, |events|); }
  }

  predicate LoadSucceeds(s: Vars, e: Event) {
    e.Load? && Loads(Flushed(s, e.flush), e.user, e.access)
  }

  lemma FlagsAfterStep(s: Vars, e: Event)
    ensures Step(s, e).foreground <==> if e.HandOff? then false else s.foreground || LoadSucceeds(s, e) || BringsBack(e)
    ensures Step(s, e).jsOwner == if EndsWindow(e) then None else if LoadSucceeds(s, e) then Some(e.user) else s.jsOwner
  {
  }

  /** The flags say exactly who owns the files. */
  lemma {:induction false} FlagsTellOwner(events: seq<Event>)
    ensures !Run(events).foreground <==> BackgroundOwns(events)
    ensures forall user :: Run(events).jsOwner == Some(user) <==> WindowOwns(events, user)
  {
    if events != [] {
      var before, e := events[..|events| - 1], events[|events| - 1];
      assert events == before + [e];
      FlagsTellOwner(before);
      LoadsAtEnd(before, e);
      FlagsAfterStep(Run(before), e);
      BackgroundOwnsStep(before, e);
      hide LoadsAt, BackgroundOwns, WindowOwns, Step, Loads, Flushed;
      forall user ensures Run(events).jsOwner == Some(user) <==> WindowOwns(events, user) {
        WindowOwnsStep(before, e, user);
      }
    }
  }

  /**
   The background task changes an account's file only between a hand-off and the
   next load, reopened engine or restart; a save from the webview is accepted
   exactly between a load of the account its bytes name and the next load,
   hand-off or restart.
   */
  lemma WritersTakeTurns(events: seq<Event>, e: Event, bytes: Bytes)
    ensures e.BackgroundDecrypt? && Step(Run(events), e) != Run(events) ==> BackgroundOwns(events)
    ensures Accepts(Run(events), bytes) <==> WindowOwns(events, bytes.owner)
    ensures !(BackgroundOwns(events) && WindowOwns(events, bytes.owner))
  {
    FlagsTellOwner(events);
    AlwaysOk(events);
    hide Run, BackgroundOwns, WindowOwns;
  }

  // ---------------------------------------------------------------- deferred states

  /** A load finds a state made from `a`. */
  predicate Finds(files: Files, a: Bytes) {
    FirstReadable(files, KEY).Some? && DescendsFrom(FirstReadable(files, KEY).value.bytes, a)
  }

  /** The deferred state is not lost: a load of its account, or a deferred state of its account, descends from it. */
  predicate Survives(s: Vars, d: Deferred) {
    || Finds(FilesOf(s.store, d.user), d.state.bytes)
    || (s.pending.Some? && s.pending.value.user == d.user && DescendsFrom(s.pending.value.state.bytes, d.state.bytes))
  }

  /** Whether a load finds a descendant of `a` once a write of `x` was cut at `reach`. */
  predicate FindsAfter(files: Files, x: Bytes, reach: Reach, a: Bytes) {
    match reach
    case NotStarted => Finds(files, a)
    case TmpCreated => Finds(files.(tmp := Absent), a)
    case _ => DescendsFrom(x, a)
  }

  lemma WriteFinds(files: Files, state: Stamped, reach: Reach, a: Bytes)
    ensures Finds(Written(files, state, reach), a) <==> FindsAfter(files, state.bytes, reach, a)
  {
  }

  /**
   When an event loses the deferred state. An accepted save that was not made
   from it takes its place, unless its account's files hold it already; or the
   background task decrypts in its account, and what it loads and writes then was
   not made from it; or the process dies before a flush got it into the files.
   */
  predicate LosesDeferred(s: Vars, e: Event)
    requires s.pending.Some?
  {
    var user, a := s.pending.value.user, s.pending.value.state.bytes;
    var files := FilesOf(s.store, user);
    match e
    case SaveDeferred(bytes) => Accepts(s, bytes) && !DescendsFrom(bytes, a) && !Finds(files, a)
    case SaveDurable(bytes, write) =>
      Accepts(s, bytes) && !DescendsFrom(bytes, a)
      && !(if bytes.owner == user then FindsAfter(files, bytes, write, a) else Finds(files, a))
    case BackgroundDecrypt(of, flush, access, change, write) =>
      var flushed := Written(files, s.pending.value.state, flush);
      var loaded := FirstReadable(Seen(flushed, access), KEY);
      && !s.foreground && of == user && access.stat && loaded.Some?
      && !(flush.Finished? && NewestRead(flushed, KEY, access))
      && !FindsAfter(flushed, Decrypted(loaded.value, change, s.clock).bytes, write, a)
    case Restart => !Finds(files, a)
    case _ => false
  }

  lemma FlushSurvives(s: Vars, reach: Reach)
    requires s.pending.Some?
    ensures Survives(Flushed(s, reach), s.pending.value)
    ensures reach.Finished? ==> Finds(FilesOf(Flushed(s, reach).store, s.pending.value.user), s.pending.value.state.bytes)
  {
    WriteFinds(FilesOf(s.store, s.pending.value.user), s.pending.value.state, reach, s.pending.value.state.bytes);
  }

  lemma SaveSurvivesIff(s: Vars, bytes: Bytes, write: Reach)
    requires Ok(s) && s.pending.Some?
    ensures Survives(SavingNow(s, bytes, write), s.pending.value) <==> !LosesDeferred(s, SaveDurable(bytes, write))
    ensures Survives(Deferring(s, bytes), s.pending.value) <==> !LosesDeferred(s, SaveDeferred(bytes))
  {
    var d := s.pending.value;
    assert d.state.bytes.owner == d.user;
    WriteFinds(FilesOf(s.store, bytes.owner), Stamped(bytes, s.clock), write, d.state.bytes);
    hide Ok, Finds, Written;
  }

  lemma BackgroundSurvivesIff(s: Vars, user: User, flush: Reach, access: Access, change: nat, write: Reach)
    requires Ok(s) && s.pending.Some?
    ensures Survives(BackgroundDecrypting(s, user, flush, access, change, write), s.pending.value)
            <==> !LosesDeferred(s, BackgroundDecrypt(user, flush, access, change, write))
  {
    var d := s.pending.value;
    FlushSurvives(s, flush);
    var flushed := Flushed(s, flush);
    var files := FilesOf(flushed.store, d.user);
    assert files == Written(FilesOf(s.store, d.user), d.state, flush);
    if !s.foreground && access.stat && Found(flushed, user, access).Some? && user == d.user {
      var loaded := Found(flushed, user, access).value;
      var state := Decrypted(loaded, change, s.clock);
      WriteFinds(files, state, write, d.state.bytes);
      if flush.Finished? && NewestRead(files, KEY, access) {
        assert files.tmp.Absent? && loaded == d.state;
        assert DescendsFrom(state.bytes, d.state.bytes);
      }
      hide Ok, Finds, Written, Flushed;
    }
  }

  /** The exact fate of a deferred state in any one event. */
  lemma DeferredSurvivesIff(s: Vars, e: Event)
    requires Ok(s) && s.pending.Some?
    ensures Survives(Step(s, e), s.pending.value) <==> !LosesDeferred(s, e)
  {
    match e
    case Load(_, flush, _) => FlushSurvives(s, flush);
    case SaveDeferred(bytes) => SaveSurvivesIff(s, bytes, NotStarted);
    case SaveDurable(bytes, write) => SaveSurvivesIff(s, bytes, write);
    case Flush(flush) => FlushSurvives(s, flush);
    case HandOff(flush) => FlushSurvives(s, flush);
    case BackgroundDecrypt(user, flush, access, change, write) =>
      BackgroundSurvivesIff(s, user, flush, access, change, write);
    case ShowEngine =>
    case Restart =>
  }

  // ---------------------------------------------------------------- clean runs

  /** The load, made after a flush, reads main or an opening tmp of the account. */
  predicate ReadsNewest(s: Vars, user: User, flush: Reach, access: Access) {
    NewestRead(FilesOf(Flushed(s, flush).store, user), KEY, access)
  }

  /**
   A clean event: what changes hands is flushed first, loads read the newest file, a
   save is made from what the window last loaded or saved, and the process ends with
   nothing deferred. Other writes may fail.
   */
  predicate Clean(s: Vars, e: Event) {
    match e
    case Load(user, flush, access) => (s.pending.Some? ==> flush.Finished?) && ReadsNewest(s, user, flush, access)
    case HandOff(flush) => s.pending.Some? ==> flush.Finished?
    case BackgroundDecrypt(user, flush, access, _, _) =>
      !s.foreground ==> (s.pending.Some? ==> flush.Finished?) && ReadsNewest(s, user, flush, access)
    case SaveDeferred(bytes) => Accepts(s, bytes) && s.window.Some? ==> DescendsFrom(bytes, s.window.value)
    case SaveDurable(bytes, _) => Accepts(s, bytes) && s.window.Some? ==> DescendsFrom(bytes, s.window.value)
    case Restart => s.pending.None?
    case _ => true
  }

  predicate AllClean(events: seq<Event>) {
    events != [] ==>
      AllClean(events[..|events| - 1]) && Clean(Run(events[..|events| - 1]), events[|events| - 1])
  }

  /** The window that owns this account went on from `a`. */
  predicate WindowFrom(s: Vars, user: User, a: Bytes) {
    s.jsOwner == Some(user) ==> s.window.Some? && DescendsFrom(s.window.value, a)
  }

  predicate PendingFrom(s: Vars, user: User, a: Bytes) {
    s.pending.Some? && s.pending.value.user == user ==> DescendsFrom(s.pending.value.state.bytes, a)
  }

  predicate MadeFrom(x: Stamped, a: Bytes) {
    DescendsFrom(x.bytes, a)
  }

  /** main and any opening tmp were made from `a`. */
  ghost predicate FilesFrom(files: Files, a: Bytes) {
    Protected(files, KEY, x => MadeFrom(x, a))
  }

  /**
   The deferred state `d` goes on: it, or what its window made of it, is still
   deferred; or the account's files were made from it. Whoever writes next goes on
   from it.
   */
  ghost predicate GoesOn(s: Vars, d: Deferred) {
    && WindowFrom(s, d.user, d.state.bytes) && PendingFrom(s, d.user, d.state.bytes)
    && ((s.pending.Some? && s.pending.value.user == d.user && s.jsOwner == Some(d.user))
        || FilesFrom(FilesOf(s.store, d.user), d.state.bytes))
  }

  lemma WriteKeepsFilesFrom(files: Files, state: Stamped, reach: Reach, a: Bytes)
    requires FilesFrom(files, a) && MadeFrom(state, a)
    ensures FilesFrom(Written(files, state, reach), a)
  {
    WriteKeepsProtection(files, KEY, state, reach, x => MadeFrom(x, a));
  }

  lemma FinishedWriteFrom(files: Files, state: Stamped, reach: Reach, a: Bytes)
    requires reach.Finished? && MadeFrom(state, a)
    ensures FilesFrom(Written(files, state, reach), a)
  {
  }

  lemma FlushGoesOn(s: Vars, flush: Reach, d: Deferred)
    requires GoesOn(s, d)
    ensures GoesOn(Flushed(s, flush), d)
    ensures (s.pending.Some? ==> flush.Finished?) ==> FilesFrom(FilesOf(Flushed(s, flush).store, d.user), d.state.bytes)
  {
    var a := d.state.bytes;
    if s.pending.Some? && s.pending.value.user == d.user {
      var files, state := FilesOf(s.store, d.user), s.pending.value.state;
      if flush.Finished? { FinishedWriteFrom(files, state, flush, a); }
      if FilesFrom(files, a) { WriteKeepsFilesFrom(files, state, flush, a); }
    }
    hide FilesFrom, DescendsFrom, Written;
  }

  lemma NewestFrom(files: Files, access: Access, a: Bytes)
    requires FilesFrom(files, a) && NewestRead(files, KEY, access)
    ensures FirstReadable(Seen(files, access), KEY).Some?
    ensures MadeFrom(FirstReadable(Seen(files, access), KEY).value, a)
  {
    ReadAcceptableIff(files, KEY, access, x => MadeFrom(x, a));
  }

  lemma LoadGoesOn(s: Vars, user: User, flush: Reach, access: Access, d: Deferred)
    requires GoesOn(s, d) && Clean(s, Load(user, flush, access))
    ensures GoesOn(Loading(s, user, flush, access), d)
  {
    FlushGoesOn(s, flush, d);
    var flushed := Flushed(s, flush);
    if user == d.user { NewestFrom(FilesOf(flushed.store, user), access, d.state.bytes); }
    hide FilesFrom, Flushed, FirstReadable, Seen, Committed;
  }

  lemma SaveGoesOn(s: Vars, bytes: Bytes, write: Reach, d: Deferred)
    requires GoesOn(s, d) && Clean(s, SaveDeferred(bytes))
    ensures GoesOn(Deferring(s, bytes), d)
    ensures GoesOn(SavingNow(s, bytes, write), d)
  {
    if Accepts(s, bytes) && bytes.owner == d.user {
      var files, state := FilesOf(s.store, d.user), Stamped(bytes, s.clock);
      assert MadeFrom(state, d.state.bytes);
      if write.Finished? { FinishedWriteFrom(files, state, write, d.state.bytes); }
      if FilesFrom(files, d.state.bytes) { WriteKeepsFilesFrom(files, state, write, d.state.bytes); }
    }
    hide FilesFrom, Written;
  }

  lemma DecryptGoesOn(s: Vars, user: User, flush: Reach, access: Access, change: nat, write: Reach, d: Deferred)
    requires GoesOn(s, d) && Clean(s, BackgroundDecrypt(user, flush, access, change, write))
    requires s.jsOwner.Some? ==> s.foreground
    ensures GoesOn(BackgroundDecrypting(s, user, flush, access, change, write), d)
  {
    if !s.foreground {
      FlushGoesOn(s, flush, d);
      var flushed := Flushed(s, flush);
      var files := FilesOf(flushed.store, user);
      if user == d.user {
        NewestFrom(files, access, d.state.bytes);
        WriteKeepsFilesFrom(files, Decrypted(Found(flushed, user, access).value, change, flushed.clock), write, d.state.bytes);
      }
      hide FilesFrom, Written, FirstReadable, Seen, Flushed;
    }
  }

  lemma StepGoesOn(s: Vars, e: Event, d: Deferred)
    requires Ok(s) && GoesOn(s, d) && Clean(s, e)
    ensures GoesOn(Step(s, e), d)
  {
    match e {
      case Load(user, flush, access) => LoadGoesOn(s, user, flush, access, d);
      case SaveDeferred(bytes) => SaveGoesOn(s, bytes, NotStarted, d);
      case SaveDurable(bytes, write) => SaveGoesOn(s, bytes, write, d);
      case Flush(flush) => FlushGoesOn(s, flush, d);
      case HandOff(flush) => FlushGoesOn(s, flush, d);
      case BackgroundDecrypt(user, flush, access, change, write) =>
        DecryptGoesOn(s, user, flush, access, change, write, d);
      case ShowEngine =>
      case Restart =>
    }
    hide FilesFrom, Loading, Deferring, SavingNow, Flushed, BackgroundDecrypting;
  }

  /** What is deferred is the owning window's, and the window went on from it. */
  predicate WindowGoesOn(s: Vars) {
    && (s.jsOwner.Some? ==> s.window.Some?)
    && (s.pending.Some? ==>
          s.jsOwner == Some(s.pending.value.user) && s.window.Some? && DescendsFrom(s.window.value, s.pending.value.state.bytes))
  }

  lemma {:induction false} CleanWindowGoesOn(events: seq<Event>)
    requires AllClean(events)
    ensures WindowGoesOn(Run(events))
  {
    if events != [] {
      var before := Run(events[..|events| - 1]);
      CleanWindowGoesOn(events[..|events| - 1]);
      AlwaysOk(events[..|events| - 1]);
      CleanKeepsWindow(before, events[|events| - 1]);
    }
  }

  lemma CleanKeepsWindow(s: Vars, e: Event)
    requires WindowGoesOn(s) && Clean(s, e) && (s.jsOwner.Some? ==> s.foreground)
    ensures WindowGoesOn(Step(s, e))
  {
    hide Written, Loads, Found, NewestRead;
  }

  lemma {:induction false} DeferredGoesOn(events: seq<Event>, i: nat)
    requires AllClean(events) && i <= |events| && Run(events[..i]).pending.Some?
    ensures GoesOn(Run(events), Run(events[..i]).pending.value)
  {
    if i == |events| {
      assert events[..i] == events;
      CleanWindowGoesOn(events);
    } else {
      var before := events[..|events| - 1];
      assert before[..i] == events[..i];
      DeferredGoesOn(before, i);
      AlwaysOk(before);
      hide Step, Clean, GoesOn, Ok;
      StepGoesOn(Run(before), events[|events| - 1], Run(events[..i]).pending.value);
    }
  }

  /** So in clean runs nothing that was ever deferred is lost, however long the run goes on. */
  lemma NothingDeferredIsLost(events: seq<Event>, i: nat)
    requires AllClean(events) && i <= |events| && Run(events[..i]).pending.Some?
    ensures Survives(Run(events), Run(events[..i]).pending.value)
  {
    DeferredGoesOn(events, i);
    hide Run, AllClean;
    var files, d := FilesOf(Run(events).store, Run(events[..i]).pending.value.user), Run(events[..i]).pending.value;
    if FilesFrom(files, d.state.bytes) { NewestFrom(files, FULL, d.state.bytes); }
    assert Seen(files, FULL) == files;
  }

  lemma RunAppends(events: seq<Event>, e: Event)
    ensures Run(events + [e]) == Step(Run(events), e)
  {
    assert (events + [e])[..|events|] == events;
  }

  const A1 := Bytes("a", [1])
  const A2 := Bytes("a", [1, 2])

  /** A window of account `a` that saved one state durably and deferred the next. */
  const DEFERRED: seq<Event> := [] + [Load("a", NotStarted, FULL)] + [SaveDurable(A1, Finished(true))] + [SaveDeferred(A2)]

  lemma Defers()
    ensures var s := Run(DEFERRED);
            && s.pending == Some(Deferred("a", Stamped(A2, 2))) && s.jsOwner == Some("a") && s.foreground && s.clock == 3
            && s.store.files == map["a" := Disk(Sealed(KEY, Stamped(A1, 1)), Absent, Absent)]
  {
    RunAppends([], Load("a", NotStarted, FULL));
    RunAppends([] + [Load("a", NotStarted, FULL)], SaveDurable(A1, Finished(true)));
    RunAppends([] + [Load("a", NotStarted, FULL)] + [SaveDurable(A1, Finished(true))], SaveDeferred(A2));
  }

  /** After a failed flush at a change of account, the new account's save drops the old one's deferred state. */
  lemma FailedFlushCanLoseDeferred()
    ensures var s := Run(DEFERRED + [Load("b", NotStarted, FULL)]);
            s.pending.Some? && LosesDeferred(s, SaveDurable(Bytes("b", [3]), Finished(true)))
  {
    Defers();
    hide Run;
    RunAppends(DEFERRED, Load("b", NotStarted, FULL));
  }

  /** The same within one account: the flush of a hand-off fails, and the background task goes on from the older file. */
  lemma FailedHandOffCanLoseDeferred()
    ensures var s := Run(DEFERRED + [HandOff(NotStarted)]);
            s.pending.Some? && LosesDeferred(s, BackgroundDecrypt("a", NotStarted, FULL, 9, Finished(true)))
  {
    Defers();
    hide Run;
    RunAppends(DEFERRED, HandOff(NotStarted));
    var s := Run(DEFERRED + [HandOff(NotStarted)]);
    assert Written(FilesOf(s.store, "a"), Stamped(A2, 2), NotStarted) == Disk(Sealed(KEY, Stamped(A1, 1)), Absent, Absent);
    assert Decrypted(Stamped(A1, 1), 9, 3).bytes.trail == [1, 9];
    assert [1, 9][1] != A2.trail[1];
  }

  /** Or the flush succeeds and the background task cannot read the file it went to. */
  lemma UnreadMainCanLoseDeferred()
    ensures var s := Run(DEFERRED + [HandOff(NotStarted)]);
            s.pending.Some? && LosesDeferred(s, BackgroundDecrypt("a", Finished(true), FULL.(main := false), 9, Finished(true)))
  {
    Defers();
    hide Run;
    RunAppends(DEFERRED, HandOff(NotStarted));
    var s := Run(DEFERRED + [HandOff(NotStarted)]);
    assert Written(FilesOf(s.store, "a"), Stamped(A2, 2), Finished(true)) == Disk(Sealed(KEY, Stamped(A2, 2)), Absent, Sealed(KEY, Stamped(A1, 1)));
    assert Decrypted(Stamped(A1, 1), 9, 3).bytes.trail == [1, 9];
    assert [1, 9][1] != A2.trail[1];
  }

  /** And a window that reloads past a failed flush goes on from the older file too. */
  lemma FailedReloadCanLoseDeferred()
    ensures var s := Run(DEFERRED + [Load("a", NotStarted, FULL)]);
            s.pending.Some? && LosesDeferred(s, SaveDeferred(Bytes("a", [1, 3])))
  {
    Defers();
    hide Run;
    RunAppends(DEFERRED, Load("a", NotStarted, FULL));
    assert Written(FilesOf(Run(DEFERRED).store, "a"), Stamped(A2, 2), NotStarted) == Disk(Sealed(KEY, Stamped(A1, 1)), Absent, Absent);
    assert Bytes("a", [1, 3]).trail[1] != A2.trail[1] && A1.trail != A2.trail;
  }

  // ---------------------------------------------------------------- the statics

  /** PENDING, JS_OWNER and FOREGROUND_ACTIVE with the account files, each method one locked section. */
  class Owned {
    var files: map<User, Files>
    var pending: Option<Deferred>
    var jsOwner: Option<User>
    var foreground: bool
    var clock: nat
    ghost var acked: map<User, nat>
    ghost var window: Option<Bytes>

    ghost function View(): Vars
      reads this
    {
      Vars(Store(files, acked), pending, jsOwner, foreground, window, clock)
    }

    constructor ()
      ensures View() == START
    {
      files, pending, jsOwner, foreground, clock := map[], None, None, true, 1;
      acked, window := map[], None;
    }

    /** save_locked: the account's tmp, main and bak, cut at `reach`. */
    method WriteAccount(user: User, state: Stamped, reach: Reach) returns (ok: bool)
      modifies `files, `acked
      ensures View() == WriteFile(old(View()), user, state, reach) && ok == reach.Finished?
    {
      var before := if user in files then files[user] else NO_FILES;
      files := files[user := Written(before, state, reach)];
      ok := reach.Finished?;
      if ok { acked := acked[user := state.stamp]; }
    }

    method FlushPendingLocked(reach: Reach)
      modifies `files, `acked, `pending
      ensures View() == Flushed(old(View()), reach)
    {
      var taken := pending;
      pending := None;
      if taken.Some? {
        var ok := WriteAccount(taken.value.user, taken.value.state, reach);
        if !ok && pending.None? { pending := taken; }
      }
    }

    method SaveState(bytes: Bytes, durable: bool, reach: Reach) returns (accepted: bool)
      modifies this
      ensures accepted == Accepts(old(View()), bytes)
      ensures View() == if durable then SavingNow(old(View()), bytes, reach) else Deferring(old(View()), bytes)
    {
      if jsOwner.None? || !foreground { return false; }
      if bytes.owner != jsOwner.value { return false; }
      var state := Stamped(bytes, clock);
      clock, window := clock + 1, Some(bytes);
      if durable {
        var ok := WriteAccount(bytes.owner, state, reach);
        pending := if ok then None else Some(Deferred(bytes.owner, state));
      } else {
        pending := Some(Deferred(bytes.owner, state));
      }
      accepted := true;
    }

    /** load_state on the account's files: tmp, main, bak; none for an account with nothing committed. */
    method LoadFiles(user: User, access: Access) returns (loaded: bool, r: Option<Stamped>)
      ensures loaded == Loads(View(), user, access)
      ensures r == if loaded then Found(View(), user, access) else None
    {
      if !access.stat { return false, None; }
      var d := if user in files then files[user] else NO_FILES;
      r := FirstReadable(Seen(d, access), KEY);
      loaded := r.Some? || !Committed(d);
    }

    method LoadState(user: User, flush: Reach, access: Access) returns (r: Option<Stamped>)
      modifies this
      ensures View() == Loading(old(View()), user, flush, access)
      ensures r == if Loads(View(), user, access) then Found(View(), user, access) else None
    {
      FlushPendingLocked(flush);
      var loaded;
      loaded, r := LoadFiles(user, access);
      if loaded {
        jsOwner, foreground := Some(user), true;
        window := Some(if r.Some? then r.value.bytes else Bytes(user, []));
      }
    }

    method HandOffToBackground(flush: Reach)
      modifies this
      ensures View() == HandingOff(old(View()), flush)
    {
      FlushPendingLocked(flush);
      jsOwner, foreground, window := None, false, None;
    }

    method DecryptInBackground(user: User, flush: Reach, access: Access, change: nat, write: Reach)
      modifies this
      ensures View() == BackgroundDecrypting(old(View()), user, flush, access, change, write)
    {
      if foreground { return; }
      FlushPendingLocked(flush);
      var loaded, r := LoadFiles(user, access);
      if !loaded || r.None? { return; }
      var state := Decrypted(r.value, change, clock);
      if pending.Some? && pending.value.user == user { pending := None; }
      var _ := WriteAccount(user, state, write);
      clock := clock + 1;
    }
  }
}
