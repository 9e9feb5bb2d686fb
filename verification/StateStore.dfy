/**
 The encrypted, crash-safe state file of one account (mls_store.rs): the
 tmp / main / bak protocol, the fail-closed key rules, and what a load, which
 may fail to read any file, may return after any sequence of saves cut short by
 crashes and I/O errors.
 */
module StateStore {
  import opened Wrappers

  type Key = nat

  /** A file as a load sees it: missing, unauthenticatable, or sealed under a key. */
  datatype File<+V> = Absent | Torn | Sealed(key: Key, value: V)

  datatype Disk<+V> = Disk(main: File<V>, tmp: File<V>, bak: File<V>)

  /** The last effect of a write that reached the disk; only `Finished` returns Ok. */
  datatype Reach =
    | NotStarted
    | TmpCreated
    | TmpFilled
    | BakOpened
    | BakCopied(bakSynced: bool)
    | Renamed(bakSynced: bool)
    | Finished(bakSynced: bool)

  /** The keyring entry: absent, a 32-byte key, or something else. */
  datatype KeyEntry = NoEntry | Stored(key: Key) | WrongLength(bytes: nat)

  /** How one use of the keyring misbehaves. */
  datatype KeyFault = Healthy | GetFails | SetFails | SetForgets | ReadBackFails

  datatype KeyError = Unavailable | Missing | Corrupt(bytes: nat)

  datatype Loaded<+V> = Fresh | State(value: V)

  datatype LoadError = KeyProblem(error: KeyError) | Unreadable | StatFailed

  /** Which file operations of one load succeed: finding out what is there, and reading each file. */
  datatype Access = Access(stat: bool, tmp: bool, main: bool, bak: bool)

  const FULL := Access(true, true, true, true)

  /** Everything that outlives a process, plus the in-process key cache. */
  datatype Snapshot<+V> = Snapshot(disk: Disk<V>, entry: KeyEntry, cache: Option<Key>)

  // ---------------------------------------------------------------- files

  predicate Committed<V>(d: Disk<V>) {
    !d.main.Absent? || !d.bak.Absent?
  }

  /** The backup a write leaves behind; there is none to make before the first write. */
  function Backup<V>(d: Disk<V>, synced: bool): File<V> {
    if d.main.Absent? then d.bak else if synced then d.main else Torn
  }

  /** What is on disk once a write of `f` has got as far as `r`. */
  function Write<V>(d: Disk<V>, f: File<V>, r: Reach): Disk<V> {
    match r
    case NotStarted => d
    case TmpCreated => d.(tmp := Torn)
    case TmpFilled => d.(tmp := f)
    case BakOpened => Disk(d.main, f, Backup(d, false))
    case BakCopied(synced) => Disk(d.main, f, Backup(d, synced))
    case Renamed(synced) => Disk(f, Absent, Backup(d, synced))
    case Finished(synced) => Disk(f, Absent, Backup(d, synced))
  }

  /**
   File by file: main is replaced by the rename alone, tmp is torn until it is filled and
   gone with the rename, and bak becomes the old main, torn unless it is synced in time.
   */
  lemma WriteByFile<V>(d: Disk<V>, f: File<V>, r: Reach)
    ensures Write(d, f, r).main == if r.Renamed? || r.Finished? then f else d.main
    ensures Write(d, f, r).tmp ==
            if r.NotStarted? then d.tmp else if r.TmpCreated? then Torn else if r.Renamed? || r.Finished? then Absent else f
    ensures Write(d, f, r).bak ==
            if d.main.Absent? || r.NotStarted? || r.TmpCreated? || r.TmpFilled? then d.bak
            else if r.BakOpened? || !r.bakSynced then Torn else d.main
  {
  }

  predicate Opens<V>(f: File<V>, key: Key) {
    f.Sealed? && f.key == key
  }

  /** The first candidate that authenticates, in the order tmp, main, bak. */
  function FirstReadable<V>(d: Disk<V>, key: Key): Option<V> {
    if Opens(d.tmp, key) then Some(d.tmp.value)
    else if Opens(d.main, key) then Some(d.main.value)
    else if Opens(d.bak, key) then Some(d.bak.value)
    else None
  }

  /** A file that is there but cannot be read is passed over like one that does not authenticate. */
  function SeenFile<V>(f: File<V>, read: bool): File<V> {
    if read || f.Absent? then f else Torn
  }

  /** The files as a load with this access sees them. */
  function Seen<V>(d: Disk<V>, access: Access): Disk<V> {
    Disk(SeenFile(d.main, access.main), SeenFile(d.tmp, access.tmp), SeenFile(d.bak, access.bak))
  }

  /** main opens to something satisfying `p`, and so does tmp if it opens at all. */
  ghost predicate Protected<V(!new)>(d: Disk<V>, key: Key, p: V -> bool) {
    && Opens(d.main, key) && p(d.main.value)
    && (Opens(d.tmp, key) ==> p(d.tmp.value))
  }

  /** A write of an acceptable value, cut anywhere, never weakens the protection. */
  lemma WriteKeepsProtection<V(!new)>(d: Disk<V>, key: Key, v: V, r: Reach, p: V -> bool)
    requires Protected(d, key, p) && p(v)
    ensures Protected(Write(d, Sealed(key, v), r), key, p)
    ensures FirstReadable(Write(d, Sealed(key, v), r), key).Some?
    ensures p(FirstReadable(Write(d, Sealed(key, v), r), key).value)
  {
  }

  /** The load reads main, or a tmp that opens; otherwise it falls back to bak. */
  predicate NewestRead<V>(d: Disk<V>, key: Key, access: Access) {
    access.main || (access.tmp && Opens(d.tmp, key))
  }

  /**
   Read errors and protection: what a load finds on a protected disk is acceptable
   if and only if it reads main or an opening tmp, or whatever it falls back to,
   which is exactly bak, is acceptable.
   */
  lemma ReadAcceptableIff<V(!new)>(d: Disk<V>, key: Key, access: Access, p: V -> bool)
    requires Protected(d, key, p)
    ensures var found := FirstReadable(Seen(d, access), key);
            && ((found.Some? ==> p(found.value))
                <==> NewestRead(d, key, access) || (access.bak && Opens(d.bak, key) ==> p(d.bak.value)))
            && (NewestRead(d, key, access) ==> found.Some?)
            && (!NewestRead(d, key, access) ==> found == if access.bak && Opens(d.bak, key) then Some(d.bak.value) else None)
  {
  }

  /**
   A loaded state outlives the next write, wherever that write is cut, exactly
   when a load without tmp would find it too. A state recovered only from tmp
   does not: the next write truncates tmp first, and a crash there falls back.
   */
  lemma LoadedSurvivesNextWriteIff<V(!new)>(d: Disk<V>, key: Key, v: V)
    requires FirstReadable(d, key) == Some(v)
    ensures (forall w: V, r: Reach ::
               FirstReadable(Write(d, Sealed(key, w), r), key) in {Some(v), Some(w)})
            <==> FirstReadable(d.(tmp := Absent), key) == Some(v)
  {
    var found := FirstReadable(Write(d, Sealed(key, v), TmpCreated), key);
    assert found == FirstReadable(d.(tmp := Absent), key);
  }

  // ---------------------------------------------------------------- keys

  /**
   resolve_key, failing closed: the entry changes only from absent, only when
   nothing is committed, and a key is returned only if the keyring retained it.
   */
  function ResolveKey(entry: KeyEntry, committed: bool, allowCreate: bool, minted: Key, fault: KeyFault)
    : (r: (Result<Key, KeyError>, KeyEntry))
    ensures r.1 != entry ==> entry.NoEntry? && !committed && allowCreate
    ensures r.0.Ok? ==> r.1 == Stored(r.0.value)
    ensures !entry.Stored? && (committed || !allowCreate) ==> r.0.Err?
  {
    if fault.GetFails? then (Err(Unavailable), entry)
    else match entry
      case Stored(k) => (Ok(k), entry)
      case WrongLength(n) => (Err(Corrupt(n)), entry)
      case NoEntry =>
        if committed || !allowCreate then (Err(Missing), entry)
        else match fault
          case SetFails => (Err(Unavailable), entry)
          case SetForgets => (Err(Unavailable), entry)
          case ReadBackFails => (Err(Unavailable), Stored(minted))
          case _ => (Ok(minted), Stored(minted))
  }

  /**
   The decision table, by answer: the entry's own key, or the minted one where nothing may
   be lost and the keyring kept it; missing where a key may not be made; corrupt for an
   entry that is no key; and only a key that was kept, or could not be read back, is stored.
   */
  lemma ResolveKeyByAnswer(entry: KeyEntry, committed: bool, allowCreate: bool, minted: Key, fault: KeyFault)
    ensures var (r, after) := ResolveKey(entry, committed, allowCreate, minted, fault);
            var mayMake := entry.NoEntry? && !committed && allowCreate && !fault.GetFails?;
            && (forall k :: r == Ok(k) <==> (entry == Stored(k) && !fault.GetFails?) || (mayMake && fault.Healthy? && k == minted))
            && (r == Err(Missing) <==> entry.NoEntry? && !fault.GetFails? && (committed || !allowCreate))
            && (forall n :: r == Err(Corrupt(n)) <==> entry == WrongLength(n) && !fault.GetFails?)
            && after == if mayMake && (fault.Healthy? || fault.ReadBackFails?) then Stored(minted) else entry
  {
  }

  /** get_key: the cached key, else the resolved one, which is then cached. */
  function GetKey<V>(s: Snapshot<V>, committed: bool, allowCreate: bool, minted: Key, fault: KeyFault)
    : (Result<Key, KeyError>, Snapshot<V>)
  {
    if s.cache.Some? then (Ok(s.cache.value), s)
    else
      var (r, entry) := ResolveKey(s.entry, committed, allowCreate, minted, fault);
      (r, s.(entry := entry, cache := if r.Ok? then Some(r.value) else None))
  }

  // ---------------------------------------------------------------- save and load

  /** save_state. The flag says whether the caller got Ok. */
  function Save<V>(s: Snapshot<V>, v: V, elsewhere: bool, minted: Key, fault: KeyFault, r: Reach): (bool, Snapshot<V>) {
    var (key, s') := GetKey(s, elsewhere || Committed(s.disk), true, minted, fault);
    if key.Err? then (false, s')
    else (r.Finished?, s'.(disk := Write(s.disk, Sealed(key.value, v), r)))
  }

  /** load_state. Never creates a key and never writes a file. */
  function Load<V>(s: Snapshot<V>, fault: KeyFault, access: Access): (Result<Loaded<V>, LoadError>, Snapshot<V>) {
    var committed := Committed(s.disk);
    if !access.stat then (Err(StatFailed), s)
    else if !committed && s.disk.tmp.Absent? then (Ok(Fresh), s)
    else
      var (key, s') := GetKey(s, committed, false, 0, fault);
      match key
      case Err(e) =>
        (if e.Missing? && !committed then Ok(Fresh) else Err(KeyProblem(e)), s')
      case Ok(k) =>
        var v := FirstReadable(Seen(s.disk, access), k);
        (if v.Some? then Ok(State(v.value)) else if !committed then Ok(Fresh) else Err(Unreadable), s')
  }

  /** The key a load can use, if it gets one: the cached one, or the keyring's. */
  function UsableKey<V>(s: Snapshot<V>, fault: KeyFault): Option<Key> {
    if s.cache.Some? then s.cache
    else if s.entry.Stored? && !fault.GetFails? then Some(s.entry.key)
    else None
  }

  /**
   Every answer of a load: fresh exactly where nothing was ever committed and no lone tmp
   can be recovered; a state exactly where a file that can be read opens, the first of
   them; and otherwise the error that says why.
   */
  lemma LoadAnswers<V(!new)>(s: Snapshot<V>, fault: KeyFault, access: Access)
    requires access.stat
    ensures var r, key, d := Load(s, fault, access).0, UsableKey(s, fault), s.disk;
            var nothing := d.main.Absent? && d.bak.Absent?;
            var found := if key.Some? then FirstReadable(Seen(d, access), key.value) else None;
            && (r == Ok(Fresh) <==>
                  nothing && (d.tmp.Absent? || (key.Some? && found.None?) || (key.None? && s.entry.NoEntry? && !fault.GetFails?)))
            && (forall v :: r == Ok(State(v)) <==> found == Some(v))
            && (r == Err(Unreadable) <==> !nothing && key.Some? && found.None?)
            && (r == Err(KeyProblem(Missing)) <==> !nothing && key.None? && s.entry.NoEntry? && !fault.GetFails?)
            && (r == Err(KeyProblem(Unavailable)) <==> !(nothing && d.tmp.Absent?) && s.cache.None? && fault.GetFails?)
            && r != Err(StatFailed)
  {
  }

  /** A save that obtains a key seals the value under it; one that does not touches no file. */
  lemma SaveAnswers<V>(s: Snapshot<V>, v: V, elsewhere: bool, minted: Key, fault: KeyFault, r: Reach)
    ensures var (ok, after) := Save(s, v, elsewhere, minted, fault, r);
            var committed := elsewhere || !s.disk.main.Absent? || !s.disk.bak.Absent?;
            var key := if s.cache.Some? then Ok(s.cache.value) else ResolveKey(s.entry, committed, true, minted, fault).0;
            && (ok <==> key.Ok? && r.Finished?)
            && after.disk == (if key.Ok? then Write(s.disk, Sealed(key.value, v), r) else s.disk)
            && after.cache == (if key.Ok? then Some(key.value) else None)
  {
    hide ResolveKey, Write;
  }

  // ---------------------------------------------------------------- runs

  /** One step of a machine's life: a save cut anywhere, a load, or the process dying. */
  datatype StoreOp<+V> =
    | SaveStep(value: V, elsewhere: bool, minted: Key, fault: KeyFault, reach: Reach)
    | LoadStep(fault: KeyFault, access: Access)
    | Restart

  function Do<V>(s: Snapshot<V>, step: StoreOp<V>): Snapshot<V> {
    match step
    case SaveStep(v, elsewhere, minted, fault, r) => Save(s, v, elsewhere, minted, fault, r).1
    case LoadStep(fault, access) => Load(s, fault, access).1
    case Restart => s.(cache := None)
  }

  function Empty<V>(): Snapshot<V> {
    Snapshot(Disk(Absent, Absent, Absent), NoEntry, None)
  }

  function Run<V>(steps: seq<StoreOp<V>>): Snapshot<V> {
    if steps == [] then Empty() else Do(Run(steps[..|steps|-1]), steps[|steps|-1])
  }

  lemma RunExtends<V>(steps: seq<StoreOp<V>>, step: StoreOp<V>)
    ensures Run(steps + [step]) == Do(Run(steps), step)
  {
    assert (steps + [step])[..|steps|] == steps;
  }

  /** A restart keeps the files and the keyring entry and forgets the key. */
  lemma RestartForgetsKey<V>(steps: seq<StoreOp<V>>)
    ensures Run(steps + [Restart]) == Snapshot(Run(steps).disk, Run(steps).entry, None)
  {
    RunExtends(steps, Restart);
  }

  predicate Acknowledged<V>(steps: seq<StoreOp<V>>, i: nat)
    requires i < |steps|
  {
    && steps[i].SaveStep?
    && var s := steps[i];
       Save(Run(steps[..i]), s.value, s.elsewhere, s.minted, s.fault, s.reach).0
  }

  /** `v` was handed to a save at step `from` or later. */
  ghost predicate AttemptedSince<V>(steps: seq<StoreOp<V>>, from: nat, v: V) {
    exists j :: from <= j < |steps| && steps[j].SaveStep? && steps[j].value == v
  }

  /** One key for the machine's life: every sealed file uses it, and nothing is on disk before it exists. */
  ghost predicate OneKey<V>(s: Snapshot<V>) {
    match s.entry
    case NoEntry => s.cache.None? && s.disk == Disk(Absent, Absent, Absent)
    case WrongLength(_) => false
    case Stored(k) =>
      && (s.cache.Some? ==> s.cache.value == k)
      && (forall f :: f in {s.disk.main, s.disk.tmp, s.disk.bak} && f.Sealed? ==> f.key == k)
  }

  lemma {:induction false} RunsUseOneKey<V(!new)>(steps: seq<StoreOp<V>>)
    ensures OneKey(Run(steps))
  {
    if steps != [] {
      RunsUseOneKey(steps[..|steps|-1]);
    }
  }

  lemma AttemptsKept<V(!new)>(steps: seq<StoreOp<V>>, i: nat)
    requires steps != []
    ensures forall v :: AttemptedSince(steps[..|steps| - 1], i, v) ==> AttemptedSince(steps, i, v)
  {
    var before := steps[..|steps| - 1];
    forall v | AttemptedSince(before, i, v) ensures AttemptedSince(steps, i, v) {
      var j :| i <= j < |before| && before[j].SaveStep? && before[j].value == v;
      assert steps[j] == before[j];
    }
  }

  /** Once a save is acknowledged, main and any readable tmp stay at least that new. */
  lemma {:induction false} AcknowledgedStaysProtected<V(!new)>(steps: seq<StoreOp<V>>, i: nat)
    requires i < |steps| && Acknowledged(steps, i)
    ensures var s := Run(steps);
            s.entry.Stored? && Protected(s.disk, s.entry.key, v => AttemptedSince(steps, i, v))
  {
    var n := |steps| - 1;
    var before, last := steps[..n], steps[n];
    RunsUseOneKey(before);
    RunsUseOneKey(steps);
    if i == n {
      assert steps[n].value == last.value;
    } else {
      assert before[..i] == steps[..i];
      AcknowledgedStaysProtected(before, i);
      AttemptsKept(steps, i);
      var s := Run(before);
      var p := v => AttemptedSince(steps, i, v);
      assert Protected(s.disk, s.entry.key, p);
      if last.SaveStep? {
        assert p(last.value) by { assert steps[n].value == last.value; }
        WriteKeepsProtection(s.disk, s.entry.key, last.value, last.reach, p);
      }
    }
  }

  /**
   Crash safety: after any run in which save `i` was acknowledged, a load that
   reads main or an opening tmp gives a state attempted at step `i` or later; one
   that can read neither gives exactly bak, or an error. It is never Fresh.
   */
  lemma CrashSafe<V(!new)>(steps: seq<StoreOp<V>>, i: nat, fault: KeyFault, access: Access)
    requires i < |steps| && Acknowledged(steps, i)
    ensures var s, r := Run(steps), Load(Run(steps), fault, access).0;
            && s.entry.Stored?
            && if !access.stat then r == Err(StatFailed)
               else if s.cache.None? && fault.GetFails? then r == Err(KeyProblem(Unavailable))
               else if NewestRead(s.disk, s.entry.key, access)
                    then r.Ok? && r.value.State? && AttemptedSince(steps, i, r.value.value)
               else r == if access.bak && Opens(s.disk.bak, s.entry.key) then Ok(State(s.disk.bak.value)) else Err(Unreadable)
  {
    RunsUseOneKey(steps);
    AcknowledgedStaysProtected(steps, i);
    var s := Run(steps);
    ReadAcceptableIff(s.disk, s.entry.key, access, v => AttemptedSince(steps, i, v));
    hide Run, Acknowledged, Seen, FirstReadable, AttemptedSince;
  }

  /** Every file a load could fall back to holds something acceptable. */
  ghost predicate AllAcceptable<V(!new)>(d: Disk<V>, key: Key, p: V -> bool) {
    Protected(d, key, p) && (Opens(d.bak, key) ==> p(d.bak.value))
  }

  lemma WriteFillsBackup<V(!new)>(d: Disk<V>, key: Key, v: V, r: Reach, p: V -> bool)
    requires Protected(d, key, p) && p(v)
    requires r.Finished? || (Opens(d.bak, key) ==> p(d.bak.value))
    ensures AllAcceptable(Write(d, Sealed(key, v), r), key, p)
  {
  }

  /** After a second acknowledged save the backup, too, is at least as new as the first. */
  lemma {:induction false} SecondSaveFillsBackup<V(!new)>(steps: seq<StoreOp<V>>, i: nat, j: nat)
    requires i < j < |steps| && Acknowledged(steps, i) && Acknowledged(steps, j)
    ensures var s := Run(steps);
            s.entry.Stored? && AllAcceptable(s.disk, s.entry.key, v => AttemptedSince(steps, i, v))
  {
    var n := |steps| - 1;
    var before, last := steps[..n], steps[n];
    assert before[..i] == steps[..i] && before[..j] == steps[..j];
    RunsUseOneKey(before);
    AcknowledgedStaysProtected(before, i);
    AttemptsKept(steps, i);
    var s := Run(before);
    var p := v => AttemptedSince(steps, i, v);
    assert Protected(s.disk, s.entry.key, p);
    if j < n {
      SecondSaveFillsBackup(before, i, j);
      assert AllAcceptable(s.disk, s.entry.key, p);
    }
    if last.SaveStep? {
      assert p(last.value) by { assert steps[n].value == last.value; }
      assert last.reach.Finished? || j < n;
      WriteFillsBackup(s.disk, s.entry.key, last.value, last.reach, p);
    }
    hide AttemptedSince, Write, Protected;
  }

  /**
   So a read error takes a load back by one acknowledged save at most: with two
   acknowledged saves, any state any load finds was attempted at the first or later.
   */
  lemma OneSaveBackAtMost<V(!new)>(steps: seq<StoreOp<V>>, i: nat, j: nat, fault: KeyFault, access: Access)
    requires i < j < |steps| && Acknowledged(steps, i) && Acknowledged(steps, j)
    ensures var r := Load(Run(steps), fault, access).0;
            r.Ok? ==> r.value.State? && AttemptedSince(steps, i, r.value.value)
  {
    CrashSafe(steps, i, fault, access);
    SecondSaveFillsBackup(steps, i, j);
    hide Run, Acknowledged, Load, AttemptedSince;
  }

  /** And it does take it back: with main unreadable, a load gives the state before the acknowledged one. */
  lemma UnreadMainLoadsBackup()
    ensures var steps := [SaveStep(1, false, 7, Healthy, Finished(true)), SaveStep(2, false, 0, Healthy, Finished(true)), Restart];
            Acknowledged(steps, 1) && Load(Run(steps), Healthy, FULL.(main := false)).0 == Ok(State(1))
  {
    var first := SaveStep(1, false, 7, Healthy, Finished(true));
    var second := SaveStep(2, false, 0, Healthy, Finished(true));
    var empty: seq<StoreOp<int>> := [];
    var steps := [first, second, Restart];
    assert empty + [first] == [first] && [first] + [second] == [first, second] && [first, second] + [Restart] == steps;
    RunExtends(empty, first);
    assert Run([first]) == Snapshot(Disk(Sealed(7, 1), Absent, Absent), Stored(7), Some(7));
    assert steps[..1] == [first];
    RunExtends([first], second);
    RunExtends([first, second], Restart);
  }

  /** The limit of that promise: a state loaded from tmp can be gone after the next crash. */
  lemma LoadedStateCanBeLost()
    ensures var first := SaveStep(1, false, 7, Healthy, Finished(true));
            var cut := SaveStep(2, false, 0, Healthy, TmpFilled);
            var next := SaveStep(3, false, 0, Healthy, TmpCreated);
            && Load(Run([first, cut, Restart]), Healthy, FULL).0 == Ok(State(2))
            && Load(Run([first, cut, Restart, next, Restart]), Healthy, FULL).0 == Ok(State(1))
  {
    var first := SaveStep(1, false, 7, Healthy, Finished(true));
    var cut := SaveStep(2, false, 0, Healthy, TmpFilled);
    var next := SaveStep(3, false, 0, Healthy, TmpCreated);
    var empty: seq<StoreOp<int>> := [];
    var steps := [first, cut, Restart];
    assert empty + [first] == [first] && [first] + [cut] == [first, cut] && [first, cut] + [Restart] == steps;
    RunExtends(empty, first);
    assert Run([first]) == Snapshot(Disk(Sealed(7, 1), Absent, Absent), Stored(7), Some(7));
    RunExtends([first], cut);
    assert Run([first, cut]) == Snapshot(Disk(Sealed(7, 1), Sealed(7, 2), Absent), Stored(7), Some(7));
    RunExtends([first, cut], Restart);
    assert steps + [next] + [Restart] == [first, cut, Restart, next, Restart];
    RunExtends(steps, next);
    assert Run(steps + [next]) == Snapshot(Disk(Sealed(7, 1), Torn, Absent), Stored(7), Some(7));
    RunExtends(steps + [next], Restart);
  }

  // ---------------------------------------------------------------- the store itself

  /** The state files of one account together with the keyring they depend on. */
  class Store<V(==)> {
    var main: File<V>
    var tmp: File<V>
    var bak: File<V>
    var entry: KeyEntry
    var cache: Option<Key>

    constructor ()
      ensures View() == Empty()
    {
      main, tmp, bak, entry, cache := Absent, Absent, Absent, NoEntry, None;
    }

    ghost function View(): Snapshot<V>
      reads this
    {
      Snapshot(Disk(main, tmp, bak), entry, cache)
    }

    /** resolve_key behind the cache (get_key). */
    method ObtainKey(committed: bool, allowCreate: bool, minted: Key, fault: KeyFault) returns (r: Result<Key, KeyError>)
      modifies this`entry, this`cache
      ensures (r, View()) == GetKey(old(View()), committed, allowCreate, minted, fault)
    {
      if cache.Some? {
        return Ok(cache.value);
      }
      if fault.GetFails? {
        return Err(Unavailable);
      }
      if entry.WrongLength? {
        return Err(Corrupt(entry.bytes));
      }
      if entry.Stored? {
        cache := Some(entry.key);
        return Ok(entry.key);
      }
      if committed || !allowCreate {
        return Err(Missing);
      }
      if fault.SetFails? {
        return Err(Unavailable);
      }
      if !fault.SetForgets? {
        entry := Stored(minted);
      }
      // Read back before relying on it.
      if fault.SetForgets? || fault.ReadBackFails? {
        return Err(Unavailable);
      }
      cache := Some(minted);
      return Ok(minted);
    }

    /** write_atomic, stopped where `reach` says by a crash or an I/O error. */
    method WriteAtomic(f: File<V>, reach: Reach) returns (ok: bool)
      modifies this`main, this`tmp, this`bak
      ensures ok == reach.Finished?
      ensures Disk(main, tmp, bak) == Write(old(Disk(main, tmp, bak)), f, reach)
    {
      ok := false;
      if reach.NotStarted? { return; }
      tmp := Torn;
      if reach.TmpCreated? { return; }
      tmp := f;
      if reach.TmpFilled? { return; }
      if !main.Absent? {
        bak := Torn;
        if reach.BakOpened? { return; }
        if reach.bakSynced { bak := main; }
      }
      if reach.BakOpened? || reach.BakCopied? { return; }
      main, tmp := tmp, Absent;
      ok := reach.Finished?;
    }

    /** save_state. */
    method SaveState(v: V, elsewhere: bool, minted: Key, fault: KeyFault, reach: Reach) returns (ok: bool)
      modifies this
      ensures (ok, View()) == Save(old(View()), v, elsewhere, minted, fault, reach)
    {
      var committed := elsewhere || !main.Absent? || !bak.Absent?;
      var key := ObtainKey(committed, true, minted, fault);
      if key.Err? {
        return false;
      }
      ok := WriteAtomic(Sealed(key.value, v), reach);
    }

    /** load_state's loop: the first of tmp, main and bak that can be read and authenticates. */
    method ReadFirst(key: Key, access: Access) returns (r: Option<V>)
      ensures r == FirstReadable(Seen(Disk(main, tmp, bak), access), key)
    {
      var candidates, readable := [tmp, main, bak], [access.tmp, access.main, access.bak];
      for i := 0 to |candidates|
        invariant forall j :: 0 <= j < i ==> !(readable[j] && Opens(candidates[j], key))
      {
        if readable[i] && candidates[i].Sealed? && candidates[i].key == key {
          assert i > 0 ==> !(readable[0] && Opens(candidates[0], key));
          assert i > 1 ==> !(readable[1] && Opens(candidates[1], key));
          return Some(candidates[i].value);
        }
      }
      assert !(readable[0] && Opens(candidates[0], key)) && !(readable[1] && Opens(candidates[1], key))
             && !(readable[2] && Opens(candidates[2], key));
      return None;
    }

    /** load_state. */
    method LoadState(fault: KeyFault, access: Access) returns (r: Result<Loaded<V>, LoadError>)
      modifies this`entry, this`cache
      ensures (r, View()) == Load(old(View()), fault, access)
    {
      if !access.stat {
        return Err(StatFailed);
      }
      var committed := !main.Absent? || !bak.Absent?;
      if !committed && tmp.Absent? {
        return Ok(Fresh);
      }
      var key := ObtainKey(committed, false, 0, fault);
      if key.Err? {
        return if key.error.Missing? && !committed then Ok(Fresh) else Err(KeyProblem(key.error));
      }
      var found := ReadFirst(key.value, access);
      if found.Some? {
        return Ok(State(found.value));
      }
      return if committed then Err(Unreadable) else Ok(Fresh);
    }
  }
}
