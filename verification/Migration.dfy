/**
 Moving the per-machine state files of older versions into their owner's account
 directory (migrate_legacy in mls_store.rs), interrupted and run again.
 */
module Migration {
  import opened Wrappers
  import opened StateStore

  type User = string

  /** State bytes: the user id their credential names, when it is readable and usable, and the rest. */
  datatype Bytes = Bytes(owner: Option<User>, content: nat)

  datatype Layout = Layout(legacy: Disk<Bytes>, accounts: map<User, Disk<Bytes>>, marker: Option<User>)

  /** How far one run gets before the process dies or a file operation fails for good. */
  datatype Cut = BeforeMarker | AfterMarker | AfterTmp | AfterBak | Complete

  const EMPTY_DISK: Disk<Bytes> := Disk(Absent, Absent, Absent)

  function Account(s: Layout, user: User): Disk<Bytes> {
    if user in s.accounts then s.accounts[user] else EMPTY_DISK
  }

  /** The owner a load of the legacy files with this access finds, if it finds one. */
  function OwnerRead(d: Disk<Bytes>, key: Key, access: Access): Option<User> {
    var v := FirstReadable(Seen(d, access), key);
    if !access.stat || v.None? then None else v.value.owner
  }

  /** The owner the legacy files load to when every file can be read. */
  function LegacyOwner(d: Disk<Bytes>, key: Key): Option<User> {
    OwnerRead(d, key, FULL)
  }

  /** migrate_legacy's checks: it moves files only to this user, and only if this is a resume or the account is unused. */
  function Target(s: Layout, key: Key, access: Access): Option<User> {
    var owner := OwnerRead(s.legacy, key, access);
    if owner.None? then None
    else if s.marker.Some? then (if s.marker == owner then owner else None)
    else if Committed(Account(s, owner.value)) then None
    else owner
  }

  /** A rename replaces what is at the destination; a missing source is skipped. */
  function MovedTmp(s: Layout, user: User): Layout {
    if s.legacy.tmp.Absent? then s
    else s.(legacy := s.legacy.(tmp := Absent), accounts := s.accounts[user := Account(s, user).(tmp := s.legacy.tmp)])
  }

  function MovedBak(s: Layout, user: User): Layout {
    if s.legacy.bak.Absent? then s
    else s.(legacy := s.legacy.(bak := Absent), accounts := s.accounts[user := Account(s, user).(bak := s.legacy.bak)])
  }

  function MovedMain(s: Layout, user: User): Layout {
    if s.legacy.main.Absent? then s
    else s.(legacy := s.legacy.(main := Absent), accounts := s.accounts[user := Account(s, user).(main := s.legacy.main)])
  }

  /** tmp, bak and main in this order, as far as the run gets. */
  function Moved(s: Layout, user: User, cut: Cut): Layout {
    match cut
    case BeforeMarker => s
    case AfterMarker => s
    case AfterTmp => MovedTmp(s, user)
    case AfterBak => MovedBak(MovedTmp(s, user), user)
    case Complete => MovedMain(MovedBak(MovedTmp(s, user), user), user)
  }

  /** One run: the marker first, then the files. */
  function Migrated(s: Layout, key: Key, cut: Cut, access: Access): Layout {
    var target := Target(s, key, access);
    if s.legacy == EMPTY_DISK || target.None? || cut.BeforeMarker? then s
    else Moved(s.(marker := target), target.value, cut)
  }

  /** How far each of a series of runs got, and which files it could read. */
  type Runs = seq<(Cut, Access)>

  function AfterRuns(s: Layout, key: Key, runs: Runs): Layout {
    if runs == [] then s
    else
      var n := |runs| - 1;
      Migrated(AfterRuns(s, key, runs[..n]), key, runs[n].0, runs[n].1)
  }

  // ---------------------------------------------------------------- what survives

  predicate OwnedBy(f: File<Bytes>, key: Key, user: User) {
    Opens(f, key) && f.value.owner == Some(user)
  }

  /**
   Whatever is still to be moved loads, and loads to this user, at every point of
   the move: main, or bak where there is no main, must open by itself.
   */
  predicate Movable(d: Disk<Bytes>, key: Key, user: User) {
    && (if !d.main.Absent? then OwnedBy(d.main, key, user)
        else if !d.bak.Absent? then OwnedBy(d.bak, key, user)
        else OwnedBy(d.tmp, key, user))
    && (Opens(d.tmp, key) ==> OwnedBy(d.tmp, key, user))
  }

  /** The tmp an account ends up with: the legacy one replaces its own. */
  function TmpAfter(legacy: Disk<Bytes>, own: Disk<Bytes>): File<Bytes> {
    if legacy.tmp.Absent? then own.tmp else legacy.tmp
  }

  /**
   `now` is part-way through moving `then0`'s legacy files: each file is in one
   place, unchanged, and moved in the order tmp, bak, main.
   */
  ghost predicate PartWay(then0: Layout, now: Layout, user: User) {
    var was, own, left, there := then0.legacy, Account(then0, user), now.legacy, Account(now, user);
    && (if left.tmp.Absent? then there.tmp == TmpAfter(was, own) else left.tmp == was.tmp && there.tmp == own.tmp)
    && (if left.bak.Absent? then there.bak == was.bak else left.bak == was.bak && there.bak.Absent?)
    && (if left.main.Absent? then there.main == was.main else left.main == was.main && there.main.Absent?)
    && (!left.tmp.Absent? ==> left.bak == was.bak && left.main == was.main)
    && (!left.bak.Absent? ==> left.main == was.main)
    && (forall other | other != user :: Account(now, other) == Account(then0, other))
  }

  /** Nothing is marked yet and the user's directory was never committed to. */
  predicate Unclaimed(s: Layout, user: User) {
    s.marker.None? && !Committed(Account(s, user))
  }

  /** Untouched, or part-way to the one user the marker names, whose directory had nothing committed. */
  ghost predicate Moving(then0: Layout, now: Layout) {
    match now.marker
    case None => now == then0
    case Some(user) => Unclaimed(then0, user) && PartWay(then0, now, user)
  }

  lemma MovesStayPartWay(s: Layout, now: Layout, user: User)
    requires Unclaimed(s, user) && PartWay(s, now, user)
    ensures PartWay(s, MovedTmp(now, user), user)
    ensures now.legacy.tmp.Absent? ==> PartWay(s, MovedBak(now, user), user)
    ensures now.legacy.tmp.Absent? && now.legacy.bak.Absent? ==> PartWay(s, MovedMain(now, user), user)
  {
  }

  lemma StepStaysMoving(s: Layout, now: Layout, key: Key, cut: Cut, access: Access)
    requires s.marker.None? && Moving(s, now)
    ensures Moving(s, Migrated(now, key, cut, access))
  {
    var target := Target(now, key, access);
    if target.Some? {
      var user := target.value;
      var marked := now.(marker := target);
      var movedTmp := MovedTmp(marked, user);
      assert Unclaimed(s, user) && PartWay(s, marked, user);
      MovesStayPartWay(s, marked, user);
      MovesStayPartWay(s, movedTmp, user);
      MovesStayPartWay(s, MovedBak(movedTmp, user), user);
      hide Target, PartWay, Unclaimed;
    }
  }

  /**
   No interruption and no read error loses or changes a legacy file or touches another
   account, resumable or not; the owner had nothing but perhaps an uncommitted tmp.
   */
  lemma {:induction false} MigrationLosesNothing(s: Layout, key: Key, runs: Runs)
    requires s.marker.None?
    ensures Moving(s, AfterRuns(s, key, runs))
  {
    if runs != [] {
      var n := |runs| - 1;
      MigrationLosesNothing(s, key, runs[..n]);
      StepStaysMoving(s, AfterRuns(s, key, runs[..n]), key, runs[n].0, runs[n].1);
    }
  }

  /** The run reads the files as this user's, or as nobody's. */
  predicate ReadsAs(legacy: Disk<Bytes>, key: Key, access: Access, user: User) {
    OwnerRead(legacy, key, access) in {None, Some(user)}
  }

  predicate AllReadAs(legacy: Disk<Bytes>, key: Key, runs: Runs, user: User) {
    forall k :: 0 <= k < |runs| ==> ReadsAs(legacy, key, runs[k].1, user)
  }

  /** And if every run takes the files for the same user's, they go to that user or nowhere. */
  lemma {:induction false} MigrationServesReader(s: Layout, key: Key, user: User, runs: Runs)
    requires s.marker.None? && AllReadAs(s.legacy, key, runs, user)
    ensures AfterRuns(s, key, runs).marker in {None, Some(user)}
  {
    if runs != [] {
      var n := |runs| - 1;
      MigrationServesReader(s, key, user, runs[..n]);
      MigrationLosesNothing(s, key, runs[..n]);
      assert ReadsAs(s.legacy, key, runs[n].1, user);
    }
  }

  /** What is left of movable files always loads to their user. */
  lemma MovableHasTarget(s: Layout, now: Layout, key: Key, user: User)
    requires Unclaimed(s, user) && Movable(s.legacy, key, user) && Moving(s, now)
    requires now.marker in {None, Some(user)} && now.legacy != EMPTY_DISK
    ensures Target(now, key, FULL) == Some(user)
  {
  }

  /** A run that passes its checks marks the owner before anything else, and moves as many files as it gets to, main last. */
  lemma RunMarksFirst(s: Layout, key: Key, cut: Cut, access: Access)
    requires s.legacy != EMPTY_DISK && Target(s, key, access).Some?
    ensures var after := Migrated(s, key, cut, access);
            && after.marker == (if cut.BeforeMarker? then s.marker else Target(s, key, access))
            && (after.legacy.tmp == if cut.BeforeMarker? || cut.AfterMarker? then s.legacy.tmp else Absent)
            && (after.legacy.bak == if cut.AfterBak? || cut.Complete? then Absent else s.legacy.bak)
            && (after.legacy.main == if cut.Complete? then Absent else s.legacy.main)
  {
  }

  /** A run goes nowhere unless the files it can read name an owner, and the marker, or an unused directory, agrees. */
  lemma RunNeedsOwner(s: Layout, key: Key, cut: Cut, access: Access)
    ensures var owner := OwnerRead(s.legacy, key, access);
            owner.None? || (s.marker.Some? && s.marker != owner) || (s.marker.None? && Committed(Account(s, owner.value)))
            ==> Migrated(s, key, cut, access) == s
  {
  }

  lemma CompleteRunEmpties(s: Layout, key: Key, access: Access)
    requires Target(s, key, access).Some?
    ensures Migrated(s, key, Complete, access).legacy == EMPTY_DISK
    ensures Migrated(s, key, Complete, access).marker == Target(s, key, access)
  {
  }

  /**
   After any such runs over movable files, one complete run that can read them
   ends the migration with the owner's directory holding the legacy files.
   */
  lemma MigrationCompletes(s: Layout, key: Key, user: User, runs: Runs)
    requires Unclaimed(s, user) && Movable(s.legacy, key, user) && AllReadAs(s.legacy, key, runs, user)
    ensures var done := Migrated(AfterRuns(s, key, runs), key, Complete, FULL);
            && done.legacy == EMPTY_DISK
            && Account(done, user) == s.legacy.(tmp := TmpAfter(s.legacy, Account(s, user)))
  {
    MigrationLosesNothing(s, key, runs);
    MigrationServesReader(s, key, user, runs);
    var now := AfterRuns(s, key, runs);
    StepStaysMoving(s, now, key, Complete, FULL);
    assert s.legacy != EMPTY_DISK;
    if now.legacy != EMPTY_DISK {
      MovableHasTarget(s, now, key, user);
      CompleteRunEmpties(now, key, FULL);
    }
    hide Target, AfterRuns, Movable, AllReadAs;
  }

  ghost predicate LoadsAlike(a: Disk<Bytes>, b: Disk<Bytes>, entry: KeyEntry, cache: Option<Key>, fault: KeyFault, access: Access) {
    Load(Snapshot(a, entry, cache), fault, access).0 == Load(Snapshot(b, entry, cache), fault, access).0
  }

  /**
   Once no legacy file is left, the account loads exactly what the legacy files
   loaded to, errors included, if and only if the account had no sealed tmp of its
   own, or the legacy one replaced it.
   */
  lemma MigratedLoadsTheSameIff(s: Layout, key: Key, user: User, runs: Runs)
    requires s.marker.None? && s.legacy != EMPTY_DISK
    requires AfterRuns(s, key, runs).legacy == EMPTY_DISK && AfterRuns(s, key, runs).marker == Some(user)
    ensures (forall entry, cache, fault, access :: LoadsAlike(Account(AfterRuns(s, key, runs), user), s.legacy, entry, cache, fault, access))
            <==> !Account(s, user).tmp.Sealed? || !s.legacy.tmp.Absent?
  {
    MigrationLosesNothing(s, key, runs);
    var moved, own := Account(AfterRuns(s, key, runs), user), Account(s, user);
    assert moved == s.legacy.(tmp := TmpAfter(s.legacy, own));
    hide AfterRuns;
    if own.tmp.Sealed? && s.legacy.tmp.Absent? {
      assert !LoadsAlike(moved, s.legacy, NoEntry, Some(own.tmp.key), Healthy, FULL.(main := false, bak := false));
    }
  }

  /** Some interruption after which no number of complete runs finishes. */
  ghost predicate CanStick(s: Layout, key: Key, user: User) {
    exists cut, access :: ReadsAs(s.legacy, key, access, user) && Stuck(Migrated(s, key, cut, access), key)
  }

  predicate Stuck(s: Layout, key: Key) {
    s.legacy != EMPTY_DISK && Target(s, key, FULL).None?
  }

  lemma {:induction false} StuckStaysStuck(s: Layout, key: Key, runs: Runs)
    requires Stuck(s, key) && forall k :: 0 <= k < |runs| ==> runs[k].1 == FULL
    ensures AfterRuns(s, key, runs) == s
  {
    if runs != [] { StuckStaysStuck(s, key, runs[..|runs| - 1]); }
  }

  /**
   The exact condition: for legacy files that load to a user with nothing
   committed, every interruption can be resumed if and only if whatever is left to
   move opens by itself. A damaged main with a good backup is the way to get stuck.
   */
  lemma ResumableIffMovable(s: Layout, key: Key, user: User)
    requires Unclaimed(s, user) && LegacyOwner(s.legacy, key) == Some(user)
    ensures !CanStick(s, key, user) <==> Movable(s.legacy, key, user)
  {
    if Movable(s.legacy, key, user) {
      forall cut, access | ReadsAs(s.legacy, key, access, user) ensures !Stuck(Migrated(s, key, cut, access), key) {
        StepStaysMoving(s, s, key, cut, access);
        var now := Migrated(s, key, cut, access);
        assert now.marker in {None, Some(user)};
        if now.legacy != EMPTY_DISK { MovableHasTarget(s, now, key, user); }
      }
    } else if !s.legacy.main.Absent? {
      assert Stuck(Migrated(s, key, AfterBak, FULL), key);
    } else {
      assert Stuck(Migrated(s, key, AfterTmp, FULL), key);
    }
  }

  // ---------------------------------------------------------------- the moves

  /** The application data directory. */
  class AppData {
    var legacy: Disk<Bytes>
    var accounts: map<User, Disk<Bytes>>
    var marker: Option<User>

    ghost function View(): Layout
      reads this
    {
      Layout(legacy, accounts, marker)
    }

    /** The loop over tmp, bak and main; a missing source is skipped. */
    method MoveFiles(user: User, cut: Cut)
      modifies `legacy, `accounts
      ensures View() == Moved(old(View()), user, cut)
    {
      var account := if user in accounts then accounts[user] else EMPTY_DISK;
      if cut.BeforeMarker? || cut.AfterMarker? { return; }
      if !legacy.tmp.Absent? {
        account := account.(tmp := legacy.tmp);
        legacy, accounts := legacy.(tmp := Absent), accounts[user := account];
      }
      if cut.AfterTmp? { return; }
      if !legacy.bak.Absent? {
        account := account.(bak := legacy.bak);
        legacy, accounts := legacy.(bak := Absent), accounts[user := account];
      }
      if cut.AfterBak? { return; }
      if !legacy.main.Absent? {
        account := account.(main := legacy.main);
        legacy, accounts := legacy.(main := Absent), accounts[user := account];
      }
    }

    method MigrateLegacy(key: Key, cut: Cut, access: Access) returns (finished: bool)
      modifies this
      ensures View() == Migrated(old(View()), key, cut, access)
      ensures finished ==> legacy == EMPTY_DISK
    {
      if legacy == EMPTY_DISK { return true; }
      var owner := OwnerRead(legacy, key, access);
      if owner.None? { return false; }
      var user := owner.value;
      if marker.Some? {
        if marker.value != user { return false; }
      } else if user in accounts && Committed(accounts[user]) {
        return false;
      }
      if cut.BeforeMarker? { return false; }
      marker := Some(user);
      MoveFiles(user, cut);
      finished := cut.Complete?;
    }
  }
}
