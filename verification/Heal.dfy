/**
 Self-healing of one group copy (externalJoinOrResync and healGroup in
 mlsSession.js): join or resync by external commit, three attempts against
 other devices that may win the epoch race each time.
 */
module Heal {
  import opened Groups
  import opened Wrappers

  /** This device's copy, if it holds the group, and the server's commit log of that group. */
  datatype World = World(copy: Option<Group>, log: History)

  /** A commit some other device gets accepted. */
  datatype Other = Other(device: DeviceId, serial: nat)

  datatype InfoReply = Current | Absent | Unavailable | Unsupported | NotMember | InfoError

  /** How a submit may go: commits that win the race, whether the reply is lost, and whether the log then answers. */
  datatype Submission = Submission(serial: nat, racing: seq<Other>, replyLost: bool, logLost: bool)

  /**
   What the outside does in one attempt: commits accepted before GroupInfo is
   read, the reply, what this device applied from live events meanwhile, the
   submit, commits accepted before the catch-up, whether the catch-up goes
   unanswered, and, if a stale leaf of this device is in the tree after a join,
   the submit of its removal.
   */
  datatype Attempt = Attempt(before: seq<Other>, info: InfoReply, heard: seq<Entry>, submit: Submission,
                             after: seq<Other>, catchUpLost: bool, cleanup: Option<Submission>)

  datatype Reason = NotAMember | GroupInfoError | GroupInfoUnavailable | Rejected | EpochConflict

  datatype Action = Joined | Resynced | NothingToDo | UnsupportedServer | NoSuchGroup | Skipped | Failed(reason: Reason)

  /** `seen` is the log as the server last showed it to this device, or left it when it last accepted a commit of it. */
  datatype Outcome = Outcome(action: Action, world: World, seen: History)

  function Extend(log: History, others: seq<Other>): History
    decreases |others|
  {
    if others == [] then log else Extend(log + [Commit(others[0].device, others[0].serial, |log|)], others[1..])
  }

  function Entries(log: History): seq<Entry>
    ensures |Entries(log)| == |log|
  {
    seq(|log|, i requires 0 <= i < |log| => Entry(i + 1, log[i]))
  }

  predicate OthersOnly(self: DeviceId, others: seq<Other>) {
    forall i | 0 <= i < |others| :: others[i].device != self
  }

  predicate FromOthers(self: DeviceId, a: Attempt) {
    && OthersOnly(self, a.before) && OthersOnly(self, a.submit.racing) && OthersOnly(self, a.after)
    && (a.cleanup.Some? ==> OthersOnly(self, a.cleanup.value.racing))
  }

  /** The log names this very commit for its epoch. */
  predicate LoggedAt(log: History, c: Commit) {
    c.base < |log| && log[c.base] == c
  }

  /** The delivery service appends a commit only to the epoch it was made in. */
  function AppendIfCurrent(log: History, c: Commit): History {
    if c.base == |log| then log + [c] else log
  }

  /** The server after a submit of `c`, others having raced it. */
  function Submitted(log: History, c: Commit, s: Submission): History {
    AppendIfCurrent(Extend(log, s.racing), c)
  }

  /**
   runOwnCommit: a clean reply decides; a lost one is settled by the log, and
   wasOwnCommitAccepted says no when three fetches of the log go unanswered.
   */
  predicate Adopts(log: History, c: Commit, s: Submission) {
    if s.replyLost then !s.logLost && LoggedAt(Submitted(log, c, s), c) else c.base == |Extend(log, s.racing)|
  }

  function CatchUpCopy(self: DeviceId, copy: Option<Group>, entries: seq<Entry>): Option<Group> {
    if copy.None? then None else Some(Replay(self, copy.value, entries))
  }

  /** catchUpGroup's verdict against the server's own epoch. */
  predicate Diverged(copy: Option<Group>, log: History) {
    copy.Some? && |log| > 0 && |copy.value.history| != |log|
  }

  /** One attempt ends the call, or leaves a lost race and a caught-up copy behind. */
  datatype Turn = Ends(outcome: Outcome) | LostRace(world: World)

  /** The log the server had when it last accepted a commit of this device, `c` being the one submitted now. */
  function AcceptedUpTo(log: History, c: Commit, s: Submission): History {
    if c.base == |Extend(log, s.racing)| then Submitted(log, c, s) else log
  }

  /**
   After a join or resync to `joined`, removeOwnStaleLeaves: one more own commit. Not
   adopted, it changes nothing in the copy; the server may have accepted it all the same.
   */
  function Cleaned(self: DeviceId, action: Action, joined: History, log: History, cleanup: Option<Submission>): Outcome {
    match cleanup
    case None => Outcome(action, World(Some(Group(joined, 0, 0)), log), log)
    case Some(s) =>
      var own := StaleLeafCommit(self, joined, s);
      Outcome(action, World(Some(Group(if Adopts(log, own, s) then joined + [own] else joined, 0, 0)), Submitted(log, own, s)),
              AcceptedUpTo(log, own, s))
  }

  function StaleLeafCommit(self: DeviceId, joined: History, s: Submission): Commit {
    Commit(self, s.serial, |joined|)
  }

  /** The external commit of one attempt, made from GroupInfo `info`. */
  function OwnCommit(self: DeviceId, info: History, a: Attempt): Commit {
    Commit(self, a.submit.serial, |info|)
  }

  function TryOnce(self: DeviceId, w: World, a: Attempt, force: bool): Turn {
    var info := Extend(w.log, a.before);
    match a.info
    case Absent => Ends(Outcome(NoSuchGroup, World(w.copy, info), info))
    case Unavailable => Ends(Outcome(Failed(GroupInfoUnavailable), World(w.copy, info), info))
    case Unsupported => Ends(Outcome(UnsupportedServer, World(w.copy, info), info))
    case NotMember => Ends(Outcome(Failed(NotAMember), World(w.copy, info), info))
    case InfoError => Ends(Outcome(Failed(GroupInfoError), World(w.copy, info), info))
    case Current =>
      var copy := CatchUpCopy(self, w.copy, a.heard);
      if copy.Some? && !force && |copy.value.history| == |info| then Ends(Outcome(NothingToDo, World(copy, info), info))
      else
        var own := OwnCommit(self, info, a);
        var log := Submitted(info, own, a.submit);
        if Adopts(info, own, a.submit) then
          Ends(Cleaned(self, if copy.Some? then Resynced else Joined, info + [own], log, a.cleanup))
        else if a.submit.replyLost then Ends(Outcome(Failed(Rejected), World(copy, log), log))
        else
          var later := Extend(log, a.after);
          var caught := if a.catchUpLost then copy else CatchUpCopy(self, copy, Entries(later));
          if caught.Some? && (a.catchUpLost || !Diverged(caught, later)) && !force then
            Ends(Outcome(NothingToDo, World(caught, later), if a.catchUpLost then log else later))
          else LostRace(World(caught, later))
  }

  /** externalJoinOrResync with the attempts it has left. */
  function Attempts(self: DeviceId, w: World, rounds: seq<Attempt>, force: bool): Outcome
    decreases |rounds|
  {
    if rounds == [] then Outcome(Failed(EpochConflict), w, w.log)
    else match TryOnce(self, w, rounds[0], force)
      case Ends(outcome) => outcome
      case LostRace(next) => Attempts(self, next, rounds[1..], force)
  }

  method ExternalJoinOrResync(self: DeviceId, start: World, rounds: seq<Attempt>, force: bool) returns (r: Outcome)
    requires |rounds| == 3
    ensures r == Attempts(self, start, rounds, force)
  {
    var w := start;
    for attempt := 0 to 3
      invariant Attempts(self, start, rounds, force) == Attempts(self, w, rounds[attempt..], force)
    {
      var turn := TryOnce(self, w, rounds[attempt], force);
      assert rounds[attempt..][1..] == rounds[attempt + 1..];
      if turn.Ends? { return turn.outcome; }
      w := turn.world;
    }
    r := Outcome(Failed(EpochConflict), w, w.log);
  }

  // ---------------------------------------------------------------- adoption

  lemma {:induction false} ExtendKeeps(log: History, others: seq<Other>)
    ensures log <= Extend(log, others) && |Extend(log, others)| == |log| + |others|
    ensures forall i | |log| <= i < |log| + |others| ::
              Extend(log, others)[i] == Commit(others[i - |log|].device, others[i - |log|].serial, i)
    decreases |others|
  {
    if others != [] {
      var next := log + [Commit(others[0].device, others[0].serial, |log|)];
      ExtendKeeps(next, others[1..]);
      assert Extend(log, others)[|log|] == next[|log|];
    }
  }

  /** An own commit is adopted exactly when nobody raced it and its fate became known: by a clean reply or from the log. */
  lemma AdoptedIffUnracedAndKnown(self: DeviceId, log: History, s: Submission)
    requires OthersOnly(self, s.racing)
    ensures Adopts(log, Commit(self, s.serial, |log|), s) <==> s.racing == [] && !(s.replyLost && s.logLost)
    ensures Submitted(log, Commit(self, s.serial, |log|), s)
            == if s.racing == [] then log + [Commit(self, s.serial, |log|)] else Extend(log, s.racing)
  {
    ExtendKeeps(log, s.racing);
    if s.racing != [] { assert Extend(log, s.racing)[|log|].author == s.racing[0].device; }
  }

  // ---------------------------------------------------------------- convergence

  predicate Healed(action: Action) {
    action == Joined || action == Resynced || action == NothingToDo
  }

  /** The fate of a submit becomes known: a clean reply, or an unraced commit found in the log. */
  predicate Known(s: Submission) {
    s.replyLost ==> s.racing == [] && !s.logLost
  }

  /** The server answers: current GroupInfo, every conflict reply and every catch-up, the log where a reply was lost. */
  predicate Answers(a: Attempt) {
    a.info == Current && !a.catchUpLost && Known(a.submit)
  }

  predicate AtServerEpoch(r: Outcome) {
    r.world.copy.Some? && |r.world.copy.value.history| == |r.seen|
  }

  /** The copy is the server's log as that last accepted a commit of this device, and a prefix of it from then on. */
  predicate OnShownLog(r: Outcome) {
    r.world.copy == Some(Group(r.seen, 0, 0)) && r.seen <= r.world.log
  }

  /** No stale-leaf commit was accepted behind this device's back: none was due, or it was raced, or its fate became known. */
  predicate Settles(cleanup: Option<Submission>) {
    cleanup.None? || cleanup.value.racing != [] || !(cleanup.value.replyLost && cleanup.value.logLost)
  }

  /** The copy lacks exactly one commit the server took from this device last. */
  predicate OneBehind(self: DeviceId, r: Outcome) {
    && r.world.copy.Some? && |r.seen| == |r.world.copy.value.history| + 1
    && r.world.copy.value.history == r.seen[..|r.seen| - 1] && r.seen[|r.seen| - 1].author == self && r.seen <= r.world.log
  }

  /** After the stale-leaf commit the copy is the server's log exactly when that commit settles; otherwise it is one behind. */
  lemma CleanupKeepsCopyOnLog(self: DeviceId, action: Action, joined: History, cleanup: Option<Submission>)
    requires cleanup.Some? ==> OthersOnly(self, cleanup.value.racing)
    ensures var r := Cleaned(self, action, joined, joined, cleanup);
            && r.action == action
            && (OnShownLog(r) <==> Settles(cleanup)) && (AtServerEpoch(r) <==> Settles(cleanup))
            && (!Settles(cleanup) ==> OneBehind(self, r) && r.seen == r.world.log)
  {
    if cleanup.Some? {
      AdoptedIffUnracedAndKnown(self, joined, cleanup.value);
      ExtendKeeps(joined, cleanup.value.racing);
    }
  }

  /** What an outcome of an answered attempt says about the copy. */
  predicate Converged(self: DeviceId, r: Outcome, a: Attempt) {
    if r.action == NothingToDo then AtServerEpoch(r)
    else
      && (OnShownLog(r) <==> Settles(a.cleanup)) && (AtServerEpoch(r) <==> Settles(a.cleanup))
      && (!Settles(a.cleanup) ==> OneBehind(self, r))
  }

  lemma OneAttempt(self: DeviceId, w: World, a: Attempt, force: bool)
    requires FromOthers(self, a) && Answers(a)
    ensures var t := TryOnce(self, w, a, force);
            if t.Ends? then Healed(t.outcome.action) && Converged(self, t.outcome, a)
            else a.submit.racing != [] && |w.log| < |t.world.log|
  {
    var info := Extend(w.log, a.before);
    var own := OwnCommit(self, info, a);
    ExtendKeeps(w.log, a.before);
    ExtendKeeps(info, a.submit.racing);
    AdoptedIffUnracedAndKnown(self, info, a.submit);
    CleanupKeepsCopyOnLog(self, Joined, info + [own], a.cleanup);
    CleanupKeepsCopyOnLog(self, Resynced, info + [own], a.cleanup);
    ExtendKeeps(Submitted(info, own, a.submit), a.after);
    hide Cleaned, Adopts, Submitted, Extend, CatchUpCopy, OnShownLog, OneBehind, Settles;
  }

  /** The attempt that ended the call, with the world it started from. */
  function Deciding(self: DeviceId, w: World, rounds: seq<Attempt>, force: bool): Option<(World, Attempt)>
    decreases |rounds|
  {
    if rounds == [] then None
    else match TryOnce(self, w, rounds[0], force)
      case Ends(_) => Some((w, rounds[0]))
      case LostRace(next) => Deciding(self, next, rounds[1..], force)
  }

  /**
   With a server that answers, and at least one of the attempts unraced, the call
   ends joined, resynced or with nothing to do. With nothing to do the copy is at the
   epoch the server last showed. After a join or resync it is the server's log as that
   last accepted a commit of this device, if and only if the stale-leaf commit that may
   follow was not accepted with its reply lost and the log out of reach; then the copy
   is exactly that one commit behind.
   */
  lemma {:induction false} SelfHealConverges(self: DeviceId, w: World, rounds: seq<Attempt>, force: bool)
    requires forall i | 0 <= i < |rounds| :: FromOthers(self, rounds[i]) && Answers(rounds[i])
    ensures var r, deciding := Attempts(self, w, rounds, force), Deciding(self, w, rounds, force);
            if Healed(r.action)
            then deciding.Some? && Converged(self, r, deciding.value.1)
            else r.action == Failed(EpochConflict) && forall i | 0 <= i < |rounds| :: rounds[i].submit.racing != []
    decreases |rounds|
  {
    if rounds != [] {
      OneAttempt(self, w, rounds[0], force);
      var t := TryOnce(self, w, rounds[0], force);
      if t.LostRace? {
        SelfHealConverges(self, t.world, rounds[1..], force);
        assert forall i | 0 < i < |rounds| :: rounds[i] == rounds[1..][i - 1];
      }
      hide TryOnce, Converged;
    }
  }

  // ---------------------------------------------------------------- what "nothing to do" means

  /** The epoch this device's copy is at when the attempt submits. */
  function CopyEpoch(self: DeviceId, w: World, a: Attempt): Option<nat> {
    var copy := CatchUpCopy(self, w.copy, a.heard);
    if copy.None? then None else Some(|copy.value.history|)
  }

  /** The attempt was raced, and its catch-up went unanswered. */
  predicate EndsUnanswered(self: DeviceId, w: World, a: Attempt) {
    a.catchUpLost && a.submit.racing != [] && CopyEpoch(self, w, a) != Some(|w.log| + |a.before|)
  }

  lemma OneAttemptHealthyIff(self: DeviceId, w: World, a: Attempt, force: bool)
    requires FromOthers(self, a)
    ensures var t := TryOnce(self, w, a, force);
            t.Ends? && t.outcome.action == NothingToDo ==>
              (AtServerEpoch(t.outcome) <==>
                 !EndsUnanswered(self, w, a) || CopyEpoch(self, w, a) == Some(|w.log| + |a.before| + |a.submit.racing|))
  {
    var info := Extend(w.log, a.before);
    ExtendKeeps(w.log, a.before);
    ExtendKeeps(info, a.submit.racing);
    AdoptedIffUnracedAndKnown(self, info, a.submit);
    ExtendKeeps(Submitted(info, OwnCommit(self, info, a), a.submit), a.after);
    hide Cleaned, Adopts, Submitted, Extend, CatchUpCopy;
  }

  /**
   Whenever a call, however it was disturbed, ends with nothing to do, the copy
   is at the server's epoch if and only if the deciding attempt was not a lost
   race with an unanswered catch-up, or the copy already had the epoch the race
   ended at. A copy that is only behind never does.
   */
  lemma {:induction false} NothingToDoIsHealthyIff(self: DeviceId, w: World, rounds: seq<Attempt>, force: bool)
    requires forall i | 0 <= i < |rounds| :: FromOthers(self, rounds[i])
    requires Attempts(self, w, rounds, force).action == NothingToDo
    ensures Deciding(self, w, rounds, force).Some?
    ensures var (at, a) := Deciding(self, w, rounds, force).value;
            AtServerEpoch(Attempts(self, w, rounds, force))
            <==> !EndsUnanswered(self, at, a) || CopyEpoch(self, at, a) == Some(|at.log| + |a.before| + |a.submit.racing|)
    decreases |rounds|
  {
    OneAttemptHealthyIff(self, w, rounds[0], force);
    var t := TryOnce(self, w, rounds[0], force);
    if t.LostRace? {
      assert forall i | 0 < i < |rounds| :: rounds[i] == rounds[1..][i - 1];
      NothingToDoIsHealthyIff(self, t.world, rounds[1..], force);
    }
    hide TryOnce, EndsUnanswered, CopyEpoch;
  }

  /** When the catch-up after a lost race goes unanswered, a held copy is reported healthy however far behind it is. */
  lemma UnansweredCatchUpEndsHealing(self: DeviceId, w: World, a: Attempt, rest: seq<Attempt>)
    requires FromOthers(self, a) && a.info == Current && a.catchUpLost && a.submit.racing != [] && !a.submit.replyLost
    requires w.copy.Some? && a.heard == [] && |w.copy.value.history| < |w.log|
    ensures var r := Attempts(self, w, [a] + rest, false);
            r.action == NothingToDo && r.world.copy == w.copy && |w.copy.value.history| < |r.seen|
  {
    assert ([a] + rest)[0] == a;
    NoneNext(self, w.copy.value, []);
    ExtendKeeps(w.log, a.before);
    ExtendKeeps(Extend(w.log, a.before), a.submit.racing);
    AdoptedIffUnracedAndKnown(self, Extend(w.log, a.before), a.submit);
  }

  // ---------------------------------------------------------------- how a call ends

  /** How an attempt ends that gets no current GroupInfo: it says why, and touches neither the copy nor the server. */
  function Refusal(info: InfoReply): Action
    requires !info.Current?
  {
    match info
    case Absent => NoSuchGroup
    case Unavailable => Failed(GroupInfoUnavailable)
    case Unsupported => UnsupportedServer
    case NotMember => Failed(NotAMember)
    case InfoError => Failed(GroupInfoError)
  }

  lemma RefusedAttemptTouchesNothing(self: DeviceId, w: World, a: Attempt, rest: seq<Attempt>, force: bool)
    requires !a.info.Current?
    ensures var r := Attempts(self, w, [a] + rest, force);
            r.action == Refusal(a.info) && r.world.copy == w.copy && r.world.log == r.seen == Extend(w.log, a.before)
  {
    assert ([a] + rest)[0] == a;
    hide Extend;
  }

  /** With a current GroupInfo: joined without a copy and resynced with one, the stale-leaf commit aside; and the server's log only grows. */
  lemma AttemptEnds(self: DeviceId, w: World, a: Attempt, force: bool)
    requires FromOthers(self, a) && a.info.Current?
    ensures var t := TryOnce(self, w, a, force);
            && (t.Ends? && t.outcome.action == Joined ==> w.copy.None?)
            && (t.Ends? && t.outcome.action == Resynced ==> w.copy.Some?)
            && (t.Ends? && t.outcome.action.Failed? ==> t.outcome.action.reason == Rejected && a.submit.replyLost)
            && (t.LostRace? ==> t.world.log == Extend(Extend(Extend(w.log, a.before), a.submit.racing), a.after)
                                && |t.world.log| == |w.log| + |a.before| + |a.submit.racing| + |a.after|)
            && (t.Ends? ==> t.outcome.action in {Joined, Resynced, NothingToDo, Failed(Rejected)})
  {
    var info := Extend(w.log, a.before);
    ExtendKeeps(w.log, a.before);
    ExtendKeeps(info, a.submit.racing);
    AdoptedIffUnracedAndKnown(self, info, a.submit);
    ExtendKeeps(Extend(info, a.submit.racing), a.after);
    hide Extend, Adopts, Submitted, Replay;
  }

  // ---------------------------------------------------------------- what is repaired

  ghost predicate OnLog(w: World) {
    w.copy.Some? && w.copy.value.history <= w.log
  }

  /** An attempt that nobody disturbs. */
  function Quiet(serial: nat): Attempt {
    Attempt([], Current, [], Submission(serial, [], false, false), [], false, None)
  }

  /**
   An attempt that nobody disturbs leaves the copy on the server's log exactly
   when it joins or resyncs, or the copy was already there: a fork of the
   server's own length is repaired only by force.
   */
  lemma RepairsUnlessSameEpochFork(self: DeviceId, w: World, rest: seq<Attempt>, serial: nat, force: bool)
    ensures OnLog(Attempts(self, w, [Quiet(serial)] + rest, force).world)
            <==> force || OnLog(w) || w.copy.None? || |w.copy.value.history| != |w.log|
  {
    assert ([Quiet(serial)] + rest)[0] == Quiet(serial);
    if w.copy.Some? { NoneNext(self, w.copy.value, []); }
  }

  // ---------------------------------------------------------------- healGroup

  predicate LooksHealthy(w: World, unheard: bool) {
    w.copy.Some? && (unheard || !Diverged(w.copy, w.log))
  }

  /** The world after healGroup's first catch-up; `unheard` says that it went unanswered. */
  function AfterFirst(self: DeviceId, w: World, unheard: bool): World {
    World(if unheard then w.copy else CatchUpCopy(self, w.copy, Entries(w.log)), w.log)
  }

  /** healGroup: catch up first, then heal a copy that is missing, diverged or forced. An unanswered catch-up reports no divergence. */
  function HealGroup(self: DeviceId, w: World, unheard: bool, onList: bool, rounds: seq<Attempt>, force: bool): Outcome {
    var first := AfterFirst(self, w, unheard);
    if !onList then Outcome(Skipped, first, w.log)
    else if LooksHealthy(first, unheard) && !force then Outcome(NothingToDo, first, w.log)
    else Attempts(self, first, rounds, force)
  }

  /**
   A listed device heals unless it holds the group and is not forced, and its first
   catch-up went unanswered, or found the server's epoch or a server without the group.
   */
  lemma HealGroupDecides(self: DeviceId, w: World, unheard: bool, rounds: seq<Attempt>, force: bool)
    ensures var copy := if unheard || w.copy.None? then w.copy else Some(Replay(self, w.copy.value, Entries(w.log)));
            HealGroup(self, w, unheard, true, rounds, force) ==
            if copy.Some? && !force && (unheard || w.log == [] || |copy.value.history| == |w.log|)
            then Outcome(NothingToDo, World(copy, w.log), w.log)
            else Attempts(self, World(copy, w.log), rounds, force)
  {
    hide Attempts, Replay;
  }

  /** A device that is not on the member list only catches up. */
  lemma UnlistedOnlyCatchesUp(self: DeviceId, w: World, unheard: bool, rounds: seq<Attempt>, force: bool)
    ensures var r := HealGroup(self, w, unheard, false, rounds, force);
            && r.action == Skipped && r.world.log == w.log == r.seen
            && r.world.copy == if unheard || w.copy.None? then w.copy else Some(Replay(self, w.copy.value, Entries(w.log)))
  {
  }

  /**
   Whenever healGroup ends with nothing to do, the copy is at the server's epoch
   if and only if: it was the first catch-up's verdict, and that was answered by
   a server that has the group, or the copy happened to have the server's epoch;
   or the attempts decided, under the condition above.
   */
  lemma HealGroupHealthyIff(self: DeviceId, w: World, unheard: bool, rounds: seq<Attempt>, force: bool)
    requires forall i | 0 <= i < |rounds| :: FromOthers(self, rounds[i])
    requires HealGroup(self, w, unheard, true, rounds, force).action == NothingToDo
    ensures var first := AfterFirst(self, w, unheard);
            AtServerEpoch(HealGroup(self, w, unheard, true, rounds, force)) <==>
              if LooksHealthy(first, unheard) && !force
              then (!unheard && w.log != []) || |first.copy.value.history| == |w.log|
              else
                var (at, a) := Deciding(self, first, rounds, force).GetOr((first, Quiet(0)));
                !EndsUnanswered(self, at, a) || CopyEpoch(self, at, a) == Some(|at.log| + |a.before| + |a.submit.racing|)
  {
    var first := AfterFirst(self, w, unheard);
    if !(LooksHealthy(first, unheard) && !force) { NothingToDoIsHealthyIff(self, first, rounds, force); }
    hide Attempts, Deciding, EndsUnanswered, CopyEpoch;
  }

  lemma EntriesTruthful(log: History)
    ensures Truthful(Entries(log), log)
  {
  }

  predicate WellBased(log: History) {
    forall i | 0 <= i < |log| :: log[i].base == i
  }

  /** Catching up from the log reaches its end, or stops short only before this device's own commit. */
  lemma CatchUpReachesEnd(self: DeviceId, copy: Group, log: History)
    requires copy.history <= log && WellBased(log)
    ensures var g := Replay(self, copy, Entries(log));
            g.history <= log && (g.history == log || log[|g.history|].author == self)
  {
    EntriesTruthful(log);
    ReplayStaysOnLog(self, copy, Entries(log), log);
    ReplayIsFinal(self, copy, Entries(log));
    var g := Replay(self, copy, Entries(log));
    if |g.history| < |log| {
      assert Entries(log)[|g.history|] == Entry(|g.history| + 1, log[|g.history|]);
    }
  }

  /** The answered catch-up of healGroup already found a held copy at the server's epoch, and nothing was forced. */
  predicate HealthyAtFirst(self: DeviceId, w: World, force: bool) {
    LooksHealthy(AfterFirst(self, w, false), false) && !force
  }

  /**
   The same for a whole heal of a listed device whose first catch-up is answered, with
   one unraced attempt: at the server's epoch, or as the deciding attempt's cleanup left it.
   */
  lemma HealGroupConverges(self: DeviceId, w: World, rounds: seq<Attempt>, force: bool)
    requires rounds != [] && exists i | 0 <= i < |rounds| :: rounds[i].submit.racing == []
    requires forall i | 0 <= i < |rounds| :: FromOthers(self, rounds[i]) && Answers(rounds[i])
    requires |w.log| > 0
    ensures var r := HealGroup(self, w, false, true, rounds, force);
            && Healed(r.action)
            && if HealthyAtFirst(self, w, force) then r.action == NothingToDo && AtServerEpoch(r)
               else
                 var deciding := Deciding(self, AfterFirst(self, w, false), rounds, force);
                 deciding.Some? && Converged(self, r, deciding.value.1)
  {
    SelfHealConverges(self, AfterFirst(self, w, false), rounds, force);
    hide Attempts, Deciding, Converged;
  }

  // ---------------------------------------------------------------- a commit nobody confirmed

  /** A replay never passes a commit of this device's own. */
  lemma {:induction false} ReplayStopsAtOwn(self: DeviceId, g: Group, log: History, k: nat)
    requires |g.history| <= k < |log| && log[k].author == self
    ensures |Replay(self, g, Entries(log)).history| <= k
    decreases Highest(Entries(log)) - |g.history|
  {
    var next := NextCommit(self, g, Entries(log));
    if next.Some? {
      var i :| 0 <= i < |Entries(log)| && Entries(log)[i] == Entry(|g.history| + 1, next.value);
      assert log[|g.history|] == next.value;
      ReplayStopsAtOwn(self, Merge(g, next.value), log, k);
    }
  }

  /**
   Accepted but never confirmed: with the reply lost and the log unreachable, an
   unraced own commit is on the server and not in the copy. A copy on the log
   cannot catch up past it; the next heal with an answering server and an
   undisturbed first attempt resyncs it to exactly the server's log.
   */
  lemma StrandedCommitIsRepaired(self: DeviceId, w: World, a: Attempt, serial: nat, rest: seq<Attempt>, force: bool)
    requires OnLog(w) && FromOthers(self, a) && a.info == Current && a.heard == []
    requires force || |w.copy.value.history| != |w.log| + |a.before|
    requires a.submit.racing == [] && a.submit.replyLost && a.submit.logLost
    ensures var t, info := TryOnce(self, w, a, force), Extend(w.log, a.before);
            && t.Ends? && t.outcome.action == Failed(Rejected)
            && t.outcome.world == World(w.copy, info + [OwnCommit(self, info, a)])
            && var r := HealGroup(self, t.outcome.world, false, true, [Quiet(serial)] + rest, false);
               r.action == Resynced && OnShownLog(r) && r.world.log == r.seen
  {
    var info := Extend(w.log, a.before);
    var own := OwnCommit(self, info, a);
    ExtendKeeps(w.log, a.before);
    AdoptedIffUnracedAndKnown(self, info, a.submit);
    NoneNext(self, w.copy.value, []);
    var stranded := World(w.copy, info + [own]);
    assert TryOnce(self, w, a, force) == Ends(Outcome(Failed(Rejected), stranded, info + [own]));
    StrandedHeals(self, stranded, |info|, serial, rest);
  }

  lemma StrandedHeals(self: DeviceId, w: World, k: nat, serial: nat, rest: seq<Attempt>)
    requires w.copy.Some? && |w.copy.value.history| <= k && |w.log| == k + 1 && w.log[k].author == self
    ensures var r := HealGroup(self, w, false, true, [Quiet(serial)] + rest, false);
            r.action == Resynced && OnShownLog(r) && r.world.log == r.seen
  {
    ReplayStopsAtOwn(self, w.copy.value, w.log, k);
    var first := AfterFirst(self, w, false);
    assert ([Quiet(serial)] + rest)[0] == Quiet(serial);
    NoneNext(self, first.copy.value, []);
    AdoptedIffUnracedAndKnown(self, w.log, Quiet(serial).submit);
  }

  /**
   The same behind a join or resync: the stale-leaf commit was accepted and nobody
   could confirm it. The call reports success with a copy one commit behind; the next
   heal with an answering server and an undisturbed first attempt repairs it.
   */
  lemma StrandedCleanupIsRepaired(self: DeviceId, w: World, a: Attempt, serial: nat, rest: seq<Attempt>, force: bool)
    requires FromOthers(self, a) && Answers(a) && a.submit.racing == [] && !Settles(a.cleanup)
    requires force || CopyEpoch(self, w, a) != Some(|w.log| + |a.before|)
    ensures var t := TryOnce(self, w, a, force);
            && t.Ends? && t.outcome.action in {Joined, Resynced} && OneBehind(self, t.outcome)
            && var r := HealGroup(self, t.outcome.world, false, true, [Quiet(serial)] + rest, false);
               r.action == Resynced && OnShownLog(r) && r.world.log == r.seen
  {
    var info := Extend(w.log, a.before);
    var own := OwnCommit(self, info, a);
    ExtendKeeps(w.log, a.before);
    AdoptedIffUnracedAndKnown(self, info, a.submit);
    var action := if CatchUpCopy(self, w.copy, a.heard).Some? then Resynced else Joined;
    CleanupKeepsCopyOnLog(self, action, info + [own], a.cleanup);
    var outcome := Cleaned(self, action, info + [own], info + [own], a.cleanup);
    assert TryOnce(self, w, a, force) == Ends(outcome);
    hide TryOnce, Cleaned, HealGroup, Extend, Adopts, Submitted;
    StrandedHeals(self, outcome.world, |outcome.seen| - 1, serial, rest);
  }
}
