/**
 MLS groups as far as this client depends on them. A group copy is the history
 of commits merged into it; its epoch is the length of that history. Also
 catch-up from the server's commit log (catchUpGroup in mlsSession.js).
 */
module Groups {
  import opened Wrappers

  type GroupId = string
  type DeviceId = string

  /** A commit names its author and the epoch it was made in; serials stand for its random bytes. */
  datatype Commit = Commit(author: DeviceId, serial: nat, base: nat)

  type History = seq<Commit>

  /** One group in a device state: its history, its own sender-ratchet position, its receive position. */
  datatype Group = Group(history: History, generation: nat, received: nat)

  /** The opaque device state: every group this device holds. */
  type Blob = map<GroupId, Group>

  /** A logged commit, labelled with the epoch it produces. */
  datatype Entry = Entry(epoch: nat, commit: Commit)

  // ---------------------------------------------------------------- commits

  /** process_commit succeeds on a commit of the local epoch that is not the device's own. */
  predicate Applies(self: DeviceId, g: Group, c: Commit) {
    c.base == |g.history| && c.author != self
  }

  function Merge(g: Group, c: Commit): Group {
    Group(g.history + [c], 0, 0)
  }

  predicate WellLabelled(entries: seq<Entry>) {
    forall i :: 0 <= i < |entries| ==> entries[i].epoch == entries[i].commit.base + 1
  }

  // ---------------------------------------------------------------- the fold catch-up computes

  /** The first logged commit that takes `g` to its next epoch, in log order. */
  function NextCommit(self: DeviceId, g: Group, entries: seq<Entry>): (r: Option<Commit>)
    ensures r.Some? ==> Applies(self, g, r.value) && exists i :: 0 <= i < |entries| && entries[i] == Entry(|g.history| + 1, r.value)
    ensures r.None? ==> forall i :: 0 <= i < |entries| && entries[i].epoch == |g.history| + 1 ==> !Applies(self, g, entries[i].commit)
  {
    if entries == [] then None
    else if entries[0].epoch == |g.history| + 1 && Applies(self, g, entries[0].commit) then Some(entries[0].commit)
    else
      var r := NextCommit(self, g, entries[1..]);
      assert forall i :: 0 < i < |entries| ==> entries[i] == entries[1..][i - 1];
      r
  }

  function Highest(entries: seq<Entry>): (n: nat)
    ensures forall i :: 0 <= i < |entries| ==> entries[i].epoch <= n
  {
    if entries == [] then 0
    else
      var n := Highest(entries[1..]);
      assert forall i :: 0 < i < |entries| ==> entries[i] == entries[1..][i - 1];
      if entries[0].epoch > n then entries[0].epoch else n
  }

  /** Commits for epoch+1, epoch+2, … merged one after another, up to the first missing or unappliable one. */
  function Replay(self: DeviceId, g: Group, entries: seq<Entry>): Group
    decreases Highest(entries) - |g.history|
  {
    var next := NextCommit(self, g, entries);
    if next.None? then g else Replay(self, Merge(g, next.value), entries)
  }

  /** Catching up again on the same log changes nothing, and no further entry applies. */
  lemma {:induction false} ReplayIsFinal(self: DeviceId, g: Group, entries: seq<Entry>)
    ensures Replay(self, Replay(self, g, entries), entries) == Replay(self, g, entries)
    ensures NextCommit(self, Replay(self, g, entries), entries).None?
    decreases Highest(entries) - |g.history|
  {
    var next := NextCommit(self, g, entries);
    if next.Some? {
      ReplayIsFinal(self, Merge(g, next.value), entries);
    }
  }

  /** Entries that agree with a log keep a copy on that log. */
  ghost predicate Truthful(entries: seq<Entry>, log: History) {
    forall i :: 0 <= i < |entries| ==> 1 <= entries[i].epoch <= |log| && log[entries[i].epoch - 1] == entries[i].commit
  }

  lemma {:induction false} ReplayStaysOnLog(self: DeviceId, g: Group, entries: seq<Entry>, log: History)
    requires g.history <= log && Truthful(entries, log)
    ensures g.history <= Replay(self, g, entries).history <= log
    ensures Replay(self, g, entries) == g || |g.history| < |Replay(self, g, entries).history|
    decreases Highest(entries) - |g.history|
  {
    var next := NextCommit(self, g, entries);
    if next.Some? {
      ReplayStaysOnLog(self, Merge(g, next.value), entries, log);
    }
  }

  /**
   What a truthful reply does to a copy, exactly: it takes over the log's commits from
   its own epoch on, as far as the reply quotes them without a gap and none of them is
   this device's own; its ratchets start anew if there was any.
   */
  lemma {:induction false} ReplayTakesOver(self: DeviceId, g: Group, entries: seq<Entry>, log: History)
    requires g.history <= log && Truthful(entries, log) && forall i :: 0 <= i < |log| ==> log[i].base == i
    ensures var after, n := Replay(self, g, entries), |Replay(self, g, entries).history|;
            && |g.history| <= n <= |log| && after == (if n == |g.history| then g else Group(log[..n], 0, 0))
            && (forall j :: |g.history| <= j < n ==> Takes(self, entries, log, j))
            && (n < |log| ==> !Takes(self, entries, log, n))
    decreases Highest(entries) - |g.history|
  {
    var next, k := NextCommit(self, g, entries), |g.history|;
    if next.Some? {
      var i :| 0 <= i < |entries| && entries[i] == Entry(k + 1, next.value);
      assert log[k] == next.value && Takes(self, entries, log, k);
      assert log[..k + 1] == g.history + [next.value];
      ReplayTakesOver(self, Group(g.history + [next.value], 0, 0), entries, log);
    } else if k < |log| && Entry(k + 1, log[k]) in entries {
      var i :| 0 <= i < |entries| && entries[i] == Entry(k + 1, log[k]);
    }
  }

  /** The reply quotes the commit that makes epoch `j + 1`, and it is not this device's own. */
  ghost predicate Takes(self: DeviceId, entries: seq<Entry>, log: History, j: nat)
    requires j < |log|
  {
    Entry(j + 1, log[j]) in entries && log[j].author != self
  }

  // ---------------------------------------------------------------- sorting the log

  /** The commits labelled `e`, in order. */
  function At(entries: seq<Entry>, e: nat): seq<Commit> {
    if entries == [] then []
    else (if entries[0].epoch == e then [entries[0].commit] else []) + At(entries[1..], e)
  }

  predicate Sorted(entries: seq<Entry>) {
    forall i, j :: 0 <= i < j < |entries| ==> entries[i].epoch <= entries[j].epoch
  }

  /** Before the first entry that is not older, so equal epochs keep their order. */
  function Insert(x: Entry, s: seq<Entry>): seq<Entry> {
    if s == [] || x.epoch <= s[0].epoch then [x] + s else [s[0]] + Insert(x, s[1..])
  }

  /** A stable sort by epoch, which is what Array.prototype.sort is here. */
  function SortByEpoch(entries: seq<Entry>): seq<Entry> {
    if entries == [] then [] else Insert(entries[0], SortByEpoch(entries[1..]))
  }

  lemma {:induction false} InsertKeepsMembers(x: Entry, s: seq<Entry>)
    ensures forall y :: y in Insert(x, s) <==> y == x || y in s
  {
    if s != [] && x.epoch > s[0].epoch {
      InsertKeepsMembers(x, s[1..]);
      assert s == [s[0]] + s[1..];
    }
  }

  lemma {:induction false} InsertSorts(x: Entry, s: seq<Entry>)
    requires Sorted(s)
    ensures Sorted(Insert(x, s))
  {
    if s != [] && x.epoch > s[0].epoch {
      var rest := Insert(x, s[1..]);
      InsertSorts(x, s[1..]);
      InsertKeepsMembers(x, s[1..]);
      forall j | 0 < j < |rest| + 1 ensures s[0].epoch <= ([s[0]] + rest)[j].epoch {
        assert rest[j - 1] in rest;
      }
    }
  }

  lemma {:induction false} InsertIsStable(x: Entry, s: seq<Entry>, e: nat)
    ensures At(Insert(x, s), e) == At([x] + s, e)
  {
    assert ([x] + s)[1..] == s;
    if s != [] && x.epoch > s[0].epoch {
      var rest := Insert(x, s[1..]);
      InsertIsStable(x, s[1..], e);
      assert ([s[0]] + rest)[1..] == rest && ([x] + s[1..])[1..] == s[1..];
    }
  }

  /** The sort orders by epoch, keeps every entry, and keeps the order within each epoch. */
  lemma {:induction false} SortIsStable(entries: seq<Entry>)
    ensures Sorted(SortByEpoch(entries))
    ensures forall y :: y in SortByEpoch(entries) <==> y in entries
    ensures forall e :: At(SortByEpoch(entries), e) == At(entries, e)
  {
    if entries != [] {
      var x, rest := entries[0], SortByEpoch(entries[1..]);
      SortIsStable(entries[1..]);
      InsertSorts(x, rest);
      InsertKeepsMembers(x, rest);
      assert entries == [x] + entries[1..];
      forall e ensures At(Insert(x, rest), e) == At(entries, e) {
        InsertIsStable(x, rest, e);
        assert ([x] + rest)[1..] == rest;
      }
    }
  }

  /** Which commit is next depends only on the commits labelled with the next epoch. */
  lemma {:induction false} NextFromLabelled(self: DeviceId, g: Group, a: seq<Entry>, b: seq<Entry>)
    requires At(a, |g.history| + 1) == At(b, |g.history| + 1)
    ensures NextCommit(self, g, a) == NextCommit(self, g, b)
    decreases |a| + |b|
  {
    var e := |g.history| + 1;
    if a != [] && a[0].epoch != e {
      NextFromLabelled(self, g, a[1..], b);
    } else if b != [] && b[0].epoch != e {
      NextFromLabelled(self, g, a, b[1..]);
    } else if a != [] && b != [] {
      assert At(a, e)[0] == a[0].commit && At(b, e)[0] == b[0].commit;
      assert At(a, e)[1..] == At(a[1..], e) && At(b, e)[1..] == At(b[1..], e);
      NextFromLabelled(self, g, a[1..], b[1..]);
    }
  }

  lemma {:induction false} ReplayIgnoresOrder(self: DeviceId, g: Group, a: seq<Entry>, b: seq<Entry>)
    requires forall e :: At(a, e) == At(b, e)
    ensures Replay(self, g, a) == Replay(self, g, b)
    decreases Highest(a) - |g.history|
  {
    NextFromLabelled(self, g, a, b);
    var next := NextCommit(self, g, a);
    if next.Some? {
      ReplayIgnoresOrder(self, Merge(g, next.value), a, b);
    }
  }

  // ---------------------------------------------------------------- catch-up

  /** The commits in log order, each merged if it is labelled past the local epoch and process_commit takes it. */
  function Pass(self: DeviceId, g: Group, entries: seq<Entry>): Group
    decreases |entries|
  {
    if entries == [] then g
    else
      var c := entries[0];
      Pass(self, if c.epoch > |g.history| && Applies(self, g, c.commit) then Merge(g, c.commit) else g, entries[1..])
  }

  /**
   The commit loop of catchUpGroup: one pass over the sorted log. Whatever the
   order, repeats and gaps of the fetched log, that leaves exactly the fold
   above, if the log labels each commit with the epoch it produces.
   */
  method ApplyLog(self: DeviceId, start: Group, entries: seq<Entry>) returns (g: Group, changed: bool)
    ensures g == Pass(self, start, SortByEpoch(entries))
    ensures WellLabelled(entries) ==> g == Replay(self, start, entries)
    ensures changed <==> g != start
  {
    var sorted := SortByEpoch(entries);
    g, changed := start, false;
    assert sorted[0..] == sorted;
    for i := 0 to |sorted|
      invariant Pass(self, start, sorted) == Pass(self, g, sorted[i..])
      invariant |start.history| <= |g.history|
      invariant if changed then |start.history| < |g.history| else g == start
    {
      var c := sorted[i];
      assert sorted[i..][1..] == sorted[i + 1..];
      if c.epoch > |g.history| && Applies(self, g, c.commit) {
        g, changed := Merge(g, c.commit), true;
      }
    }
    if WellLabelled(entries) { PassIsReplay(self, start, entries); }
  }

  lemma PassIsReplay(self: DeviceId, g: Group, entries: seq<Entry>)
    requires WellLabelled(entries)
    ensures Pass(self, g, SortByEpoch(entries)) == Replay(self, g, entries)
  {
    var sorted := SortByEpoch(entries);
    SortIsStable(entries);
    assert WellLabelled(sorted) by {
      forall i | 0 <= i < |sorted| ensures sorted[i].epoch == sorted[i].commit.base + 1 { assert sorted[i] in entries; }
    }
    assert sorted[0..] == sorted;
    PassFrom(self, g, sorted, 0);
    ReplayIgnoresOrder(self, g, entries, sorted);
  }

  lemma {:induction false} PassFrom(self: DeviceId, g: Group, sorted: seq<Entry>, i: nat)
    requires i <= |sorted| && Sorted(sorted) && WellLabelled(sorted) && NoneApplies(self, g, sorted[..i])
    ensures Pass(self, g, sorted[i..]) == Replay(self, g, sorted)
    decreases |sorted| - i
  {
    if i == |sorted| {
      assert sorted[..i] == sorted;
      NoneNext(self, g, sorted);
    } else {
      var c := sorted[i];
      OneEntry(self, g, sorted, i);
      assert sorted[i..][1..] == sorted[i + 1..];
      PassFrom(self, if c.epoch > |g.history| && Applies(self, g, c.commit) then Merge(g, c.commit) else g, sorted, i + 1);
    }
  }

  /** No entry labelled with the next epoch can be merged. */
  ghost predicate NoneApplies(self: DeviceId, g: Group, entries: seq<Entry>) {
    forall j :: 0 <= j < |entries| && entries[j].epoch == |g.history| + 1 ==> !Applies(self, g, entries[j].commit)
  }

  /** One round of the loop: merging an applicable entry follows the fold, skipping any other loses nothing. */
  lemma OneEntry(self: DeviceId, g: Group, sorted: seq<Entry>, i: nat)
    requires i < |sorted| && Sorted(sorted) && WellLabelled(sorted) && NoneApplies(self, g, sorted[..i])
    ensures var c := sorted[i];
            if c.epoch > |g.history| && Applies(self, g, c.commit)
            then Replay(self, g, sorted) == Replay(self, Merge(g, c.commit), sorted)
                 && NoneApplies(self, Merge(g, c.commit), sorted[..i + 1])
            else NoneApplies(self, g, sorted[..i + 1])
  {
    var c := sorted[i];
    if c.epoch > |g.history| && Applies(self, g, c.commit) {
      FirstApplicable(self, g, sorted, i);
    }
  }

  lemma NoneNext(self: DeviceId, g: Group, entries: seq<Entry>)
    requires NoneApplies(self, g, entries)
    ensures Replay(self, g, entries) == g
  {
    assert NextCommit(self, g, entries).None?;
  }

  lemma {:induction false} FirstApplicable(self: DeviceId, g: Group, entries: seq<Entry>, i: nat)
    requires i < |entries| && entries[i].epoch == |g.history| + 1 && Applies(self, g, entries[i].commit)
    requires NoneApplies(self, g, entries[..i])
    ensures NextCommit(self, g, entries) == Some(entries[i].commit)
  {
    if i > 0 {
      assert entries[..i][0] == entries[0] && entries[1..][..i - 1] == entries[..i][1..];
      FirstApplicable(self, g, entries[1..], i - 1);
    }
  }

  /** A commit labelled with a later epoch than the one it makes is merged all the same. */
  lemma LabelsAreOnlyLowerBounds(self: DeviceId, g: Group, c: Commit, tag: nat)
    requires c.base == |g.history| && c.author != self
    ensures Pass(self, g, [Entry(tag, c)]) == if tag > |g.history| then Group(g.history + [c], 0, 0) else g
  {
    assert Pass(self, if tag > |g.history| then Merge(g, c) else g, []) == if tag > |g.history| then Merge(g, c) else g;
  }

  /** catchUpGroup on a whole device state: the welcome first, then the log. */
  function CatchUp(self: DeviceId, blob: Blob, group: GroupId, welcome: Option<History>, entries: seq<Entry>): Blob {
    var joined := if welcome.Some? && group !in blob then blob[group := Group(welcome.value, 0, 0)] else blob;
    if group in joined then joined[group := Replay(self, joined[group], entries)] else joined
  }

  /** The copy a catch-up starts from: the device's own, or the welcome's where it holds none. */
  function StartsFrom(blob: Blob, group: GroupId, welcome: Option<History>): Option<Group> {
    if group in blob then Some(blob[group]) else if welcome.Some? then Some(Group(welcome.value, 0, 0)) else None
  }

  /**
   After a catch-up: every other group is as before, and the copy is the log's own
   history from where it started, up to the first commit the reply does not quote or
   this device made, with new ratchets if it moved at all.
   */
  ghost predicate TookOver(self: DeviceId, before: Blob, after: Blob, group: GroupId, start: Group, entries: seq<Entry>, log: History) {
    && (forall other | other != group ::
          (other in after <==> other in before) && (other in after ==> after[other] == before[other]))
    && group in after
    && var n := |after[group].history|;
       && |start.history| <= n <= |log|
       && after[group] == (if n == |start.history| then start else Group(log[..n], 0, 0))
       && (forall j :: |start.history| <= j < n ==> Takes(self, entries, log, j))
       && (n < |log| ==> !Takes(self, entries, log, n))
  }

  /** What a catch-up with a truthful reply leaves in the device state, if there is a copy to start from; otherwise nothing changes. */
  lemma CatchUpTakesOver(self: DeviceId, blob: Blob, group: GroupId, welcome: Option<History>, entries: seq<Entry>, log: History)
    requires Truthful(entries, log) && forall i :: 0 <= i < |log| ==> log[i].base == i
    requires var start := StartsFrom(blob, group, welcome); start.Some? ==> start.value.history <= log
    ensures var after, start := CatchUp(self, blob, group, welcome, entries), StartsFrom(blob, group, welcome);
            if start.None? then after == blob else TookOver(self, blob, after, group, start.value, entries, log)
  {
    var start := StartsFrom(blob, group, welcome);
    if start.Some? { ReplayTakesOver(self, start.value, entries, log); }
  }

  /** A held copy changes exactly if the log's next commit is quoted and another device's. */
  lemma MovesIffQuoted(self: DeviceId, before: Blob, after: Blob, group: GroupId, entries: seq<Entry>, log: History)
    requires group in before && TookOver(self, before, after, group, before[group], entries, log)
    ensures after != before <==> |before[group].history| < |log| && Takes(self, entries, log, |before[group].history|)
  {
    hide Takes;
    if after[group] == before[group] {
      assert after == before;
    }
  }
}
