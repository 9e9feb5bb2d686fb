/**
 When no sender-ratchet position is used for two ciphertexts: encryptGroup
 returns only after the advanced state is durable, and no later start of the
 device falls behind a state confirmed durable (I5 in mlsSession.js), as long
 as no save call that outlived its webview lands an older state and no load
 falls back to an older file because it cannot read the newest.
 */
module Ratchet {
  import opened Wrappers
  import opened Groups
  import opened StateStore
  import opened Protocol

  // ---------------------------------------------------------------- progress of a device state

  ghost predicate GroupLeq(a: Group, b: Group) {
    |a.history| < |b.history| || (a.history == b.history && a.generation <= b.generation)
  }

  /** `b` has every group of `a`, at a later epoch or at the same one with the ratchet no further back. */
  ghost predicate Leq(a: Blob, b: Blob) {
    forall g :: g in a ==> g in b && GroupLeq(a[g], b[g])
  }

  lemma LeqTransitive(a: Blob, b: Blob, c: Blob)
    requires Leq(a, b) && Leq(b, c)
    ensures Leq(a, c)
  {
  }

  /** The ratchet position of `c` lies behind the state `b`. */
  ghost predicate Spent(c: Cipher, b: Blob) {
    && c.group in b
    && (c.epoch < |b[c.group].history| || (c.epoch == |b[c.group].history| && c.generation < b[c.group].generation))
  }

  lemma SpentStaysSpent(c: Cipher, a: Blob, b: Blob)
    requires Spent(c, a) && Leq(a, b)
    ensures Spent(c, b)
  {
  }

  // ---------------------------------------------------------------- invariant of one device

  /** main and tmp hold nothing behind `floor`, so no start can load anything behind it. */
  ghost predicate DiskAtLeast(d: Disk<Blob>, floor: Blob) {
    Protected(d, KEY, x => Leq(floor, x))
  }

  ghost predicate NothingBehind(d: Device, floor: Blob) {
    && DiskAtLeast(d.disk, floor)
    && (d.pending.Some? ==> Leq(floor, d.pending.value))
    && (d.session.Some? ==> Leq(floor, d.session.value.cache))
    && (d.session.Some? && d.session.value.call.Some? ==> Leq(floor, d.session.value.call.value.blob))
  }

  /** A confirmed version is on disk, and the session has nothing older left to be written over it. */
  ghost predicate Settled(d: Device, s: Session) {
    DiskAtLeast(d.disk, s.cache) && (d.pending.Some? ==> Leq(s.cache, d.pending.value)) && s.call.None?
  }

  /** The holder's state is confirmed durable; its operation is about to be told. */
  predicate AboutToReport(s: Session) {
    s.holder.Persisting? && s.durable == s.version
  }

  /** The newest state confirmed durable, whether its operation has been told yet or not. */
  function Confirmed(d: Device): Option<Blob> {
    if d.session.Some? && AboutToReport(d.session.value) then Some(d.session.value.cache) else d.promised
  }

  /** A state that is not behind what has been confirmed durable. */
  ghost predicate NotBehind(d: Device, b: Blob) {
    Confirmed(d).Some? ==> Leq(Confirmed(d).value, b)
  }

  /** The load reads main or an opening tmp, or the backup it may fall back to is not behind. */
  ghost predicate LoadsNewest(d: Device, access: Access) {
    NewestRead(d.disk, KEY, access) || (access.bak && Opens(d.disk.bak, KEY) ==> NotBehind(d, d.disk.bak.value))
  }

  /** The event neither lands a late save behind what has been confirmed durable nor goes on from a backup behind it. */
  ghost predicate NoRollback(d: Device, e: Event) {
    match e
    case LateSave(i, _) => i < |d.strays| && !d.background ==> NotBehind(d, d.strays[i].blob)
    case Start(access) => LoadsNewest(d, access)
    case BackgroundDecrypt(_, access, _) => LoadsNewest(d, access)
    case _ => true
  }

  ghost predicate VersionsOk(d: Device, s: Session) {
    && s.durable <= s.version
    && (s.call.Some? ==> s.call.value.version <= s.version)
    && (s.call.Some? && s.call.value.version == s.version ==> s.call.value.blob == s.cache && s.durable < s.version)
    && (AboutToReport(s) ==> Settled(d, s))
  }

  ghost predicate DurabilityOk(d: Device) {
    && (d.promised.Some? ==> NothingBehind(d, d.promised.value))
    && (d.session.Some? ==> VersionsOk(d, d.session.value) && !d.background)
  }

  /** What `id` has been given so far lies behind its last confirmed state; what it is about to be given is new. */
  ghost predicate CiphersOk(id: DeviceId, d: Device, sent: seq<Cipher>) {
    && (forall c :: c in sent && c.device == id ==> d.promised.Some? && Spent(c, d.promised.value))
    && (d.session.Some? && d.session.value.holder.Persisting? && d.session.value.holder.cipher.Some? ==>
          var c := d.session.value.holder.cipher.value;
          c.device == id && c !in sent && Spent(c, d.session.value.cache))
  }

  // ---------------------------------------------------------------- every commit of the cache moves forward

  lemma CatchUpMovesForward(self: DeviceId, server: Server, cache: Blob, group: GroupId, welcome: Option<History>, entries: seq<Entry>)
    requires ServerOk(server) && OnLog(server, cache) && AgreesWithLog(entries, Log(server, group))
    requires welcome.Some? ==> KnownHistory(server, group, welcome.value)
    ensures Leq(cache, CatchUp(self, cache, group, welcome, entries))
  {
    if group in cache {
      ReplayStaysOnLog(self, cache[group], entries, Log(server, group));
    }
  }

  lemma WorkMovesForward(self: DeviceId, server: Server, s: Session, e: Event)
    requires ServerOk(server) && SessionOk(server, s) && LockedWork(self, server, s, e).Some?
    ensures Leq(s.cache, LockedWork(self, server, s, e).value.cache)
  {
    if e.CatchUpWith? {
      CatchUpMovesForward(self, server, s.cache, e.group, e.welcome, e.entries);
    }
  }

  /** An adopted own commit, external ones included, is a later epoch than the copy it replaces. */
  lemma AdoptionMovesForward(self: DeviceId, server: Server, s: Session, e: Event)
    requires ServerOk(server) && SessionOk(server, s)
    requires (e.AdoptOnReply? || e.AdoptOnLog?) && HolderStep(self, server, s, e).Some?
    ensures Leq(s.cache, Adopt(s).cache)
  {
    AdoptionIsLogged(self, server, s, e);
    var plan := s.holder.plan;
    if plan.group in s.cache {
      var h, log := s.cache[plan.group].history, Log(server, plan.group);
      assert h == log[..|h|] && plan.commit !in log[..|h|];
      assert log[|plan.result| - 1] == plan.commit;
    }
  }

  // ---------------------------------------------------------------- steps

  lemma WriteKeepsFloor(d: Disk<Blob>, floor: Blob, b: Blob, r: Reach)
    requires DiskAtLeast(d, floor) && Leq(floor, b)
    ensures DiskAtLeast(Write(d, Sealed(KEY, b), r), floor)
  {
    WriteKeepsProtection(d, KEY, b, r, x => Leq(floor, x));
  }

  /** A save reaching the Rust side keeps every floor its state is not behind, wherever it is cut. */
  lemma LandingKeepsFloor(d: Device, floor: Blob, call: Call, reach: Reach)
    requires NothingBehind(d, floor) && Leq(floor, call.blob)
    ensures NothingBehind(Landed(d, call, reach), floor)
  {
    if call.durable { WriteKeepsFloor(d.disk, floor, call.blob, reach); }
  }

  lemma LateSaveKeepsDurability(d: Device, i: nat, reach: Reach)
    requires DurabilityOk(d) && i < |d.strays| && !d.background && NotBehind(d, d.strays[i].blob)
    ensures DurabilityOk(StoreStep(d, LateSave(i, reach)).value)
  {
    var d0, call := d.(strays := d.strays[..i] + d.strays[i + 1..]), d.strays[i];
    if d.session.Some? && AboutToReport(d.session.value) {
      var cache := d.session.value.cache;
      assert NothingBehind(d0, cache);
      LandingKeepsFloor(d0, cache, call, reach);
      if d.promised.Some? {
        LeqTransitive(d.promised.value, cache, call.blob);
      }
    }
    if d.promised.Some? {
      assert NothingBehind(d0, d.promised.value);
      LandingKeepsFloor(d0, d.promised.value, call, reach);
    }
  }

  lemma DeliveryKeepsDurability(d: Device, reach: Reach)
    requires DurabilityOk(d) && d.session.Some? && d.session.value.call.Some?
    ensures DurabilityOk(StoreStep(d, Deliver(reach)).value)
  {
    if d.promised.Some? {
      LandingKeepsFloor(d, d.promised.value, d.session.value.call.value, reach);
    }
  }

  lemma FlushKeepsDurability(d: Device, reach: Reach)
    requires DurabilityOk(d) && d.pending.Some?
    ensures DurabilityOk(Flushed(d, reach))
  {
    if d.promised.Some? {
      WriteKeepsFloor(d.disk, d.promised.value, d.pending.value, reach);
    }
    if d.session.Some? && AboutToReport(d.session.value) {
      WriteKeepsFloor(d.disk, d.session.value.cache, d.pending.value, reach);
    }
  }

  lemma StoreKeepsDurability(d: Device, e: Event)
    requires DurabilityOk(d) && StoreStep(d, e).Some? && NoRollback(d, e)
    ensures DurabilityOk(StoreStep(d, e).value)
  {
    match e
    case Deliver(reach) => DeliveryKeepsDurability(d, reach);
    case Flush(reach) => FlushKeepsDurability(d, reach);
    case LateSave(i, reach) => if !d.background { LateSaveKeepsDurability(d, i, reach); }
    case _ =>
  }

  /** The store touches neither the cache, nor its holder, nor what operations were told. */
  lemma StoreLeavesHolder(d: Device, e: Event)
    requires StoreStep(d, e).Some?
    ensures var after := StoreStep(d, e).value;
            && after.promised == d.promised && after.session.Some? == d.session.Some?
            && (d.session.Some? ==> after.session.value.cache == d.session.value.cache
                                    && after.session.value.holder == d.session.value.holder)
  {
  }

  /** A load finds nothing behind a floor of the disk if and only if it reads the newest, or its backup is not behind. */
  lemma FoundNotBehindIff(d: Device, floor: Blob, access: Access)
    requires DiskAtLeast(d.disk, floor)
    ensures (Found(d, access).Some? ==> Leq(floor, Found(d, access).value))
            <==> NewestRead(d.disk, KEY, access) || (access.bak && Opens(d.disk.bak, KEY) ==> Leq(floor, d.disk.bak.value))
    ensures NewestRead(d.disk, KEY, access) ==> Found(d, access).Some?
  {
    ReadAcceptableIff(d.disk, KEY, access, x => Leq(floor, x));
  }

  lemma DecryptMovesForward(floor: Blob, loaded: Blob, group: GroupId)
    requires group in loaded
    ensures Leq(floor, loaded) <==> Leq(floor, loaded[group := loaded[group].(received := loaded[group].received + 1)])
  {
    var decrypted := loaded[group := loaded[group].(received := loaded[group].received + 1)];
    assert forall g :: g in loaded ==> g in decrypted && decrypted[g].history == loaded[g].history
                                       && decrypted[g].generation == loaded[g].generation;
  }

  lemma BackgroundKeepsDurability(d: Device, group: GroupId, loaded: Blob, reach: Reach)
    requires DurabilityOk(d) && d.session.None? && group in loaded
    requires d.promised.Some? ==> Leq(d.promised.value, loaded)
    ensures DurabilityOk(DecryptedInBackground(d, group, loaded, reach))
  {
    if d.promised.Some? {
      var decrypted := loaded[group := loaded[group].(received := loaded[group].received + 1)];
      DecryptMovesForward(d.promised.value, loaded, group);
      WriteKeepsFloor(d.disk, d.promised.value, decrypted, reach);
      hide Leq, Write;
    }
  }

  lemma LifeKeepsDurability(d: Device, e: Event)
    requires DurabilityOk(d) && LifeStep(d, e).Some? && NoRollback(d, e)
    ensures DurabilityOk(LifeStep(d, e).value)
  {
    match e {
      case Start(access) =>
        if d.promised.Some? { FoundNotBehindIff(d, d.promised.value, access); }
      case BackgroundDecrypt(group, access, reach) =>
        if d.promised.Some? { FoundNotBehindIff(d, d.promised.value, access); }
        BackgroundKeepsDurability(d, group, Found(d, access).value, reach);
      case _ =>
    }
    hide Found, DecryptedInBackground, NewestRead, Leq, Write;
  }

  /** Lock work and adoption only move the cache forward, under a new version that is not yet durable. */
  lemma NewVersionKeepsDurability(d: Device, s': Session)
    requires DurabilityOk(d) && d.session.Some?
    requires var s := d.session.value;
             s'.version == s.version + 1 && s'.durable == s.durable && s'.call == s.call && Leq(s.cache, s'.cache)
    ensures DurabilityOk(d.(session := Some(s')))
  {
    if d.promised.Some? {
      LeqTransitive(d.promised.value, d.session.value.cache, s'.cache);
    }
  }

  /** What is reported durable really is: nothing on disk or on its way there is behind it. */
  lemma DoneIsSettled(self: DeviceId, server: Server, d: Device)
    requires DurabilityOk(d) && d.session.Some? && HolderStep(self, server, d.session.value, DurableDone).Some?
    ensures NothingBehind(d, d.session.value.cache)
    ensures d.promised.Some? ==> Leq(d.promised.value, d.session.value.cache)
  {
  }

  /** Building, submitting and giving up leave the cache and its version alone. */
  lemma SameVersionKeepsDurability(d: Device, s': Session)
    requires DurabilityOk(d) && d.session.Some? && s' == d.session.value.(holder := s'.holder)
    requires s'.holder.Persisting? ==> d.session.value.holder.Persisting?
    ensures DurabilityOk(d.(session := Some(s')))
  {
  }

  lemma SessionKeepsDurability(self: DeviceId, server: Server, d: Device, e: Event)
    requires ServerOk(server) && DeviceOk(server, d) && DurabilityOk(d)
    requires LifeStep(d, e).None? && StoreStep(d, e).None? && DeviceStep(self, server, d, e).Some?
    ensures DurabilityOk(DeviceStep(self, server, d, e).value)
  {
    var s := d.session.value;
    var worked, held := LockedWork(self, server, s, e), HolderStep(self, server, s, e);
    if worked.Some? {
      WorkMovesForward(self, server, s, e);
      if e.Build? {
        SameVersionKeepsDurability(d, worked.value);
      } else {
        NewVersionKeepsDurability(d, worked.value);
      }
    } else if e.AdoptOnReply? || e.AdoptOnLog? {
      AdoptionMovesForward(self, server, s, e);
      AdoptionIsLogged(self, server, s, e);
      NewVersionKeepsDurability(d, Adopt(s));
    } else if held.Some? {
      SameVersionKeepsDurability(d, held.value);
      if e.DurableDone? {
        DoneIsSettled(self, server, d);
      }
    }
  }

  lemma DeviceKeepsDurability(self: DeviceId, server: Server, d: Device, e: Event)
    requires ServerOk(server) && DeviceOk(server, d) && DurabilityOk(d) && DeviceStep(self, server, d, e).Some?
    requires NoRollback(d, e)
    ensures DurabilityOk(DeviceStep(self, server, d, e).value)
  {
    if LifeStep(d, e).Some? {
      LifeKeepsDurability(d, e);
    } else if StoreStep(d, e).Some? {
      StoreKeepsDurability(d, e);
    } else {
      SessionKeepsDurability(self, server, d, e);
    }
  }

  /** A ciphertext being made uses a position no returned ciphertext has used. */
  lemma FreshPosition(id: DeviceId, d: Device, sent: seq<Cipher>, group: GroupId)
    requires DurabilityOk(d) && CiphersOk(id, d, sent) && d.session.Some? && group in d.session.value.cache
    ensures var g := d.session.value.cache[group];
            Cipher(id, group, |g.history|, g.generation) !in sent
  {
    var g := d.session.value.cache[group];
    var c := Cipher(id, group, |g.history|, g.generation);
    if c in sent {
      SpentStaysSpent(c, d.promised.value, d.session.value.cache);
      assert false;
    }
  }

  /** A ciphertext the holder waits with after such an event was there before it, with the same cache. */
  ghost predicate NoNewCipher(d: Device, after: Device) {
    && after.promised == d.promised
    && (after.session.Some? && after.session.value.holder.Persisting? && after.session.value.holder.cipher.Some? ==>
          && d.session.Some? && after.session.value.holder == d.session.value.holder
          && after.session.value.cache == d.session.value.cache)
  }

  lemma LifeMakesNoCipher(d: Device, e: Event)
    requires LifeStep(d, e).Some?
    ensures NoNewCipher(d, LifeStep(d, e).value)
  {
    hide Found, Write;
  }

  lemma SessionMakesNoCipher(id: DeviceId, server: Server, d: Device, e: Event)
    requires LifeStep(d, e).None? && StoreStep(d, e).None? && DeviceStep(id, server, d, e).Some?
    requires !e.Encrypt? && !e.DurableDone?
    ensures NoNewCipher(d, DeviceStep(id, server, d, e).value)
  {
    hide LifeStep, StoreStep, CatchUp, Merge, Applies;
  }

  /** Events that make or return no ciphertext leave both sides alone. */
  lemma OthersKeepCiphers(id: DeviceId, server: Server, d: Device, e: Event, sent: seq<Cipher>)
    requires DurabilityOk(d) && CiphersOk(id, d, sent) && DeviceStep(id, server, d, e).Some?
    requires !e.Encrypt? && !e.DurableDone?
    ensures CiphersOk(id, DeviceStep(id, server, d, e).value, sent)
  {
    if LifeStep(d, e).Some? {
      LifeMakesNoCipher(d, e);
    } else if StoreStep(d, e).Some? {
      StoreLeavesHolder(d, e);
    } else {
      SessionMakesNoCipher(id, server, d, e);
    }
    hide DurabilityOk, LifeStep, StoreStep, LockedWork, HolderStep, Spent;
  }

  lemma DoneKeepsCiphers(id: DeviceId, server: Server, d: Device, sent: seq<Cipher>)
    requires DurabilityOk(d) && CiphersOk(id, d, sent) && DeviceStep(id, server, d, DurableDone).Some?
    ensures CiphersOk(id, DeviceStep(id, server, d, DurableDone).value, sent + Returned(d, DurableDone))
  {
    DoneIsSettled(id, server, d);
    forall c | c in sent && c.device == id ensures Spent(c, d.session.value.cache) {
      SpentStaysSpent(c, d.promised.value, d.session.value.cache);
    }
  }

  lemma DeviceKeepsCiphers(id: DeviceId, server: Server, d: Device, e: Event, sent: seq<Cipher>)
    requires DurabilityOk(d) && CiphersOk(id, d, sent) && DeviceStep(id, server, d, e).Some?
    ensures CiphersOk(id, DeviceStep(id, server, d, e).value, sent + Returned(d, e))
    ensures forall c :: c in Returned(d, e) ==> c !in sent && c.device == id
  {
    if e.DurableDone? {
      DoneKeepsCiphers(id, server, d, sent);
    } else if e.Encrypt? {
      FreshPosition(id, d, sent, e.group);
    } else {
      assert sent + Returned(d, e) == sent;
      OthersKeepCiphers(id, server, d, e, sent);
    }
  }

  // ---------------------------------------------------------------- runs

  ghost predicate Distinct(sent: seq<Cipher>) {
    forall i, j :: 0 <= i < j < |sent| ==> sent[i] != sent[j]
  }

  ghost predicate RatchetOk(s: System) {
    && (forall id :: id in s.devices ==> DurabilityOk(s.devices[id]) && CiphersOk(id, s.devices[id], s.sent))
    && (forall c :: c in s.sent ==> c.device in s.devices)
    && Distinct(s.sent)
  }

  lemma OtherDevicesKeepCiphers(id: DeviceId, d: Device, sent: seq<Cipher>, more: seq<Cipher>)
    requires CiphersOk(id, d, sent) && forall c :: c in more ==> c.device != id
    ensures CiphersOk(id, d, sent + more)
  {
  }

  /** One device moving on, and returning at most one new ciphertext, keeps the whole system in order. */
  lemma OneDeviceMoves(s: System, server: Server, id: DeviceId, d: Device, more: seq<Cipher>)
    requires RatchetOk(s) && id in s.devices && DurabilityOk(d) && CiphersOk(id, d, s.sent + more)
    requires |more| <= 1 && forall c :: c in more ==> c !in s.sent && c.device == id
    ensures RatchetOk(System(server, s.devices[id := d], s.sent + more))
  {
    forall other | other in s.devices && other != id ensures CiphersOk(other, s.devices[other], s.sent + more) {
      OtherDevicesKeepCiphers(other, s.devices[other], s.sent, more);
    }
  }

  lemma StepKeepsRatchet(s: System, id: DeviceId, e: Event)
    requires Agrees(s) && RatchetOk(s) && Step(s, id, e).Some? && (id in s.devices ==> NoRollback(s.devices[id], e))
    ensures RatchetOk(Step(s, id, e).value)
  {
    if !e.ServerAccepts? {
      var d := s.devices[id];
      var d' := DeviceStep(id, s.server, d, e).value;
      DeviceKeepsDurability(id, s.server, d, e);
      DeviceKeepsCiphers(id, s.server, d, e, s.sent);
      OneDeviceMoves(s, Upload(id, s.server, d, e), id, d', Returned(d, e));
    }
  }

  /** The step takes its device back behind nothing it has confirmed durable. */
  ghost predicate StepRollsNothingBack(before: Option<System>, step: (DeviceId, Event)) {
    before.Some? && step.0 in before.value.devices ==> NoRollback(before.value.devices[step.0], step.1)
  }

  ghost predicate NoRollbacks(ids: set<DeviceId>, run: seq<(DeviceId, Event)>) {
    run != [] ==>
      var n := |run| - 1;
      StepRollsNothingBack(StateAfter(ids, run[..n]), run[n]) && NoRollbacks(ids, run[..n])
  }

  lemma {:induction false} AlwaysRatchetOk(ids: set<DeviceId>, run: seq<(DeviceId, Event)>, s: System)
    requires StateAfter(ids, run) == Some(s) && NoRollbacks(ids, run)
    ensures RatchetOk(s)
  {
    if run != [] {
      var n := |run| - 1;
      AlwaysAgrees(ids, run[..n], StateAfter(ids, run[..n]).value);
      AlwaysRatchetOk(ids, run[..n], StateAfter(ids, run[..n]).value);
      StepKeepsRatchet(StateAfter(ids, run[..n]).value, run[n].0, run[n].1);
    }
  }

  /**
   Over any run in which no late save lands an old state and no load goes on from
   an old backup, no two returned ciphertexts of a device share group, epoch and
   generation.
   */
  lemma NoPositionUsedTwice(ids: set<DeviceId>, run: seq<(DeviceId, Event)>, s: System, i: nat, j: nat)
    requires StateAfter(ids, run) == Some(s) && NoRollbacks(ids, run) && i < j < |s.sent|
    ensures s.sent[i].device == s.sent[j].device && s.sent[i].group == s.sent[j].group && s.sent[i].epoch == s.sent[j].epoch
            ==> s.sent[i].generation != s.sent[j].generation
  {
    AlwaysRatchetOk(ids, run, s);
  }

  /**
   After any such run, a start loads nothing behind what an operation was told is
   durable if and only if it reads main or an opening tmp, or the backup it falls
   back to is not behind. In the first case it succeeds.
   */
  lemma StartNeverFallsBehind(ids: set<DeviceId>, run: seq<(DeviceId, Event)>, s: System, id: DeviceId, access: Access)
    requires StateAfter(ids, run) == Some(s) && NoRollbacks(ids, run) && access.stat
    requires id in s.devices && s.devices[id].promised.Some? && s.devices[id].session.None?
    ensures var d, after := s.devices[id], Step(s, id, Start(access));
            && ((after.Some? ==> Leq(d.promised.value, after.value.devices[id].session.value.cache)) <==> LoadsNewest(d, access))
            && (NewestRead(d.disk, KEY, access) ==> after.Some?)
  {
    AlwaysRatchetOk(ids, run, s);
    hide StateAfter, NoRollbacks;
    StartHarmlessIff(id, s.server, s.devices[id], access);
  }

  lemma StartHarmlessIff(self: DeviceId, server: Server, d: Device, access: Access)
    requires DurabilityOk(d) && d.promised.Some? && d.session.None? && access.stat
    ensures var after := DeviceStep(self, server, d, Start(access));
            && (after.Some? ==> after.value.session.Some?)
            && ((after.Some? ==> Leq(d.promised.value, after.value.session.value.cache)) <==> LoadsNewest(d, access))
            && (NewestRead(d.disk, KEY, access) ==> after.Some?)
  {
    FoundNotBehindIff(d, d.promised.value, access);
    assert Committed(d.disk);
    hide Found, Leq, NewestRead;
  }

  // ---------------------------------------------------------------- exactly which saves and loads are harmless

  /** What a start would load is not behind `floor`. */
  ghost predicate LoadsAtLeast(d: Disk<Blob>, floor: Blob) {
    FirstReadable(d, KEY).Some? && Leq(floor, FirstReadable(d, KEY).value)
  }

  /** However the late save `i`, and the flush that may follow it, are cut, a start loads nothing behind `floor`. */
  ghost predicate LateSaveIsHarmless(d: Device, i: nat, floor: Blob)
    requires i < |d.strays|
  {
    forall late: Reach, flush: Reach :: LoadsAtLeast(DiskAfterLateSave(d, i, late, flush), floor)
  }

  function DiskAfterLateSave(d: Device, i: nat, late: Reach, flush: Reach): Disk<Blob>
    requires i < |d.strays|
  {
    var saved := StoreStep(d, LateSave(i, late)).value;
    if saved.pending.Some? then Flushed(saved, flush).disk else saved.disk
  }

  /**
   A save that outlived its webview is harmless exactly when the files have been
   handed over, or its state is not behind the newest confirmed one.
   */
  lemma LateSaveHarmlessIff(d: Device, i: nat)
    requires DurabilityOk(d) && i < |d.strays| && Confirmed(d).Some?
    ensures LateSaveIsHarmless(d, i, Confirmed(d).value) <==> d.background || NotBehind(d, d.strays[i].blob)
  {
    var floor, call := Confirmed(d).value, d.strays[i];
    assert DiskAtLeast(d.disk, floor) && (d.pending.Some? ==> Leq(floor, d.pending.value));
    hide DurabilityOk, Confirmed;
    if d.background || Leq(floor, call.blob) {
      forall late: Reach, flush: Reach ensures LoadsAtLeast(DiskAfterLateSave(d, i, late, flush), floor) {
        LateSaveLoads(d, i, floor, late, flush);
      }
    } else {
      assert FirstReadable(DiskAfterLateSave(d, i, Finished(true), Finished(true)), KEY) == Some(call.blob);
      assert !LoadsAtLeast(DiskAfterLateSave(d, i, Finished(true), Finished(true)), floor);
    }
  }

  lemma LateSaveLoads(d: Device, i: nat, floor: Blob, late: Reach, flush: Reach)
    requires i < |d.strays| && DiskAtLeast(d.disk, floor) && (d.background || Leq(floor, d.strays[i].blob))
    requires d.pending.Some? ==> Leq(floor, d.pending.value)
    ensures LoadsAtLeast(DiskAfterLateSave(d, i, late, flush), floor)
  {
    hide Write, Leq;
    var call, saved := d.strays[i], StoreStep(d, LateSave(i, late)).value;
    if call.durable && !d.background { WriteKeepsFloor(d.disk, floor, call.blob, late); }
    assert DiskAtLeast(saved.disk, floor) && (saved.pending.Some? ==> Leq(floor, saved.pending.value));
    if saved.pending.Some? { WriteKeepsFloor(saved.disk, floor, saved.pending.value, flush); }
  }

  /** However the save of a background decrypt is cut, a later load that reads everything finds nothing behind `floor`. */
  ghost predicate BackgroundIsHarmless(d: Device, group: GroupId, access: Access, floor: Blob)
    requires Found(d, access).Some? && group in Found(d, access).value
  {
    forall reach: Reach :: LoadsAtLeast(DecryptedInBackground(d, group, Found(d, access).value, reach).disk, floor)
  }

  /** The same for a background decrypt, which saves what it made from what it loaded. */
  lemma BackgroundHarmlessIff(d: Device, group: GroupId, access: Access)
    requires DurabilityOk(d) && d.promised.Some? && d.session.None? && Found(d, access).Some? && group in Found(d, access).value
    ensures BackgroundIsHarmless(d, group, access, d.promised.value) <==> LoadsNewest(d, access)
  {
    var floor, loaded := d.promised.value, Found(d, access).value;
    var decrypted := loaded[group := loaded[group].(received := loaded[group].received + 1)];
    FoundNotBehindIff(d, floor, access);
    DecryptMovesForward(floor, loaded, group);
    hide Found, Leq, NewestRead;
    if LoadsNewest(d, access) {
      forall reach: Reach ensures LoadsAtLeast(DecryptedInBackground(d, group, loaded, reach).disk, floor) {
        WriteKeepsFloor(d.disk, floor, decrypted, reach);
      }
    } else {
      assert FirstReadable(DecryptedInBackground(d, group, loaded, Finished(true)).disk, KEY) == Some(decrypted);
      assert !LoadsAtLeast(DecryptedInBackground(d, group, loaded, Finished(true)).disk, floor);
    }
  }

  /** The event takes no window away with a save call in flight, and a load reads main or an opening tmp. */
  ghost predicate Careful(d: Device, e: Event) {
    match e
    case Reload => d.session.Some? ==> d.session.value.call.None?
    case HandOff => d.session.Some? ==> d.session.value.call.None?
    case Start(access) => NewestRead(d.disk, KEY, access)
    case BackgroundDecrypt(_, access, _) => NewestRead(d.disk, KEY, access)
    case _ => true
  }

  ghost predicate StepIsCareful(before: Option<System>, step: (DeviceId, Event)) {
    before.Some? && step.0 in before.value.devices ==> Careful(before.value.devices[step.0], step.1)
  }

  ghost predicate AllCareful(ids: set<DeviceId>, run: seq<(DeviceId, Event)>) {
    run != [] ==>
      var n := |run| - 1;
      StepIsCareful(StateAfter(ids, run[..n]), run[n]) && AllCareful(ids, run[..n])
  }

  ghost predicate NobodyStrays(s: System) {
    forall id :: id in s.devices ==> s.devices[id].strays == []
  }

  lemma {:induction false} CarefulRunsRollNothingBack(ids: set<DeviceId>, run: seq<(DeviceId, Event)>, s: System)
    requires StateAfter(ids, run) == Some(s) && AllCareful(ids, run)
    ensures NobodyStrays(s) && NoRollbacks(ids, run)
  {
    if run != [] {
      var n := |run| - 1;
      var before := StateAfter(ids, run[..n]).value;
      CarefulRunsRollNothingBack(ids, run[..n], before);
      CarefulStepLeavesNoStrays(before, run[n].0, run[n].1);
    }
  }

  lemma CarefulStepLeavesNoStrays(s: System, id: DeviceId, e: Event)
    requires NobodyStrays(s) && Step(s, id, e).Some? && StepIsCareful(Some(s), (id, e))
    ensures NobodyStrays(Step(s, id, e).value) && StepRollsNothingBack(Some(s), (id, e))
  {
    if !e.ServerAccepts? {
      StraysAreLeftByWindows(id, s.server, s.devices[id], e);
      hide DeviceStep;
    }
  }

  lemma StraysAreLeftByWindows(self: DeviceId, server: Server, d: Device, e: Event)
    requires d.strays == [] && Careful(d, e)
    ensures DeviceStep(self, server, d, e).Some? ==> DeviceStep(self, server, d, e).value.strays == []
  {
    hide LockedWork, HolderStep, Found, Write;
  }

  /**
   So as long as reloads and hand-offs wait for the save in flight and loads can
   read the newest file, every run keeps the promise.
   */
  lemma NoReuseInCarefulRuns(ids: set<DeviceId>, run: seq<(DeviceId, Event)>, s: System, i: nat, j: nat)
    requires StateAfter(ids, run) == Some(s) && AllCareful(ids, run) && i < j < |s.sent|
    ensures s.sent[i] != s.sent[j]
  {
    CarefulRunsRollNothingBack(ids, run, s);
    AlwaysRatchetOk(ids, run, s);
  }
}
