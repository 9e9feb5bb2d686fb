/**
 What each event of the protocol does, and exactly when it can happen: the
 effect of every step on the device it happens on and on the server, in terms of
 what the device held before.
 */
module ProtocolEvents {
  import opened Wrappers
  import opened Groups
  import opened StateStore
  import opened Protocol

  /** The system with one device changed, or one device's session. */
  function OnDevice(s: System, id: DeviceId, d: Device): System {
    s.(devices := s.devices[id := d])
  }

  function InSession(s: System, id: DeviceId, session: Session): System
    requires id in s.devices
  {
    OnDevice(s, id, s.devices[id].(session := Some(session)))
  }

  predicate Runs(s: System, id: DeviceId) {
    id in s.devices && s.devices[id].session.Some?
  }

  function SessionOf(s: System, id: DeviceId): Session
    requires Runs(s, id)
  {
    s.devices[id].session.value
  }

  /** The device's session is there and nobody holds its state lock. */
  predicate Free(s: System, id: DeviceId) {
    Runs(s, id) && SessionOf(s, id).holder.Idle?
  }

  predicate Held(s: System, id: DeviceId, group: GroupId) {
    Runs(s, id) && group in SessionOf(s, id).cache
  }

  lemma NothingSent(sent: seq<Cipher>)
    ensures sent + [] == sent
  {
  }

  /** An event of a device that leaves the server alone and returns no ciphertext. */
  lemma StepOnDevice(s: System, id: DeviceId, e: Event)
    requires !e.ServerAccepts? && !e.Submit? && !e.UploadInfo? && !e.DurableDone?
    ensures Step(s, id, e) ==
            if id !in s.devices then None
            else
              var d := DeviceStep(id, s.server, s.devices[id], e);
              if d.None? then None else Some(OnDevice(s, id, d.value))
  {
    NothingSent(s.sent);
    hide DeviceStep;
  }

  // ---------------------------------------------------------------- lock work

  /** encryptGroup: the ciphertext takes the copy's position, the copy moves one on, and the holder waits for that to be durable. */
  lemma EncryptEffect(s: System, id: DeviceId, group: GroupId)
    ensures Step(s, id, Encrypt(group)) ==
            if !Free(s, id) || !Held(s, id, group) then None
            else
              var before := SessionOf(s, id);
              var copy := before.cache[group];
              Some(InSession(s, id, Session(
                before.cache[group := Group(copy.history, copy.generation + 1, copy.received)], before.version + 1, before.durable,
                before.call, Persisting(Some(Cipher(id, group, |copy.history|, copy.generation))))))
  {
    StepOnDevice(s, id, Encrypt(group));
    hide Step;
  }

  /** decryptGroup: the receive position moves one on under a new version nobody waits for. */
  lemma DecryptEffect(s: System, id: DeviceId, group: GroupId)
    ensures Step(s, id, Decrypt(group)) ==
            if !Free(s, id) || !Held(s, id, group) then None
            else
              var before := SessionOf(s, id);
              var copy := before.cache[group];
              Some(InSession(s, id, Session(
                before.cache[group := Group(copy.history, copy.generation, copy.received + 1)], before.version + 1, before.durable,
                before.call, Idle)))
  {
    StepOnDevice(s, id, Decrypt(group));
    hide Step;
  }

  /** A welcome joins a group that is not held, at the published state it carries. */
  lemma WelcomeEffect(s: System, id: DeviceId, group: GroupId, history: History)
    ensures Step(s, id, Welcome(group, history)) ==
            if !Free(s, id) || Held(s, id, group) || Published(group, history) !in s.server.published then None
            else
              var before := SessionOf(s, id);
              Some(InSession(s, id, Session(
                before.cache[group := Group(history, 0, 0)], before.version + 1, before.durable, before.call, Persisting(None))))
  {
    StepOnDevice(s, id, Welcome(group, history));
    hide Step;
  }

  /**
   A live commit is taken exactly when it is the server's, of the copy's own epoch and
   another device's; the copy's history then ends with it and its ratchets start anew.
   */
  lemma LiveCommitEffect(s: System, id: DeviceId, group: GroupId, c: Commit)
    ensures Step(s, id, LiveCommit(group, c)) ==
            if !Free(s, id) || !Held(s, id, group) then None
            else
              var before := SessionOf(s, id);
              var copy := before.cache[group];
              if c !in Log(s.server, group) || c.base != |copy.history| || c.author == id then None
              else
                Some(InSession(s, id, Session(
                  before.cache[group := Group(copy.history + [c], 0, 0)], before.version + 1, before.durable, before.call,
                  Persisting(None))))
  {
    StepOnDevice(s, id, LiveCommit(group, c));
    hide Step, CatchUp;
  }

  /** A reply the server may give: published welcomes, and the log's own commits, as many of them as it likes. */
  predicate TruthfulReply(server: Server, group: GroupId, welcome: Option<History>, entries: seq<Entry>) {
    && (welcome.Some? ==> Published(group, welcome.value) in server.published)
    && forall i :: 0 <= i < |entries| ==>
         1 <= entries[i].epoch <= |Log(server, group)| && Log(server, group)[entries[i].epoch - 1] == entries[i].commit
  }

  /** There is a copy to be had or one to be moved: the welcome's, or the next commit of the log for the device's own. */
  ghost predicate TakesSomething(id: DeviceId, server: Server, cache: Blob, group: GroupId, welcome: Option<History>, entries: seq<Entry>) {
    var log := Log(server, group);
    || (group !in cache && welcome.Some?)
    || (group in cache && |cache[group].history| < |log| && Takes(id, entries, log, |cache[group].history|))
  }

  /** What a catch-up makes of a device state whose copies are on the log: it changes exactly if there is something to take over. */
  lemma CaughtTakesOver(id: DeviceId, server: Server, before: Blob, group: GroupId, welcome: Option<History>, entries: seq<Entry>)
    requires ServerOk(server) && OnLog(server, before) && TruthfulReply(server, group, welcome, entries)
    ensures var caught := CatchUp(id, before, group, welcome, entries);
            && (caught != before ==> StartsFrom(before, group, welcome).Some?)
            && (caught != before <==> TakesSomething(id, server, before, group, welcome, entries))
            && (caught != before ==> TookOver(id, before, caught, group, StartsFrom(before, group, welcome).value, entries, Log(server, group)))
  {
    var log, start, caught := Log(server, group), StartsFrom(before, group, welcome), CatchUp(id, before, group, welcome, entries);
    assert start.Some? ==> start.value.history <= log;
    CatchUpTakesOver(id, before, group, welcome, entries, log);
    hide CatchUp, ServerOk, OnLog, TruthfulReply;
    if group in before {
      MovesIffQuoted(id, before, caught, group, entries, log);
    } else if start.Some? {
      assert group in caught;
    }
    hide Takes, TookOver;
  }

  lemma CopiesOnLog(s: System, id: DeviceId)
    requires Agrees(s) && Runs(s, id)
    ensures ServerOk(s.server) && OnLog(s.server, SessionOf(s, id).cache)
  {
    assert DeviceOk(s.server, s.devices[id]);
    hide ServerOk, OnLog, FileOk;
  }

  /**
   A catch-up commits exactly when there is something to take over; the holder then
   waits for the new version.
   */
  lemma CatchUpEffect(s: System, id: DeviceId, group: GroupId, welcome: Option<History>, entries: seq<Entry>)
    requires Agrees(s)
    ensures Step(s, id, CatchUpWith(group, welcome, entries)) ==
            if !Free(s, id) || !TruthfulReply(s.server, group, welcome, entries)
               || !TakesSomething(id, s.server, SessionOf(s, id).cache, group, welcome, entries) then None
            else
              var before := SessionOf(s, id);
              Some(InSession(s, id, Session(
                CatchUp(id, before.cache, group, welcome, entries), before.version + 1, before.durable, before.call, Persisting(None))))
  {
    StepOnDevice(s, id, CatchUpWith(group, welcome, entries));
    hide Step, CatchUp, TruthfulReply, TakesSomething, TookOver, StartsFrom, ServerOk, OnLog, LockedWork, DeviceStep;
    if Runs(s, id) {
      CopiesOnLog(s, id);
      hide Agrees;
      CatchUpIsLockWork(id, s.server, s.devices[id], group, welcome, entries);
      CatchUpWork(id, s.server, SessionOf(s, id), group, welcome, entries);
    } else if id in s.devices {
      CatchUpIsLockWork(id, s.server, s.devices[id], group, welcome, entries);
    }
  }

  /** A catch-up is lock work and nothing else. */
  lemma CatchUpIsLockWork(id: DeviceId, server: Server, d: Device, group: GroupId, welcome: Option<History>, entries: seq<Entry>)
    ensures var e := CatchUpWith(group, welcome, entries);
            DeviceStep(id, server, d, e) ==
            if d.session.None? || LockedWork(id, server, d.session.value, e).None? then None
            else Some(d.(session := LockedWork(id, server, d.session.value, e)))
  {
    hide CatchUp;
  }

  lemma CatchUpWork(id: DeviceId, server: Server, before: Session, group: GroupId, welcome: Option<History>, entries: seq<Entry>)
    requires ServerOk(server) && OnLog(server, before.cache)
    ensures LockedWork(id, server, before, CatchUpWith(group, welcome, entries)) ==
            if !before.holder.Idle? || !TruthfulReply(server, group, welcome, entries)
               || !TakesSomething(id, server, before.cache, group, welcome, entries) then None
            else
              Some(Session(CatchUp(id, before.cache, group, welcome, entries), before.version + 1, before.durable, before.call, Persisting(None)))
  {
    if TruthfulReply(server, group, welcome, entries) {
      CaughtTakesOver(id, server, before.cache, group, welcome, entries);
    }
    hide CatchUp, TakesSomething, TookOver, StartsFrom, ServerOk, OnLog;
  }

  // ---------------------------------------------------------------- own commits

  /** The base of an own commit: the device's copy for a change, nothing for a new group, what the server published for an external one. */
  ghost predicate CanBuildOn(s: System, id: DeviceId, group: GroupId, kind: OwnKind, base: History) {
    match kind
    case Change => Held(s, id, group) && SessionOf(s, id).cache[group].history == base
    case Genesis => Runs(s, id) && !Held(s, id, group) && base == []
    case External(info) => Published(group, info) in s.server.published && base == info
  }

  /** An own commit is planned one ahead of its base, and nothing is adopted or sent yet. */
  lemma BuildEffect(s: System, id: DeviceId, group: GroupId, c: Commit, kind: OwnKind, base: History)
    requires CanBuildOn(s, id, group, kind, base)
    ensures Step(s, id, Build(group, c, kind)) ==
            if !Free(s, id) || c.author != id || c.base != |base| || c in Log(s.server, group) then None
            else Some(InSession(s, id, SessionOf(s, id).(holder := Planned(Plan(group, c, base + [c])))))
  {
    StepOnDevice(s, id, Build(group, c, kind));
    hide Step, CatchUp;
  }

  /** It goes out only once the state it was built on is durable, with exactly the bytes planned. */
  lemma SubmitEffect(s: System, id: DeviceId)
    ensures Step(s, id, Submit) ==
            if !Runs(s, id) || !SessionOf(s, id).holder.Planned? || SessionOf(s, id).durable < SessionOf(s, id).version then None
            else
              var plan := SessionOf(s, id).holder.plan;
              Some(InSession(s, id, SessionOf(s, id).(holder := Submitted(plan))).(
                server := s.server.(inbox := s.server.inbox + {Request(id, plan.group, plan.commit, plan.result)})))
  {
    NothingSent(s.sent);
    hide CatchUp;
  }

  /** The session with an own commit adopted: the copy is the plan's result with new ratchets, and the holder waits for it. */
  function WithPlanned(before: Session, plan: Plan): Session {
    Session(before.cache[plan.group := Group(plan.result, 0, 0)], before.version + 1, before.durable, before.call, Persisting(None))
  }

  /** Adopted on a clean reply exactly when the server took it, and on the log exactly when a truthful log names it at its epoch. */
  lemma AdoptEffect(s: System, id: DeviceId, entries: seq<Entry>)
    requires Runs(s, id) && SessionOf(s, id).holder.Submitted?
    ensures var before := SessionOf(s, id);
            var plan := before.holder.plan;
            && Step(s, id, AdoptOnReply) == (
                 if Request(id, plan.group, plan.commit, plan.result) in s.server.accepted
                 then Some(InSession(s, id, WithPlanned(before, plan))) else None)
            && Step(s, id, AdoptOnLog(entries)) == (
                 if TruthfulReply(s.server, plan.group, None, entries) && Entry(|plan.result|, plan.commit) in entries
                 then Some(InSession(s, id, WithPlanned(before, plan))) else None)
  {
    StepOnDevice(s, id, AdoptOnReply);
    StepOnDevice(s, id, AdoptOnLog(entries));
    hide Step, CatchUp;
  }

  /** Without a submitted commit nothing is adopted. */
  lemma NothingToAdopt(s: System, id: DeviceId, entries: seq<Entry>)
    requires !Runs(s, id) || !SessionOf(s, id).holder.Submitted?
    ensures Step(s, id, AdoptOnReply).None? && Step(s, id, AdoptOnLog(entries)).None?
  {
    StepOnDevice(s, id, AdoptOnReply);
    StepOnDevice(s, id, AdoptOnLog(entries));
    hide Step, CatchUp;
  }

  /** Giving up, before or after the submit, leaves the copy alone. */
  lemma AbandonEffect(s: System, id: DeviceId)
    ensures Step(s, id, Abandon) ==
            if Runs(s, id) && (SessionOf(s, id).holder.Planned? || SessionOf(s, id).holder.Submitted?)
            then Some(InSession(s, id, SessionOf(s, id).(holder := Idle))) else None
  {
    StepOnDevice(s, id, Abandon);
    hide Step, CatchUp;
  }

  /** What the server accepts becomes its log's next commit, can be handed out, and is known as accepted; nobody else is touched. */
  lemma AcceptEffect(s: System, id: DeviceId, r: Request)
    requires Agrees(s)
    ensures var after := Step(s, id, ServerAccepts(r));
            && (after.Some? <==> r in s.server.inbox && |r.result| == |Log(s.server, r.group)| + 1)
            && (after.Some? ==>
                  && after.value.devices == s.devices && after.value.sent == s.sent && after.value.server.inbox == s.server.inbox
                  && Log(after.value.server, r.group) == Log(s.server, r.group) + [r.commit] == r.result
                  && (forall g | g != r.group :: Log(after.value.server, g) == Log(s.server, g))
                  && after.value.server.published == s.server.published + {Published(r.group, r.result)}
                  && after.value.server.accepted == s.server.accepted + {r})
  {
    if Step(s, id, ServerAccepts(r)).Some? { AcceptKeepsServer(s.server, r); }
  }

  /** A refreshed GroupInfo is published exactly for a copy at the server's epoch. */
  lemma UploadEffect(s: System, id: DeviceId, group: GroupId)
    ensures Step(s, id, UploadInfo(group)) ==
            if Held(s, id, group) && |SessionOf(s, id).cache[group].history| == |Log(s.server, group)|
            then Some(s.(server := s.server.(published := s.server.published + {Published(group, SessionOf(s, id).cache[group].history)})))
            else None
  {
    NothingSent(s.sent);
    if id in s.devices { assert s.devices[id := s.devices[id]] == s.devices; }
    hide CatchUp;
  }

  // ---------------------------------------------------------------- durability

  /** The holder's operation returns exactly when its version is confirmed; then the ciphertext is given out and the state is promised. */
  lemma DurableEffect(s: System, id: DeviceId)
    ensures var persisting := Runs(s, id) && SessionOf(s, id).holder.Persisting?;
            && Step(s, id, DurableDone) == (
                 if !persisting || SessionOf(s, id).durable < SessionOf(s, id).version then None
                 else
                   var before := SessionOf(s, id);
                   var d := s.devices[id].(session := Some(before.(holder := Idle)), promised := Some(before.cache));
                   Some(OnDevice(s, id, d).(
                     sent := s.sent + if before.holder.cipher.Some? then [before.holder.cipher.value] else [])))
            && Step(s, id, DurableFailed) == (
                 if !persisting then None else Some(InSession(s, id, SessionOf(s, id).(holder := Idle))))
  {
    StepOnDevice(s, id, DurableFailed);
    NothingSent(s.sent);
    hide CatchUp;
  }

  /** The writer sends the newest state whenever it is not durable and no save is in flight. */
  lemma SendEffect(s: System, id: DeviceId, wantDurable: bool)
    ensures Step(s, id, Send(wantDurable)) ==
            if !Runs(s, id) || SessionOf(s, id).call.Some? || SessionOf(s, id).durable >= SessionOf(s, id).version then None
            else
              var before := SessionOf(s, id);
              Some(InSession(s, id, before.(call := Some(Call(before.cache, before.version, wantDurable)))))
  {
    StepOnDevice(s, id, Send(wantDurable));
    hide Step, CatchUp;
  }

  /** What a save leaves on the device: a durable one that finished is on disk and nothing is parked; any other state is parked. */
  function Saved(d: Device, call: Call, reach: Reach): Device {
    d.(disk := if call.durable then Write(d.disk, Sealed(KEY, call.blob), reach) else d.disk,
       pending := if call.durable && reach.Finished? then None else Some(call.blob))
  }

  lemma DeliverEffect(s: System, id: DeviceId, reach: Reach)
    ensures Step(s, id, Deliver(reach)) ==
            if !Runs(s, id) || SessionOf(s, id).call.None? then None
            else
              var before := SessionOf(s, id);
              var call := before.call.value;
              var confirmed := call.durable && reach.Finished? && call.version > before.durable;
              Some(OnDevice(s, id, Saved(s.devices[id], call, reach).(
                session := Some(before.(call := None, durable := if confirmed then call.version else before.durable)))))
  {
    StepOnDevice(s, id, Deliver(reach));
    hide Step, CatchUp, Write;
  }

  /** The same for a save that outlived its webview, unless the files have been handed over, when it is refused; nobody hears of it. */
  lemma LateSaveEffect(s: System, id: DeviceId, i: nat, reach: Reach)
    ensures Step(s, id, LateSave(i, reach)) ==
            if id !in s.devices || i >= |s.devices[id].strays| then None
            else
              var d := s.devices[id];
              var rest := d.(strays := d.strays[..i] + d.strays[i + 1..]);
              Some(OnDevice(s, id, if d.background then rest else Saved(rest, d.strays[i], reach)))
  {
    StepOnDevice(s, id, LateSave(i, reach));
    hide Step, CatchUp, Write;
  }

  /** A flush writes what is parked and keeps it parked unless the write finished. */
  lemma FlushEffect(s: System, id: DeviceId, reach: Reach)
    ensures Step(s, id, Flush(reach)) ==
            if id !in s.devices || s.devices[id].pending.None? then None
            else
              var d := s.devices[id];
              Some(OnDevice(s, id, d.(disk := Write(d.disk, Sealed(KEY, d.pending.value), reach),
                                      pending := if reach.Finished? then None else d.pending)))
  {
    StepOnDevice(s, id, Flush(reach));
    hide Step, CatchUp, Write;
  }

  // ---------------------------------------------------------------- starting and stopping

  /**
   A start takes what the load finds as version 1, durable as it came from disk; where
   nothing was ever committed it makes a new identity that is not durable yet; and it
   fails where there are files and none can be read.
   */
  lemma StartEffect(s: System, id: DeviceId, access: Access)
    ensures Step(s, id, Start(access)) ==
            if id !in s.devices || s.devices[id].session.Some? || !access.stat then None
            else
              var d := s.devices[id];
              var found := FirstReadable(Seen(d.disk, access), KEY);
              match found
              case Some(b) => Some(OnDevice(s, id, d.(session := Some(Session(b, 1, 1, None, Idle)), background := false)))
              case None =>
                if d.disk.main.Absent? && d.disk.bak.Absent?
                then Some(OnDevice(s, id, d.(session := Some(Session(map[], 1, 0, None, Persisting(None))), background := false)))
                else None
  {
    StepOnDevice(s, id, Start(access));
    hide Step, CatchUp, FirstReadable, Seen;
  }

  /** The death of the process loses everything but the files; a reload or hand-off loses the window but not its save in flight. */
  lemma StopEffect(s: System, id: DeviceId)
    requires id in s.devices
    ensures var d := s.devices[id];
            var flying := if d.session.Some? && d.session.value.call.Some? then [d.session.value.call.value] else [];
            && Step(s, id, Crash) == Some(OnDevice(s, id, Device(d.disk, None, [], false, None, d.promised)))
            && Step(s, id, Reload) == (
                 if d.session.None? then None else Some(OnDevice(s, id, d.(session := None, strays := d.strays + flying))))
            && Step(s, id, HandOff) == Some(OnDevice(s, id, d.(session := None, strays := d.strays + flying, background := true)))
  {
    assert s.devices[id].strays + [] == s.devices[id].strays;
    StepOnDevice(s, id, Crash);
    StepOnDevice(s, id, Reload);
    StepOnDevice(s, id, HandOff);
    hide Step, CatchUp;
  }

  /** In the background a message that decrypts moves the receive position of what was loaded, which is saved; what was parked is dropped. */
  lemma BackgroundEffect(s: System, id: DeviceId, group: GroupId, access: Access, reach: Reach)
    ensures Step(s, id, BackgroundDecrypt(group, access, reach)) ==
            if id !in s.devices || !s.devices[id].background || !access.stat then None
            else
              var d := s.devices[id];
              var found := FirstReadable(Seen(d.disk, access), KEY);
              if found.None? || group !in found.value then None
              else
                var copy := found.value[group];
                var moved := found.value[group := Group(copy.history, copy.generation, copy.received + 1)];
                Some(OnDevice(s, id, d.(disk := Write(d.disk, Sealed(KEY, moved), reach), pending := None)))
  {
    StepOnDevice(s, id, BackgroundDecrypt(group, access, reach));
    hide Step, CatchUp, FirstReadable, Seen, Write;
  }
}
