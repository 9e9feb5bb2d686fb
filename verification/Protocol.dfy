/**
 The MLS client protocol as one step system: any number of devices, each with
 its state file, its in-memory session and its state lock, against a delivery
 service that appends a commit only to the epoch it targets. Replies and live
 events may be lost, late or repeated; processes may die at any point, the files
 may be handed to the background task, and a load may fail to read any of them.
 */
module Protocol {
  import opened Wrappers
  import opened Groups
  import opened StateStore

  /** The one keyring key of a device; only this key ever seals its files. */
  const KEY: Key := 0

  // ---------------------------------------------------------------- the delivery service

  /** A group state the server can hand out again, as a Welcome or as GroupInfo. */
  datatype Published = Published(group: GroupId, history: History)

  /** A submitted commit with the group state it produces (Welcome and GroupInfo travel with it). */
  datatype Request = Request(device: DeviceId, group: GroupId, commit: Commit, result: History)

  datatype Server = Server(log: map<GroupId, History>, published: set<Published>, inbox: set<Request>, accepted: set<Request>)

  function Log(server: Server, group: GroupId): History {
    if group in server.log then server.log[group] else []
  }

  /** Compare and append: a request lands only if it targets the epoch after the current one. */
  function Accept(server: Server, r: Request): Server {
    server.(log := server.log[r.group := Log(server, r.group) + [r.commit]],
            published := server.published + {Published(r.group, r.result)},
            accepted := server.accepted + {r})
  }

  // ---------------------------------------------------------------- a device

  /** A ciphertext handed to the caller of encryptGroup. */
  datatype Cipher = Cipher(device: DeviceId, group: GroupId, epoch: nat, generation: nat)

  /** An own commit built but not yet adopted: `result` is the base history plus the commit. */
  datatype Plan = Plan(group: GroupId, commit: Commit, result: History)

  /** What the holder of the state lock is suspended on. */
  datatype Holder = Idle | Planned(plan: Plan) | Submitted(plan: Plan) | Persisting(cipher: Option<Cipher>)

  /** One mls_save_state call in flight. */
  datatype Call = Call(blob: Blob, version: nat, durable: bool)

  /** The webview's session: deviceStateCache, stateVersion, durableVersion. */
  datatype Session = Session(cache: Blob, version: nat, durable: nat, call: Option<Call>, holder: Holder)

  /**
   `strays` are save calls that outlived the webview that made them; `background`
   says that the files were handed to the background task. `promised` is history:
   the state most recently confirmed durable to an operation's caller.
   */
  datatype Device = Device(disk: Disk<Blob>, pending: Option<Blob>, strays: seq<Call>, background: bool,
                           session: Option<Session>, promised: Option<Blob>)

  datatype System = System(server: Server, devices: map<DeviceId, Device>, sent: seq<Cipher>)

  datatype OwnKind = Change | Genesis | External(info: History)

  datatype Event =
    | Start(access: Access)
    | Crash
    | Reload
    | HandOff
    | BackgroundDecrypt(group: GroupId, access: Access, reach: Reach)
    | Encrypt(group: GroupId)
    | Decrypt(group: GroupId)
    | Welcome(group: GroupId, history: History)
    | LiveCommit(group: GroupId, commit: Commit)
    | CatchUpWith(group: GroupId, welcome: Option<History>, entries: seq<Entry>)
    | Build(group: GroupId, commit: Commit, kind: OwnKind)
    | Submit
    | AdoptOnReply
    | AdoptOnLog(entries: seq<Entry>)
    | Abandon
    | DurableDone
    | DurableFailed
    | Send(wantDurable: bool)
    | Deliver(reach: Reach)
    | Flush(reach: Reach)
    | LateSave(index: nat, reach: Reach)
    | UploadInfo(group: GroupId)
    | ServerAccepts(request: Request)

  function Commits(s: Session, cache: Blob, cipher: Option<Cipher>): Session {
    s.(cache := cache, version := s.version + 1, holder := Persisting(cipher))
  }

  /** The history an own commit is built on: the local copy, an empty new group, or fetched GroupInfo. */
  function BaseOf(cache: Blob, group: GroupId, kind: OwnKind): Option<History> {
    match kind
    case Change => if group in cache then Some(cache[group].history) else None
    case Genesis => if group in cache then None else Some([])
    case External(info) => Some(info)
  }

  predicate KnownHistory(server: Server, group: GroupId, h: History) {
    Published(group, h) in server.published
  }

  /** Lock work that runs and commits in one go, then waits to be durable (or, for a decrypt, does not wait). */
  function LockedWork(self: DeviceId, server: Server, s: Session, e: Event): Option<Session> {
    if !s.holder.Idle? then None
    else match e
      case Encrypt(group) =>
        if group !in s.cache then None
        else
          var g := s.cache[group];
          Some(Commits(s, s.cache[group := g.(generation := g.generation + 1)],
                       Some(Cipher(self, group, |g.history|, g.generation))))
      case Decrypt(group) =>
        if group !in s.cache then None
        else Some(s.(cache := s.cache[group := s.cache[group].(received := s.cache[group].received + 1)],
                     version := s.version + 1))
      case Welcome(group, h) =>
        if group in s.cache || !KnownHistory(server, group, h) then None
        else Some(Commits(s, s.cache[group := Group(h, 0, 0)], None))
      case LiveCommit(group, c) =>
        if group !in s.cache || c !in Log(server, group) || !Applies(self, s.cache[group], c) then None
        else Some(Commits(s, s.cache[group := Merge(s.cache[group], c)], None))
      case CatchUpWith(group, welcome, entries) =>
        if (welcome.Some? && !KnownHistory(server, group, welcome.value)) || !AgreesWithLog(entries, Log(server, group)) then None
        else
          var caught := CatchUp(self, s.cache, group, welcome, entries);
          if caught == s.cache then None else Some(Commits(s, caught, None))
      case Build(group, c, kind) =>
        var base := BaseOf(s.cache, group, kind);
        if base.None? || (kind.External? && !KnownHistory(server, group, kind.info)) then None
        else if c.author != self || c.base != |base.value| || c in Log(server, group) then None
        else Some(s.(holder := Planned(Plan(group, c, base.value + [c]))))
      case _ => None
  }

  /** A catch-up reply may be old, partial, reordered or repeated, but it quotes the log. */
  predicate AgreesWithLog(entries: seq<Entry>, log: History) {
    forall i :: 0 <= i < |entries| ==> 1 <= entries[i].epoch <= |log| && log[entries[i].epoch - 1] == entries[i].commit
  }

  function Adopt(s: Session): Session
    requires s.holder.Submitted?
  {
    Commits(s, s.cache[s.holder.plan.group := Group(s.holder.plan.result, 0, 0)], None)
  }

  function RequestOf(self: DeviceId, plan: Plan): Request {
    Request(self, plan.group, plan.commit, plan.result)
  }

  /** The suspended half of lock work: durability, submission, adoption. */
  function HolderStep(self: DeviceId, server: Server, s: Session, e: Event): Option<Session> {
    match (s.holder, e)
    case (Planned(plan), Submit) => if s.durable >= s.version then Some(s.(holder := Submitted(plan))) else None
    case (Planned(_), Abandon) => Some(s.(holder := Idle))
    case (Submitted(plan), AdoptOnReply) => if RequestOf(self, plan) in server.accepted then Some(Adopt(s)) else None
    case (Submitted(plan), AdoptOnLog(entries)) =>
      if AgreesWithLog(entries, Log(server, plan.group)) && Entry(|plan.result|, plan.commit) in entries then Some(Adopt(s)) else None
    case (Submitted(_), Abandon) => Some(s.(holder := Idle))
    case (Persisting(_), DurableDone) => if s.durable >= s.version then Some(s.(holder := Idle)) else None
    case (Persisting(_), DurableFailed) => Some(s.(holder := Idle))
    case _ => None
  }

  /** mls_save_state on the Rust side: write, or park what was deferred or failed. */
  function Landed(d: Device, call: Call, reach: Reach): Device {
    if !call.durable then d.(pending := Some(call.blob))
    else d.(disk := Write(d.disk, Sealed(KEY, call.blob), reach), pending := if reach.Finished? then None else Some(call.blob))
  }

  function Flushed(d: Device, reach: Reach): Device
    requires d.pending.Some?
  {
    d.(disk := Write(d.disk, Sealed(KEY, d.pending.value), reach), pending := if reach.Finished? then None else d.pending)
  }

  /** What the webview learns from the reply to its save. */
  function Answered(s: Session, reach: Reach): Session
    requires s.call.Some?
  {
    var call := s.call.value;
    s.(call := None, durable := if call.durable && reach.Finished? && call.version > s.durable then call.version else s.durable)
  }

  /**
   The webview's single writer hands over the newest state; the Rust side writes or
   parks it, and refuses it once the files are handed over.
   */
  function StoreStep(d: Device, e: Event): Option<Device> {
    match e
    case Send(wantDurable) =>
      if d.session.None? || d.session.value.call.Some? || d.session.value.durable >= d.session.value.version then None
      else
        var s := d.session.value;
        Some(d.(session := Some(s.(call := Some(Call(s.cache, s.version, wantDurable))))))
    case Deliver(reach) =>
      if d.session.None? || d.session.value.call.None? then None
      else Some(Landed(d, d.session.value.call.value, reach).(session := Some(Answered(d.session.value, reach))))
    case Flush(reach) => if d.pending.None? then None else Some(Flushed(d, reach))
    case LateSave(i, reach) =>
      if i >= |d.strays| then None
      else
        var d' := d.(strays := d.strays[..i] + d.strays[i + 1..]);
        Some(if d.background then d' else Landed(d', d.strays[i], reach))
    case _ => None
  }

  /** The webview gone, with its call in flight left running. */
  function WithoutWindow(d: Device): Device {
    if d.session.None? || d.session.value.call.None? then d.(session := None)
    else d.(session := None, strays := d.strays + [d.session.value.call.value])
  }

  /** What a load finds, with the access it has to the files. */
  function Found(d: Device, access: Access): Option<Blob> {
    FirstReadable(Seen(d.disk, access), KEY)
  }

  /** decrypt_and_cache: load, decrypt, and save durably; whatever was deferred is dropped. */
  function DecryptedInBackground(d: Device, group: GroupId, loaded: Blob, reach: Reach): Device
    requires group in loaded
  {
    var decrypted := loaded[group := loaded[group].(received := loaded[group].received + 1)];
    d.(disk := Write(d.disk, Sealed(KEY, decrypted), reach), pending := None)
  }

  /**
   Starting and stopping: load_state, which may fail to read a file; the death of
   the process, calls included; a webview reload, which leaves a save call running;
   and the hand-off to the background task, which works until the next load.
   */
  function LifeStep(d: Device, e: Event): Option<Device> {
    match e
    case Start(access) =>
      if d.session.Some? || !access.stat then None
      else
        var v := Found(d, access);
        if v.Some? then Some(d.(session := Some(Session(v.value, 1, 1, None, Idle)), background := false))
        else if Committed(d.disk) then None
        else Some(d.(session := Some(Session(map[], 1, 0, None, Persisting(None))), background := false))
    case Crash => Some(d.(session := None, pending := None, strays := [], background := false))
    case Reload => if d.session.None? then None else Some(WithoutWindow(d))
    case HandOff => Some(WithoutWindow(d).(background := true))
    case BackgroundDecrypt(group, access, reach) =>
      if !d.background || !access.stat then None
      else
        var v := Found(d, access);
        if v.None? || group !in v.value then None else Some(DecryptedInBackground(d, group, v.value, reach))
    case _ => None
  }

  /** What an event does to the device it happens on. None when it cannot happen there. */
  function DeviceStep(self: DeviceId, server: Server, d: Device, e: Event): Option<Device> {
    var life, stored := LifeStep(d, e), StoreStep(d, e);
    if life.Some? then life
    else if stored.Some? then stored
    else if d.session.None? then None
    else
      var s := d.session.value;
      var worked, held := LockedWork(self, server, s, e), HolderStep(self, server, s, e);
      if worked.Some? then Some(d.(session := worked))
      else if held.Some? then Some(d.(session := held, promised := if e.DurableDone? then Some(s.cache) else d.promised))
      else if e.UploadInfo? && e.group in s.cache && |s.cache[e.group].history| == |Log(server, e.group)| then Some(d)
      else None
  }

  /** What reaches the server: a submitted commit, or a refreshed GroupInfo for its current epoch. */
  function Upload(self: DeviceId, server: Server, d: Device, e: Event): Server {
    match (d.session, e)
    case (Some(s), Submit) =>
      if s.holder.Planned? then server.(inbox := server.inbox + {RequestOf(self, s.holder.plan)}) else server
    case (Some(s), UploadInfo(g)) =>
      if g in s.cache then server.(published := server.published + {Published(g, s.cache[g].history)}) else server
    case _ => server
  }

  /** The ciphertext an operation returns once it is durable. */
  function Returned(d: Device, e: Event): seq<Cipher> {
    if e.DurableDone? && d.session.Some? && d.session.value.holder.Persisting? && d.session.value.holder.cipher.Some?
    then [d.session.value.holder.cipher.value] else []
  }

  /** One step of device `id`, or, for ServerAccepts, of the server. None when the event cannot happen. */
  function Step(s: System, id: DeviceId, e: Event): Option<System> {
    if e.ServerAccepts? then
      var r := e.request;
      if r in s.server.inbox && |r.result| == |Log(s.server, r.group)| + 1 then Some(s.(server := Accept(s.server, r))) else None
    else if id !in s.devices then None
    else
      var d := s.devices[id];
      var d' := DeviceStep(id, s.server, d, e);
      if d'.None? then None
      else Some(System(Upload(id, s.server, d, e), s.devices[id := d'.value], s.sent + Returned(d, e)))
  }

  function NewDevice(): Device {
    Device(Disk(Absent, Absent, Absent), None, [], false, None, None)
  }

  function Initial(ids: set<DeviceId>): System {
    System(Server(map[], {}, {}, {}), map id | id in ids :: NewDevice(), [])
  }

  /** The state after a run. None when one of its events cannot happen. */
  function StateAfter(ids: set<DeviceId>, run: seq<(DeviceId, Event)>): Option<System> {
    if run == [] then Some(Initial(ids))
    else
      var n := |run| - 1;
      var before := StateAfter(ids, run[..n]);
      if before.None? then None else Step(before.value, run[n].0, run[n].1)
  }

  // ---------------------------------------------------------------- agreement invariant

  /** Every copy in a device state is a nonempty prefix of the server's log. */
  ghost predicate OnLog(server: Server, b: Blob) {
    forall g :: g in b ==> b[g].history != [] && b[g].history <= Log(server, g)
  }

  ghost predicate PlanOk(server: Server, plan: Plan) {
    && |plan.result| > 0
    && plan.result[|plan.result| - 1] == plan.commit
    && plan.commit.base == |plan.result| - 1
    && plan.result[..|plan.result| - 1] <= Log(server, plan.group)
  }

  ghost predicate ServerOk(server: Server) {
    && (forall g :: forall i :: 0 <= i < |Log(server, g)| ==> Log(server, g)[i].base == i)
    && (forall p :: p in server.published ==> p.history != [] && p.history <= Log(server, p.group))
    && (forall r :: r in server.inbox ==> PlanOk(server, Plan(r.group, r.commit, r.result)))
    && (forall r :: r in server.accepted ==> r.result <= Log(server, r.group))
    && server.accepted <= server.inbox
  }

  ghost predicate FileOk(server: Server, f: File<Blob>) {
    f.Sealed? ==> f.key == KEY && OnLog(server, f.value)
  }

  /** The plan's commit is newer than anything in the copy it is to replace. */
  ghost predicate NewTo(cache: Blob, plan: Plan) {
    plan.group in cache ==> plan.commit !in cache[plan.group].history
  }

  ghost predicate SessionOk(server: Server, s: Session) {
    && OnLog(server, s.cache)
    && (s.call.Some? ==> OnLog(server, s.call.value.blob))
    && (s.holder.Planned? || s.holder.Submitted? ==> PlanOk(server, s.holder.plan) && NewTo(s.cache, s.holder.plan))
  }

  ghost predicate DeviceOk(server: Server, d: Device) {
    && FileOk(server, d.disk.main) && FileOk(server, d.disk.tmp) && FileOk(server, d.disk.bak)
    && (d.pending.Some? ==> OnLog(server, d.pending.value))
    && (forall i :: 0 <= i < |d.strays| ==> OnLog(server, d.strays[i].blob))
    && (d.session.Some? ==> SessionOk(server, d.session.value))
  }

  ghost predicate Agrees(s: System) {
    && ServerOk(s.server)
    && (forall id :: id in s.devices ==> DeviceOk(s.server, s.devices[id]))
  }

  // ---------------------------------------------------------------- agreement proof

  ghost predicate Extends(a: Server, b: Server) {
    forall g :: Log(a, g) <= Log(b, g)
  }

  /** Everything a device relies on survives the log growing. */
  lemma DeviceOkGrows(a: Server, b: Server, d: Device)
    requires Extends(a, b) && DeviceOk(a, d)
    ensures DeviceOk(b, d)
  {
    forall x | OnLog(a, x) ensures OnLog(b, x) {}
    forall p | PlanOk(a, p) ensures PlanOk(b, p) {}
  }

  lemma AcceptKeepsServer(server: Server, r: Request)
    requires ServerOk(server) && r in server.inbox && |r.result| == |Log(server, r.group)| + 1
    ensures ServerOk(Accept(server, r)) && Extends(server, Accept(server, r))
    ensures Log(Accept(server, r), r.group) == r.result
  {
    var old', new' := Log(server, r.group), Log(Accept(server, r), r.group);
    assert PlanOk(server, Plan(r.group, r.commit, r.result));
    assert r.result[..|r.result| - 1] == old';
    assert r.result == old' + [r.commit] == new';
    forall g | g != r.group ensures Log(Accept(server, r), g) == Log(server, g) {}
    assert Extends(server, Accept(server, r));
    forall p | PlanOk(server, p) ensures PlanOk(Accept(server, r), p) {}
  }

  /** A live commit that applies is the server's commit for the copy's next epoch. */
  lemma LiveCommitStaysOnLog(self: DeviceId, server: Server, cache: Blob, group: GroupId, c: Commit)
    requires ServerOk(server) && OnLog(server, cache) && group in cache
    requires c in Log(server, group) && Applies(self, cache[group], c)
    ensures OnLog(server, cache[group := Merge(cache[group], c)])
  {
    var log, h := Log(server, group), cache[group].history;
    var i :| 0 <= i < |log| && log[i] == c;
    assert log[i].base == i;
    assert h + [c] <= log;
  }

  /** What a commit is built on is a prefix of the log, so the plan is one commit ahead of it. */
  lemma BuiltPlanOk(self: DeviceId, server: Server, cache: Blob, group: GroupId, c: Commit, kind: OwnKind)
    requires ServerOk(server) && OnLog(server, cache) && BaseOf(cache, group, kind).Some?
    requires kind.External? ==> KnownHistory(server, group, kind.info)
    requires c.base == |BaseOf(cache, group, kind).value| && c !in Log(server, group)
    ensures var plan := Plan(group, c, BaseOf(cache, group, kind).value + [c]);
            PlanOk(server, plan) && NewTo(cache, plan)
  {
    var base := BaseOf(cache, group, kind).value;
    assert base <= Log(server, group);
    assert (base + [c])[..|base|] == base;
    if group in cache {
      assert cache[group].history <= Log(server, group);
    }
  }

  /** A welcome, and a copy whose ratchets alone moved, stay on the log. */
  lemma CopyStaysOnLog(server: Server, cache: Blob, group: GroupId, copy: Group)
    requires ServerOk(server) && OnLog(server, cache)
    requires KnownHistory(server, group, copy.history) || (group in cache && copy.history == cache[group].history)
    ensures OnLog(server, cache[group := copy])
  {
  }

  lemma EncryptKeepsSession(self: DeviceId, server: Server, s: Session, e: Event)
    requires ServerOk(server) && SessionOk(server, s) && LockedWork(self, server, s, e).Some? && e.Encrypt?
    ensures SessionOk(server, LockedWork(self, server, s, e).value)
  {
    CopyStaysOnLog(server, s.cache, e.group, s.cache[e.group].(generation := s.cache[e.group].generation + 1));
    hide ServerOk, OnLog, PlanOk;
  }

  lemma DecryptKeepsSession(self: DeviceId, server: Server, s: Session, e: Event)
    requires ServerOk(server) && SessionOk(server, s) && LockedWork(self, server, s, e).Some? && e.Decrypt?
    ensures SessionOk(server, LockedWork(self, server, s, e).value)
  {
    CopyStaysOnLog(server, s.cache, e.group, s.cache[e.group].(received := s.cache[e.group].received + 1));
    hide ServerOk, OnLog, PlanOk;
  }

  lemma WelcomeKeepsSession(self: DeviceId, server: Server, s: Session, e: Event)
    requires ServerOk(server) && SessionOk(server, s) && LockedWork(self, server, s, e).Some? && e.Welcome?
    ensures SessionOk(server, LockedWork(self, server, s, e).value)
  {
    CopyStaysOnLog(server, s.cache, e.group, Group(e.history, 0, 0));
    hide ServerOk, OnLog, PlanOk;
  }

  lemma LiveCommitKeepsSession(self: DeviceId, server: Server, s: Session, e: Event)
    requires ServerOk(server) && SessionOk(server, s) && LockedWork(self, server, s, e).Some? && e.LiveCommit?
    ensures SessionOk(server, LockedWork(self, server, s, e).value)
  {
    LiveCommitStaysOnLog(self, server, s.cache, e.group, e.commit);
    hide ServerOk, OnLog, PlanOk, Applies, Merge;
  }

  lemma CatchUpKeepsSession(self: DeviceId, server: Server, s: Session, e: Event)
    requires ServerOk(server) && SessionOk(server, s) && LockedWork(self, server, s, e).Some? && e.CatchUpWith?
    ensures SessionOk(server, LockedWork(self, server, s, e).value)
  {
    CatchUpStaysOnLog(self, server, s.cache, e.group, e.welcome, e.entries);
    hide ServerOk, OnLog, PlanOk, CatchUp;
  }

  lemma BuildKeepsSession(self: DeviceId, server: Server, s: Session, e: Event)
    requires ServerOk(server) && SessionOk(server, s) && LockedWork(self, server, s, e).Some? && e.Build?
    ensures SessionOk(server, LockedWork(self, server, s, e).value)
  {
    BuiltPlanOk(self, server, s.cache, e.group, e.commit, e.kind);
    hide ServerOk, OnLog, PlanOk, NewTo, BaseOf;
  }

  lemma WorkKeepsSession(self: DeviceId, server: Server, s: Session, e: Event)
    requires ServerOk(server) && SessionOk(server, s) && LockedWork(self, server, s, e).Some?
    ensures SessionOk(server, LockedWork(self, server, s, e).value)
  {
    match e {
      case Build(_, _, _) => BuildKeepsSession(self, server, s, e);
      case LiveCommit(_, _) => LiveCommitKeepsSession(self, server, s, e);
      case CatchUpWith(_, _, _) => CatchUpKeepsSession(self, server, s, e);
      case Encrypt(_) => EncryptKeepsSession(self, server, s, e);
      case Decrypt(_) => DecryptKeepsSession(self, server, s, e);
      case Welcome(_, _) => WelcomeKeepsSession(self, server, s, e);
      case _ =>
    }
    hide LockedWork, SessionOk;
  }

  lemma CatchUpStaysOnLog(self: DeviceId, server: Server, cache: Blob, group: GroupId, welcome: Option<History>, entries: seq<Entry>)
    requires ServerOk(server) && OnLog(server, cache) && AgreesWithLog(entries, Log(server, group))
    requires welcome.Some? ==> KnownHistory(server, group, welcome.value)
    ensures OnLog(server, CatchUp(self, cache, group, welcome, entries))
  {
    var joined := if welcome.Some? && group !in cache then cache[group := Group(welcome.value, 0, 0)] else cache;
    assert OnLog(server, joined);
    if group in joined {
      ReplayStaysOnLog(self, joined[group], entries, Log(server, group));
    }
  }

  /** An adopted commit is in the server's log, at exactly the epoch and with exactly the bytes planned. */
  lemma AdoptionIsLogged(self: DeviceId, server: Server, s: Session, e: Event)
    requires ServerOk(server) && SessionOk(server, s)
    requires (e.AdoptOnReply? || e.AdoptOnLog?) && HolderStep(self, server, s, e).Some?
    ensures s.holder.Submitted? && s.holder.plan.result <= Log(server, s.holder.plan.group)
    ensures HolderStep(self, server, s, e) == Some(Adopt(s))
  {
    var plan := s.holder.plan;
    var log, n := Log(server, plan.group), |plan.result| - 1;
    if e.AdoptOnLog? {
      var i :| 0 <= i < |e.entries| && e.entries[i] == Entry(|plan.result|, plan.commit);
      assert log[n] == plan.commit;
      assert plan.result == plan.result[..n] + [plan.commit];
    }
  }

  lemma HolderKeepsSession(self: DeviceId, server: Server, s: Session, e: Event)
    requires ServerOk(server) && SessionOk(server, s) && HolderStep(self, server, s, e).Some?
    ensures SessionOk(server, HolderStep(self, server, s, e).value)
  {
    if e.AdoptOnReply? || e.AdoptOnLog? {
      AdoptionIsLogged(self, server, s, e);
    }
  }

  lemma WriteKeepsFiles(server: Server, d: Disk<Blob>, b: Blob, r: Reach)
    requires FileOk(server, d.main) && FileOk(server, d.tmp) && FileOk(server, d.bak) && OnLog(server, b)
    ensures var d' := Write(d, Sealed(KEY, b), r);
            FileOk(server, d'.main) && FileOk(server, d'.tmp) && FileOk(server, d'.bak)
  {
  }

  lemma StoreKeepsDevice(server: Server, d: Device, e: Event)
    requires DeviceOk(server, d) && StoreStep(d, e).Some?
    ensures DeviceOk(server, StoreStep(d, e).value)
  {
    match e
    case Deliver(reach) => WriteKeepsFiles(server, d.disk, d.session.value.call.value.blob, reach);
    case Flush(reach) => WriteKeepsFiles(server, d.disk, d.pending.value, reach);
    case LateSave(i, reach) => WriteKeepsFiles(server, d.disk, d.strays[i].blob, reach);
    case _ =>
  }

  lemma FoundIsOnLog(server: Server, d: Device, access: Access)
    requires DeviceOk(server, d) && Found(d, access).Some?
    ensures OnLog(server, Found(d, access).value)
  {
    hide OnLog;
  }

  lemma BackgroundKeepsDevice(server: Server, d: Device, group: GroupId, loaded: Blob, reach: Reach)
    requires DeviceOk(server, d) && OnLog(server, loaded) && group in loaded
    ensures DeviceOk(server, DecryptedInBackground(d, group, loaded, reach))
  {
    var decrypted := loaded[group := loaded[group].(received := loaded[group].received + 1)];
    assert OnLog(server, decrypted);
    WriteKeepsFiles(server, d.disk, decrypted, reach);
    hide OnLog, Write, SessionOk, FileOk;
  }

  lemma LifeKeepsDevice(server: Server, d: Device, e: Event)
    requires DeviceOk(server, d) && LifeStep(d, e).Some?
    ensures DeviceOk(server, LifeStep(d, e).value)
  {
    match e
    case Start(access) =>
      if Found(d, access).Some? { FoundIsOnLog(server, d, access); }
      hide Found;
    case BackgroundDecrypt(group, access, reach) =>
      FoundIsOnLog(server, d, access);
      BackgroundKeepsDevice(server, d, group, Found(d, access).value, reach);
      hide OnLog, DecryptedInBackground, Found, DeviceOk;
    case _ =>
  }

  lemma DeviceStepKeepsAgreement(self: DeviceId, server: Server, d: Device, e: Event)
    requires ServerOk(server) && DeviceOk(server, d) && DeviceStep(self, server, d, e).Some?
    ensures DeviceOk(server, DeviceStep(self, server, d, e).value)
  {
    if LifeStep(d, e).Some? {
      LifeKeepsDevice(server, d, e);
    } else if StoreStep(d, e).Some? {
      StoreKeepsDevice(server, d, e);
    } else if LockedWork(self, server, d.session.value, e).Some? {
      WorkKeepsSession(self, server, d.session.value, e);
    } else if HolderStep(self, server, d.session.value, e).Some? {
      HolderKeepsSession(self, server, d.session.value, e);
    }
    hide LifeStep, StoreStep, LockedWork, HolderStep, SessionOk, FileOk, OnLog;
  }

  lemma UploadKeepsServer(self: DeviceId, server: Server, d: Device, e: Event)
    requires ServerOk(server) && DeviceOk(server, d) && DeviceStep(self, server, d, e).Some?
    ensures ServerOk(Upload(self, server, d, e)) && Extends(server, Upload(self, server, d, e))
  {
    var server' := Upload(self, server, d, e);
    assert forall g :: Log(server', g) == Log(server, g);
    assert forall p :: PlanOk(server, p) ==> PlanOk(server', p);
  }

  lemma StepKeepsAgreement(s: System, id: DeviceId, e: Event)
    requires Agrees(s) && Step(s, id, e).Some?
    ensures Agrees(Step(s, id, e).value)
  {
    var s' := Step(s, id, e).value;
    if e.ServerAccepts? {
      AcceptKeepsServer(s.server, e.request);
    } else {
      DeviceStepKeepsAgreement(id, s.server, s.devices[id], e);
      UploadKeepsServer(id, s.server, s.devices[id], e);
    }
    forall other | other in s'.devices ensures DeviceOk(s'.server, s'.devices[other]) {
      DeviceOkGrows(s.server, s'.server, s'.devices[other]);
    }
  }

  lemma {:induction false} AlwaysAgrees(ids: set<DeviceId>, run: seq<(DeviceId, Event)>, s: System)
    requires StateAfter(ids, run) == Some(s)
    ensures Agrees(s)
  {
    if run != [] {
      var n := |run| - 1;
      var before := StateAfter(ids, run[..n]).value;
      AlwaysAgrees(ids, run[..n], before);
      StepKeepsAgreement(before, run[n].0, run[n].1);
    }
  }

  /** The copies a device holds, in memory, waiting to be written, or in any file a later start could load. */
  ghost predicate Holds(d: Device, g: GroupId, copy: Group) {
    || (d.session.Some? && g in d.session.value.cache && d.session.value.cache[g] == copy)
    || (d.pending.Some? && g in d.pending.value && d.pending.value[g] == copy)
    || (d.disk.main.Sealed? && g in d.disk.main.value && d.disk.main.value[g] == copy)
    || (d.disk.tmp.Sealed? && g in d.disk.tmp.value && d.disk.tmp.value[g] == copy)
    || (d.disk.bak.Sealed? && g in d.disk.bak.value && d.disk.bak.value[g] == copy)
  }

  /**
   Agreement: over any run, every copy any device holds is the server's log up
   to that copy's epoch, so two devices at one epoch hold one group.
   */
  lemma Agreement(ids: set<DeviceId>, run: seq<(DeviceId, Event)>, s: System, a: DeviceId, b: DeviceId, g: GroupId, x: Group, y: Group)
    requires StateAfter(ids, run) == Some(s) && a in s.devices && b in s.devices
    requires Holds(s.devices[a], g, x) && Holds(s.devices[b], g, y)
    ensures |x.history| <= |Log(s.server, g)| && x.history == Log(s.server, g)[..|x.history|]
    ensures |x.history| == |y.history| ==> x.history == y.history
  {
    AlwaysAgrees(ids, run, s);
    assert DeviceOk(s.server, s.devices[a]) && DeviceOk(s.server, s.devices[b]);
  }
}
