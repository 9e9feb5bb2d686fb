/**
 Three runs of one device in which a promise of the session's header fails: a
 ciphertext position returned twice, after a reload with a save call in flight
 or after a start that could not read the main file, and a commit the server
 holds whose base the device has lost.
 */
module FailingRuns {
  import opened Wrappers
  import opened Groups
  import opened StateStore
  import opened Protocol

  const D: DeviceId := "d"
  const G: GroupId := "g"

  // ---------------------------------------------------------------- runs of one device

  function Solo(events: seq<Event>): seq<(DeviceId, Event)> {
    seq(|events|, i requires 0 <= i < |events| => (D, events[i]))
  }

  /** The system the device's events lead to. */
  ghost predicate Leads(events: seq<Event>, s: System) {
    StateAfter({D}, Solo(events)) == Some(s) && D in s.devices
  }

  lemma Then(events: seq<Event>, s: System, e: Event, t: System)
    requires Leads(events, s) && Step(s, D, e) == Some(t) && D in t.devices
    ensures Leads(events + [e], t)
  {
    var longer := Solo(events + [e]);
    assert longer[..|longer| - 1] == Solo(events) && longer[|longer| - 1] == (D, e);
  }

  /** An event that only concerns the device: what it does there, and what it returns. */
  lemma DeviceThen(events: seq<Event>, s: System, e: Event, d: Device)
    requires Leads(events, s) && !e.ServerAccepts? && !e.Submit? && !e.UploadInfo?
    requires DeviceStep(D, s.server, s.devices[D], e) == Some(d)
    ensures Leads(events + [e], System(s.server, s.devices[D := d], s.sent + Returned(s.devices[D], e)))
  {
    hide DeviceStep, StateAfter, Solo;
    Then(events, s, e, System(s.server, s.devices[D := d], s.sent + Returned(s.devices[D], e)));
  }

  // ---------------------------------------------------------------- stretches of a run

  function Given(cipher: Option<Cipher>): seq<Cipher> {
    if cipher.Some? then [cipher.value] else []
  }

  /** The device once the holder's state `b` has been saved durably and its operation has returned. */
  function SavedDevice(d: Device, b: Blob, version: nat): Device {
    Device(Write(d.disk, Sealed(KEY, b), Finished(true)), None, d.strays, d.background,
           Some(Session(b, version, version, None, Idle)), Some(b))
  }

  const SAVE: seq<Event> := [Send(true), Deliver(Finished(true)), DurableDone]

  lemma Saves(events: seq<Event>, s: System, b: Blob, version: nat, durable: nat, cipher: Option<Cipher>)
    requires Leads(events, s) && durable < version
    requires s.devices[D].session == Some(Session(b, version, durable, None, Persisting(cipher)))
    ensures Leads(events + SAVE, System(s.server, s.devices[D := SavedDevice(s.devices[D], b, version)], s.sent + Given(cipher)))
  {
    var d := s.devices[D];
    var d1 := d.(session := Some(Session(b, version, durable, Some(Call(b, version, true)), Persisting(cipher))));
    var d2 := d.(disk := Write(d.disk, Sealed(KEY, b), Finished(true)), pending := None,
                 session := Some(Session(b, version, version, None, Persisting(cipher))));
    var d3 := SavedDevice(d, b, version);
    var s1, s2 := System(s.server, s.devices[D := d1], s.sent), System(s.server, s.devices[D := d2], s.sent);
    SaveSteps(s.server, d, b, version, durable, cipher);
    hide DeviceStep, StateAfter, Solo;
    DeviceThen(events, s, Send(true), d1);
    assert System(s.server, s.devices[D := d1], s.sent + []) == s1;
    DeviceThen(events + [Send(true)], s1, Deliver(Finished(true)), d2);
    assert s1.devices[D := d2] == s2.devices && s1.sent + [] == s2.sent;
    DeviceThen(events + [Send(true)] + [Deliver(Finished(true))], s2, DurableDone, d3);
    assert s2.devices[D := d3] == s.devices[D := d3] && Returned(d2, DurableDone) == Given(cipher);
    assert events + [Send(true)] + [Deliver(Finished(true))] + [DurableDone] == events + SAVE;
  }

  lemma SaveSteps(server: Server, d: Device, b: Blob, version: nat, durable: nat, cipher: Option<Cipher>)
    requires durable < version && d.session == Some(Session(b, version, durable, None, Persisting(cipher)))
    ensures var d1 := d.(session := Some(Session(b, version, durable, Some(Call(b, version, true)), Persisting(cipher))));
            var d2 := d.(disk := Write(d.disk, Sealed(KEY, b), Finished(true)), pending := None,
                         session := Some(Session(b, version, version, None, Persisting(cipher))));
            && DeviceStep(D, server, d, Send(true)) == Some(d1)
            && DeviceStep(D, server, d1, Deliver(Finished(true))) == Some(d2)
            && DeviceStep(D, server, d2, DurableDone) == Some(SavedDevice(d, b, version))
  {
  }

  /** `g` is the one group of the state. */
  function OneGroup(g: Group): Blob {
    map[G := g]
  }

  function Position(g: Group): Cipher {
    Cipher(D, G, |g.history|, g.generation)
  }

  function NextPosition(g: Group): Group {
    g.(generation := g.generation + 1)
  }

  /** encryptGroup's locked half, its state not yet saved. */
  lemma Encrypts(events: seq<Event>, s: System, g: Group, version: nat)
    requires Leads(events, s)
    requires s.devices[D].session == Some(Session(OneGroup(g), version, version, None, Idle))
    ensures Leads(events + [Encrypt(G)], System(s.server, s.devices[D := s.devices[D].(
              session := Some(Session(OneGroup(NextPosition(g)), version + 1, version, None, Persisting(Some(Position(g))))))], s.sent))
  {
    var d := s.devices[D].(
              session := Some(Session(OneGroup(NextPosition(g)), version + 1, version, None, Persisting(Some(Position(g))))));
    assert OneGroup(g)[G := NextPosition(g)] == OneGroup(NextPosition(g));
    assert DeviceStep(D, s.server, s.devices[D], Encrypt(G)) == Some(d);
    hide DeviceStep, StateAfter, Solo;
    DeviceThen(events, s, Encrypt(G), d);
    assert s.sent + [] == s.sent;
  }

  const SEND: seq<Event> := [Encrypt(G)] + SAVE

  /** A whole encryptGroup: the position is returned, the advanced state is on disk. */
  lemma Sends(events: seq<Event>, s: System, g: Group, version: nat)
    requires Leads(events, s)
    requires s.devices[D].session == Some(Session(OneGroup(g), version, version, None, Idle))
    ensures Leads(events + SEND, System(s.server,
              s.devices[D := SavedDevice(s.devices[D], OneGroup(NextPosition(g)), version + 1)], s.sent + [Position(g)]))
  {
    hide DeviceStep, StateAfter, Solo;
    Encrypts(events, s, g, version);
    var d := s.devices[D].(
              session := Some(Session(OneGroup(NextPosition(g)), version + 1, version, None, Persisting(Some(Position(g))))));
    var s1 := System(s.server, s.devices[D := d], s.sent);
    Saves(events + [Encrypt(G)], s1, OneGroup(NextPosition(g)), version + 1, version, Some(Position(g)));
    assert SavedDevice(d, OneGroup(NextPosition(g)), version + 1) == SavedDevice(s.devices[D], OneGroup(NextPosition(g)), version + 1);
    assert s1.devices[D := SavedDevice(d, OneGroup(NextPosition(g)), version + 1)]
           == s.devices[D := SavedDevice(s.devices[D], OneGroup(NextPosition(g)), version + 1)];
    assert (events + [Encrypt(G)]) + SAVE == events + SEND;
  }

  /** Starting from the state a load with this access finds. */
  lemma StartsWith(events: seq<Event>, s: System, access: Access, b: Blob)
    requires Leads(events, s) && s.devices[D].session.None? && !s.devices[D].background
    requires access.stat && Found(s.devices[D], access) == Some(b)
    ensures Leads(events + [Start(access)], System(s.server,
              s.devices[D := s.devices[D].(session := Some(Session(b, 1, 1, None, Idle)))], s.sent))
  {
    hide StateAfter, Solo;
    DeviceThen(events, s, Start(access), s.devices[D].(session := Some(Session(b, 1, 1, None, Idle))));
    assert s.sent + [] == s.sent;
  }

  const START := Start(FULL)

  lemma Starts(events: seq<Event>, s: System, b: Blob)
    requires Leads(events, s) && s.devices[D].session.None? && !s.devices[D].background
    requires FirstReadable(s.devices[D].disk, KEY) == Some(b)
    ensures Leads(events + [START], System(s.server,
              s.devices[D := s.devices[D].(session := Some(Session(b, 1, 1, None, Idle)))], s.sent))
  {
    StartsWith(events, s, FULL, b);
  }

  // ---------------------------------------------------------------- an own commit

  function RequestFor(base: History, c: Commit): Request {
    Request(D, G, c, base + [c])
  }

  /** The server once it has taken the commit. */
  function Taken(server: Server, base: History, c: Commit): Server {
    Accept(server.(inbox := server.inbox + {RequestFor(base, c)}), RequestFor(base, c))
  }

  function Own(c: Commit, kind: OwnKind, base: History): seq<Event> {
    [Build(G, c, kind), Submit, ServerAccepts(RequestFor(base, c)), AdoptOnReply]
  }

  /** The device with the commit adopted and not yet saved. */
  function Adopted(d: Device, base: History, c: Commit, version: nat): Device {
    d.(session := Some(Session(OneGroup(Group(base + [c], 0, 0)), version + 1, version, None, Persisting(None))))
  }

  ghost predicate CanCommit(s: System, base: History, c: Commit, kind: OwnKind, cache: Blob, version: nat) {
    && D in s.devices && s.devices[D].session == Some(Session(cache, version, version, None, Idle))
    && cache.Keys <= {G} && !kind.External? && BaseOf(cache, G, kind) == Some(base)
    && Log(s.server, G) == base && c.author == D && c.base == |base| && c !in base
  }

  /** The device holding the plan, before and after it went out. */
  function Planning(d: Device, cache: Blob, version: nat, holder: Holder): Device {
    d.(session := Some(Session(cache, version, version, None, holder)))
  }

  function Submitting(s: System, base: History, c: Commit, cache: Blob, version: nat): System
    requires D in s.devices
  {
    System(s.server.(inbox := s.server.inbox + {RequestFor(base, c)}),
           s.devices[D := Planning(s.devices[D], cache, version, Submitted(Plan(G, c, base + [c])))], s.sent)
  }

  lemma BuildsAndSubmits(s: System, base: History, c: Commit, kind: OwnKind, cache: Blob, version: nat)
    requires CanCommit(s, base, c, kind, cache, version)
    ensures var planned := Planning(s.devices[D], cache, version, Planned(Plan(G, c, base + [c])));
            && DeviceStep(D, s.server, s.devices[D], Build(G, c, kind)) == Some(planned)
            && Step(System(s.server, s.devices[D := planned], s.sent), D, Submit) == Some(Submitting(s, base, c, cache, version))
  {
    var planned := Planning(s.devices[D], cache, version, Planned(Plan(G, c, base + [c])));
    assert s.devices[D := planned][D := Submitting(s, base, c, cache, version).devices[D]] == Submitting(s, base, c, cache, version).devices;
    assert s.sent + [] == s.sent;
  }

  lemma AcceptsAndAdopts(s: System, base: History, c: Commit, kind: OwnKind, cache: Blob, version: nat)
    requires CanCommit(s, base, c, kind, cache, version)
    ensures var submitting := Submitting(s, base, c, cache, version);
            && Step(submitting, D, ServerAccepts(RequestFor(base, c))) == Some(submitting.(server := Taken(s.server, base, c)))
            && DeviceStep(D, Taken(s.server, base, c), submitting.devices[D], AdoptOnReply) == Some(Adopted(s.devices[D], base, c, version))
            && Log(Taken(s.server, base, c), G) == base + [c]
  {
    assert cache[G := Group(base + [c], 0, 0)] == OneGroup(Group(base + [c], 0, 0));
  }

  lemma SubmitsOwn(events: seq<Event>, s: System, base: History, c: Commit, kind: OwnKind, cache: Blob, version: nat)
    requires Leads(events, s) && CanCommit(s, base, c, kind, cache, version)
    ensures Leads(events + [Build(G, c, kind)] + [Submit], Submitting(s, base, c, cache, version))
  {
    BuildsAndSubmits(s, base, c, kind, cache, version);
    hide Step, DeviceStep, StateAfter, Solo, CanCommit, RequestFor;
    var planned := Planning(s.devices[D], cache, version, Planned(Plan(G, c, base + [c])));
    DeviceThen(events, s, Build(G, c, kind), planned);
    assert s.sent + [] == s.sent;
    Then(events + [Build(G, c, kind)], System(s.server, s.devices[D := planned], s.sent), Submit, Submitting(s, base, c, cache, version));
  }

  /** Built, submitted, accepted and adopted, with nobody racing. */
  lemma CommitsOwn(events: seq<Event>, s: System, base: History, c: Commit, kind: OwnKind, cache: Blob, version: nat)
    requires Leads(events, s) && CanCommit(s, base, c, kind, cache, version)
    ensures Leads(events + Own(c, kind, base), System(Taken(s.server, base, c),
              s.devices[D := Adopted(s.devices[D], base, c, version)], s.sent))
    ensures Log(Taken(s.server, base, c), G) == base + [c]
  {
    SubmitsOwn(events, s, base, c, kind, cache, version);
    AcceptsAndAdopts(s, base, c, kind, cache, version);
    hide Step, DeviceStep, Taken, Accept, StateAfter, Solo, RequestFor, Adopted;
    var e2, s2 := events + [Build(G, c, kind)] + [Submit], Submitting(s, base, c, cache, version);
    var e3, s3 := e2 + [ServerAccepts(RequestFor(base, c))], s2.(server := Taken(s.server, base, c));
    Then(e2, s2, ServerAccepts(RequestFor(base, c)), s3);
    DeviceThen(e3, s3, AdoptOnReply, Adopted(s.devices[D], base, c, version));
    assert s3.devices[D := Adopted(s.devices[D], base, c, version)] == s.devices[D := Adopted(s.devices[D], base, c, version)];
    assert Returned(s3.devices[D], AdoptOnReply) == [] && s3.sent + [] == s.sent;
    OwnIsFour(events, c, kind, base);
  }

  lemma OwnIsFour(events: seq<Event>, c: Commit, kind: OwnKind, base: History)
    ensures events + [Build(G, c, kind)] + [Submit] + [ServerAccepts(RequestFor(base, c))] + [AdoptOnReply] == events + Own(c, kind, base)
  {
  }

  // ---------------------------------------------------------------- a device with one group

  const C0 := Commit(D, 0, 0)
  const FIRST := Group([C0], 0, 0)

  const SETUP: seq<Event> := [] + [START] + SAVE + Own(C0, Genesis, []) + SAVE

  /** A new device makes its identity and a group, both durable. */
  lemma SetsUp() returns (s: System)
    ensures Leads(SETUP, s) && Log(s.server, G) == [C0] && s.sent == []
    ensures s.devices[D] == Device(s.devices[D].disk, None, [], false, Some(Session(OneGroup(FIRST), 2, 2, None, Idle)), Some(OneGroup(FIRST)))
    ensures s.devices[D].disk.main == Sealed(KEY, OneGroup(FIRST)) && s.devices[D].disk.tmp.Absent?
  {
    var s1 := StartsFresh();
    hide DeviceStep, Taken, Adopted, SavedDevice, StateAfter, Solo;
    Saves([] + [START], s1, NOTHING, 1, 0, None);
    var s2 := System(s1.server, s1.devices[D := SavedDevice(s1.devices[D], NOTHING, 1)], s1.sent + []);
    s := MakesFirstGroup([] + [START] + SAVE, s2);
  }

  const NOTHING: Blob := map[]

  lemma StartsFresh() returns (s: System)
    ensures Leads([] + [START], s) && Log(s.server, G) == [] && s.sent == []
    ensures s.devices[D] == NewDevice().(session := Some(Session(NOTHING, 1, 0, None, Persisting(None))))
  {
    var s0 := Initial({D});
    assert Leads([], s0) by { assert Solo([]) == []; }
    var d := NewDevice().(session := Some(Session(NOTHING, 1, 0, None, Persisting(None))));
    assert DeviceStep(D, s0.server, s0.devices[D], START) == Some(d);
    hide DeviceStep, StateAfter, Solo;
    DeviceThen([], s0, START, d);
    s := System(s0.server, s0.devices[D := d], s0.sent + []);
  }

  lemma MakesFirstGroup(events: seq<Event>, s: System) returns (t: System)
    requires Leads(events, s) && Log(s.server, G) == [] && s.sent == []
    requires s.devices[D] == SavedDevice(NewDevice().(session := Some(Session(NOTHING, 1, 0, None, Persisting(None)))), NOTHING, 1)
    ensures Leads(events + Own(C0, Genesis, []) + SAVE, t) && Log(t.server, G) == [C0] && t.sent == []
    ensures t.devices[D] == Device(t.devices[D].disk, None, [], false, Some(Session(OneGroup(FIRST), 2, 2, None, Idle)), Some(OneGroup(FIRST)))
    ensures t.devices[D].disk.main == Sealed(KEY, OneGroup(FIRST)) && t.devices[D].disk.tmp.Absent?
  {
    hide DeviceStep, Taken, StateAfter, Solo;
    CommitsOwn(events, s, [], C0, Genesis, NOTHING, 1);
    var d := Adopted(s.devices[D], [], C0, 1);
    var s1 := System(Taken(s.server, [], C0), s.devices[D := d], s.sent);
    assert [] + [C0] == [C0];
    Saves(events + Own(C0, Genesis, []), s1, OneGroup(FIRST), 2, 1, None);
    t := System(s1.server, s1.devices[D := SavedDevice(d, OneGroup(FIRST), 2)], s1.sent + []);
  }

  // ---------------------------------------------------------------- a late save of a reloaded webview

  const RELOADED: seq<Event> := SETUP + [Encrypt(G)] + [Send(true)] + [Reload] + [START]

  /** Reloaded between handing over the state of an encryption and the reply; the save lands after two more encryptions. */
  const LATE: seq<Event> := RELOADED + SEND + SEND + [LateSave(0, Finished(true))] + [Crash] + [START] + SEND

  const SAVED_LATE := Call(OneGroup(NextPosition(FIRST)), 3, true)

  lemma ReloadsDuringSave() returns (s: System)
    ensures Leads(RELOADED, s) && s.sent == [] && s.devices[D].strays == [SAVED_LATE] && !s.devices[D].background
    ensures s.devices[D].session == Some(Session(OneGroup(FIRST), 1, 1, None, Idle))
  {
    var s0 := SetsUp();
    hide DeviceStep, StateAfter, Solo;
    Encrypts(SETUP, s0, FIRST, 2);
    var e1, s1 := SETUP + [Encrypt(G)], System(s0.server, s0.devices[D := s0.devices[D].(
                session := Some(Session(OneGroup(NextPosition(FIRST)), 3, 2, None, Persisting(Some(Position(FIRST))))))], s0.sent);
    var s2 := ReloadsWhileSaving(e1, s1, SAVED_LATE);
    Starts(e1 + [Send(true)] + [Reload], s2, OneGroup(FIRST));
    s := System(s2.server, s2.devices[D := s2.devices[D].(session := Some(Session(OneGroup(FIRST), 1, 1, None, Idle)))], s2.sent);
  }

  /** Each position was reported durable before it was returned, and one of them is returned twice. */
  lemma LateSaveReusesPosition()
    ensures StateAfter({D}, Solo(LATE)).Some?
    ensures StateAfter({D}, Solo(LATE)).value.sent == [Cipher(D, G, 1, 0), Cipher(D, G, 1, 1), Cipher(D, G, 1, 1)]
  {
    var s := SendsAcrossReload();
    hide StateAfter, Solo;
  }

  lemma SendsAcrossReload() returns (s: System)
    ensures Leads(LATE, s) && s.sent == [Cipher(D, G, 1, 0), Cipher(D, G, 1, 1), Cipher(D, G, 1, 1)]
  {
    var s0 := ReloadsDuringSave();
    hide DeviceStep, StateAfter, Solo;
    var g1 := NextPosition(FIRST);
    Sends(RELOADED, s0, FIRST, 1);
    var e1, s1 := RELOADED + SEND, System(s0.server, s0.devices[D := SavedDevice(s0.devices[D], OneGroup(g1), 2)], s0.sent + [Position(FIRST)]);
    Sends(e1, s1, g1, 2);
    var e2, s2 := e1 + SEND, System(s1.server, s1.devices[D := SavedDevice(s1.devices[D], OneGroup(NextPosition(g1)), 3)], s1.sent + [Position(g1)]);
    s := LateSaveRollsBack(e2, s2, SAVED_LATE, g1);
  }

  lemma ReloadsWhileSaving(events: seq<Event>, s: System, call: Call) returns (t: System)
    requires Leads(events, s) && s.devices[D].session.Some? && s.devices[D].strays == []
    requires var session := s.devices[D].session.value;
             session.call.None? && session.durable < session.version && call == Call(session.cache, session.version, true)
    ensures Leads(events + [Send(true)] + [Reload], t) && t.server == s.server && t.sent == s.sent
    ensures t.devices[D] == s.devices[D].(session := None, strays := [call])
  {
    var s1 := Sending(s, call);
    assert DeviceStep(D, s.server, s.devices[D], Send(true)) == Some(s1.devices[D]);
    t := Reloaded(s1, call);
    assert DeviceStep(D, s.server, s1.devices[D], Reload) == Some(t.devices[D]);
    hide DeviceStep, StateAfter, Solo;
    DeviceThen(events, s, Send(true), s1.devices[D]);
    DeviceThen(events + [Send(true)], s1, Reload, t.devices[D]);
  }

  function Sending(s: System, call: Call): System
    requires D in s.devices && s.devices[D].session.Some?
  {
    System(s.server, s.devices[D := s.devices[D].(session := Some(s.devices[D].session.value.(call := Some(call))))], s.sent + [])
  }

  function Reloaded(s: System, call: Call): System
    requires D in s.devices
  {
    System(s.server, s.devices[D := s.devices[D].(session := None, strays := [] + [call])], s.sent + [])
  }

  /** The late save puts its state back on disk; the next start goes on from there. */
  lemma LateSaveRollsBack(events: seq<Event>, s: System, call: Call, g: Group) returns (t: System)
    requires Leads(events, s) && s.devices[D].strays == [call] && call.durable && call.blob == OneGroup(g)
    requires !s.devices[D].background
    ensures Leads(events + [LateSave(0, Finished(true))] + [Crash] + [START] + SEND, t) && t.sent == s.sent + [Position(g)]
  {
    hide StateAfter, Solo;
    var d := s.devices[D];
    var d1 := Landed(d.(strays := []), call, Finished(true));
    assert [call][..0] + [call][1..] == [];
    assert DeviceStep(D, s.server, d, LateSave(0, Finished(true))) == Some(d1);
    DeviceThen(events, s, LateSave(0, Finished(true)), d1);
    var e1, s1 := events + [LateSave(0, Finished(true))], System(s.server, s.devices[D := d1], s.sent + []);
    var d2 := d1.(session := None, pending := None, strays := [], background := false);
    DeviceThen(e1, s1, Crash, d2);
    var e2, s2 := e1 + [Crash], System(s1.server, s1.devices[D := d2], s1.sent + []);
    Starts(e2, s2, OneGroup(g));
    var e3, s3 := e2 + [START], System(s2.server, s2.devices[D := d2.(session := Some(Session(OneGroup(g), 1, 1, None, Idle)))], s2.sent);
    Sends(e3, s3, g, 1);
    t := System(s3.server, s3.devices[D := SavedDevice(s3.devices[D], OneGroup(NextPosition(g)), 2)], s3.sent + [Position(g)]);
  }

  // ---------------------------------------------------------------- a start that cannot read main

  const UNREAD_MAIN := FULL.(main := false)

  /** Two encryptions, the process restarted while main cannot be read, one more encryption. */
  const UNREAD: seq<Event> := SETUP + SEND + SEND + [Crash] + [Start(UNREAD_MAIN)] + SEND

  /** With no reload and no late save, every position reported durable before it was returned. */
  lemma UnreadMainReusesPosition()
    ensures StateAfter({D}, Solo(UNREAD)).Some?
    ensures StateAfter({D}, Solo(UNREAD)).value.sent == [Cipher(D, G, 1, 0), Cipher(D, G, 1, 1), Cipher(D, G, 1, 1)]
  {
    var s := SendsAcrossUnreadMain();
    hide StateAfter, Solo;
  }

  lemma SendsAcrossUnreadMain() returns (s: System)
    ensures Leads(UNREAD, s) && s.sent == [Cipher(D, G, 1, 0), Cipher(D, G, 1, 1), Cipher(D, G, 1, 1)]
  {
    var s0 := SetsUp();
    hide DeviceStep, StateAfter, Solo;
    var g1 := NextPosition(FIRST);
    Sends(SETUP, s0, FIRST, 2);
    var e1, s1 := SETUP + SEND, System(s0.server, s0.devices[D := SavedDevice(s0.devices[D], OneGroup(g1), 3)], s0.sent + [Position(FIRST)]);
    Sends(e1, s1, g1, 3);
    var e2, s2 := e1 + SEND, System(s1.server, s1.devices[D := SavedDevice(s1.devices[D], OneGroup(NextPosition(g1)), 4)], s1.sent + [Position(g1)]);
    s := StartsFromBackup(e2, s2, g1);
  }

  lemma StartsFromBackup(events: seq<Event>, s: System, g: Group) returns (t: System)
    requires Leads(events, s) && s.devices[D].disk.tmp.Absent? && s.devices[D].disk.bak == Sealed(KEY, OneGroup(g))
    ensures Leads(events + [Crash] + [Start(UNREAD_MAIN)] + SEND, t) && t.sent == s.sent + [Position(g)]
  {
    hide StateAfter, Solo;
    var d1 := s.devices[D].(session := None, pending := None, strays := [], background := false);
    DeviceThen(events, s, Crash, d1);
    var e1, s1 := events + [Crash], System(s.server, s.devices[D := d1], s.sent + []);
    StartsWith(e1, s1, UNREAD_MAIN, OneGroup(g));
    var e2, s2 := e1 + [Start(UNREAD_MAIN)], System(s1.server, s1.devices[D := d1.(session := Some(Session(OneGroup(g), 1, 1, None, Idle)))], s1.sent);
    Sends(e2, s2, g, 1);
    t := System(s2.server, s2.devices[D := SavedDevice(s2.devices[D], OneGroup(NextPosition(g)), 2)], s2.sent + [Position(g)]);
  }

  // ---------------------------------------------------------------- a commit whose base is lost

  const C1 := Commit(D, 1, 1)
  const C2 := Commit(D, 2, 2)
  const SECOND := Group([C0, C1], 0, 0)

  /** A second commit's state reaches only tmp; the device starts from it, commits again, and dies in its next save. */
  const LOST: seq<Event> :=
    SETUP + Own(C1, Change, [C0]) + [Send(true)] + [Deliver(TmpFilled)] + [Crash] + [START]
    + Own(C2, Change, [C0, C1]) + [Send(true)] + [Deliver(TmpCreated)] + [Crash] + [START]

  /** The state is handed to a save that dies with the process, cut at `reach`. */
  lemma DiesSaving(events: seq<Event>, s: System, reach: Reach) returns (t: System)
    requires Leads(events, s) && s.devices[D].session.Some? && !reach.Finished?
    requires var session := s.devices[D].session.value; session.call.None? && session.durable < session.version
    ensures Leads(events + [Send(true)] + [Deliver(reach)] + [Crash], t) && t.server == s.server
    ensures var d := s.devices[D];
            t.devices[D] == Device(Write(d.disk, Sealed(KEY, d.session.value.cache), reach), None, [], false, None, d.promised)
  {
    var d := s.devices[D];
    var call := Call(d.session.value.cache, d.session.value.version, true);
    var s1 := Sending(s, call);
    assert DeviceStep(D, s.server, d, Send(true)) == Some(s1.devices[D]);
    var d2 := Landed(s1.devices[D], call, reach).(session := Some(Answered(s1.devices[D].session.value, reach)));
    var s2 := System(s.server, s1.devices[D := d2], s1.sent + []);
    assert DeviceStep(D, s.server, s1.devices[D], Deliver(reach)) == Some(d2);
    var d3 := d2.(session := None, pending := None, strays := [], background := false);
    t := System(s.server, s2.devices[D := d3], s2.sent + []);
    assert DeviceStep(D, s.server, d2, Crash) == Some(d3);
    hide DeviceStep, StateAfter, Solo;
    DeviceThen(events, s, Send(true), s1.devices[D]);
    DeviceThen(events + [Send(true)], s1, Deliver(reach), d2);
    DeviceThen(events + [Send(true)] + [Deliver(reach)], s2, Crash, d3);
  }

  /** The server holds the device's own second and third commit, and the device is back before both. */
  lemma SubmittedBaseCanBeLost()
    ensures StateAfter({D}, Solo(LOST)).Some?
    ensures var s := StateAfter({D}, Solo(LOST)).value;
            && Log(s.server, G) == [C0, C1, C2] && C1.author == D && C2.author == D
            && D in s.devices && s.devices[D].session == Some(Session(OneGroup(FIRST), 1, 1, None, Idle))
  {
    var s := CommitsAcrossCrash();
    hide StateAfter, Solo;
  }

  lemma CommitsAcrossCrash() returns (s: System)
    ensures Leads(LOST, s) && Log(s.server, G) == [C0, C1, C2] && C1.author == D && C2.author == D
    ensures s.devices[D].session == Some(Session(OneGroup(FIRST), 1, 1, None, Idle))
  {
    var s0 := SetsUp();
    hide DeviceStep, Taken, StateAfter, Solo;
    CommitsOwn(SETUP, s0, [C0], C1, Change, OneGroup(FIRST), 2);
    var e1, s1 := SETUP + Own(C1, Change, [C0]), System(Taken(s0.server, [C0], C1), s0.devices[D := Adopted(s0.devices[D], [C0], C1, 2)], s0.sent);
    assert [C0] + [C1] == [C0, C1];
    var s2 := DiesSaving(e1, s1, TmpFilled);
    var e2 := e1 + [Send(true)] + [Deliver(TmpFilled)] + [Crash];
    Starts(e2, s2, OneGroup(SECOND));
    var e3, s3 := e2 + [START], System(s2.server, s2.devices[D := s2.devices[D].(session := Some(Session(OneGroup(SECOND), 1, 1, None, Idle)))], s2.sent);
    s := CommitsOnLostBase(e3, s3);
  }

  lemma CommitsOnLostBase(events: seq<Event>, s: System) returns (t: System)
    requires Leads(events, s) && Log(s.server, G) == [C0, C1]
    requires s.devices[D].session == Some(Session(OneGroup(SECOND), 1, 1, None, Idle))
    requires s.devices[D].disk.main == Sealed(KEY, OneGroup(FIRST))
    ensures Leads(events + Own(C2, Change, [C0, C1]) + [Send(true)] + [Deliver(TmpCreated)] + [Crash] + [START], t)
    ensures Log(t.server, G) == [C0, C1, C2] && t.devices[D].session == Some(Session(OneGroup(FIRST), 1, 1, None, Idle))
  {
    hide DeviceStep, Taken, StateAfter, Solo;
    CommitsOwn(events, s, [C0, C1], C2, Change, OneGroup(SECOND), 1);
    var e1, s1 := events + Own(C2, Change, [C0, C1]),
                  System(Taken(s.server, [C0, C1], C2), s.devices[D := Adopted(s.devices[D], [C0, C1], C2, 1)], s.sent);
    assert [C0, C1] + [C2] == [C0, C1, C2];
    var s2 := DiesSaving(e1, s1, TmpCreated);
    var e2 := e1 + [Send(true)] + [Deliver(TmpCreated)] + [Crash];
    Starts(e2, s2, OneGroup(FIRST));
    t := System(s2.server, s2.devices[D := s2.devices[D].(session := Some(Session(OneGroup(FIRST), 1, 1, None, Idle)))], s2.sent);
  }
}
