/**
 Whether the state an own commit is built on is safe on disk when the server
 sees the commit (I5 in mlsSession.js): always after a durable save of this
 session, and after a mere load exactly when tmp was not needed for it and no
 newer file was passed over.
 */
module SubmittedBase {
  import opened Wrappers
  import opened Groups
  import opened StateStore
  import opened Protocol

  /** What happens to a device within one session, with the server as it stands each time. */
  type Trace = seq<(Server, Event)>

  /** Events of the session's own: no second start, no death, and no save of an earlier session. */
  predicate OwnEvent(e: Event) {
    !e.Start? && !e.Crash? && !e.Reload? && !e.HandOff? && !e.BackgroundDecrypt? && !e.LateSave?
  }

  function After(self: DeviceId, d: Device, trace: Trace): Option<Device> {
    if trace == [] then Some(d)
    else
      var n := |trace| - 1;
      var before := After(self, d, trace[..n]);
      if before.None? || !OwnEvent(trace[n].1) then None else DeviceStep(self, trace[n].0, before.value, trace[n].1)
  }

  /** A device that has just started from a state it loaded, read errors or not, with nothing left over from before. */
  ghost predicate JustLoaded(d: Device, access: Access, loaded: Blob) {
    && Found(d, access) == Some(loaded) && d.pending.None? && d.strays == []
    && d.session == Some(Session(loaded, 1, 1, None, Idle))
  }

  /** The session's newest version is on disk as main, and nothing else waits to be written. */
  ghost predicate SavedAsMain(d: Device) {
    d.session.Some? && d.disk.main == Sealed(KEY, d.session.value.cache) && d.disk.tmp.Absent?
  }

  /** Until the first commit the disk is as loaded; a confirmed version after it is in main. */
  ghost predicate DiskTellsVersion(d: Device, disk: Disk<Blob>, loaded: Blob) {
    && d.session.Some?
    && var s := d.session.value;
       && 1 <= s.durable <= s.version
       && (s.call.Some? ==> s.durable < s.call.value.version <= s.version)
       && (s.call.Some? && s.call.value.version == s.version ==> s.call.value.blob == s.cache)
       && (d.pending.Some? ==> s.durable < s.version)
       && (s.version == 1 ==> d.disk == disk && s.cache == loaded)
       && (s.durable == s.version > 1 ==> SavedAsMain(d))
  }

  lemma StepTellsVersion(self: DeviceId, server: Server, d: Device, e: Event, disk: Disk<Blob>, loaded: Blob)
    requires DiskTellsVersion(d, disk, loaded) && OwnEvent(e) && DeviceStep(self, server, d, e).Some?
    ensures DiskTellsVersion(DeviceStep(self, server, d, e).value, disk, loaded)
  {
    if StoreStep(d, e).None? {
      SessionLeavesDisk(self, server, d, e);
      hide DeviceStep, LockedWork, HolderStep;
    }
  }

  /** What the session does itself changes no file, and changes the cache only under a new version. */
  lemma SessionLeavesDisk(self: DeviceId, server: Server, d: Device, e: Event)
    requires OwnEvent(e) && d.session.Some? && StoreStep(d, e).None? && DeviceStep(self, server, d, e).Some?
    ensures var after := DeviceStep(self, server, d, e).value;
            && after.disk == d.disk && after.pending == d.pending && after.session.Some?
            && after.session.value.durable == d.session.value.durable && after.session.value.call == d.session.value.call
            && (|| after.session.value.version == d.session.value.version + 1
                || (after.session.value.version == d.session.value.version && after.session.value.cache == d.session.value.cache))
  {
    hide CatchUp;
  }

  lemma {:induction false} TraceTellsVersion(self: DeviceId, start: Device, access: Access, loaded: Blob, trace: Trace)
    requires JustLoaded(start, access, loaded) && After(self, start, trace).Some?
    ensures DiskTellsVersion(After(self, start, trace).value, start.disk, loaded)
  {
    if trace != [] {
      var n := |trace| - 1;
      TraceTellsVersion(self, start, access, loaded, trace[..n]);
      StepTellsVersion(self, trace[n].0, After(self, start, trace[..n]).value, trace[n].1, start.disk, loaded);
    }
  }

  /** However the next write is cut, a load that reads everything finds the session's state or the one being written. */
  ghost predicate BaseSurvives(d: Device)
    requires d.session.Some?
  {
    forall next: Blob, r: Reach ::
      FirstReadable(Write(d.disk, Sealed(KEY, next), r), KEY) in {Some(d.session.value.cache), Some(next)}
  }

  /** The next write may be cut after truncating tmp, or before doing anything: a load must find the state both ways. */
  lemma BaseSurvivesIffFoundTwice(disk: Disk<Blob>, b: Blob)
    ensures (forall next: Blob, r: Reach :: FirstReadable(Write(disk, Sealed(KEY, next), r), KEY) in {Some(b), Some(next)})
            <==> FirstReadable(disk, KEY) == Some(b) && FirstReadable(disk.(tmp := Absent), KEY) == Some(b)
  {
    if FirstReadable(disk, KEY) == Some(b) {
      LoadedSurvivesNextWriteIff(disk, KEY, b);
    } else {
      assert FirstReadable(Write(disk, Sealed(KEY, b), NotStarted), KEY) != Some(b);
    }
  }

  /**
   At every point where an own commit may be submitted, the state it was built
   on survives the next write if and only if something was committed and saved
   durably since the load, or a load of the same files that reads every one of
   them would have found it, with tmp and without.
   */
  lemma SubmittedBaseSurvivesIff(self: DeviceId, start: Device, access: Access, loaded: Blob, trace: Trace, server: Server)
    requires JustLoaded(start, access, loaded) && After(self, start, trace).Some?
    requires var s := After(self, start, trace).value.session; s.Some? && HolderStep(self, server, s.value, Submit).Some?
    ensures var d := After(self, start, trace).value;
            BaseSurvives(d) <==>
            || d.session.value.version > 1
            || (FirstReadable(start.disk, KEY) == Some(loaded) && FirstReadable(start.disk.(tmp := Absent), KEY) == Some(loaded))
  {
    TraceTellsVersion(self, start, access, loaded, trace);
    var d := After(self, start, trace).value;
    BaseSurvivesIffFoundTwice(d.disk, d.session.value.cache);
    hide Write;
  }
}
