/**
 What each locked section of the store does to the files and the process-wide
 statics, in terms of what they were before.
 */
module OwnershipEvents {
  import opened Wrappers
  import opened StateStore
  import opened Ownership

  /** Only this account's files change, as a write cut there leaves them; a write that finished is acknowledged. */
  lemma WriteEffect(s: Vars, user: User, state: Stamped, reach: Reach)
    ensures var after := WriteFile(s, user, state, reach);
            && FilesOf(after.store, user) == Write(FilesOf(s.store, user), Sealed(KEY, state), reach)
            && (forall other | other != user :: FilesOf(after.store, other) == FilesOf(s.store, other))
            && after.store.acked == (if reach.Finished? then s.store.acked[user := state.stamp] else s.store.acked)
            && after == s.(store := after.store)
  {
    hide Write;
  }

  /** mls_save_state: refused unless the window owns the account the bytes name; else deferred, or written, and kept if the write failed. */
  lemma SaveEffect(s: Vars, bytes: Bytes, write: Reach)
    ensures var accepted := s.foreground && s.jsOwner == Some(bytes.owner);
            var state := Stamped(bytes, s.clock);
            && Step(s, SaveDeferred(bytes)) == (
                 if !accepted then s
                 else s.(pending := Some(Deferred(bytes.owner, state)), window := Some(bytes), clock := s.clock + 1))
            && Step(s, SaveDurable(bytes, write)) == (
                 if !accepted then s
                 else WriteFile(s, bytes.owner, state, write).(
                   pending := if write.Finished? then None else Some(Deferred(bytes.owner, state)),
                   window := Some(bytes), clock := s.clock + 1))
  {
    hide WriteFile;
  }

  /** A flush writes what is deferred to its own account and keeps it unless the write finished. */
  lemma FlushEffect(s: Vars, flush: Reach)
    ensures Step(s, Flush(flush)) ==
            if s.pending.None? then s
            else
              WriteFile(s, s.pending.value.user, s.pending.value.state, flush).(pending := if flush.Finished? then None else s.pending)
  {
    hide WriteFile;
  }

  /**
   A load flushes first. If it finds a state, or nothing was ever committed, the account
   is the window's from then on, with what was loaded; otherwise nothing changes hands.
   */
  lemma LoadEffect(s: Vars, user: User, flush: Reach, access: Access)
    ensures var flushed := Step(s, Flush(flush));
            var files := FilesOf(flushed.store, user);
            var found := FirstReadable(Seen(files, access), KEY);
            Step(s, Load(user, flush, access)) ==
            if !access.stat || (found.None? && !(files.main.Absent? && files.bak.Absent?)) then flushed
            else flushed.(jsOwner := Some(user), foreground := true,
                          window := Some(if found.Some? then found.value.bytes else Bytes(user, [])))
  {
    hide Flushed, FirstReadable, Seen;
  }

  /** A hand-off flushes and takes the account from the window; showing the engine brings it back; a restart forgets all but the files. */
  lemma HandOverEffect(s: Vars, flush: Reach)
    ensures Step(s, HandOff(flush)) == Step(s, Flush(flush)).(jsOwner := None, foreground := false, window := None)
    ensures Step(s, ShowEngine) == s.(foreground := true)
    ensures Step(s, Event.Restart) == Vars(s.store, None, None, true, None, s.clock)
  {
    hide Flushed;
  }

  /**
   The background task, once it owns the files: it flushes, loads, adds its change to
   what it loaded, drops what is deferred for that account and writes durably. In the
   foreground, or with nothing to load, it writes nothing of its own.
   */
  lemma BackgroundEffect(s: Vars, user: User, flush: Reach, access: Access, change: nat, write: Reach)
    ensures var flushed := Step(s, Flush(flush));
            var found := FirstReadable(Seen(FilesOf(flushed.store, user), access), KEY);
            Step(s, BackgroundDecrypt(user, flush, access, change, write)) ==
            if s.foreground then s
            else if !access.stat || found.None? then flushed
            else
              var made := Stamped(Bytes(found.value.bytes.owner, found.value.bytes.trail + [change]), flushed.clock);
              WriteFile(flushed, user, made, write).(
                pending := if flushed.pending.Some? && flushed.pending.value.user == user then None else flushed.pending,
                clock := flushed.clock + 1)
  {
    hide Flushed, WriteFile, FirstReadable, Seen;
  }
}
