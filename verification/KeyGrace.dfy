/**
 The receive-key slot of one audio lane (createKeyGraceSlot): the current key,
 the one it replaced while the grace timer runs, and who has been freed.
 */
module KeyGrace {
  import opened Wrappers

  type Key(==)

  /** `freed` is the history of free() calls. */
  datatype Slot = Slot(current: Option<Key>, previous: Option<Key>, timer: bool, freed: seq<Key>)

  datatype Event = Install(next: Option<Key>) | Expire | Clear

  const EMPTY := Slot(None, None, false, [])

  function Release(freed: seq<Key>, key: Option<Key>): seq<Key> {
    if key.Some? then freed + [key.value] else freed
  }

  function Expired(s: Slot): Slot {
    s.(previous := None, timer := false, freed := Release(s.freed, s.previous))
  }

  function Cleared(s: Slot): Slot {
    var freed := Release(s.freed, s.current);
    Slot(None, None, false, if s.previous != s.current then Release(freed, s.previous) else freed)
  }

  function Installed(s: Slot, next: Option<Key>): Slot {
    if next.None? then Cleared(s)
    else if next == s.current then s
    else Slot(next, s.current, s.current.Some?, if s.previous != next then Release(s.freed, s.previous) else s.freed)
  }

  function Step(s: Slot, e: Event): Slot {
    match e
    case Install(next) => Installed(s, next)
    case Expire => Expired(s)
    case Clear => Cleared(s)
  }

  function Run(events: seq<Event>): Slot {
    if events == [] then EMPTY else Step(Run(events[..|events| - 1]), events[|events| - 1])
  }

  /** The caller never hands in a key the slot has already freed. */
  ghost predicate InstallsLiveKeys(events: seq<Event>) {
    forall i | 0 <= i < |events| ::
      events[i].Install? && events[i].next.Some? ==> events[i].next.value !in Run(events[..i]).freed
  }

  ghost predicate EverInstalled(events: seq<Event>, k: Key) {
    Install(Some(k)) in events
  }

  ghost predicate Holds(s: Slot, k: Key) {
    s.current == Some(k) || s.previous == Some(k)
  }

  ghost predicate NoRepeats(freed: seq<Key>) {
    forall i, j | 0 <= i < j < |freed| :: freed[i] != freed[j]
  }

  ghost predicate SlotOk(s: Slot) {
    && NoRepeats(s.freed)
    && (forall k | k in s.freed :: !Holds(s, k))
    && (s.previous.Some? ==> s.previous != s.current)
    && s.timer == s.previous.Some?
  }

  lemma ReleaseOnce(freed: seq<Key>, key: Option<Key>)
    requires NoRepeats(freed) && (key.Some? ==> key.value !in freed)
    ensures NoRepeats(Release(freed, key))
    ensures forall k :: k in Release(freed, key) <==> k in freed || key == Some(k)
  {
  }

  /** The slot is accountable for a key from its install on. */
  ghost predicate Owns(s: Slot, k: Key) {
    Holds(s, k) || k in s.freed
  }

  lemma ExpiryKeepsSlot(s: Slot)
    requires SlotOk(s)
    ensures SlotOk(Expired(s)) && forall k :: Owns(Expired(s), k) <==> Owns(s, k)
  {
    ReleaseOnce(s.freed, s.previous);
  }

  lemma ClearKeepsSlot(s: Slot)
    requires SlotOk(s)
    ensures SlotOk(Cleared(s)) && forall k :: Owns(Cleared(s), k) <==> Owns(s, k)
  {
    ReleaseOnce(s.freed, s.current);
    if s.previous != s.current { ReleaseOnce(Release(s.freed, s.current), s.previous); }
  }

  lemma InstallKeepsSlot(s: Slot, next: Key)
    requires SlotOk(s) && next !in s.freed
    ensures SlotOk(Installed(s, Some(next)))
    ensures forall k :: Owns(Installed(s, Some(next)), k) <==> Owns(s, k) || k == next
  {
    ReleaseOnce(s.freed, s.previous);
  }

  lemma StepKeepsSlot(s: Slot, e: Event)
    requires SlotOk(s) && (e.Install? && e.next.Some? ==> e.next.value !in s.freed)
    ensures SlotOk(Step(s, e))
    ensures forall k :: Owns(Step(s, e), k) <==> Owns(s, k) || e == Install(Some(k))
  {
    hide SlotOk, Owns, Expired, Cleared;
    match e
    case Expire => ExpiryKeepsSlot(s);
    case Clear => ClearKeepsSlot(s);
    case Install(None) => ClearKeepsSlot(s);
    case Install(Some(next)) => InstallKeepsSlot(s, next);
  }

  lemma InstallsSplit(before: seq<Event>, e: Event)
    ensures forall k :: EverInstalled(before + [e], k) <==> EverInstalled(before, k) || e == Install(Some(k))
  {
  }

  /**
   Over every run of installs, expiries and clears, each key ever installed is
   either held or was freed, never both and never twice, and the replaced key
   is held exactly while its grace timer runs.
   */
  lemma {:induction false} EachKeyFreedOnce(events: seq<Event>)
    requires InstallsLiveKeys(events)
    ensures SlotOk(Run(events))
    ensures forall k :: EverInstalled(events, k) <==> Owns(Run(events), k)
  {
    if events != [] {
      hide SlotOk, Step, Owns;
      var before, e := events[..|events| - 1], events[|events| - 1];
      assert forall i | 0 <= i <= |before| :: before[..i] == events[..i];
      EachKeyFreedOnce(before);
      StepKeepsSlot(Run(before), e);
      InstallsSplit(before, e);
      assert events == before + [e];
    }
  }

  /** A clear leaves no key usable and none unfreed. */
  lemma ClearFreesAll(events: seq<Event>)
    requires InstallsLiveKeys(events)
    ensures var s := Step(Run(events), Clear);
            forall k :: !Holds(s, k) && (EverInstalled(events, k) <==> k in s.freed)
  {
    EachKeyFreedOnce(events);
    StepKeepsSlot(Run(events), Clear);
  }

  lemma RunAppends(events: seq<Event>, e: Event)
    ensures Run(events + [e]) == Step(Run(events), e)
  {
    assert (events + [e])[..|events|] == events;
  }

  /**
   After an install of another key it is the current one and the one it replaced is kept
   for the grace period; the one kept before goes, unless it is the key that comes back.
   */
  lemma InstallRekeys(events: seq<Event>, next: Key)
    ensures var before, after := Run(events), Run(events + [Install(Some(next))]);
            && after.current == Some(next)
            && (before.current == Some(next) ==> after == before)
            && (before.current != Some(next) ==>
                  && after.previous == before.current && (after.timer <==> before.current.Some?)
                  && after.freed == if before.previous in {None, Some(next)} then before.freed else before.freed + [before.previous.value])
  {
    RunAppends(events, Install(Some(next)));
    hide Run;
  }

  /** The grace period's end frees the kept key and leaves the current one; a clear and an install of nothing free both. */
  lemma ExpiryEndsGrace(events: seq<Event>)
    ensures var before, after := Run(events), Run(events + [Expire]);
            && after.current == before.current && after.previous == None && !after.timer
            && after.freed == if before.previous.None? then before.freed else before.freed + [before.previous.value]
    ensures var after := Run(events + [Clear]);
            after.current == None && after.previous == None && !after.timer && Run(events + [Install(None)]) == after
  {
    RunAppends(events, Expire);
    RunAppends(events, Clear);
    RunAppends(events, Install(None));
    hide Run;
  }

  /** The slot as the closure's variables. */
  class KeySlot {
    var current: Option<Key>
    var previous: Option<Key>
    var timer: bool
    ghost var freed: seq<Key>

    ghost function View(): Slot
      reads this
    {
      Slot(current, previous, timer, freed)
    }

    constructor ()
      ensures View() == EMPTY
    {
      current, previous, timer, freed := None, None, false, [];
    }

    method Free(key: Option<Key>)
      modifies this`freed
      ensures freed == Release(old(freed), key)
    {
      if key.Some? { freed := freed + [key.value]; }
    }

    method ExpireNow()
      modifies this
      ensures View() == Expired(old(View()))
    {
      timer := false;
      var replaced := previous;
      previous := None;
      Free(replaced);
    }

    method ClearAll()
      modifies this
      ensures View() == Cleared(old(View()))
    {
      timer := false;
      var c, p := current, previous;
      current, previous := None, None;
      Free(c);
      if p != c { Free(p); }
    }

    method InstallKey(next: Option<Key>)
      modifies this
      ensures View() == Installed(old(View()), next)
    {
      if next.None? {
        ClearAll();
        return;
      }
      if next == current { return; }
      var displaced := previous;
      previous := current;
      current := next;
      if displaced.Some? && displaced != next { Free(displaced); }
      timer := false;
      if previous.Some? { timer := true; }
    }
  }
}
