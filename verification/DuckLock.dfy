/**
 The priority-speaker lock of the media relay (media-rust): first past the
 post, kept by every packet for 1500 ms, cascaded to descendant channels,
 released by a sweeper or by the speaker leaving.
 */
module DuckLock {
  import opened Wrappers
  import opened ChannelTree

  type User = string
  type Time = nat

  const HANGOVER_MS: nat := 1500

  datatype Room = Room(members: set<User>, speaker: Option<User>, releaseAt: Option<Time>)

  type Rooms = map<Channel, Room>

  datatype Event =
    | Join(user: User, channel: Channel)
    | Leave(user: User, channel: Channel)
    | Packet(user: User, channel: Channel, descendants: seq<Channel>)
    | Sweep(channel: Channel)

  datatype Timed = Timed(at: Time, event: Event)

  // ---------------------------------------------------------------- one event

  function Speak(room: Room, user: User, now: Time): Room {
    room.(speaker := Some(user), releaseAt := Some(now + HANGOVER_MS))
  }

  function Silence(room: Room): Room {
    room.(speaker := None, releaseAt := None)
  }

  /** A priority user takes a free room, or keeps one already theirs. */
  predicate Wins(rooms: Rooms, user: User, channel: Channel) {
    channel in rooms && rooms[channel].speaker in {None, Some(user)}
  }

  function OnPacket(rooms: Rooms, user: User, channel: Channel, descendants: seq<Channel>, now: Time): Rooms {
    if !Wins(rooms, user, channel) then rooms
    else map c | c in rooms :: if c == channel || c in descendants then Speak(rooms[c], user, now) else rooms[c]
  }

  function OnSweep(rooms: Rooms, channel: Channel, now: Time): Rooms {
    if channel in rooms && rooms[channel].releaseAt.Some? && now >= rooms[channel].releaseAt.value
    then rooms[channel := Silence(rooms[channel])] else rooms
  }

  function OnJoin(rooms: Rooms, user: User, channel: Channel): Rooms {
    var room := if channel in rooms then rooms[channel] else Room({}, None, None);
    rooms[channel := room.(members := room.members + {user})]
  }

  /** A session's cleanup, once its join nonce still matched: the last member out disposes the room. */
  function OnLeave(rooms: Rooms, user: User, channel: Channel): Rooms {
    if channel !in rooms then rooms
    else
      var room := rooms[channel].(members := rooms[channel].members - {user});
      var left := if room.speaker == Some(user) then Silence(room) else room;
      if left.members == {} then rooms - {channel} else rooms[channel := left]
  }

  function Step(rooms: Rooms, t: Timed): Rooms {
    match t.event
    case Join(user, channel) => OnJoin(rooms, user, channel)
    case Leave(user, channel) => OnLeave(rooms, user, channel)
    case Packet(user, channel, descendants) => OnPacket(rooms, user, channel, descendants, t.at)
    case Sweep(channel) => OnSweep(rooms, channel, t.at)
  }

  function Run(events: seq<Timed>): Rooms {
    if events == [] then map[] else Step(Run(events[..|events| - 1]), events[|events| - 1])
  }

  // ---------------------------------------------------------------- what one event does, over any run

  lemma RunAppends(events: seq<Timed>, t: Timed)
    ensures Run(events + [t]) == Step(Run(events), t)
  {
    assert (events + [t])[..|events|] == events;
  }

  /** The room is free, or held by this user. */
  predicate OpenTo(rooms: Rooms, user: User, channel: Channel) {
    channel in rooms && (rooms[channel].speaker == None || rooms[channel].speaker == Some(user))
  }

  /** The speaker holds the room for another 1500 ms, its members unchanged. */
  predicate TakenBy(before: Room, after: Room, user: User, now: Time) {
    after == Room(before.members, Some(user), Some(now + 1500))
  }

  /**
   A priority user's packet takes a free room, or renews one already theirs, with every
   room it cascades to, whoever held that; nothing else changes. From a room held by
   somebody else nothing changes at all.
   */
  lemma PacketTakesRooms(events: seq<Timed>, user: User, channel: Channel, descendants: seq<Channel>, now: Time)
    ensures var before, after := Run(events), Run(events + [Timed(now, Packet(user, channel, descendants))]);
            if OpenTo(before, user, channel) then
              && after.Keys == before.Keys
              && forall c | c in before ::
                   if c == channel || c in descendants then TakenBy(before[c], after[c], user, now) else after[c] == before[c]
            else after == before
  {
    RunAppends(events, Timed(now, Packet(user, channel, descendants)));
    hide Run;
  }

  /** A sweep releases a lock whose time has come and changes nothing else. */
  lemma SweepReleases(events: seq<Timed>, channel: Channel, now: Time)
    ensures var before, after := Run(events), Run(events + [Timed(now, Sweep(channel))]);
            var due := channel in before && before[channel].releaseAt.Some? && now >= before[channel].releaseAt.value;
            after == if due then before[channel := Room(before[channel].members, None, None)] else before
  {
    RunAppends(events, Timed(now, Sweep(channel)));
    hide Run;
  }

  /** A join adds the member, to a new free room if there is none. */
  lemma JoinAdds(events: seq<Timed>, user: User, channel: Channel, now: Time)
    ensures var before, after := Run(events), Run(events + [Timed(now, Join(user, channel))]);
            after == before[channel :=
              if channel in before then Room(before[channel].members + {user}, before[channel].speaker, before[channel].releaseAt)
              else Room({user}, None, None)]
  {
    RunAppends(events, Timed(now, Join(user, channel)));
    assert {} + {user} == {user};
    hide Run;
  }

  /** A leave takes the member out and releases the lock that was theirs; the room goes exactly with its last member. */
  lemma LeaveRemoves(events: seq<Timed>, user: User, channel: Channel, now: Time)
    ensures var before, after := Run(events), Run(events + [Timed(now, Leave(user, channel))]);
            if channel !in before then after == before
            else
              var room := before[channel];
              && (channel in after <==> room.members - {user} != {})
              && (channel in after ==> after[channel].members == room.members - {user})
              && (channel in after && room.speaker == Some(user) ==> after[channel].speaker.None? && after[channel].releaseAt.None?)
              && (channel in after && room.speaker != Some(user) ==>
                    after[channel].speaker == room.speaker && after[channel].releaseAt == room.releaseAt)
              && (forall other | other != channel ::
                    (other in after <==> other in before) && (other in before ==> after[other] == before[other]))
  {
    RunAppends(events, Timed(now, Leave(user, channel)));
    hide Run;
  }

  // ---------------------------------------------------------------- refreshes

  predicate Refreshes(rooms: Rooms, t: Timed, channel: Channel) {
    t.event.Packet? && Wins(rooms, t.event.user, t.event.channel) && (channel == t.event.channel || channel in t.event.descendants)
  }

  /** When the lock of `channel` was last taken or renewed. */
  function LastRefresh(events: seq<Timed>, channel: Channel): Option<Time> {
    if events == [] then None
    else
      var n := |events| - 1;
      if Refreshes(Run(events[..n]), events[n], channel) then Some(events[n].at) else LastRefresh(events[..n], channel)
  }

  /** A room has a speaker exactly when it has a release time, always 1500 ms after the last refresh. */
  lemma {:induction false} ReleaseFollowsRefresh(events: seq<Timed>, channel: Channel)
    requires channel in Run(events)
    ensures var room := Run(events)[channel];
            && (room.speaker.Some? <==> room.releaseAt.Some?)
            && (room.speaker.Some? ==> LastRefresh(events, channel).Some?
                                       && room.releaseAt.value == LastRefresh(events, channel).value + HANGOVER_MS)
  {
    var n := |events| - 1;
    if channel in Run(events[..n]) {
      ReleaseFollowsRefresh(events[..n], channel);
    }
  }

  /**
   How a lock changes hands: directly only through a cascade from a room the
   new speaker holds, whose descendants include this one; otherwise it is
   released by its speaker leaving or 1500 ms after its last refresh.
   */
  lemma LockChangesHands(events: seq<Timed>, t: Timed, channel: Channel)
    requires channel in Run(events) && Run(events)[channel].speaker.Some?
    ensures var rooms, rooms' := Run(events), Step(Run(events), t);
            var speaker := rooms[channel].speaker;
            && (channel !in rooms' ==> t.event.Leave? && t.event.channel == channel)
            && (channel in rooms' && rooms'[channel].speaker.None? ==>
                  || (t.event.Leave? && t.event.channel == channel && speaker == Some(t.event.user))
                  || (t.event == Sweep(channel) && LastRefresh(events, channel).Some?
                      && t.at >= LastRefresh(events, channel).value + HANGOVER_MS))
            && (channel in rooms' && rooms'[channel].speaker.Some? && rooms'[channel].speaker != speaker ==>
                  && t.event.Packet? && rooms'[channel].speaker == Some(t.event.user)
                  && channel != t.event.channel && channel in t.event.descendants
                  && Wins(rooms, t.event.user, t.event.channel))
  {
    ReleaseFollowsRefresh(events, channel);
  }

  /** Nobody leaves the room, and nobody else's packets cascade into it. */
  predicate Undisturbed(t: Timed, channel: Channel, user: User) {
    && !(t.event.Leave? && t.event.channel == channel)
    && !(t.event.Packet? && t.event.user != user && channel in t.event.descendants)
  }

  /** No preemption: for 1500 ms after a refresh, no run of local packets and sweeps takes the lock away. */
  lemma {:induction false} LockIsKept(events: seq<Timed>, more: seq<Timed>, channel: Channel, user: User, refreshed: Time)
    requires channel in Run(events) && Run(events)[channel].speaker == Some(user)
    requires LastRefresh(events, channel) == Some(refreshed)
    requires forall i :: 0 <= i < |more| ==>
               Undisturbed(more[i], channel, user) && refreshed <= more[i].at < refreshed + HANGOVER_MS
    ensures channel in Run(events + more) && Run(events + more)[channel].speaker == Some(user)
    ensures Run(events + more)[channel].releaseAt.Some?
    ensures Run(events + more)[channel].releaseAt.value >= refreshed + HANGOVER_MS
  {
    ReleaseFollowsRefresh(events, channel);
    if more == [] {
      assert events + more == events;
    } else {
      var n := |more| - 1;
      LockIsKept(events, more[..n], channel, user, refreshed);
      assert (events + more)[..|events + more| - 1] == events + more[..n];
    }
  }

  // ---------------------------------------------------------------- the relay's room registry

  class Relay {
    var rooms: Rooms
    var tree: Tree

    constructor ()
      ensures rooms == map[] && tree == map[]
    {
      rooms, tree := map[], map[];
    }

    /** A new channel tree arrived. */
    method TreeReceived(received: Tree)
      modifies `tree
      ensures tree == received
    {
      tree := received;
    }

    /** A priority user's audio packet (relay path of the session loop); a Duck message goes out when the room was free. */
    method PriorityPacket(user: User, channel: Channel, now: Time) returns (descendants: seq<Channel>, announced: bool)
      modifies `rooms
      ensures announced <==> channel in old(rooms) && old(rooms)[channel].speaker.None?
      ensures rooms == Step(old(rooms), Timed(now, Packet(user, channel, descendants)))
      ensures rooms.Keys == old(rooms).Keys && (!OpenTo(old(rooms), user, channel) ==> rooms == old(rooms))
      ensures OpenTo(old(rooms), user, channel) ==>
                forall c | c in rooms ::
                  if c == channel || Reaches(tree, channel, c) then TakenBy(old(rooms)[c], rooms[c], user, now)
                  else rooms[c] == old(rooms)[c]
      ensures forall c :: c in descendants <==> Reaches(tree, channel, c)
    {
      announced := false;
      descendants := GetDescendants(tree, channel);
      if channel !in rooms { return; }
      var state := rooms[channel];
      announced := state.speaker.None?;
      if !(state.speaker.None? || state.speaker == Some(user)) { return; }
      ghost var before := rooms;
      rooms := rooms[channel := Speak(state, user, now)];
      for i := 0 to |descendants|
        invariant rooms == map c | c in before ::
                    if c == channel || c in descendants[..i] then Speak(before[c], user, now) else before[c]
      {
        var id := descendants[i];
        if id in rooms {
          rooms := rooms[id := Speak(rooms[id], user, now)];
        }
      }
      assert descendants[..|descendants|] == descendants;
    }

    /** One tick of duck_release_sweeper. */
    method SweepRoom(channel: Channel, now: Time) returns (released: bool)
      modifies `rooms
      ensures rooms == Step(old(rooms), Timed(now, Sweep(channel)))
      ensures released <==> channel in old(rooms) && old(rooms)[channel].releaseAt.Some? && now >= old(rooms)[channel].releaseAt.value
      ensures released ==> rooms[channel].speaker.None?
    {
      released := false;
      if channel in rooms && rooms[channel].releaseAt.Some? && now >= rooms[channel].releaseAt.value {
        rooms := rooms[channel := Silence(rooms[channel])];
        released := true;
      }
    }

    method UserJoins(user: User, channel: Channel)
      modifies `rooms
      ensures rooms == OnJoin(old(rooms), user, channel)
    {
      if channel !in rooms {
        rooms := rooms[channel := Room({}, None, None)];
      }
      rooms := rooms[channel := rooms[channel].(members := rooms[channel].members + {user})];
    }

    method UserLeaves(user: User, channel: Channel)
      modifies `rooms
      ensures rooms == OnLeave(old(rooms), user, channel)
    {
      if channel !in rooms { return; }
      var room := rooms[channel].(members := rooms[channel].members - {user});
      if room.speaker == Some(user) {
        room := Silence(room);
      }
      rooms := if room.members == {} then rooms - {channel} else rooms[channel := room];
    }
  }
}
