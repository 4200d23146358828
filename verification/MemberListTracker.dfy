/**
 * The tracker's handlers (commands/member_list.go), each one step under its
 * lock, proved against the functions of MemberLists.
 */
module MemberListTrackers {
  import opened MemberLists
  import opened Wrappers

  /** armed is the runtime's: the timers set and neither stopped nor gone off. */
  class MemberList {
    var guild: Option<Guild>
    var requests: nat
    var nonce: nat
    var seen: set<int>
    var expected: int
    var complete: bool
    var retryAt: Option<int>
    var stopRetry: Option<Timer>
    var stallSeq: nat
    var stopStall: Option<Timer>
    var episode: nat
    var late: bool
    var stopLate: Option<Timer>
    var armed: set<Timer>

    ghost function State(): Tracker
      reads this
    {
      Tracker(guild, requests, nonce, seen, expected, complete, retryAt, stopRetry, stallSeq, stopStall, episode, late,
              stopLate, armed)
    }

    constructor ()
      ensures State() == NEW_TRACKER
    {
      guild, requests, nonce, seen, expected, complete := None, 0, 0, {}, 0, false;
      retryAt, stopRetry, stallSeq, stopStall := None, None, 0, None;
      episode, late, stopLate, armed := 0, false, None, {};
    }

    predicate HoldsGuildLocked(held: Option<Guild>)
      reads this
    {
      held.Some? && held == guild
    }

    /** The runtime drops a timer whose stop function is called, if there is one. */
    method Stop(timer: Option<Timer>)
      modifies `armed
      ensures armed == Without(old(armed), timer)
    {
      if timer.Some? {
        armed := armed - {timer.value};
      }
    }

    method StopStallLocked()
      modifies `armed, `stopStall, `stallSeq
      ensures State() == StopStall(old(State()))
    {
      Stop(stopStall);
      stopStall := None;
      stallSeq := stallSeq + 1;
    }

    method WaitForPartLocked()
      modifies `armed, `stopStall, `stallSeq
      ensures State() == WaitForPart(old(State()))
    {
      StopStallLocked();
      armed := armed + {Stall(stallSeq)};
      stopStall := Some(Stall(stallSeq));
    }

    method ClearCountLocked()
      modifies this
      ensures State() == Cleared(old(State()))
    {
      hide Without;
      requests := requests + 1;
      nonce := requests;
      seen, expected, complete, retryAt := {}, 0, false, None;
      Stop(stopRetry);
      stopRetry := None;
    }

    method StartRequestLocked()
      modifies this
      ensures State() == StartRequest(old(State()))
    {
      ClearCountLocked();
      WaitForPartLocked();
    }

    /** held is the guild the state holds at the call, and members that guild's, which come back one entry each. */
    method GuildCreated(ours: bool, held: Option<Guild>, members: seq<Member>) returns (kept: seq<Member>)
      modifies this
      ensures State() == MemberLists.GuildCreated(old(State()), ours, held)
      ensures kept == if ours && held.Some? then KeptOf(members, |members|) else members
    {
      kept := members;
      if !ours {
        return;
      }
      if held.Some? {
        kept := KeepLastEntryPerMember(members);
      }
      guild := held;
      hide StartRequest, Without;
      Stop(stopLate);
      episode := episode + 1;
      late := false;
      armed := armed + {Timer.LateCheck(episode)};
      stopLate := Some(Timer.LateCheck(episode));
      assert State() == NewEpisode(old(State()), held);
      StartRequestLocked();
    }

    method AskAgain(current: bool, held: Option<Guild>)
      modifies this
      ensures State() == MemberLists.AskAgain(old(State()), current, held)
    {
      if complete || !current || !HoldsGuildLocked(held) {
        return;
      }
      StartRequestLocked();
    }

    method ChunkArrived(c: Chunk)
      modifies this
      ensures State() == MemberLists.ChunkArrived(old(State()), c)
    {
      if !c.ours || c.nonce == 0 || c.nonce != nonce || complete {
        return;
      }
      seen := seen + {c.index};
      expected := c.count;
      if |seen| < expected {
        WaitForPartLocked();
        return;
      }
      complete := true;
      StopStallLocked();
    }

    method Refused(opcode: int, refused: nat, again: int)
      modifies this
      ensures State() == RequestRefused(old(State()), opcode, refused, again)
    {
      if opcode != REQUEST_GUILD_MEMBERS || refused == 0 || refused != nonce || complete {
        return;
      }
      StopStallLocked();
      retryAt := Some(again);
      armed := armed + {Timer.Retry(nonce)};
      stopRetry := Some(Timer.Retry(nonce));
    }

    method Retry(of: nat, held: Option<Guild>)
      modifies this
      ensures State() == Fire(old(State()), Timer.Retry(of), held)
    {
      armed := armed - {Timer.Retry(of)};
      AskAgain(nonce == of && retryAt.Some?, held);
    }

    method Stalled(number: nat, held: Option<Guild>)
      modifies this
      ensures State() == Fire(old(State()), Stall(number), held)
    {
      armed := armed - {Stall(number)};
      AskAgain(number == stallSeq && retryAt.None?, held);
    }

    method LateCheck(of: nat, held: Option<Guild>)
      modifies this
      ensures State() == Fire(old(State()), Timer.LateCheck(of), held)
    {
      armed := armed - {Timer.LateCheck(of)};
      if of != episode || complete || !HoldsGuildLocked(held) {
        return;
      }
      late := true;
    }

    /** A read's section under the tracker's lock. */
    method Copy() returns (copied: Copied)
      ensures copied == CopyCount(State())
    {
      var snap := Snapshot(Arriving, |seen|, expected, retryAt);
      if retryAt.Some? {
        snap := snap.(status := Status.Refused);
      }
      if late {
        snap := snap.(status := Status.Late);
      }
      return Copied(snap, complete, guild);
    }
  }

  /** The entries that name a user, in order. */
  function Users(members: seq<Member>): seq<Member> {
    if members == [] then []
    else
      var before := Users(members[..|members| - 1]);
      if members[|members| - 1].user.Some? then before + [members[|members| - 1]] else before
  }

  /** A read's section under the state's lock: held is the guild the state holds then, and members that guild's. */
  method Read(copied: Copied, ours: bool, held: Option<Guild>, members: seq<Member>) returns (snap: Snapshot, listed: seq<Member>)
    ensures snap == Answer(copied, ours, held)
    ensures listed == if ours && held.Some? && held == copied.requested && copied.complete then Users(members) else []
  {
    if !ours || held.None? {
      return Snapshot(NoGuild, 0, 0, None), [];
    }
    if held != copied.requested {
      return Snapshot(Arriving, 0, 0, None), [];
    }
    if !copied.complete {
      return copied.snap, [];
    }
    listed := [];
    for i := 0 to |members|
      invariant listed == Users(members[..i])
    {
      assert members[..i + 1][..i] == members[..i];
      if members[i].user.Some? {
        listed := listed + [members[i]];
      }
    }
    assert members[..|members|] == members;
    snap := copied.snap.(status := Complete);
  }

  // ---------------------------------------------------------------------------
  // The tracker follows the run
  // ---------------------------------------------------------------------------

  /** The tracker's handlers, called as a run's events call them, keep the tracker as the run has it. */
  method Replay(events: seq<Event>) returns (list: MemberList, held: Option<Guild>)
    requires Feasible(events)
    ensures fresh(list) && list.State() == Run(events).tracker && held == Run(events).held
  {
    list := new MemberList();
    held := None;
    for i := 0 to |events|
      invariant fresh(list) && list.State() == Run(events[..i]).tracker && held == Run(events[..i]).held
    {
      assert events[..i + 1][..i] == events[..i];
      Apply(list, held, events[i], Run(events[..i]));
      if events[i].StateChanges? {
        held := events[i].held;
      }
    }
    assert events[..|events|] == events;
  }

  /** What an event's handler does to the tracker. */
  method Apply(list: MemberList, held: Option<Guild>, e: Event, ghost w: World)
    requires list.State() == w.tracker && held == w.held
    modifies list
    ensures list.State() == Next(w, e).tracker
  {
    hide MemberLists.GuildCreated, MemberLists.ChunkArrived, RequestRefused, Fire;
    match e
    case StateChanges(_) =>
    case Creates(ours) => var _ := list.GuildCreated(ours, held, []);
    case PartApplied(_, _, _) =>
    case PartTold(chunk, _) => list.ChunkArrived(chunk);
    case Refusal(opcode, refused, retryAt) => list.Refused(opcode, refused, retryAt);
    case GoesOff(timer) =>
      match timer {
        case Retry(nonce) => list.Retry(nonce, held);
        case Stall(number) => list.Stalled(number, held);
        case LateCheck(episode) => list.LateCheck(episode, held);
      }
  }
}
