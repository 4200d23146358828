/**
 * The runtime's waits (commands/temp_vc_delay.go, with their callers in
 * commands/temp_vc.go), each method a section under its lock or part of one,
 * proved against the steps of DeleteDelays. A method that opens a section
 * takes the next serial for the waits it sets.
 */
module DeleteDelayRuntimes {
  import opened DeleteDelays
  import opened Wrappers

  class DelayRuntime {
    var occupants: map<Channel, set<User>>
    var channelHub: map<Channel, int>
    /** The delay of each hub row, in the clock's unit. */
    var hubs: map<int, int>
    var locks: map<Channel, Lock>
    var waits: map<Channel, Wait>
    var timers: map<Timer, int>
    var armed: set<Timer>
    var serial: nat
    var now: int

    ghost function State(): Record
      reads this
    {
      Record(occupants, channelHub, hubs, locks, waits, timers, armed, serial, now)
    }

    constructor ()
      ensures State() == NEW_RECORD
    {
      occupants, channelHub, hubs, locks, waits := map[], map[], map[], map[], map[];
      timers, armed, serial, now := map[], {}, 0, 0;
    }

    method DeleteDelayLocked(ch: Channel) returns (delay: int)
      ensures delay == DelayOf(State(), ch)
    {
      if ch !in channelHub || channelHub[ch] !in hubs || hubs[channelHub[ch]] <= 0 {
        return 0;
      }
      return hubs[channelHub[ch]];
    }

    method ScheduleDeleteLocked(ch: Channel, emptiedAt: int)
      modifies `waits, `timers, `armed
      ensures State() == Schedule(old(State()), ch, emptiedAt)
    {
      var delay := DeleteDelayLocked(ch);
      timers := timers[Timer(ch, serial) := emptiedAt + delay];
      armed := armed + {Timer(ch, serial)};
      waits := waits[ch := Wait(emptiedAt, serial)];
    }

    method StartDeleteWaitLocked(ch: Channel) returns (waiting: bool)
      modifies `waits, `timers, `armed
      ensures State() == StartWait(old(State()), ch) && (waiting <==> DelayOf(old(State()), ch) != 0)
    {
      var delay := DeleteDelayLocked(ch);
      if delay == 0 {
        return false;
      }
      ScheduleDeleteLocked(ch, now);
      return true;
    }

    method CancelDeleteWaitLocked(ch: Channel) returns (had: bool)
      modifies `waits, `armed
      ensures State() == CancelWait(old(State()), ch) && (had <==> ch in old(waits))
    {
      if ch !in waits {
        return false;
      }
      armed := armed - {Timer(ch, waits[ch].serial)};
      waits := waits - {ch};
      return true;
    }

    /** A member's voice move between two channels, spawned or not. */
    method HandleMove(u: User, from: Channel, to: Channel)
      modifies this
      ensures State() == Step(old(State()).(serial := old(serial) + 1), Moves(u, from, to))
    {
      hide StartWait, CancelWait;
      serial := serial + 1;
      if from in occupants {
        occupants := occupants[from := occupants[from] - {u}];
        if occupants[from] == {} {
          var waiting := StartDeleteWaitLocked(from);
        }
      }
      assert State() == Leave(old(State()).(serial := old(serial) + 1), from, u);
      hide Leave;
      if to in occupants {
        occupants := occupants[to := occupants[to] + {u}];
        var had := CancelDeleteWaitLocked(to);
      }
    }

    method UntrackLocked(ch: Channel)
      modifies this
      ensures State() == Untrack(old(State()), ch)
    {
      hide CancelWait;
      var had := CancelDeleteWaitLocked(ch);
      occupants := occupants - {ch};
      channelHub := channelHub - {ch};
      locks := locks - {ch};
    }

    /** The section after the channel's delete went through. */
    method UntrackDeleted(ch: Channel)
      modifies this
      ensures State() == Step(old(State()).(serial := old(serial) + 1), Untracks(ch))
    {
      hide Untrack;
      serial := serial + 1;
      UntrackLocked(ch);
    }

    method CommitSpawn(ch: Channel, hub: int, creator: User)
      modifies this
      ensures State() == Step(old(State()).(serial := old(serial) + 1), Commits(ch, hub, creator))
    {
      serial := serial + 1;
      occupants := occupants[ch := {creator}];
      channelHub := channelHub[ch := hub];
    }

    /** The creator leaves the occupancy before the compensating delete. */
    method EvictCreator(ch: Channel, creator: User)
      modifies this
      ensures State() == Step(old(State()).(serial := old(serial) + 1), Evicts(ch, creator))
    {
      serial := serial + 1;
      if ch in occupants {
        occupants := occupants[ch := occupants[ch] - {creator}];
      }
    }

    /** Every waiting channel of the hub timed again against its delay as it stands now. */
    method RetimeDeleteWaitsLocked(hub: int)
      modifies `waits, `timers, `armed
      ensures State() == Retime(old(State()), hub)
    {
      hide RetimeOf, Schedule;
      ghost var r := State();
      ghost var done: set<Channel> := {};
      RetimeNone(r, hub);
      var left := waits.Keys;
      while left != {}
        invariant left <= r.waits.Keys && done == r.waits.Keys - left
        invariant State() == RetimeOf(r, hub, done)
        decreases |left|
      {
        var ch :| ch in left;
        left := left - {ch};
        RetimeOneMore(r, hub, done, ch);
        done := done + {ch};
        if ch !in channelHub || channelHub[ch] != hub {
          continue;
        }
        var w := waits[ch];
        armed := armed - {Timer(ch, w.serial)};
        ScheduleDeleteLocked(ch, w.emptiedAt);
      }
      assert done == r.waits.Keys;
    }

    method ApplyHub(hub: int, delay: int)
      modifies this
      ensures State() == Step(old(State()).(serial := old(serial) + 1), SavesHub(hub, delay))
    {
      hide Retime;
      serial := serial + 1;
      hubs := hubs[hub := delay];
      RetimeDeleteWaitsLocked(hub);
    }

    method RemoveHub(hub: int)
      modifies this
      ensures State() == Step(old(State()).(serial := old(serial) + 1), RemovesHub(hub))
    {
      hide Retime;
      serial := serial + 1;
      if hub in hubs {
        hubs := hubs - {hub};
        RetimeDeleteWaitsLocked(hub);
      }
    }

    /** The timer of a channel's wait: a wait that is the channel's no longer is left alone. */
    method DeleteWaitOver(ch: Channel, wait: nat) returns (over: bool)
      modifies this
      ensures State() == Step(old(State()).(serial := old(serial) + 1), GoesOff(Timer(ch, wait)))
      ensures over <==> Passes(old(State()), Timer(ch, wait))
    {
      serial := serial + 1;
      armed := armed - {Timer(ch, wait)};
      if ch !in waits || waits[ch].serial != wait {
        return false;
      }
      waits := waits - {ch};
      return true;
    }

    /** The record's maps with the spawns in flight alone, and every other wait's timer stopped. */
    method KeepSpawnsInFlightLocked(inFlight: set<Channel>)
      modifies this
      ensures State() == KeepInFlight(old(State()), inFlight)
    {
      var kept := map ch | ch in waits && ch in inFlight :: waits[ch];
      StopWaits(waits, kept);
      occupants := map ch | ch in occupants && ch in inFlight :: occupants[ch];
      channelHub := map ch | ch in channelHub && ch in inFlight :: channelHub[ch];
      locks := map ch | ch in locks && ch in inFlight :: locks[ch];
      waits := kept;
    }

    /** The timers of the waits that are not kept stopped. */
    method StopWaits(all: map<Channel, Wait>, kept: map<Channel, Wait>)
      modifies `armed
      ensures armed == old(armed) - set ch | ch in all && ch !in kept :: Timer(ch, all[ch].serial)
    {
      var left := all.Keys;
      while left != {}
        invariant left <= all.Keys
        invariant armed == old(armed) - (set ch | ch in all && ch !in left && ch !in kept :: Timer(ch, all[ch].serial))
        decreases |left|
      {
        var ch :| ch in left;
        left := left - {ch};
        if ch !in kept {
          armed := armed - {Timer(ch, all[ch].serial)};
        }
      }
    }

    method RestoreLockLocked(row: Row, wasTracked: map<Channel, set<User>>, held: map<Channel, Lock>, ghost before: Record)
      requires wasTracked == before.occupants && held == before.locks
      modifies `locks
      ensures State() == RestoreLock(old(State()), before, row)
    {
      if row.channel in wasTracked {
        if row.channel in held {
          locks := locks[row.channel := held[row.channel]];
        }
        return;
      }
      if row.lock.Some? {
        locks := locks[row.channel := row.lock.value];
      }
    }

    method SweepDeleteWaitLocked(ch: Channel, held: Option<Wait>, ghost before: Record)
      requires held == if ch in before.waits then Some(before.waits[ch]) else None
      modifies `waits, `timers, `armed
      ensures State() == SweepWait(old(State()), before, ch)
    {
      if held.None? {
        var waiting := StartDeleteWaitLocked(ch);
        return;
      }
      var delay := DeleteDelayLocked(ch);
      if delay == 0 {
        return;
      }
      ScheduleDeleteLocked(ch, held.value.emptiedAt);
    }

    /** The rebuild of a restart sweep: the rows listed, over the channels its snapshot shows and who is in them. */
    method RebuildLocked(rows: seq<Row>, inFlight: set<Channel>, shown: Shown)
      modifies this
      ensures State() == Step(old(State()).(serial := old(serial) + 1), Sweeps(rows, inFlight, shown))
    {
      hide KeepInFlight, SweepWait, RestoreLock;
      serial := serial + 1;
      ghost var before := State();
      var wasTracked, heldLocks, heldWaits := occupants, locks, waits;
      KeepSpawnsInFlightLocked(inFlight);
      for i := 0 to |rows|
        invariant State() == Rebuild(before, rows, i, inFlight, shown)
      {
        var row := rows[i];
        if row.channel !in inFlight && row.channel in shown {
          occupants := occupants[row.channel := shown[row.channel]];
          channelHub := channelHub[row.channel := row.hub];
          RestoreLockLocked(row, wasTracked, heldLocks, before);
          if shown[row.channel] == {} {
            SweepDeleteWaitLocked(row.channel, if row.channel in heldWaits then Some(heldWaits[row.channel]) else None, before);
          }
        }
      }
    }
  }

  lemma RetimeNone(r: Record, hub: int)
    ensures RetimeOf(r, hub, {}) == r
  {}

  /** One channel more, if it waits on the hub. */
  lemma RetimeOneMore(r: Record, hub: int, done: set<Channel>, ch: Channel)
    requires ch in r.waits && ch !in done
    ensures var s := RetimeOf(r, hub, done);
            && s.channelHub == r.channelHub && ch in s.waits && s.waits[ch] == r.waits[ch]
            && RetimeOf(r, hub, done + {ch}) ==
               if WaitsOn(r, ch, hub) then Schedule(s.(armed := s.armed - {Timer(ch, r.waits[ch].serial)}), ch, r.waits[ch].emptiedAt) else s
  {
    hide WaitingOf, DelayOf, NewWaits, NewTimers, OwnTimers, Timers, WaitsOn;
    var waiting := WaitingOf(r, hub, done);
    WaitingOneMore(r, hub, done, ch);
    if WaitsOn(r, ch, hub) {
      PartsOneMore(r, waiting, ch);
      var s := RetimeOf(r, hub, done);
      SameDelay(s.(armed := s.armed - {Timer(ch, r.waits[ch].serial)}), r, ch);
    }
  }

  lemma SameDelay(a: Record, b: Record, ch: Channel)
    requires a.channelHub == b.channelHub && a.hubs == b.hubs
    ensures DelayOf(a, ch) == DelayOf(b, ch)
  {}

  lemma WaitingOneMore(r: Record, hub: int, done: set<Channel>, ch: Channel)
    requires ch in r.waits && ch !in done
    ensures var waiting := WaitingOf(r, hub, done);
            && ch !in waiting && ch in NewWaits(r, waiting) && NewWaits(r, waiting)[ch] == r.waits[ch]
            && WaitingOf(r, hub, done + {ch}) == if WaitsOn(r, ch, hub) then waiting + {ch} else waiting
  {}

  lemma WaitsOneMore(r: Record, waiting: set<Channel>, ch: Channel)
    requires ch in r.waits && ch !in waiting
    ensures NewWaits(r, waiting + {ch}) == NewWaits(r, waiting)[ch := Wait(r.waits[ch].emptiedAt, r.serial)]
  {}

  lemma TimersOneMore(r: Record, waiting: set<Channel>, ch: Channel)
    requires ch in r.waits && ch !in waiting
    ensures NewTimers(r, waiting + {ch}) == NewTimers(r, waiting)[Timer(ch, r.serial) := r.waits[ch].emptiedAt + DelayOf(r, ch)]
  {
    hide DelayOf;
  }

  lemma ArmedOneMore(r: Record, waiting: set<Channel>, ch: Channel)
    requires ch in r.waits && ch !in waiting
    ensures r.armed - OwnTimers(r, waiting + {ch}) + Timers(waiting + {ch}, r.serial) ==
            ((r.armed - OwnTimers(r, waiting) + Timers(waiting, r.serial)) - {Timer(ch, r.waits[ch].serial)}) + {Timer(ch, r.serial)}
  {}

  lemma PartsOneMore(r: Record, waiting: set<Channel>, ch: Channel)
    requires ch in r.waits && ch !in waiting
    ensures NewWaits(r, waiting + {ch}) == NewWaits(r, waiting)[ch := Wait(r.waits[ch].emptiedAt, r.serial)]
    ensures r.timers + NewTimers(r, waiting + {ch}) ==
            (r.timers + NewTimers(r, waiting))[Timer(ch, r.serial) := r.waits[ch].emptiedAt + DelayOf(r, ch)]
    ensures r.armed - OwnTimers(r, waiting + {ch}) + Timers(waiting + {ch}, r.serial) ==
            ((r.armed - OwnTimers(r, waiting) + Timers(waiting, r.serial)) - {Timer(ch, r.waits[ch].serial)}) + {Timer(ch, r.serial)}
  {
    WaitsOneMore(r, waiting, ch);
    TimersOneMore(r, waiting, ch);
    hide NewWaits, NewTimers, OwnTimers, Timers, DelayOf;
    ArmedOneMore(r, waiting, ch);
  }

  // ---------------------------------------------------------------------------
  // The runtime follows the run
  // ---------------------------------------------------------------------------

  lemma {:induction false} PrefixFeasible(events: seq<Event>, k: nat)
    requires Feasible(events) && k < |events|
    ensures Feasible(events[..k]) && Possible(Run(events[..k]), events[k])
    ensures Run(events[..k + 1]) == Next(Run(events[..k]), events[k])
    decreases |events|
  {
    hide Next, Possible;
    assert events[..k + 1][..k] == events[..k];
    if k < |events| - 1 {
      PrefixFeasible(events[..|events| - 1], k);
      assert events[..|events| - 1][..k] == events[..k];
      assert events[..|events| - 1][..k + 1] == events[..k + 1];
    }
  }

  /** The runtime's methods, called as a run's events call them, keep the record as the run has it. */
  method Replay(events: seq<Event>) returns (runtime: DelayRuntime)
    requires Feasible(events)
    ensures fresh(runtime) && runtime.State() == Run(events).record
  {
    hide Next, Possible, Step;
    runtime := new DelayRuntime();
    for i := 0 to |events|
      invariant fresh(runtime) && runtime.State() == Run(events[..i]).record
    {
      PrefixFeasible(events, i);
      NextRecord(Run(events[..i]), events[i]);
      Apply(runtime, events[i]);
    }
    assert events[..|events|] == events;
  }

  /** What an event's goroutine does under the lock. */
  method Apply(runtime: DelayRuntime, e: Event)
    modifies runtime
    ensures runtime.State() == Step(old(runtime.State()).(serial := old(runtime.serial) + 1), e)
  {
    hide Retime, Rebuild, Join, Leave, GoOff, Schedule, CancelWait;
    match e
    case Ticks(elapsed) =>
      runtime.serial, runtime.now := runtime.serial + 1, runtime.now + elapsed;
    case Moves(u, from, to) => runtime.HandleMove(u, from, to);
    case Evicts(ch, u) => runtime.EvictCreator(ch, u);
    case Commits(ch, hub, u) => runtime.CommitSpawn(ch, hub, u);
    case Untracks(ch) => runtime.UntrackDeleted(ch);
    case SavesHub(hub, delay) => runtime.ApplyHub(hub, delay);
    case RemovesHub(hub) => runtime.RemoveHub(hub);
    case Sweeps(rows, inFlight, shown) => runtime.RebuildLocked(rows, inFlight, shown);
    case GoesOff(timer) => var _ := runtime.DeleteWaitOver(timer.channel, timer.serial);
  }
}
