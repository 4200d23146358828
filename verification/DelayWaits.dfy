/**
 * When an emptied channel's wait starts and ends over a whole run
 * (commands/temp_vc_delay.go), whose the armed timers are, and who the record
 * has inside and which locks it holds.
 */
module DelayWaits {
  import opened DeleteDelays
  import opened Wrappers

  // ---------------------------------------------------------------------------
  // An emptied channel waits
  // ---------------------------------------------------------------------------

  /** The channel's hub has a row, and the row a delete delay. */
  predicate HubDelays(r: Record, ch: Channel) {
    ch in r.channelHub && r.channelHub[ch] in r.hubs && r.hubs[r.channelHub[ch]] > 0
  }

  /** The channel waits from the moment given, under an armed timer due the hub's delay after it. */
  ghost predicate WaitsFrom(r: Record, ch: Channel, emptiedAt: int)
    requires HubDelays(r, ch)
  {
    && ch in r.waits && r.waits[ch].emptiedAt == emptiedAt
    && var timer := Timer(ch, r.waits[ch].serial);
       timer in r.armed && timer in r.timers && r.timers[timer] == emptiedAt + r.hubs[r.channelHub[ch]]
  }

  lemma JoinElsewhere(r: Record, to: Channel, u: User, ch: Channel)
    requires ch != to
    ensures var n := Join(r, to, u);
            && (ch in n.occupants <==> ch in r.occupants) && (ch in n.occupants ==> n.occupants[ch] == r.occupants[ch])
            && (ch in n.waits <==> ch in r.waits) && (ch in n.waits ==> n.waits[ch] == r.waits[ch])
            && n.timers == r.timers && n.channelHub == r.channelHub && n.hubs == r.hubs
            && (forall timer: Timer :: timer.channel == ch ==> (timer in n.armed <==> timer in r.armed))
  {}

  /** What a leave from a tracked channel, in a section of its own, does to its wait. */
  ghost predicate EmptiedOrNot(r: Record, n: Record, from: Channel, u: User)
    requires from in r.occupants
  {
    && from in n.occupants && n.occupants[from] == r.occupants[from] - {u}
    && (n.occupants[from] == {} && HubDelays(r, from) ==> HubDelays(n, from) && WaitsFrom(n, from, r.now))
    && (n.occupants[from] != {} || !HubDelays(r, from) ==>
          (from in n.waits <==> from in r.waits) && (from in n.waits ==> n.waits[from] == r.waits[from]))
  }

  lemma LeaveEmpties(r: Record, from: Channel, u: User)
    requires from in r.occupants
    ensures EmptiedOrNot(r, Leave(r, from, u), from, u)
  {}

  lemma JoinLeavesIt(r: Record, mid: Record, to: Channel, from: Channel, u: User)
    requires from in r.occupants && from != to && EmptiedOrNot(r, mid, from, u)
    ensures EmptiedOrNot(r, Join(mid, to, u), from, u)
  {
    JoinElsewhere(mid, to, u, from);
    hide Join;
  }

  /**
   * After any run, a move that leaves nobody in a tracked channel starts its wait
   * at that moment if its hub has a delete delay, and none if it has not; one
   * that leaves somebody there starts none.
   */
  lemma EmptyingStartsTheWait(events: seq<Event>, u: User, from: Channel, to: Channel)
    requires Feasible(events) && Possible(Run(events), Moves(u, from, to)) && from in Run(events).record.occupants
    ensures var r := Run(events).record.(serial := Run(events).record.serial + 1);
            EmptiedOrNot(r, Next(Run(events), Moves(u, from, to)).record, from, u)
  {
    hide Feasible, Run, EmptiedOrNot, Leave, Join;
    var r := Run(events).record.(serial := Run(events).record.serial + 1);
    LeaveEmpties(r, from, u);
    JoinLeavesIt(r, Leave(r, from, u), to, from, u);
  }

  /** The event ends the channel's wait: a join, an untrack, a sweep, or the wait's own timer. */
  predicate EndsWait(w: World, e: Event, ch: Channel) {
    match e
    case Moves(_, _, to) => to == ch
    case Untracks(untracked) => untracked == ch
    case Sweeps(_, _, _) => true
    case GoesOff(timer) => timer.channel == ch && Passes(w.record, timer)
    case _ => false
  }

  predicate NothingEnds(events: seq<Event>, k: nat, ch: Channel) {
    forall j :: k <= j < |events| ==> !EndsWait(Run(events[..j]), events[j], ch)
  }

  predicate NobodyLeaves(events: seq<Event>, k: nat, ch: Channel) {
    forall j :: k <= j < |events| ==> !(events[j].Moves? && events[j].from == ch)
  }

  lemma LeaveKeepsWait(r: Record, from: Channel, u: User, ch: Channel)
    requires ch in r.waits && r.waits[ch].emptiedAt <= r.now
    ensures var n := Leave(r, from, u);
            && ch in n.waits && n.waits[ch].emptiedAt >= r.waits[ch].emptiedAt
            && (from != ch ==> n.waits[ch] == r.waits[ch])
  {}

  lemma RetimeKeepsWait(r: Record, hub: int, ch: Channel)
    requires ch in r.waits
    ensures ch in Retime(r, hub).waits && Retime(r, hub).waits[ch].emptiedAt == r.waits[ch].emptiedAt
  {}

  lemma WaitKept(w: World, e: Event, ch: Channel)
    requires Holds(w) && Possible(w, e) && ch in w.record.waits && !EndsWait(w, e, ch)
    ensures var r, n := w.record, Next(w, e).record;
            && ch in n.waits && n.waits[ch].emptiedAt >= r.waits[ch].emptiedAt
            && (!(e.Moves? && e.from == ch) ==> n.waits[ch].emptiedAt == r.waits[ch].emptiedAt)
  {
    assert WaitHolds(w.record, w.emptySince, ch);
    var r := w.record.(serial := w.record.serial + 1);
    NextRecord(w, e);
    hide Holds, WaitHolds, Rebuild, Leave, Join, Retime, Next;
    match e
    case Moves(u, from, to) =>
      LeaveKeepsWait(r, from, u, ch);
      JoinElsewhere(Leave(r, from, u), to, u, ch);
    case SavesHub(hub, delay) => RetimeKeepsWait(r.(hubs := r.hubs[hub := delay]), hub, ch);
    case RemovesHub(hub) => RetimeKeepsWait(r.(hubs := r.hubs - {hub}), hub, ch);
    case _ =>
  }

  /**
   * Over any run, a wait of a channel after the first k events goes on, from the
   * same moment unless somebody the record did not have inside leaves meanwhile,
   * until a join, an untrack, a sweep or its own timer ends it.
   */
  lemma {:induction false} WaitGoesOn(events: seq<Event>, k: nat, ch: Channel)
    requires Feasible(events) && k <= |events| && ch in Run(events[..k]).record.waits && NothingEnds(events, k, ch)
    ensures ch in Run(events).record.waits
    ensures Run(events).record.waits[ch].emptiedAt >= Run(events[..k]).record.waits[ch].emptiedAt
    ensures NobodyLeaves(events, k, ch) ==> Run(events).record.waits[ch].emptiedAt == Run(events[..k]).record.waits[ch].emptiedAt
    decreases |events|
  {
    if k == |events| {
      assert events[..k] == events;
    } else {
      var n := |events| - 1;
      var rest := events[..n];
      assert rest[..k] == events[..k];
      assert NothingEnds(rest, k, ch) by {
        assert forall j :: k <= j < n ==> rest[..j] == events[..j] && rest[j] == events[j];
      }
      assert NobodyLeaves(events, k, ch) ==> NobodyLeaves(rest, k, ch);
      WaitGoesOn(rest, k, ch);
      HoldsReached(rest);
      assert !EndsWait(Run(rest), events[n], ch);
      WaitKept(Run(rest), events[n], ch);
      hide Next, Possible, EndsWait, NothingEnds;
    }
  }

  // ---------------------------------------------------------------------------
  // Whose timers are armed
  // ---------------------------------------------------------------------------

  /** A timer armed after a section was armed before it, with its wait as it was, or is of a wait the section set. */
  ghost predicate ArmedFrom(r: Record, n: Record, timer: Timer) {
    timer in n.armed ==> Passes(n, timer) || (timer in r.armed && !Passes(r, timer))
  }

  /** Somebody the record does not have inside leaves the empty channel while it waits, so it waits afresh and the old timer runs on. */
  predicate ReplacedByLeave(r: Record, e: Event, timer: Timer) {
    e.Moves? && e.from == timer.channel && Passes(r, timer) && HubDelays(r, timer.channel)
  }

  lemma LeaveArms(r: Record, from: Channel, u: User, timer: Timer)
    requires NewSection(r)
    ensures ArmedFrom(r, Leave(r, from, u), timer) || (from == timer.channel && Passes(r, timer) && HubDelays(r, from))
    ensures from != timer.channel ==> ArmedFrom(r, Leave(r, from, u), timer)
  {}

  lemma JoinArms(r: Record, to: Channel, u: User, timer: Timer)
    ensures var n := Join(r, to, u); timer in n.armed ==> timer in r.armed && (Passes(n, timer) <==> Passes(r, timer))
  {}

  lemma RetimeArms(r: Record, hub: int, timer: Timer)
    ensures ArmedFrom(r, Retime(r, hub), timer)
  {}

  lemma KeepArms(r: Record, inFlight: set<Channel>, timer: Timer)
    ensures var n := KeepInFlight(r, inFlight);
            timer in n.armed ==> timer in r.armed && (Passes(n, timer) <==> Passes(r, timer))
    ensures timer.channel !in inFlight ==> timer.channel !in KeepInFlight(r, inFlight).waits
  {}

  lemma SweepRowArms(s: Record, r: Record, row: Row, inFlight: set<Channel>, shown: Shown, timer: Timer)
    requires row.channel !in s.waits || row.channel in inFlight
    ensures ArmedFrom(s, SweepRow(s, r, row, inFlight, shown), timer)
    ensures var n := SweepRow(s, r, row, inFlight, shown);
            forall ch :: ch != row.channel || ch in inFlight ==> (ch in n.waits <==> ch in s.waits)
  {
    hide DelayOf;
  }

  lemma {:induction false} RebuildArms(r: Record, rows: seq<Row>, n: nat, inFlight: set<Channel>, shown: Shown, timer: Timer)
    requires n <= |rows| && forall i, j :: 0 <= i < j < |rows| ==> rows[i].channel != rows[j].channel
    ensures ArmedFrom(r, Rebuild(r, rows, n, inFlight, shown), timer)
    ensures forall k :: n <= k < |rows| && rows[k].channel !in inFlight ==>
              rows[k].channel !in Rebuild(r, rows, n, inFlight, shown).waits
  {
    if n == 0 {
      KeepArms(r, inFlight, timer);
      forall k | 0 <= k < |rows| && rows[k].channel !in inFlight
        ensures rows[k].channel !in KeepInFlight(r, inFlight).waits
      {
        KeepArms(r, inFlight, Timer(rows[k].channel, 0));
      }
    } else {
      hide SweepRow, Passes, KeepInFlight;
      RebuildArms(r, rows, n - 1, inFlight, shown, timer);
      SweepRowArms(Rebuild(r, rows, n - 1, inFlight, shown), r, rows[n - 1], inFlight, shown, timer);
    }
  }

  lemma SmallArms(r: Record, e: Event, timer: Timer)
    requires e.Ticks? || e.Evicts? || e.Commits? || e.Untracks? || e.GoesOff?
    ensures ArmedFrom(r, Step(r, e), timer)
  {
    hide Rebuild, Retime, Join, Leave;
  }

  lemma StepArms(r: Record, e: Event, timer: Timer)
    requires NewSection(r) && (e.Sweeps? ==> forall i, j :: 0 <= i < j < |e.rows| ==> e.rows[i].channel != e.rows[j].channel)
    ensures ArmedFrom(r, Step(r, e), timer) || ReplacedByLeave(r, e, timer)
  {
    match e
    case Moves(u, from, to) =>
      LeaveArms(r, from, u, timer);
      JoinArms(Leave(r, from, u), to, u, timer);
      hide Leave, Join;
    case SavesHub(hub, delay) => SavedArms(r, r.(hubs := r.hubs[hub := delay]), hub, timer);
    case RemovesHub(hub) => SavedArms(r, r.(hubs := r.hubs - {hub}), hub, timer);
    case Sweeps(rows, inFlight, shown) => RebuildArms(r, rows, |rows|, inFlight, shown, timer);
    case _ => SmallArms(r, e, timer);
  }

  lemma SavedArms(r: Record, s: Record, hub: int, timer: Timer)
    requires s == r.(hubs := s.hubs)
    ensures ArmedFrom(r, Retime(s, hub), timer) && ArmedFrom(r, r, timer)
  {
    RetimeArms(s, hub, timer);
    hide Retime;
  }

  ghost predicate LeftWhileWaiting(events: seq<Event>, timer: Timer) {
    exists j :: 0 <= j < |events| && ReplacedByLeave(Run(events[..j]).record, events[j], timer)
  }

  /**
   * Over any run, a timer still armed is that of its channel's own wait, unless
   * somebody the record did not have inside left the channel while that wait ran:
   * every other way a wait ends stops its timer.
   */
  lemma {:induction false} ArmedTimersAreTheWaits(events: seq<Event>, timer: Timer)
    requires Feasible(events) && timer in Run(events).record.armed
    ensures Passes(Run(events).record, timer) || LeftWhileWaiting(events, timer)
    decreases |events|
  {
    var rest, e := events[..|events| - 1], events[|events| - 1];
    HoldsReached(rest);
    hide Holds, Next, ReplacedByLeave, Passes, Possible, LeftWhileWaiting;
    SectionArms(Run(rest), e, timer);
    if ReplacedByLeave(Run(rest).record, e, timer) {
      LeftNow(events, timer);
    } else if !Passes(Run(events).record, timer) {
      ArmedTimersAreTheWaits(rest, timer);
      LeftEarlier(events, timer);
    }
  }

  lemma SectionArms(w: World, e: Event, timer: Timer)
    requires Holds(w) && Possible(w, e)
    ensures ArmedFrom(w.record, Next(w, e).record, timer) || ReplacedByLeave(w.record, e, timer)
  {
    SerialsBelow(w);
    hide Step, Holds, NewSection;
    StepArms(w.record.(serial := w.record.serial + 1), e, timer);
    NextRecord(w, e);
    SameWaits(w.record, e, timer);
    hide Next, Passes, ReplacedByLeave;
  }

  lemma LeftNow(events: seq<Event>, timer: Timer)
    requires events != [] && ReplacedByLeave(Run(events[..|events| - 1]).record, events[|events| - 1], timer)
    ensures LeftWhileWaiting(events, timer)
  {
    hide ReplacedByLeave;
  }

  lemma SameWaits(r: Record, e: Event, timer: Timer)
    ensures var s := r.(serial := r.serial + 1);
            && (ReplacedByLeave(s, e, timer) <==> ReplacedByLeave(r, e, timer))
            && (Passes(s, timer) <==> Passes(r, timer)) && s.armed == r.armed
  {}

  lemma LeftEarlier(events: seq<Event>, timer: Timer)
    requires events != [] && LeftWhileWaiting(events[..|events| - 1], timer)
    ensures LeftWhileWaiting(events, timer)
  {
    hide ReplacedByLeave;
    var rest := events[..|events| - 1];
    var j :| 0 <= j < |rest| && ReplacedByLeave(Run(rest[..j]).record, rest[j], timer);
    assert rest[..j] == events[..j] && rest[j] == events[j];
  }

  lemma SerialsBelow(w: World)
    requires Holds(w)
    ensures NewSection(w.record.(serial := w.record.serial + 1))
  {}

  // ---------------------------------------------------------------------------
  // Who is inside, and which locks are held
  // ---------------------------------------------------------------------------

  /** Whether the user is inside after the event, given whether they were before it. */
  predicate Inside(e: Event, ch: Channel, u: User, before: bool) {
    if e.Moves? && e.user == u && e.to == ch then true
    else if e.Moves? && e.user == u && e.from == ch then false
    else if e.Evicts? && e.user == u && e.channel == ch then false
    else before
  }

  /** Whether the moves and evictions leave the user in the channel, given whether they were in it before. */
  function MovedIn(events: seq<Event>, ch: Channel, u: User, before: bool): bool
    decreases |events|
  {
    if events == [] then before else Inside(events[|events| - 1], ch, u, MovedIn(events[..|events| - 1], ch, u, before))
  }

  /** No event since tracks the channel anew or untracks it. */
  predicate OnlyMoves(events: seq<Event>, k: nat, ch: Channel) {
    forall j :: k <= j < |events| ==>
      !events[j].Sweeps? && !(events[j].Untracks? && events[j].channel == ch) && !(events[j].Commits? && events[j].channel == ch)
  }

  lemma LeaveInside(r: Record, from: Channel, v: User, ch: Channel)
    requires ch in r.occupants
    ensures var n := Leave(r, from, v);
            ch in n.occupants && n.occupants[ch] == if from == ch then r.occupants[ch] - {v} else r.occupants[ch]
  {}

  lemma JoinInside(r: Record, to: Channel, v: User, ch: Channel)
    requires ch in r.occupants
    ensures var n := Join(r, to, v);
            && ch in n.occupants && n.occupants[ch] == (if to == ch then r.occupants[ch] + {v} else r.occupants[ch])
            && (to == ch ==> ch !in n.waits)
  {}

  /** Timing waits again leaves who is inside, and the locks, as they were. */
  lemma RetimeFrame(r: Record, hub: int)
    ensures Retime(r, hub).occupants == r.occupants && Retime(r, hub).locks == r.locks
  {}

  lemma InsideMoves(r: Record, e: Event, ch: Channel, u: User)
    requires ch in r.occupants && !e.Sweeps? && !(e.Untracks? && e.channel == ch) && !(e.Commits? && e.channel == ch)
    requires e.Moves? ==> e.from != e.to
    ensures var n := Step(r, e);
            ch in n.occupants && (u in n.occupants[ch] <==> Inside(e, ch, u, u in r.occupants[ch]))
  {
    match e
    case Moves(v, from, to) =>
      LeaveInside(r, from, v, ch);
      JoinInside(Leave(r, from, v), to, v, ch);
      hide Leave, Join;
    case SavesHub(hub, delay) => RetimeFrame(r.(hubs := r.hubs[hub := delay]), hub); hide Retime;
    case RemovesHub(hub) => RetimeFrame(r.(hubs := r.hubs - {hub}), hub); hide Retime;
    case _ => hide Retime, Leave, Join;
  }

  lemma OnlyMovesEarlier(events: seq<Event>, k: nat, ch: Channel)
    requires k < |events| && OnlyMoves(events, k, ch)
    ensures OnlyMoves(events[..|events| - 1], k, ch)
    ensures var e := events[|events| - 1];
            !e.Sweeps? && !(e.Untracks? && e.channel == ch) && !(e.Commits? && e.channel == ch)
  {}

  lemma MovedInMore(events: seq<Event>, k: nat, ch: Channel, u: User, before: bool)
    requires k < |events|
    ensures MovedIn(events[k..], ch, u, before) ==
            Inside(events[|events| - 1], ch, u, MovedIn(events[..|events| - 1][k..], ch, u, before))
  {
    var since := events[k..];
    assert since[..|since| - 1] == events[..|events| - 1][k..] && since[|since| - 1] == events[|events| - 1];
  }

  /** Over any run, from any moment on, a tracked channel's occupants are those its moves and evictions leave inside. */
  lemma {:induction false} OccupantsAreThoseInside(events: seq<Event>, k: nat, ch: Channel, u: User)
    requires Feasible(events) && k <= |events| && ch in Run(events[..k]).record.occupants && OnlyMoves(events, k, ch)
    ensures ch in Run(events).record.occupants
    ensures u in Run(events).record.occupants[ch] <==> MovedIn(events[k..], ch, u, u in Run(events[..k]).record.occupants[ch])
    decreases |events|
  {
    if k == |events| {
      assert events[..k] == events && events[k..] == [];
    } else {
      hide Step, Next, Inside, MovedIn, OnlyMoves;
      var rest, e := events[..|events| - 1], events[|events| - 1];
      assert rest[..k] == events[..k];
      OnlyMovesEarlier(events, k, ch);
      OccupantsAreThoseInside(rest, k, ch, u);
      MovedInMore(events, k, ch, u, u in Run(events[..k]).record.occupants[ch]);
      var r := Run(rest).record;
      InsideMoves(r.(serial := r.serial + 1), e, ch, u);
      NextRecord(Run(rest), e);
      assert Run(events) == Next(Run(rest), e);
      hide Feasible, Run, Possible;
    }
  }

  /** A join ends the wait of the channel joined, whoever joins. */
  lemma JoinEndsTheWait(events: seq<Event>, u: User, from: Channel, to: Channel)
    requires Feasible(events) && Possible(Run(events), Moves(u, from, to)) && to in Run(events).record.occupants
    ensures var n := Next(Run(events), Moves(u, from, to)).record;
            to in n.occupants && u in n.occupants[to] && to !in n.waits
  {
    hide Feasible, Run;
    var r := Run(events).record.(serial := Run(events).record.serial + 1);
    LeaveInside(r, from, u, to);
    JoinInside(Leave(r, from, u), to, u, to);
    NextRecord(Run(events), Moves(u, from, to));
    hide Next, Leave, Join;
  }

  /** Over any run, only of tracked channels is a lock held. */
  lemma {:induction false} LocksAreOfTracked(events: seq<Event>, ch: Channel)
    requires Feasible(events) && ch in Run(events).record.locks
    ensures ch in Run(events).record.occupants
    decreases |events|
  {
    var rest, e := events[..|events| - 1], events[|events| - 1];
    var r := Run(rest).record.(serial := Run(rest).record.serial + 1);
    NextRecord(Run(rest), e);
    if e.Sweeps? {
      if ch in r.locks {
        LocksAreOfTracked(rest, ch);
      }
      SweptLocks(r, e.rows, |e.rows|, e.inFlight, e.shown, ch);
    } else {
      LocksMove(r, e, ch);
      LocksAreOfTracked(rest, ch);
    }
    hide Step;
  }

  lemma LocksMove(r: Record, e: Event, ch: Channel)
    requires !e.Sweeps?
    ensures var n := Step(r, e);
            && (ch in n.locks ==> ch in r.locks)
            && (ch in n.locks && ch in r.occupants ==> ch in n.occupants)
  {
    match e
    case SavesHub(hub, delay) => RetimeFrame(r.(hubs := r.hubs[hub := delay]), hub); hide Retime;
    case RemovesHub(hub) => RetimeFrame(r.(hubs := r.hubs - {hub}), hub); hide Retime;
    case Moves(v, from, to) => MoveLocks(r, v, from, to, ch); hide Leave, Join;
    case _ => hide Retime, Leave, Join;
  }

  lemma MoveLocks(r: Record, v: User, from: Channel, to: Channel, ch: Channel)
    ensures var n := Join(Leave(r, from, v), to, v);
            n.locks == r.locks && (ch in r.occupants ==> ch in n.occupants)
  {
    LeaveLocks(r, from, v, ch);
    JoinLocks(Leave(r, from, v), to, v, ch);
    hide Leave, Join;
  }

  lemma LeaveLocks(r: Record, from: Channel, v: User, ch: Channel)
    ensures Leave(r, from, v).locks == r.locks && (ch in r.occupants ==> ch in Leave(r, from, v).occupants)
  {
    hide DelayOf;
  }

  lemma JoinLocks(r: Record, to: Channel, v: User, ch: Channel)
    ensures Join(r, to, v).locks == r.locks && (ch in r.occupants ==> ch in Join(r, to, v).occupants)
  {}

  lemma {:induction false} SweptLocks(r: Record, rows: seq<Row>, n: nat, inFlight: set<Channel>, shown: Shown, ch: Channel)
    requires n <= |rows| && (ch in r.locks ==> ch in r.occupants)
    ensures var s := Rebuild(r, rows, n, inFlight, shown); ch in s.locks ==> ch in s.occupants
  {
    if n > 0 {
      SweptLocks(r, rows, n - 1, inFlight, shown, ch);
      SweptRowLocks(Rebuild(r, rows, n - 1, inFlight, shown), r, rows[n - 1], inFlight, shown, ch);
      hide SweepRow;
    }
  }

  lemma SweptRowLocks(s: Record, r: Record, row: Row, inFlight: set<Channel>, shown: Shown, ch: Channel)
    requires ch in s.locks ==> ch in s.occupants
    ensures var n := SweepRow(s, r, row, inFlight, shown); ch in n.locks ==> ch in n.occupants
  {
    if row.channel !in inFlight && row.channel in shown {
      var u := s.(occupants := s.occupants[row.channel := shown[row.channel]], channelHub := s.channelHub[row.channel := row.hub]);
      LockFrame(r, u, row);
      SweepWaitFrame(RestoreLock(u, r, row), r, row.channel);
    }
    hide SweepWait, DelayOf;
  }

  lemma SweepWaitFrame(s: Record, r: Record, ch: Channel)
    ensures SweepWait(s, r, ch).occupants == s.occupants && SweepWait(s, r, ch).locks == s.locks
  {
    hide DelayOf;
  }
}
