/**
 * What the member list's waits and reads come to over a whole run
 * (commands/member_list.go): the refusal pending and the lateness are read off
 * the events alone, only the wait in force asks again, a wait replaced never
 * does, and a read says exactly what those events made of the list.
 */
module MemberListWaits {
  import opened Wrappers
  import opened MemberLists

  // ---------------------------------------------------------------------------
  // What the events say
  // ---------------------------------------------------------------------------

  /** How many of the guild's GUILD_CREATEs were handled. */
  ghost function Creations(events: seq<Event>): nat
    decreases |events|
  {
    if events == [] then 0
    else Creations(events[..|events| - 1]) + if events[|events| - 1] == Creates(true) then 1 else 0
  }

  /** The event makes the bot ask for the list. */
  ghost predicate Asks(w: World, e: Event) {
    Next(w, e).tracker.requests > w.tracker.requests
  }

  /** A part of the answer to the request in flight, not all of which was told of. */
  ghost predicate Answers(w: World, e: Event) {
    e.PartTold? && e.chunk.ours && 1 <= e.chunk.nonce == w.tracker.requests && !AllTold(w, e.chunk.nonce)
  }

  /** A refusal of the request in flight, not all of whose answer was told of. */
  ghost predicate Refuses(w: World, e: Event) {
    e.Refusal? && e.opcode == REQUEST_GUILD_MEMBERS && 1 <= e.refused == w.tracker.requests && !AllTold(w, e.refused)
  }

  /** The list's own late wait ends with the list partial and its guild held. */
  ghost predicate RunsLate(w: World, creations: nat, e: Event) {
    e == GoesOff(LateCheck(creations)) && Holds(w.tracker, w.held) && !AllTold(w, w.tracker.requests)
  }

  /** When the bot asks again after the last refusal, if no request has gone out since. */
  ghost function RefusalPending(events: seq<Event>): Option<int>
    decreases |events|
  {
    if events == [] then None
    else
      var rest, e := events[..|events| - 1], events[|events| - 1];
      if Refuses(Run(rest), e) then Some(e.retryAt) else if Asks(Run(rest), e) then None else RefusalPending(rest)
  }

  /** Whether the list was found late since the last GUILD_CREATE. */
  ghost predicate FoundLate(events: seq<Event>)
    decreases |events|
  {
    events != []
    && var rest, e := events[..|events| - 1], events[|events| - 1];
       e != Creates(true) && (RunsLate(Run(rest), Creations(rest), e) || FoundLate(rest))
  }

  // ---------------------------------------------------------------------------
  // The tracker keeps in step with them
  // ---------------------------------------------------------------------------

  ghost predicate InStep(t: Tracker, creations: nat, pending: Option<int>, late: bool) {
    && t.episode == creations && t.retryAt == pending && t.late == late
    && (t.seen == {} ==> t.expected == 0)
  }

  /** The stop function kept of a wait of this kind. */
  function StopOf(t: Tracker, timer: Timer): Option<Timer> {
    match timer
    case Stall(_) => t.stopStall
    case Retry(_) => t.stopRetry
    case LateCheck(_) => t.stopLate
  }

  /** The stop functions kept are of the waits in force, and no other wait is armed. */
  ghost predicate WaitsInOrder(t: Tracker) {
    && t.nonce == t.requests
    && (t.stopStall.Some? ==> t.stopStall == Some(Stall(t.stallSeq)) && !t.complete)
    && t.stopRetry == (if t.retryAt.Some? then Some(Retry(t.nonce)) else None)
    && t.stopLate == (if t.episode > 0 then Some(LateCheck(t.episode)) else None)
    && (forall timer :: timer in t.armed ==> Some(timer) == StopOf(t, timer))
  }

  lemma NonceIsLast(t: Tracker)
    requires WaitsInOrder(t)
    ensures t.nonce == t.requests
  {}

  /** No wait is numbered past those in force. */
  predicate Past(t: Tracker, timer: Timer) {
    match timer
    case Stall(n) => n <= t.stallSeq
    case Retry(n) => n <= t.requests
    case LateCheck(n) => n <= t.episode
  }

  lemma ArmedArePast(t: Tracker)
    requires WaitsInOrder(t)
    ensures forall timer :: timer in t.armed ==> Past(t, timer)
  {}

  /** The tracker is no earlier than it was. */
  predicate NoEarlier(t: Tracker, s: Tracker) {
    t.stallSeq <= s.stallSeq && t.requests <= s.requests && t.episode <= s.episode
  }

  lemma RequestInOrder(t: Tracker)
    requires WaitsInOrder(t)
    ensures var s := StartRequest(t);
            && WaitsInOrder(s) && s.requests == t.requests + 1 && s.stallSeq > t.stallSeq
            && s.episode == t.episode && s.late == t.late && s.retryAt == None && s.seen == {} && s.expected == 0
  {}

  lemma CreatedInOrder(t: Tracker, held: Option<Guild>)
    requires WaitsInOrder(t)
    ensures GuildCreated(t, false, held) == t
    ensures var s := GuildCreated(t, true, held);
            && WaitsInOrder(s) && s.requests == t.requests + 1 && s.stallSeq > t.stallSeq
            && s.episode == t.episode + 1 && !s.late && s.retryAt == None && s.seen == {} && s.expected == 0
  {
    var n := NewEpisode(t, held);
    assert WaitsInOrder(n);
    RequestInOrder(n);
    hide StartRequest, WaitsInOrder;
  }

  lemma PartInOrder(t: Tracker, c: Chunk)
    requires WaitsInOrder(t)
    ensures var s := ChunkArrived(t, c);
            && WaitsInOrder(s) && s.requests == t.requests && s.episode == t.episode && s.late == t.late
            && s.retryAt == t.retryAt && (s.seen == {} ==> t.seen == {} && s.expected == t.expected)
            && s.stallSeq == if c.ours && 1 <= c.nonce == t.nonce && !t.complete then t.stallSeq + 1 else t.stallSeq
  {}

  lemma RefusalInOrder(t: Tracker, opcode: int, nonce: nat, retryAt: int)
    requires WaitsInOrder(t)
    ensures var s := RequestRefused(t, opcode, nonce, retryAt);
            && WaitsInOrder(s) && s.requests == t.requests && s.episode == t.episode && s.late == t.late
            && s.seen == t.seen && s.expected == t.expected
            && if opcode == REQUEST_GUILD_MEMBERS && 1 <= nonce == t.nonce && !t.complete
               then s.retryAt == Some(retryAt) && s.stallSeq == t.stallSeq + 1
               else s.retryAt == t.retryAt && s.stallSeq == t.stallSeq
  {}

  /** A wait that goes off asks if and only if it is the one in force, the list is partial and its guild held. */
  lemma FireInOrder(t: Tracker, timer: Timer, held: Option<Guild>)
    requires WaitsInOrder(t)
    ensures var s := Fire(t, timer, held);
            && WaitsInOrder(s) && s.episode == t.episode
            && s.late == (t.late || (timer == LateCheck(t.episode) && !t.complete && Holds(t, held)))
            && if timer == WaitInForce(t) && !t.complete && Holds(t, held)
               then s.requests == t.requests + 1 && s.stallSeq > t.stallSeq && s.retryAt == None && s.seen == {} && s.expected == 0
               else s == t.(armed := t.armed - {timer}, late := s.late)
  {
    var u := t.(armed := t.armed - {timer});
    assert WaitsInOrder(u);
    assert WaitsInOrder(u.(late := true));
    RequestInOrder(u);
    hide StartRequest, WaitsInOrder;
  }

  /** How one event moves the tracker. */
  ghost predicate Moves(w: World, e: Event) {
    var t, s := w.tracker, Next(w, e).tracker;
    && NoEarlier(t, s)
    && s.episode == t.episode + (if e == Creates(true) then 1 else 0)
    && (Asks(w, e) || Answers(w, e) || Refuses(w, e) ==> t.stallSeq < s.stallSeq)
    && s.retryAt == (if Refuses(w, e) then Some(e.retryAt) else if Asks(w, e) then None else t.retryAt)
    && s.late == (e != Creates(true) && (RunsLate(w, t.episode, e) || t.late))
    && ((t.seen == {} ==> t.expected == 0) ==> (s.seen == {} ==> s.expected == 0))
  }

  ghost predicate Orderly(w: World) {
    && WaitsInOrder(w.tracker)
    && (forall timer :: timer in w.made ==> Past(w.tracker, timer))
  }

  lemma AfterIsOrderly(w: World, s: Tracker)
    requires Orderly(w) && WaitsInOrder(s) && NoEarlier(w.tracker, s)
    ensures Orderly(After(w, s))
  {
    ArmedArePast(s);
    hide WaitsInOrder;
    forall timer | timer in w.made + s.armed
      ensures Past(s, timer)
    {}
  }

  lemma StepInOrder(w: World, e: Event)
    requires Orderly(w) && (w.tracker.complete <==> AllTold(w, w.tracker.requests))
    ensures Orderly(Next(w, e)) && Moves(w, e)
  {
    hide WaitsInOrder, AllTold, GuildCreated, ChunkArrived, RequestRefused, Fire;
    var t := w.tracker;
    NonceIsLast(t);
    match e
    case StateChanges(_) =>
    case PartApplied(_, _, _) =>
    case Creates(ours) =>
      CreatedInOrder(t, w.held);
      AfterIsOrderly(w, GuildCreated(t, ours, w.held));
    case PartTold(chunk, _) =>
      PartInOrder(t, chunk);
      AfterIsOrderly(w, ChunkArrived(t, chunk));
    case Refusal(opcode, refused, retryAt) =>
      RefusalInOrder(t, opcode, refused, retryAt);
      AfterIsOrderly(w, RequestRefused(t, opcode, refused, retryAt));
    case GoesOff(timer) =>
      FireInOrder(t, timer, w.held);
      AfterIsOrderly(w, Fire(t, timer, w.held));
  }

  ghost predicate AllInStep(events: seq<Event>) {
    var w := Run(events);
    && InStep(w.tracker, Creations(events), RefusalPending(events), FoundLate(events))
    && Orderly(w)
  }

  lemma {:induction false} InStepReached(events: seq<Event>)
    requires Feasible(events)
    ensures AllInStep(events)
    decreases |events|
  {
    if events != [] {
      var rest, e := events[..|events| - 1], events[|events| - 1];
      InStepReached(rest);
      CompleteIsAllTold(rest);
      assert Run(rest).tracker.nonce == Run(rest).tracker.requests;
      StepInOrder(Run(rest), e);
      hide Feasible, Orderly, AllTold, Next;
    }
  }

  // ---------------------------------------------------------------------------
  // Waits
  // ---------------------------------------------------------------------------

  /**
   * After any run, the waits armed are at most three, and each has a stop
   * function of its own: the stall wait last started, while a part is missing;
   * the refusal's, while one is pending; and the last GUILD_CREATE's late wait.
   */
  lemma ArmedWaitsAreInForce(events: seq<Event>, timer: Timer)
    requires Feasible(events) && timer in Run(events).tracker.armed
    ensures var w := Run(events);
            && StopOf(w.tracker, timer) == Some(timer)
            && match timer
               case Stall(n) => n == w.tracker.stallSeq && !AllTold(w, w.tracker.requests)
               case Retry(n) => n == w.tracker.requests && RefusalPending(events).Some?
               case LateCheck(n) => n == Creations(events)
  {
    InStepReached(events);
    CompleteIsAllTold(events);
    hide Feasible, Run, AllTold;
  }

  /**
   * After any run, a wait that goes off asks for the list again if and only if a
   * part is missing, the guild asked about is held, and the wait is the pending
   * refusal's or, with none pending, the stall wait last started. A wait that
   * does not ask leaves all as it was but its own arming and the lateness.
   */
  lemma OnlyTheWaitInForceAsks(events: seq<Event>, timer: Timer)
    requires Feasible(events)
    ensures var w := Run(events);
            var t, s := w.tracker, Fire(w.tracker, timer, w.held);
            var inForce := if RefusalPending(events).Some? then Retry(t.requests) else Stall(t.stallSeq);
            && (s.requests > t.requests <==> timer == inForce && Holds(t, w.held) && !AllTold(w, t.requests))
            && (s.requests == t.requests ==> s == t.(armed := t.armed - {timer}, late := s.late))
  {
    InStepReached(events);
    CompleteIsAllTold(events);
    FireInOrder(Run(events).tracker, timer, Run(events).held);
    assert Run(events).tracker.nonce == Run(events).tracker.requests;
    hide Feasible, Run, AllTold, Fire, WaitsInOrder;
  }

  /** The event replaces a wait: a stall wait at a part, a refusal or a request; a refusal's at a request; a late wait at a GUILD_CREATE. */
  ghost predicate Replaces(w: World, e: Event, timer: Timer) {
    match timer
    case Stall(_) => Asks(w, e) || Answers(w, e) || Refuses(w, e)
    case Retry(_) => Asks(w, e)
    case LateCheck(_) => e == Creates(true)
  }

  /** The timer is numbered before the wait in force of its kind. */
  predicate Before(t: Tracker, timer: Timer) {
    match timer
    case Stall(n) => n < t.stallSeq
    case Retry(n) => n < t.requests
    case LateCheck(n) => n < t.episode
  }

  lemma {:induction false} ReplacedIsBefore(events: seq<Event>, k: nat, timer: Timer)
    requires Feasible(events) && k < |events| && timer in Run(events[..k]).made && Replaces(Run(events[..k]), events[k], timer)
    ensures Before(Run(events).tracker, timer)
    decreases |events|
  {
    var rest, e := events[..|events| - 1], events[|events| - 1];
    InStepReached(rest);
    CompleteIsAllTold(rest);
    assert Run(rest).tracker.nonce == Run(rest).tracker.requests;
    StepInOrder(Run(rest), e);
    assert Run(events) == Next(Run(rest), e);
    if k == |rest| {
      assert events[..k] == rest;
    } else {
      assert rest[..k] == events[..k];
      ReplacedIsBefore(rest, k, timer);
    }
    hide Feasible, Run, AllTold, Next, WaitsInOrder;
  }

  /** A wait made before an event that replaces it changes nothing when it goes off, at any moment later. */
  lemma ReplacedWaitsDoNothing(events: seq<Event>, k: nat, timer: Timer)
    requires Feasible(events) && k < |events| && timer in Run(events[..k]).made && Replaces(Run(events[..k]), events[k], timer)
    ensures Fire(Run(events).tracker, timer, Run(events).held) == Run(events).tracker
  {
    ReplacedIsBefore(events, k, timer);
    InStepReached(events);
    var t := Run(events).tracker;
    hide Feasible, Run, Fire, Replaces;
    FireInOrder(t, timer, Run(events).held);
    assert timer !in t.armed;
    assert t.armed - {timer} == t.armed;
  }

  // ---------------------------------------------------------------------------
  // Reads
  // ---------------------------------------------------------------------------

  /** What a read of a partial list says of it. */
  ghost function PartialStatus(events: seq<Event>): Status {
    if FoundLate(events) then Late else if RefusalPending(events).Some? then Refused else Arriving
  }

  /**
   * What a read says that copies the count after the first k events of a run and
   * reads the state after all of them: no guild while none is held, arriving
   * with nothing counted when the guild held is not the one asked about, and
   * else how many parts of the request in flight were told of at the copy, of
   * how many, when the bot asks again, and whether the list was complete, late,
   * refused or arriving then.
   */
  lemma ReadSays(events: seq<Event>, k: nat, ours: bool)
    requires Feasible(events) && k <= |events| && Feasible(events[..k])
    ensures var w, held := Run(events[..k]), Run(events).held;
            var n := w.tracker.requests;
            Answer(CopyCount(w.tracker), ours, held) ==
            if !ours || held.None? then Snapshot(NoGuild, 0, 0, None)
            else if held != w.tracker.guild then Snapshot(Arriving, 0, 0, None)
            else Snapshot(if AllTold(w, n) then Complete else PartialStatus(events[..k]),
                          |Told(w, n)|,
                          if Told(w, n) != {} && n in w.counts then w.counts[n] else 0,
                          RefusalPending(events[..k]))
  {
    CountedReached(events[..k]);
    CompleteIsAllTold(events[..k]);
    InStepReached(events[..k]);
    hide Feasible, Run, AllTold, Told;
  }
}
