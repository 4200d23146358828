/**
 * The member list tracker (commands/member_list.go): the bot asks the gateway
 * for every member of its guild and counts the parts that answer, under stall,
 * refusal and late timers.
 *
 * A guild value of discordgo's state is a number, its address in the source.
 * Nonces are the numbers of the requests, 0 for none. A timer that is stopped
 * may already have fired and be waiting for the lock, so in a run any timer
 * ever made may go off at any moment.
 */
module MemberLists {
  import opened Wrappers

  type Guild = nat

  datatype Timer = Stall(number: nat) | Retry(nonce: nat) | LateCheck(episode: nat)

  datatype Status = NoGuild | Arriving | Refused | Late | Complete

  datatype Snapshot = Snapshot(status: Status, received: nat, expected: int, retryAt: Option<int>)

  /** What a part of the list says of itself. */
  datatype Chunk = Chunk(ours: bool, nonce: nat, index: int, count: int)

  datatype Tracker = Tracker(
    guild: Option<Guild>, requests: nat, nonce: nat, seen: set<int>, expected: int, complete: bool,
    retryAt: Option<int>, stopRetry: Option<Timer>, stallSeq: nat, stopStall: Option<Timer>,
    episode: nat, late: bool, stopLate: Option<Timer>, armed: set<Timer>)

  const NEW_TRACKER := Tracker(None, 0, 0, {}, 0, false, None, None, 0, None, 0, false, None, {})

  const REQUEST_GUILD_MEMBERS := 8

  // ---------------------------------------------------------------------------
  // What the handlers do
  // ---------------------------------------------------------------------------

  function Without(armed: set<Timer>, stop: Option<Timer>): set<Timer> {
    if stop.Some? then armed - {stop.value} else armed
  }

  function StopStall(t: Tracker): Tracker {
    t.(armed := Without(t.armed, t.stopStall), stopStall := None, stallSeq := t.stallSeq + 1)
  }

  function WaitForPart(t: Tracker): Tracker {
    var s := StopStall(t);
    s.(stopStall := Some(Stall(s.stallSeq)), armed := s.armed + {Stall(s.stallSeq)})
  }

  /** The count cleared for a new request, and any refusal's wait ended. */
  function Cleared(t: Tracker): Tracker {
    t.(requests := t.requests + 1, nonce := t.requests + 1, seen := {}, expected := 0, complete := false,
       retryAt := None, armed := Without(t.armed, t.stopRetry), stopRetry := None)
  }

  function StartRequest(t: Tracker): Tracker {
    WaitForPart(Cleared(t))
  }

  /** A new episode, its late wait started over. */
  function NewEpisode(t: Tracker, held: Option<Guild>): Tracker {
    var late := LateCheck(t.episode + 1);
    t.(guild := held, episode := t.episode + 1, late := false,
       armed := Without(t.armed, t.stopLate) + {late}, stopLate := Some(late))
  }

  predicate Holds(t: Tracker, held: Option<Guild>) {
    held.Some? && held == t.guild
  }

  function GuildCreated(t: Tracker, ours: bool, held: Option<Guild>): Tracker {
    if !ours then t else StartRequest(NewEpisode(t, held))
  }

  function AskAgain(t: Tracker, current: bool, held: Option<Guild>): Tracker {
    if t.complete || !current || !Holds(t, held) then t else StartRequest(t)
  }

  function ChunkArrived(t: Tracker, c: Chunk): Tracker {
    if !c.ours || c.nonce == 0 || c.nonce != t.nonce || t.complete then t
    else
      var s := t.(seen := t.seen + {c.index}, expected := c.count);
      if |s.seen| < s.expected then WaitForPart(s) else StopStall(s.(complete := true))
  }

  function RequestRefused(t: Tracker, opcode: int, nonce: nat, retryAt: int): Tracker {
    if opcode != REQUEST_GUILD_MEMBERS || nonce == 0 || nonce != t.nonce || t.complete then t
    else
      var s := StopStall(t);
      s.(retryAt := Some(retryAt), stopRetry := Some(Retry(nonce)), armed := s.armed + {Retry(nonce)})
  }

  /** A timer goes off: it is armed no more, and its wait decides. */
  function Fire(t: Tracker, timer: Timer, held: Option<Guild>): Tracker {
    var s := t.(armed := t.armed - {timer});
    match timer
    case Retry(nonce) => AskAgain(s, s.nonce == nonce && s.retryAt.Some?, held)
    case Stall(n) => AskAgain(s, n == s.stallSeq && s.retryAt.None?, held)
    case LateCheck(episode) =>
      if episode != s.episode || s.complete || !Holds(s, held) then s else s.(late := true)
  }

  /** What a read's first section, under the tracker's lock, takes with it. */
  datatype Copied = Copied(snap: Snapshot, complete: bool, requested: Option<Guild>)

  function CopyCount(t: Tracker): Copied {
    var status := if t.late then Late else if t.retryAt.Some? then Refused else Arriving;
    Copied(Snapshot(status, |t.seen|, t.expected, t.retryAt), t.complete, t.guild)
  }

  /** What its second section, under the state's lock, makes of that. */
  function Answer(c: Copied, ours: bool, held: Option<Guild>): Snapshot {
    if !ours || held.None? then Snapshot(NoGuild, 0, 0, None)
    else if held != c.requested then Snapshot(Arriving, 0, 0, None)
    else if c.complete then c.snap.(status := Complete)
    else c.snap
  }

  // ---------------------------------------------------------------------------
  // Runs
  // ---------------------------------------------------------------------------

  /** A part of the list Discord sent, in the guild value discordgo applied it to. */
  datatype Part = Part(guild: Option<Guild>, nonce: nat, index: int)

  /**
   * The tracker, the guild the state holds, and what has happened: the guild
   * values the state ever held, the parts applied to the state and those the
   * tracker was told of, how many parts Discord cut each answer into, which
   * GUILD_CREATE each request followed, and the timers ever made.
   */
  datatype World = World(
    tracker: Tracker, held: Option<Guild>, known: set<Guild>, applied: set<Part>, told: set<Part>,
    counts: map<nat, int>, episodeOf: map<nat, nat>, made: set<Timer>)

  const START := World(NEW_TRACKER, None, {}, {}, {}, map[], map[], {})

  datatype Event =
    | StateChanges(held: Option<Guild>)
    | Creates(ours: bool)
    | PartApplied(nonce: nat, index: int, count: int)
    | PartTold(chunk: Chunk, appliedTo: Option<Guild>)
    | Refusal(opcode: int, refused: nat, retryAt: int)
    | GoesOff(timer: Timer)

  /**
   * What Discord and discordgo keep to: a guild the state lost never comes back
   * as the same value; Discord answers requests that were made, numbering the
   * parts of one answer below one count; and a handler hears of a part after
   * the state took it.
   */
  ghost predicate Possible(w: World, e: Event) {
    match e
    case StateChanges(held) => held.Some? ==> held.value !in w.known
    case Creates(_) => true
    case PartApplied(nonce, index, count) =>
      1 <= nonce <= w.tracker.requests && 0 <= index < count && (nonce in w.counts ==> w.counts[nonce] == count)
    case PartTold(chunk, appliedTo) =>
      chunk.ours && chunk.nonce != 0 ==>
        Part(appliedTo, chunk.nonce, chunk.index) in w.applied && chunk.nonce in w.counts && chunk.count == w.counts[chunk.nonce]
    case Refusal(_, _, _) => true
    case GoesOff(timer) => timer in w.made
  }

  /** The world with the tracker one handler on: its request and timers go on record. */
  ghost function After(w: World, t: Tracker): World {
    w.(tracker := t,
       episodeOf := if t.requests == w.tracker.requests then w.episodeOf else w.episodeOf[t.nonce := t.episode],
       made := w.made + t.armed)
  }

  ghost function Next(w: World, e: Event): World {
    match e
    case StateChanges(held) => w.(held := held, known := if held.Some? then w.known + {held.value} else w.known)
    case Creates(ours) => After(w, GuildCreated(w.tracker, ours, w.held))
    case PartApplied(nonce, index, count) =>
      w.(applied := w.applied + {Part(w.held, nonce, index)}, counts := w.counts[nonce := count])
    case PartTold(chunk, appliedTo) =>
      var told := if chunk.ours && chunk.nonce != 0 then {Part(appliedTo, chunk.nonce, chunk.index)} else {};
      After(w, ChunkArrived(w.tracker, chunk)).(told := w.told + told)
    case Refusal(opcode, refused, retryAt) => After(w, RequestRefused(w.tracker, opcode, refused, retryAt))
    case GoesOff(timer) => After(w, Fire(w.tracker, timer, w.held))
  }

  /** The world a run of events leads to. */
  ghost function Run(events: seq<Event>): World
    decreases |events|
  {
    if events == [] then START else Next(Run(events[..|events| - 1]), events[|events| - 1])
  }

  ghost predicate Feasible(events: seq<Event>)
    decreases |events|
  {
    events == [] || (Feasible(events[..|events| - 1]) && Possible(Run(events[..|events| - 1]), events[|events| - 1]))
  }

  // ---------------------------------------------------------------------------
  // It never gives up
  // ---------------------------------------------------------------------------

  /** The wait in force while the list is partial: the refusal's, else the stall's. */
  function WaitInForce(t: Tracker): Timer {
    if t.retryAt.Some? then Retry(t.nonce) else Stall(t.stallSeq)
  }

  /** Each stop function kept stops a wait of its own kind. */
  ghost predicate StopsItsOwn(t: Tracker) {
    && (t.stopRetry.Some? ==> t.stopRetry.value.Retry?)
    && (t.stopStall.Some? ==> t.stopStall.value.Stall?)
    && (t.stopLate.Some? ==> t.stopLate.value.LateCheck?)
  }

  /** A partial list of a held guild has its waits armed. */
  ghost predicate Asking(t: Tracker, held: Option<Guild>) {
    && StopsItsOwn(t)
    && (Holds(t, held) && !t.complete ==>
          && WaitInForce(t) in t.armed
          && (!t.late ==> LateCheck(t.episode) in t.armed))
  }

  ghost predicate StillAsking(w: World) {
    && (w.tracker.guild.Some? ==> w.tracker.guild.value in w.known)
    && (w.held.Some? ==> w.held.value in w.known)
    && Asking(w.tracker, w.held)
  }

  lemma RequestAsks(t: Tracker, held: Option<Guild>)
    requires StopsItsOwn(t)
    requires Holds(t, held) && !t.late ==> LateCheck(t.episode) in t.armed
    ensures Asking(StartRequest(t), held)
  {}

  lemma FireAsks(t: Tracker, timer: Timer, held: Option<Guild>)
    requires Asking(t, held)
    ensures Asking(Fire(t, timer, held), held)
  {
    hide StartRequest;
    var s := t.(armed := t.armed - {timer});
    if timer.LateCheck? {
    } else if Holds(s, held) && !s.complete {
      RequestAsks(s, held);
    }
  }

  lemma HandlerAsks(t: Tracker, held: Option<Guild>, e: Event)
    requires Asking(t, held)
    ensures Asking(GuildCreated(t, true, held), held)
    ensures e.PartTold? ==> Asking(ChunkArrived(t, e.chunk), held)
    ensures e.Refusal? ==> Asking(RequestRefused(t, e.opcode, e.refused, e.retryAt), held)
  {
    hide StartRequest;
    RequestAsks(NewEpisode(t, held), held);
  }

  lemma HandlersKeepGuild(t: Tracker, held: Option<Guild>, e: Event)
    ensures GuildCreated(t, false, held) == t && GuildCreated(t, true, held).guild == held
    ensures e.PartTold? ==> ChunkArrived(t, e.chunk).guild == t.guild
    ensures e.Refusal? ==> RequestRefused(t, e.opcode, e.refused, e.retryAt).guild == t.guild
    ensures e.GoesOff? ==> Fire(t, e.timer, held).guild == t.guild
  {}

  lemma StillAskingKept(w: World, e: Event)
    requires StillAsking(w) && Possible(w, e)
    ensures StillAsking(Next(w, e))
  {
    hide Fire, GuildCreated, ChunkArrived, RequestRefused;
    HandlerAsks(w.tracker, w.held, e);
    HandlersKeepGuild(w.tracker, w.held, e);
    if e.GoesOff? {
      FireAsks(w.tracker, e.timer, w.held);
    }
  }

  lemma {:induction false} StillAskingReached(events: seq<Event>)
    requires Feasible(events)
    ensures StillAsking(Run(events))
    decreases |events|
  {
    if events != [] {
      StillAskingReached(events[..|events| - 1]);
      StillAskingKept(Run(events[..|events| - 1]), events[|events| - 1]);
    }
  }

  /**
   * While the list is partial and the state holds the guild, a timer is pending
   * whose going off sends a request no request before it had the nonce of, and
   * another that turns the list late unless it is late already.
   */
  lemma NeverGivesUp(events: seq<Event>)
    requires Feasible(events)
    requires Holds(Run(events).tracker, Run(events).held) && !Run(events).tracker.complete
    ensures WaitInForce(Run(events).tracker) in Run(events).tracker.armed
    ensures var w := Run(events);
            var asked := Fire(w.tracker, WaitInForce(w.tracker), w.held);
            && asked.nonce == asked.requests == w.tracker.requests + 1
            && asked.seen == {} && asked.retryAt == None && WaitInForce(asked) in asked.armed
    ensures var w := Run(events);
            w.tracker.late ||
            (LateCheck(w.tracker.episode) in w.tracker.armed && Fire(w.tracker, LateCheck(w.tracker.episode), w.held).late)
  {
    StillAskingReached(events);
  }

  // ---------------------------------------------------------------------------
  // Complete means complete
  // ---------------------------------------------------------------------------

  /** Indices below n are all n of them exactly when there are n. */
  lemma {:induction false} AllIndices(s: set<int>, n: nat)
    requires forall i :: i in s ==> 0 <= i < n
    ensures |s| <= n
    ensures |s| == n <==> forall i :: 0 <= i < n ==> i in s
    decreases n
  {
    if n == 0 {
      forall i | i in s
        ensures false
      {}
    } else {
      var rest := s - {n - 1};
      AllIndices(rest, n - 1);
      if n - 1 in s {
        assert s == rest + {n - 1};
      } else {
        assert s == rest;
      }
    }
  }

  /** The indices of a request's parts the tracker was told of. */
  ghost function Told(w: World, nonce: nat): set<int> {
    set p | p in w.told && p.nonce == nonce :: p.index
  }

  /** Every part of the answer to a request has been told of. */
  ghost predicate AllTold(w: World, nonce: nat) {
    nonce in w.counts && forall i :: 0 <= i < w.counts[nonce] ==> i in Told(w, nonce)
  }

  ghost predicate PartsAreReal(w: World) {
    && w.told <= w.applied
    && (forall p :: p in w.applied ==>
          1 <= p.nonce <= w.tracker.requests && p.nonce in w.counts && 0 <= p.index < w.counts[p.nonce])
  }

  ghost predicate CountIsRight(w: World) {
    var t := w.tracker;
    && t.nonce == t.requests
    && t.seen == Told(w, t.nonce)
    && (t.seen == {} ==> !t.complete)
    && (t.seen != {} ==> t.nonce in w.counts && t.expected == w.counts[t.nonce])
    && (t.complete <==> t.seen != {} && |t.seen| >= t.expected)
  }

  /** The request in flight followed the last GUILD_CREATE, and while its guild is held its parts all went there. */
  ghost predicate AnswersThisGuild(w: World) {
    var t := w.tracker;
    && (t.nonce != 0 ==> t.nonce in w.episodeOf && w.episodeOf[t.nonce] == t.episode)
    && (Holds(t, w.held) ==> forall p :: p in w.applied && p.nonce == t.nonce ==> p.guild == t.guild)
  }

  ghost predicate Counted(w: World) {
    PartsAreReal(w) && CountIsRight(w) && AnswersThisGuild(w)
  }

  lemma StartsCounted()
    ensures Counted(START) && StillAsking(START)
  {
    assert Told(START, 0) == {};
  }

  /** A handler that is told of no part keeps the count right. */
  lemma HandlerKeepsCount(w: World, t: Tracker)
    requires Counted(w)
    requires || (t.requests == w.tracker.requests && t.nonce == w.tracker.nonce && t.seen == w.tracker.seen && t.expected == w.tracker.expected
                 && t.complete == w.tracker.complete && t.guild == w.tracker.guild && t.episode == w.tracker.episode)
             || (t.requests == t.nonce == w.tracker.requests + 1 && t.seen == {} && !t.complete)
    ensures Counted(After(w, t))
  {
    var n := After(w, t);
    assert Told(n, t.nonce) == Told(w, t.nonce);
  }

  lemma StateChangeKeepsCount(w: World, e: Event)
    requires Counted(w) && StillAsking(w) && Possible(w, e) && e.StateChanges?
    ensures Counted(Next(w, e))
  {
    assert Told(Next(w, e), w.tracker.nonce) == Told(w, w.tracker.nonce);
  }

  lemma PartAppliedKeepsCount(w: World, e: Event)
    requires Counted(w) && StillAsking(w) && Possible(w, e) && e.PartApplied?
    ensures Counted(Next(w, e))
  {
    var n := Next(w, e);
    assert Told(n, n.tracker.nonce) == Told(w, w.tracker.nonce);
  }

  /** What a part told of does to the count. */
  lemma ChunkCounts(t: Tracker, c: Chunk)
    ensures var s := ChunkArrived(t, c);
            && s.requests == t.requests && s.nonce == t.nonce && s.guild == t.guild && s.episode == t.episode
            && if c.ours && c.nonce != 0 && c.nonce == t.nonce && !t.complete
               then s.seen == t.seen + {c.index} && s.expected == c.count && s.complete == (|s.seen| >= s.expected)
               else s.seen == t.seen && s.expected == t.expected && s.complete == t.complete
  {}

  lemma PartToldCounts(w: World, e: Event)
    requires PartsAreReal(w) && CountIsRight(w) && Possible(w, e) && e.PartTold?
    ensures CountIsRight(Next(w, e))
  {
    hide ChunkArrived;
    var t, n, c := w.tracker, Next(w, e), e.chunk;
    ChunkCounts(t, c);
    if c.ours && c.nonce == t.nonce && c.nonce != 0 {
      assert Told(n, t.nonce) == Told(w, t.nonce) + {c.index};
      if t.complete {
        AllIndices(t.seen, t.expected);
        assert t.seen + {c.index} == t.seen;
      }
    } else {
      assert Told(n, t.nonce) == Told(w, t.nonce);
    }
  }

  lemma PartToldKeepsCount(w: World, e: Event)
    requires Counted(w) && Possible(w, e) && e.PartTold?
    ensures Counted(Next(w, e))
  {
    hide ChunkArrived, CountIsRight;
    ChunkCounts(w.tracker, e.chunk);
    PartToldCounts(w, e);
  }

  lemma CountedKept(w: World, e: Event)
    requires Counted(w) && StillAsking(w) && Possible(w, e)
    ensures Counted(Next(w, e))
  {
    hide Counted, StillAsking;
    match e
    case StateChanges(held) =>
      StateChangeKeepsCount(w, e);
    case Creates(ours) =>
      HandlerKeepsCount(w, GuildCreated(w.tracker, ours, w.held));
    case PartApplied(_, _, _) =>
      PartAppliedKeepsCount(w, e);
    case PartTold(_, _) =>
      PartToldKeepsCount(w, e);
    case Refusal(opcode, refused, retryAt) =>
      HandlerKeepsCount(w, RequestRefused(w.tracker, opcode, refused, retryAt));
    case GoesOff(timer) =>
      HandlerKeepsCount(w, Fire(w.tracker, timer, w.held));
  }

  lemma {:induction false} CountedReached(events: seq<Event>)
    requires Feasible(events)
    ensures Counted(Run(events))
    decreases |events|
  {
    if events == [] {
      StartsCounted();
    } else {
      var rest := events[..|events| - 1];
      CountedReached(rest);
      StillAskingReached(rest);
      CountedKept(Run(rest), events[|events| - 1]);
    }
  }

  lemma {:induction false} PartCountsArePositive(events: seq<Event>, nonce: nat)
    requires Feasible(events) && nonce in Run(events).counts
    ensures Run(events).counts[nonce] > 0
    decreases |events|
  {
    if events != [] && nonce in Run(events[..|events| - 1]).counts {
      PartCountsArePositive(events[..|events| - 1], nonce);
    }
  }

  /** Once a request is out, the tracker's flag says whether every part of its answer has been told of. */
  lemma CompleteIsAllTold(events: seq<Event>)
    requires Feasible(events)
    ensures Run(events).tracker.complete <==> AllTold(Run(events), Run(events).tracker.nonce)
  {
    CountedReached(events);
    var w := Run(events);
    var t := w.tracker;
    if t.nonce in w.counts {
      PartCountsArePositive(events, t.nonce);
      AllIndices(t.seen, w.counts[t.nonce]);
    }
  }

  // ---------------------------------------------------------------------------
  // A read in two sections
  // ---------------------------------------------------------------------------

  /** No handler of the guild's GUILD_CREATE ran after the first k events. */
  predicate NoneCreated(events: seq<Event>, k: nat) {
    forall i :: k <= i < |events| ==> events[i] != Creates(true)
  }

  /** What stays as it was from a moment of a run to a later one. */
  ghost predicate Grown(w: World, v: World) {
    && w.known <= v.known && w.applied <= v.applied
    && (forall nonce :: nonce in w.counts ==> nonce in v.counts && v.counts[nonce] == w.counts[nonce])
    && (forall g :: g in w.known && w.held != Some(g) ==> v.held != Some(g))
  }

  /** The tracker's list is as it was, or it is a later request's. */
  ghost predicate Kept(t: Tracker, s: Tracker, noneCreated: bool) {
    && t.requests <= s.requests
    && (noneCreated && t.complete ==> s.complete && s.nonce == t.nonce && s.guild == t.guild)
    && (!noneCreated ==> t.requests < s.requests)
  }

  lemma GrownKept(v: World, e: Event)
    requires Possible(v, e)
    ensures Grown(v, Next(v, e)) && Kept(v.tracker, Next(v, e).tracker, e != Creates(true))
  {}

  lemma {:induction false} GrowsLater(events: seq<Event>, k: nat)
    requires Feasible(events) && k <= |events|
    ensures Feasible(events[..k]) && Grown(Run(events[..k]), Run(events))
    ensures Kept(Run(events[..k]).tracker, Run(events).tracker, NoneCreated(events, k))
    decreases |events|
  {
    if k == |events| {
      assert events[..k] == events;
    } else {
      var rest, e := events[..|events| - 1], events[|events| - 1];
      assert rest[..k] == events[..k];
      GrowsLater(rest, k);
      GrownKept(Run(rest), e);
      NoneCreatedMore(events, k);
      hide Feasible, Next, NoneCreated;
    }
  }

  lemma NoneCreatedMore(events: seq<Event>, k: nat)
    requires k < |events|
    ensures NoneCreated(events, k) <==> NoneCreated(events[..|events| - 1], k) && events[|events| - 1] != Creates(true)
  {
    var rest := events[..|events| - 1];
    assert forall i :: 0 <= i < |rest| ==> rest[i] == events[i];
  }

  /** A complete list of a held guild is all there, in that guild value. */
  lemma CompleteIsApplied(events: seq<Event>)
    requires Feasible(events) && Run(events).tracker.complete && Holds(Run(events).tracker, Run(events).held)
    ensures var w := Run(events);
            var n := w.tracker.nonce;
            && n in w.episodeOf && w.episodeOf[n] == w.tracker.episode && n in w.counts
            && forall i :: 0 <= i < w.counts[n] ==> Part(w.held, n, i) in w.applied
  {
    CompleteIsAllTold(events);
    CountedReached(events);
    var w := Run(events);
    forall i | 0 <= i < w.counts[w.tracker.nonce]
      ensures Part(w.held, w.tracker.nonce, i) in w.applied
    {
      assert i in Told(w, w.tracker.nonce);
    }
  }

  /**
   * A read copies the count after the first k events of a run and reads the
   * state after all of them. It says complete if and only if the state then
   * holds the guild copied and every part of the request in flight at the copy
   * had been told of by then; and then the state has held that guild value all
   * along, the request followed the last GUILD_CREATE before the copy, and every
   * one of its parts is in the guild value read.
   */
  lemma CompleteMeansComplete(events: seq<Event>, k: nat)
    requires Feasible(events) && k <= |events| && Feasible(events[..k])
    ensures var w, v := Run(events[..k]), Run(events);
            Answer(CopyCount(w.tracker), true, v.held).status == Complete <==>
            Holds(w.tracker, v.held) && AllTold(w, w.tracker.nonce)
    ensures var w, v := Run(events[..k]), Run(events);
            var n := w.tracker.nonce;
            Answer(CopyCount(w.tracker), true, v.held).status == Complete ==>
            && w.held == v.held
            && n in w.episodeOf && w.episodeOf[n] == w.tracker.episode && n in v.counts
            && forall i :: 0 <= i < v.counts[n] ==> Part(v.held, n, i) in v.applied
  {
    var w, v := Run(events[..k]), Run(events);
    CompleteIsAllTold(events[..k]);
    StillAskingReached(events[..k]);
    GrowsLater(events, k);
    hide Feasible, Run, AllTold;
    if Holds(w.tracker, v.held) && w.tracker.complete {
      CompleteIsApplied(events[..k]);
    }
  }

  /**
   * A read that says complete is of the tracker's own list when it returns if
   * and only if no handler of the guild's GUILD_CREATE ran between its sections;
   * then that list is complete still, else the tracker is at a later request.
   */
  lemma CompleteStaysCurrent(events: seq<Event>, k: nat)
    requires Feasible(events) && k <= |events| && Feasible(events[..k])
    requires Answer(CopyCount(Run(events[..k]).tracker), true, Run(events).held).status == Complete
    ensures var t, s := Run(events[..k]).tracker, Run(events).tracker;
            && (NoneCreated(events, k) <==> s.nonce == t.nonce)
            && (NoneCreated(events, k) ==> s.complete && s.guild == t.guild)
            && (!NoneCreated(events, k) ==> s.nonce > t.nonce)
  {
    GrowsLater(events, k);
    CountedReached(events[..k]);
    CountedReached(events);
    hide Feasible, Run, NoneCreated;
  }

  lemma RunNext(events: seq<Event>, k: nat)
    requires k < |events| && Feasible(events[..k]) && Possible(Run(events[..k]), events[k])
    ensures Feasible(events[..k + 1]) && Run(events[..k + 1]) == Next(Run(events[..k]), events[k])
  {
    assert events[..k + 1][..k] == events[..k];
  }

  const OVERTAKEN := [StateChanges(Some(1)), Creates(true), PartApplied(1, 0, 1), PartTold(Chunk(true, 1, 0, 1), Some(1)), Creates(true)]

  ghost predicate InFlight(w: World, seen: set<int>, complete: bool) {
    && w.held == Some(1) && w.tracker.guild == Some(1) && w.tracker.requests == w.tracker.nonce == 1
    && w.tracker.seen == seen && w.tracker.complete == complete
  }

  lemma OvertakenAsks()
    ensures Feasible(OVERTAKEN[..2]) && InFlight(Run(OVERTAKEN[..2]), {}, false) && Run(OVERTAKEN[..2]).counts == map[]
  {
    assert OVERTAKEN[..0] == [] && Feasible([]) && Run([]) == START;
    hide Feasible, Run;
    RunNext(OVERTAKEN, 0);
    RunNext(OVERTAKEN, 1);
  }

  lemma OvertakenCompletes()
    ensures Feasible(OVERTAKEN[..4]) && InFlight(Run(OVERTAKEN[..4]), {0}, true)
  {
    OvertakenAsks();
    hide Feasible, Run;
    RunNext(OVERTAKEN, 2);
    assert InFlight(Run(OVERTAKEN[..3]), {}, false);
    ChunkCounts(Run(OVERTAKEN[..3]).tracker, Chunk(true, 1, 0, 1));
    hide ChunkArrived;
    RunNext(OVERTAKEN, 3);
  }

  /** A read whose sections are either side of a GUILD_CREATE's handler says complete of a list the tracker has given up for a new one. */
  lemma OvertakenRead()
    ensures Feasible(OVERTAKEN) && Feasible(OVERTAKEN[..4])
    ensures Answer(CopyCount(Run(OVERTAKEN[..4]).tracker), true, Run(OVERTAKEN).held).status == Complete
    ensures !Run(OVERTAKEN).tracker.complete && Run(OVERTAKEN).tracker.seen == {}
  {
    OvertakenCompletes();
    hide Feasible, Run;
    RunNext(OVERTAKEN, 4);
    assert OVERTAKEN[..5] == OVERTAKEN;
  }

  // ---------------------------------------------------------------------------
  // One entry per member
  // ---------------------------------------------------------------------------

  /** An entry of the state's member list: its user, if it has one, and which entry it is. */
  datatype Member = Member(user: Option<string>, entry: nat)

  /** An entry is kept when it has no user or is the last of its user's. */
  predicate KeptAt(members: seq<Member>, i: nat)
    requires i < |members|
  {
    members[i].user.None? || forall j :: i < j < |members| ==> members[j].user != members[i].user
  }

  /** The entries kept of the first n, in order. */
  function KeptOf(members: seq<Member>, n: nat): seq<Member>
    requires n <= |members|
  {
    if n == 0 then []
    else
      var before := KeptOf(members, n - 1);
      if KeptAt(members, n - 1) then before + [members[n - 1]] else before
  }

  /** A user's entries, in order. */
  function EntriesOf(members: seq<Member>, user: Option<string>): seq<Member> {
    if members == [] then []
    else
      var last := members[|members| - 1];
      var before := EntriesOf(members[..|members| - 1], user);
      if last.user == user then before + [last] else before
  }

  lemma EntriesOfMore(members: seq<Member>, user: Option<string>, m: Member)
    ensures EntriesOf(members + [m], user) == if m.user == user then EntriesOf(members, user) + [m] else EntriesOf(members, user)
  {
    assert (members + [m])[..|members|] == members;
  }

  /** Whether the user has an entry from the n-th on. */
  predicate Later(members: seq<Member>, n: nat, user: Option<string>)
  {
    exists j :: n <= j < |members| && members[j].user == user
  }

  lemma {:induction false} KeptEntries(members: seq<Member>, n: nat, user: Option<string>)
    requires n <= |members|
    ensures EntriesOf(KeptOf(members, n), user) ==
            if user.None? then EntriesOf(members[..n], user)
            else if Later(members, n, user) then []
            else LastOnly(EntriesOf(members[..n], user))
  {
    if n == 0 {
      assert members[..0] == [];
    } else {
      hide EntriesOf;
      var m := members[n - 1];
      KeptEntries(members, n - 1, user);
      assert members[..n] == members[..n - 1] + [m];
      EntriesOfMore(members[..n - 1], user, m);
      EntriesOfMore(KeptOf(members, n - 1), user, m);
      if m.user == user {
        assert Later(members, n - 1, user);
        assert user.Some? ==> (KeptAt(members, n - 1) <==> !Later(members, n, user));
      } else {
        assert Later(members, n - 1, user) <==> Later(members, n, user);
      }
    }
  }

  function LastOnly<T>(s: seq<T>): seq<T> {
    if s == [] then [] else [s[|s| - 1]]
  }

  /** Each user keeps one entry, the last; an entry without a user stays. */
  lemma KeepsLastEntryOfEach(members: seq<Member>, user: Option<string>)
    ensures EntriesOf(KeptOf(members, |members|), user) ==
            if user.None? then EntriesOf(members, user) else LastOnly(EntriesOf(members, user))
  {
    KeptEntries(members, |members|, user);
    assert members[..|members|] == members;
  }

  /** A list in which every entry has a user of its own is kept whole. */
  lemma {:induction false} AllKept(members: seq<Member>, n: nat)
    requires n <= |members| && forall i :: 0 <= i < n ==> KeptAt(members, i)
    ensures KeptOf(members, n) == members[..n]
  {
    if n > 0 {
      AllKept(members, n - 1);
    }
  }

  /** What the first pass knows after n entries: where each user was last seen. */
  ghost predicate LastSeen(members: seq<Member>, n: nat, last: map<string, nat>)
    requires n <= |members|
  {
    && (forall id :: id in last ==> last[id] < n && members[last[id]].user == Some(id))
    && (forall j :: 0 <= j < n && members[j].user.Some? ==> members[j].user.value in last && j <= last[members[j].user.value])
  }

  lemma LastSeenIsKept(members: seq<Member>, last: map<string, nat>, i: nat)
    requires LastSeen(members, |members|, last) && i < |members|
    ensures members[i].user.Some? ==> members[i].user.value in last
    ensures KeptAt(members, i) <==> members[i].user.None? || last[members[i].user.value] == i
  {
    if members[i].user.Some? {
      assert members[last[members[i].user.value]].user == members[i].user;
    }
  }

  /** One key per entry so far: no entry without a user, and no user twice. */
  ghost predicate AllOwn(members: seq<Member>, n: nat, last: map<string, nat>)
    requires n <= |members|
  {
    forall j :: 0 <= j < n ==> members[j].user.Some? && members[j].user.value in last && last[members[j].user.value] == j
  }

  ghost predicate FirstPass(members: seq<Member>, n: nat, last: map<string, nat>)
    requires n <= |members|
  {
    LastSeen(members, n, last) && |last| <= n && (|last| == n ==> AllOwn(members, n, last))
  }

  lemma NothingSeen(members: seq<Member>)
    ensures FirstPass(members, 0, map[])
  {}

  lemma OneMore(last: map<string, nat>, id: string, i: nat)
    ensures |last[id := i]| == |last| + if id in last then 0 else 1
  {
    var next := last[id := i];
    assert next.Keys == last.Keys + {id};
    assert |next| == |next.Keys| && |last| == |last.Keys|;
  }

  lemma LastSeenStep(members: seq<Member>, n: nat, last: map<string, nat>)
    requires n < |members| && LastSeen(members, n, last)
    ensures members[n].user.None? ==> LastSeen(members, n + 1, last)
    ensures members[n].user.Some? ==> LastSeen(members, n + 1, last[members[n].user.value := n])
  {}

  lemma AllOwnStep(members: seq<Member>, n: nat, last: map<string, nat>)
    requires n < |members| && AllOwn(members, n, last) && members[n].user.Some? && members[n].user.value !in last
    ensures AllOwn(members, n + 1, last[members[n].user.value := n])
  {}

  lemma FirstPassStep(members: seq<Member>, n: nat, last: map<string, nat>)
    requires n < |members| && FirstPass(members, n, last)
    ensures members[n].user.None? ==> FirstPass(members, n + 1, last)
    ensures members[n].user.Some? ==> FirstPass(members, n + 1, last[members[n].user.value := n])
  {
    hide LastSeen, AllOwn;
    LastSeenStep(members, n, last);
    if members[n].user.Some? {
      OneMore(last, members[n].user.value, n);
      if members[n].user.value !in last && |last| == n {
        AllOwnStep(members, n, last);
      }
    }
  }

  method KeepLastEntryPerMember(members: seq<Member>) returns (kept: seq<Member>)
    ensures kept == KeptOf(members, |members|)
  {
    hide LastSeen, KeptAt;
    var last: map<string, nat> := map[];
    NothingSeen(members);
    for i := 0 to |members|
      invariant FirstPass(members, i, last)
    {
      FirstPassStep(members, i, last);
      var m := members[i];
      if m.user.Some? {
        last := last[m.user.value := i];
      }
    }
    if |last| == |members| {
      forall i | 0 <= i < |members|
        ensures KeptAt(members, i)
      {
        LastSeenIsKept(members, last, i);
      }
      AllKept(members, |members|);
      assert members[..|members|] == members;
      return members;
    }
    kept := [];
    for i := 0 to |members|
      invariant kept == KeptOf(members, i)
    {
      LastSeenIsKept(members, last, i);
      var m := members[i];
      if m.user.None? || last[m.user.value] == i {
        kept := kept + [m];
      }
    }
  }
}
