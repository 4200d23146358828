/**
 * The one-action-at-a-time rule (commands/foxhole_runtime.go): an action
 * started on the page holds it alone, from its claim until a deferred call gives
 * it back; role-changing commands hold it together, against the page's actions.
 * Each section under the runtime's lock is one step, and each deferred call is
 * one, so that a panic may come anywhere between them.
 */
module FoxholeRules {
  import opened Wrappers

  type Action = nat

  /** What the runtime knows of the action running: its report, 0 until it is written, and who pressed Stop. */
  datatype Running = Running(action: Action, reportID: nat, stopPressedBy: Option<string>)

  datatype Rule = Rule(running: Option<Running>, commands: set<nat>, nextCommand: nat)

  // ---------------------------------------------------------------------------
  // The sections under the lock
  // ---------------------------------------------------------------------------

  predicate Free(r: Rule) {
    r.running.None? && r.commands == {}
  }

  function Claimed(r: Rule, a: Action): Rule {
    if Free(r) then r.(running := Some(Running(a, 0, None))) else r
  }

  function CommandStarted(r: Rule): Rule {
    if r.running.None? then r.(commands := r.commands + {r.nextCommand}, nextCommand := r.nextCommand + 1) else r
  }

  function CommandEnded(r: Rule, key: nat): Rule {
    r.(commands := r.commands - {key})
  }

  function Released(r: Rule): Rule {
    r.(running := None)
  }

  function ReportStarted(r: Rule, reportID: nat): Rule {
    if r.running.Some? then r.(running := Some(r.running.value.(reportID := reportID))) else r
  }

  /** A Stop is for the action the page showed: the one running with that report. */
  predicate Stops(r: Rule, reportID: nat) {
    r.running.Some? && r.running.value.reportID != 0 && r.running.value.reportID == reportID
  }

  function StopPressed(r: Rule, reportID: nat, presser: string): Rule {
    if Stops(r, reportID) && r.running.value.stopPressedBy.None?
    then r.(running := Some(r.running.value.(stopPressedBy := Some(presser))))
    else r
  }

  class FoxholeRuntime {
    var running: Option<Running>
    var commands: set<nat>
    var nextCommand: nat

    ghost function State(): Rule
      reads this
    {
      Rule(running, commands, nextCommand)
    }

    constructor ()
      ensures State() == Rule(None, {}, 0)
    {
      running, commands, nextCommand := None, {}, 0;
    }

    method Claim(a: Action) returns (ok: bool)
      modifies `running
      ensures State() == Claimed(old(State()), a) && (ok <==> Free(old(State())))
    {
      if running.Some? || |commands| > 0 {
        return false;
      }
      running := Some(Running(a, 0, None));
      return true;
    }

    method Started(reportID: nat)
      requires running.Some?
      modifies `running
      ensures State() == ReportStarted(old(State()), reportID)
    {
      running := Some(running.value.(reportID := reportID));
    }

    /** The key to end the command with, or none when an action runs. */
    method StartCommand() returns (key: Option<nat>)
      modifies `commands, `nextCommand
      ensures State() == CommandStarted(old(State()))
      ensures key == if old(running).Some? then None else Some(old(nextCommand))
    {
      if running.Some? {
        return None;
      }
      key := Some(nextCommand);
      commands := commands + {nextCommand};
      nextCommand := nextCommand + 1;
    }

    method EndCommand(key: nat)
      modifies `commands
      ensures State() == CommandEnded(old(State()), key)
    {
      commands := commands - {key};
    }

    method Stop(reportID: nat, presser: string) returns (stopped: bool)
      modifies `running
      ensures State() == StopPressed(old(State()), reportID, presser) && (stopped <==> Stops(old(State()), reportID))
    {
      if running.None? || running.value.reportID == 0 || running.value.reportID != reportID {
        return false;
      }
      if running.value.stopPressedBy.None? {
        running := Some(running.value.(stopPressedBy := Some(presser)));
      }
      return true;
    }

    method Release()
      modifies `running
      ensures State() == Released(old(State()))
    {
      running := None;
    }
  }

  // ---------------------------------------------------------------------------
  // Threads and their deferred calls
  // ---------------------------------------------------------------------------

  /**
   * The deferred calls: the run's recover, giving the rule back, the run's end
   * of its report, and what the start does unless its action was handed on.
   */
  datatype Deferred = Recover | GiveBack | EndReport | CleanUp

  /** The deferred calls still to run, the one to run first on top. */
  datatype Stack = Done | Push(top: Deferred, below: Stack)

  datatype Place = Body | Unwinding | EndWriting

  /** A goroutine on an action's behalf. */
  datatype Thread = Thread(place: Place, defers: Stack, panicking: bool)

  datatype Runner = Starter | Worker

  /** An action's start, its run once it is handed on, and the start's two variables. */
  datatype Threads = Threads(start: Thread, run: Option<Thread>, written: bool, handed: bool)

  /** The rule, each action that ever claimed it, each command running, and every release made, by its maker. */
  datatype World = World(rule: Rule, actions: map<Action, Threads>, callers: set<nat>, releases: seq<Action>)

  datatype Event =
    | Claims(action: Action)
    | Refused(action: Action)
    | WritesReport(action: Action, reportID: nat)
    | Hands(action: Action)
    | Leaves(action: Action, runner: Runner, panics: bool)
    | RunsDeferred(action: Action, runner: Runner)
    | EndWriteReturns(action: Action, runner: Runner)
    | EndWritePanics(action: Action, runner: Runner)
    | CommandStarts
    | CommandRefused
    | CommandEnds(key: nat)
    | PressesStop(reportID: nat, presser: string)

  const IDLE := World(Rule(None, {}, 0), map[], {}, [])
  const TO_RECOVER := Push(Recover, Done)
  const TO_GIVE_BACK := Push(GiveBack, TO_RECOVER)
  const TO_END := Push(EndReport, TO_GIVE_BACK)
  const STARTING := Threads(Thread(Body, Push(CleanUp, Done), false), None, false, false)

  predicate OfThreads(e: Event) {
    e.WritesReport? || e.Hands? || e.Leaves? || e.RunsDeferred? || e.EndWriteReturns? || e.EndWritePanics?
  }

  predicate Runs(ts: Threads, runner: Runner) {
    runner.Worker? ==> ts.run.Some?
  }

  function Of(ts: Threads, runner: Runner): Thread
    requires Runs(ts, runner)
  {
    if runner.Starter? then ts.start else ts.run.value
  }

  function Put(ts: Threads, runner: Runner, t: Thread): Threads {
    if runner.Starter? then ts.(start := t) else ts.(run := Some(t))
  }

  /** The start returns with its report written only once it has handed the action on; a panic may come anywhere. */
  predicate Able(ts: Threads, e: Event)
    requires OfThreads(e)
  {
    match e
    case WritesReport(_, reportID) => ts.start.place.Body? && !ts.written && reportID != 0
    case Hands(_) => ts.start.place.Body? && ts.written && !ts.handed
    case Leaves(_, runner, panics) =>
      && Runs(ts, runner)
      && Of(ts, runner).place.Body?
      && (runner.Starter? && ts.written && !ts.handed ==> panics)
    case RunsDeferred(_, runner) => Runs(ts, runner) && Of(ts, runner).place.Unwinding? && Of(ts, runner).defers.Push?
    case _ => Runs(ts, e.runner) && Of(ts, e.runner).place.EndWriting?
  }

  /** The top deferred call comes off and runs; the clean-up defers a release of its own before it ends the report. */
  function RunDeferred(ts: Threads, t: Thread): Thread
    requires t.defers.Push?
  {
    match t.defers.top
    case Recover => t.(defers := t.defers.below, panicking := false)
    case GiveBack => t.(defers := t.defers.below)
    case EndReport => t.(defers := t.defers.below, place := EndWriting)
    case CleanUp =>
      if ts.handed then t.(defers := t.defers.below)
      else t.(defers := Push(GiveBack, t.defers.below), place := if ts.written then EndWriting else Unwinding)
  }

  function Advance(ts: Threads, e: Event): Threads
    requires OfThreads(e) && Able(ts, e)
  {
    match e
    case WritesReport(_, _) => ts.(written := true)
    case Hands(_) => ts.(handed := true, run := Some(Thread(Body, TO_END, false)))
    case Leaves(_, runner, panics) => Put(ts, runner, Of(ts, runner).(place := Unwinding, panicking := panics))
    case RunsDeferred(_, runner) => Put(ts, runner, RunDeferred(ts, Of(ts, runner)))
    case EndWriteReturns(_, runner) => Put(ts, runner, Of(ts, runner).(place := Unwinding))
    case EndWritePanics(_, runner) => Put(ts, runner, Of(ts, runner).(place := Unwinding, panicking := true))
  }

  predicate GivesBack(ts: Threads, e: Event)
    requires OfThreads(e) && Able(ts, e)
  {
    e.RunsDeferred? && Of(ts, e.runner).defers.top.GiveBack?
  }

  predicate Possible(w: World, e: Event) {
    match e
    case Claims(a) => a !in w.actions && Free(w.rule)
    case Refused(a) => a !in w.actions && !Free(w.rule)
    case CommandStarts => w.rule.running.None?
    case CommandRefused => w.rule.running.Some?
    case CommandEnds(key) => key in w.callers
    case PressesStop(_, _) => true
    case _ => e.action in w.actions && Able(w.actions[e.action], e)
  }

  function Next(w: World, e: Event): World
    requires Possible(w, e)
  {
    match e
    case Claims(a) => w.(rule := Claimed(w.rule, a), actions := w.actions[a := STARTING])
    case Refused(_) => w.(rule := Claimed(w.rule, e.action))
    case CommandStarts => w.(rule := CommandStarted(w.rule), callers := w.callers + {w.rule.nextCommand})
    case CommandRefused => w.(rule := CommandStarted(w.rule))
    case CommandEnds(key) => w.(rule := CommandEnded(w.rule, key), callers := w.callers - {key})
    case PressesStop(reportID, presser) => w.(rule := StopPressed(w.rule, reportID, presser))
    case _ => Advanced(w, e)
  }

  function Advanced(w: World, e: Event): World
    requires OfThreads(e) && e.action in w.actions && Able(w.actions[e.action], e)
  {
    var ts := w.actions[e.action];
    w.(actions := w.actions[e.action := Advance(ts, e)],
       rule := if GivesBack(ts, e) then Released(w.rule) else if e.WritesReport? then ReportStarted(w.rule, e.reportID) else w.rule,
       releases := if GivesBack(ts, e) then w.releases + [e.action] else w.releases)
  }

  predicate Feasible(events: seq<Event>)
    decreases |events|, 0
  {
    events == [] || (Feasible(events[..|events| - 1]) && Possible(Run(events[..|events| - 1]), events[|events| - 1]))
  }

  function Run(events: seq<Event>): World
    requires Feasible(events)
    decreases |events|, 1
  {
    if events == [] then IDLE else Next(Run(events[..|events| - 1]), events[|events| - 1])
  }

  // ---------------------------------------------------------------------------
  // One action at a time, each claim given back once
  // ---------------------------------------------------------------------------

  predicate Pending(d: Deferred, defers: Stack) {
    defers.Push? && (defers.top == d || Pending(d, defers.below))
  }

  /** The action has the rule still to give back. */
  predicate Owes(ts: Threads) {
    if ts.handed then ts.run.Some? && Pending(GiveBack, ts.run.value.defers)
    else Pending(CleanUp, ts.start.defers) || Pending(GiveBack, ts.start.defers)
  }

  predicate Live(w: World, a: Action) {
    a in w.actions && Owes(w.actions[a])
  }

  /** The thread that ends the action's report has done so, or has panicked doing it. */
  predicate PastEndWrite(ts: Threads) {
    && ts.written
    && if ts.handed then ts.run.Some? && !Pending(EndReport, ts.run.value.defers) && !ts.run.value.place.EndWriting?
       else !Pending(CleanUp, ts.start.defers) && !ts.start.place.EndWriting?
  }

  /** Where a start can be. */
  predicate StartShape(ts: Threads) {
    match ts.start.place
    case Body => ts.start.defers == Push(CleanUp, Done)
    case EndWriting => ts.start.defers == Push(GiveBack, Done) && ts.written && !ts.handed
    case Unwinding =>
      || ts.start.defers == Push(CleanUp, Done)
      || (ts.start.defers == Push(GiveBack, Done) && !ts.handed)
      || ts.start.defers == Done
  }

  /** Where a run can be; past its recover it is not panicking. */
  predicate RunShape(t: Thread) {
    match t.place
    case Body => t.defers == TO_END
    case EndWriting => t.defers == TO_GIVE_BACK
    case Unwinding => t.defers == TO_END || t.defers == TO_GIVE_BACK || t.defers == TO_RECOVER || (t.defers == Done && !t.panicking)
  }

  predicate Shaped(ts: Threads) {
    && StartShape(ts)
    && (ts.handed <==> ts.run.Some?)
    && (ts.handed ==> ts.written && RunShape(ts.run.value))
  }

  lemma PendingInRun()
    ensures Pending(GiveBack, TO_END) && Pending(EndReport, TO_END)
    ensures Pending(GiveBack, TO_GIVE_BACK) && !Pending(EndReport, TO_GIVE_BACK)
    ensures !Pending(GiveBack, TO_RECOVER) && !Pending(EndReport, TO_RECOVER)
  {
    assert forall d :: !Pending(d, Done);
    assert forall d :: Pending(d, TO_RECOVER) <==> d == Recover;
    assert forall d :: Pending(d, TO_GIVE_BACK) <==> d == Recover || d == GiveBack;
  }

  /** Only giving the rule back ends what is owed, and only the end write puts an action past it, once. */
  lemma AdvanceKeeps(ts: Threads, e: Event)
    requires Shaped(ts) && OfThreads(e) && Able(ts, e)
    ensures Shaped(Advance(ts, e))
    ensures Owes(Advance(ts, e)) <==> Owes(ts) && !GivesBack(ts, e)
    ensures GivesBack(ts, e) ==> Owes(ts)
    ensures PastEndWrite(Advance(ts, e)) <==> PastEndWrite(ts) || e.EndWriteReturns? || e.EndWritePanics?
    ensures e.EndWriteReturns? || e.EndWritePanics? ==> !PastEndWrite(ts)
    ensures Advance(ts, e).written <==> ts.written || e.WritesReport?
    ensures e.WritesReport? ==> Owes(ts)
  {
    PendingInRun();
  }

  /** The rule is given back past the end write, where there is a report to end. */
  lemma ReleaseIsPast(ts: Threads, e: Event)
    requires Shaped(ts) && OfThreads(e) && Able(ts, e) && GivesBack(ts, e)
    ensures ts.written ==> PastEndWrite(ts)
  {
    PendingInRun();
  }

  /** An action owes the rule just while the rule names it, and has given it back once when it owes it no more. */
  ghost predicate ActionHolds(w: World, a: Action) {
    && (a in w.actions ==> Shaped(w.actions[a]) && (Owes(w.actions[a]) || !w.actions[a].written || PastEndWrite(w.actions[a])))
    && (Live(w, a) <==> w.rule.running.Some? && w.rule.running.value.action == a)
    && multiset(w.releases)[a] == if a in w.actions && !Live(w, a) then 1 else 0
  }

  ghost predicate Holds(w: World) {
    && (forall a :: ActionHolds(w, a))
    && w.callers == w.rule.commands
    && (w.rule.running.Some? ==> w.rule.commands == {})
    && (forall key :: key in w.rule.commands ==> key < w.rule.nextCommand)
  }

  lemma ActionKept(w: World, e: Event, a: Action)
    requires Holds(w) && Possible(w, e)
    ensures ActionHolds(Next(w, e), a)
  {
    hide Able, Advance, Shaped, Owes, PastEndWrite, GivesBack, Holds, Pending;
    ActionOf(w, a);
    StartingOwes();
    if OfThreads(e) {
      ActionOf(w, e.action);
      AdvanceKeeps(w.actions[e.action], e);
      if GivesBack(w.actions[e.action], e) {
        ReleaseIsPast(w.actions[e.action], e);
      }
      PastStaysPast(w.actions[e.action], e);
      AdvancedKeeps(w, e, a);
    } else {
      hide Advanced;
    }
  }

  lemma ActionOf(w: World, a: Action)
    requires Holds(w)
    ensures ActionHolds(w, a)
  {}

  lemma PastStaysPast(ts: Threads, e: Event)
    requires Shaped(ts) && OfThreads(e) && Able(ts, e) && (Owes(ts) || !ts.written || PastEndWrite(ts))
    ensures var n := Advance(ts, e); Owes(n) || !n.written || PastEndWrite(n)
  {
    AdvanceKeeps(ts, e);
    if GivesBack(ts, e) {
      ReleaseIsPast(ts, e);
    }
    hide Advance, Able, Shaped, Owes, PastEndWrite, GivesBack;
  }

  /** An action's own step, with what it keeps, or another's. */
  lemma AdvancedKeeps(w: World, e: Event, a: Action)
    requires OfThreads(e) && e.action in w.actions && Able(w.actions[e.action], e)
    requires ActionHolds(w, a) && ActionHolds(w, e.action)
    requires var ts, n := w.actions[e.action], Advance(w.actions[e.action], e);
             && Shaped(n) && (Owes(n) <==> Owes(ts) && !GivesBack(ts, e)) && (GivesBack(ts, e) ==> Owes(ts))
             && (Owes(n) || !n.written || PastEndWrite(n)) && (e.WritesReport? ==> Owes(ts))
    ensures ActionHolds(Advanced(w, e), a)
  {
    hide Able, Advance, Shaped, Owes, PastEndWrite, GivesBack;
  }

  lemma StartingOwes()
    ensures Shaped(STARTING) && Owes(STARTING)
  {
  }

  lemma HoldsKept(w: World, e: Event)
    requires Holds(w) && Possible(w, e)
    ensures Holds(Next(w, e))
  {
    forall a
      ensures ActionHolds(Next(w, e), a)
    {
      ActionKept(w, e, a);
    }
    if OfThreads(e) {
      assert ActionHolds(w, e.action);
      AdvanceKeeps(w.actions[e.action], e);
    }
    hide Able, Advance, Shaped, Owes, PastEndWrite, GivesBack, ActionHolds;
  }

  lemma {:induction false} HoldsReached(events: seq<Event>)
    requires Feasible(events)
    ensures Holds(Run(events))
    decreases |events|
  {
    if events != [] {
      HoldsReached(events[..|events| - 1]);
      HoldsKept(Run(events[..|events| - 1]), events[|events| - 1]);
    }
  }

  /** Over any run, two actions never have the rule at once, nor an action beside a command. */
  lemma ActionsRunAlone(events: seq<Event>, a: Action)
    requires Feasible(events) && Live(Run(events), a)
    ensures forall b :: Live(Run(events), b) ==> b == a
    ensures Run(events).callers == {}
  {
    HoldsReached(events);
    var w := Run(events);
    assert ActionHolds(w, a);
    forall b | Live(w, b)
      ensures b == a
    {
      assert ActionHolds(w, b);
    }
  }

  /** Both the start and the run, if there is one, have run every deferred call. */
  predicate Over(ts: Threads) {
    ts.start.defers.Done? && (ts.run.Some? ==> ts.run.value.defers.Done?)
  }

  /**
   * Over any run of errors and panics, a claim is given back at most once, by
   * the action that made it, and exactly once when both its threads are over; no
   * panic leaves the run's goroutine.
   */
  lemma ClaimsReleasedOnce(events: seq<Event>, a: Action)
    requires Feasible(events) && a in Run(events).actions
    ensures var w := Run(events);
            var ts := w.actions[a];
            && multiset(w.releases)[a] == (if Live(w, a) then 0 else 1)
            && (Live(w, a) ==> w.rule.running.Some? && w.rule.running.value.action == a)
            && (Over(ts) ==> !Live(w, a))
            && (Over(ts) && ts.run.Some? ==> !ts.run.value.panicking)
  {
    HoldsReached(events);
    assert ActionHolds(Run(events), a);
  }

  // ---------------------------------------------------------------------------
  // Every start and every run comes to its end
  // ---------------------------------------------------------------------------

  /** The steps the deferred calls take: the end of a report is sent and answered, and the clean-up defers one more. */
  function StackWork(defers: Stack): nat {
    match defers
    case Done => 0
    case Push(top, below) => StackWork(below) + (match top case Recover => 1 case GiveBack => 1 case EndReport => 2 case CleanUp => 3)
  }

  function ThreadWork(t: Thread): nat {
    StackWork(t.defers) + if t.place.Unwinding? then 0 else 1
  }

  /** The most steps an action's goroutines still take, the run to come included. */
  function Work(ts: Threads): nat {
    ThreadWork(ts.start) + (if ts.written then 0 else 1) + (if ts.handed then 0 else 6) + (if ts.run.Some? then ThreadWork(ts.run.value) else 0)
  }

  lemma StepsShrink(ts: Threads, e: Event)
    requires Shaped(ts) && OfThreads(e) && Able(ts, e)
    ensures Work(Advance(ts, e)) < Work(ts)
  {}

  lemma FewSteps(ts: Threads)
    requires Shaped(ts)
    ensures Work(ts) <= 11
  {}

  /** What a goroutine with deferred calls to run does next, if no panic comes. */
  function NextStep(a: Action, runner: Runner, t: Thread): Event {
    match t.place
    case Body => Leaves(a, runner, true)
    case Unwinding => RunsDeferred(a, runner)
    case EndWriting => EndWriteReturns(a, runner)
  }

  lemma StepToTake(ts: Threads, a: Action)
    requires !Over(ts)
    ensures exists e :: OfThreads(e) && e.action == a && Able(ts, e)
  {
    if ts.start.defers.Push? {
      assert Able(ts, NextStep(a, Starter, ts.start));
    } else {
      assert Able(ts, NextStep(a, Worker, ts.run.value));
    }
  }

  /**
   * After any run, an action whose goroutines are not over has a step to take,
   * and each step leaves them fewer, so the start and the run of every action end
   * within eleven steps of their own whatever errors and panics come.
   */
  lemma GoroutinesEnd(events: seq<Event>, a: Action)
    requires Feasible(events) && a in Run(events).actions
    ensures var w := Run(events);
            && Work(w.actions[a]) <= 11
            && (!Over(w.actions[a]) ==> exists e :: OfThreads(e) && e.action == a && Possible(w, e))
            && forall e :: OfThreads(e) && e.action == a && Possible(w, e) ==> Work(Next(w, e).actions[a]) < Work(w.actions[a])
  {
    HoldsReached(events);
    var w := Run(events);
    ActionOf(w, a);
    hide Feasible, Run, Holds, Work, Over, Shaped, Able, Advance;
    FewSteps(w.actions[a]);
    if !Over(w.actions[a]) {
      StepToTake(w.actions[a], a);
    }
    forall e | OfThreads(e) && e.action == a && Possible(w, e)
      ensures Work(Next(w, e).actions[a]) < Work(w.actions[a])
    {
      StepsShrink(w.actions[a], e);
    }
  }

  /** A panic came in the goroutine's body, or in an end write of its own. */
  predicate PanicHeard(events: seq<Event>, a: Action, runner: Runner) {
    exists i :: 0 <= i < |events| && (events[i] == Leaves(a, runner, true) || events[i] == EndWritePanics(a, runner))
  }

  lemma PanicHeardMore(events: seq<Event>, a: Action, runner: Runner)
    requires events != []
    ensures var rest, e := events[..|events| - 1], events[|events| - 1];
            PanicHeard(events, a, runner) <==> PanicHeard(rest, a, runner) || e == Leaves(a, runner, true) || e == EndWritePanics(a, runner)
  {
    var rest := events[..|events| - 1];
    assert forall i :: 0 <= i < |rest| ==> rest[i] == events[i];
  }

  /** A goroutine is panicking just when it panicked, and in the run until its recover. */
  predicate PanickingAsHeard(ts: Threads, started: bool, worked: bool) {
    && (ts.start.panicking <==> started) && (ts.start.place.Body? ==> !started)
    && (if ts.run.Some? then (ts.run.value.panicking <==> worked && ts.run.value.defers.Push?) && (ts.run.value.place.Body? ==> !worked)
        else !worked)
  }

  lemma PanicsStep(ts: Threads, e: Event, started: bool, worked: bool)
    requires Shaped(ts) && OfThreads(e) && Able(ts, e) && PanickingAsHeard(ts, started, worked)
    ensures PanickingAsHeard(Advance(ts, e),
                             started || e == Leaves(e.action, Starter, true) || e == EndWritePanics(e.action, Starter),
                             worked || e == Leaves(e.action, Worker, true) || e == EndWritePanics(e.action, Worker))
  {}

  lemma {:induction false} NothingHeardBefore(events: seq<Event>, a: Action, runner: Runner)
    requires Feasible(events) && a !in Run(events).actions
    ensures !PanicHeard(events, a, runner)
    decreases |events|
  {
    if events != [] {
      NothingHeardBefore(events[..|events| - 1], a, runner);
      PanicHeardMore(events, a, runner);
      hide PanicHeard, Advance, Able;
    }
  }

  /**
   * Over any run, a panic of an action's start leaves the start, the report ended
   * and the rule given back on its way, and one of its run stops at the run's
   * recover.
   */
  lemma {:induction false} PanicsGoTheirWay(events: seq<Event>, a: Action)
    requires Feasible(events) && a in Run(events).actions
    ensures PanickingAsHeard(Run(events).actions[a], PanicHeard(events, a, Starter), PanicHeard(events, a, Worker))
    decreases |events|
  {
    var rest, e := events[..|events| - 1], events[|events| - 1];
    var w := Run(rest);
    PanicHeardMore(events, a, Starter);
    PanicHeardMore(events, a, Worker);
    assert Possible(w, e) && Run(events) == Next(w, e);
    if a !in w.actions {
      NothingHeardBefore(rest, a, Starter);
      NothingHeardBefore(rest, a, Worker);
    } else {
      HoldsReached(rest);
      ActionOf(w, a);
      PanicsGoTheirWay(rest, a);
      if OfThreads(e) && e.action == a {
        PanicsStep(w.actions[a], e, PanicHeard(rest, a, Starter), PanicHeard(rest, a, Worker));
      }
    }
    hide PanicHeard, Feasible, Run, Holds, Advance, Able, Shaped, Owes;
  }

  // ---------------------------------------------------------------------------
  // The end write before the release
  // ---------------------------------------------------------------------------

  predicate WroteReport(events: seq<Event>, a: Action) {
    exists i :: 0 <= i < |events| && events[i].WritesReport? && events[i].action == a
  }

  predicate EndReturned(events: seq<Event>, a: Action) {
    exists i :: 0 <= i < |events| && events[i].EndWriteReturns? && events[i].action == a
  }

  predicate EndPanicked(events: seq<Event>, a: Action) {
    exists i :: 0 <= i < |events| && events[i].EndWritePanics? && events[i].action == a
  }

  ghost predicate Logged(events: seq<Event>, w: World, a: Action) {
    && (WroteReport(events, a) <==> a in w.actions && w.actions[a].written)
    && (EndReturned(events, a) || EndPanicked(events, a) <==> a in w.actions && PastEndWrite(w.actions[a]))
    && !(EndReturned(events, a) && EndPanicked(events, a))
  }

  lemma LogMore(rest: seq<Event>, e: Event, a: Action)
    ensures WroteReport(rest + [e], a) <==> WroteReport(rest, a) || (e.WritesReport? && e.action == a)
    ensures EndReturned(rest + [e], a) <==> EndReturned(rest, a) || (e.EndWriteReturns? && e.action == a)
    ensures EndPanicked(rest + [e], a) <==> EndPanicked(rest, a) || (e.EndWritePanics? && e.action == a)
  {
    var events := rest + [e];
    assert forall i :: 0 <= i < |rest| ==> events[i] == rest[i];
    assert events[|rest|] == e;
  }

  lemma {:induction false} LoggedReached(events: seq<Event>, a: Action)
    requires Feasible(events)
    ensures Logged(events, Run(events), a)
    decreases |events|
  {
    if events != [] {
      var rest, e := events[..|events| - 1], events[|events| - 1];
      var w := Run(rest);
      LoggedReached(rest, a);
      HoldsReached(rest);
      LogMore(rest, e, a);
      assert rest + [e] == events;
      if OfThreads(e) {
        assert ActionHolds(w, e.action);
        AdvanceKeeps(w.actions[e.action], e);
      }
      hide WroteReport, EndReturned, EndPanicked, Holds, Able, Advance, Shaped, Owes, GivesBack, ActionHolds;
    }
  }

  /**
   * Over any run, an action that wrote a report and has given the rule back has
   * tried its end write once: it returned, or it panicked, and the rule was given
   * back without a return if and only if it panicked. An action with no report
   * has no end write at all.
   */
  lemma ReleasedAfterEndWrite(events: seq<Event>, a: Action)
    requires Feasible(events) && a in Run(events).actions && !Live(Run(events), a)
    ensures WroteReport(events, a) ==> (!EndReturned(events, a) <==> EndPanicked(events, a))
    ensures !WroteReport(events, a) ==> !EndReturned(events, a) && !EndPanicked(events, a)
  {
    HoldsReached(events);
    assert ActionHolds(Run(events), a);
    LoggedReached(events, a);
  }

  lemma RunNext(events: seq<Event>, k: nat)
    requires k < |events| && Feasible(events[..k]) && Possible(Run(events[..k]), events[k])
    ensures Feasible(events[..k + 1]) && Run(events[..k + 1]) == Next(Run(events[..k]), events[k])
  {
    assert events[..k + 1][..k] == events[..k];
  }

  const PANICKED := [Claims(0), WritesReport(0, 1), Hands(0), Leaves(0, Worker, false), RunsDeferred(0, Worker),
                     EndWritePanics(0, Worker), RunsDeferred(0, Worker)]

  predicate Handed(w: World, run: Thread) {
    && w.actions.Keys == {0}
    && w.actions[0] == Threads(STARTING.start, Some(run), true, true)
    && w.rule.commands == {}
  }

  lemma HandedRun()
    ensures Feasible(PANICKED[..3]) && Handed(Run(PANICKED[..3]), Thread(Body, TO_END, false))
  {
    assert PANICKED[..0] == [] && Feasible([]) && Run([]) == IDLE;
    hide Feasible, Run;
    RunNext(PANICKED, 0);
    RunNext(PANICKED, 1);
    RunNext(PANICKED, 2);
  }

  lemma PanickedRun()
    ensures Feasible(PANICKED) && Handed(Run(PANICKED), Thread(Unwinding, TO_RECOVER, true)) && Run(PANICKED).rule.running.None?
  {
    HandedRun();
    hide Feasible, Run;
    RunNext(PANICKED, 3);
    RunNext(PANICKED, 4);
    RunNext(PANICKED, 5);
    RunNext(PANICKED, 6);
    assert PANICKED[..7] == PANICKED;
  }

  /** A run whose end write panics gives the rule back with its report not ended, and the next action may start. */
  lemma PanickedEndGivesBack()
    ensures Feasible(PANICKED) && 0 in Run(PANICKED).actions && WroteReport(PANICKED, 0) && !EndReturned(PANICKED, 0)
    ensures !Live(Run(PANICKED), 0) && Possible(Run(PANICKED), Claims(1))
  {
    PanickedRun();
    hide Feasible, Run;
    PendingInRun();
    assert PANICKED[1].WritesReport?;
  }

  // ---------------------------------------------------------------------------
  // The report that runs, and who stopped it
  // ---------------------------------------------------------------------------

  /** The report the action wrote. */
  function ReportOf(events: seq<Event>, a: Action): Option<nat>
    decreases |events|
  {
    if events == [] then None
    else
      var e := events[|events| - 1];
      if e.WritesReport? && e.action == a then Some(e.reportID) else ReportOf(events[..|events| - 1], a)
  }

  /** The first to press the Stop of the action's report. */
  function FirstPresser(events: seq<Event>, a: Action): Option<string>
    decreases |events|
  {
    if events == [] then None
    else
      var rest, e := events[..|events| - 1], events[|events| - 1];
      if FirstPresser(rest, a).Some? then FirstPresser(rest, a)
      else if e.PressesStop? && ReportOf(rest, a) == Some(e.reportID) then Some(e.presser)
      else None
  }

  lemma {:induction false} NoReportYet(events: seq<Event>, a: Action)
    requires Feasible(events) && a !in Run(events).actions
    ensures ReportOf(events, a) == None && FirstPresser(events, a) == None
    decreases |events|
  {
    if events != [] {
      hide Possible;
      var rest := events[..|events| - 1];
      ActionsStay(Run(rest), events[|events| - 1], a);
      NoReportYet(rest, a);
    }
  }

  lemma ActionsStay(w: World, e: Event, a: Action)
    requires Possible(w, e) && a !in Next(w, e).actions
    ensures a !in w.actions && !(e.WritesReport? && e.action == a)
  {
    hide Able, GivesBack, Advance;
  }

  ghost predicate RunningIs(events: seq<Event>, r: Rule) {
    r.running.Some? ==>
      var running := r.running.value;
      && running.reportID == (if ReportOf(events, running.action).Some? then ReportOf(events, running.action).value else 0)
      && running.stopPressedBy == FirstPresser(events, running.action)
      && (ReportOf(events, running.action).Some? ==> ReportOf(events, running.action).value != 0)
  }

  lemma RunningNext(rest: seq<Event>, w: World, e: Event)
    requires Holds(w) && Possible(w, e) && RunningIs(rest, w.rule)
    requires e.Claims? ==> ReportOf(rest, e.action) == None && FirstPresser(rest, e.action) == None
    ensures RunningIs(rest + [e], Next(w, e).rule)
  {
    assert (rest + [e])[..|rest|] == rest;
    if OfThreads(e) {
      ActionOf(w, e.action);
      AdvanceKeeps(w.actions[e.action], e);
      hide Able, Advance, Shaped, Owes, PastEndWrite, GivesBack, Holds;
    }
  }

  lemma {:induction false} RunningReached(events: seq<Event>)
    requires Feasible(events)
    ensures RunningIs(events, Run(events).rule)
    decreases |events|
  {
    if events != [] {
      hide RunningIs, Next, Possible, Holds;
      var rest, e := events[..|events| - 1], events[|events| - 1];
      assert rest + [e] == events;
      RunningReached(rest);
      HoldsReached(rest);
      if e.Claims? {
        ClaimsAfresh(Run(rest), e);
        NoReportYet(rest, e.action);
      }
      RunningNext(rest, Run(rest), e);
    }
  }

  lemma ClaimsAfresh(w: World, e: Event)
    requires Possible(w, e) && e.Claims?
    ensures e.action !in w.actions
  {}

  /**
   * Over any run, the rule names the running action's report once it is written,
   * and its Stop is the first presser's of that report's.
   */
  lemma StopIsTheFirstPressers(events: seq<Event>)
    requires Feasible(events) && Run(events).rule.running.Some?
    ensures var running := Run(events).rule.running.value;
            && running.reportID == (if ReportOf(events, running.action).Some? then ReportOf(events, running.action).value else 0)
            && running.stopPressedBy == FirstPresser(events, running.action)
  {
    RunningReached(events);
  }

  /** A command runs beside others, and an action takes the rule as soon as neither runs. */
  lemma TheRuleIsTakenWhenFree(events: seq<Event>, a: Action)
    requires Feasible(events) && a !in Run(events).actions
    ensures var w := Run(events);
            && (Possible(w, CommandStarts) <==> forall b :: !Live(w, b))
            && (Possible(w, CommandStarts) ==> w.rule.nextCommand !in w.callers
                                                && Next(w, CommandStarts).callers == w.callers + {w.rule.nextCommand})
            && (Possible(w, Claims(a)) <==> w.callers == {} && forall b :: !Live(w, b))
            && (Possible(w, Claims(a)) ==> Live(Next(w, Claims(a)), a))
  {
    HoldsReached(events);
    var w := Run(events);
    StartingOwes();
    hide Feasible, Run, Owes;
    if w.rule.running.Some? {
      ActionOf(w, w.rule.running.value.action);
    }
    forall b
      ensures Live(w, b) ==> w.rule.running.Some?
    {
      ActionOf(w, b);
    }
  }

  // ---------------------------------------------------------------------------
  // The runtime follows the run
  // ---------------------------------------------------------------------------

  lemma {:induction false} PrefixFeasible(events: seq<Event>, k: nat)
    requires Feasible(events) && k <= |events|
    ensures Feasible(events[..k])
    ensures k < |events| ==> Possible(Run(events[..k]), events[k])
    decreases |events|
  {
    hide Next, Possible;
    if k == |events| {
      assert events[..k] == events;
    } else if k < |events| - 1 {
      PrefixFeasible(events[..|events| - 1], k);
      assert events[..|events| - 1][..k] == events[..k];
    }
  }

  /** The runtime's methods, called as a run's events call them, keep the rule as the run has it. */
  method Replay(events: seq<Event>) returns (runtime: FoxholeRuntime)
    requires Feasible(events)
    ensures fresh(runtime) && runtime.State() == Run(events).rule
  {
    runtime := new FoxholeRuntime();
    var w := IDLE;
    for i := 0 to |events|
      invariant Feasible(events[..i]) && w == Run(events[..i])
      invariant fresh(runtime) && runtime.State() == w.rule
    {
      PrefixFeasible(events, i);
      RunNext(events, i);
      HoldsReached(events[..i]);
      Apply(runtime, w, events[i]);
      w := Next(w, events[i]);
    }
    assert events[..|events|] == events;
  }

  /** What an event's goroutine does under the lock. */
  method Apply(runtime: FoxholeRuntime, w: World, e: Event)
    requires Possible(w, e) && Holds(w) && runtime.State() == w.rule
    modifies runtime
    ensures runtime.State() == Next(w, e).rule
  {
    match e
    case Claims(a) => var _ := runtime.Claim(a);
    case Refused(a) => var _ := runtime.Claim(a);
    case CommandStarts => var _ := runtime.StartCommand();
    case CommandRefused => var _ := runtime.StartCommand();
    case CommandEnds(key) => runtime.EndCommand(key);
    case PressesStop(reportID, presser) => var _ := runtime.Stop(reportID, presser);
    case WritesReport(a, reportID) =>
      assert ActionHolds(w, a);
      AdvanceKeeps(w.actions[a], e);
      runtime.Started(reportID);
    case RunsDeferred(a, _) =>
      if GivesBack(w.actions[a], e) {
        runtime.Release();
      }
    case _ =>
  }
}
