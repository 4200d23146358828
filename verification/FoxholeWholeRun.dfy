/**
 * A Foxhole run from its start to its end (commands/foxhole_runtime.go) when
 * each list it reads is the server's own and Discord makes every change: what it
 * changes, whom it skips and why, and the roles it leaves.
 */
module FoxholeWholeRuns {
  import opened FoxholeRuns
  import opened Wrappers

  // ---------------------------------------------------------------------------
  // A run that nothing goes wrong in
  // ---------------------------------------------------------------------------

  /** The server's own member list. */
  function Shown(server: Server, names: map<Member, string>): List {
    map m | m in server :: Listed(if m in names then names[m] else "", server[m])
  }

  /** The member is in the server, without the role the action gives or with the one it takes. */
  predicate NeedsChange(server: Server, grant: bool, key: Key) {
    key.member in server && (key.role in server[key.member] <==> !grant)
  }

  /** Why a member who needs no change is skipped. */
  function ReasonOf(server: Server, grant: bool, key: Key): SkipReason {
    if key.member !in server then Absent else if grant then Holding else NotHolding
  }

  /** A member's turn over the server's own list, every change accepted and every write committed. */
  function TurnEvents(server: Server, names: map<Member, string>, grant: bool, key: Key): seq<Event> {
    [Reaches(Shown(server, names))] + if NeedsChange(server, grant, key) then [Applies, Answers(Ok), Checkpoints(true)] else [Checkpoints(true)]
  }

  function TurnsOf(start: Start, names: map<Member, string>, n: nat): seq<Event>
    requires n <= |start.plan|
  {
    if n == 0 then []
    else TurnsOf(start, names, n - 1) + TurnEvents(ServerAfter(start, n - 1), names, start.grant, start.plan[n - 1].key)
  }

  function ServerAfter(start: Start, n: nat): Server
    requires n <= |start.plan|
  {
    Uninterrupted(start.server, start.grant, start.plan[..n])
  }

  /** The report after the first n turns. */
  function ReportAfter(start: Start, names: map<Member, string>, n: nat): (r: Report)
    requires n <= |start.plan|
    ensures r.notAttempted == start.plan[n..]
  {
    if n == 0 then NewReport(start.skipped, start.plan)
    else Reach(ReportAfter(start, names, n - 1), start.grant, Shown(ServerAfter(start, n - 1), names), Ok)
  }

  /** Of the first n planned keys those that need the change when they are reached. */
  function Needing(start: Start, n: nat): seq<Key>
    requires n <= |start.plan|
  {
    if n == 0 then []
    else
      var key := start.plan[n - 1].key;
      if NeedsChange(ServerAfter(start, n - 1), start.grant, key) then Needing(start, n - 1) + [key] else Needing(start, n - 1)
  }

  /** The others, each with why it is skipped. */
  function NotNeeding(start: Start, n: nat): seq<(Key, SkipReason)>
    requires n <= |start.plan|
  {
    if n == 0 then []
    else
      var key := start.plan[n - 1].key;
      var server := ServerAfter(start, n - 1);
      if NeedsChange(server, start.grant, key) then NotNeeding(start, n - 1)
      else NotNeeding(start, n - 1) + [(key, ReasonOf(server, start.grant, key))]
  }

  /** The members skipped, each for its reason. */
  ghost predicate SkippedFor(skipped: seq<ReportMember>, reasons: seq<(Key, SkipReason)>) {
    |skipped| == |reasons| && forall i :: 0 <= i < |skipped| ==> skipped[i].key == reasons[i].0 && skipped[i].skip == Some(reasons[i].1)
  }

  lemma SkippedMore(first: seq<ReportMember>, skipped: seq<ReportMember>, reasons: seq<(Key, SkipReason)>, m: ReportMember,
                    key: Key, reason: SkipReason)
    requires first <= skipped && SkippedFor(skipped[|first|..], reasons) && m.key == key && m.skip == Some(reason)
    ensures first <= skipped + [m] && SkippedFor((skipped + [m])[|first|..], reasons + [(key, reason)])
  {
    assert (skipped + [m])[|first|..] == skipped[|first|..] + [m];
  }

  /** What the report says after n turns, by the roles in the server as each member is reached. */
  lemma {:induction false} ReportByRoles(start: Start, names: map<Member, string>, n: nat)
    requires n <= |start.plan|
    ensures var r := ReportAfter(start, names, n);
            && KeysOf(r.changed) == Needing(start, n) && r.failed == []
            && start.skipped <= r.skipped && SkippedFor(r.skipped[|start.skipped|..], NotNeeding(start, n))
  {
    if n == 0 {
      NoKeys();
    } else {
      hide Reach, NeedsChange, ReasonOf, ServerAfter, Shown, KeysOf, SkippedFor;
      ReportByRoles(start, names, n - 1);
      var before := ReportAfter(start, names, n - 1);
      assert before.notAttempted[0] == start.plan[n - 1];
      ReachByRoles(before, start.grant, ServerAfter(start, n - 1), names);
      var after, key := ReportAfter(start, names, n), start.plan[n - 1].key;
      if !NeedsChange(ServerAfter(start, n - 1), start.grant, key) {
        SkippedMore(start.skipped, before.skipped, NotNeeding(start, n - 1), after.skipped[|before.skipped|],
                    key, ReasonOf(ServerAfter(start, n - 1), start.grant, key));
      }
    }
  }

  lemma ReachByRoles(r: Report, grant: bool, server: Server, names: map<Member, string>)
    requires r.notAttempted != []
    ensures var s := Reach(r, grant, Shown(server, names), Ok);
            var key := r.notAttempted[0].key;
            if NeedsChange(server, grant, key)
            then KeysOf(s.changed) == KeysOf(r.changed) + [key] && s.skipped == r.skipped && s.failed == r.failed
            else
              && s.changed == r.changed && s.failed == r.failed
              && |s.skipped| == |r.skipped| + 1 && s.skipped == r.skipped + [s.skipped[|r.skipped|]]
              && s.skipped[|r.skipped|].key == key && s.skipped[|r.skipped|].skip == Some(ReasonOf(server, grant, key))
  {}

  /** The process before a member, its report written. */
  function Standing(server: Server, r: Report): World {
    World(server, map[0 := Stored(r, true)], Some(Run(0, r, Before)), map[])
  }

  lemma RunMore(start: Start, events: seq<Event>, e: Event)
    requires Feasible(start, events) && Possible(RunOf(start, events), start.grant, start.Planned(), e)
    ensures Feasible(start, events + [e])
    ensures RunOf(start, events + [e]) == Next(RunOf(start, events), start.grant, start.Planned(), e)
  {
    assert (events + [e])[..|events|] == events;
  }

  lemma NothingToApply(server: Server, grant: bool, key: Key)
    requires !NeedsChange(server, grant, key)
    ensures Apply(server, grant, key) == server
  {
    if key.member in server {
      assert (if grant then server[key.member] + {key.role} else server[key.member] - {key.role}) == server[key.member];
    }
  }

  lemma ShownIsTrue(server: Server, names: map<Member, string>, grant: bool, planned: set<Key>)
    ensures Truthful(Shown(server, names), server, grant, planned)
  {}

  /** A member's turn, one event after another, from a run that stands before them. */
  lemma TurnSteps(start: Start, server: Server, names: map<Member, string>, r: Report)
    requires r.notAttempted != []
    ensures var list, key, grant, planned := Shown(server, names), r.notAttempted[0].key, start.grant, start.Planned();
            var w := Standing(server, r);
            && Possible(w, grant, planned, Reaches(list))
            && var v := Next(w, grant, planned, Reaches(list));
               if NeedsChange(server, grant, key) then
                 && v == w.(run := Some(Run(0, r, Changing(list, false)))) && Possible(v, grant, planned, Applies)
               else v == w.(run := Some(Run(0, Reach(r, grant, list, Ok), Writing)))
  {
    ShownIsTrue(server, names, start.grant, start.Planned());
    hide Truthful, Reach;
  }

  /** Applied and accepted, the change is written down. */
  lemma ChangeSteps(start: Start, server: Server, list: List, r: Report)
    requires r.notAttempted != []
    ensures var key, grant, planned := r.notAttempted[0].key, start.grant, start.Planned();
            var v := Standing(server, r).(run := Some(Run(0, r, Changing(list, false))));
            && Possible(v, grant, planned, Applies)
            && var u := Next(v, grant, planned, Applies);
               && Possible(u, grant, planned, Answers(Ok))
               && Next(u, grant, planned, Answers(Ok)) ==
                  Standing(Apply(server, grant, key), r).(run := Some(Run(0, Reach(r, grant, list, Ok), Writing)))
  {
    hide Reach, Apply;
  }

  lemma CheckpointSteps(start: Start, server: Server, r: Report, reached: Report)
    ensures var w := Standing(server, r).(run := Some(Run(0, reached, Writing)));
            && Possible(w, start.grant, start.Planned(), Checkpoints(true))
            && Next(w, start.grant, start.Planned(), Checkpoints(true)) == Standing(server, reached)
  {}

  lemma ChangeRuns(start: Start, events: seq<Event>, server: Server, list: List, r: Report)
    requires Feasible(start, events) && r.notAttempted != []
    requires RunOf(start, events) == Standing(server, r).(run := Some(Run(0, r, Changing(list, false))))
    ensures var after := events + [Applies, Answers(Ok), Checkpoints(true)];
            && Feasible(start, after)
            && RunOf(start, after) == Standing(Apply(server, start.grant, r.notAttempted[0].key), Reach(r, start.grant, list, Ok))
  {
    ChangeSteps(start, server, list, r);
    CheckpointSteps(start, Apply(server, start.grant, r.notAttempted[0].key), r, Reach(r, start.grant, list, Ok));
    hide Feasible, RunOf, Possible, Next, Reach, Apply, Standing;
    RunMore(start, events, Applies);
    RunMore(start, events + [Applies], Answers(Ok));
    RunMore(start, events + [Applies] + [Answers(Ok)], Checkpoints(true));
    assert events + [Applies] + [Answers(Ok)] + [Checkpoints(true)] == events + [Applies, Answers(Ok), Checkpoints(true)];
  }

  lemma TurnRuns(start: Start, events: seq<Event>, server: Server, names: map<Member, string>, r: Report)
    requires Feasible(start, events) && RunOf(start, events) == Standing(server, r) && r.notAttempted != []
    ensures var key := r.notAttempted[0].key;
            var after := events + TurnEvents(server, names, start.grant, key);
            && Feasible(start, after)
            && RunOf(start, after) == Standing(Apply(server, start.grant, key), Reach(r, start.grant, Shown(server, names), Ok))
  {
    var key, list := r.notAttempted[0].key, Shown(server, names);
    TurnSteps(start, server, names, r);
    hide Feasible, RunOf, Possible, Next, Reach, Shown, NeedsChange;
    RunMore(start, events, Reaches(list));
    var reached := events + [Reaches(list)];
    if NeedsChange(server, start.grant, key) {
      ChangeRuns(start, reached, server, list, r);
      assert events + TurnEvents(server, names, start.grant, key) == reached + [Applies, Answers(Ok), Checkpoints(true)];
    } else {
      NothingToApply(server, start.grant, key);
      CheckpointSteps(start, server, r, Reach(r, start.grant, list, Ok));
      hide Standing, Apply;
      RunMore(start, reached, Checkpoints(true));
      assert events + TurnEvents(server, names, start.grant, key) == reached + [Checkpoints(true)];
    }
  }

  lemma ServerNext(start: Start, n: nat)
    requires 0 < n <= |start.plan|
    ensures ServerAfter(start, n) == Apply(ServerAfter(start, n - 1), start.grant, start.plan[n - 1].key)
  {
    assert start.plan[..n][..n - 1] == start.plan[..n - 1];
  }

  lemma {:induction false} TurnsRun(start: Start, names: map<Member, string>, n: nat)
    requires n <= |start.plan|
    ensures Feasible(start, TurnsOf(start, names, n))
    ensures RunOf(start, TurnsOf(start, names, n)) == Standing(ServerAfter(start, n), ReportAfter(start, names, n))
  {
    if n == 0 {
      assert start.plan[..0] == [] && start.plan[0..] == start.plan;
    } else {
      ServerNext(start, n);
      hide Feasible, RunOf, TurnEvents, Reach, Apply, Shown, ServerAfter, Standing;
      TurnsRun(start, names, n - 1);
      assert ReportAfter(start, names, n - 1).notAttempted[0] == start.plan[n - 1];
      TurnRuns(start, TurnsOf(start, names, n - 1), ServerAfter(start, n - 1), names, ReportAfter(start, names, n - 1));
    }
  }

  function WholeRun(start: Start, names: map<Member, string>): seq<Event> {
    TurnsOf(start, names, |start.plan|) + [Ends(Done)] + [EndWrite(true, true)]
  }

  /**
   * A run in which each turn's list is the server's own, Discord accepts every
   * change and the store every write can happen, and ends done with the server
   * one uninterrupted run leaves: it changed exactly the planned members who
   * were in the server and not as the action wants them when it reached them,
   * and skipped each other for the reason the server gave then.
   */
  lemma WholeRunReachesTheGoal(start: Start, names: map<Member, string>)
    ensures Feasible(start, WholeRun(start, names))
    ensures var w := RunOf(start, WholeRun(start, names));
            && w.server == Uninterrupted(start.server, start.grant, start.plan)
            && w.run.None? && w.late == map[] && w.reports.Keys == {0} && !w.reports[0].running
            && var r := w.reports[0].report;
               && r.outcome == Some(Done) && r.notAttempted == [] && r.failed == []
               && KeysOf(r.changed) == Needing(start, |start.plan|)
               && start.skipped <= r.skipped && SkippedFor(r.skipped[|start.skipped|..], NotNeeding(start, |start.plan|))
  {
    hide Feasible, RunOf, Uninterrupted, TurnsOf, ReportAfter, Needing, NotNeeding, KeysOf, SkippedFor;
    var n := |start.plan|;
    var turns := TurnsOf(start, names, n);
    TurnsRun(start, names, n);
    ReportByRoles(start, names, n);
    assert start.plan[..n] == start.plan;
    RunMore(start, turns, Ends(Done));
    RunMore(start, turns + [Ends(Done)], EndWrite(true, true));
  }

  // ---------------------------------------------------------------------------
  // A Retry while somebody is left
  // ---------------------------------------------------------------------------

  lemma MissedNeeding(start: Start, server: Server, r: Report, names: map<Member, string>)
    requires Covers(server, start.grant, start.Planned(), r)
    ensures ChangesSomebody(r, start.grant, Shown(server, names)) <==>
            exists key :: key in start.Planned() && NeedsChange(server, start.grant, key)
    ensures ChangesSomebody(r, start.grant, Shown(server, names)) ==> Misses(r) != []
  {
    var list := Shown(server, names);
    if key :| key in start.Planned() && NeedsChange(server, start.grant, key) {
      assert Names(Misses(r), key);
      var i :| 0 <= i < |Misses(r)| && Misses(r)[i].key == key;
      assert !ShownDone(list, start.grant, Misses(r)[i].key);
    }
    if i :| 0 <= i < |Misses(r)| && !ShownDone(list, start.grant, Misses(r)[i].key) {
      assert NeedsChange(server, start.grant, Misses(r)[i].key);
    }
  }

  lemma ReportOfHolds(start: Start, w: World, id: nat)
    requires Holds(start, w) && id in w.reports
    ensures Covers(w.server, start.grant, start.Planned(), w.reports[id].report)
  {
    assert ReportCovers(start, w.server, w.reports, id);
  }

  /**
   * After any run of cut-offs, restarts and retries, a Retry of a stored report
   * over the server's own list starts if and only if no action runs, the report
   * has ended, and some planned member in the server is still not as the action
   * wants them: retries neither get stuck nor run for nobody.
   */
  lemma RetryWhileSomebodyIsLeft(start: Start, events: seq<Event>, id: nat, names: map<Member, string>, newID: nat, answered: bool)
    requires Feasible(start, events)
    requires id in RunOf(start, events).reports && newID !in RunOf(start, events).reports
    ensures var w := RunOf(start, events);
            Possible(w, start.grant, start.Planned(), Retry(id, Shown(w.server, names), newID, answered)) <==>
            && w.run.None? && !w.reports[id].running
            && exists key :: key in start.Planned() && NeedsChange(w.server, start.grant, key)
  {
    HoldsReached(start, events);
    var w := RunOf(start, events);
    hide Feasible, RunOf, Holds, Covers, Shown, NeedsChange, ChangesSomebody, Misses;
    ReportOfHolds(start, w, id);
    MissedNeeding(start, w.server, w.reports[id].report, names);
    ShownIsTrue(w.server, names, start.grant, start.Planned());
    hide Truthful;
  }
}
