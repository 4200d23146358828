/**
 * A Foxhole action's run (commands/foxhole_runtime.go): one role change at a
 * time, each checked against the member list just before, with the report
 * written after each; and what cut-offs, failed writes and retries leave.
 */
module FoxholeRuns {
  import opened Wrappers

  type Member = string
  type Role = string

  datatype Key = Key(member: Member, role: Role)

  datatype Listed = Listed(name: string, roles: set<Role>)

  /** The member list as the action reads it, complete and current. */
  type List = map<Member, Listed>

  datatype SkipReason = NotHolding | Holding | Absent

  datatype ReportMember = ReportMember(key: Key, name: string, skip: Option<SkipReason>, failure: string)

  datatype Outcome = Done | MemberListGone | Stopped | Restart

  datatype Report = Report(changed: seq<ReportMember>, skipped: seq<ReportMember>, failed: seq<ReportMember>,
                           notAttempted: seq<ReportMember>, outcome: Option<Outcome>)

  function Progress(r: Report): (int, int) {
    var done := |r.changed| + |r.skipped| + |r.failed|;
    (done, done + |r.notAttempted|)
  }

  /** The members the action failed on, then those it never attempted. */
  function Misses(r: Report): seq<ReportMember> {
    r.failed + r.notAttempted
  }

  /** Why a run leaves a member as they are, none for a member it changes. */
  function SkipOf(grant: bool, list: List, key: Key): Option<SkipReason> {
    if key.member !in list then Some(Absent)
    else if grant && key.role in list[key.member].roles then Some(Holding)
    else if !grant && key.role !in list[key.member].roles then Some(NotHolding)
    else None
  }

  /** A member under the name the list shows now. */
  function Named(list: List, m: ReportMember): ReportMember {
    if m.key.member in list then m.(name := list[m.key.member].name) else m
  }

  /** What Discord answers a role change. */
  datatype Answer = Ok | Refused(failure: string)

  /** The report after the run has been through its next member. */
  function Reach(r: Report, grant: bool, list: List, answer: Answer): (s: Report)
    requires r.notAttempted != []
    ensures s.notAttempted == r.notAttempted[1..]
  {
    var m := Named(list, r.notAttempted[0]).(skip := SkipOf(grant, list, r.notAttempted[0].key));
    var rest := r.(notAttempted := r.notAttempted[1..]);
    if m.skip.Some? then rest.(skipped := r.skipped + [m])
    else match answer
      case Refused(failure) => rest.(failed := r.failed + [m.(failure := failure)])
      case Ok => rest.(changed := r.changed + [m])
  }

  function NewReport(skipped: seq<ReportMember>, plan: seq<ReportMember>): Report {
    Report([], skipped, [], plan, None)
  }

  // ---------------------------------------------------------------------------
  // The loop over the plan
  // ---------------------------------------------------------------------------

  /** What the run reads before a member: a list it can check them against, or an end. */
  datatype Reading = Ready(list: List) | StopPressed | ListGone

  /** What the pause hears: the Stop, its limit, or a poll's list, none when it is not complete or the bot not connected. */
  datatype Tick = Stop | Limit | Poll(list: Option<List>)

  /** A reading, or a pause that has not ended yet. */
  datatype Awaited = Read(reading: Reading) | Pausing

  /** The tick ends the pause, with what it read. */
  function EndOfPause(tick: Tick): Option<Reading> {
    match tick
    case Stop => Some(StopPressed)
    case Limit => Some(ListGone)
    case Poll(list) => if list.Some? then Some(Ready(list.value)) else None
  }

  /**
   * The read before a member: a Stop pressed by then ends the run, a list that
   * is ready comes back at once, and otherwise the first tick to end the pause
   * decides.
   */
  method AwaitList(stopped: bool, first: Option<List>, ticks: seq<Tick>) returns (awaited: Awaited)
    ensures stopped ==> awaited == Read(StopPressed)
    ensures !stopped && first.Some? ==> awaited == Read(Ready(first.value))
    ensures !stopped && first.None? && awaited.Read? ==>
              exists k :: 0 <= k < |ticks| && EndOfPause(ticks[k]) == Some(awaited.reading) && forall i :: 0 <= i < k ==> EndOfPause(ticks[i]).None?
    ensures awaited.Pausing? ==> forall i :: 0 <= i < |ticks| ==> EndOfPause(ticks[i]).None?
  {
    if stopped {
      return Read(StopPressed);
    }
    if first.Some? {
      return Read(Ready(first.value));
    }
    for i := 0 to |ticks|
      invariant forall j :: 0 <= j < i ==> EndOfPause(ticks[j]).None?
    {
      match ticks[i] {
        case Stop => return Read(StopPressed);
        case Limit => return Read(ListGone);
        case Poll(list) =>
          if list.Some? {
            return Read(Ready(list.value));
          }
      }
    }
    return Pausing;
  }

  /** What one member's turn meets. */
  datatype Turn = Turn(reading: Reading, answer: Answer)

  /** The report after the first n turns. */
  function After(r: Report, grant: bool, turns: nat -> Turn, n: nat): (s: Report)
    requires n <= |r.notAttempted|
    requires forall i :: 0 <= i < n ==> turns(i).reading.Ready?
    ensures s.notAttempted == r.notAttempted[n..]
  {
    if n == 0 then r
    else
      var before := After(r, grant, turns, n - 1);
      Reach(before, grant, turns(n - 1).reading.list, turns(n - 1).answer)
  }

  function KeysOf(members: seq<ReportMember>): seq<Key> {
    seq(|members|, i requires 0 <= i < |members| => members[i].key)
  }

  /**
   * The run's loop: a checkpoint after every member, each the report as far as
   * it has got, and an outcome that is done exactly when nobody is left.
   */
  method ChangeEach(grant: bool, plan: seq<ReportMember>, start: Report, turns: nat -> Turn)
    returns (report: Report, outcome: Outcome, checkpoints: seq<Report>)
    requires start.notAttempted == plan
    ensures |checkpoints| <= |plan|
    ensures forall i :: 0 <= i < |checkpoints| ==> turns(i).reading.Ready?
    ensures forall i :: 0 <= i < |checkpoints| ==> checkpoints[i] == After(start, grant, turns, i + 1)
    ensures report == After(start, grant, turns, |checkpoints|)
    ensures outcome == Done <==> report.notAttempted == []
    ensures outcome != Done ==> outcome == if turns(|checkpoints|).reading.StopPressed? then Stopped else MemberListGone
  {
    hide Reach;
    report := start;
    checkpoints := [];
    for i := 0 to |plan|
      invariant |checkpoints| == i
      invariant forall j :: 0 <= j < i ==> turns(j).reading.Ready?
      invariant forall j :: 0 <= j < i ==> checkpoints[j] == After(start, grant, turns, j + 1)
      invariant report == After(start, grant, turns, i)
    {
      match turns(i).reading {
        case StopPressed =>
          return report, Stopped, checkpoints;
        case ListGone =>
          return report, MemberListGone, checkpoints;
        case Ready(list) =>
          assert plan[i] == report.notAttempted[0];
          report := ReachMember(grant, list, plan[i], report, turns(i).answer);
          checkpoints := checkpoints + [report];
      }
    }
    outcome := Done;
  }

  /** One member's turn: skipped for a reason, or changed as Discord answers. */
  method ReachMember(grant: bool, list: List, p: ReportMember, report: Report, answer: Answer) returns (out: Report)
    requires report.notAttempted != [] && p == report.notAttempted[0]
    ensures out == Reach(report, grant, list, answer)
  {
    out := report;
    var member := p;
    if member.key.member in list {
      member := member.(name := list[member.key.member].name);
    }
    member := member.(skip := SkipOf(grant, list, p.key));
    if member.skip.Some? {
      out := out.(skipped := out.skipped + [member]);
    } else {
      match answer {
        case Refused(failure) =>
          out := out.(failed := out.failed + [member.(failure := failure)]);
        case Ok =>
          out := out.(changed := out.changed + [member]);
      }
    }
    out := out.(notAttempted := out.notAttempted[1..]);
  }

  // ---------------------------------------------------------------------------
  // Every checkpoint divides the plan
  // ---------------------------------------------------------------------------

  datatype Fate = Changed | Skipped | Failed

  /** What becomes of the member a turn is about. */
  function FateOf(grant: bool, key: Key, t: Turn): Fate
    requires t.reading.Ready?
  {
    if SkipOf(grant, t.reading.list, key).Some? then Skipped else if t.answer.Ok? then Changed else Failed
  }

  /** What became of the plan's first n members. */
  function FatesOf(plan: seq<ReportMember>, grant: bool, turns: nat -> Turn, n: nat): (fates: seq<Fate>)
    requires n <= |plan| && forall i :: 0 <= i < n ==> turns(i).reading.Ready?
    ensures |fates| == n
  {
    if n == 0 then []
    else FatesOf(plan, grant, turns, n - 1) + [FateOf(grant, plan[n - 1].key, turns(n - 1))]
  }

  /** The keys with the fate, in order. */
  function Having(keys: seq<Key>, fates: seq<Fate>, fate: Fate): seq<Key>
    requires |keys| == |fates|
  {
    if keys == [] then []
    else
      var before := Having(keys[..|keys| - 1], fates[..|fates| - 1], fate);
      if fates[|fates| - 1] == fate then before + [keys[|keys| - 1]] else before
  }

  /** Of the plan's first n keys those with the fate, in the plan's order. */
  function Fated(plan: seq<ReportMember>, grant: bool, turns: nat -> Turn, n: nat, fate: Fate): seq<Key>
    requires n <= |plan| && forall i :: 0 <= i < n ==> turns(i).reading.Ready?
  {
    Having(KeysOf(plan[..n]), FatesOf(plan, grant, turns, n), fate)
  }

  /** What one turn adds to the report. */
  lemma ReachAdds(r: Report, grant: bool, t: Turn)
    requires r.notAttempted != [] && t.reading.Ready?
    ensures var s := Reach(r, grant, t.reading.list, t.answer);
            var key := r.notAttempted[0].key;
            var fate := FateOf(grant, key, t);
            && KeysOf(s.changed) == (if fate == Changed then KeysOf(r.changed) + [key] else KeysOf(r.changed))
            && KeysOf(s.skipped) == (if fate == Skipped then KeysOf(r.skipped) + [key] else KeysOf(r.skipped))
            && KeysOf(s.failed) == (if fate == Failed then KeysOf(r.failed) + [key] else KeysOf(r.failed))
            && Progress(s) == (Progress(r).0 + 1, Progress(r).1)
  {}

  /**
   * The member reached is written down once, at the end of one list: under the
   * name the list shows now, or the plan's for one not in it, with the skip's
   * reason or the refusal's words and no other.
   */
  lemma ReachWritesDown(r: Report, grant: bool, t: Turn)
    requires r.notAttempted != [] && t.reading.Ready?
    requires r.notAttempted[0].skip == None && r.notAttempted[0].failure == ""
    ensures var s, m, list := Reach(r, grant, t.reading.list, t.answer), r.notAttempted[0], t.reading.list;
            var name := if m.key.member in list then list[m.key.member].name else m.name;
            match FateOf(grant, m.key, t)
            case Changed =>
              s.changed == r.changed + [ReportMember(m.key, name, None, "")] && s.skipped == r.skipped && s.failed == r.failed
            case Skipped =>
              && |s.skipped| == |r.skipped| + 1 && s.skipped[..|r.skipped|] == r.skipped && s.changed == r.changed && s.failed == r.failed
              && s.skipped[|r.skipped|].skip.Some? && s.skipped[|r.skipped|].(skip := None) == ReportMember(m.key, name, None, "")
            case Failed =>
              && t.answer.Refused?
              && s.failed == r.failed + [ReportMember(m.key, name, None, t.answer.failure)] && s.changed == r.changed && s.skipped == r.skipped
  {}

  /** How often a key has the fate. */
  function Times(keys: seq<Key>, fates: seq<Fate>, fate: Fate, key: Key): nat
    requires |keys| == |fates|
  {
    multiset(Having(keys, fates, fate))[key]
  }

  lemma HavingMore(keys: seq<Key>, fates: seq<Fate>, fate: Fate, key: Key)
    requires |keys| == |fates| > 0
    ensures Times(keys, fates, fate, key) ==
            Times(keys[..|keys| - 1], fates[..|fates| - 1], fate, key)
            + if fates[|fates| - 1] == fate && keys[|keys| - 1] == key then 1 else 0
  {}

  lemma {:induction false} EachHasOneFate(keys: seq<Key>, fates: seq<Fate>, key: Key)
    requires |keys| == |fates|
    ensures Times(keys, fates, Changed, key) + Times(keys, fates, Skipped, key) + Times(keys, fates, Failed, key) == multiset(keys)[key]
    decreases |keys|
  {
    if keys != [] {
      hide Times;
      EachHasOneFate(keys[..|keys| - 1], fates[..|fates| - 1], key);
      HavingMore(keys, fates, Changed, key);
      HavingMore(keys, fates, Skipped, key);
      HavingMore(keys, fates, Failed, key);
      assert keys == keys[..|keys| - 1] + [keys[|keys| - 1]];
    }
  }

  /** Keys divided by their fates are the keys, each once. */
  lemma FatesCover(keys: seq<Key>, fates: seq<Fate>)
    requires |keys| == |fates|
    ensures multiset(Having(keys, fates, Changed)) + multiset(Having(keys, fates, Skipped)) + multiset(Having(keys, fates, Failed))
            == multiset(keys)
  {
    forall key
      ensures multiset(Having(keys, fates, Changed))[key] + multiset(Having(keys, fates, Skipped))[key]
              + multiset(Having(keys, fates, Failed))[key] == multiset(keys)[key]
    {
      EachHasOneFate(keys, fates, key);
    }
    hide Having;
  }

  lemma FatedMore(plan: seq<ReportMember>, grant: bool, turns: nat -> Turn, n: nat, fate: Fate)
    requires 0 < n <= |plan| && forall i :: 0 <= i < n ==> turns(i).reading.Ready?
    ensures var before := Fated(plan, grant, turns, n - 1, fate);
            Fated(plan, grant, turns, n, fate) ==
            if FateOf(grant, plan[n - 1].key, turns(n - 1)) == fate then before + [plan[n - 1].key] else before
  {
    var keys, fates := KeysOf(plan[..n]), FatesOf(plan, grant, turns, n);
    assert keys[..n - 1] == KeysOf(plan[..n - 1]) && fates[..n - 1] == FatesOf(plan, grant, turns, n - 1);
  }

  lemma {:induction false} CheckpointProgress(skipped: seq<ReportMember>, plan: seq<ReportMember>, grant: bool, turns: nat -> Turn, n: nat)
    requires n <= |plan| && forall i :: 0 <= i < n ==> turns(i).reading.Ready?
    ensures Progress(After(NewReport(skipped, plan), grant, turns, n)) == (|skipped| + n, |skipped| + |plan|)
  {
    if n > 0 {
      hide Reach, KeysOf, FateOf, Progress;
      CheckpointProgress(skipped, plan, grant, turns, n - 1);
      ReachAdds(After(NewReport(skipped, plan), grant, turns, n - 1), grant, turns(n - 1));
    }
  }

  lemma NoKeys()
    ensures KeysOf([]) == []
  {}

  lemma NoneFated(plan: seq<ReportMember>, grant: bool, turns: nat -> Turn)
    ensures forall fate :: Fated(plan, grant, turns, 0, fate) == []
  {}

  lemma {:induction false} CheckpointKeys(skipped: seq<ReportMember>, plan: seq<ReportMember>, grant: bool, turns: nat -> Turn, n: nat)
    requires n <= |plan| && forall i :: 0 <= i < n ==> turns(i).reading.Ready?
    ensures var r := After(NewReport(skipped, plan), grant, turns, n);
            && KeysOf(r.changed) == Fated(plan, grant, turns, n, Changed)
            && KeysOf(r.skipped) == KeysOf(skipped) + Fated(plan, grant, turns, n, Skipped)
            && KeysOf(r.failed) == Fated(plan, grant, turns, n, Failed)
  {
    hide Reach, KeysOf, FateOf, Fated;
    NoKeys();
    NoneFated(plan, grant, turns);
    if n > 0 {
      CheckpointKeys(skipped, plan, grant, turns, n - 1);
      FatedMore(plan, grant, turns, n, Changed);
      FatedMore(plan, grant, turns, n, Skipped);
      FatedMore(plan, grant, turns, n, Failed);
      var before := After(NewReport(skipped, plan), grant, turns, n - 1);
      assert before.notAttempted[0] == plan[n - 1];
      ReachAdds(before, grant, turns(n - 1));
    }
  }

  lemma KeysOfFirst(plan: seq<ReportMember>, n: nat)
    requires n <= |plan|
    ensures |KeysOf(plan[..n])| == n
  {}

  /**
   * At every checkpoint the report names each planned member once, in the
   * plan's order: the first n by what became of them, after those skipped
   * before the start, and the rest as not attempted.
   */
  lemma CheckpointDividesThePlan(skipped: seq<ReportMember>, plan: seq<ReportMember>, grant: bool, turns: nat -> Turn, n: nat)
    requires n <= |plan| && forall i :: 0 <= i < n ==> turns(i).reading.Ready?
    ensures var r := After(NewReport(skipped, plan), grant, turns, n);
            && r.notAttempted == plan[n..]
            && KeysOf(r.changed) == Fated(plan, grant, turns, n, Changed)
            && KeysOf(r.skipped) == KeysOf(skipped) + Fated(plan, grant, turns, n, Skipped)
            && KeysOf(r.failed) == Fated(plan, grant, turns, n, Failed)
            && Progress(r) == (|skipped| + n, |skipped| + |plan|)
    ensures multiset(Fated(plan, grant, turns, n, Changed)) + multiset(Fated(plan, grant, turns, n, Skipped))
            + multiset(Fated(plan, grant, turns, n, Failed)) == multiset(KeysOf(plan[..n]))
  {
    hide Reach, KeysOf, FateOf, Progress, Having, FatesOf;
    CheckpointProgress(skipped, plan, grant, turns, n);
    CheckpointKeys(skipped, plan, grant, turns, n);
    KeysOfFirst(plan, n);
    FatesCover(KeysOf(plan[..n]), FatesOf(plan, grant, turns, n));
  }

  // ---------------------------------------------------------------------------
  // Run, cut off, retry
  // ---------------------------------------------------------------------------

  /** The members in the server and the roles each holds. */
  type Server = map<Member, set<Role>>

  /** Where the run is: before a member, changing one, writing the checkpoint, or writing the end. */
  datatype Phase = Before | Changing(list: List, applied: bool) | Writing | Ending

  /** A run in the process, of the report with the ID, as its memory has it. */
  datatype Run = Run(id: nat, memory: Report, phase: Phase)

  datatype Stored = Stored(report: Report, running: bool)

  /**
   * The server, every report of the action and its retries as the store has it,
   * the run if one goes on in the process, and the ends the process still tries
   * to write.
   */
  datatype World = World(server: Server, reports: map<nat, Stored>, run: Option<Run>, late: map<nat, Report>)

  datatype Event =
    | Reaches(list: List)
    | Applies
    | Answers(answer: Answer)
    | Checkpoints(committed: bool)
    | Ends(outcome: Outcome)
    | EndWrite(committed: bool, answered: bool)
    | EndPanics(committed: bool)
    | LateEndWrite(id: nat)
    | CutOff
    | Restarts(ended: set<nat>)
    | Retry(id: nat, list: List, newID: nat, answered: bool)
    | Leaves(member: Member)

  /** The member is in the server in the role state the action is for. */
  predicate AtGoal(server: Server, grant: bool, key: Key)
    requires key.member in server
  {
    if grant then key.role in server[key.member] else key.role !in server[key.member]
  }

  predicate Resolved(server: Server, grant: bool, key: Key) {
    key.member !in server || AtGoal(server, grant, key)
  }

  /** The list may lag behind the server, but shows nobody done who is not. */
  ghost predicate Truthful(list: List, server: Server, grant: bool, planned: set<Key>) {
    forall key :: key in planned && ShownDone(list, grant, key) ==> Resolved(server, grant, key)
  }

  /** The list shows the member gone, or in the role state the action is for. */
  predicate ShownDone(list: List, grant: bool, key: Key) {
    key.member !in list || (key.role in list[key.member].roles <==> grant)
  }

  function Apply(server: Server, grant: bool, key: Key): Server {
    if key.member !in server then server
    else if grant then server[key.member := server[key.member] + {key.role}]
    else server[key.member := server[key.member] - {key.role}]
  }

  /** A turn's member list is truthful, an answer of success is of a change that was applied, and of an end of one that was. */
  ghost predicate Possible(w: World, grant: bool, planned: set<Key>, e: Event) {
    match e
    case Reaches(list) =>
      w.run.Some? && w.run.value.phase.Before? && w.run.value.memory.notAttempted != [] && Truthful(list, w.server, grant, planned)
    case Applies => InChange(w) && !w.run.value.phase.applied
    case Answers(answer) => InChange(w) && (answer.Ok? ==> w.run.value.phase.applied)
    case Checkpoints(_) => w.run.Some? && w.run.value.phase.Writing?
    case Ends(outcome) =>
      w.run.Some? && !w.run.value.phase.Ending?
      && (outcome == Done ==> w.run.value.phase.Before? && w.run.value.memory.notAttempted == [])
    case EndWrite(committed, answered) => w.run.Some? && w.run.value.phase.Ending? && (answered ==> committed)
    case EndPanics(_) => w.run.Some? && w.run.value.phase.Ending?
    case LateEndWrite(id) => id in w.late
    case CutOff => true
    case Restarts(_) => w.run.None? && w.late == map[]
    case Retry(id, list, newID, _) =>
      && MayRetry(w, id) && newID !in w.reports
      && Truthful(list, w.server, grant, planned) && ChangesSomebody(w.reports[id].report, grant, list)
    case Leaves(_) => true
  }

  predicate InChange(w: World) {
    w.run.Some? && w.run.value.phase.Changing? && w.run.value.memory.notAttempted != []
  }

  /** The report has ended and missed somebody, and no action runs. */
  predicate MayRetry(w: World, id: nat) {
    w.run.None? && id in w.reports && !w.reports[id].running && Misses(w.reports[id].report) != []
  }

  /** A Retry of the report over the list would change somebody; one that would not is refused, and writes no report. */
  predicate ChangesSomebody(r: Report, grant: bool, list: List) {
    exists i :: 0 <= i < |Misses(r)| && !ShownDone(list, grant, Misses(r)[i].key)
  }

  /** A write lands on the report if the store has it running. */
  function Write(w: World, id: nat, r: Report, running: bool): World {
    if id in w.reports && w.reports[id].running then w.(reports := w.reports[id := Stored(r, running)]) else w
  }

  function Next(w: World, grant: bool, planned: set<Key>, e: Event): World
    requires Possible(w, grant, planned, e)
  {
    match e
    case Reaches(list) =>
      var run := w.run.value;
      w.(run := Some(if SkipOf(grant, list, run.memory.notAttempted[0].key).Some?
                     then run.(memory := Reach(run.memory, grant, list, Ok), phase := Writing)
                     else run.(phase := Changing(list, false))))
    case Applies =>
      w.(server := Apply(w.server, grant, w.run.value.memory.notAttempted[0].key),
         run := Some(w.run.value.(phase := w.run.value.phase.(applied := true))))
    case Answers(answer) =>
      w.(run := Some(w.run.value.(memory := Reach(w.run.value.memory, grant, w.run.value.phase.list, answer), phase := Writing)))
    case Checkpoints(committed) =>
      var v := if committed then Write(w, w.run.value.id, w.run.value.memory, true) else w;
      v.(run := Some(w.run.value.(phase := Before)))
    case Ends(outcome) => w.(run := Some(w.run.value.(memory := w.run.value.memory.(outcome := Some(outcome)), phase := Ending)))
    case EndWrite(committed, answered) =>
      var v := if committed then Write(w, w.run.value.id, w.run.value.memory, false) else w;
      v.(run := None, late := if answered then w.late else w.late[w.run.value.id := w.run.value.memory])
    case EndPanics(committed) =>
      var v := if committed then Write(w, w.run.value.id, w.run.value.memory, false) else w;
      v.(run := None)
    case LateEndWrite(id) => Write(w, id, w.late[id], false).(late := w.late - {id})
    case CutOff => w.(run := None, late := map[])
    case Restarts(ended) => w.(reports := map id | id in w.reports :: Restarted(w.reports[id], id in ended))
    case Retry(id, list, newID, answered) =>
      var r := NewReport([], RetryPlanOf(list, Misses(w.reports[id].report)));
      w.(reports := w.reports[newID := Stored(r, true)], run := if answered then Some(Run(newID, r, Before)) else None)
    case Leaves(m) => w.(server := w.server - {m})
  }

  /** A new process ends the reports it finds running; it may fail on some, and on none that it reaches again. */
  function Restarted(s: Stored, ended: bool): Stored {
    if ended && s.running then Stored(s.report.(outcome := Some(Restart)), false) else s
  }

  /** A Retry's plan: each member missed, afresh, under the name the list shows. */
  function RetryPlanOf(list: List, misses: seq<ReportMember>): (plan: seq<ReportMember>)
    ensures |plan| == |misses| && forall i :: 0 <= i < |misses| ==> plan[i].key == misses[i].key
  {
    if misses == [] then []
    else
      var m := misses[|misses| - 1];
      RetryPlanOf(list, misses[..|misses| - 1]) + [Named(list, ReportMember(m.key, m.name, None, ""))]
  }

  method RetryPlan(list: List, misses: seq<ReportMember>) returns (plan: seq<ReportMember>)
    ensures plan == RetryPlanOf(list, misses)
  {
    plan := [];
    for i := 0 to |misses|
      invariant plan == RetryPlanOf(list, misses[..i])
    {
      assert misses[..i + 1][..i] == misses[..i];
      plan := plan + [Named(list, ReportMember(misses[i].key, misses[i].name, None, ""))];
    }
    assert misses[..|misses|] == misses;
  }

  /** The action started, its report written: every member it plans to change is still to come. */
  function Started(server: Server, skipped: seq<ReportMember>, plan: seq<ReportMember>): World {
    World(server, map[0 := Stored(NewReport(skipped, plan), true)], Some(Run(0, NewReport(skipped, plan), Before)), map[])
  }

  function PlannedKeys(plan: seq<ReportMember>): set<Key> {
    set i | 0 <= i < |plan| :: plan[i].key
  }

  /** What the action was started with. */
  datatype Start = Start(server: Server, grant: bool, skipped: seq<ReportMember>, plan: seq<ReportMember>) {
    function Planned(): set<Key> { PlannedKeys(plan) }
  }

  ghost predicate Feasible(start: Start, events: seq<Event>)
    decreases |events|, 0
  {
    events == [] ||
    (Feasible(start, events[..|events| - 1])
     && Possible(RunOf(start, events[..|events| - 1]), start.grant, start.Planned(), events[|events| - 1]))
  }

  ghost function RunOf(start: Start, events: seq<Event>): World
    requires Feasible(start, events)
    decreases |events|, 1
  {
    if events == [] then Started(start.server, start.skipped, start.plan)
    else Next(RunOf(start, events[..|events| - 1]), start.grant, start.Planned(), events[|events| - 1])
  }

  // ---------------------------------------------------------------------------
  // Nobody is forgotten
  // ---------------------------------------------------------------------------

  predicate Names(members: seq<ReportMember>, key: Key) {
    exists i :: 0 <= i < |members| && members[i].key == key
  }

  /** A planned member is resolved, or the report's misses name them; and its misses are planned members. */
  ghost predicate Covers(server: Server, grant: bool, planned: set<Key>, r: Report) {
    && (forall key :: key in planned ==> Resolved(server, grant, key) || Names(Misses(r), key))
    && (forall i :: 0 <= i < |Misses(r)| ==> Misses(r)[i].key in planned)
  }

  /** Roles the action does not plan to change are as they were. */
  ghost predicate OthersKept(before: Server, now: Server, planned: set<Key>) {
    forall m :: m in now ==> m in before && forall role :: Key(m, role) !in planned ==> (role in now[m] <==> role in before[m])
  }

  ghost predicate ReportCovers(start: Start, server: Server, reports: map<nat, Stored>, id: nat) {
    id in reports ==> Covers(server, start.grant, start.Planned(), reports[id].report)
  }

  ghost predicate LateCovers(start: Start, server: Server, late: map<nat, Report>, id: nat) {
    id in late ==> Covers(server, start.grant, start.Planned(), late[id])
  }

  ghost predicate Holds(start: Start, w: World) {
    && (forall id :: ReportCovers(start, w.server, w.reports, id) && LateCovers(start, w.server, w.late, id))
    && (w.run.Some? ==> Covers(w.server, start.grant, start.Planned(), w.run.value.memory))
    && OthersKept(start.server, w.server, start.Planned())
    && (InChange(w) ==> SkipOf(start.grant, w.run.value.phase.list, w.run.value.memory.notAttempted[0].key).None?
                        && (w.run.value.phase.applied ==> Resolved(w.server, start.grant, w.run.value.memory.notAttempted[0].key)))
  }

  lemma StartHolds(start: Start)
    ensures Holds(start, Started(start.server, start.skipped, start.plan))
  {
    var r := NewReport(start.skipped, start.plan);
    forall key | key in start.Planned()
      ensures Names(Misses(r), key)
    {
      var i :| 0 <= i < |start.plan| && start.plan[i].key == key;
      assert Misses(r)[i].key == key;
    }
    forall i | 0 <= i < |Misses(r)|
      ensures Misses(r)[i].key in start.Planned()
    {
      assert Misses(r)[i] == start.plan[i];
    }
  }

  lemma InPlan(server: Server, grant: bool, planned: set<Key>, r: Report)
    requires Covers(server, grant, planned, r) && r.notAttempted != []
    ensures r.notAttempted[0].key in planned
  {
    assert Misses(r)[|r.failed|] == r.notAttempted[0];
  }

  lemma OutcomeAside(server: Server, grant: bool, planned: set<Key>, r: Report, outcome: Outcome)
    requires Covers(server, grant, planned, r)
    ensures Covers(server, grant, planned, r.(outcome := Some(outcome)))
  {
    assert Misses(r.(outcome := Some(outcome))) == Misses(r);
  }

  /** Once resolved, resolved: no change the action makes, nor a leave, undoes it. */
  lemma ServerMoves(server: Server, grant: bool, key: Key)
    ensures forall other :: Resolved(server, grant, other) ==> Resolved(Apply(server, grant, key), grant, other)
  {}

  lemma ServerLoses(server: Server, grant: bool, m: Member)
    ensures forall other :: Resolved(server, grant, other) ==> Resolved(server - {m}, grant, other)
  {}

  lemma CoversLater(server: Server, later: Server, grant: bool, planned: set<Key>, r: Report)
    requires Covers(server, grant, planned, r)
    requires forall key :: key in planned && Resolved(server, grant, key) ==> Resolved(later, grant, key)
    ensures Covers(later, grant, planned, r)
  {}

  /** A member reached is resolved, or failed and so among the misses still. */
  lemma ReachCovers(server: Server, grant: bool, planned: set<Key>, r: Report, list: List, answer: Answer)
    requires r.notAttempted != [] && Covers(server, grant, planned, r)
    requires answer.Ok? || SkipOf(grant, list, r.notAttempted[0].key).Some? ==> Resolved(server, grant, r.notAttempted[0].key)
    ensures Covers(server, grant, planned, Reach(r, grant, list, answer))
  {
    var s, head := Reach(r, grant, list, answer), r.notAttempted[0];
    forall key | key in planned && !Resolved(server, grant, key)
      ensures Names(Misses(s), key)
    {
      var i :| 0 <= i < |Misses(r)| && Misses(r)[i].key == key;
      if i < |r.failed| {
        assert Misses(s)[i] == Misses(r)[i];
      } else if i == |r.failed| {
        assert Misses(s)[i].key == head.key;
      } else {
        assert Misses(s)[if |s.failed| > |r.failed| then i else i - 1] == Misses(r)[i];
      }
    }
    forall i | 0 <= i < |Misses(s)|
      ensures Misses(s)[i].key in planned
    {
      assert Misses(r)[|r.failed|] == head;
      if i < |r.failed| {
        assert Misses(s)[i] == Misses(r)[i];
      } else if i >= |s.failed| {
        assert Misses(s)[i] == Misses(r)[i - |s.failed| + |r.failed| + 1];
      }
    }
  }

  lemma RetryCovers(server: Server, grant: bool, planned: set<Key>, r: Report, list: List)
    requires Covers(server, grant, planned, r)
    ensures Covers(server, grant, planned, NewReport([], RetryPlanOf(list, Misses(r))))
  {
    hide RetryPlanOf;
    var plan := RetryPlanOf(list, Misses(r));
    assert Misses(NewReport([], plan)) == plan;
    forall key | Names(Misses(r), key)
      ensures Names(plan, key)
    {
      var i :| 0 <= i < |Misses(r)| && Misses(r)[i].key == key;
      assert plan[i].key == key;
    }
  }

  /** The run's memory covers what it covered, and the server only moves toward the goal. */
  ghost predicate RunCovers(start: Start, w: World) {
    && (w.run.Some? ==> Covers(w.server, start.grant, start.Planned(), w.run.value.memory))
    && OthersKept(start.server, w.server, start.Planned())
    && (InChange(w) ==> SkipOf(start.grant, w.run.value.phase.list, w.run.value.memory.notAttempted[0].key).None?
                        && (w.run.value.phase.applied ==> Resolved(w.server, start.grant, w.run.value.memory.notAttempted[0].key)))
  }

  lemma RunKept(start: Start, w: World, e: Event)
    requires Holds(start, w) && Possible(w, start.grant, start.Planned(), e)
    ensures RunCovers(start, Next(w, start.grant, start.Planned(), e))
  {
    var grant, planned := start.grant, start.Planned();
    match e
    case Reaches(list) =>
      var r := w.run.value.memory;
      InPlan(w.server, grant, planned, r);
      hide Covers;
      if SkipOf(grant, list, r.notAttempted[0].key).Some? {
        ReachCovers(w.server, grant, planned, r, list, Ok);
      }
    case Applies =>
      var key := w.run.value.memory.notAttempted[0].key;
      InPlan(w.server, grant, planned, w.run.value.memory);
      hide Covers;
      ServerMoves(w.server, grant, key);
      CoversLater(w.server, Apply(w.server, grant, key), grant, planned, w.run.value.memory);
    case Answers(answer) =>
      hide Covers;
      ReachCovers(w.server, grant, planned, w.run.value.memory, w.run.value.phase.list, answer);
    case Retry(id, list, _, _) =>
      assert ReportCovers(start, w.server, w.reports, id);
      hide Covers;
      RetryCovers(w.server, grant, planned, w.reports[id].report, list);
    case Leaves(m) =>
      hide Covers;
      ServerLoses(w.server, grant, m);
      if w.run.Some? {
        CoversLater(w.server, w.server - {m}, grant, planned, w.run.value.memory);
      }
    case Ends(outcome) =>
      hide Covers;
      OutcomeAside(w.server, grant, planned, w.run.value.memory, outcome);
    case _ =>
      hide Covers;
  }

  lemma Reported(start: Start, w: World, id: nat)
    requires Holds(start, w)
    ensures ReportCovers(start, w.server, w.reports, id) && LateCovers(start, w.server, w.late, id)
    ensures w.run.Some? ==> Covers(w.server, start.grant, start.Planned(), w.run.value.memory)
  {}

  lemma ReportKept(start: Start, w: World, e: Event, id: nat)
    requires Holds(start, w) && Possible(w, start.grant, start.Planned(), e)
    ensures ReportCovers(start, Next(w, start.grant, start.Planned(), e).server, Next(w, start.grant, start.Planned(), e).reports, id)
  {
    var grant, planned := start.grant, start.Planned();
    assert ReportCovers(start, w.server, w.reports, id) && LateCovers(start, w.server, w.late, id);
    hide Covers, Holds, Truthful, OthersKept, Reach;
    match e
    case Applies =>
      ServerMoves(w.server, grant, w.run.value.memory.notAttempted[0].key);
      if id in w.reports {
        CoversLater(w.server, Next(w, grant, planned, e).server, grant, planned, w.reports[id].report);
      }
    case Retry(of, list, _, _) =>
      Reported(start, w, of);
      RetryCovers(w.server, grant, planned, w.reports[of].report, list);
    case Leaves(m) =>
      ServerLoses(w.server, grant, m);
      if id in w.reports {
        CoversLater(w.server, w.server - {m}, grant, planned, w.reports[id].report);
      }
    case Restarts(_) =>
      if id in w.reports {
        OutcomeAside(w.server, grant, planned, w.reports[id].report, Restart);
      }
    case LateEndWrite(of) =>
      Reported(start, w, of);
    case _ => Reported(start, w, id);
  }

  lemma LateKept(start: Start, w: World, e: Event, id: nat)
    requires Holds(start, w) && Possible(w, start.grant, start.Planned(), e)
    ensures LateCovers(start, Next(w, start.grant, start.Planned(), e).server, Next(w, start.grant, start.Planned(), e).late, id)
  {
    var grant, planned := start.grant, start.Planned();
    Reported(start, w, id);
    hide Covers, Holds, Truthful, OthersKept, Reach;
    match e
    case Applies =>
      ServerMoves(w.server, grant, w.run.value.memory.notAttempted[0].key);
      if id in w.late {
        CoversLater(w.server, Next(w, grant, planned, e).server, grant, planned, w.late[id]);
      }
    case Leaves(m) =>
      ServerLoses(w.server, grant, m);
      if id in w.late {
        CoversLater(w.server, w.server - {m}, grant, planned, w.late[id]);
      }
    case _ =>
  }

  lemma HoldsKept(start: Start, w: World, e: Event)
    requires Holds(start, w) && Possible(w, start.grant, start.Planned(), e)
    ensures Holds(start, Next(w, start.grant, start.Planned(), e))
  {
    var n := Next(w, start.grant, start.Planned(), e);
    RunKept(start, w, e);
    forall id
      ensures ReportCovers(start, n.server, n.reports, id) && LateCovers(start, n.server, n.late, id)
    {
      ReportKept(start, w, e, id);
      LateKept(start, w, e, id);
    }
    hide Possible, Next, ReportCovers, LateCovers, Covers;
  }

  /** A new process that ends every report it finds running leaves none running, each with the members it had. */
  lemma RestartEndsAll(start: Start, events: seq<Event>, id: nat)
    requires Feasible(start, events)
    requires var w := RunOf(start, events); w.run.None? && w.late == map[] && id in w.reports
    ensures var w := RunOf(start, events);
            var n := Next(w, start.grant, start.Planned(), Restarts(w.reports.Keys));
            && n.reports.Keys == w.reports.Keys && !n.reports[id].running
            && Misses(n.reports[id].report) == Misses(w.reports[id].report)
            && n.reports[id].report.changed == w.reports[id].report.changed
            && n.reports[id].report.outcome == if w.reports[id].running then Some(Restart) else w.reports[id].report.outcome
  {}

  /**
   * A run's end write ends the process's run: a write that lands ends the stored
   * report as the run's memory has it, and one not answered is kept to try again,
   * which a panic does not do; a cut-off process has neither.
   */
  lemma RunsEnd(start: Start, events: seq<Event>, e: Event)
    requires Feasible(start, events) && Possible(RunOf(start, events), start.grant, start.Planned(), e)
    requires e.EndWrite? || e.EndPanics? || e.CutOff?
    ensures var w, n := RunOf(start, events), Next(RunOf(start, events), start.grant, start.Planned(), e);
            && n.run.None? && n.server == w.server
            && (e.CutOff? ==> n.late == map[] && n.reports == w.reports)
            && (!e.CutOff? ==>
                  var run := w.run.value;
                  && (e.committed && run.id in w.reports && w.reports[run.id].running ==> n.reports == w.reports[run.id := Stored(run.memory, false)])
                  && (!e.committed ==> n.reports == w.reports)
                  && n.late == if e.EndWrite? && !e.answered then w.late[run.id := run.memory] else w.late)
  {}

  /** A Retry stores its own report, running, of every member the one retried missed, and runs it if the store answered. */
  lemma RetriesStart(start: Start, events: seq<Event>, id: nat, list: List, newID: nat, answered: bool)
    requires Feasible(start, events) && Possible(RunOf(start, events), start.grant, start.Planned(), Retry(id, list, newID, answered))
    ensures var w, n := RunOf(start, events), Next(RunOf(start, events), start.grant, start.Planned(), Retry(id, list, newID, answered));
            var misses := Misses(w.reports[id].report);
            && newID !in w.reports && newID in n.reports && n.reports[newID].running
            && var r := n.reports[newID].report;
               && r.changed == r.skipped == r.failed == [] && KeysOf(r.notAttempted) == KeysOf(misses) && r.outcome == None
               && (forall other :: other in w.reports ==> other in n.reports && n.reports[other] == w.reports[other])
               && n.run == if answered then Some(Run(newID, r, Before)) else None
  {
    hide RetryPlanOf;
  }

  /** An end written late ends the report as the action left it, unless something ended it before. */
  lemma LateEndEnds(start: Start, events: seq<Event>, id: nat)
    requires Feasible(start, events) && id in RunOf(start, events).late && id in RunOf(start, events).reports
    ensures var w := RunOf(start, events);
            var n := Next(w, start.grant, start.Planned(), LateEndWrite(id));
            && id !in n.late
            && n.reports == w.reports[id := Stored(if w.reports[id].running then w.late[id] else w.reports[id].report, false)]
  {}

  lemma {:induction false} HoldsReached(start: Start, events: seq<Event>)
    requires Feasible(start, events)
    ensures Holds(start, RunOf(start, events))
    decreases |events|
  {
    if events == [] {
      StartHolds(start);
    } else {
      HoldsReached(start, events[..|events| - 1]);
      HoldsKept(start, RunOf(start, events[..|events| - 1]), events[|events| - 1]);
    }
  }

  // ---------------------------------------------------------------------------
  // Retries lead where one uninterrupted run leads
  // ---------------------------------------------------------------------------

  /** The server after one run that nothing interrupts and Discord refuses nothing. */
  function Uninterrupted(server: Server, grant: bool, plan: seq<ReportMember>): (end: Server)
    ensures end.Keys == server.Keys
  {
    if plan == [] then server
    else Apply(Uninterrupted(server, grant, plan[..|plan| - 1]), grant, plan[|plan| - 1].key)
  }

  lemma {:induction false} UninterruptedReachesTheGoal(server: Server, grant: bool, plan: seq<ReportMember>, m: Member, role: Role)
    requires m in server
    ensures var end := Uninterrupted(server, grant, plan);
            m in end && (role in end[m] <==> if Names(plan, Key(m, role)) then grant else role in server[m])
    decreases |plan|
  {
    if plan != [] {
      var rest, last := plan[..|plan| - 1], plan[|plan| - 1];
      UninterruptedReachesTheGoal(server, grant, rest, m, role);
      assert Names(plan, Key(m, role)) <==> Names(rest, Key(m, role)) || last.key == Key(m, role) by {
        if Names(rest, Key(m, role)) {
          var i :| 0 <= i < |rest| && rest[i].key == Key(m, role);
          assert plan[i].key == Key(m, role);
        }
        if i :| 0 <= i < |plan| && plan[i].key == Key(m, role) && i < |rest| {
          assert rest[i].key == Key(m, role);
        }
      }
    }
  }

  /**
   * Over any run of cut-offs, failed writes, refusals, panics and retries of
   * whichever reports: once any stored report missed nobody, or its Retry would
   * change nobody, each member still in the server holds just the roles that one
   * uninterrupted run leaves them.
   */
  lemma RetriesConverge(start: Start, events: seq<Event>, id: nat, list: List, m: Member)
    requires Feasible(start, events)
    requires var w := RunOf(start, events);
             && id in w.reports && Truthful(list, w.server, start.grant, start.Planned())
             && (Misses(w.reports[id].report) == [] || !ChangesSomebody(w.reports[id].report, start.grant, list))
             && m in w.server
    ensures m in start.server
    ensures RunOf(start, events).server[m] == Uninterrupted(start.server, start.grant, start.plan)[m]
  {
    HoldsReached(start, events);
    var w := RunOf(start, events);
    assert ReportCovers(start, w.server, w.reports, id);
    var end := Uninterrupted(start.server, start.grant, start.plan);
    assert m in start.server;
    forall role
      ensures role in w.server[m] <==> role in end[m]
    {
      UninterruptedReachesTheGoal(start.server, start.grant, start.plan, m, role);
      var key := Key(m, role);
      assert key in start.Planned() <==> Names(start.plan, key);
    }
    UninterruptedReachesTheGoal(start.server, start.grant, start.plan, m, "");
  }

  // ---------------------------------------------------------------------------
  // A purge
  // ---------------------------------------------------------------------------

  datatype Scope = Both | InternalOnly | ExternalOnly

  /** The roles a scope names, in the order a purge takes them. */
  function ScopeRoles(scope: Scope, internal: Role, external: Role): seq<Role> {
    match scope
    case InternalOnly => [internal]
    case ExternalOnly => [external]
    case Both => [external, internal]
  }

  /** The members holding the role, in the list's order. */
  function Holders(members: seq<(Member, Listed)>, role: Role): seq<ReportMember> {
    if members == [] then []
    else
      var (id, m) := members[|members| - 1];
      var before := Holders(members[..|members| - 1], role);
      if role in m.roles then before + [ReportMember(Key(id, role), m.name, None, "")] else before
  }

  function HoldersOf(members: seq<(Member, Listed)>, roles: seq<Role>): seq<ReportMember> {
    if roles == [] then []
    else HoldersOf(members, roles[..|roles| - 1]) + Holders(members, roles[|roles| - 1])
  }

  method PurgePlan(members: seq<(Member, Listed)>, roles: seq<Role>) returns (plan: seq<ReportMember>)
    ensures plan == HoldersOf(members, roles)
  {
    plan := [];
    for i := 0 to |roles|
      invariant plan == HoldersOf(members, roles[..i])
    {
      assert roles[..i + 1][..i] == roles[..i];
      var holders: seq<ReportMember> := [];
      for j := 0 to |members|
        invariant holders == Holders(members[..j], roles[i])
      {
        assert members[..j + 1][..j] == members[..j];
        if roles[i] in members[j].1.roles {
          holders := holders + [ReportMember(Key(members[j].0, roles[i]), members[j].1.name, None, "")];
        }
      }
      assert members[..|members|] == members;
      plan := plan + holders;
    }
    assert roles[..|roles|] == roles;
  }

  lemma {:induction false} HoldersNamed(members: seq<(Member, Listed)>, role: Role, k: nat)
    requires k < |members| && role in members[k].1.roles
    ensures Names(Holders(members, role), Key(members[k].0, role))
    decreases |members|
  {
    var before := Holders(members[..|members| - 1], role);
    if k == |members| - 1 {
      assert Holders(members, role)[|before|].key == Key(members[k].0, role);
    } else {
      HoldersNamed(members[..|members| - 1], role, k);
      var i :| 0 <= i < |before| && before[i].key == Key(members[k].0, role);
      assert Holders(members, role)[i] == before[i];
    }
  }

  lemma {:induction false} HoldersOfNamed(members: seq<(Member, Listed)>, roles: seq<Role>, n: nat, k: nat)
    requires n < |roles| && k < |members| && roles[n] in members[k].1.roles
    ensures Names(HoldersOf(members, roles), Key(members[k].0, roles[n]))
    decreases |roles|
  {
    var before, last := HoldersOf(members, roles[..|roles| - 1]), Holders(members, roles[|roles| - 1]);
    if n == |roles| - 1 {
      HoldersNamed(members, roles[n], k);
      var i :| 0 <= i < |last| && last[i].key == Key(members[k].0, roles[n]);
      assert HoldersOf(members, roles)[|before| + i] == last[i];
    } else {
      HoldersOfNamed(members, roles[..|roles| - 1], n, k);
      var i :| 0 <= i < |before| && before[i].key == Key(members[k].0, roles[n]);
      assert HoldersOf(members, roles)[i] == before[i];
    }
  }

  /** The list shows the server: every member in it, with the roles they hold. */
  ghost predicate Shows(members: seq<(Member, Listed)>, server: Server) {
    forall m :: m in server ==> exists k :: 0 <= k < |members| && members[k].0 == m && members[k].1.roles == server[m]
  }

  /** Once any report of a purge and its retries missed nobody, or its Retry would change nobody, it leaves the scope's roles on no member in the server. */
  lemma PurgeLeavesNoHolder(start: Start, members: seq<(Member, Listed)>, roles: seq<Role>, events: seq<Event>, id: nat,
                            list: List, m: Member, n: nat)
    requires Shows(members, start.server) && !start.grant && start.plan == HoldersOf(members, roles)
    requires Feasible(start, events)
    requires var w := RunOf(start, events);
             && id in w.reports && Truthful(list, w.server, start.grant, start.Planned())
             && (Misses(w.reports[id].report) == [] || !ChangesSomebody(w.reports[id].report, start.grant, list))
             && m in w.server
    requires n < |roles|
    ensures roles[n] !in RunOf(start, events).server[m]
  {
    RetriesConverge(start, events, id, list, m);
    UninterruptedReachesTheGoal(start.server, start.grant, start.plan, m, roles[n]);
    if roles[n] in start.server[m] {
      var k :| 0 <= k < |members| && members[k].0 == m && members[k].1.roles == start.server[m];
      HoldersOfNamed(members, roles, n, k);
    }
  }
}
