/**
 * letInEach (commands/temp_vc_let_in.go): the members picked to be let into a
 * locked channel, each decided once.
 */
module LetIns {
  type User = string

  /** A picked member as the submission has them; resolved says that it carries their guild data. */
  datatype Pick = Pick(user: User, bot: bool, resolved: bool)

  /** What Discord and the state cache say of a member, asked at most once. */
  datatype Verdict = CheckFailed | CannotSee | AlreadyGuest | Added | AddFailed(gone: bool)

  datatype SkipReason = SkipBot | SkipGuest | SkipCannotSee

  datatype Outcome = LetIn | Skipped(reason: SkipReason) | Failed

  datatype Result = Result(letIn: seq<User>, skipped: seq<(User, SkipReason)>, failed: seq<User>)

  function OutcomeOf(p: Pick, says: Verdict): Outcome {
    if p.bot then Skipped(SkipBot)
    else if !p.resolved || says.CannotSee? then Skipped(SkipCannotSee)
    else if says.AlreadyGuest? then Skipped(SkipGuest)
    else if says.Added? then LetIn
    else Failed
  }

  predicate EndsIt(p: Pick, says: Verdict) {
    OutcomeOf(p, says) == Failed && says.AddFailed? && says.gone
  }

  /** The first n picks without those of a member picked before. */
  function Firsts(picks: seq<Pick>, n: nat): seq<Pick>
    requires n <= |picks|
  {
    if n == 0 then []
    else
      var before := Firsts(picks, n - 1);
      if Picked(picks, n - 1, picks[n - 1].user) then before else before + [picks[n - 1]]
  }

  /** The member is one of the first n picks. */
  predicate Picked(picks: seq<Pick>, n: nat, user: User)
    requires n <= |picks|
  {
    exists i :: 0 <= i < n && picks[i].user == user
  }

  /** The result with one more pick decided. */
  function Record(r: Result, p: Pick, says: Verdict): Result {
    match OutcomeOf(p, says)
    case LetIn => r.(letIn := r.letIn + [p.user])
    case Skipped(reason) => r.(skipped := r.skipped + [(p.user, reason)])
    case Failed => r.(failed := r.failed + [p.user])
  }

  /** The result of deciding each of the picks. */
  function Decide(picks: seq<Pick>, says: User -> Verdict): Result {
    if picks == [] then Result([], [], [])
    else
      var p := picks[|picks| - 1];
      Record(Decide(picks[..|picks| - 1], says), p, says(p.user))
  }

  function SkippedUsers(skipped: seq<(User, SkipReason)>): seq<User> {
    if skipped == [] then [] else SkippedUsers(skipped[..|skipped| - 1]) + [skipped[|skipped| - 1].0]
  }

  /** How often a result names a member. */
  function Times(r: Result, user: User): nat {
    multiset(r.letIn)[user] + multiset(SkippedUsers(r.skipped))[user] + multiset(r.failed)[user]
  }

  lemma RecordNames(r: Result, p: Pick, says: Verdict, user: User)
    ensures Times(Record(r, p, says), user) == Times(r, user) + if p.user == user then 1 else 0
  {
    var next := Record(r, p, says);
    match OutcomeOf(p, says)
    case LetIn =>
      assert multiset(next.letIn) == multiset(r.letIn) + multiset{p.user};
    case Skipped(reason) =>
      assert next.skipped[..|r.skipped|] == r.skipped;
      assert multiset(SkippedUsers(next.skipped)) == multiset(SkippedUsers(r.skipped)) + multiset{p.user};
    case Failed =>
      assert multiset(next.failed) == multiset(r.failed) + multiset{p.user};
  }

  lemma DecideMore(picks: seq<Pick>, p: Pick, says: User -> Verdict)
    ensures Decide(picks + [p], says) == Record(Decide(picks, says), p, says(p.user))
  {
    assert (picks + [p])[..|picks|] == picks;
  }

  lemma PickedMore(picks: seq<Pick>, n: nat, user: User)
    requires n < |picks|
    ensures Picked(picks, n + 1, user) <==> Picked(picks, n, user) || picks[n].user == user
  {}

  lemma {:induction false} FirstsDecidedOnce(picks: seq<Pick>, n: nat, says: User -> Verdict, user: User)
    requires n <= |picks|
    ensures Times(Decide(Firsts(picks, n), says), user) == if Picked(picks, n, user) then 1 else 0
  {
    hide Decide, Times, Picked, Record;
    NothingYet(picks, says);
    if n > 0 {
      FirstsDecidedOnce(picks, n - 1, says, user);
      PickedMore(picks, n - 1, user);
      var before, p := Firsts(picks, n - 1), picks[n - 1];
      DecideMore(before, p, says);
      RecordNames(Decide(before, says), p, says(p.user), user);
    }
  }

  /** A member picked, however often, is in the result once; a member not picked is not in it. */
  lemma EachDecidedOnce(picks: seq<Pick>, says: User -> Verdict, user: User)
    ensures Times(Decide(Firsts(picks, |picks|), says), user) == if Picked(picks, |picks|, user) then 1 else 0
  {
    FirstsDecidedOnce(picks, |picks|, says, user);
  }

  /** The member's first pick. */
  function FirstPick(picks: seq<Pick>, n: nat, user: User): (p: Pick)
    requires n <= |picks| && Picked(picks, n, user)
    ensures p.user == user && p in picks
  {
    if Picked(picks, n - 1, user) then FirstPick(picks, n - 1, user) else picks[n - 1]
  }

  /** Where the result names a member, by what their first pick says and what Discord answers. */
  ghost predicate DecidedBy(r: Result, p: Pick, says: Verdict) {
    && (p.user in r.letIn <==> !p.bot && p.resolved && says == Added)
    && ((p.user, SkipBot) in r.skipped <==> p.bot)
    && ((p.user, SkipCannotSee) in r.skipped <==> !p.bot && (!p.resolved || says == CannotSee))
    && ((p.user, SkipGuest) in r.skipped <==> !p.bot && p.resolved && says == AlreadyGuest)
    && (p.user in r.failed <==> !p.bot && p.resolved && (says == CheckFailed || says.AddFailed?))
  }

  /** A member the result does not name. */
  predicate Unnamed(r: Result, user: User) {
    user !in r.letIn && user !in r.failed && forall reason :: (user, reason) !in r.skipped
  }

  lemma RecordDecides(r: Result, p: Pick, says: Verdict)
    requires Unnamed(r, p.user)
    ensures DecidedBy(Record(r, p, says), p, says)
  {}

  lemma RecordLeavesOthers(r: Result, p: Pick, says: Verdict, other: Pick, saysOther: Verdict)
    requires other.user != p.user
    ensures DecidedBy(r, other, saysOther) ==> DecidedBy(Record(r, p, says), other, saysOther)
    ensures Unnamed(r, other.user) ==> Unnamed(Record(r, p, says), other.user)
  {}

  lemma {:induction false} FirstsDecided(picks: seq<Pick>, n: nat, says: User -> Verdict, user: User)
    requires n <= |picks|
    ensures var r := Decide(Firsts(picks, n), says);
            if Picked(picks, n, user) then DecidedBy(r, FirstPick(picks, n, user), says(user)) else Unnamed(r, user)
  {
    if n > 0 {
      hide Decide, DecidedBy, Unnamed, Picked, FirstPick, Firsts;
      FirstsDecided(picks, n - 1, says, user);
      OneMoreDecided(picks, n, says, user, Decide(Firsts(picks, n - 1), says));
      FirstsMore(picks, n, says);
    } else {
      NothingYet(picks, says);
    }
  }

  lemma FirstsMore(picks: seq<Pick>, n: nat, says: User -> Verdict)
    requires 0 < n <= |picks|
    ensures var before, p := Decide(Firsts(picks, n - 1), says), picks[n - 1];
            Decide(Firsts(picks, n), says) == if Picked(picks, n - 1, p.user) then before else Record(before, p, says(p.user))
  {
    DecideMore(Firsts(picks, n - 1), picks[n - 1], says);
    hide Decide, Record, Picked;
  }

  lemma OneMoreDecided(picks: seq<Pick>, n: nat, says: User -> Verdict, user: User, before: Result)
    requires 0 < n <= |picks|
    requires if Picked(picks, n - 1, user) then DecidedBy(before, FirstPick(picks, n - 1, user), says(user)) else Unnamed(before, user)
    ensures var p := picks[n - 1];
            var now := if Picked(picks, n - 1, p.user) then before else Record(before, p, says(p.user));
            if Picked(picks, n, user) then DecidedBy(now, FirstPick(picks, n, user), says(user)) else Unnamed(now, user)
  {
    var p := picks[n - 1];
    PickedMore(picks, n - 1, user);
    hide Record, Picked, DecidedBy, Unnamed;
    if p.user != user {
      var other := if Picked(picks, n - 1, user) then FirstPick(picks, n - 1, user) else Pick(user, false, false);
      RecordLeavesOthers(before, p, says(p.user), other, says(user));
    } else if !Picked(picks, n - 1, user) {
      RecordDecides(before, p, says(p.user));
    }
  }

  /**
   * A picked member is let in if and only if their first pick is of no bot,
   * resolved, and Discord took their guest add; and each other outcome has its one
   * cause. A member not picked is not named.
   */
  lemma EachDecidedRightly(picks: seq<Pick>, says: User -> Verdict, user: User)
    ensures var r := Decide(Firsts(picks, |picks|), says);
            if Picked(picks, |picks|, user) then DecidedBy(r, FirstPick(picks, |picks|, user), says(user)) else Unnamed(r, user)
  {
    FirstsDecided(picks, |picks|, says, user);
  }

  predicate SomeoneEndsIt(picks: seq<Pick>, says: User -> Verdict) {
    exists i :: 0 <= i < |picks| && EndsIt(picks[i], says(picks[i].user))
  }

  lemma {:induction false} FirstsAreFirstPicks(picks: seq<Pick>, n: nat, p: Pick)
    requires n <= |picks|
    ensures p in Firsts(picks, n) <==> Picked(picks, n, p.user) && FirstPick(picks, n, p.user) == p
  {
    if n > 0 {
      hide Picked;
      FirstsAreFirstPicks(picks, n - 1, p);
      PickedMore(picks, n - 1, p.user);
      if Picked(picks, n - 1, picks[n - 1].user) && p.user == picks[n - 1].user {
        assert Picked(picks, n - 1, p.user);
      }
    } else {
      assert !Picked(picks, 0, p.user);
    }
  }

  /** Discord says the channel is gone to the guest add of the member's first pick, which is resolved and of no bot. */
  predicate AddSaysGone(picks: seq<Pick>, says: User -> Verdict, user: User) {
    && Picked(picks, |picks|, user)
    && !FirstPick(picks, |picks|, user).bot && FirstPick(picks, |picks|, user).resolved
    && says(user).AddFailed? && says(user).gone
  }

  lemma FirstPickEndsIt(picks: seq<Pick>, says: User -> Verdict, user: User)
    ensures AddSaysGone(picks, says, user) <==>
            Picked(picks, |picks|, user) && EndsIt(FirstPick(picks, |picks|, user), says(user))
  {
    hide Picked, FirstPick;
  }

  /** The let-in fails as a whole if and only if an add says the channel is gone. */
  lemma GoneWhenAnAddSaysSo(picks: seq<Pick>, says: User -> Verdict)
    ensures SomeoneEndsIt(Firsts(picks, |picks|), says) <==> exists user :: AddSaysGone(picks, says, user)
  {
    hide Firsts, FirstPick, Picked, EndsIt, AddSaysGone;
    var firsts := Firsts(picks, |picks|);
    if i :| 0 <= i < |firsts| && EndsIt(firsts[i], says(firsts[i].user)) {
      FirstsAreFirstPicks(picks, |picks|, firsts[i]);
      FirstPickEndsIt(picks, says, firsts[i].user);
    }
    if user :| AddSaysGone(picks, says, user) {
      FirstPickEndsIt(picks, says, user);
      var p := FirstPick(picks, |picks|, user);
      FirstsAreFirstPicks(picks, |picks|, p);
      var i :| 0 <= i < |firsts| && firsts[i] == p;
      assert EndsIt(firsts[i], says(firsts[i].user));
    }
  }

  /** Each picked member decided in turn, once; none of it when Discord says the channel is gone. */
  method LetInEach(picks: seq<Pick>, says: User -> Verdict) returns (result: Result, gone: bool)
    ensures gone <==> SomeoneEndsIt(Firsts(picks, |picks|), says)
    ensures result == if gone then Result([], [], []) else Decide(Firsts(picks, |picks|), says)
  {
    hide Decide, Picked, EndsIt, SomeoneEndsIt;
    result, gone := Result([], [], []), false;
    var seen: set<User> := {};
    NothingYet(picks, says);
    for i := 0 to |picks|
      invariant forall user :: user in seen <==> Picked(picks, i, user)
      invariant result == Decide(Firsts(picks, i), says)
      invariant !gone && !SomeoneEndsIt(Firsts(picks, i), says)
    {
      var p := picks[i];
      forall user {
        PickedMore(picks, i, user);
      }
      if p.user !in seen {
        seen := seen + {p.user};
        DecideMore(Firsts(picks, i), p, says);
        EndsMore(Firsts(picks, i), p, says);
        result, gone := LetInOne(result, p, says(p.user));
        if gone {
          StillEnds(picks, i + 1, says);
          return Result([], [], []), true;
        }
      }
    }
  }

  lemma NothingYet(picks: seq<Pick>, says: User -> Verdict)
    ensures Decide([], says) == Result([], [], []) && !SomeoneEndsIt([], says)
    ensures forall user :: !Picked(picks, 0, user) && Times(Decide([], says), user) == 0
  {}

  lemma EndsMore(picks: seq<Pick>, p: Pick, says: User -> Verdict)
    ensures SomeoneEndsIt(picks + [p], says) <==> SomeoneEndsIt(picks, says) || EndsIt(p, says(p.user))
  {
    var now := picks + [p];
    assert forall k :: 0 <= k < |now| ==> now[k] == if k < |picks| then picks[k] else p;
    if EndsIt(p, says(p.user)) {
      assert EndsIt(now[|picks|], says(now[|picks|].user));
    }
    if k :| 0 <= k < |picks| && EndsIt(picks[k], says(picks[k].user)) {
      assert EndsIt(now[k], says(now[k].user));
    }
  }

  lemma {:induction false} StillEnds(picks: seq<Pick>, n: nat, says: User -> Verdict)
    requires n <= |picks| && SomeoneEndsIt(Firsts(picks, n), says)
    ensures SomeoneEndsIt(Firsts(picks, |picks|), says)
    decreases |picks| - n
  {
    if n < |picks| {
      hide SomeoneEndsIt;
      EndsMore(Firsts(picks, n), picks[n], says);
      StillEnds(picks, n + 1, says);
    }
  }

  /** One member decided; says is asked only where the code asks. */
  method LetInOne(res: Result, p: Pick, says: Verdict) returns (out: Result, gone: bool)
    ensures gone <==> EndsIt(p, says)
    ensures out == Record(res, p, says)
  {
    if p.bot {
      return res.(skipped := res.skipped + [(p.user, SkipBot)]), false;
    }
    if !p.resolved {
      return res.(skipped := res.skipped + [(p.user, SkipCannotSee)]), false;
    }
    if says.CheckFailed? {
      return res.(failed := res.failed + [p.user]), false;
    }
    if says.CannotSee? {
      return res.(skipped := res.skipped + [(p.user, SkipCannotSee)]), false;
    }
    if says.AddFailed? {
      return res.(failed := res.failed + [p.user]), says.gone;
    }
    if says.AlreadyGuest? {
      return res.(skipped := res.skipped + [(p.user, SkipGuest)]), false;
    }
    return res.(letIn := res.letIn + [p.user]), false;
  }
}
