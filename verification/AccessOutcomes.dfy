/**
 * What locks, unlocks and let-ins come to over a whole run
 * (commands/temp_vc_lock.go, commands/temp_vc_let_in.go): which way accepted
 * edits leave a channel, what becomes of each member picked, and when a channel
 * counts as gone.
 */
module AccessOutcomes {
  import opened AccessChanges
  import opened Wrappers

  // ---------------------------------------------------------------------------
  // The last accepted edit locks or unlocks
  // ---------------------------------------------------------------------------

  /** Whether the last edit Discord accepted on the channel was an unlock's, if there is one. */
  function LastAccepted(wire: seq<Message>, ch: Channel): Option<bool>
    decreases |wire|
  {
    if wire == [] then None
    else
      var m := wire[|wire| - 1];
      if m.EditAccepted? && m.channel == ch then Some(m.unlock) else LastAccepted(wire[..|wire| - 1], ch)
  }

  /** Nothing but access changes touched the record after the first k events. */
  predicate NothingReplaced(events: seq<Event>, k: nat) {
    forall i :: k <= i < |events| ==> !events[i].RecordReplaced?
  }

  /** The channel is locked as the edits accepted say, or as it was before them; gone, it is neither locked nor tracked. */
  ghost predicate LockedBy(before: World, now: World, ch: Channel) {
    && before.wire <= now.wire
    && (ch in now.record.tracked ==>
          && ch in before.record.tracked
          && var last := LastAccepted(now.wire[|before.wire|..], ch);
             (ch in now.record.locks <==> if last.Some? then !last.value else ch in before.record.locks))
    && (ch in before.record.tracked && ch !in now.record.tracked ==> ch !in now.record.locks)
  }

  /** What an event of a change does to a channel's tracking and lock. */
  lemma LockMoves(w: World, e: Event, ch: Channel)
    requires Possible(w, e) && !e.RecordReplaced?
    ensures var r, n, said := w.record, Next(w, e).record, Says(w, e);
            && (ch in n.tracked ==>
                  && ch in r.tracked
                  && (ch in n.locks <==>
                        if said != [] && said[0].EditAccepted? && said[0].channel == ch then !said[0].unlock else ch in r.locks))
            && (ch !in n.tracked ==> (ch in r.tracked ==> ch !in n.locks) && (ch in n.locks ==> ch in r.locks))
  {}

  lemma LastAcceptedMore(wire: seq<Message>, said: seq<Message>, ch: Channel)
    requires |said| <= 1
    ensures LastAccepted(wire + said, ch) ==
            if said != [] && said[0].EditAccepted? && said[0].channel == ch then Some(said[0].unlock) else LastAccepted(wire, ch)
  {
    if said == [] {
      assert wire + said == wire;
    } else {
      assert (wire + said)[..|wire|] == wire;
    }
  }

  lemma LockedByNext(before: World, w: World, e: Event, ch: Channel)
    requires Possible(w, e) && !e.RecordReplaced? && LockedBy(before, w, ch)
    ensures LockedBy(before, Next(w, e), ch)
  {
    WireGrows(w, e);
    WhoSays(w, e);
    LockMoves(w, e, ch);
    LastAcceptedMore(w.wire[|before.wire|..], Says(w, e), ch);
    assert (w.wire + Says(w, e))[|before.wire|..] == w.wire[|before.wire|..] + Says(w, e);
    hide Next, Says, LastAccepted, Possible;
  }

  /**
   * Over any run, from any moment on with nothing but access changes since, a
   * channel tracked still is locked if and only if the last edit accepted since
   * was a lock's, or none was accepted and it was locked before; and one that has
   * gone since is not locked.
   */
  lemma {:induction false} LockedByLastEdit(events: seq<Event>, k: nat, ch: Channel)
    requires Feasible(events) && k <= |events| && Feasible(events[..k]) && NothingReplaced(events, k)
    ensures LockedBy(Run(events[..k]), Run(events), ch)
    decreases |events|
  {
    if k == |events| {
      assert events[..k] == events;
      var wire := Run(events).wire;
      assert wire[|wire|..] == [];
    } else {
      hide LockedBy, Next, Possible;
      var rest := events[..|events| - 1];
      assert rest[..k] == events[..k];
      assert forall i :: 0 <= i < |rest| ==> rest[i] == events[i];
      LockedByLastEdit(rest, k, ch);
      LockedByNext(Run(events[..k]), Run(rest), events[|events| - 1], ch);
    }
  }

  // ---------------------------------------------------------------------------
  // Every picked member is decided
  // ---------------------------------------------------------------------------

  /** A let-in has decided its picks as far as its list says, and all of them once it is ending, unless the channel went. */
  ghost predicate PicksKept(w: World, ch: Channel) {
    ch in w.record.changes && ch in w.histories && w.record.changes[ch].owner in w.threads ==>
      var p, h := w.threads[w.record.changes[ch].owner], w.histories[ch];
      && (p.LettingIn? ==> h.picks == h.decided + p.todo)
      && (p.Editing? ==> h.picks == h.decided == [])
      && (p.Ending? ==> h.gone || h.picks == h.decided)
  }

  lemma OwnStepKeepsPicks(w: World, e: Event, ch: Channel)
    requires Exclusive(w) && Possible(w, e) && PicksKept(w, ch)
    requires !e.Joins? && !e.RecordReplaced? && ch in w.record.changes && e.thread == w.record.changes[ch].owner
    ensures PicksKept(Next(w, e), ch)
  {
    assert HasItsThread(w, ch);
    if e.NextMember? {
      var p, h := w.threads[e.thread], w.histories[ch];
      assert p.todo == [p.todo[0]] + p.todo[1..];
      assert p.LettingIn? ==> (h.decided + [p.todo[0]]) + p.todo[1..] == h.decided + p.todo;
    }
  }

  lemma StartsPicks(w: World, e: Event, ch: Channel)
    requires Exclusive(w) && Possible(w, e) && ch !in w.record.changes
    ensures PicksKept(Next(w, e), ch)
  {
    OwnersKept(w, e);
    if e.Start? && w.threads[e.thread].channel == ch {
      var kind := w.threads[e.thread].kind;
      assert [] + PicksOf(kind) == PicksOf(kind);
    }
  }

  lemma {:induction false} PicksReached(events: seq<Event>, ch: Channel)
    requires Feasible(events)
    ensures PicksKept(Run(events), ch)
    decreases |events|
  {
    if events != [] {
      hide Next, Possible, Exclusive, PicksKept, OwnsItsChange;
      var w, e := Run(events[..|events| - 1]), events[|events| - 1];
      PicksReached(events[..|events| - 1], ch);
      ExclusiveReached(events[..|events| - 1]);
      if ch !in w.record.changes {
        StartsPicks(w, e, ch);
      } else if e.Joins? || e.RecordReplaced? || e.thread != w.record.changes[ch].owner {
        OtherStepKeepsPicks(w, e, ch);
      } else {
        OwnStepKeepsPicks(w, e, ch);
      }
    }
  }

  lemma OtherStepKeepsPicks(w: World, e: Event, ch: Channel)
    requires Exclusive(w) && Possible(w, e) && PicksKept(w, ch)
    requires ch in w.record.changes && (e.Joins? || e.RecordReplaced? || e.thread != w.record.changes[ch].owner)
    ensures PicksKept(Next(w, e), ch)
  {
    assert HasItsThread(w, ch);
    OthersUntouched(w, e, ch);
    hide Next, Exclusive;
  }

  /** Over any run, a let-in that is ending has decided every member picked, in the order picked, unless the channel was gone. */
  lemma EachPickIsDecided(events: seq<Event>, th: Thread)
    requires Feasible(events) && th in Run(events).threads && Run(events).threads[th].Ending?
    ensures var w := Run(events);
            var ch := w.threads[th].channel;
            ch in w.histories && (w.histories[ch].gone || w.histories[ch].decided == w.histories[ch].picks)
  {
    ExclusiveReached(events);
    assert OwnsItsChange(Run(events), th);
    PicksReached(events, Run(events).threads[th].channel);
  }

  // ---------------------------------------------------------------------------
  // Gone only when Discord says so
  // ---------------------------------------------------------------------------

  /** The event is Discord's answer that the channel is gone. */
  predicate SaysGone(w: World, e: Event, ch: Channel) {
    && ((e.MemberAnswer? && e.gone) || (e.EditAnswer? && !e.accepted && e.gone))
    && e.thread in w.threads && Active(w.threads[e.thread]) && w.threads[e.thread].channel == ch
  }

  ghost predicate HeardGone(events: seq<Event>, ch: Channel) {
    exists j :: 0 <= j < |events| && Feasible(events[..j]) && SaysGone(Run(events[..j]), events[j], ch)
  }

  lemma HeardGoneMore(events: seq<Event>, ch: Channel)
    requires Feasible(events) && events != []
    ensures HeardGone(events[..|events| - 1], ch) || SaysGone(Run(events[..|events| - 1]), events[|events| - 1], ch) ==> HeardGone(events, ch)
  {
    var rest := events[..|events| - 1];
    if HeardGone(rest, ch) {
      var j :| 0 <= j < |rest| && Feasible(rest[..j]) && SaysGone(Run(rest[..j]), rest[j], ch);
      assert rest[..j] == events[..j] && rest[j] == events[j];
    }
  }

  ghost predicate GoneHeard(events: seq<Event>, w: World) {
    && (forall ch :: ch in w.histories && w.histories[ch].gone ==> HeardGone(events, ch))
    && (forall i :: 0 <= i < |w.ends| && w.ends[i].history.gone ==> HeardGone(events, w.ends[i].channel))
  }

  /** An answer that the channel is gone takes its tracking and its lock; no other step of a change does. */
  lemma UntrackedWhenGone(w: World, e: Event, ch: Channel)
    requires Exclusive(w) && Possible(w, e) && !e.RecordReplaced?
    ensures var r, n := w.record, Next(w, e).record;
            && (ch in n.tracked <==> ch in r.tracked && !SaysGone(w, e, ch))
            && (SaysGone(w, e, ch) ==> ch !in n.locks && ch in Next(w, e).histories && Next(w, e).histories[ch].gone)
  {
    if !e.Joins? {
      assert OwnsItsChange(w, e.thread);
    }
  }

  lemma GoneMarked(w: World, e: Event)
    requires Exclusive(w) && Possible(w, e)
    ensures var n := Next(w, e);
            && (forall ch :: ch in n.histories && n.histories[ch].gone ==> (ch in w.histories && w.histories[ch].gone) || SaysGone(w, e, ch))
            && (n.ends == w.ends || (|n.ends| == |w.ends| + 1 && n.ends == w.ends + [n.ends[|w.ends|]]
                                     && (n.ends[|w.ends|].history.gone ==>
                                           n.ends[|w.ends|].channel in w.histories && w.histories[n.ends[|w.ends|].channel].gone)))
  {
    if !e.Joins? && !e.RecordReplaced? {
      assert OwnsItsChange(w, e.thread);
    }
  }

  /** Over any run, a change counts its channel gone only after Discord said so. */
  lemma {:induction false} GoneWasHeard(events: seq<Event>)
    requires Feasible(events)
    ensures GoneHeard(events, Run(events))
    decreases |events|
  {
    if events != [] {
      var rest := events[..|events| - 1];
      GoneWasHeard(rest);
      ExclusiveReached(rest);
      GoneMarked(Run(rest), events[|events| - 1]);
      hide HeardGone, SaysGone, Next, Possible, Exclusive;
      forall ch {
        HeardGoneMore(events, ch);
      }
    }
  }

  // ---------------------------------------------------------------------------
  // A lock is of an unlocked channel
  // ---------------------------------------------------------------------------

  /** While a change that began since is under way, its channel is locked as it was when the change was decided on. */
  ghost predicate AsDecided(w: World, th: Thread) {
    th in w.threads && w.threads[th].Editing? && w.threads[th].channel in w.record.tracked ==>
      (w.threads[th].kind.Lock? <==> w.threads[th].channel !in w.record.locks)
  }

  lemma AsDecidedKept(w: World, e: Event, th: Thread)
    requires Exclusive(w) && Possible(w, e) && !e.RecordReplaced? && AsDecided(w, th)
    requires th in w.threads && w.threads[th].Editing?
    ensures AsDecided(Next(w, e), th)
    ensures th in Next(w, e).threads
    ensures Next(w, e).threads[th].Editing? || !Next(w, e).threads[th].Deciding?
  {
    assert OwnsItsChange(w, th);
    if !e.Joins? {
      assert OwnsItsChange(w, e.thread);
    }
  }

  /**
   * Over any run, a lock's edit goes out on a channel that is not locked and an
   * unlock's on one that is, while nothing but access changes touched the record
   * since the change began: the k-th event.
   */
  lemma {:induction false} EditsTurnTheLock(events: seq<Event>, k: nat, th: Thread)
    requires Feasible(events) && k < |events| && events[k] == Start(th) && NothingReplaced(events, k)
    ensures th in Run(events).threads && !Run(events).threads[th].Deciding? && AsDecided(Run(events), th)
    decreases |events|
  {
    var rest, e := events[..|events| - 1], events[|events| - 1];
    ExclusiveReached(rest);
    if k < |rest| {
      assert NothingReplaced(rest, k);
      EditsTurnTheLock(rest, k, th);
      ThreadsKept(Run(rest), e);
      assert !e.RecordReplaced?;
      if Run(rest).threads[th].Editing? {
        AsDecidedKept(Run(rest), e, th);
      } else {
        NeverEdits(Run(rest), e, th);
      }
    }
  }

  lemma NeverEdits(w: World, e: Event, th: Thread)
    requires Possible(w, e) && th in w.threads && !w.threads[th].Editing? && !w.threads[th].Deciding?
    ensures th in Next(w, e).threads && !Next(w, e).threads[th].Editing? && !Next(w, e).threads[th].Deciding?
  {}

  // ---------------------------------------------------------------------------
  // A lock from beginning to end
  // ---------------------------------------------------------------------------

  lemma RunNext(events: seq<Event>, k: nat)
    requires k < |events| && Feasible(events[..k]) && Possible(Run(events[..k]), events[k])
    ensures Feasible(events[..k + 1]) && Run(events[..k + 1]) == Next(Run(events[..k]), events[k])
  {
    assert events[..k + 1][..k] == events[..k];
  }

  const LOCK_WITH_A_JOIN := [RecordReplaced({"c"}, {}), Ask(0, "c", Lock), Start(0), SendEdit(0), Joins("c", {"u"}),
                             EditAnswer(0, true, false), Turn(0, ["u"]), NextMember(0, false), MemberAnswer(0, false), Turn(0, [])]

  /** The one thread on channel c, and what its change holds. */
  ghost predicate Stage(w: World, phase: Phase, locked: bool, joins: set<User>, wire: seq<Message>) {
    && 0 in w.threads && w.threads[0] == phase && w.record.tracked == {"c"} && w.record.locks == (if locked then {"c"} else {})
    && "c" in w.record.changes && w.record.changes["c"] == Change(0, joins) && w.wire == wire
  }

  lemma LockBegins()
    ensures Feasible(LOCK_WITH_A_JOIN[..3])
    ensures Stage(Run(LOCK_WITH_A_JOIN[..3]), Editing("c", Lock, false), false, {}, [])
  {
    assert LOCK_WITH_A_JOIN[..0] == [] && Feasible([]) && Run([]) == IDLE;
    hide Feasible, Run;
    RunNext(LOCK_WITH_A_JOIN, 0);
    RunNext(LOCK_WITH_A_JOIN, 1);
    RunNext(LOCK_WITH_A_JOIN, 2);
  }

  lemma JoinIsHeld()
    ensures Feasible(LOCK_WITH_A_JOIN[..5])
    ensures Stage(Run(LOCK_WITH_A_JOIN[..5]), Editing("c", Lock, true), false, {"u"}, [EditSent("c", false)])
  {
    LockBegins();
    hide Feasible, Run;
    RunNext(LOCK_WITH_A_JOIN, 3);
    RunNext(LOCK_WITH_A_JOIN, 4);
    assert {} + {"u"} == {"u"};
  }

  lemma JoinIsTaken()
    ensures Feasible(LOCK_WITH_A_JOIN[..7])
    ensures Stage(Run(LOCK_WITH_A_JOIN[..7]), Ending("c", ["u"], None), true, {}, [EditSent("c", false), EditAccepted("c", false)])
  {
    JoinIsHeld();
    hide Feasible, Run;
    RunNext(LOCK_WITH_A_JOIN, 5);
    assert {} + {"c"} == {"c"};
    assert Members(["u"]) == {"u"};
    RunNext(LOCK_WITH_A_JOIN, 6);
  }

  lemma JoinIsAdded()
    ensures Feasible(LOCK_WITH_A_JOIN[..9])
    ensures Stage(Run(LOCK_WITH_A_JOIN[..9]), Ending("c", [], None), true, {},
                  [EditSent("c", false), EditAccepted("c", false), AddSent("c", "u"), AddAnswered("c", "u")])
  {
    JoinIsTaken();
    hide Feasible, Run;
    RunNext(LOCK_WITH_A_JOIN, 7);
    RunNext(LOCK_WITH_A_JOIN, 8);
  }

  /** A lock with one member joining meanwhile: the edit, its answer, then the member's guest add and its answer, and the channel locked. */
  lemma LockWithAJoin()
    ensures Feasible(LOCK_WITH_A_JOIN)
    ensures var w := Run(LOCK_WITH_A_JOIN);
            && w.record.locks == {"c"} && "c" !in w.record.changes && 0 in w.threads && w.threads[0].Finished?
            && w.wire == [EditSent("c", false), EditAccepted("c", false), AddSent("c", "u"), AddAnswered("c", "u")]
  {
    JoinIsAdded();
    hide Feasible, Run;
    RunNext(LOCK_WITH_A_JOIN, 9);
    assert LOCK_WITH_A_JOIN[..10] == LOCK_WITH_A_JOIN;
  }
}
