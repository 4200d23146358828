/**
 * What a restart sweep's rebuild makes of each channel (commands/temp_vc.go), by
 * which spawns have settled rather than by the record's own marks.
 */
module SweepJudgements {
  import opened SpawnSweeps
  import opened Wrappers

  /** Some spawn of the channel has not settled. */
  ghost predicate SpawnUnsettled(w: World, ch: Channel) {
    exists th :: th in w.spawns && Unsettled(w.spawns[th], ch)
  }

  /** A spawn of the channel settled during the sweep that is active now. */
  ghost predicate SettledInSweep(start: World, events: seq<Event>, ch: Channel)
    requires Feasible(start, events)
    decreases |events|
  {
    events != [] &&
    var rest, e := events[..|events| - 1], events[|events| - 1];
    || (e.Settles? && !Run(start, rest).sweep.NoSweep? && Run(start, rest).spawns[e.thread].channel == ch)
    || (!e.SweepFinish? && SettledInSweep(start, rest, ch))
  }

  /** The record's marks say just that. */
  ghost predicate MarksHold(start: World, events: seq<Event>, ch: Channel)
    requires Feasible(start, events)
  {
    var w := Run(start, events);
    && (ch in w.record.inFlight && ch !in w.record.settled <==> SpawnUnsettled(w, ch))
    && (ch in w.record.settled <==> SettledInSweep(start, events, ch))
    && (ch in w.record.settled ==> ch in w.record.inFlight)
  }

  lemma ChannelOfHolds(w: World, ch: Channel)
    requires Holds(w)
    ensures ChannelHolds(w, ch)
  {}

  lemma SpawnOfHolds(w: World, th: Thread)
    requires Holds(w)
    ensures SpawnHolds(w, th)
  {}

  /** Of a channel an event's spawn is not of, no spawn settles or starts. */
  lemma UnsettledElsewhere(w: World, e: Event, ch: Channel)
    requires Possible(w, e) && (IsSpawnEvent(e) ==> Subject(w, e) != Some(ch))
    ensures SpawnUnsettled(Next(w, e), ch) <==> SpawnUnsettled(w, ch)
  {
    var n := Next(w, e);
    if th :| th in w.spawns && Unsettled(w.spawns[th], ch) {
      assert th in n.spawns && Unsettled(n.spawns[th], ch);
    }
    if th :| th in n.spawns && Unsettled(n.spawns[th], ch) {
      assert th in w.spawns && Unsettled(w.spawns[th], ch);
    }
  }

  /** A spawn's own event leaves its channel's spawn unsettled until it settles. */
  lemma UnsettledHere(w: World, e: Event, ch: Channel)
    requires Holds(w) && Possible(w, e) && IsSpawnEvent(e) && Subject(w, e) == Some(ch)
    ensures SpawnUnsettled(Next(w, e), ch) <==> !e.Settles?
    ensures !e.Created? ==> SpawnUnsettled(w, ch)
  {
    var n := Next(w, e);
    SpawnOfHolds(w, e.thread);
    hide Holds;
    if !e.Created? {
      assert Unsettled(w.spawns[e.thread], ch);
    }
    if e.Settles? {
      forall th | th in n.spawns
        ensures !Unsettled(n.spawns[th], ch)
      {
        assert th != e.thread ==> th in w.spawns && n.spawns[th] == w.spawns[th];
      }
    } else {
      assert Unsettled(n.spawns[e.thread], ch);
    }
  }

  lemma NothingInFlight(start: World, ch: Channel)
    requires Feasible(start, [])
    ensures MarksHold(start, [], ch)
  {}

  /** How an event changes the record's marks on a channel. */
  lemma MarksMove(w: World, e: Event, ch: Channel)
    requires Holds(w) && Possible(w, e)
    ensures var r, n := w.record, Next(w, e).record;
            var settles := e.Settles? && w.spawns[e.thread].channel == ch;
            && (ch in n.settled <==> !e.SweepFinish? && (ch in r.settled || (settles && ch in r.inFlight && !w.sweep.NoSweep?)))
            && (ch in n.inFlight <==>
                  || (e.Created? && e.channel == ch)
                  || (ch in r.inFlight && !(settles && w.sweep.NoSweep?) && !(e.SweepFinish? && ch in r.settled)))
  {
    hide SpawnHolds, ChannelHolds, Gone, IsNext;
  }

  lemma {:induction false} MarksReached(start: World, events: seq<Event>, ch: Channel)
    requires Feasible(start, events)
    ensures MarksHold(start, events, ch)
    decreases |events|
  {
    if events == [] {
      NothingInFlight(start, ch);
    } else {
      var rest, e := events[..|events| - 1], events[|events| - 1];
      var w := Run(start, rest);
      MarksReached(start, rest, ch);
      HoldsReached(start, rest);
      MarksMove(w, e, ch);
      ChannelOfHolds(w, ch);
      if e.Created? {
        ChannelOfHolds(w, e.channel);
      }
      if e.Settles? {
        SpawnOfHolds(w, e.thread);
      }
      if IsSpawnEvent(e) && Subject(w, e) == Some(ch) {
        UnsettledHere(w, e, ch);
      } else {
        UnsettledElsewhere(w, e, ch);
      }
      hide Holds, Next, SpawnUnsettled, Possible;
    }
  }

  /** Over any run, a channel is in flight if and only if a spawn of it has not settled, or settled during the sweep active now. */
  lemma InFlightIsUnsettled(start: World, events: seq<Event>, ch: Channel)
    requires Feasible(start, events)
    ensures ch in Run(start, events).record.inFlight <==>
            SpawnUnsettled(Run(start, events), ch) || SettledInSweep(start, events, ch)
  {
    MarksReached(start, events, ch);
  }

  /**
   * Over any run, what a rebuild leaves of a channel: with a spawn of it
   * unsettled, or settled during the sweep, as it was; else tracked at its row's
   * place if its row was listed and the snapshot shows it; else untracked, and a
   * row of it that was listed is to go. No other rebuild follows in that sweep.
   */
  lemma RebuildJudges(start: World, events: seq<Event>, shown: set<Channel>, ch: Channel)
    requires Feasible(start, events) && Run(start, events).sweep.Listed?
    ensures var w, n := Run(start, events), Next(Run(start, events), SweepRebuild(shown));
            var rows := w.sweep.rows;
            && !n.sweep.Listed?
            && if SpawnUnsettled(w, ch) || SettledInSweep(start, events, ch) then
              && (ch in n.record.tracked <==> ch in w.record.tracked)
              && (ch in w.record.tracked ==> n.record.tracked[ch] == w.record.tracked[ch])
              && (ch in n.rowDeletes <==> ch in w.rowDeletes)
            else
              && (ch in n.record.tracked <==> ch in rows && ch in shown)
              && (ch in n.record.tracked ==> n.record.tracked[ch] == rows[ch])
              && (ch in n.rowDeletes <==> ch in w.rowDeletes || (ch in rows && ch !in shown))
  {
    InFlightIsUnsettled(start, events, ch);
    hide SpawnUnsettled, SettledInSweep, Feasible, Run;
  }

  // ---------------------------------------------------------------------------
  // What is tracked, by what happened
  // ---------------------------------------------------------------------------

  /** Discord says the channel is gone, by its own event or in answer to its spawn's delete. */
  predicate SaysDeleted(w: World, e: Event, ch: Channel) {
    e == ChannelDeleted(ch) || (e.DeleteAnswer? && In(w, e.thread, (p: Phase) => p.Deleting?) && w.spawns[e.thread].channel == ch)
  }

  /** A rebuild that may judge the channel: no spawn of it is unsettled or settled during the sweep. */
  ghost predicate Judges(start: World, events: seq<Event>, e: Event, ch: Channel)
    requires Feasible(start, events)
  {
    e.SweepRebuild? && Run(start, events).sweep.Listed?
    && !SpawnUnsettled(Run(start, events), ch) && !SettledInSweep(start, events, ch)
  }

  /** Created or restored by a rebuild, and neither said to be gone nor passed over by one since. */
  ghost predicate TrackedSoFar(start: World, events: seq<Event>, ch: Channel)
    requires Feasible(start, events)
    decreases |events|
  {
    events != [] &&
    var rest, e := events[..|events| - 1], events[|events| - 1];
    var w := Run(start, rest);
    if e.Created? && e.channel == ch then true
    else if SaysDeleted(w, e, ch) then false
    else if Judges(start, rest, e, ch) then ch in w.sweep.rows && ch in e.shown
    else TrackedSoFar(start, rest, ch)
  }

  /** Said to be gone, or listed and not shown to a rebuild that judged it. */
  ghost predicate RowToGo(start: World, events: seq<Event>, ch: Channel)
    requires Feasible(start, events)
    decreases |events|
  {
    events != [] &&
    var rest, e := events[..|events| - 1], events[|events| - 1];
    var w := Run(start, rest);
    || SaysDeleted(w, e, ch)
    || (Judges(start, rest, e, ch) && ch in w.sweep.rows && ch !in e.shown)
    || RowToGo(start, rest, ch)
  }

  lemma OthersLeaveTracking(w: World, e: Event, ch: Channel)
    requires Possible(w, e) && !e.SweepRebuild?
    ensures ch in Next(w, e).record.tracked <==>
              (e.Created? && e.channel == ch) || (ch in w.record.tracked && !SaysDeleted(w, e, ch))
    ensures ch in Next(w, e).rowDeletes <==> ch in w.rowDeletes || SaysDeleted(w, e, ch)
  {
    hide IsNext, Rebuild;
  }

  /**
   * Over any run, a channel is tracked if and only if a spawn created it or a
   * rebuild restored it, and since then neither Discord said it was gone nor a
   * rebuild that judged it found its row unlisted or the channel not shown; and
   * its row is to go if and only if Discord said so or a rebuild judged it gone.
   */
  lemma {:induction false} TrackedByItsHistory(start: World, events: seq<Event>, ch: Channel)
    requires Feasible(start, events)
    ensures ch in Run(start, events).record.tracked <==> TrackedSoFar(start, events, ch)
    ensures ch in Run(start, events).rowDeletes <==> RowToGo(start, events, ch)
    decreases |events|
  {
    if events != [] {
      var rest, e := events[..|events| - 1], events[|events| - 1];
      var w := Run(start, rest);
      assert Possible(w, e) && Run(start, events) == Next(w, e);
      TrackedByItsHistory(start, rest, ch);
      if e.SweepRebuild? {
        RebuildJudges(start, rest, e.shown, ch);
        assert e == SweepRebuild(e.shown);
      } else {
        OthersLeaveTracking(w, e, ch);
      }
      assert e.Created? || e.SweepRebuild? ==> !SaysDeleted(w, e, ch);
      hide Feasible, Run, Possible, Next, SpawnUnsettled, SettledInSweep, SaysDeleted;
    }
  }
}
