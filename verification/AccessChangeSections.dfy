/**
 * The runtime's part of an access change (commands/temp_vc_lock.go and
 * temp_vc_guest.go), each method one section under its lock, proved against
 * the steps of AccessChanges.
 */
module AccessChangeSections {
  import opened AccessChanges

  /** What the caller's rule says at a look: the channel to act on, or why not. */
  datatype Resolved = Named(channel: Channel) | Refusal(error: string)

  /** A look under the lock: what the rule says then, and the record as it is. */
  datatype Look = Look(resolved: Resolved, record: Record)

  datatype Found = Idle(look: nat, channel: Channel) | Refused(look: nat, error: string) | Waiting

  /** The look names a channel that has a change in flight. */
  predicate Busy(look: Look) {
    look.resolved.Named? && look.resolved.channel in look.record.changes
  }

  predicate AllBusy(looks: seq<Look>, n: nat)
    requires n <= |looks|
  {
    forall i :: 0 <= i < n ==> Busy(looks[i])
  }

  /** The wait ends at the first look that is refused or finds its channel idle, the rule asked afresh at each. */
  predicate FoundAt(looks: seq<Look>, found: Found) {
    match found
    case Idle(k, ch) => k < |looks| && AllBusy(looks, k) && looks[k].resolved == Named(ch) && ch !in looks[k].record.changes
    case Refused(k, error) => k < |looks| && AllBusy(looks, k) && looks[k].resolved == Refusal(error)
    case Waiting => AllBusy(looks, |looks|)
  }

  class AccessRuntime {
    /** The spawned channels the record tracks. */
    var tracked: set<Channel>
    var locks: set<Channel>
    var accessChanges: map<Channel, Change>

    ghost function State(): Record
      reads this
    {
      Record(tracked, locks, accessChanges)
    }

    constructor ()
      ensures State() == Record({}, {}, map[])
    {
      tracked, locks, accessChanges := {}, {}, map[];
    }

    /**
     * The wait for a channel with no change in flight. The lock is given up while
     * waiting, so the record is whatever the next look finds; no look left is a
     * wait that has not ended yet.
     */
    method IdleChannelLocked(looks: seq<Look>) returns (found: Found)
      modifies this
      ensures FoundAt(looks, found)
      ensures found.Waiting? || State() == looks[found.look].record
    {
      for i := 0 to |looks|
        invariant AllBusy(looks, i)
      {
        tracked, locks, accessChanges := looks[i].record.tracked, looks[i].record.locks, looks[i].record.changes;
        match looks[i].resolved {
          case Refusal(error) => return Refused(i, error);
          case Named(ch) =>
            if ch !in accessChanges {
              return Idle(i, ch);
            }
        }
      }
      return Waiting;
    }

    /** A lock's, an unlock's or a let-in's beginning: nothing comes between the idle look and the change. */
    method BeginWhenIdle(looks: seq<Look>, owner: Thread) returns (found: Found)
      modifies this
      ensures FoundAt(looks, found)
      ensures found.Idle? ==> found.channel !in looks[found.look].record.changes
                              && State() == Begin(looks[found.look].record, found.channel, owner)
      ensures found.Refused? ==> State() == looks[found.look].record
    {
      found := IdleChannelLocked(looks);
      if found.Idle? {
        BeginAccessChangeLocked(found.channel, owner);
      }
    }

    method BeginAccessChangeLocked(ch: Channel, owner: Thread)
      modifies `accessChanges
      ensures State() == Begin(old(State()), ch, owner)
    {
      accessChanges := accessChanges[ch := Change(owner, {})];
    }

    /** Members joining a channel: those held by its change, and those to add now. */
    method JoinGuestsLocked(ch: Channel, users: seq<User>) returns (now: seq<User>)
      modifies `accessChanges
      ensures State() == HoldJoins(old(State()), ch, Members(users))
      ensures now == if AddsNow(old(State()), ch, Members(users)) then users else []
    {
      assert users != [] ==> users[0] in Members(users);
      if ch !in tracked || users == [] {
        return [];
      }
      if ch in accessChanges {
        var change := accessChanges[ch];
        for i := 0 to |users|
          invariant change == old(accessChanges)[ch].(joins := old(accessChanges)[ch].joins + Members(users[..i]))
        {
          assert users[..i + 1][..i] == users[..i];
          change := change.(joins := change.joins + {users[i]});
        }
        assert users[..|users|] == users;
        accessChanges := accessChanges[ch := change];
        return [];
      }
      if ch !in locks {
        return [];
      }
      return users;
    }

    /** A turn of endAccessChange: the joins to add before the next, or none and the change is over. */
    method EndAccessChangeTurn(ch: Channel) returns (held: set<User>)
      requires ch in accessChanges
      modifies `accessChanges
      ensures State() == EndTurn(old(State()), ch)
      ensures held == if TakesJoins(old(State()), ch) then old(accessChanges)[ch].joins else {}
    {
      var change := accessChanges[ch];
      if change.joins != {} && ch in locks {
        accessChanges := accessChanges[ch := change.(joins := {})];
        return change.joins;
      }
      accessChanges := accessChanges - {ch};
      return {};
    }

    /** Discord accepted the lock's or the unlock's edit. */
    method CommitLockEdit(ch: Channel, unlock: bool)
      modifies `locks
      ensures State() == CommitEdit(old(State()), ch, unlock)
    {
      if ch !in tracked {
        return;
      }
      locks := if unlock then locks - {ch} else locks + {ch};
    }

    method UntrackLocked(ch: Channel)
      modifies `tracked, `locks
      ensures State() == Untrack(old(State()), ch)
    {
      tracked, locks := tracked - {ch}, locks - {ch};
    }
  }

  // ---------------------------------------------------------------------------
  // The runtime follows the run
  // ---------------------------------------------------------------------------

  method Listed(users: set<User>) returns (order: seq<User>)
    ensures Members(order) == users
  {
    order := [];
    var left := users;
    while left != {}
      invariant left <= users && Members(order) == users - left
      decreases |left|
    {
      var u :| u in left;
      assert (order + [u])[..|order|] == order;
      order, left := order + [u], left - {u};
    }
  }

  lemma {:induction false} PrefixFeasible(events: seq<Event>, k: nat)
    requires Feasible(events) && k < |events|
    ensures Feasible(events[..k]) && Possible(Run(events[..k]), events[k])
    ensures Feasible(events[..k + 1]) && Run(events[..k + 1]) == Next(Run(events[..k]), events[k])
    decreases |events|
  {
    hide Next, Possible;
    assert events[..k + 1][..k] == events[..k];
    if k < |events| - 1 {
      PrefixFeasible(events[..|events| - 1], k);
      assert events[..|events| - 1][..k] == events[..k];
      assert events[..|events| - 1][..k + 1] == events[..k + 1];
    } else {
      assert events[..k + 1] == events;
    }
  }

  /** The runtime's methods, called as a run's events call them, keep the record as the run has it. */
  method Replay(events: seq<Event>) returns (runtime: AccessRuntime)
    requires Feasible(events)
    ensures fresh(runtime) && runtime.State() == Run(events).record
  {
    runtime := new AccessRuntime();
    var w := IDLE;
    for i := 0 to |events|
      invariant Feasible(events[..i]) && w == Run(events[..i])
      invariant fresh(runtime) && runtime.State() == w.record
    {
      PrefixFeasible(events, i);
      Apply(runtime, w, events[i]);
      w := Next(w, events[i]);
    }
    assert events[..|events|] == events;
  }

  /** What an event's goroutine does under the lock. */
  method Apply(runtime: AccessRuntime, w: World, e: Event)
    requires Possible(w, e) && runtime.State() == w.record
    modifies runtime
    ensures runtime.State() == Next(w, e).record
  {
    match e
    case Start(th) => runtime.BeginAccessChangeLocked(w.threads[th].channel, th);
    case EditAnswer(th, accepted, gone) =>
      if accepted {
        runtime.CommitLockEdit(w.threads[th].channel, w.threads[th].kind.Unlock?);
      } else if gone {
        runtime.UntrackLocked(w.threads[th].channel);
      }
    case MemberAnswer(th, gone) =>
      if gone {
        runtime.UntrackLocked(w.threads[th].channel);
      }
    case Turn(th, _) => var _ := runtime.EndAccessChangeTurn(w.threads[th].channel);
    case Joins(ch, users) =>
      var order := Listed(users);
      var _ := runtime.JoinGuestsLocked(ch, order);
    case RecordReplaced(tracked, locks) => runtime.tracked, runtime.locks := tracked, locks;
    case _ =>
  }
}
