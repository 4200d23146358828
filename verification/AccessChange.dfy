/**
 * Access changes (commands/temp_vc_lock.go, temp_vc_guest.go and
 * temp_vc_let_in.go): a lock, an unlock or a let-in on a spawned channel, one
 * at a time on one channel, with the members who join meanwhile held until it
 * ends. Each section under the runtime's lock is one step, and each call to
 * Discord is its sending and, later, its answer, whatever that is.
 */
module AccessChanges {
  import opened Wrappers

  type Channel = string
  type User = string
  type Thread = nat

  // ---------------------------------------------------------------------------
  // The record, and the sections under its lock
  // ---------------------------------------------------------------------------

  /** An access change in flight: who runs it, and the joins it holds. */
  datatype Change = Change(owner: Thread, joins: set<User>)

  datatype Record = Record(tracked: set<Channel>, locks: set<Channel>, changes: map<Channel, Change>)

  function Begin(r: Record, ch: Channel, owner: Thread): Record {
    r.(changes := r.changes[ch := Change(owner, {})])
  }

  function Members(users: seq<User>): (s: set<User>)
    ensures forall u :: u in s <==> u in users
  {
    if users == [] then {} else Members(users[..|users| - 1]) + {users[|users| - 1]}
  }

  /** Joins into a channel with a change in flight are held by it. */
  function HoldJoins(r: Record, ch: Channel, users: set<User>): Record {
    if ch in r.tracked && users != {} && ch in r.changes
    then r.(changes := r.changes[ch := r.changes[ch].(joins := r.changes[ch].joins + users)])
    else r
  }

  /** Joins into a locked channel with no change in flight are guests to add at once. */
  predicate AddsNow(r: Record, ch: Channel, users: set<User>) {
    ch in r.tracked && users != {} && ch !in r.changes && ch in r.locks
  }

  /** One turn of a change's end: the joins held go to the guest adds if the channel is locked; else the change is over. */
  predicate TakesJoins(r: Record, ch: Channel)
    requires ch in r.changes
  {
    r.changes[ch].joins != {} && ch in r.locks
  }

  function EndTurn(r: Record, ch: Channel): Record
    requires ch in r.changes
  {
    if TakesJoins(r, ch) then r.(changes := r.changes[ch := r.changes[ch].(joins := {})])
    else r.(changes := r.changes - {ch})
  }

  // ---------------------------------------------------------------------------
  // Runs
  // ---------------------------------------------------------------------------

  datatype Kind = Lock | Unlock | LetIn(picks: seq<User>)

  /** Where a thread is in its change; asking is the member whose guest add Discord has not answered. */
  datatype Phase =
    | Deciding(channel: Channel, kind: Kind)
    | Editing(channel: Channel, kind: Kind, sent: bool)
    | LettingIn(channel: Channel, todo: seq<User>, asking: Option<User>)
    | Ending(channel: Channel, todo: seq<User>, asking: Option<User>)
    | Finished

  /** What goes between the bot and Discord, in order: the guest adds of let-ins and held joins, the edits, and the answers. */
  datatype Message =
    | AddSent(channel: Channel, user: User)
    | AddAnswered(channel: Channel, user: User)
    | EditSent(channel: Channel, unlock: bool)
    | EditAccepted(channel: Channel, unlock: bool)

  /**
   * What became of a change's joins: those it held, handed to the guest adds, and
   * settled; whether the channel went; and, of a let-in, who was picked and who
   * has been decided.
   */
  datatype History = History(taken: set<User>, handed: set<User>, settled: set<User>, gone: bool, picks: seq<User>, decided: seq<User>)

  const NO_HISTORY := History({}, {}, {}, false, [], [])

  datatype End = End(channel: Channel, locked: bool, history: History)

  datatype World = World(record: Record, threads: map<Thread, Phase>, histories: map<Channel, History>,
                         wire: seq<Message>, ends: seq<End>)

  datatype Event =
    | Ask(thread: Thread, channel: Channel, kind: Kind)
    | Refuse(thread: Thread)
    | Start(thread: Thread)
    | SendEdit(thread: Thread)
    | EditAnswer(thread: Thread, accepted: bool, gone: bool)
    | NextMember(thread: Thread, skipped: bool)
    | MemberAnswer(thread: Thread, gone: bool)
    | LetInDone(thread: Thread)
    | Turn(thread: Thread, order: seq<User>)
    | Joins(channel: Channel, users: set<User>)
    | RecordReplaced(tracked: set<Channel>, locks: set<Channel>)

  predicate Active(p: Phase) {
    p.Editing? || p.LettingIn? || p.Ending?
  }

  /** When a channel is idle, and the change what its decision asks of the lock, it begins; the rest is a thread's own order. */
  predicate Possible(w: World, e: Event) {
    match e
    case Ask(th, _, _) => th !in w.threads
    case Refuse(th) => th in w.threads && w.threads[th].Deciding?
    case Start(th) =>
      th in w.threads && w.threads[th].Deciding? && w.threads[th].channel in w.record.tracked
      && w.threads[th].channel !in w.record.changes
      && (w.threads[th].kind.Lock? <==> w.threads[th].channel !in w.record.locks)
    case SendEdit(th) => th in w.threads && w.threads[th].Editing? && !w.threads[th].sent
    case EditAnswer(th, _, _) => th in w.threads && w.threads[th].Editing? && w.threads[th].sent
    case NextMember(th, _) =>
      th in w.threads && (w.threads[th].LettingIn? || w.threads[th].Ending?) && w.threads[th].todo != [] && w.threads[th].asking.None?
    case MemberAnswer(th, _) =>
      th in w.threads && (w.threads[th].LettingIn? || w.threads[th].Ending?) && w.threads[th].asking.Some?
    case LetInDone(th) => th in w.threads && w.threads[th].LettingIn? && w.threads[th].todo == [] && w.threads[th].asking.None?
    case Turn(th, order) =>
      th in w.threads && w.threads[th].Ending? && w.threads[th].todo == [] && w.threads[th].asking.None?
      && w.threads[th].channel in w.record.changes
      && Members(order) == w.record.changes[w.threads[th].channel].joins
    case Joins(_, _) => true
    case RecordReplaced(_, _) => true
  }

  function At(w: World, th: Thread, p: Phase): World {
    w.(threads := w.threads[th := p])
  }

  /** The channel is gone: its tracking and its lock go with it. */
  function Untrack(r: Record, ch: Channel): Record {
    r.(tracked := r.tracked - {ch}, locks := r.locks - {ch})
  }

  function PicksOf(kind: Kind): seq<User> {
    if kind.LetIn? then kind.picks else []
  }

  function StartPhase(ch: Channel, kind: Kind): Phase {
    if kind.LetIn? then LettingIn(ch, kind.picks, None) else Editing(ch, kind, false)
  }

  function CommitEdit(r: Record, ch: Channel, unlock: bool): Record {
    if ch !in r.tracked then r
    else if unlock then r.(locks := r.locks - {ch})
    else r.(locks := r.locks + {ch})
  }

  /** The member at the head of the list is skipped, or asked of Discord. */
  function NextMemberOf(w: World, th: Thread, skipped: bool): World
    requires Possible(w, NextMember(th, skipped))
  {
    var p := w.threads[th];
    var v := if p.LettingIn? then Decide(w, p.channel, p.todo[0]) else w;
    if skipped then
      var s := At(v, th, p.(todo := p.todo[1..]));
      if p.Ending? then Settle(s, p.channel, p.todo[0]) else s
    else At(v, th, p.(todo := p.todo[1..], asking := Some(p.todo[0]))).(wire := w.wire + [AddSent(p.channel, p.todo[0])])
  }

  function Decide(w: World, ch: Channel, u: User): World {
    if ch in w.histories then
      w.(histories := w.histories[ch := w.histories[ch].(decided := w.histories[ch].decided + [u])])
    else w
  }

  function Settle(w: World, ch: Channel, u: User): World {
    if ch in w.histories then
      w.(histories := w.histories[ch := w.histories[ch].(settled := w.histories[ch].settled + {u})])
    else w
  }

  function MarkGone(w: World, ch: Channel): World {
    var v := w.(record := Untrack(w.record, ch));
    if ch in w.histories then v.(histories := w.histories[ch := w.histories[ch].(gone := true)]) else v
  }

  /** Discord answers a guest add. Unknown Channel ends the let-in, or the adds of this turn. */
  function MemberAnswered(w: World, th: Thread, gone: bool): World
    requires Possible(w, MemberAnswer(th, gone))
  {
    var p := w.threads[th];
    var v := w.(wire := w.wire + [AddAnswered(p.channel, p.asking.value)]);
    var s := if p.Ending? then Settle(v, p.channel, p.asking.value) else v;
    if gone then At(MarkGone(s, p.channel), th, Ending(p.channel, [], None))
    else At(s, th, p.(asking := None))
  }

  function TurnOf(w: World, th: Thread, order: seq<User>): World
    requires Possible(w, Turn(th, order))
  {
    var ch := w.threads[th].channel;
    var v := w.(record := EndTurn(w.record, ch));
    if TakesJoins(w.record, ch) then
      var h := if ch in w.histories then w.histories[ch] else NO_HISTORY;
      At(v, th, Ending(ch, order, None)).(histories := w.histories[ch := h.(handed := h.handed + w.record.changes[ch].joins)])
    else
      var h := if ch in w.histories then w.histories[ch] else NO_HISTORY;
      At(v, th, Finished).(histories := w.histories - {ch}, ends := w.ends + [End(ch, ch in w.record.locks, h)])
  }

  function Next(w: World, e: Event): World
    requires Possible(w, e)
  {
    match e
    case Ask(th, ch, kind) => At(w, th, Deciding(ch, kind))
    case Refuse(th) => At(w, th, Finished)
    case Start(th) =>
      var ch := w.threads[th].channel;
      At(w, th, StartPhase(ch, w.threads[th].kind)).(record := Begin(w.record, ch, th),
                                                     histories := w.histories[ch := NO_HISTORY.(picks := PicksOf(w.threads[th].kind))])
    case SendEdit(th) =>
      At(w, th, w.threads[th].(sent := true)).(wire := w.wire + [EditSent(w.threads[th].channel, w.threads[th].kind.Unlock?)])
    case EditAnswer(th, accepted, gone) =>
      var ch := w.threads[th].channel;
      var v := At(w, th, Ending(ch, [], None));
      if accepted then
        v.(record := CommitEdit(w.record, ch, w.threads[th].kind.Unlock?), wire := w.wire + [EditAccepted(ch, w.threads[th].kind.Unlock?)])
      else if gone then MarkGone(v, ch)
      else v
    case NextMember(th, skipped) => NextMemberOf(w, th, skipped)
    case MemberAnswer(th, gone) => MemberAnswered(w, th, gone)
    case LetInDone(th) => At(w, th, Ending(w.threads[th].channel, [], None))
    case Turn(th, order) => TurnOf(w, th, order)
    case Joins(ch, users) =>
      var r := HoldJoins(w.record, ch, users);
      if ch in w.record.tracked && ch in w.histories
      then w.(record := r, histories := w.histories[ch := w.histories[ch].(taken := w.histories[ch].taken + users)])
      else w.(record := r)
    case RecordReplaced(tracked, locks) => w.(record := w.record.(tracked := tracked, locks := locks))
  }

  const IDLE := World(Record({}, {}, map[]), map[], map[], [], [])

  predicate Feasible(events: seq<Event>)
    decreases |events|, 0
  {
    events == [] || (Feasible(events[..|events| - 1]) && Possible(Run(events[..|events| - 1]), events[|events| - 1]))
  }

  function Run(events: seq<Event>): World
    requires Feasible(events)
    decreases |events|, 1
  {
    if events == [] then IDLE else Next(Run(events[..|events| - 1]), events[|events| - 1])
  }

  // ---------------------------------------------------------------------------
  // One change at a time, and its history
  // ---------------------------------------------------------------------------

  /** A thread in a change is the one its channel's change names. */
  ghost predicate OwnsItsChange(w: World, th: Thread) {
    th in w.threads && Active(w.threads[th]) ==>
      w.threads[th].channel in w.record.changes && w.record.changes[w.threads[th].channel].owner == th
  }

  /** A channel's change has its thread in it. */
  ghost predicate HasItsThread(w: World, ch: Channel) {
    ch in w.record.changes ==>
      var th := w.record.changes[ch].owner;
      th in w.threads && Active(w.threads[th]) && w.threads[th].channel == ch
  }

  ghost predicate Exclusive(w: World) {
    && (forall th :: OwnsItsChange(w, th))
    && (forall ch :: HasItsThread(w, ch))
    && w.histories.Keys == w.record.changes.Keys
  }

  /** A step leaves every change with its owner, but for the one it begins or ends. */
  lemma OwnersKept(w: World, e: Event)
    requires Possible(w, e)
    ensures var n := Next(w, e);
            && (e.Start? ==> n.record.changes.Keys == w.record.changes.Keys + {w.threads[e.thread].channel}
                             && n.record.changes[w.threads[e.thread].channel].owner == e.thread)
            && (e.Turn? ==>
                  var ch := w.threads[e.thread].channel;
                  n.record.changes.Keys == w.record.changes.Keys - if TakesJoins(w.record, ch) then {} else {ch})
            && (!e.Start? && !e.Turn? ==> n.record.changes.Keys == w.record.changes.Keys)
            && (forall ch :: ch in n.record.changes && ch in w.record.changes ==> n.record.changes[ch].owner == w.record.changes[ch].owner)
  {}

  /** The thread that acts stays on its channel, and is out of its change only once the change is over. */
  lemma ThreadsKept(w: World, e: Event)
    requires Possible(w, e)
    ensures var n := Next(w, e);
            if e.Joins? || e.RecordReplaced? then n.threads == w.threads
            else
              && e.thread in n.threads && n.threads == w.threads[e.thread := n.threads[e.thread]]
              && (e.Ask? || e.Refuse? ==> !Active(n.threads[e.thread]))
              && (!e.Ask? && !e.Refuse? ==> e.thread in w.threads && !w.threads[e.thread].Finished?)
              && (!e.Ask? && !e.Refuse? && (!e.Turn? || TakesJoins(w.record, w.threads[e.thread].channel)) ==>
                    Active(n.threads[e.thread]) && n.threads[e.thread].channel == w.threads[e.thread].channel)
              && (e.Turn? && !TakesJoins(w.record, w.threads[e.thread].channel) ==> n.threads[e.thread].Finished?)
              && (!e.Ask? && !e.Refuse? && !e.Start? ==> Active(w.threads[e.thread]))
  {}

  lemma HistoriesKept(w: World, e: Event)
    requires Possible(w, e) && w.histories.Keys == w.record.changes.Keys
    ensures Next(w, e).histories.Keys == Next(w, e).record.changes.Keys
  {}

  lemma ExclusiveKept(w: World, e: Event)
    requires Exclusive(w) && Possible(w, e)
    ensures Exclusive(Next(w, e))
  {
    OwnersKept(w, e);
    ThreadsKept(w, e);
    HistoriesKept(w, e);
    hide Next, TakesJoins;
    var n := Next(w, e);
    forall th
      ensures OwnsItsChange(n, th)
    {
      assert OwnsItsChange(w, th);
      if !e.Joins? && !e.RecordReplaced? {
        assert OwnsItsChange(w, e.thread);
      }
    }
    forall ch
      ensures HasItsThread(n, ch)
    {
      assert HasItsThread(w, ch);
    }
  }

  lemma {:induction false} ExclusiveReached(events: seq<Event>)
    requires Feasible(events)
    ensures Exclusive(Run(events))
    decreases |events|
  {
    if events != [] {
      ExclusiveReached(events[..|events| - 1]);
      ExclusiveKept(Run(events[..|events| - 1]), events[|events| - 1]);
    }
  }

  /** Two access changes never overlap on one channel. */
  lemma OneChangeAtATime(events: seq<Event>, a: Thread, b: Thread)
    requires Feasible(events)
    requires var threads := Run(events).threads;
             a in threads && b in threads && Active(threads[a]) && Active(threads[b]) && threads[a].channel == threads[b].channel
    ensures a == b
  {
    ExclusiveReached(events);
    assert OwnsItsChange(Run(events), a) && OwnsItsChange(Run(events), b);
  }

  // ---------------------------------------------------------------------------
  // Every guest add is answered before an edit goes out
  // ---------------------------------------------------------------------------

  /** How many guest adds on the channel Discord has not answered. */
  function Open(wire: seq<Message>, ch: Channel): int
    decreases |wire|
  {
    if wire == [] then 0
    else
      var m := wire[|wire| - 1];
      Open(wire[..|wire| - 1], ch) + if m.channel != ch then 0 else if m.AddSent? then 1 else if m.AddAnswered? then -1 else 0
  }

  lemma OpenMore(wire: seq<Message>, m: Message, ch: Channel)
    ensures Open(wire + [m], ch) == Open(wire, ch) + if m.channel != ch then 0 else if m.AddSent? then 1 else if m.AddAnswered? then -1 else 0
  {
    assert (wire + [m])[..|wire|] == wire;
  }

  /** Whether a thread is waiting for the answer to a guest add. */
  predicate ThreadAsks(w: World, th: Thread) {
    th in w.threads && (w.threads[th].LettingIn? || w.threads[th].Ending?) && w.threads[th].asking.Some?
  }

  /** Whether the channel's change is. */
  predicate AsksNow(w: World, ch: Channel) {
    ch in w.record.changes && ThreadAsks(w, w.record.changes[ch].owner)
  }

  ghost predicate AddsCounted(w: World) {
    forall ch :: Open(w.wire, ch) == if AsksNow(w, ch) then 1 else 0
  }

  /** When an edit went out, every guest add before it on its channel had been answered. */
  ghost predicate EditsAlone(wire: seq<Message>) {
    forall i :: 0 <= i < |wire| && wire[i].EditSent? ==> Open(wire[..i], wire[i].channel) == 0
  }

  /** What a step sends or hears. */
  function Says(w: World, e: Event): seq<Message>
    requires Possible(w, e)
  {
    match e
    case SendEdit(th) => [EditSent(w.threads[th].channel, w.threads[th].kind.Unlock?)]
    case NextMember(th, skipped) => if skipped then [] else [AddSent(w.threads[th].channel, w.threads[th].todo[0])]
    case MemberAnswer(th, _) => [AddAnswered(w.threads[th].channel, w.threads[th].asking.value)]
    case EditAnswer(th, accepted, _) => if accepted then [EditAccepted(w.threads[th].channel, w.threads[th].kind.Unlock?)] else []
    case _ => []
  }

  lemma WireGrows(w: World, e: Event)
    requires Possible(w, e)
    ensures Next(w, e).wire == w.wire + Says(w, e)
  {}

  lemma WhoAsks(w: World, e: Event, th: Thread)
    requires Possible(w, e)
    ensures ThreadAsks(Next(w, e), th) <==>
            if (e.NextMember? || e.MemberAnswer?) && e.thread == th then Says(w, e) != [] && Says(w, e)[0].AddSent?
            else ThreadAsks(w, th)
    ensures e.Start? || e.Turn? ==> !ThreadAsks(w, e.thread)
  {}

  /** What is said is said by a thread in its change, which hears an answer just when it waits for one. */
  lemma WhoSays(w: World, e: Event)
    requires Possible(w, e)
    ensures Says(w, e) != [] ==>
            && |Says(w, e)| == 1 && e.thread in w.threads && Active(w.threads[e.thread]) && Says(w, e)[0].channel == w.threads[e.thread].channel
            && (Says(w, e)[0].AddAnswered? <==> ThreadAsks(w, e.thread))
            && (e.NextMember? <==> Says(w, e)[0].AddSent?) && (e.MemberAnswer? <==> Says(w, e)[0].AddAnswered?)
    ensures Says(w, e) == [] && (e.NextMember? || e.MemberAnswer?) ==> !ThreadAsks(w, e.thread)
  {}

  lemma AddsCountedOn(w: World, e: Event, ch: Channel)
    requires Exclusive(w) && Possible(w, e) && Open(w.wire, ch) == if AsksNow(w, ch) then 1 else 0
    ensures Open(Next(w, e).wire, ch) == if AsksNow(Next(w, e), ch) then 1 else 0
  {
    var n := Next(w, e);
    WireGrows(w, e);
    OwnersKept(w, e);
    WhoSays(w, e);
    hide Next, TakesJoins, Open, Says, ThreadAsks;
    assert HasItsThread(w, ch);
    if ch in n.record.changes {
      WhoAsks(w, e, n.record.changes[ch].owner);
    }
    if !e.Joins? && !e.RecordReplaced? {
      assert OwnsItsChange(w, e.thread);
    }
    if Says(w, e) == [] {
      assert w.wire + [] == w.wire;
    } else {
      assert w.wire + Says(w, e) == w.wire + [Says(w, e)[0]];
      OpenMore(w.wire, Says(w, e)[0], ch);
    }
  }

  lemma AddsCountedKept(w: World, e: Event)
    requires Exclusive(w) && AddsCounted(w) && Possible(w, e)
    ensures AddsCounted(Next(w, e))
  {
    forall ch
      ensures Open(Next(w, e).wire, ch) == if AsksNow(Next(w, e), ch) then 1 else 0
    {
      AddsCountedOn(w, e, ch);
    }
  }

  lemma {:induction false} WireReached(events: seq<Event>)
    requires Feasible(events)
    ensures AddsCounted(Run(events)) && EditsAlone(Run(events).wire)
    decreases |events|
  {
    if events != [] {
      var w, e := Run(events[..|events| - 1]), events[|events| - 1];
      WireReached(events[..|events| - 1]);
      ExclusiveReached(events[..|events| - 1]);
      AddsCountedKept(w, e);
      EditsAloneKept(w, e);
    }
  }

  lemma EditsAloneKept(w: World, e: Event)
    requires Exclusive(w) && AddsCounted(w) && EditsAlone(w.wire) && Possible(w, e)
    ensures EditsAlone(Next(w, e).wire)
  {
    WireGrows(w, e);
    WhoSays(w, e);
    var n := Next(w, e);
    forall i | 0 <= i < |n.wire| && n.wire[i].EditSent?
      ensures Open(n.wire[..i], n.wire[i].channel) == 0
    {
      if i < |w.wire| {
        assert n.wire[..i] == w.wire[..i];
      } else {
        assert n.wire[..i] == w.wire;
        assert OwnsItsChange(w, e.thread);
      }
    }
  }

  /**
   * Over any run, when a lock's or an unlock's edit goes out, Discord has
   * answered every guest add sent before it on that channel, a let-in's or a
   * held join's.
   */
  lemma AddsAnsweredBeforeEdits(events: seq<Event>, i: nat)
    requires Feasible(events) && i < |Run(events).wire| && Run(events).wire[i].EditSent?
    ensures Open(Run(events).wire[..i], Run(events).wire[i].channel) == 0
  {
    WireReached(events);
  }

  // ---------------------------------------------------------------------------
  // No held join is forgotten
  // ---------------------------------------------------------------------------

  /** A change's joins are held or handed on, and those handed on are settled or on its thread's list. */
  ghost predicate JoinsKept(w: World, ch: Channel) {
    ch in w.record.changes && ch in w.histories ==>
      var h := w.histories[ch];
      && h.taken <= w.record.changes[ch].joins + h.handed
      && (h.gone || forall u :: u in h.handed ==> u in h.settled || OnList(w, w.record.changes[ch].owner, u))
  }

  /** The member is yet to be added by a change that is ending, or their add is out. */
  predicate OnList(w: World, th: Thread, u: User) {
    th in w.threads && w.threads[th].Ending? && (u in w.threads[th].todo || w.threads[th].asking == Some(u))
  }

  /** A change that ended on a locked channel handed on every join it held, and settled each unless the channel was gone. */
  ghost predicate EndedWell(end: End) {
    end.locked ==> end.history.taken <= end.history.handed && (end.history.gone || end.history.taken <= end.history.settled)
  }

  /** Of a change that is not its own, a step only adds joins. */
  lemma OthersUntouched(w: World, e: Event, ch: Channel)
    requires Exclusive(w) && Possible(w, e)
    requires ch in w.record.changes && (e.Joins? || e.RecordReplaced? || e.thread != w.record.changes[ch].owner)
    ensures var n := Next(w, e);
            && ch in n.record.changes && n.record.changes[ch].owner == w.record.changes[ch].owner
            && n.threads.Keys >= w.threads.Keys && w.record.changes[ch].owner in n.threads
            && n.threads[w.record.changes[ch].owner] == w.threads[w.record.changes[ch].owner]
            && ch in n.histories
            && (if e.Joins? && e.channel == ch && ch in w.record.tracked then
                  && n.histories[ch] == w.histories[ch].(taken := w.histories[ch].taken + e.users)
                  && n.record.changes[ch].joins == w.record.changes[ch].joins + e.users
                else n.record.changes[ch] == w.record.changes[ch] && n.histories[ch] == w.histories[ch])
  {
    assert HasItsThread(w, ch);
    if !e.Joins? && !e.RecordReplaced? {
      assert OwnsItsChange(w, e.thread);
    }
  }

  lemma OwnStepKeepsJoins(w: World, e: Event, ch: Channel)
    requires Exclusive(w) && Possible(w, e) && JoinsKept(w, ch)
    requires !e.Joins? && !e.RecordReplaced? && ch in w.record.changes && e.thread == w.record.changes[ch].owner
    ensures JoinsKept(Next(w, e), ch)
    ensures Next(w, e).ends == w.ends || (Next(w, e).ends == w.ends + [Next(w, e).ends[|w.ends|]] && EndedWell(Next(w, e).ends[|w.ends|]))
  {
    assert HasItsThread(w, ch);
    var n := Next(w, e);
    if e.NextMember? {
      assert w.threads[e.thread].todo == [w.threads[e.thread].todo[0]] + w.threads[e.thread].todo[1..];
    }
  }

  lemma JoinsKeptKept(w: World, e: Event, ch: Channel)
    requires Exclusive(w) && Possible(w, e) && JoinsKept(w, ch)
    ensures JoinsKept(Next(w, e), ch)
  {
    OwnersKept(w, e);
    if ch in w.record.changes {
      if e.Joins? || e.RecordReplaced? || e.thread != w.record.changes[ch].owner {
        OthersUntouched(w, e, ch);
      } else {
        OwnStepKeepsJoins(w, e, ch);
      }
    }
  }

  lemma EndsKept(w: World, e: Event)
    requires Exclusive(w) && Possible(w, e) && (forall ch :: JoinsKept(w, ch))
    ensures Next(w, e).ends == w.ends || (Next(w, e).ends == w.ends + [Next(w, e).ends[|w.ends|]] && EndedWell(Next(w, e).ends[|w.ends|]))
  {
    if e.Turn? {
      assert OwnsItsChange(w, e.thread);
      assert JoinsKept(w, w.threads[e.thread].channel);
      OwnStepKeepsJoins(w, e, w.threads[e.thread].channel);
    }
  }

  lemma {:induction false} JoinsReached(events: seq<Event>)
    requires Feasible(events)
    ensures forall ch :: JoinsKept(Run(events), ch)
    ensures forall i :: 0 <= i < |Run(events).ends| ==> EndedWell(Run(events).ends[i])
    decreases |events|
  {
    if events != [] {
      var w, e := Run(events[..|events| - 1]), events[|events| - 1];
      JoinsReached(events[..|events| - 1]);
      ExclusiveReached(events[..|events| - 1]);
      forall ch
        ensures JoinsKept(Run(events), ch)
      {
        JoinsKeptKept(w, e, ch);
      }
      EndsKept(w, e);
    }
  }

  /**
   * Over any run, when a change ends the channel is unlocked, or every join it
   * held has been handed to the guest adds while the change still had the
   * channel, and, unless Discord said the channel is gone, each was answered or
   * was of a member no longer inside.
   */
  lemma ChangeEndsUnlockedOrHandedOn(events: seq<Event>, i: nat)
    requires Feasible(events) && i < |Run(events).ends| && Run(events).ends[i].locked
    ensures var h := Run(events).ends[i].history;
            h.taken <= h.handed && (h.gone || h.taken <= h.settled)
  {
    JoinsReached(events);
  }

  /** Members who join a tracked channel are held by the change in flight on it, or added at once if it is locked, never neither. */
  lemma JoinsAreHeldOrAdded(events: seq<Event>, ch: Channel, users: set<User>)
    requires Feasible(events) && ch in Run(events).record.tracked && users != {}
    ensures var r := Run(events).record;
            var after := Next(Run(events), Joins(ch, users)).record;
            && (ch in r.changes ==> ch in after.changes && users <= after.changes[ch].joins && !AddsNow(r, ch, users))
            && (ch !in r.changes ==> after == r && (AddsNow(r, ch, users) <==> ch in r.locks))
  {}

  /**
   * A turn of a change's end on a locked channel hands on the joins held, all of
   * them and once; on any other, or with none held, it ends the change, and the
   * joins with it.
   */
  lemma TurnsHandOn(events: seq<Event>, th: Thread, order: seq<User>)
    requires Feasible(events) && Possible(Run(events), Turn(th, order))
    ensures var w, n := Run(events), Next(Run(events), Turn(th, order));
            var ch := w.threads[th].channel;
            if ch in w.record.locks && w.record.changes[ch].joins != {} then
              && n.threads[th] == Ending(ch, order, None) && Members(order) == w.record.changes[ch].joins
              && ch in n.record.changes && n.record.changes[ch].joins == {} && n.ends == w.ends
            else
              && n.threads[th].Finished? && ch !in n.record.changes
              && |n.ends| == |w.ends| + 1 && n.ends[|w.ends|].channel == ch && (n.ends[|w.ends|].locked <==> ch in w.record.locks)
  {}
}
