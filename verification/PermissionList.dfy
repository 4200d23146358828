/**
 * A lock's permission list (commands/temp_vc_lock.go) and a guest add's
 * (commands/temp_vc_guest.go), under the order in which Discord resolves a
 * channel's overwrites. A permission is the number of its bit.
 */
module PermissionLists {
  import opened Wrappers

  type Bit = nat
  type ID = string

  const CONNECT: Bit := 20

  datatype Kind = Role | Member

  datatype Overwrite = Overwrite(id: ID, kind: Kind, allow: set<Bit>, deny: set<Bit>)

  function Deny(o: Overwrite): Overwrite {
    o.(deny := o.deny + {CONNECT}, allow := o.allow - {CONNECT})
  }

  function Allow(o: Overwrite): Overwrite {
    o.(allow := o.allow + {CONNECT}, deny := o.deny - {CONNECT})
  }

  /** The index of the last entry with the ID, the list's length for none. */
  function IndexOf(list: seq<Overwrite>, id: ID): (i: nat)
    ensures i <= |list|
    ensures i < |list| ==> list[i].id == id
    ensures forall j :: (if i < |list| then i else -1) < j < |list| ==> list[j].id != id
    decreases |list|
  {
    if list == [] then 0
    else if list[|list| - 1].id == id then |list| - 1
    else
      var i := IndexOf(list[..|list| - 1], id);
      if i == |list| - 1 then |list| else i
  }

  /** Only the IDs matter to it. */
  lemma {:induction false} IndexOfIDs(a: seq<Overwrite>, b: seq<Overwrite>, id: ID)
    requires |a| == |b| && forall i :: 0 <= i < |a| ==> a[i].id == b[i].id
    ensures IndexOf(a, id) == IndexOf(b, id)
    decreases |a|
  {
    if a != [] {
      IndexOfIDs(a[..|a| - 1], b[..|b| - 1], id);
    }
  }

  /** The list with an entry for the ID, added at its end when it has none. */
  function Ensure(list: seq<Overwrite>, id: ID, kind: Kind): seq<Overwrite> {
    if IndexOf(list, id) < |list| then list else list + [Overwrite(id, kind, {}, {})]
  }

  function DenyAt(list: seq<Overwrite>, i: nat): seq<Overwrite>
    requires i < |list|
  {
    list[i := Deny(list[i])]
  }

  function AllowAt(list: seq<Overwrite>, i: nat): seq<Overwrite>
    requires i < |list|
  {
    list[i := Allow(list[i])]
  }

  lemma EnsureHas(list: seq<Overwrite>, id: ID, kind: Kind)
    ensures IndexOf(Ensure(list, id, kind), id) < |Ensure(list, id, kind)|
  {
    var out := Ensure(list, id, kind);
    assert IndexOf(list, id) == |list| ==> out[|out| - 1].id == id;
  }

  /** Connect denied on the first n entries that are a role's other than a moderator role's. */
  function DenyRoles(list: seq<Overwrite>, moderators: seq<ID>, n: nat): (out: seq<Overwrite>)
    requires n <= |list|
    ensures |out| == |list|
  {
    if n == 0 then list
    else
      var out := DenyRoles(list, moderators, n - 1);
      if list[n - 1].kind == Role && list[n - 1].id !in moderators then DenyAt(out, n - 1) else out
  }

  function DenyOne(list: seq<Overwrite>, id: ID): seq<Overwrite> {
    EnsureHas(list, id, Role);
    var out := Ensure(list, id, Role);
    DenyAt(out, IndexOf(out, id))
  }

  /** Connect allowed for the first n IDs. */
  function AllowEach(list: seq<Overwrite>, ids: seq<ID>, kind: Kind, n: nat): seq<Overwrite>
    requires n <= |ids|
  {
    if n == 0 then list
    else
      var before := AllowEach(list, ids, kind, n - 1);
      EnsureHas(before, ids[n - 1], kind);
      var out := Ensure(before, ids[n - 1], kind);
      AllowAt(out, IndexOf(out, ids[n - 1]))
  }

  /** A lock's list from the channel's current one. */
  function LockList(current: seq<Overwrite>, everyone: ID, moderators: seq<ID>, guests: seq<ID>): seq<Overwrite> {
    var denied := DenyOne(DenyRoles(current, moderators, |current|), everyone);
    AllowEach(AllowEach(denied, moderators, Role, |moderators|), guests, Member, |guests|)
  }

  // ---------------------------------------------------------------------------
  // How Discord resolves a list
  // ---------------------------------------------------------------------------

  /** Who asks: a member, their roles other than @everyone, and what the guild gives them. */
  datatype Asker = Asker(id: ID, roles: set<ID>, base: set<Bit>)

  predicate AnyAllows(list: seq<Overwrite>, kind: Kind, ids: set<ID>, b: Bit) {
    exists i :: 0 <= i < |list| && list[i].kind == kind && list[i].id in ids && b in list[i].allow
  }

  predicate AnyDenies(list: seq<Overwrite>, kind: Kind, ids: set<ID>, b: Bit) {
    exists i :: 0 <= i < |list| && list[i].kind == kind && list[i].id in ids && b in list[i].deny
  }

  /** One level's denies, then its allows. */
  predicate Level(list: seq<Overwrite>, kind: Kind, ids: set<ID>, b: Bit, before: bool) {
    AnyAllows(list, kind, ids, b) || (before && !AnyDenies(list, kind, ids, b))
  }

  /** Discord's order: @everyone, then the roles' denies, then their allows, then the member. */
  predicate Can(list: seq<Overwrite>, everyone: ID, who: Asker, b: Bit) {
    Level(list, Member, {who.id}, b, Level(list, Role, who.roles - {everyone}, b, Level(list, Role, {everyone}, b, b in who.base)))
  }

  // ---------------------------------------------------------------------------
  // What a lock's list says
  // ---------------------------------------------------------------------------

  ghost predicate Distinct(list: seq<Overwrite>) {
    forall i, j :: 0 <= i < j < |list| ==> list[i].id != list[j].id
  }

  ghost predicate HasID(list: seq<Overwrite>, id: ID) {
    exists i :: 0 <= i < |list| && list[i].id == id
  }

  predicate Allows(o: Overwrite) {
    CONNECT in o.allow && CONNECT !in o.deny
  }

  predicate Denies(o: Overwrite) {
    CONNECT in o.deny && CONNECT !in o.allow
  }

  /** The entries agree but for Connect. */
  predicate SameButConnect(o: Overwrite, c: Overwrite) {
    o.id == c.id && o.kind == c.kind && o.allow - {CONNECT} == c.allow - {CONNECT} && o.deny - {CONNECT} == c.deny - {CONNECT}
  }

  /** Who a lock is about: @everyone, the moderator roles and the guests. */
  datatype Lock = Lock(everyone: ID, moderators: seq<ID>, guests: seq<ID>)

  /** An entry of the list so far, @everyone denied and those in allowed allowed. */
  ghost predicate Ruled(o: Overwrite, was: Option<Overwrite>, lock: Lock, allowed: set<ID>) {
    && (was.Some? ==> SameButConnect(o, was.value))
    && (was.None? ==> o.allow + o.deny <= {CONNECT} && (o.kind == Member <==> o.id in lock.guests))
    && (if o.id in allowed then Allows(o)
        else if o.id == lock.everyone || (o.kind == Role && o.id !in lock.moderators) then Denies(o)
        else was == Some(o))
  }

  /** The list so far: the current entries ruled on in place, then the entries added. */
  ghost predicate Marked(current: seq<Overwrite>, list: seq<Overwrite>, lock: Lock, allowed: set<ID>) {
    && |current| <= |list| && Distinct(list)
    && (forall i :: 0 <= i < |list| ==> Ruled(list[i], if i < |current| then Some(current[i]) else None, lock, allowed))
    && (forall id :: id in allowed || id == lock.everyone ==> HasID(list, id))
  }

  /** IDs are Discord's own: a list has one entry for an ID, and no ID is both a role's and a member's. */
  ghost predicate ProperIDs(current: seq<Overwrite>, lock: Lock) {
    && Distinct(current)
    && lock.everyone !in lock.guests && (forall id :: id in lock.moderators ==> id !in lock.guests)
    && (forall i :: 0 <= i < |current| && current[i].id in lock.guests ==> current[i].kind == Member)
    && (forall i :: 0 <= i < |current| && (current[i].id in lock.moderators || current[i].id == lock.everyone) ==> current[i].kind == Role)
  }

  lemma {:induction false} DenyRolesMarks(current: seq<Overwrite>, moderators: seq<ID>, n: nat)
    requires n <= |current|
    ensures var out := DenyRoles(current, moderators, n);
            forall i :: 0 <= i < |current| ==>
              out[i] == if i < n && current[i].kind == Role && current[i].id !in moderators then Deny(current[i]) else current[i]
  {
    if n > 0 {
      DenyRolesMarks(current, moderators, n - 1);
    }
  }

  lemma EnsureKeepsDistinct(list: seq<Overwrite>, id: ID, kind: Kind)
    requires Distinct(list)
    ensures var out := Ensure(list, id, kind);
            && Distinct(out) && |list| <= |out| && out[..|list|] == list
            && IndexOf(out, id) < |out|
            && (forall j :: 0 <= j < |out| && j != IndexOf(out, id) ==> out[j].id != id)
            && (|out| > |list| ==> |out| == |list| + 1 && IndexOf(out, id) == |list| && out[|list|] == Overwrite(id, kind, {}, {}))
  {
    EnsureHas(list, id, kind);
  }

  /** An entry of the current list after the denials. */
  lemma DeniedIsRuled(was: Overwrite, lock: Lock)
    requires was.id == lock.everyone ==> was.kind == Role
    ensures was.kind == Role && was.id !in lock.moderators ==> Ruled(Deny(was), Some(was), lock, {})
    ensures was.id == lock.everyone ==> Ruled(Deny(was), Some(was), lock, {}) && Ruled(Deny(Deny(was)), Some(was), lock, {})
    ensures was.id != lock.everyone && !(was.kind == Role && was.id !in lock.moderators) ==> Ruled(was, Some(was), lock, {})
  {}

  lemma UpdatedDistinct(list: seq<Overwrite>, k: nat, o: Overwrite)
    requires Distinct(list) && k < |list| && o.id == list[k].id
    ensures Distinct(list[k := o])
  {}

  lemma DenyOneMarks(current: seq<Overwrite>, lock: Lock)
    requires ProperIDs(current, lock)
    ensures Marked(current, DenyOne(DenyRoles(current, lock.moderators, |current|), lock.everyone), lock, {})
  {
    hide IndexOf, Ensure, DenyRoles, Ruled, Deny;
    var roles := DenyRoles(current, lock.moderators, |current|);
    DenyRolesMarks(current, lock.moderators, |current|);
    DenyKeepsID();
    assert Distinct(roles);
    EnsureKeepsDistinct(roles, lock.everyone, Role);
    var list := Ensure(roles, lock.everyone, Role);
    var k := IndexOf(list, lock.everyone);
    var out := DenyOne(roles, lock.everyone);
    assert out == list[k := Deny(list[k])];
    UpdatedDistinct(list, k, Deny(list[k]));
    assert out[k].id == lock.everyone;
    forall i | 0 <= i < |out|
      ensures Ruled(out[i], if i < |current| then Some(current[i]) else None, lock, {})
    {
      if i < |current| {
        assert list[i] == roles[i];
        DeniedIsRuled(current[i], lock);
      } else {
        assert i == k;
        AddedIsRuled(lock);
      }
    }
  }

  lemma DenyKeepsID()
    ensures forall o :: Deny(o).id == o.id
  {}

  lemma AddedIsRuled(lock: Lock)
    requires lock.everyone !in lock.guests
    ensures Ruled(Deny(Overwrite(lock.everyone, Role, {}, {})), None, lock, {})
  {}

  lemma AllowOneMarks(current: seq<Overwrite>, list: seq<Overwrite>, lock: Lock, allowed: set<ID>, id: ID, kind: Kind)
    requires Marked(current, list, lock, allowed) && (kind == Member <==> id in lock.guests)
    ensures var out := Ensure(list, id, kind);
            IndexOf(out, id) < |out| && Marked(current, AllowAt(out, IndexOf(out, id)), lock, allowed + {id})
  {
    hide IndexOf, Ensure;
    EnsureKeepsDistinct(list, id, kind);
    var mid := Ensure(list, id, kind);
    var k := IndexOf(mid, id);
    var out := AllowAt(mid, k);
    forall i | 0 <= i < |out|
      ensures Ruled(out[i], if i < |current| then Some(current[i]) else None, lock, allowed + {id})
    {
      if i < |list| {
        assert mid[i] == list[i];
      }
    }
    forall other | other in allowed + {id} || other == lock.everyone
      ensures HasID(out, other)
    {
      if other == id {
        assert out[k].id == id;
      } else {
        var j :| 0 <= j < |list| && list[j].id == other;
        assert out[j].id == other;
      }
    }
  }

  /** The first n IDs. */
  ghost function First(ids: seq<ID>, n: nat): (s: set<ID>)
    requires n <= |ids|
    ensures forall i :: 0 <= i < n ==> ids[i] in s
    ensures forall id :: id in s ==> id in ids
  {
    if n == 0 then {} else First(ids, n - 1) + {ids[n - 1]}
  }

  lemma {:induction false} AllowEachMarks(current: seq<Overwrite>, list: seq<Overwrite>, lock: Lock, allowed: set<ID>,
                                          ids: seq<ID>, kind: Kind, n: nat)
    requires n <= |ids| && Marked(current, list, lock, allowed)
    requires forall i :: 0 <= i < |ids| ==> (kind == Member <==> ids[i] in lock.guests)
    ensures Marked(current, AllowEach(list, ids, kind, n), lock, allowed + First(ids, n))
    decreases n
  {
    hide Marked, Ensure, AllowAt;
    if n == 0 {
      assert allowed + First(ids, 0) == allowed;
    } else {
      AllowEachMarks(current, list, lock, allowed, ids, kind, n - 1);
      AllowOneMarks(current, AllowEach(list, ids, kind, n - 1), lock, allowed + First(ids, n - 1), ids[n - 1], kind);
      assert (allowed + First(ids, n - 1)) + {ids[n - 1]} == allowed + First(ids, n);
    }
  }

  ghost function AllowedIDs(lock: Lock): set<ID> {
    First(lock.moderators, |lock.moderators|) + First(lock.guests, |lock.guests|)
  }

  /** What a lock's list holds, entry by entry. */
  lemma LockMarks(current: seq<Overwrite>, lock: Lock)
    requires ProperIDs(current, lock)
    ensures Marked(current, LockList(current, lock.everyone, lock.moderators, lock.guests), lock, AllowedIDs(lock))
  {
    hide Marked, DenyOne, DenyRoles, AllowEach;
    DenyOneMarks(current, lock);
    var denied := DenyOne(DenyRoles(current, lock.moderators, |current|), lock.everyone);
    var mods := First(lock.moderators, |lock.moderators|);
    AllowEachMarks(current, denied, lock, {}, lock.moderators, Role, |lock.moderators|);
    assert {} + mods == mods;
    AllowEachMarks(current, AllowEach(denied, lock.moderators, Role, |lock.moderators|), lock, mods, lock.guests, Member, |lock.guests|);
  }

  // ---------------------------------------------------------------------------
  // Locking keeps the meaning of everything but Connect
  // ---------------------------------------------------------------------------

  ghost function Locked(current: seq<Overwrite>, lock: Lock): seq<Overwrite> {
    LockList(current, lock.everyone, lock.moderators, lock.guests)
  }

  lemma EveryoneStopped(current: seq<Overwrite>, lock: Lock)
    requires ProperIDs(current, lock) && lock.everyone !in lock.moderators
    ensures AnyDenies(Locked(current, lock), Role, {lock.everyone}, CONNECT)
    ensures !AnyAllows(Locked(current, lock), Role, {lock.everyone}, CONNECT)
  {
    hide LockList;
    LockMarks(current, lock);
    var list := Locked(current, lock);
    var i :| 0 <= i < |list| && list[i].id == lock.everyone;
    assert Ruled(list[i], if i < |current| then Some(current[i]) else None, lock, AllowedIDs(lock));
    assert list[i].kind == Role && Denies(list[i]);
  }

  lemma RolesDecide(current: seq<Overwrite>, lock: Lock, roles: set<ID>)
    requires ProperIDs(current, lock) && lock.everyone !in lock.moderators
    ensures AnyAllows(Locked(current, lock), Role, roles - {lock.everyone}, CONNECT) <==> exists id :: id in roles && id in lock.moderators
  {
    hide LockList;
    LockMarks(current, lock);
    var list := Locked(current, lock);
    if id :| id in roles && id in lock.moderators {
      var i :| 0 <= i < |list| && list[i].id == id;
      assert Ruled(list[i], if i < |current| then Some(current[i]) else None, lock, AllowedIDs(lock));
      assert list[i].kind == Role && Allows(list[i]);
    }
  }

  lemma GuestAllowed(current: seq<Overwrite>, lock: Lock, guest: ID)
    requires ProperIDs(current, lock) && guest in lock.guests
    ensures AnyAllows(Locked(current, lock), Member, {guest}, CONNECT)
  {
    hide LockList;
    LockMarks(current, lock);
    var list := Locked(current, lock);
    var i :| 0 <= i < |list| && list[i].id == guest;
    assert Ruled(list[i], if i < |current| then Some(current[i]) else None, lock, AllowedIDs(lock));
    assert list[i].kind == Member && Allows(list[i]);
  }

  lemma OtherMemberKept(current: seq<Overwrite>, lock: Lock, id: ID)
    requires ProperIDs(current, lock) && id !in lock.guests
    ensures AnyAllows(Locked(current, lock), Member, {id}, CONNECT) <==> AnyAllows(current, Member, {id}, CONNECT)
    ensures AnyDenies(Locked(current, lock), Member, {id}, CONNECT) <==> AnyDenies(current, Member, {id}, CONNECT)
  {
    hide LockList;
    LockMarks(current, lock);
    var list := Locked(current, lock);
    forall i | 0 <= i < |list| && list[i].kind == Member && list[i].id == id
      ensures i < |current| && list[i] == current[i]
    {
      assert Ruled(list[i], if i < |current| then Some(current[i]) else None, lock, AllowedIDs(lock));
    }
    forall i | 0 <= i < |current| && current[i].kind == Member && current[i].id == id
      ensures list[i] == current[i]
    {
      assert Ruled(list[i], Some(current[i]), lock, AllowedIDs(lock));
    }
  }

  /**
   * Who joins a locked channel: its guests; of the others, whom their own
   * overwrite allows; and of those it does not deny, exactly the holders of a
   * moderator role, whatever the guild and the other roles give.
   */
  lemma WhoConnects(current: seq<Overwrite>, lock: Lock, who: Asker)
    requires ProperIDs(current, lock) && lock.everyone !in lock.moderators
    ensures Can(Locked(current, lock), lock.everyone, who, CONNECT) <==>
            || who.id in lock.guests
            || AnyAllows(current, Member, {who.id}, CONNECT)
            || (!AnyDenies(current, Member, {who.id}, CONNECT) && exists id :: id in who.roles && id in lock.moderators)
  {
    hide LockList, AnyAllows, AnyDenies, ProperIDs;
    EveryoneStopped(current, lock);
    RolesDecide(current, lock, who.roles);
    if who.id in lock.guests {
      GuestAllowed(current, lock, who.id);
    } else {
      OtherMemberKept(current, lock, who.id);
    }
  }

  /** As a moderator role, @everyone is allowed Connect. */
  lemma EveryoneIsAllowed(current: seq<Overwrite>, lock: Lock)
    requires ProperIDs(current, lock) && lock.everyone in lock.moderators
    ensures AnyAllows(Locked(current, lock), Role, {lock.everyone}, CONNECT)
  {
    hide LockList;
    LockMarks(current, lock);
    var list := Locked(current, lock);
    var i :| 0 <= i < |list| && list[i].id == lock.everyone;
    assert Ruled(list[i], if i < |current| then Some(current[i]) else None, lock, AllowedIDs(lock));
    assert list[i].kind == Role && Allows(list[i]);
  }

  /**
   * The lock stops strangers, who hold no role and have no overwrite of their
   * own, exactly when @everyone is not itself a moderator role.
   */
  lemma StrangersStopped(current: seq<Overwrite>, lock: Lock, who: Asker)
    requires ProperIDs(current, lock)
    requires who.roles == {} && who.id !in lock.guests
    requires !AnyAllows(current, Member, {who.id}, CONNECT) && !AnyDenies(current, Member, {who.id}, CONNECT)
    ensures Can(Locked(current, lock), lock.everyone, who, CONNECT) <==> lock.everyone in lock.moderators
  {
    if lock.everyone !in lock.moderators {
      WhoConnects(current, lock, who);
    } else {
      hide LockList, Ruled, ProperIDs;
      LockMarks(current, lock);
      OtherMemberKept(current, lock, who.id);
      EveryoneIsAllowed(current, lock);
    }
  }

  const OPEN_LOCK := Lock("everyone", ["everyone"], [])
  const STRANGER := Asker("stranger", {}, {})

  /** With @everyone as a moderator role, a lock lets in a stranger whom the channel kept out before it. */
  lemma EveryoneAsModerator()
    ensures ProperIDs([], OPEN_LOCK)
    ensures !Can([], OPEN_LOCK.everyone, STRANGER, CONNECT)
    ensures Can(Locked([], OPEN_LOCK), OPEN_LOCK.everyone, STRANGER, CONNECT)
  {
    StrangersStopped([], OPEN_LOCK, STRANGER);
  }

  lemma LevelKept(current: seq<Overwrite>, lock: Lock, kind: Kind, ids: set<ID>, b: Bit)
    requires ProperIDs(current, lock) && b != CONNECT
    ensures AnyAllows(Locked(current, lock), kind, ids, b) <==> AnyAllows(current, kind, ids, b)
    ensures AnyDenies(Locked(current, lock), kind, ids, b) <==> AnyDenies(current, kind, ids, b)
  {
    hide LockList;
    LockMarks(current, lock);
    var list := Locked(current, lock);
    forall i | 0 <= i < |list|
      ensures if i < |current| then list[i].id == current[i].id && list[i].kind == current[i].kind
                                    && (b in list[i].allow <==> b in current[i].allow) && (b in list[i].deny <==> b in current[i].deny)
              else b !in list[i].allow && b !in list[i].deny
    {
      var was := if i < |current| then Some(current[i]) else None;
      assert Ruled(list[i], was, lock, AllowedIDs(lock));
      assert b in list[i].allow <==> b in list[i].allow - {CONNECT};
      assert b in list[i].deny <==> b in list[i].deny - {CONNECT};
      assert i < |current| ==> (b in current[i].allow <==> b in current[i].allow - {CONNECT});
      assert i < |current| ==> (b in current[i].deny <==> b in current[i].deny - {CONNECT});
      assert was == None ==> list[i].allow <= {CONNECT} && list[i].deny <= {CONNECT};
    }
  }

  /** Nobody gains or loses any other permission. */
  lemma OtherPermissionsKept(current: seq<Overwrite>, lock: Lock, who: Asker, b: Bit)
    requires ProperIDs(current, lock) && b != CONNECT
    ensures Can(Locked(current, lock), lock.everyone, who, b) <==> Can(current, lock.everyone, who, b)
  {
    hide LockList, AnyAllows, AnyDenies, ProperIDs;
    LevelKept(current, lock, Role, {lock.everyone}, b);
    LevelKept(current, lock, Role, who.roles - {lock.everyone}, b);
    LevelKept(current, lock, Member, {who.id}, b);
  }

  // ---------------------------------------------------------------------------
  // A guest add
  // ---------------------------------------------------------------------------

  /** The first of a list's entries that is the member's own, the list's length for none. */
  function MemberIndex(list: seq<Overwrite>, member: ID): (i: nat)
    ensures i <= |list|
    ensures i < |list| ==> list[i].id == member && list[i].kind == Member
    ensures forall j :: 0 <= j < i ==> !(list[j].id == member && list[j].kind == Member)
    decreases |list|
  {
    if list == [] then 0
    else if list[0].id == member && list[0].kind == Member then 0
    else 1 + MemberIndex(list[1..], member)
  }

  /** The overwrite a guest add sends, none for a member whose overwrite allows Connect already. */
  function GuestAdd(list: seq<Overwrite>, member: ID): Option<Overwrite> {
    var i := MemberIndex(list, member);
    var guest := if i < |list| then list[i] else Overwrite(member, Member, {}, {});
    if CONNECT in guest.allow then None else Some(Allow(guest))
  }

  /** Discord's own: a set replaces the whole overwrite with the ID. */
  function Set(list: seq<Overwrite>, o: Overwrite): seq<Overwrite> {
    var i := IndexOf(list, o.id);
    if i < |list| then list[i := o] else list + [o]
  }

  function AfterGuestAdd(list: seq<Overwrite>, member: ID): seq<Overwrite> {
    if GuestAdd(list, member).Some? then Set(list, GuestAdd(list, member).value) else list
  }

  lemma GuestAddLevels(list: seq<Overwrite>, member: ID, kind: Kind, ids: set<ID>, b: Bit)
    requires Distinct(list) && forall i :: 0 <= i < |list| && list[i].id == member ==> list[i].kind == Member
    requires kind == Role || member !in ids || b != CONNECT
    ensures AnyAllows(AfterGuestAdd(list, member), kind, ids, b) <==> AnyAllows(list, kind, ids, b)
    ensures AnyDenies(AfterGuestAdd(list, member), kind, ids, b) <==> AnyDenies(list, kind, ids, b)
  {
    var out := AfterGuestAdd(list, member);
    var k := MemberIndex(list, member);
    assert IndexOf(list, member) == k;
    assert |list| <= |out| <= |list| + 1;
    assert forall i :: 0 <= i < |list| && i != k ==> out[i] == list[i];
    forall i | 0 <= i < |list|
      ensures out[i].id == list[i].id && out[i].kind == list[i].kind
      ensures b != CONNECT || list[i].id != member ==>
                (b in out[i].allow <==> b in list[i].allow) && (b in out[i].deny <==> b in list[i].deny)
    {}
  }

  /**
   * A guest add gives the member Connect in the channel and changes nothing
   * else: not their other permissions, and nobody else's. Made again it sends
   * nothing.
   */
  lemma GuestAddGivesConnectAlone(list: seq<Overwrite>, member: ID, everyone: ID, who: Asker, b: Bit)
    requires Distinct(list) && forall i :: 0 <= i < |list| && list[i].id == member ==> list[i].kind == Member
    ensures Can(AfterGuestAdd(list, member), everyone, who, b) <==>
            (who.id == member && b == CONNECT) || Can(list, everyone, who, b)
    ensures GuestAdd(AfterGuestAdd(list, member), member) == None
  {
    var out := AfterGuestAdd(list, member);
    var k := MemberIndex(list, member);
    assert IndexOf(list, member) == k;
    assert k < |out| && out[k].id == member && out[k].kind == Member && CONNECT in out[k].allow;
    assert MemberIndex(out, member) == k;
    hide AnyAllows, AnyDenies;
    GuestAddLevels(list, member, Role, {everyone}, b);
    GuestAddLevels(list, member, Role, who.roles - {everyone}, b);
    if who.id != member || b != CONNECT {
      GuestAddLevels(list, member, Member, {who.id}, b);
    } else {
      AnAllow(out, k);
    }
  }

  lemma AnAllow(list: seq<Overwrite>, k: nat)
    requires k < |list| && CONNECT in list[k].allow
    ensures AnyAllows(list, list[k].kind, {list[k].id}, CONNECT)
  {}
}
