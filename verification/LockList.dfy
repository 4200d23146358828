/**
 * lockOverwrites and copyOverwrites (commands/temp_vc_lock.go) on overwrites
 * that are objects: the current list is the state cache's, so a lock changes
 * copies of its entries in place and leaves the entries themselves alone.
 */
module LockLists {
  import opened PermissionLists

  class PermissionOverwrite {
    const id: ID
    const kind: Kind
    var allow: set<Bit>
    var deny: set<Bit>

    constructor (id: ID, kind: Kind, allow: set<Bit>, deny: set<Bit>)
      ensures Value() == Overwrite(id, kind, allow, deny)
    {
      this.id, this.kind, this.allow, this.deny := id, kind, allow, deny;
    }

    ghost function Value(): Overwrite
      reads this
    {
      Overwrite(id, kind, allow, deny)
    }

    method Deny()
      modifies this
      ensures Value() == PermissionLists.Deny(old(Value()))
    {
      deny := deny + {CONNECT};
      allow := allow - {CONNECT};
    }

    method Allow()
      modifies this
      ensures Value() == PermissionLists.Allow(old(Value()))
    {
      allow := allow + {CONNECT};
      deny := deny - {CONNECT};
    }
  }

  ghost function Values(list: seq<PermissionOverwrite>): (values: seq<Overwrite>)
    reads list
    ensures |values| == |list|
    ensures forall i :: 0 <= i < |list| ==> values[i] == list[i].Value()
  {
    if list == [] then [] else Values(list[..|list| - 1]) + [list[|list| - 1].Value()]
  }

  ghost predicate NoAliases(list: seq<PermissionOverwrite>) {
    forall i, j :: 0 <= i < j < |list| ==> list[i] != list[j]
  }

  /** byID has the last entry of each ID, values being the list's. */
  ghost predicate Indexed(list: seq<PermissionOverwrite>, values: seq<Overwrite>, byID: map<ID, PermissionOverwrite>) {
    && |values| == |list|
    && forall id :: (id in byID <==> IndexOf(values, id) < |list|) && (id in byID ==> byID[id] == list[IndexOf(values, id)])
  }

  /** A change to entries in place leaves the index right. */
  lemma IndexKept(list: seq<PermissionOverwrite>, values: seq<Overwrite>, now: seq<Overwrite>, byID: map<ID, PermissionOverwrite>)
    requires Indexed(list, values, byID)
    requires |now| == |values| && forall i :: 0 <= i < |now| ==> now[i].id == values[i].id
    ensures Indexed(list, now, byID)
  {
    forall id
      ensures IndexOf(now, id) == IndexOf(values, id)
    {
      IndexOfIDs(now, values, id);
    }
  }

  lemma IndexOneMore(list: seq<PermissionOverwrite>, values: seq<Overwrite>, byID: map<ID, PermissionOverwrite>,
                     o: PermissionOverwrite, v: Overwrite)
    requires Indexed(list, values, byID)
    ensures Indexed(list + [o], values + [v], byID[v.id := o])
  {
    assert (values + [v])[..|list|] == values;
  }

  /** denyLockBits on the list's k-th entry: no other entry changes. */
  method DenyLockBits(o: PermissionOverwrite, ghost list: seq<PermissionOverwrite>, ghost k: nat,
                      ghost byID: map<ID, PermissionOverwrite>)
    requires k < |list| && o == list[k] && NoAliases(list) && Indexed(list, Values(list), byID)
    modifies o
    ensures Values(list) == DenyAt(old(Values(list)), k) && Indexed(list, Values(list), byID)
  {
    hide Indexed;
    ghost var was := Values(list);
    o.Deny();
    assert forall i :: 0 <= i < |list| && i != k ==> list[i].Value() == was[i];
    IndexKept(list, was, Values(list), byID);
  }

  /** allowLockBits on the list's k-th entry: no other entry changes. */
  method AllowLockBits(o: PermissionOverwrite, ghost list: seq<PermissionOverwrite>, ghost k: nat,
                       ghost byID: map<ID, PermissionOverwrite>)
    requires k < |list| && o == list[k] && NoAliases(list) && Indexed(list, Values(list), byID)
    modifies o
    ensures Values(list) == AllowAt(old(Values(list)), k) && Indexed(list, Values(list), byID)
  {
    hide Indexed;
    ghost var was := Values(list);
    o.Allow();
    assert forall i :: 0 <= i < |list| && i != k ==> list[i].Value() == was[i];
    IndexKept(list, was, Values(list), byID);
  }

  method CopyOverwrites(list: seq<PermissionOverwrite>) returns (out: seq<PermissionOverwrite>)
    ensures Values(out) == Values(list) && NoAliases(out)
    ensures forall i :: 0 <= i < |out| ==> fresh(out[i])
  {
    out := [];
    for i := 0 to |list|
      invariant |out| == i && NoAliases(out)
      invariant forall j :: 0 <= j < |out| ==> fresh(out[j])
      invariant forall j :: 0 <= j < i ==> out[j].Value() == list[j].Value()
    {
      var c := new PermissionOverwrite(list[i].id, list[i].kind, list[i].allow, list[i].deny);
      out := out + [c];
    }
  }

  /** The entry for the ID, added when there is none. */
  method EnsureEntry(list: seq<PermissionOverwrite>, byID: map<ID, PermissionOverwrite>, id: ID, kind: Kind)
    returns (o: PermissionOverwrite, out: seq<PermissionOverwrite>, index: map<ID, PermissionOverwrite>)
    requires NoAliases(list) && Indexed(list, Values(list), byID)
    ensures NoAliases(out) && Indexed(out, Values(out), index) && Values(out) == Ensure(Values(list), id, kind)
    ensures forall i :: 0 <= i < |out| ==> out[i] in list || fresh(out[i])
    ensures IndexOf(Values(out), id) < |out| && o == out[IndexOf(Values(out), id)]
  {
    hide IndexOf;
    ghost var values := Values(list);
    EnsureHas(values, id, kind);
    if id in byID {
      return byID[id], list, byID;
    }
    o := new PermissionOverwrite(id, kind, {}, {});
    out := list + [o];
    index := byID[id := o];
    IndexOneMore(list, values, byID, o, Overwrite(id, kind, {}, {}));
    assert Values(out) == values + [Overwrite(id, kind, {}, {})];
  }

  method IndexByID(list: seq<PermissionOverwrite>) returns (byID: map<ID, PermissionOverwrite>)
    ensures Indexed(list, Values(list), byID)
  {
    hide IndexOf;
    byID := map[];
    Nothing();
    for i := 0 to |list|
      invariant Indexed(list[..i], Values(list)[..i], byID)
    {
      IndexOneMore(list[..i], Values(list)[..i], byID, list[i], Values(list)[i]);
      assert list[..i + 1] == list[..i] + [list[i]] && Values(list)[..i + 1] == Values(list)[..i] + [Values(list)[i]];
      byID := byID[list[i].id := list[i]];
    }
    assert list[..|list|] == list && Values(list)[..|list|] == Values(list);
  }

  lemma Nothing()
    ensures Indexed([], [], map[])
  {}

  /** Connect allowed on the entry of each ID, which is added when there is none. */
  method AllowIDs(list: seq<PermissionOverwrite>, byID: map<ID, PermissionOverwrite>, ids: seq<ID>, kind: Kind)
    returns (out: seq<PermissionOverwrite>, index: map<ID, PermissionOverwrite>)
    requires NoAliases(list) && Indexed(list, Values(list), byID)
    modifies list
    ensures NoAliases(out) && Indexed(out, Values(out), index)
    ensures Values(out) == AllowEach(old(Values(list)), ids, kind, |ids|)
    ensures forall i :: 0 <= i < |out| ==> out[i] in list || fresh(out[i])
  {
    hide IndexOf, Ensure, Indexed, NoAliases, Values, AllowAt;
    out, index := list, byID;
    for n := 0 to |ids|
      invariant NoAliases(out) && Indexed(out, Values(out), index)
      invariant forall i :: 0 <= i < |out| ==> out[i] in list || fresh(out[i])
      invariant Values(out) == AllowEach(old(Values(list)), ids, kind, n)
    {
      var o: PermissionOverwrite;
      o, out, index := EnsureEntry(out, index, ids[n], kind);
      ghost var k := IndexOf(Values(out), ids[n]);
      assert o in out;
      AllowLockBits(o, out, k, index);
    }
  }

  /** Connect denied on each entry that is a role's other than a moderator role's. */
  method DenyOtherRoles(out: seq<PermissionOverwrite>, byID: map<ID, PermissionOverwrite>, moderators: seq<ID>)
    requires NoAliases(out) && Indexed(out, Values(out), byID)
    modifies out
    ensures Indexed(out, Values(out), byID)
    ensures Values(out) == DenyRoles(old(Values(out)), moderators, |out|)
  {
    hide IndexOf, Indexed, NoAliases, Values, DenyAt;
    for i := 0 to |out|
      invariant Indexed(out, Values(out), byID)
      invariant Values(out) == DenyRoles(old(Values(out)), moderators, i)
    {
      if out[i].kind == Role && out[i].id !in moderators {
        assert out[i] in out;
        DenyLockBits(out[i], out, i, byID);
      }
    }
  }

  /** The lock's list, all of it new entries: those of the current list are left as they were. */
  method LockOverwrites(current: seq<PermissionOverwrite>, everyone: ID, moderators: seq<ID>, guests: seq<ID>)
    returns (out: seq<PermissionOverwrite>)
    ensures Values(out) == LockList(old(Values(current)), everyone, moderators, guests)
    ensures forall i :: 0 <= i < |out| ==> fresh(out[i])
  {
    hide IndexOf, Ensure, Indexed, NoAliases, Values, DenyAt, DenyRoles, AllowEach;
    out := CopyOverwrites(current);
    var byID := IndexByID(out);
    DenyOtherRoles(out, byID, moderators);
    var o: PermissionOverwrite;
    o, out, byID := EnsureEntry(out, byID, everyone, Role);
    ghost var k := IndexOf(Values(out), everyone);
    ghost var denied := DenyOne(DenyRoles(old(Values(current)), moderators, |current|), everyone);
    assert o in out && forall i :: 0 <= i < |out| ==> fresh(out[i]);
    DenyLockBits(o, out, k, byID);
    assert Values(out) == denied;
    out, byID := AllowIDs(out, byID, moderators, Role);
    assert forall i :: 0 <= i < |out| ==> fresh(out[i]);
    out, byID := AllowIDs(out, byID, guests, Member);
  }
}
