/**
 * Ownership of the spawned channels (commands/temp_vc.go): the handovers of a
 * rank roles save, their preview, and the handover of a voice event.
 */
module Ownerships {
  import opened Handovers
  import opened RankLadders

  type Roles = map<UserID, seq<string>>

  /** A copy of the state cache's voice states; one without the guild confirms nobody. */
  datatype VoiceSnapshot = VoiceSnapshot(present: bool, channelByUser: map<UserID, ChannelID>) {
    function ChannelOf(uid: UserID): ChannelID {
      if uid in channelByUser then channelByUser[uid] else ""
    }
  }

  datatype Handover = Handover(channelID: ChannelID, owner: UserID)

  function RolesOf(roles: Roles, uid: UserID): seq<string> {
    if uid in roles then roles[uid] else []
  }

  function RankOn(ladder: RankLadder, roles: Roles): Ranking
    requires Built(ladder)
  {
    (uid: UserID) => Seniority(ladder, RolesOf(roles, uid))
  }

  /** The member roles with those the cache holds read again. */
  function FreshMemberRoles(roles: Roles, cached: Roles): Roles {
    map uid | uid in roles :: if uid in cached then cached[uid] else roles[uid]
  }

  function OwnerOf(owners: map<ChannelID, UserID>, channelID: ChannelID): UserID {
    if channelID in owners then owners[channelID] else ""
  }

  /** The recorded occupants the snapshot shows inside. */
  function Confirmed(occ: set<UserID>, snap: VoiceSnapshot, channelID: ChannelID): set<UserID> {
    set uid | uid in occ && snap.ChannelOf(uid) == channelID
  }

  /** The owner is inside and a Cav member, so a rank roles save leaves the channel theirs. */
  predicate Keeps(occ: set<UserID>, owner: UserID, rankOf: Ranking) {
    owner != "" && owner in occ && rankOf(owner) < NO_RANK
  }

  ghost predicate AllOccupantIDs(occupants: map<ChannelID, set<UserID>>) {
    forall ch :: ch in occupants ==> AllIDs(occupants[ch])
  }

  ghost function Successor(occ: set<UserID>, snap: VoiceSnapshot, channelID: ChannelID, rankOf: Ranking): UserID
    requires AllIDs(occ)
  {
    Elected(Confirmed(occ, snap, channelID), rankOf)
  }

  /** A save hands the channel over: somebody is inside, the owner does not keep it and the rule names another. */
  ghost predicate HandsOver(occ: set<UserID>, owner: UserID, snap: VoiceSnapshot, ch: ChannelID, rankOf: Ranking)
    requires AllIDs(occ)
  {
    snap.present && occ != {} && !Keeps(occ, owner, rankOf) && Successor(occ, snap, ch, rankOf) != owner
  }

  /** The channels a save hands over, each with its next owner, empty for none. */
  ghost function Plan(occupants: map<ChannelID, set<UserID>>, owners: map<ChannelID, UserID>, snap: VoiceSnapshot,
                      rankOf: Ranking): map<ChannelID, UserID>
    requires AllOccupantIDs(occupants)
  {
    map ch | ch in occupants && HandsOver(occupants[ch], OwnerOf(owners, ch), snap, ch, rankOf) ::
      Successor(occupants[ch], snap, ch, rankOf)
  }

  /** The owners after a plan is carried out. */
  ghost predicate CarriedOut(owners: map<ChannelID, UserID>, plan: map<ChannelID, UserID>, after: map<ChannelID, UserID>) {
    forall ch ::
      && (ch in after <==> if ch in plan then plan[ch] != "" else ch in owners)
      && OwnerOf(after, ch) == if ch in plan then plan[ch] else OwnerOf(owners, ch)
  }

  // ---------------------------------------------------------------------------
  // What a save leaves
  // ---------------------------------------------------------------------------

  lemma FreshTwice(roles: Roles, cached: Roles)
    ensures FreshMemberRoles(FreshMemberRoles(roles, cached), cached) == FreshMemberRoles(roles, cached)
  {}

  /**
   * After a save, every channel with someone inside is its owner's who is there
   * and a Cav member, or is that of the confirmed occupant the rule names. So it
   * has no owner only when no Cav member is confirmed inside.
   */
  lemma SaveAppliesTheRule(occupants: map<ChannelID, set<UserID>>, owners: map<ChannelID, UserID>,
                           after: map<ChannelID, UserID>, snap: VoiceSnapshot, rankOf: Ranking, ch: ChannelID)
    requires AllOccupantIDs(occupants) && snap.present
    requires CarriedOut(owners, Plan(occupants, owners, snap, rankOf), after)
    requires ch in occupants && occupants[ch] != {}
    ensures Keeps(occupants[ch], OwnerOf(after, ch), rankOf) ||
            Wins(Confirmed(occupants[ch], snap, ch), rankOf, OwnerOf(after, ch))
    ensures OwnerOf(after, ch) != "" ==> Keeps(occupants[ch], OwnerOf(after, ch), rankOf)
    ensures OwnerOf(after, ch) == "" ==>
            forall uid :: uid in occupants[ch] && snap.ChannelOf(uid) == ch ==> rankOf(uid) >= NO_RANK
  {
    assert AllIDs(occupants[ch]);
    var winner := Successor(occupants[ch], snap, ch, rankOf);
    assert Wins(Confirmed(occupants[ch], snap, ch), rankOf, winner);
    if !Keeps(occupants[ch], OwnerOf(owners, ch), rankOf) {
      assert OwnerOf(after, ch) == winner;
      assert winner != "" ==> winner in Confirmed(occupants[ch], snap, ch);
      assert winner == "" ==> forall uid :: uid in occupants[ch] && snap.ChannelOf(uid) == ch ==> uid in Confirmed(occupants[ch], snap, ch);
    }
  }

  /** Saving the same ladder again, with the same cache, hands over none. */
  lemma SecondSaveHandsOverNone(occupants: map<ChannelID, set<UserID>>, owners: map<ChannelID, UserID>,
                                after: map<ChannelID, UserID>, snap: VoiceSnapshot, ladder: RankLadder, roles: Roles, cached: Roles)
    requires AllOccupantIDs(occupants) && Built(ladder)
    requires CarriedOut(owners, Plan(occupants, owners, snap, RankOn(ladder, FreshMemberRoles(roles, cached))), after)
    ensures Plan(occupants, after, snap, RankOn(ladder, FreshMemberRoles(FreshMemberRoles(roles, cached), cached))) == map[]
  {
    FreshTwice(roles, cached);
    hide RankOn;
    var rankOf := RankOn(ladder, FreshMemberRoles(roles, cached));
    forall ch | ch in occupants
      ensures !HandsOver(occupants[ch], OwnerOf(after, ch), snap, ch, rankOf)
    {
      if HandsOver(occupants[ch], OwnerOf(after, ch), snap, ch, rankOf) {
        SaveAppliesTheRule(occupants, owners, after, snap, rankOf, ch);
        OneWinner(Confirmed(occupants[ch], snap, ch), rankOf, OwnerOf(after, ch), Successor(occupants[ch], snap, ch, rankOf));
        assert false;
      }
    }
  }

  /** The handovers are the plan's, one of each. */
  ghost predicate Lists(handovers: seq<Handover>, plan: map<ChannelID, UserID>) {
    && |handovers| == |plan|
    && (forall i :: 0 <= i < |handovers| ==> handovers[i].channelID in plan && handovers[i].owner == plan[handovers[i].channelID])
    && (forall i, j :: 0 <= i < j < |handovers| ==> handovers[i].channelID != handovers[j].channelID)
  }

  /** The handovers come in the order of their channels' IDs. */
  ghost predicate InOrder(handovers: seq<Handover>) {
    forall i, j :: 0 <= i < j < |handovers| ==> StringLess(handovers[i].channelID, handovers[j].channelID)
  }

  /** Every handover listed is of a channel before all of those left. */
  ghost predicate Precede(handovers: seq<Handover>, left: set<ChannelID>) {
    forall i, ch :: 0 <= i < |handovers| && ch in left ==> StringLess(handovers[i].channelID, ch)
  }

  lemma OrderOneMore(handovers: seq<Handover>, left: set<ChannelID>, ch: ChannelID, owner: UserID)
    requires InOrder(handovers) && Precede(handovers, left) && ch in left
    requires forall id :: id in left && id != ch ==> StringLess(ch, id)
    ensures InOrder(handovers + [Handover(ch, owner)]) && Precede(handovers + [Handover(ch, owner)], left - {ch})
  {
    hide StringLess;
  }

  lemma {:induction false} StringsCompare(a: string, b: string)
    ensures StringLess(a, b) || a == b || StringLess(b, a)
    decreases |a|
  {
    if a != [] && b != [] && a[0] == b[0] {
      StringsCompare(a[1..], b[1..]);
      assert a == [a[0]] + a[1..] && b == [b[0]] + b[1..];
    }
  }

  lemma {:induction false} StringsChain(a: string, b: string, c: string)
    requires StringLess(a, b) && StringLess(b, c)
    ensures StringLess(a, c)
    decreases |a|
  {
    if a != [] && a[0] == b[0] == c[0] {
      StringsChain(a[1..], b[1..], c[1..]);
    }
  }

  method LeastID(ids: set<ChannelID>) returns (least: ChannelID)
    requires ids != {}
    ensures least in ids && forall id :: id in ids && id != least ==> StringLess(least, id)
  {
    least :| least in ids;
    var left := ids - {least};
    while left != {}
      invariant left <= ids && least in ids - left
      invariant forall id :: id in ids - left && id != least ==> StringLess(least, id)
      decreases |left|
    {
      var id :| id in left;
      left := left - {id};
      StringsCompare(id, least);
      if StringLess(id, least) {
        forall other | other in ids - left && other != id && other != least
          ensures StringLess(id, other)
        {
          StringsChain(id, least, other);
        }
        least := id;
      }
    }
  }

  lemma NothingDone(owners: map<ChannelID, UserID>)
    ensures CarriedOut(owners, map[], owners) && Lists([], map[]) && InOrder([])
    ensures forall left :: Precede([], left)
  {}

  lemma ListOneMore(handovers: seq<Handover>, done: map<ChannelID, UserID>, ch: ChannelID, owner: UserID)
    requires Lists(handovers, done) && ch !in done
    ensures Lists(handovers + [Handover(ch, owner)], done[ch := owner])
  {
    assert done[ch := owner].Keys == done.Keys + {ch};
    assert |done[ch := owner]| == |done[ch := owner].Keys| && |done| == |done.Keys|;
  }

  /** A plan carried out one channel further. */
  lemma CarryOneMore(owners: map<ChannelID, UserID>, done: map<ChannelID, UserID>, now: map<ChannelID, UserID>, ch: ChannelID,
                     owner: UserID, after: map<ChannelID, UserID>)
    requires CarriedOut(owners, done, now) && CarriedOut(now, map[ch := owner], after) && ch !in done
    ensures CarriedOut(owners, done[ch := owner], after)
  {}

  /** The owner a voice event leaves a channel whose owner is not inside. */
  ghost function Reconciled(occ: set<UserID>, waiting: bool, owners: map<ChannelID, UserID>, ch: ChannelID,
                            snap: VoiceSnapshot, rankOf: Ranking): UserID
    requires AllIDs(occ)
  {
    if (occ == {} && !waiting) || (ch in owners && owners[ch] in occ) || !snap.present then OwnerOf(owners, ch)
    else Successor(occ, snap, ch, rankOf)
  }

  // ---------------------------------------------------------------------------
  // The runtime's part of it
  // ---------------------------------------------------------------------------

  lemma WhenItHandsOver(occ: set<UserID>, owner: UserID, snap: VoiceSnapshot, ch: ChannelID, rankOf: Ranking)
    requires AllIDs(occ)
    ensures HandsOver(occ, owner, snap, ch, rankOf) <==>
            snap.present && occ != {} && !(owner != "" && owner in occ && rankOf(owner) < NO_RANK) && Successor(occ, snap, ch, rankOf) != owner
  {}

  class Ownership {
    var occupants: map<ChannelID, set<UserID>>
    var owners: map<ChannelID, UserID>
    /** The channels waiting out a delete delay. */
    var waits: set<ChannelID>
    var memberRoles: Roles
    var ladder: RankLadder

    ghost predicate Valid()
      reads this
    {
      Built(ladder) && AllOccupantIDs(occupants)
    }

    constructor (ladder: RankLadder)
      requires Built(ladder)
      ensures Valid() && occupants == map[] && owners == map[] && this.ladder == ladder
    {
      occupants, owners, waits, memberRoles, this.ladder := map[], map[], {}, map[], ladder;
    }

    method ElectPresentOwner(channelID: ChannelID, snap: VoiceSnapshot, rankOf: Ranking) returns (winner: UserID)
      requires Valid() && channelID in occupants && snap.present
      ensures winner == Successor(occupants[channelID], snap, channelID, rankOf)
    {
      var left := occupants[channelID];
      var inside: set<UserID> := {};
      while left != {}
        invariant left <= occupants[channelID]
        invariant inside == Confirmed(occupants[channelID] - left, snap, channelID)
        decreases |left|
      {
        var uid :| uid in left;
        left := left - {uid};
        if snap.ChannelOf(uid) == channelID {
          inside := inside + {uid};
        }
      }
      assert occupants[channelID] - left == occupants[channelID];
      winner := ElectOwner(inside, rankOf);
      OneWinner(inside, rankOf, winner, Successor(occupants[channelID], snap, channelID, rankOf));
    }

    method RankHandoverPlan(snap: VoiceSnapshot, rankOf: Ranking) returns (plan: map<ChannelID, UserID>)
      requires Valid()
      ensures plan == Plan(occupants, owners, snap, rankOf)
    {
      plan := map[];
      if !snap.present {
        return;
      }
      hide HandsOver, Successor;
      var left := occupants.Keys;
      while left != {}
        invariant left <= occupants.Keys
        invariant forall ch :: ch in plan <==> ch in occupants && ch !in left && HandsOver(occupants[ch], OwnerOf(owners, ch), snap, ch, rankOf)
        invariant forall ch :: ch in plan ==> plan[ch] == Successor(occupants[ch], snap, ch, rankOf)
        decreases |left|
      {
        var channelID :| channelID in left;
        left := left - {channelID};
        var occ := occupants[channelID];
        var current := OwnerOf(owners, channelID);
        WhenItHandsOver(occ, current, snap, channelID, rankOf);
        if occ != {} && !(current != "" && current in occ && rankOf(current) < NO_RANK) {
          var elected := ElectPresentOwner(channelID, snap, rankOf);
          if elected != current {
            plan := plan[channelID := elected];
          }
        }
      }
    }

    method RankRolesHandovers(next: RankLadder, cached: Roles, snap: VoiceSnapshot) returns (count: nat)
      requires Valid() && Built(next)
      ensures count == |Plan(occupants, owners, snap, RankOn(next, FreshMemberRoles(memberRoles, cached)))|
    {
      var plan := RankHandoverPlan(snap, RankOn(next, FreshMemberRoles(memberRoles, cached)));
      count := |plan|;
    }

    method SetOwner(channelID: ChannelID, owner: UserID)
      modifies `owners
      ensures CarriedOut(old(owners), map[channelID := owner], owners)
    {
      if owner == "" {
        owners := owners - {channelID};
        return;
      }
      owners := owners[channelID := owner];
    }

    /** The plan's owners set, channel by channel in the order of their IDs. */
    method CarryOut(plan: map<ChannelID, UserID>) returns (handovers: seq<Handover>)
      modifies `owners
      ensures CarriedOut(old(owners), plan, owners) && Lists(handovers, plan) && InOrder(handovers)
    {
      hide CarriedOut, Lists, InOrder, Precede, StringLess;
      handovers := [];
      ghost var done: map<ChannelID, UserID> := map[];
      NothingDone(owners);
      var left := plan.Keys;
      while left != {}
        invariant left <= plan.Keys
        invariant done.Keys == plan.Keys - left && forall ch :: ch in done ==> done[ch] == plan[ch]
        invariant CarriedOut(old(owners), done, owners) && Lists(handovers, done)
        invariant InOrder(handovers) && Precede(handovers, left)
        decreases |left|
      {
        var channelID := LeastID(left);
        OrderOneMore(handovers, left, channelID, plan[channelID]);
        left := left - {channelID};
        ghost var before := owners;
        SetOwner(channelID, plan[channelID]);
        CarryOneMore(old(owners), done, before, channelID, plan[channelID], owners);
        ListOneMore(handovers, done, channelID, plan[channelID]);
        done := done[channelID := plan[channelID]];
        handovers := handovers + [Handover(channelID, plan[channelID])];
      }
      assert done == plan;
    }

    /** A save of the rank roles. It hands over exactly the channels RankRolesHandovers counts on the same cache. */
    method ApplyRankRoles(next: RankLadder, cached: Roles, snap: VoiceSnapshot) returns (handovers: seq<Handover>)
      requires Valid() && Built(next)
      modifies `owners, `memberRoles, `ladder
      ensures Valid() && ladder == next && memberRoles == FreshMemberRoles(old(memberRoles), cached)
      ensures var plan := Plan(occupants, old(owners), snap, RankOn(next, FreshMemberRoles(old(memberRoles), cached)));
              CarriedOut(old(owners), plan, owners) && Lists(handovers, plan) && InOrder(handovers)
    {
      hide RankOn, FreshMemberRoles, Plan, CarriedOut, Lists, InOrder;
      memberRoles := FreshMemberRoles(memberRoles, cached);
      ladder := next;
      var plan := RankHandoverPlan(snap, RankOn(ladder, memberRoles));
      handovers := CarryOut(plan);
    }

    /** The handover rule on a channel whose occupancy just changed. */
    method ReconcileOwner(channelID: ChannelID, snap: VoiceSnapshot) returns (changed: bool)
      requires Valid()
      modifies `owners
      ensures Valid()
      ensures channelID !in occupants ==> owners == old(owners) && !changed
      ensures channelID in occupants ==>
                && OwnerOf(owners, channelID) ==
                   Reconciled(occupants[channelID], channelID in waits, old(owners), channelID, snap, RankOn(ladder, memberRoles))
                && (forall ch :: ch != channelID ==> OwnerOf(owners, ch) == OwnerOf(old(owners), ch))
                && (changed <==> OwnerOf(owners, channelID) != OwnerOf(old(owners), channelID))
    {
      if channelID !in occupants {
        return false;
      }
      var occ := occupants[channelID];
      if occ == {} && channelID !in waits {
        return false;
      }
      if channelID in owners && owners[channelID] in occ {
        return false;
      }
      if !snap.present {
        return false;
      }
      var current := OwnerOf(owners, channelID);
      var elected := ElectPresentOwner(channelID, snap, RankOn(ladder, memberRoles));
      SetOwner(channelID, elected);
      changed := elected != current;
    }
  }

  /** A voice event's handover is settled: the same record and snapshot hand over no further. */
  lemma ReconciledOnce(occ: set<UserID>, waiting: bool, owners: map<ChannelID, UserID>, after: map<ChannelID, UserID>,
                       ch: ChannelID, snap: VoiceSnapshot, rankOf: Ranking)
    requires AllIDs(occ) && OwnerOf(after, ch) == Reconciled(occ, waiting, owners, ch, snap, rankOf)
    ensures Reconciled(occ, waiting, after, ch, snap, rankOf) == OwnerOf(after, ch)
    ensures snap.present && occ != {} ==> OwnerOf(after, ch) in occ || Wins(Confirmed(occ, snap, ch), rankOf, "")
  {}
}
