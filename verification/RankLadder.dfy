/**
 * The rank ladder (commands/rank_ladder.go): the ranks most senior first, the
 * role that counts as each, and who is a Cav member on it.
 */
module RankLadders {
  datatype RankRole = RankRole(abbrev: string, roleID: string)

  /** position holds each rank role's place; discharged is empty for no Discharged role. */
  datatype RankLadder = RankLadder(ranks: seq<RankRole>, position: map<string, nat>, discharged: string)

  /** The code's ranks and their roles, most senior first. */
  function TempVcRankRoles(): (ranks: seq<RankRole>)
    ensures |ranks| == NO_RANK
  {
    [RankRole("GOA", "899324897925414993"), RankRole("GEN", "899325051936079892"), RankRole("LTG", "899325154402914315"),
     RankRole("MG", "899325397391523920"), RankRole("BG", "899325493600473088"), RankRole("COL", "899325943179538432"),
     RankRole("LTC", "899326048590766100"), RankRole("MAJ", "899326126936190986"), RankRole("CPT", "899326238685024267"),
     RankRole("1LT", "899326360185610271"), RankRole("2LT", "899326460974759966"), RankRole("CW5", "899326766664003604"),
     RankRole("CW4", "899326840487940137"), RankRole("CW3", "899326922381746206"), RankRole("CW2", "899327005122764852"),
     RankRole("WO1", "899327096697024572"), RankRole("CSM", "879186756937846796"), RankRole("SGM", "899327773091459213"),
     RankRole("1SG", "899327878615957535"), RankRole("MSG", "899328027538907216"), RankRole("SFC", "899328106366660638"),
     RankRole("SSG", "899328187820044359"), RankRole("SGT", "899328273752928318"), RankRole("CPL", "899328353511813160"),
     RankRole("SPC", "899328418766815283"), RankRole("PFC", "899328498013966417"), RankRole("PVT", "899328617081864202"),
     RankRole("AR", "899328738335027250"), RankRole("RCT", "899328824871882752")]
  }

  const NO_RANK := 29

  // ---------------------------------------------------------------------------
  // Building a ladder
  // ---------------------------------------------------------------------------

  /** The role is some rank's among the first n. */
  ghost predicate HasRank(ranks: seq<RankRole>, n: nat, id: string)
    requires n <= |ranks|
  {
    id != "" && exists i :: 0 <= i < n && ranks[i].roleID == id
  }

  /** position gives each role of the first n ranks the most senior rank it was given to, and nothing else a place. */
  ghost predicate Positions(ranks: seq<RankRole>, n: nat, position: map<string, nat>)
    requires n <= |ranks|
  {
    && (forall id :: id in position <==> HasRank(ranks, n, id))
    && (forall id :: id in position ==> position[id] < n && ranks[position[id]].roleID == id)
    && (forall id, i :: id in position && 0 <= i < position[id] ==> ranks[i].roleID != id)
  }

  ghost predicate Built(l: RankLadder) {
    |l.ranks| == NO_RANK && Positions(l.ranks, NO_RANK, l.position)
  }

  method NewRankLadder(roleOf: RankRole -> string, discharged: string) returns (l: RankLadder)
    ensures Built(l) && l.discharged == discharged
    ensures forall i :: 0 <= i < NO_RANK ==>
              l.ranks[i] == RankRole(TempVcRankRoles()[i].abbrev, roleOf(TempVcRankRoles()[i]))
  {
    hide TempVcRankRoles;
    var code := TempVcRankRoles();
    var ranks: seq<RankRole> := [];
    var position: map<string, nat> := map[];
    for i := 0 to |code|
      invariant |ranks| == i
      invariant forall j :: 0 <= j < i ==> ranks[j] == RankRole(code[j].abbrev, roleOf(code[j]))
      invariant Positions(ranks, i, position)
    {
      ghost var before := ranks;
      var id := roleOf(code[i]);
      ranks := ranks + [RankRole(code[i].abbrev, id)];
      PositionsStep(before, ranks, position);
      if id != "" && id !in position {
        position := position[id := i];
      }
    }
    l := RankLadder(ranks, position, discharged);
  }

  lemma PositionsStep(before: seq<RankRole>, ranks: seq<RankRole>, position: map<string, nat>)
    requires |ranks| == |before| + 1 && ranks[..|before|] == before && Positions(before, |before|, position)
    ensures var id := ranks[|before|].roleID;
            Positions(ranks, |ranks|, if id != "" && id !in position then position[id := |before|] else position)
  {
    var n := |before|;
    var id := ranks[n].roleID;
    forall other
      ensures HasRank(ranks, n + 1, other) <==> HasRank(before, n, other) || (other == id && id != "")
    {
      if HasRank(before, n, other) {
        var i :| 0 <= i < n && before[i].roleID == other;
        assert ranks[i] == before[i];
      }
      if HasRank(ranks, n + 1, other) && other != id {
        var i :| 0 <= i < n + 1 && ranks[i].roleID == other;
        assert before[i] == ranks[i];
      }
      if other == id && id != "" {
        assert ranks[n].roleID == id;
      }
    }
    forall i | 0 <= i < n
      ensures ranks[i] == before[i]
    {}
  }

  // ---------------------------------------------------------------------------
  // Asking it
  // ---------------------------------------------------------------------------

  /** The least of the places the roles have, NO_RANK when none of them is a rank's. */
  function PlaceOf(l: RankLadder, roleIDs: seq<string>): (place: int)
    requires forall id :: id in l.position ==> l.position[id] < NO_RANK
    ensures forall id :: id in roleIDs && id in l.position ==> place <= l.position[id]
    ensures place == NO_RANK || exists id :: id in roleIDs && id in l.position && l.position[id] == place
    decreases |roleIDs|
  {
    if roleIDs == [] then NO_RANK
    else
      var rest := PlaceOf(l, roleIDs[..|roleIDs| - 1]);
      var id := roleIDs[|roleIDs| - 1];
      if id in l.position && l.position[id] < rest then l.position[id] else rest
  }

  method RankRolePlace(l: RankLadder, roleIDs: seq<string>) returns (best: int)
    requires Built(l)
    ensures best == PlaceOf(l, roleIDs)
  {
    best := NO_RANK;
    for i := 0 to |roleIDs|
      invariant best == PlaceOf(l, roleIDs[..i])
    {
      assert roleIDs[..i + 1][..i] == roleIDs[..i];
      if roleIDs[i] in l.position && l.position[roleIDs[i]] < best {
        best := l.position[roleIDs[i]];
      }
    }
    assert roleIDs[..|roleIDs|] == roleIDs;
  }

  predicate Discharged(l: RankLadder, roleIDs: seq<string>) {
    l.discharged != "" && l.discharged in roleIDs
  }

  function Seniority(l: RankLadder, roleIDs: seq<string>): int
    requires Built(l)
  {
    if Discharged(l, roleIDs) then NO_RANK else PlaceOf(l, roleIDs)
  }

  predicate CavMember(l: RankLadder, roleIDs: seq<string>)
    requires Built(l)
  {
    Seniority(l, roleIDs) < NO_RANK
  }

  /** A Cav member's seniority is the first rank of the ladder whose role they hold; nobody else has a place. */
  lemma SeniorityIsFirstRankHeld(l: RankLadder, roleIDs: seq<string>)
    requires Built(l)
    ensures var place := Seniority(l, roleIDs);
            0 <= place <= NO_RANK
            && (place < NO_RANK ==> l.ranks[place].roleID in roleIDs && !Discharged(l, roleIDs))
            && (forall i :: 0 <= i < place && l.ranks[i].roleID in roleIDs && l.ranks[i].roleID != "" ==> Discharged(l, roleIDs))
    ensures CavMember(l, roleIDs) <==>
            !Discharged(l, roleIDs) && exists i :: 0 <= i < NO_RANK && l.ranks[i].roleID != "" && l.ranks[i].roleID in roleIDs
  {
    forall i | 0 <= i < NO_RANK && l.ranks[i].roleID != ""
      ensures l.ranks[i].roleID in l.position && l.position[l.ranks[i].roleID] <= i
    {
      assert HasRank(l.ranks, NO_RANK, l.ranks[i].roleID);
    }
  }

  // ---------------------------------------------------------------------------
  // What a save of the rank roles drops
  // ---------------------------------------------------------------------------

  /** A save from one ladder to the next stops the member counting. */
  predicate Drops(l: RankLadder, next: RankLadder, roleIDs: seq<string>)
    requires Built(l) && Built(next)
  {
    CavMember(l, roleIDs) && !CavMember(next, roleIDs)
  }

  predicate NewDischarged(l: RankLadder, next: RankLadder) {
    next.discharged != "" && next.discharged != l.discharged
  }

  method MayDrop(l: RankLadder, next: RankLadder) returns (may: bool)
    requires Built(l) && Built(next)
    ensures may <==> NewDischarged(l, next) || exists id :: id in l.position && id !in next.position
  {
    if next.discharged != "" && next.discharged != l.discharged {
      return true;
    }
    for i := 0 to |l.ranks|
      invariant forall j :: 0 <= j < i && l.ranks[j].roleID != "" ==> l.ranks[j].roleID in next.position
    {
      if l.ranks[i].roleID != "" && l.ranks[i].roleID !in next.position {
        assert HasRank(l.ranks, NO_RANK, l.ranks[i].roleID);
        return true;
      }
    }
    return false;
  }

  /** A role by which a member counts on l and may count on next no more. */
  predicate DroppedRole(l: RankLadder, next: RankLadder, id: string) {
    id in l.position && id != l.discharged && (NewDischarged(l, next) || id !in next.position)
  }

  /**
   * Some member would be dropped exactly when a rank role that is not the
   * Discharged role too loses its place, or stays while next sets another
   * Discharged role. So whoever a save drops, MayDrop said it may.
   */
  lemma WhenSomeoneDrops(l: RankLadder, next: RankLadder)
    requires Built(l) && Built(next)
    ensures (exists roleIDs :: Drops(l, next, roleIDs)) <==> exists id :: DroppedRole(l, next, id)
  {
    if id :| DroppedRole(l, next, id) {
      var roleIDs := if NewDischarged(l, next) then [id, next.discharged] else [id];
      assert id in roleIDs;
      assert Drops(l, next, roleIDs);
    }
    if roleIDs :| Drops(l, next, roleIDs) {
      var id :| id in roleIDs && id in l.position;
      assert HasRank(l.ranks, NO_RANK, id);
      assert DroppedRole(l, next, id);
    }
  }

  /** MayDrop warns of nothing only when it counts a rank role that is the Discharged role, held by no Cav member. */
  lemma WhenMayDropIsExact(l: RankLadder, next: RankLadder)
    requires Built(l) && Built(next)
    requires l.discharged !in l.position && l.position != map[]
    ensures (exists roleIDs :: Drops(l, next, roleIDs)) <==>
            NewDischarged(l, next) || exists id :: id in l.position && id !in next.position
  {
    WhenSomeoneDrops(l, next);
    var some :| some in l.position;
    if NewDischarged(l, next) {
      assert DroppedRole(l, next, some);
    } else if id :| id in l.position && id !in next.position {
      assert DroppedRole(l, next, id);
    }
    if id :| DroppedRole(l, next, id) {
      assert NewDischarged(l, next) || (id in l.position && id !in next.position);
    }
  }
}
