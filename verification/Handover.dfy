/**
 * The handover rule (commands/temp_vc.go): who owns a spawned channel. The
 * election, the handovers of a rank roles save and the one of a voice event.
 */
module Handovers {
  import opened RankLadders

  type UserID = string
  type ChannelID = string

  // ---------------------------------------------------------------------------
  // The order of user IDs
  // ---------------------------------------------------------------------------

  predicate IsDigit(c: char) {
    '0' <= c <= '9'
  }

  /** A decimal number as Discord writes it, with no leading zero. */
  predicate IsID(s: string) {
    s != [] && (forall i :: 0 <= i < |s| ==> IsDigit(s[i])) && (s[0] == '0' ==> |s| == 1)
  }

  function Digit(c: char): nat {
    if IsDigit(c) then c as int - '0' as int else 0
  }

  function Value(s: string): nat {
    if s == [] then 0 else 10 * Value(s[..|s| - 1]) + Digit(s[|s| - 1])
  }

  function Pow10(n: nat): (p: nat)
    ensures p > 0
  {
    if n == 0 then 1 else 10 * Pow10(n - 1)
  }

  /** Strings compared character by character, the shorter first when one begins the other. */
  predicate StringLess(a: string, b: string)
    decreases |a|
  {
    if b == [] then false
    else if a == [] then true
    else a[0] < b[0] || (a[0] == b[0] && StringLess(a[1..], b[1..]))
  }

  predicate LowerUserID(a: UserID, b: UserID) {
    if |a| != |b| then |a| < |b| else StringLess(a, b)
  }

  lemma DigitOrder(a: char, b: char)
    requires IsDigit(a) && IsDigit(b)
    ensures Digit(a) <= 9 && (a < b <==> Digit(a) < Digit(b)) && (a == b <==> Digit(a) == Digit(b))
  {}

  lemma {:induction false} ValueBelow(s: string)
    ensures Value(s) < Pow10(|s|)
    decreases |s|
  {
    if s != [] {
      ValueBelow(s[..|s| - 1]);
    }
  }

  /** A number is its first digit's share and the rest's. */
  lemma {:induction false} ValueFromFront(s: string)
    requires s != []
    ensures Value(s) == Digit(s[0]) * Pow10(|s| - 1) + Value(s[1..])
    decreases |s|
  {
    hide Digit;
    if |s| == 1 {
      assert s[..0] == [] && s[1..] == [];
    } else {
      var front := s[..|s| - 1];
      ValueFromFront(front);
      assert front[1..] == s[1..][..|s| - 2];
      TimesTen(Digit(s[0]), Pow10(|s| - 2));
    }
  }

  lemma TimesTen(d: nat, p: nat)
    ensures 10 * (d * p) == d * (10 * p)
  {}

  /** A higher leading digit outweighs whatever follows. */
  lemma LeadingDigit(d: nat, e: nat, p: nat)
    requires d < e
    ensures d * p + p <= e * p
  {
    assert (e - d - 1) * p >= 0;
  }

  lemma {:induction false} SameLengthOrder(a: string, b: string)
    requires |a| == |b|
    requires forall i :: 0 <= i < |a| ==> IsDigit(a[i]) && IsDigit(b[i])
    ensures StringLess(a, b) <==> Value(a) < Value(b)
    ensures Value(a) == Value(b) ==> a == b
    decreases |a|
  {
    if a != [] {
      SameLengthOrder(a[1..], b[1..]);
      FirstDigitDecides(a, b);
      DigitOrder(a[0], b[0]);
      assert a == [a[0]] + a[1..] && b == [b[0]] + b[1..];
    }
  }

  /** Numbers of one length compare by their first digits, and by the rest when those are equal. */
  lemma FirstDigitDecides(a: string, b: string)
    requires |a| == |b| && a != []
    ensures Digit(a[0]) < Digit(b[0]) ==> Value(a) < Value(b)
    ensures Digit(a[0]) > Digit(b[0]) ==> Value(a) > Value(b)
    ensures Digit(a[0]) == Digit(b[0]) ==> Value(a) - Value(b) == Value(a[1..]) - Value(b[1..])
  {
    hide Digit, Value, Pow10;
    ValueFromFront(a);
    ValueFromFront(b);
    ValueBelow(a[1..]);
    ValueBelow(b[1..]);
    if Digit(a[0]) < Digit(b[0]) {
      LeadingDigit(Digit(a[0]), Digit(b[0]), Pow10(|a| - 1));
    } else if Digit(b[0]) < Digit(a[0]) {
      LeadingDigit(Digit(b[0]), Digit(a[0]), Pow10(|a| - 1));
    }
  }

  lemma {:induction false} PowOrder(m: nat, n: nat)
    requires m <= n
    ensures Pow10(m) <= Pow10(n)
    decreases n
  {
    if m < n {
      PowOrder(m, n - 1);
    }
  }

  lemma ShorterIsLower(a: string, b: string)
    requires IsID(a) && IsID(b) && |a| < |b|
    ensures Value(a) < Value(b)
  {
    hide Value, Pow10;
    ValueBelow(a);
    PowOrder(|a|, |b| - 1);
    ValueFromFront(b);
    DigitOrder('0', b[0]);
    LeadingDigit(0, Digit(b[0]), Pow10(|b| - 1));
  }

  /** lowerUserID orders IDs as numbers, and two IDs are never the same number. */
  lemma LowerUserIDIsNumeric(a: UserID, b: UserID)
    requires IsID(a) && IsID(b)
    ensures LowerUserID(a, b) <==> Value(a) < Value(b)
    ensures Value(a) == Value(b) ==> a == b
  {
    if |a| < |b| {
      ShorterIsLower(a, b);
    } else if |b| < |a| {
      ShorterIsLower(b, a);
    } else {
      SameLengthOrder(a, b);
    }
  }

  // ---------------------------------------------------------------------------
  // The election
  // ---------------------------------------------------------------------------

  /** A member's place on the ladder. */
  type Ranking = string -> int

  /** Nobody ranked is inside, and the winner is empty; or the winner is the least by rank, then by number. */
  ghost predicate Wins(occ: set<UserID>, rankOf: Ranking, winner: UserID) {
    if winner == "" then forall uid :: uid in occ ==> rankOf(uid) >= NO_RANK
    else
      && winner in occ && rankOf(winner) < NO_RANK
      && forall uid :: uid in occ && uid != winner ==>
           rankOf(winner) < rankOf(uid) || (rankOf(winner) == rankOf(uid) && LowerUserID(winner, uid))
  }

  ghost predicate AllIDs(users: set<UserID>) {
    forall uid :: uid in users ==> IsID(uid)
  }

  /** One more candidate, whichever the order they come in. */
  lemma OneMoreCandidate(seen: set<UserID>, rankOf: Ranking, best: UserID, uid: UserID)
    requires AllIDs(seen) && IsID(uid) && uid !in seen && Wins(seen, rankOf, best)
    ensures Wins(seen + {uid}, rankOf,
                 if rankOf(uid) < NO_RANK && (best == "" || rankOf(uid) < rankOf(best) || (rankOf(uid) == rankOf(best) && LowerUserID(uid, best)))
                 then uid else best)
  {
    hide LowerUserID, IsID, Value;
    forall a, b | a in seen + {uid} && b in seen + {uid}
      ensures LowerUserID(a, b) <==> Value(a) < Value(b)
      ensures Value(a) == Value(b) ==> a == b
    {
      LowerUserIDIsNumeric(a, b);
    }
    assert best != "" ==> best in seen;
    assert "" !in seen + {uid} by {
      assert !IsID("") by {
        NotAnID();
      }
    }
  }

  lemma NotAnID()
    ensures !IsID("")
  {}

  method ElectOwner(occ: set<UserID>, rankOf: Ranking) returns (best: UserID)
    requires AllIDs(occ)
    ensures Wins(occ, rankOf, best)
  {
    hide Wins;
    best := "";
    var bestRank := NO_RANK;
    var left := occ;
    NobodyYet(rankOf);
    assert occ - left == {};
    while left != {}
      invariant left <= occ
      invariant Wins(occ - left, rankOf, best)
      invariant best != "" ==> bestRank == rankOf(best)
      decreases |left|
    {
      var uid :| uid in left;
      OneMoreCandidate(occ - left, rankOf, best, uid);
      assert occ - (left - {uid}) == (occ - left) + {uid};
      left := left - {uid};
      var rank := rankOf(uid);
      if rank < NO_RANK && (best == "" || rank < bestRank || (rank == bestRank && LowerUserID(uid, best))) {
        best, bestRank := uid, rank;
      }
    }
    assert occ - left == occ;
  }

  lemma NobodyYet(rankOf: Ranking)
    ensures Wins({}, rankOf, "")
  {}

  /** There is one winner, so the election's answer is the same for every order of the occupants. */
  lemma OneWinner(occ: set<UserID>, rankOf: Ranking, a: UserID, b: UserID)
    requires AllIDs(occ) && Wins(occ, rankOf, a) && Wins(occ, rankOf, b)
    ensures a == b
  {
    if a != b && a != "" && b != "" {
      LowerUserIDIsNumeric(a, b);
      LowerUserIDIsNumeric(b, a);
    }
  }

  lemma {:induction false} SomeoneWins(occ: set<UserID>, rankOf: Ranking)
    requires AllIDs(occ)
    ensures exists winner: UserID :: Wins(occ, rankOf, winner)
    decreases |occ|
  {
    if occ == {} {
      NobodyYet(rankOf);
    } else {
      var uid :| uid in occ;
      SomeoneWins(occ - {uid}, rankOf);
      var best: UserID :| Wins(occ - {uid}, rankOf, best);
      OneMoreCandidate(occ - {uid}, rankOf, best, uid);
      assert (occ - {uid}) + {uid} == occ;
    }
  }

  /** Who the handover rule names among the occupants. */
  ghost function Elected(occ: set<UserID>, rankOf: Ranking): (winner: UserID)
    requires AllIDs(occ)
    ensures Wins(occ, rankOf, winner)
  {
    SomeoneWins(occ, rankOf);
    var winner: UserID :| Wins(occ, rankOf, winner);
    winner
  }
}
