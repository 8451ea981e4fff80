/**
 * The leaderboard: every stored record projected to its public fields, sorted
 * by eco points from highest to lowest, cut to the first ten.
 */
module Leaderboard {
  import opened Records

  const BoardSize: int := 10

  datatype Entry = Entry(userId: UserId, ecoPoints: int, alienLevel: int, totalScans: int)

  function EntryOf(userId: UserId, g: GameState): Entry {
    Entry(userId, g.ecoPoints, g.alienLevel, g.totalScans)
  }

  predicate AllStored(ids: seq<UserId>, states: map<UserId, GameState>) {
    forall i :: 0 <= i < |ids| ==> ids[i] in states
  }

  /** `Array.from(gameStates.entries()).map(...)`: one entry per stored user, in the map's order. */
  function Project(ids: seq<UserId>, states: map<UserId, GameState>): (r: seq<Entry>)
    requires AllStored(ids, states)
    ensures |r| == |ids|
    ensures forall i :: 0 <= i < |ids| ==> r[i] == EntryOf(ids[i], states[ids[i]])
  {
    seq(|ids|, i requires 0 <= i < |ids| => EntryOf(ids[i], states[ids[i]]))
  }

  /** The entry shows the current fields of the record stored under its user id. */
  predicate FromStore(e: Entry, states: map<UserId, GameState>) {
    e.userId in states && e == EntryOf(e.userId, states[e.userId])
  }

  predicate SortedByPointsDesc(s: seq<Entry>) {
    forall i, j :: 0 <= i < j < |s| ==> s[i].ecoPoints >= s[j].ecoPoints
  }

  /**
   * Places `e` before the first entry with no more points than it has, so that
   * among equal scores the earlier entry stays first.
   */
  function Insert(e: Entry, s: seq<Entry>): (r: seq<Entry>)
    ensures |r| == |s| + 1
    ensures r[0] == e || (s != [] && r[0] == s[0])
    ensures SortedByPointsDesc(s) ==> SortedByPointsDesc(r)
  {
    if s == [] then [e]
    else if e.ecoPoints >= s[0].ecoPoints then [e] + s
    else [s[0]] + Insert(e, s[1..])
  }

  lemma {:induction false} InsertPermutes(e: Entry, s: seq<Entry>)
    ensures multiset(Insert(e, s)) == multiset(s) + multiset{e}
  {
    if s != [] && e.ecoPoints < s[0].ecoPoints {
      InsertPermutes(e, s[1..]);
      assert s == [s[0]] + s[1..];
    }
  }

  /**
   * `sort((a, b) => b.ecoPoints - a.ecoPoints)`: a stable sort, highest
   * points first, equal points in their original order.
   */
  function SortByPointsDesc(s: seq<Entry>): (r: seq<Entry>)
    ensures multiset(r) == multiset(s)
    ensures SortedByPointsDesc(r)
  {
    if s == [] then []
    else
      var rest := SortByPointsDesc(s[1..]);
      InsertPermutes(s[0], rest);
      assert s == [s[0]] + s[1..];
      Insert(s[0], rest)
  }

  /** Every entry of a permutation of the projection comes from the store. */
  lemma PermutationFromStore(ids: seq<UserId>, states: map<UserId, GameState>, s: seq<Entry>)
    requires AllStored(ids, states)
    requires multiset(s) <= multiset(Project(ids, states))
    ensures forall e :: e in s ==> FromStore(e, states)
  {
    var all := Project(ids, states);
    forall e | e in s ensures FromStore(e, states) {
      assert e in multiset(s);
      assert e in multiset(all);
      var i :| 0 <= i < |all| && all[i] == e;
    }
  }

  /** A prefix of a sequence holds a sub-multiset of its entries. */
  lemma PrefixSubMultiset(s: seq<Entry>, n: nat)
    requires n <= |s|
    ensures multiset(s[..n]) <= multiset(s)
  {
    assert s == s[..n] + s[n..];
  }

  /** The `/api/leaderboard` answer. */
  function Leaderboard(ids: seq<UserId>, states: map<UserId, GameState>): (board: seq<Entry>)
    requires AllStored(ids, states)
    ensures |board| == if |ids| < BoardSize then |ids| else BoardSize
    ensures SortedByPointsDesc(board)
    ensures multiset(board) <= multiset(Project(ids, states))
    ensures forall e :: e in board ==> FromStore(e, states)
  {
    var sorted := SortByPointsDesc(Project(ids, states));
    var n := if |sorted| < BoardSize then |sorted| else BoardSize;
    PrefixSubMultiset(sorted, n);
    PermutationFromStore(ids, states, sorted[..n]);
    sorted[..n]
  }

  /**
   * The board is the top of the table: every projected entry left off the
   * board has no more points than any entry on it.
   */
  lemma LeaderboardIsTop(ids: seq<UserId>, states: map<UserId, GameState>)
    requires AllStored(ids, states)
    ensures var board := Leaderboard(ids, states);
      forall e: Entry, k :: e in multiset(Project(ids, states)) - multiset(board) && 0 <= k < |board| ==>
        e.ecoPoints <= board[k].ecoPoints
  {
    var sorted := SortByPointsDesc(Project(ids, states));
    var board := Leaderboard(ids, states);
    assert board == sorted[..|board|];
    DroppedTailIsLower(sorted, |board|);
  }

  /** Cutting a sorted sequence leaves behind only entries with no more points than those kept. */
  lemma DroppedTailIsLower(sorted: seq<Entry>, n: nat)
    requires SortedByPointsDesc(sorted) && n <= |sorted|
    ensures forall e: Entry, k :: e in multiset(sorted) - multiset(sorted[..n]) && 0 <= k < n ==>
              e.ecoPoints <= sorted[k].ecoPoints
  {
    assert sorted == sorted[..n] + sorted[n..];
    assert multiset(sorted) - multiset(sorted[..n]) == multiset(sorted[n..]);
    forall e: Entry, k | e in multiset(sorted) - multiset(sorted[..n]) && 0 <= k < n
      ensures e.ecoPoints <= sorted[k].ecoPoints
    {
      assert e in sorted[n..];
      var j :| n <= j < |sorted| && sorted[j] == e;
    }
  }
}
