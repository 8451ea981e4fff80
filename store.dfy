/**
 * The server's in-memory `gameStates` map, the handlers that change it (lazy
 * creation of a record, the scan-waste, complete-mission and regenerate-alien
 * requests) and the leaderboard that reads it. Each handler changes the stored record field by
 * field, as the source does, and is proved equal to the pure definition in
 * Records and Progress.
 */
module GameStore {
  import opened Wrappers
  import opened Alien
  import opened Records
  import opened AntiCheat
  import opened Progress
  import Leaderboard

  class Store {
    /** The map's keys in insertion order (a JavaScript Map iterates in that order). */
    var ids: seq<UserId>
    /** The record of each user. */
    var states: map<UserId, GameState>

    ghost predicate Valid()
      reads this
    {
      && (forall i :: 0 <= i < |ids| ==> ids[i] in states)
      && (forall u :: u in states ==> u in ids)
      && (forall i, j :: 0 <= i < j < |ids| ==> ids[i] != ids[j])
      && (forall u :: u in states ==> WellFormed(states[u]))
    }

    /** The empty map the server starts with. */
    constructor ()
      ensures Valid()
      ensures ids == [] && states == map[]
    {
      ids := [];
      states := map[];
    }

    /**
     * initializeGameState: stores the default record when the user has none,
     * and returns the stored record. A second call changes nothing.
     */
    method InitializeGameState(userId: UserId, now: int) returns (g: GameState)
      requires Valid()
      modifies this
      ensures Valid()
      ensures userId in old(states) ==> states == old(states) && ids == old(ids) && g == old(states)[userId]
      ensures userId !in old(states) ==>
                && states == old(states)[userId := InitialState(userId, now)]
                && ids == old(ids) + [userId]
                && g == InitialState(userId, now)
      ensures userId in states && g == states[userId]
    {
      if userId !in states {
        InitialStateWellFormed(userId, now);
        states := states[userId := InitialState(userId, now)];
        ids := ids + [userId];
      }
      g := states[userId];
    }

    /**
     * The scan-waste handler. `None` is the "game state not found" answer;
     * otherwise the decision, with the stored record updated in place (the
     * daily reset is kept even when the scan is rejected).
     */
    method ScanWaste(userId: UserId, wasteType: string, points: int,
                     latitude: Option<real>, longitude: Option<real>,
                     now: int, today: string, distance: (Location, Location) -> real)
      returns (r: Option<Decision>)
      requires Valid()
      modifies this
      ensures Valid()
      ensures ids == old(ids)
      ensures userId !in old(states) ==> r == None && states == old(states)
      ensures userId in old(states) ==>
                var step := Scan(old(states)[userId], now, today, points, wasteType, latitude, longitude, distance);
                r == Some(step.decision) && states == old(states)[userId := step.state]
      ensures r.Some? && r.value.Accept? ==> 0 <= r.value.scansRemaining < MaxScansPerDay
    {
      if userId !in states {
        return None;
      }
      ghost var before := states[userId];
      ScanKeepsWellFormed(before, now, today, points, wasteType, latitude, longitude, distance);
      ScansRemainingNonNegative(before, now, today, points, wasteType, latitude, longitude, distance);
      var g := states[userId];

      if g.lastScanDate != Some(today) {
        g := g.(scansToday := 0);
        g := g.(lastScanDate := Some(today));
      }
      assert g == DailyReset(before, today);

      var rejection := CheckGate(g, now, latitude, longitude, distance);
      if rejection.Some? {
        r := Some(Reject(rejection.value));
      } else {
        g := UpdateAcceptedScan(g, now, points, wasteType, latitude, longitude);
        r := Some(Accept(MaxScansPerDay - g.scansToday));
      }
      // The record is one shared object: the daily reset is kept on rejection too.
      states := states[userId := g];
    }

    /**
     * The leaderboard handler: reads the map in its iteration order and
     * changes nothing. At most ten entries, highest points first, each showing
     * a stored record.
     */
    method GetLeaderboard() returns (board: seq<Leaderboard.Entry>)
      requires Valid()
      ensures Leaderboard.AllStored(ids, states)
      ensures board == Leaderboard.Leaderboard(ids, states)
      ensures |board| <= Leaderboard.BoardSize && Leaderboard.SortedByPointsDesc(board)
      ensures forall e :: e in board ==> Leaderboard.FromStore(e, states)
    {
      board := Leaderboard.Leaderboard(ids, states);
    }

    /**
     * The complete-mission handler: `None` is the "game state not found"
     * answer; otherwise the stored record after setting the flag, adding the
     * bonus and prepending the activity entry.
     */
    method CompleteMission(userId: UserId) returns (r: Option<GameState>)
      requires Valid()
      modifies this
      ensures Valid()
      ensures ids == old(ids)
      ensures userId !in old(states) ==> r == None && states == old(states)
      ensures userId in old(states) ==>
                r == Some(Progress.CompleteMission(old(states)[userId])) &&
                states == old(states)[userId := r.value]
    {
      if userId !in states {
        return None;
      }
      CompleteMissionKeepsWellFormed(states[userId]);
      var g := states[userId];
      g := g.(dailyMissionCompleted := true);
      g := g.(ecoPoints := g.ecoPoints + MissionBonus);
      g := g.(recentActivity := [MissionEntry] + g.recentActivity);
      states := states[userId := g];
      r := Some(g);
    }
    /**
     * The regenerate-alien handler: `None` is the "game state not found"
     * answer; otherwise the stored record with a new seed, made from the user
     * id and `now`, and the attributes of that seed.
     */
    method RegenerateAlien(userId: UserId, now: nat) returns (r: Option<GameState>)
      requires Valid()
      modifies this
      ensures Valid()
      ensures ids == old(ids)
      ensures userId !in old(states) ==> r == None && states == old(states)
      ensures userId in old(states) ==>
                r == Some(Progress.RegenerateAlien(old(states)[userId], userId, now)) &&
                states == old(states)[userId := r.value]
    {
      if userId !in states {
        return None;
      }
      RegenerateKeepsWellFormed(states[userId], userId, now);
      var newSeed := AlienSeed(StampedId(userId, now));
      var newAttributes := GenerateAlienAttributes(newSeed);
      var g := states[userId];
      g := g.(alienSeed := newSeed);
      g := g.(alienAttributes := newAttributes);
      states := states[userId := g];
      r := Some(g);
    }
  }

  /**
   * The updates the scan-waste handler makes to an accepted record, one field
   * at a time in the source's order.
   */
  method UpdateAcceptedScan(g0: GameState, now: int, points: int, wasteType: string,
                            latitude: Option<real>, longitude: Option<real>) returns (g: GameState)
    ensures g == ApplyScan(g0, now, points, wasteType, latitude, longitude)
  {
    g := g0;
    g := g.(ecoPoints := g.ecoPoints + points);
    g := g.(totalScans := g.totalScans + 1);
    g := g.(hungerLevel := if 0 > g.hungerLevel - HungerPerScan then 0 else g.hungerLevel - HungerPerScan);
    g := g.(alienLevel := g.ecoPoints / PointsPerLevel + 1);
    g := g.(scansToday := g.scansToday + 1);
    g := g.(lastScanTimestamp := Some(now));
    assert g == ScoreScan(g0, now, points);

    if Truthy(latitude) && Truthy(longitude) {
      g := g.(lastScanLocation := Some(Location(latitude.value, longitude.value)));
    }
    ghost var located := g;
    assert located == RecordLocation(ScoreScan(g0, now, points), latitude, longitude);

    if !g.dailyMissionCompleted {
      g := g.(dailyMissionProgress := Min(g.dailyMissionProgress + 1, g.dailyMissionTarget));
      if g.dailyMissionProgress >= g.dailyMissionTarget {
        g := g.(dailyMissionCompleted := true);
        g := g.(ecoPoints := g.ecoPoints + MissionBonus);
      }
    }
    assert g == AdvanceMission(located);
    ghost var missioned := g;

    g := g.(recentActivity := [ScanEntry(wasteType, points)] + g.recentActivity);
    g := g.(recentActivity := Newest(g.recentActivity));
    assert g == missioned.(recentActivity := PushActivity(missioned.recentActivity, ScanEntry(wasteType, points)));
  }

  /**
   * The three checks of the scan-waste handler after the daily reset, each
   * returning as soon as it rejects.
   */
  method CheckGate(g: GameState, now: int, latitude: Option<real>, longitude: Option<real>,
                   distance: (Location, Location) -> real) returns (rejection: Option<Rejection>)
    ensures rejection == Gate(g, now, latitude, longitude, distance)
  {
    if g.scansToday >= MaxScansPerDay {
      return Some(DailyLimitExceeded);
    }

    if HasScanned(g.lastScanTimestamp) && now - g.lastScanTimestamp.value < MinScanInterval {
      var remainingTime := RemainingMinutes(now - g.lastScanTimestamp.value);
      return Some(CooldownActive(remainingTime));
    }

    if Truthy(latitude) && Truthy(longitude) && g.lastScanLocation.Some? {
      var d := distance(g.lastScanLocation.value, Location(latitude.value, longitude.value));
      if d < MinDistance && HasScanned(g.lastScanTimestamp) && now - g.lastScanTimestamp.value < MinScanInterval {
        return Some(LocationTooClose(Round(d)));
      }
    }
    return None;
  }
}
