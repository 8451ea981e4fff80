/**
 * What a scan request does to a record (the gate, then on acceptance the
 * field updates), what completing the mission through its own endpoint does,
 * and the properties both keep.
 */
module Progress {
  import opened Wrappers
  import opened Alien
  import opened Records
  import opened AntiCheat

  const HungerPerScan: int := 15
  const MissionBonus: int := 25
  const ActivityLimit: int := 10

  /** The record after a request, and the request's outcome. */
  datatype Step = Step(state: GameState, decision: Decision)

  /** The invariant every stored record keeps. */
  predicate WellFormed(g: GameState) {
    && 0 <= g.scansToday <= MaxScansPerDay
    && 0 <= g.dailyMissionProgress <= g.dailyMissionTarget
    && 0 <= g.hungerLevel <= 100
    && 0 <= g.totalScans
  }

  function Min(a: int, b: int): int {
    if a < b then a else b
  }

  /** `Math.max(0, hungerLevel - 15)`. */
  function Fed(hunger: int): (r: int)
    ensures r >= 0
    ensures hunger >= HungerPerScan ==> r == hunger - HungerPerScan
    ensures hunger < HungerPerScan ==> r == 0
  {
    if hunger - HungerPerScan > 0 then hunger - HungerPerScan else 0
  }

  /** `slice(0, 10)`: the first ten entries, or all of them when there are fewer. */
  function Newest(s: seq<Activity>): (r: seq<Activity>)
    ensures |r| == Min(|s|, ActivityLimit)
    ensures r == s[..|r|]
  {
    if |s| <= ActivityLimit then s else s[..ActivityLimit]
  }

  /** `unshift` followed by `slice(0, 10)`: the new entry first, then a prefix of the old list. */
  function PushActivity(activities: seq<Activity>, entry: Activity): (r: seq<Activity>)
    ensures 1 <= |r| <= ActivityLimit
    ensures r[0] == entry
    ensures |r| == Min(|activities| + 1, ActivityLimit)
    ensures r[1..] == activities[..|r| - 1]
  {
    Newest([entry] + activities)
  }

  function ScanEntry(wasteType: string, points: int): Activity {
    Activity(ScanActivity, "Scanned " + wasteType, points)
  }

  const MissionEntry: Activity := Activity(MissionActivity, "Completed daily mission", MissionBonus)

  /**
   * The mission block of the scan handler: while the mission is open, progress
   * moves one step towards the target, and reaching the target closes the
   * mission and grants the bonus.
   */
  function AdvanceMission(g: GameState): (r: GameState)
    ensures g.dailyMissionCompleted ==> r == g
    ensures !g.dailyMissionCompleted ==>
              r.dailyMissionProgress == Min(g.dailyMissionProgress + 1, g.dailyMissionTarget) &&
              r.dailyMissionCompleted == (r.dailyMissionProgress >= g.dailyMissionTarget) &&
              r.ecoPoints == g.ecoPoints + (if r.dailyMissionCompleted then MissionBonus else 0)
    ensures r.(dailyMissionProgress := g.dailyMissionProgress, dailyMissionCompleted := g.dailyMissionCompleted,
               ecoPoints := g.ecoPoints) == g
  {
    if g.dailyMissionCompleted then g
    else
      var progressed := g.(dailyMissionProgress := Min(g.dailyMissionProgress + 1, g.dailyMissionTarget));
      if progressed.dailyMissionProgress >= progressed.dailyMissionTarget then
        progressed.(dailyMissionCompleted := true, ecoPoints := progressed.ecoPoints + MissionBonus)
      else
        progressed
  }

  /**
   * The first block of updates of an accepted scan, in the source's order:
   * points, scan count, hunger, level (from the points so far, before any
   * mission bonus), daily count, timestamp.
   */
  function ScoreScan(g: GameState, now: int, points: int): GameState {
    g.(ecoPoints := g.ecoPoints + points, totalScans := g.totalScans + 1, hungerLevel := Fed(g.hungerLevel),
       alienLevel := Level(g.ecoPoints + points), scansToday := g.scansToday + 1, lastScanTimestamp := Some(now))
  }

  /** The location is stored only when both request coordinates are truthy. */
  function RecordLocation(g: GameState, latitude: Option<real>, longitude: Option<real>): GameState {
    if Truthy(latitude) && Truthy(longitude)
    then g.(lastScanLocation := Some(Location(latitude.value, longitude.value)))
    else g
  }

  /** All updates of an accepted scan: score, location, mission, activity. */
  function ApplyScan(g: GameState, now: int, points: int, wasteType: string,
                     latitude: Option<real>, longitude: Option<real>): GameState {
    var missioned := AdvanceMission(RecordLocation(ScoreScan(g, now, points), latitude, longitude));
    missioned.(recentActivity := PushActivity(missioned.recentActivity, ScanEntry(wasteType, points)))
  }

  /**
   * The scan-waste handler on an existing record: daily reset, gate, then
   * either the rejection (keeping the reset) or the accepted updates and the
   * number of scans left today.
   */
  function Scan(g: GameState, now: int, today: string, points: int, wasteType: string,
                latitude: Option<real>, longitude: Option<real>, distance: (Location, Location) -> real): Step {
    var reset := DailyReset(g, today);
    match Gate(reset, now, latitude, longitude, distance)
    case Some(rejection) => Step(reset, Reject(rejection))
    case None =>
      var updated := ApplyScan(reset, now, points, wasteType, latitude, longitude);
      Step(updated, Accept(MaxScansPerDay - updated.scansToday))
  }

  /** The complete-mission handler: flag, bonus and activity entry, with no check and no truncation. */
  function CompleteMission(g: GameState): GameState {
    g.(dailyMissionCompleted := true, ecoPoints := g.ecoPoints + MissionBonus,
       recentActivity := [MissionEntry] + g.recentActivity)
  }

  // ----- the gate inside a scan -----

  /**
   * The daily reset happens before any check and survives a rejection: the
   * stored day is always `today` afterwards, and a rejected request changes
   * nothing but the reset.
   */
  lemma ScanResetsDayFirst(g: GameState, now: int, today: string, points: int, wasteType: string,
                           latitude: Option<real>, longitude: Option<real>, distance: (Location, Location) -> real)
    ensures var step := Scan(g, now, today, points, wasteType, latitude, longitude, distance);
      && step.state.lastScanDate == Some(today)
      && (step.decision.Reject? ==> step.state == DailyReset(g, today))
      && (step.decision.Reject? && g.lastScanDate != Some(today) ==> step.state.scansToday == 0)
      && (step.decision.Accept? ==> step.state.scansToday == DailyReset(g, today).scansToday + 1)
  {
    var reset := DailyReset(g, today);
    if Gate(reset, now, latitude, longitude, distance).None? {
      var a := ApplyScan(reset, now, points, wasteType, latitude, longitude);
      assert a.lastScanDate == Some(today);
    }
  }

  /** The daily limit is checked first: once today's count is at the limit, nothing else is looked at. */
  lemma DailyLimitCheckedFirst(g: GameState, now: int, today: string, points: int, wasteType: string,
                               latitude: Option<real>, longitude: Option<real>, distance: (Location, Location) -> real)
    ensures var step := Scan(g, now, today, points, wasteType, latitude, longitude, distance);
      step.decision == Reject(DailyLimitExceeded) <==> DailyReset(g, today).scansToday >= MaxScansPerDay
  {
  }

  /**
   * COOLDOWN_ACTIVE is returned exactly when the limit passes, a scan is on
   * record and fewer than five minutes have elapsed; the minutes reported are
   * at least one, and at most five unless the clock went backwards.
   */
  lemma CooldownExactly(g: GameState, now: int, today: string, points: int, wasteType: string,
                        latitude: Option<real>, longitude: Option<real>, distance: (Location, Location) -> real)
    ensures var step := Scan(g, now, today, points, wasteType, latitude, longitude, distance);
      && ((step.decision.Reject? && step.decision.rejection.CooldownActive?) <==>
            DailyReset(g, today).scansToday < MaxScansPerDay && InCooldown(g.lastScanTimestamp, now))
      && (step.decision.Reject? && step.decision.rejection.CooldownActive? ==>
            var elapsed := now - g.lastScanTimestamp.value;
            && step.decision.rejection.remainingTime == RemainingMinutes(elapsed)
            && step.decision.rejection.remainingTime >= 1
            && (elapsed >= 0 ==> step.decision.rejection.remainingTime <= 5))
  {
  }

  /** LOCATION_TOO_CLOSE is never returned, whatever the distance between the two locations. */
  lemma LocationCheckIsDead(g: GameState, now: int, today: string, points: int, wasteType: string,
                            latitude: Option<real>, longitude: Option<real>, distance: (Location, Location) -> real)
    ensures var step := Scan(g, now, today, points, wasteType, latitude, longitude, distance);
      !(step.decision.Reject? && step.decision.rejection.LocationTooClose?)
  {
  }

  /** A scan is accepted exactly when today's count is under the limit and no cooldown is running. */
  lemma AcceptExactly(g: GameState, now: int, today: string, points: int, wasteType: string,
                      latitude: Option<real>, longitude: Option<real>, distance: (Location, Location) -> real)
    ensures var step := Scan(g, now, today, points, wasteType, latitude, longitude, distance);
      step.decision.Accept? <==>
        DailyReset(g, today).scansToday < MaxScansPerDay && !InCooldown(g.lastScanTimestamp, now)
  {
  }

  // ----- the updates of an accepted scan -----

  /**
   * An accepted scan adds the points (and the bonus when it completes the
   * mission), counts one scan in both counters, feeds the alien, records the
   * time, records the location only when both coordinates are truthy, and
   * sets the level from the points before the bonus.
   */
  lemma AcceptedScanUpdates(g: GameState, now: int, today: string, points: int, wasteType: string,
                            latitude: Option<real>, longitude: Option<real>, distance: (Location, Location) -> real)
    ensures var step := Scan(g, now, today, points, wasteType, latitude, longitude, distance);
      var bonus := if !g.dailyMissionCompleted && step.state.dailyMissionCompleted then MissionBonus else 0;
      step.decision.Accept? ==>
        && step.state.ecoPoints == g.ecoPoints + points + bonus
        && step.state.alienLevel == Level(g.ecoPoints + points)
        && step.state.totalScans == g.totalScans + 1
        && step.state.scansToday == DailyReset(g, today).scansToday + 1
        && step.state.hungerLevel == (if g.hungerLevel >= HungerPerScan then g.hungerLevel - HungerPerScan else 0)
        && step.state.lastScanTimestamp == Some(now)
        && step.state.lastScanLocation ==
             (if Truthy(latitude) && Truthy(longitude) then Some(Location(latitude.value, longitude.value))
              else g.lastScanLocation)
        && step.state.alienSeed == g.alienSeed
        && step.state.alienAttributes == g.alienAttributes
        && step.state.achievements == g.achievements
        && step.state.dailyMissionTarget == g.dailyMissionTarget
        && step.state.dailyMissionProgress ==
             (if g.dailyMissionCompleted then g.dailyMissionProgress
              else Min(g.dailyMissionProgress + 1, g.dailyMissionTarget))
        && step.state.dailyMissionCompleted ==
             (g.dailyMissionCompleted || step.state.dailyMissionProgress >= g.dailyMissionTarget)
        && step.state.accuracy == g.accuracy
        && step.state.streakDays == g.streakDays
        && step.state.lastActive == g.lastActive
        && step.state.lastScanDate == Some(today)
  {
  }

  /**
   * The level lags the points after a scan that completes the mission: the
   * level is computed before the 25-point bonus is added. Starting from 180
   * points and 4 of 5 mission scans, a 10-point scan ends at 215 points and
   * level 1, although 215 points lie in level 2.
   */
  lemma LevelLagsAfterMissionBonus(g: GameState, now: int, today: string, wasteType: string,
                                   distance: (Location, Location) -> real)
    requires g.ecoPoints == 180 && g.dailyMissionProgress == 4 && g.dailyMissionTarget == 5
    requires !g.dailyMissionCompleted && g.scansToday == 0 && g.lastScanTimestamp == None
    ensures var step := Scan(g, now, today, 10, wasteType, None, None, distance);
      && step.decision.Accept?
      && step.state.ecoPoints == 215
      && step.state.alienLevel == 1
      && step.state.alienLevel != Level(step.state.ecoPoints)
  {
    var reset := DailyReset(g, today);
    assert Gate(reset, now, None, None, distance).None?;
    var step := Scan(g, now, today, 10, wasteType, None, None, distance);
    assert step.state.alienLevel == Level(190);
  }

  /** Scans left today, as the response reports them, are never negative. */
  lemma ScansRemainingNonNegative(g: GameState, now: int, today: string, points: int, wasteType: string,
                                  latitude: Option<real>, longitude: Option<real>, distance: (Location, Location) -> real)
    requires WellFormed(g)
    ensures var step := Scan(g, now, today, points, wasteType, latitude, longitude, distance);
      step.decision.Accept? ==>
        && 0 <= step.decision.scansRemaining < MaxScansPerDay
        && step.decision.scansRemaining == MaxScansPerDay - step.state.scansToday
  {
  }

  /** Every scan request, accepted or not, keeps the record's invariant (in particular scansToday <= 100). */
  lemma ScanKeepsWellFormed(g: GameState, now: int, today: string, points: int, wasteType: string,
                            latitude: Option<real>, longitude: Option<real>, distance: (Location, Location) -> real)
    requires WellFormed(g)
    ensures WellFormed(Scan(g, now, today, points, wasteType, latitude, longitude, distance).state)
  {
  }

  /**
   * On the scan path the mission moves only forwards: progress never passes
   * the target, a completed mission stays completed, and a mission completed
   * before the scan grants no further bonus.
   */
  lemma ScanMissionMonotone(g: GameState, now: int, today: string, points: int, wasteType: string,
                            latitude: Option<real>, longitude: Option<real>, distance: (Location, Location) -> real)
    requires 0 <= g.dailyMissionProgress <= g.dailyMissionTarget
    ensures var step := Scan(g, now, today, points, wasteType, latitude, longitude, distance);
      && step.state.dailyMissionProgress <= step.state.dailyMissionTarget
      && (g.dailyMissionCompleted ==> step.state.dailyMissionCompleted)
      && (g.dailyMissionCompleted && step.decision.Accept? ==>
            step.state.ecoPoints == g.ecoPoints + points &&
            step.state.dailyMissionProgress == g.dailyMissionProgress)
  {
  }

  /**
   * After an accepted scan the new entry is first, the list holds min(n + 1, 10)
   * entries, and the rest is the front of the old list.
   */
  lemma ScanActivityShape(g: GameState, now: int, today: string, points: int, wasteType: string,
                          latitude: Option<real>, longitude: Option<real>, distance: (Location, Location) -> real)
    ensures var step := Scan(g, now, today, points, wasteType, latitude, longitude, distance);
      step.decision.Accept? ==>
        && |step.state.recentActivity| == Min(|g.recentActivity| + 1, ActivityLimit)
        && step.state.recentActivity[0] == ScanEntry(wasteType, points)
        && step.state.recentActivity[1..] == g.recentActivity[..|step.state.recentActivity| - 1]
  {
  }

  /**
   * An accepted scan is one run of each block the lemmas below iterate: one
   * push onto the activity list, one feeding, and one step of the mission.
   */
  lemma AcceptedScanIsOneStep(g: GameState, now: int, today: string, points: int, wasteType: string,
                              latitude: Option<real>, longitude: Option<real>, distance: (Location, Location) -> real)
    ensures var step := Scan(g, now, today, points, wasteType, latitude, longitude, distance);
      step.decision.Accept? ==>
        && step.state.recentActivity == PushActivity(g.recentActivity, ScanEntry(wasteType, points))
        && step.state.hungerLevel == Fed(g.hungerLevel)
        && step.state.dailyMissionProgress == AdvanceMission(g).dailyMissionProgress
        && step.state.dailyMissionCompleted == AdvanceMission(g).dailyMissionCompleted
        && step.state.dailyMissionTarget == AdvanceMission(g).dailyMissionTarget
  {
  }

  // ----- sequences of scans -----

  /** Mission state after `n` accepted scans. */
  function AdvanceMissionTimes(g: GameState, n: nat): GameState {
    if n == 0 then g else AdvanceMission(AdvanceMissionTimes(g, n - 1))
  }

  /**
   * From a fresh mission, `n` accepted scans bring progress to min(n, target);
   * the mission is completed exactly when n reaches the target, and the bonus
   * is granted once.
   */
  lemma {:induction false} MissionAfterScans(g: GameState, n: nat)
    requires g.dailyMissionProgress == 0 && !g.dailyMissionCompleted && g.dailyMissionTarget >= 1
    ensures var r := AdvanceMissionTimes(g, n);
      && r.dailyMissionTarget == g.dailyMissionTarget
      && r.dailyMissionProgress == Min(n, g.dailyMissionTarget)
      && r.dailyMissionCompleted == (n >= g.dailyMissionTarget)
      && r.ecoPoints == g.ecoPoints + (if n >= g.dailyMissionTarget then MissionBonus else 0)
  {
    if n > 0 {
      MissionAfterScans(g, n - 1);
    }
  }

  /** Hunger after `n` accepted scans. */
  function FedTimes(hunger: int, n: nat): int {
    if n == 0 then hunger else Fed(FedTimes(hunger, n - 1))
  }

  /** `n` scans lower hunger by 15 each, stopping at 0. */
  lemma {:induction false} HungerAfterScans(hunger: int, n: nat)
    requires hunger >= 0
    ensures FedTimes(hunger, n) == if hunger >= HungerPerScan * n then hunger - HungerPerScan * n else 0
  {
    if n > 0 {
      HungerAfterScans(hunger, n - 1);
    }
  }

  /** The activity list after pushing `entries` in order, oldest first. */
  function PushAll(activities: seq<Activity>, entries: seq<Activity>): seq<Activity>
    decreases |entries|
  {
    if entries == [] then activities else PushAll(PushActivity(activities, entries[0]), entries[1..])
  }

  function Reversed(s: seq<Activity>): (r: seq<Activity>)
    ensures |r| == |s|
    ensures forall i :: 0 <= i < |s| ==> r[i] == s[|s| - 1 - i]
  {
    if s == [] then [] else Reversed(s[1..]) + [s[0]]
  }

  /** Truncating twice is truncating once. */
  lemma NewestAbsorbs(p: seq<Activity>, q: seq<Activity>)
    ensures Newest(p + Newest(q)) == Newest(p + q)
  {
    var a, b := Newest(p + Newest(q)), Newest(p + q);
    assert |a| == |b|;
    forall i | 0 <= i < |a| ensures a[i] == b[i] {
      if i >= |p| {
        assert a[i] == Newest(q)[i - |p|];
      }
    }
  }

  /**
   * After any non-empty run of scan entries, the list is the newest ten of
   * those entries, newest first, followed by what is left of the old list.
   */
  lemma {:induction false} PushAllKeepsNewest(activities: seq<Activity>, entries: seq<Activity>)
    requires entries != []
    ensures PushAll(activities, entries) == Newest(Reversed(entries) + activities)
    decreases |entries|
  {
    var first := PushActivity(activities, entries[0]);
    var rest := entries[1..];
    assert Reversed(entries) == Reversed(rest) + [entries[0]];
    if rest == [] {
      assert Reversed(entries) == [entries[0]];
    } else {
      PushAllKeepsNewest(first, rest);
      NewestAbsorbs(Reversed(rest), [entries[0]] + activities);
      assert Reversed(rest) + first == Reversed(rest) + Newest([entries[0]] + activities);
      assert Reversed(rest) + ([entries[0]] + activities) == Reversed(entries) + activities;
    }
  }

  /** With ten or more scans, the list is exactly the ten most recent, newest first. */
  lemma TenMostRecent(activities: seq<Activity>, entries: seq<Activity>)
    requires |entries| >= ActivityLimit
    ensures PushAll(activities, entries) == Reversed(entries)[..ActivityLimit]
  {
    PushAllKeepsNewest(activities, entries);
    assert (Reversed(entries) + activities)[..ActivityLimit] == Reversed(entries)[..ActivityLimit];
  }

  // ----- the complete-mission endpoint -----

  /**
   * Completing the mission through its endpoint sets the flag and adds 25
   * points whatever the mission's state, puts one activity entry in front of
   * the untruncated list, and changes no other field (the level included).
   */
  lemma CompleteMissionEffects(g: GameState)
    ensures var r := CompleteMission(g);
      && r.dailyMissionCompleted
      && r.ecoPoints == g.ecoPoints + MissionBonus
      && r.recentActivity[0] == MissionEntry
      && r.recentActivity[1..] == g.recentActivity
      && |r.recentActivity| == |g.recentActivity| + 1
      && r.alienLevel == g.alienLevel
      && r.(dailyMissionCompleted := g.dailyMissionCompleted, ecoPoints := g.ecoPoints,
            recentActivity := g.recentActivity) == g
  {
  }

  /** The endpoint is not idempotent: a second call grants the bonus again. */
  lemma CompleteMissionNotIdempotent(g: GameState)
    ensures CompleteMission(CompleteMission(g)) != CompleteMission(g)
    ensures CompleteMission(CompleteMission(g)).ecoPoints == g.ecoPoints + 2 * MissionBonus
  {
  }

  /** The endpoint can grow the activity list past ten entries. */
  lemma CompleteMissionExceedsActivityLimit(g: GameState)
    requires |g.recentActivity| == ActivityLimit
    ensures |CompleteMission(g).recentActivity| > ActivityLimit
  {
  }

  /** The endpoint keeps the record's invariant. */
  lemma CompleteMissionKeepsWellFormed(g: GameState)
    requires WellFormed(g)
    ensures WellFormed(CompleteMission(g))
  {
  }

  /** A new user's record satisfies the invariant and its level matches its points. */
  lemma InitialStateWellFormed(userId: UserId, now: int)
    ensures var g := InitialState(userId, now);
      && WellFormed(g)
      && g.alienLevel == Level(g.ecoPoints)
      && ParseSeed(g.alienSeed) == Some((userId, Hash(userId)))
  {
    SeedRoundTrip(userId);
  }

  // ----- the regenerate-alien endpoint -----

  /** The string a regenerated seed is made from: `${userId}_${Date.now()}`. */
  function StampedId(userId: UserId, now: nat): (r: JsString)
    ensures |r| > |userId| && r[..|userId|] == userId && r[|userId|] == Underscore
    ensures AllDigits(r[|userId| + 1..]) && DecimalValue(r[|userId| + 1..]) == now
  {
    var r := userId + [Underscore] + Decimal(now);
    assert r[|userId| + 1..] == Decimal(now);
    r
  }

  /**
   * Regenerating the alien replaces the seed, by a seed made from the user id
   * and the time, and the attributes, by those of the new seed; nothing else
   * changes.
   */
  function RegenerateAlien(g: GameState, userId: UserId, now: nat): (r: GameState)
    ensures r.alienAttributes == GenerateAlienAttributes(r.alienSeed)
    ensures r.(alienSeed := g.alienSeed, alienAttributes := g.alienAttributes) == g
  {
    var seed := AlienSeed(StampedId(userId, now));
    g.(alienSeed := seed, alienAttributes := GenerateAlienAttributes(seed))
  }

  /** The new seed reads back as the time-stamped id and its hash. */
  lemma RegeneratedSeedReadsBack(g: GameState, userId: UserId, now: nat)
    ensures ParseSeed(RegenerateAlien(g, userId, now).alienSeed) ==
              Some((StampedId(userId, now), Hash(StampedId(userId, now))))
  {
    SeedRoundTrip(StampedId(userId, now));
  }

  /** A regenerated seed is never the seed the user started with. */
  lemma RegeneratedSeedIsNew(g: GameState, userId: UserId, now: nat)
    ensures RegenerateAlien(g, userId, now).alienSeed != AlienSeed(userId)
  {
    var stamped := StampedId(userId, now);
    SeedRoundTrip(userId);
    SeedRoundTrip(stamped);
    assert |stamped| != |userId|;
  }

  /** Regenerations at two different times give two different seeds. */
  lemma RegeneratedSeedsDiffer(g: GameState, userId: UserId, now1: nat, now2: nat)
    requires now1 != now2
    ensures RegenerateAlien(g, userId, now1).alienSeed != RegenerateAlien(g, userId, now2).alienSeed
  {
    var s1 := StampedId(userId, now1);
    var s2 := StampedId(userId, now2);
    SeedRoundTrip(s1);
    SeedRoundTrip(s2);
  }

  /** Regeneration keeps the record's invariant. */
  lemma RegenerateKeepsWellFormed(g: GameState, userId: UserId, now: nat)
    requires WellFormed(g)
    ensures WellFormed(RegenerateAlien(g, userId, now))
  {
  }
}
