/**
 * The per-user game-state record held by the server, and the record a new
 * user starts with.
 */
module Records {
  import opened Wrappers
  import opened Alien

  /** User ids are strings: they are hashed into the alien seed. */
  type UserId = JsString

  /** A latitude/longitude pair as the client sends it. */
  datatype Location = Location(latitude: real, longitude: real)

  datatype ActivityKind = ScanActivity | MissionActivity

  /** An entry of `recentActivity`; the display-only `id`, `time` and `icon` are not kept. */
  datatype Activity = Activity(kind: ActivityKind, text: string, points: int)

  datatype Achievement = Achievement(id: int, title: string, description: string, unlocked: bool)

  /**
   * The mutable record kept per user. Optional fields hold JavaScript's `null`;
   * `lastScanDate` holds the `toDateString()` text of the day of the last scan request.
   */
  datatype GameState = GameState(
    alienLevel: int,
    ecoPoints: int,
    hungerLevel: int,
    totalScans: int,
    accuracy: int,
    streakDays: int,
    alienSeed: JsString,
    alienAttributes: AlienAttributes,
    dailyMissionProgress: int,
    dailyMissionTarget: int,
    dailyMissionCompleted: bool,
    lastScanLocation: Option<Location>,
    lastScanTimestamp: Option<int>,
    scansToday: int,
    lastScanDate: Option<string>,
    achievements: seq<Achievement>,
    recentActivity: seq<Activity>,
    lastActive: int)

  const PointsPerLevel: int := 200
  const InitialHunger: int := 50
  const InitialMissionTarget: int := 5

  /** `Math.floor(ecoPoints / 200) + 1`: the level whose 200-point band contains `ecoPoints`. */
  function Level(ecoPoints: int): (level: int)
    ensures (level - 1) * PointsPerLevel <= ecoPoints < level * PointsPerLevel
  {
    ecoPoints / PointsPerLevel + 1
  }

  const InitialAchievements: seq<Achievement> := [
    Achievement(1, "FIRST_SCAN", "Complete your first waste scan", false),
    Achievement(2, "PLASTIC_HUNTER", "Scan 50 plastic items", false),
    Achievement(3, "ECO_WARRIOR", "Reach 1000 eco points", false)
  ]

  /** The record initializeGameState stores for a new user; `now` stands for `new Date()`. */
  function InitialState(userId: UserId, now: int): GameState {
    var seed := AlienSeed(userId);
    GameState(
      alienLevel := 1,
      ecoPoints := 0,
      hungerLevel := InitialHunger,
      totalScans := 0,
      accuracy := 100,
      streakDays := 0,
      alienSeed := seed,
      alienAttributes := GenerateAlienAttributes(seed),
      dailyMissionProgress := 0,
      dailyMissionTarget := InitialMissionTarget,
      dailyMissionCompleted := false,
      lastScanLocation := None,
      lastScanTimestamp := None,
      scansToday := 0,
      lastScanDate := None,
      achievements := InitialAchievements,
      recentActivity := [],
      lastActive := now)
  }
}
