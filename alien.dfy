/**
 * The cosmetic seed of an alien: the 31x rolling string hash with 32-bit
 * wrap-around, the seed string built from a user id, and the colour palette
 * chosen from a seed.
 */
module Alien {
  import opened Wrappers

  /** JavaScript strings are sequences of UTF-16 code units; `charCodeAt` yields one. */
  type CodeUnit = c: int | 0 <= c < 0x1_0000
  type JsString = seq<CodeUnit>

  const TwoTo32: int := 0x1_0000_0000
  const TwoTo31: int := 0x8000_0000

  predicate IsInt32(x: int) {
    -TwoTo31 <= x < TwoTo31
  }

  /** ECMAScript ToInt32 applied to an integral number: reduce modulo 2^32 into [-2^31, 2^31). */
  function ToInt32(x: int): (r: int)
    ensures IsInt32(r)
    ensures r == x - Wraps(x) * TwoTo32
  {
    var m := x % TwoTo32;
    if m >= TwoTo31 then m - TwoTo32 else m
  }

  /** How many multiples of 2^32 ToInt32 takes away from `x`. */
  function Wraps(x: int): int {
    (x + TwoTo31) / TwoTo32
  }

  /** Two integers congruent modulo 2^32 have the same ToInt32. */
  lemma ToInt32Congruent(a: int, b: int, k: int)
    requires b == a + k * TwoTo32
    ensures ToInt32(a) == ToInt32(b)
  {
    var ra, rb := ToInt32(a), ToInt32(b);
    assert rb - ra == (k - Wraps(b) + Wraps(a)) * TwoTo32;
  }

  /**
   * One turn of the loop in hashString: `hash = ((hash << 5) - hash) + char`
   * followed by `hash = hash & hash`. `<<` first converts its operand with
   * ToInt32 and yields a 32-bit result; the subtraction and the addition are
   * exact in double precision (magnitudes stay below 2^38); `hash & hash` is
   * ToInt32 of the sum.
   */
  function HashStep(hash: int, c: CodeUnit): int {
    var shifted := ToInt32(ToInt32(hash) * 32);
    ToInt32(shifted - hash + c)
  }

  /** The signed 32-bit value of `hash` after the loop has consumed all of `s`. */
  function RollingHash(s: JsString): (h: int)
    ensures IsInt32(h)
  {
    if s == [] then 0 else HashStep(RollingHash(s[..|s| - 1]), s[|s| - 1])
  }

  /** The mathematical polynomial hash s[0]*31^(n-1) + ... + s[n-1], without wrap-around. */
  function Horner(s: JsString): int {
    if s == [] then 0 else 31 * Horner(s[..|s| - 1]) + s[|s| - 1]
  }

  function Abs(x: int): nat {
    if x < 0 then -x else x
  }

  /** The value hashString returns: `Math.abs` of the 32-bit rolling hash. */
  function Hash(s: JsString): (h: nat)
    ensures h <= TwoTo31
  {
    Abs(RollingHash(s))
  }

  /** The JavaScript step is the 31x multiply-and-add, reduced to 32 bits. */
  lemma HashStepIsTimes31(hash: int, c: CodeUnit)
    requires IsInt32(hash)
    ensures HashStep(hash, c) == ToInt32(31 * hash + c)
  {
    assert ToInt32(hash) == hash;
    var shifted := ToInt32(hash * 32);
    ToInt32Congruent(31 * hash + c, shifted - hash + c, -Wraps(hash * 32));
  }

  /** The rolling hash is the polynomial hash with base 31 taken modulo 2^32 as a signed value. */
  lemma {:induction false} RollingHashIsHornerMod32(s: JsString)
    ensures RollingHash(s) == ToInt32(Horner(s))
  {
    if s != [] {
      var p, c := s[..|s| - 1], s[|s| - 1];
      RollingHashIsHornerMod32(p);
      var h := RollingHash(p);
      HashStepIsTimes31(h, c);
      var q := Wraps(Horner(p));
      assert Horner(p) == h + q * TwoTo32;
      ToInt32Congruent(31 * h + c, 31 * Horner(p) + c, 31 * q);
    }
  }

  /** hashString as the source runs it: a loop that updates `hash` once per code unit. */
  method HashString(s: JsString) returns (h: nat)
    ensures h == Hash(s)
    ensures h <= TwoTo31
  {
    var hash := 0;
    var i := 0;
    while i < |s|
      invariant 0 <= i <= |s|
      invariant hash == RollingHash(s[..i])
    {
      var ch := s[i];
      assert s[..i + 1][..i] == s[..i];
      hash := ToInt32(ToInt32(hash) * 32) - hash + ch;
      hash := ToInt32(hash);
      i := i + 1;
    }
    assert s[..|s|] == s;
    h := Abs(hash);
  }

  // ----- decimal rendering of the hash inside the seed -----

  const Zero: CodeUnit := 48
  const Underscore: CodeUnit := 95
  /** The code units of "alien_". */
  const AlienPrefix: JsString := [97, 108, 105, 101, 110, 95]

  predicate IsDigit(c: CodeUnit) {
    Zero <= c < Zero + 10
  }

  predicate AllDigits(s: JsString) {
    forall i :: 0 <= i < |s| ==> IsDigit(s[i])
  }

  /** The number a string of decimal digits denotes. */
  function DecimalValue(s: JsString): nat
    requires AllDigits(s)
  {
    if s == [] then 0 else 10 * DecimalValue(s[..|s| - 1]) + (s[|s| - 1] - Zero)
  }

  /** How a template literal renders a non-negative integer: its decimal digits without leading zeros. */
  function Decimal(n: nat): (r: JsString)
    ensures |r| >= 1 && AllDigits(r)
    ensures DecimalValue(r) == n
    ensures r[0] == Zero ==> n == 0 && |r| == 1
  {
    if n < 10 then [Zero + n] else Decimal(n / 10) + [Zero + n % 10]
  }

  /** generateAlienSeed: `alien_${userId}_${hashString(userId)}`. */
  function AlienSeed(userId: JsString): (seed: JsString)
    ensures |seed| > |AlienPrefix| + |userId| + 1
    ensures seed[..|AlienPrefix|] == AlienPrefix
  {
    AlienPrefix + userId + [Underscore] + Decimal(Hash(userId))
  }

  /** The position of the last occurrence of `c` in `s`, or -1. */
  function LastIndexOf(s: JsString, c: CodeUnit): (r: int)
    ensures -1 <= r < |s|
    ensures r >= 0 ==> s[r] == c
    ensures forall k :: r < k < |s| ==> s[k] != c
  {
    if s == [] then -1
    else if s[|s| - 1] == c then |s| - 1
    else LastIndexOf(s[..|s| - 1], c)
  }

  /** Reads a seed back: the user id between "alien_" and the last underscore, and the hash after it. */
  function ParseSeed(seed: JsString): Option<(JsString, nat)> {
    if |seed| < |AlienPrefix| || seed[..|AlienPrefix|] != AlienPrefix then None
    else
      var j := LastIndexOf(seed, Underscore);
      var digits := seed[j + 1..];
      if j < |AlienPrefix| || digits == [] || !AllDigits(digits) then None
      else Some((seed[|AlienPrefix|..j], DecimalValue(digits)))
  }

  /** The seed records both the user id and its hash: parsing it gives them back. */
  lemma SeedRoundTrip(userId: JsString)
    ensures ParseSeed(AlienSeed(userId)) == Some((userId, Hash(userId)))
  {
    var seed := AlienSeed(userId);
    var digits := Decimal(Hash(userId));
    var u := |AlienPrefix| + |userId|;
    assert seed[u] == Underscore;
    assert seed[u + 1..] == digits;
    forall k | u < k < |seed| ensures seed[k] != Underscore {
      assert seed[k] == digits[k - u - 1];
    }
    var j := LastIndexOf(seed, Underscore);
    assert j == u;
    assert seed[|AlienPrefix|..j] == userId;
  }

  // ----- alien attributes -----

  datatype Palette = Palette(primary: string, secondary: string, glow: string)

  const Palettes: seq<Palette> := [
    Palette("#8A2BE2", "#9932CC", "#DA70D6"),
    Palette("#0080FF", "#1E90FF", "#87CEEB"),
    Palette("#00FF41", "#32CD32", "#90EE90"),
    Palette("#FF6B00", "#FF8C00", "#FFB347"),
    Palette("#FF1493", "#FF69B4", "#FFB6C1")
  ]

  datatype AlienAttributes = AlienAttributes(
    bodyShape: string,
    bodySize: int,
    primaryColor: string,
    secondaryColor: string,
    glowColor: string,
    eyeType: string,
    eyeColor: string,
    eyeCount: int,
    mouthType: string,
    mouthColor: string,
    accessories: seq<string>,
    pattern: string,
    antennaType: string,
    skinTexture: string)

  /** `hashString(seed) % colorPalettes.length`: always a valid palette position. */
  function PaletteIndex(seed: JsString): (i: nat)
    ensures i < |Palettes|
  {
    Hash(seed) % |Palettes|
  }

  /** generateAlienAttributes: fixed features, colours from the palette the seed selects. */
  function GenerateAlienAttributes(seed: JsString): (a: AlienAttributes)
    ensures Palette(a.primaryColor, a.secondaryColor, a.glowColor) == Palettes[Hash(seed) % |Palettes|]
    ensures a.bodyShape == "circle" && a.bodySize == 100 && a.skinTexture == "smooth"
    ensures a.eyeType == "round" && a.eyeColor == "#0080FF" && a.eyeCount == 2
    ensures a.mouthType == "oval" && a.mouthColor == "#00FF41"
    ensures a.accessories == [] && a.pattern == "none" && a.antennaType == "none"
  {
    var p := Palettes[PaletteIndex(seed)];
    AlienAttributes("circle", 100, p.primary, p.secondary, p.glow, "round", "#0080FF", 2,
                    "oval", "#00FF41", [], "none", "none", "smooth")
  }

  /** Two seeds give the same alien exactly when they select the same palette. */
  lemma AttributesDependOnlyOnPalette(s1: JsString, s2: JsString)
    ensures GenerateAlienAttributes(s1) == GenerateAlienAttributes(s2) <==> PaletteIndex(s1) == PaletteIndex(s2)
  {
    var i, j := PaletteIndex(s1), PaletteIndex(s2);
    if i < j {
      PrimaryColoursDistinct(i, j);
    } else if j < i {
      PrimaryColoursDistinct(j, i);
    }
  }

  /** The five palettes have five different primary colours (they differ in their fourth character). */
  lemma PrimaryColoursDistinct(i: nat, j: nat)
    requires i < j < |Palettes|
    ensures Palettes[i].primary != Palettes[j].primary
  {
    assert Palettes[i].primary[3] != Palettes[j].primary[3];
  }
}
