/**
 * The dispatcher of the older engine (lib/water-quality-calculations-old.ts).
 * It clamps Z to the reach, then picks one of eighteen case functions by exact
 * equality with the breakpoints or by open intervals between them; positions
 * that match nothing reach a default case. The case functions live in a
 * module that is not part of this model, so this model stops at the choice of
 * case and its arguments: `CaseBodies` stands for whatever those functions
 * compute.
 */
module OldClassifier {
  import opened Numeric
  import opened QualityData
  import Stations

  /** `Math.max(0, Math.min(RIVER_LENGTH, Z))`. */
  function Clamp(z: real): (c: real)
    ensures 0.0 <= c <= Stations.RiverLength as real
    ensures 0.0 <= z <= Stations.RiverLength as real ==> c == z
    ensures z < 0.0 ==> c == 0.0
    ensures z > Stations.RiverLength as real ==> c == Stations.RiverLength as real
  {
    Max(0.0, Min(Stations.RiverLength as real, z))
  }

  /** The case function the dispatcher calls, with the arguments it passes. */
  datatype CaseCall =
    | Case1(x: real)
    | Case2(z: real, x: real, y: real)
    | Case3(x: real, y: real)
    | Case4(x: real)
    | Case5(x: real, y: real)
    | Case6(z: real, x: real, y: real)
    | Case7(x: real, y: real)
    | Case8(x: real)
    | Case9(x: real, y: real)
    | Case10(z: real, x: real, y: real)
    | Case11(x: real, y: real)
    | Case12(x: real)
    | Case13(x: real, y: real)
    | Case14(z: real, x: real, y: real)
    | Case15(x: real, y: real)
    | Case16(x: real)
    | Case17(x: real, y: real)
    | Case18(z: real, x: real, y: real)
    | DefaultCase

  /** The number of a case; 0 for the default case. */
  function CaseNumber(c: CaseCall): nat
  {
    match c
    case Case1(_) => 1
    case Case2(_, _, _) => 2
    case Case3(_, _) => 3
    case Case4(_) => 4
    case Case5(_, _) => 5
    case Case6(_, _, _) => 6
    case Case7(_, _) => 7
    case Case8(_) => 8
    case Case9(_, _) => 9
    case Case10(_, _, _) => 10
    case Case11(_, _) => 11
    case Case12(_) => 12
    case Case13(_, _) => 13
    case Case14(_, _, _) => 14
    case Case15(_, _) => 15
    case Case16(_) => 16
    case Case17(_, _) => 17
    case Case18(_, _, _) => 18
    case DefaultCase => 0
  }

  /** The if-chain of `calculateConcentration`, after clamping. */
  function Classify(z: real, x: real, y: real): CaseCall
  {
    var c := Clamp(z);
    if c == 0.0 then Case1(x)
    else if c > 0.0 && c < 1110.0 then Case2(c, x, y)
    else if c == 1110.0 then Case3(x, y)
    else if c == 1112.0 then Case4(x)
    else if c == 1114.0 then Case5(x, y)
    else if c > 1114.0 && c < 3168.0 then Case6(c, x, y)
    else if c == 3168.0 then Case7(x, y)
    else if c == 3170.0 then Case8(x)
    else if c == 3172.0 then Case9(x, y)
    else if c > 3172.0 && c < 4588.0 then Case10(c, x, y)
    else if c == 4588.0 then Case11(x, y)
    else if c == 4590.0 then Case12(x)
    else if c == 4592.0 then Case13(x, y)
    else if c > 4592.0 && c < 7068.0 then Case14(c, x, y)
    else if c == 7068.0 then Case15(x, y)
    else if c == 7070.0 then Case16(x)
    else if c == 7072.0 then Case17(x, y)
    else if c > 7072.0 && c <= Stations.RiverLength as real then Case18(c, x, y)
    else DefaultCase
  }

  /** The results of the case functions, which this model does not define. */
  type CaseBodies = CaseCall -> Quality

  /** The older `calculateConcentration`: the chosen case function applied to its arguments. */
  function CalculateConcentration(z: real, x: real, y: real, cases: CaseBodies): Quality
  {
    cases(Classify(z, x, y))
  }

  // ---------------------------------------------------------------------------
  // The case partition, stated against the breakpoint table

  /** The case numbers of the exact-position cases, one per critical position but the last. */
  const ExactCaseNumbers: seq<nat> := [1, 3, 4, 5, 7, 8, 9, 11, 12, 13, 15, 16, 17]

  /**
   * The region each case covers, read off `CRITICAL_POSITIONS` (P): exact
   * case number ExactCaseNumbers[i] covers the point P[i] for i < 13, and
   * segment case 4j + 2 covers the open interval (P[3j], P[3j + 1]), closed
   * at the end of the reach for the last one.
   */
  predicate InRegion(k: nat, c: real)
  {
    var p := Stations.CriticalPositions;
    || (exists i :: 0 <= i < |ExactCaseNumbers| && ExactCaseNumbers[i] == k && c == p[i] as real)
    || (exists j :: 0 <= j < 4 && k == 4 * j + 2 && p[3 * j] as real < c < p[3 * j + 1] as real)
    || (k == 18 && p[12] as real < c <= p[13] as real)
  }

  lemma ExactRegion(i: nat, c: real)
    requires i < 13 && c == Stations.CriticalPositions[i] as real
    ensures InRegion(ExactCaseNumbers[i], c)
  {
  }

  lemma IntervalRegion(j: nat, c: real)
    requires j < 4 && Stations.CriticalPositions[3 * j] as real < c < Stations.CriticalPositions[3 * j + 1] as real
    ensures InRegion(4 * j + 2, c)
  {
  }

  /** The regions written out as positions on the reach. */
  predicate RegionOnReach(k: nat, c: real)
  {
    || (k == 1 && c == 0.0)
    || (k == 2 && 0.0 < c < 1110.0)
    || (k == 3 && c == 1110.0)
    || (k == 4 && c == 1112.0)
    || (k == 5 && c == 1114.0)
    || (k == 6 && 1114.0 < c < 3168.0)
    || (k == 7 && c == 3168.0)
    || (k == 8 && c == 3170.0)
    || (k == 9 && c == 3172.0)
    || (k == 10 && 3172.0 < c < 4588.0)
    || (k == 11 && c == 4588.0)
    || (k == 12 && c == 4590.0)
    || (k == 13 && c == 4592.0)
    || (k == 14 && 4592.0 < c < 7068.0)
    || (k == 15 && c == 7068.0)
    || (k == 16 && c == 7070.0)
    || (k == 17 && c == 7072.0)
    || (k == 18 && 7072.0 < c <= 8013.0)
  }

  /** The table's regions are exactly the written-out ones. */
  lemma RegionsSpelledOut(k: nat, c: real)
    ensures InRegion(k, c) <==> RegionOnReach(k, c)
  {
    RegionFromTable(k, c);
    if RegionOnReach(k, c) {
      RegionToTable(k, c);
    }
  }

  lemma RegionFromTable(k: nat, c: real)
    ensures InRegion(k, c) ==> RegionOnReach(k, c)
  {
    var p := Stations.CriticalPositions;
    if InRegion(k, c) {
      if i :| 0 <= i < |ExactCaseNumbers| && ExactCaseNumbers[i] == k && c == p[i] as real {
        assert i in {0, 1, 2, 3, 4, 5, 6, 7, 8, 9, 10, 11, 12};
      } else if j :| 0 <= j < 4 && k == 4 * j + 2 && p[3 * j] as real < c < p[3 * j + 1] as real {
        assert j in {0, 1, 2, 3};
      }
    }
  }

  lemma RegionToTable(k: nat, c: real)
    requires RegionOnReach(k, c)
    ensures InRegion(k, c)
  {
    if k == 1 { ExactRegion(0, c); }
    else if k == 3 { ExactRegion(1, c); }
    else if k == 4 { ExactRegion(2, c); }
    else if k == 5 { ExactRegion(3, c); }
    else if k == 7 { ExactRegion(4, c); }
    else if k == 8 { ExactRegion(5, c); }
    else if k == 9 { ExactRegion(6, c); }
    else if k == 11 { ExactRegion(7, c); }
    else if k == 12 { ExactRegion(8, c); }
    else if k == 13 { ExactRegion(9, c); }
    else if k == 15 { ExactRegion(10, c); }
    else if k == 16 { ExactRegion(11, c); }
    else if k == 17 { ExactRegion(12, c); }
    else if k == 2 { IntervalRegion(0, c); }
    else if k == 6 { IntervalRegion(1, c); }
    else if k == 10 { IntervalRegion(2, c); }
    else if k == 14 { IntervalRegion(3, c); }
  }

  /**
   * The dispatcher picks case k (1 to 18) exactly when the clamped position
   * lies in region k of the breakpoint table, and the default case exactly
   * when it lies in none.
   */
  lemma ClassifyMatchesTable(z: real, x: real, y: real, k: nat)
    requires 1 <= k <= 18
    ensures CaseNumber(Classify(z, x, y)) == k <==> InRegion(k, Clamp(z))
    ensures Classify(z, x, y) == DefaultCase <==>
      forall k' :: 1 <= k' <= 18 ==> !InRegion(k', Clamp(z))
  {
    var c := Clamp(z);
    var n := CaseNumber(Classify(z, x, y));
    RegionsSpelledOut(k, c);
    if n != 0 {
      RegionsSpelledOut(n, c);
      assert 1 <= n <= 18 && InRegion(n, c);
    } else {
      forall k' | 1 <= k' <= 18
        ensures !InRegion(k', c)
      {
        RegionsSpelledOut(k', c);
      }
    }
  }

  /** No position lies in two regions. */
  lemma RegionsDisjoint(k1: nat, k2: nat, c: real)
    requires InRegion(k1, c) && InRegion(k2, c)
    ensures k1 == k2
  {
    RegionsSpelledOut(k1, c);
    RegionsSpelledOut(k2, c);
  }

  /** The 2-m gaps on either side of each interior station reach the default case. */
  lemma GapsAreDefault(s: real, z: real, x: real, y: real)
    requires s in {1112.0, 3170.0, 4590.0, 7070.0} && (s - 2.0 < z < s || s < z < s + 2.0)
    ensures Classify(z, x, y) == DefaultCase
  {
  }

  /** Clamping: a position above the reach behaves as its end, one below it as its start. */
  lemma ClampedDispatch(z: real, x: real, y: real, cases: CaseBodies)
    ensures z < 0.0 ==> CalculateConcentration(z, x, y, cases) == CalculateConcentration(0.0, x, y, cases)
    ensures z > 8013.0 ==> CalculateConcentration(z, x, y, cases) == CalculateConcentration(8013.0, x, y, cases)
    ensures z > 8013.0 ==> Classify(z, x, y) == Case18(8013.0, x, y)
  {
  }

  /** The cases at the four stations themselves (4, 8, 12 and 16) take the rainfall only, not the temperature. */
  lemma StationCasesIgnoreTemperature(s: real, x: real, y1: real, y2: real, cases: CaseBodies)
    requires s in {1112.0, 3170.0, 4590.0, 7070.0}
    ensures CalculateConcentration(s, x, y1, cases) == CalculateConcentration(s, x, y2, cases)
    ensures CaseNumber(Classify(s, x, y1)) in {4, 8, 12, 16}
  {
  }
}
