/**
 * The fixed geometry of the reach (lib/water-quality/constants.ts): the six
 * monitoring stations, the fourteen breakpoints that the older classifier
 * tests, and the length of the reach in metres.
 */
module Stations {

  datatype Station = Station(name: string, position: int)

  const RiverLength: int := 8013

  const RiverPositions: seq<Station> := [
    Station("Sài Đồng", 0),
    Station("Đài Tư", 1112),
    Station("An Lạc", 3170),
    Station("Trâu Quỳ", 4590),
    Station("Đa Tốn", 7070),
    Station("Xuân Thụy", 8013)
  ]

  const CriticalPositions: seq<int> := [
    0, 1110, 1112, 1114, 3168, 3170, 3172, 4588, 4590, 4592, 7068, 7070, 7072, 8013
  ]

  predicate StrictlyIncreasing(s: seq<int>)
  {
    forall i, j :: 0 <= i < j < |s| ==> s[i] < s[j]
  }

  function Positions(stations: seq<Station>): (ps: seq<int>)
    ensures |ps| == |stations|
    ensures forall i :: 0 <= i < |stations| ==> ps[i] == stations[i].position
  {
    if stations == [] then [] else [stations[0].position] + Positions(stations[1..])
  }

  /** Six stations, strictly ordered downstream, from the origin to the end of the reach. */
  lemma StationsOrdered()
    ensures |RiverPositions| == 6
    ensures StrictlyIncreasing(Positions(RiverPositions))
    ensures RiverPositions[0].position == 0
    ensures RiverPositions[5].position == RiverLength
  {
  }

  /** Fourteen strictly increasing breakpoints from 0 to the length of the reach. */
  lemma CriticalPositionsOrdered()
    ensures |CriticalPositions| == 14
    ensures StrictlyIncreasing(CriticalPositions)
    ensures CriticalPositions[0] == 0
    ensures CriticalPositions[13] == RiverLength
  {
  }

  /**
   * Each interior station is a discharge node: the breakpoints include the
   * point 2 m upstream of it, the station itself and the point 2 m downstream;
   * and every station is a breakpoint.
   */
  lemma StationsAreBreakpoints()
    ensures forall k :: 1 <= k <= 4 ==>
      RiverPositions[k].position - 2 in CriticalPositions &&
      RiverPositions[k].position in CriticalPositions &&
      RiverPositions[k].position + 2 in CriticalPositions
    ensures forall k :: 0 <= k < |RiverPositions| ==> RiverPositions[k].position in CriticalPositions
  {
  }
}
