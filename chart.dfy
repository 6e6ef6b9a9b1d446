/**
 * The line chart's data (components/water-quality-chart.tsx): the effect
 * that samples the live engine at each gate and at `samplingStep` evenly
 * spaced points inside each of the five gaps between gates, and
 * `getYScale`, the top of the value axis.
 */
module Chart {
  import opened Numeric
  import opened QualityData
  import LiveEngine
  import Stations

  /** One sample: the position, the engine's values there, and the gate name ("" between gates). */
  datatype ChartPoint = ChartPoint(position: real, data: Quality, name: string)

  /** Which of the five series are shown. */
  datatype EnabledSeries = EnabledSeries(
    bod5Sample0: bool, bod5Sample1: bool, nh4Sample0: bool, nh4Sample1: bool, no3Sample1: bool)

  /** The loop `for (i = 1; i <= samplingStep; i++)` runs this many times. */
  function Count(samplingStep: int): nat
  {
    if samplingStep > 0 then samplingStep else 0
  }

  function GatePosition(k: nat): real
    requires k < |Stations.RiverPositions|
  {
    Stations.RiverPositions[k].position as real
  }

  /** `currentGate.position + (nextGate.position - currentGate.position) * (i / (samplingStep + 1))`. */
  function IntermediatePosition(k: nat, i: int, samplingStep: int): real
    requires k < |Stations.RiverPositions| - 1 && samplingStep >= 0
  {
    var progress := (i as real) / ((samplingStep + 1) as real);
    GatePosition(k) + (GatePosition(k + 1) - GatePosition(k)) * progress
  }

  function GatePoint(k: nat, rainfall: real, temperature: real, m: MathLib): ChartPoint
    requires k < |Stations.RiverPositions| && LiveEngine.Defined(rainfall)
  {
    var gate := Stations.RiverPositions[k];
    ChartPoint(gate.position as real,
      LiveEngine.CalculateConcentration(gate.position as real, rainfall, temperature, m), gate.name)
  }

  /** The first `n` intermediate points of gap `k`, for i = 1 .. n. */
  function Intermediates(k: nat, n: nat, samplingStep: int, rainfall: real, temperature: real, m: MathLib): seq<ChartPoint>
    requires k < |Stations.RiverPositions| - 1 && samplingStep >= 0 && LiveEngine.Defined(rainfall)
  {
    seq(n, j requires 0 <= j < n =>
      ChartPoint(IntermediatePosition(k, j + 1, samplingStep),
        LiveEngine.CalculateConcentration(IntermediatePosition(k, j + 1, samplingStep), rainfall, temperature, m), ""))
  }

  /** One iteration of the outer loop: the gate, then its intermediates. */
  function GapPoints(k: nat, samplingStep: int, rainfall: real, temperature: real, m: MathLib): (s: seq<ChartPoint>)
    requires k < |Stations.RiverPositions| - 1 && LiveEngine.Defined(rainfall)
    ensures |s| == Count(samplingStep) + 1
  {
    [GatePoint(k, rainfall, temperature, m)]
      + Intermediates(k, Count(samplingStep), Count(samplingStep), rainfall, temperature, m)
  }

  /** The first `n` iterations of the outer loop. */
  function Gaps(n: nat, samplingStep: int, rainfall: real, temperature: real, m: MathLib): (s: seq<ChartPoint>)
    requires n <= |Stations.RiverPositions| - 1 && LiveEngine.Defined(rainfall)
  {
    if n == 0 then []
    else Gaps(n - 1, samplingStep, rainfall, temperature, m) + GapPoints(n - 1, samplingStep, rainfall, temperature, m)
  }

  /** The data the effect builds: the five gaps, then the last gate. */
  function ChartSpec(samplingStep: int, rainfall: real, temperature: real, m: MathLib): seq<ChartPoint>
    requires LiveEngine.Defined(rainfall)
  {
    Gaps(5, samplingStep, rainfall, temperature, m) + [GatePoint(5, rainfall, temperature, m)]
  }

  /**
   * The sampling effect: the loops over gaps and intermediate points,
   * pushing one point at a time, then the sort by position, which finds the
   * points already in order.
   */
  method SampleChart(rainfall: real, temperature: real, samplingStep: int, m: MathLib) returns (data: seq<ChartPoint>)
    requires LiveEngine.Defined(rainfall)
    ensures data == ChartSpec(samplingStep, rainfall, temperature, m)
    ensures |data| == 5 * (Count(samplingStep) + 1) + 1
    ensures Ascending(data)
  {
    data := [];
    var segmentIndex := 0;
    while segmentIndex < |Stations.RiverPositions| - 1
      invariant 0 <= segmentIndex <= |Stations.RiverPositions| - 1
      invariant data == Gaps(segmentIndex, samplingStep, rainfall, temperature, m)
    {
      var currentGate := Stations.RiverPositions[segmentIndex];
      var nextGate := Stations.RiverPositions[segmentIndex + 1];
      var currentWaterQuality := LiveEngine.CalculateConcentration(currentGate.position as real, rainfall, temperature, m);
      data := data + [ChartPoint(currentGate.position as real, currentWaterQuality, currentGate.name)];
      data := PushIntermediates(data, segmentIndex, samplingStep, rainfall, temperature, m);
      segmentIndex := segmentIndex + 1;
    }
    var lastGate := Stations.RiverPositions[|Stations.RiverPositions| - 1];
    var lastWaterQuality := LiveEngine.CalculateConcentration(lastGate.position as real, rainfall, temperature, m);
    data := data + [ChartPoint(lastGate.position as real, lastWaterQuality, lastGate.name)];
    ChartSpecShape(samplingStep, rainfall, temperature, m);
    SortKeepsAscending(data);
    data := SortByPosition(data);
  }

  /** The inner loop of one gap: pushes its `samplingStep` intermediate points after `data`. */
  method PushIntermediates(data: seq<ChartPoint>, segmentIndex: nat, samplingStep: int,
                           rainfall: real, temperature: real, m: MathLib)
    returns (data': seq<ChartPoint>)
    requires segmentIndex < |Stations.RiverPositions| - 1 && LiveEngine.Defined(rainfall)
    ensures data' == data + Intermediates(segmentIndex, Count(samplingStep), Count(samplingStep), rainfall, temperature, m)
  {
    var currentGate := Stations.RiverPositions[segmentIndex];
    var nextGate := Stations.RiverPositions[segmentIndex + 1];
    data' := data;
    var i := 1;
    while i <= samplingStep
      invariant 1 <= i <= Count(samplingStep) + 1
      invariant data' == data + Intermediates(segmentIndex, i - 1, Count(samplingStep), rainfall, temperature, m)
    {
      var progress := (i as real) / ((samplingStep + 1) as real);
      var intermediatePosition := currentGate.position as real
        + (nextGate.position as real - currentGate.position as real) * progress;
      var waterQuality := LiveEngine.CalculateConcentration(intermediatePosition, rainfall, temperature, m);
      assert intermediatePosition == IntermediatePosition(segmentIndex, i, Count(samplingStep));
      IntermediatesSnoc(segmentIndex, i - 1, Count(samplingStep), rainfall, temperature, m);
      data' := data' + [ChartPoint(intermediatePosition, waterQuality, "")];
      i := i + 1;
    }
  }

  lemma IntermediatesSnoc(k: nat, n: nat, samplingStep: int, rainfall: real, temperature: real, m: MathLib)
    requires k < |Stations.RiverPositions| - 1 && samplingStep >= 0 && LiveEngine.Defined(rainfall)
    ensures var z := IntermediatePosition(k, n + 1, samplingStep);
      Intermediates(k, n + 1, samplingStep, rainfall, temperature, m)
        == Intermediates(k, n, samplingStep, rainfall, temperature, m)
           + [ChartPoint(z, LiveEngine.CalculateConcentration(z, rainfall, temperature, m), "")]
  {
    var z := IntermediatePosition(k, n + 1, samplingStep);
    var lhs := Intermediates(k, n + 1, samplingStep, rainfall, temperature, m);
    var rhs := Intermediates(k, n, samplingStep, rainfall, temperature, m)
           + [ChartPoint(z, LiveEngine.CalculateConcentration(z, rainfall, temperature, m), "")];
    assert |lhs| == |rhs|;
    forall j | 0 <= j < |lhs|
      ensures lhs[j] == rhs[j]
    {
    }
  }

  // ---------------------------------------------------------------------------
  // The shape of the sampled data

  /** Positions strictly increasing along the sequence. */
  predicate Ascending(s: seq<ChartPoint>)
  {
    forall i, j :: 0 <= i < j < |s| ==> s[i].position < s[j].position
  }

  /** Consecutive gates are strictly ordered. */
  lemma GatesIncrease(k: nat)
    requires k < |Stations.RiverPositions| - 1
    ensures GatePosition(k) < GatePosition(k + 1)
  {
    Stations.StationsOrdered();
    assert Stations.Positions(Stations.RiverPositions)[k] < Stations.Positions(Stations.RiverPositions)[k + 1];
  }

  /** `a + (b - a) * p` for 0 < p < 1 lies strictly between a and b, and grows with p. */
  lemma LerpStrict(a: real, b: real, p: real, p': real)
    requires a < b && 0.0 < p <= p' < 1.0
    ensures a < a + (b - a) * p < b
    ensures a + (b - a) * p <= a + (b - a) * p'
    ensures p < p' ==> a + (b - a) * p < a + (b - a) * p'
  {
    LerpBounds(a, b, p);
    LerpMono(a, b, p, p');
  }

  lemma LerpBounds(a: real, b: real, p: real)
    requires a < b && 0.0 < p < 1.0
    ensures a < a + (b - a) * p < b
  {
    var d := b - a;
    MulLeftStrict(d, 0.0, p);
    MulLeftStrict(d, p, 1.0);
    assert 0.0 < d * p < d;
  }

  lemma LerpMono(a: real, b: real, p: real, p': real)
    requires a < b && p <= p'
    ensures a + (b - a) * p <= a + (b - a) * p'
    ensures p < p' ==> a + (b - a) * p < a + (b - a) * p'
  {
    var d := b - a;
    MulLeftMono(d, p, p');
    if p < p' {
      MulLeftStrict(d, p, p');
      assert d * p < d * p';
    }
  }

  /** `i / (samplingStep + 1)` grows with i. */
  lemma ProgressIncreasing(i: int, i': int, samplingStep: int)
    requires 0 <= i < i' && samplingStep >= 0
    ensures (i as real) / ((samplingStep + 1) as real) < (i' as real) / ((samplingStep + 1) as real)
  {
    var d := (samplingStep + 1) as real;
    var p := (i as real) / d;
    var p' := (i' as real) / d;
    assert (p' - p) * d == (i' - i) as real;
    ProductSign(p' - p, d);
  }

  /** Intermediate points lie strictly between the two gates of their gap, in increasing order of i. */
  lemma IntermediateBetween(k: nat, i: int, i': int, samplingStep: int)
    requires k < |Stations.RiverPositions| - 1
    requires 1 <= i < i' <= samplingStep
    ensures GatePosition(k) < IntermediatePosition(k, i, samplingStep) < GatePosition(k + 1)
    ensures IntermediatePosition(k, i, samplingStep) < IntermediatePosition(k, i', samplingStep)
  {
    var d := (samplingStep + 1) as real;
    ProgressBounds(i, samplingStep);
    ProgressBounds(i', samplingStep);
    ProgressIncreasing(i, i', samplingStep);
    GatesIncrease(k);
    LerpStrict(GatePosition(k), GatePosition(k + 1), (i as real) / d, (i' as real) / d);
  }

  /** The last intermediate point still lies strictly between the gates. */
  lemma LastIntermediateBetween(k: nat, i: int, samplingStep: int)
    requires k < |Stations.RiverPositions| - 1
    requires 1 <= i <= samplingStep
    ensures GatePosition(k) < IntermediatePosition(k, i, samplingStep) < GatePosition(k + 1)
  {
    var p := (i as real) / ((samplingStep + 1) as real);
    ProgressBounds(i, samplingStep);
    GatesIncrease(k);
    LerpStrict(GatePosition(k), GatePosition(k + 1), p, p);
  }

  /** `i / (samplingStep + 1)` lies strictly between 0 and 1 for 1 <= i <= samplingStep. */
  lemma ProgressBounds(i: int, samplingStep: int)
    requires 1 <= i <= samplingStep
    ensures 0.0 < (i as real) / ((samplingStep + 1) as real) < 1.0
  {
    var d := (samplingStep + 1) as real;
    var p := (i as real) / d;
    assert p * d == i as real;
    assert (1.0 - p) * d == d - i as real;
    ProductSign(p, d);
    ProductSign(1.0 - p, d);
  }

  /**
   * The inner loop's points for gap k: `samplingStep` of them (none for a
   * negative step), unnamed, strictly between the two gates and rising, each
   * carrying the engine's values at its own position.
   */
  lemma IntermediatesShape(k: nat, samplingStep: int, rainfall: real, temperature: real, m: MathLib)
    requires k < |Stations.RiverPositions| - 1 && LiveEngine.Defined(rainfall)
    ensures var s := Intermediates(k, Count(samplingStep), Count(samplingStep), rainfall, temperature, m);
      && |s| == Count(samplingStep)
      && Ascending(s)
      && (forall j :: 0 <= j < |s| ==>
            && s[j].name == ""
            && GatePosition(k) < s[j].position < GatePosition(k + 1)
            && s[j].data == LiveEngine.CalculateConcentration(s[j].position, rainfall, temperature, m))
  {
    var c := Count(samplingStep);
    var s := Intermediates(k, c, c, rainfall, temperature, m);
    forall j | 0 <= j < |s|
      ensures GatePosition(k) < s[j].position < GatePosition(k + 1)
    {
      LastIntermediateBetween(k, j + 1, c);
    }
    forall a, b | 0 <= a < b < |s|
      ensures s[a].position < s[b].position
    {
      IntermediateBetween(k, a + 1, b + 1, c);
    }
  }

  /** A gap's points rise strictly, from its gate up to below the next gate. */
  lemma GapAscending(k: nat, samplingStep: int, rainfall: real, temperature: real, m: MathLib)
    requires k < |Stations.RiverPositions| - 1 && LiveEngine.Defined(rainfall)
    ensures var s := GapPoints(k, samplingStep, rainfall, temperature, m);
      && Ascending(s)
      && s[0].position == GatePosition(k)
      && (forall j :: 0 <= j < |s| ==> GatePosition(k) <= s[j].position < GatePosition(k + 1))
  {
    var s := GapPoints(k, samplingStep, rainfall, temperature, m);
    var c := Count(samplingStep);
    Stations.StationsOrdered();
    assert Stations.Positions(Stations.RiverPositions)[k] < Stations.Positions(Stations.RiverPositions)[k + 1];
    forall j | 1 <= j < |s|
      ensures GatePosition(k) < s[j].position < GatePosition(k + 1)
    {
      assert s[j].position == IntermediatePosition(k, j, c);
      LastIntermediateBetween(k, j, c);
    }
    forall a, b | 0 <= a < b < |s|
      ensures s[a].position < s[b].position
    {
      if a > 0 {
        assert s[a].position == IntermediatePosition(k, a, c);
        assert s[b].position == IntermediatePosition(k, b, c);
        IntermediateBetween(k, a, b, c);
      }
    }
  }

  lemma AscendingAppend(a: seq<ChartPoint>, b: seq<ChartPoint>, bound: real)
    requires Ascending(a) && Ascending(b)
    requires forall i :: 0 <= i < |a| ==> a[i].position < bound
    requires forall j :: 0 <= j < |b| ==> bound <= b[j].position
    ensures Ascending(a + b)
  {
    var c := a + b;
    forall i, j | 0 <= i < j < |c|
      ensures c[i].position < c[j].position
    {
      if j < |a| {
      } else if i >= |a| {
        assert c[i] == b[i - |a|] && c[j] == b[j - |a|];
      } else {
        assert c[i] == a[i] && c[j] == b[j - |a|];
      }
    }
  }

  /** The first `n` gaps hold n * (Count + 1) points. */
  lemma {:induction false} GapsLength(n: nat, samplingStep: int, rainfall: real, temperature: real, m: MathLib)
    requires n <= |Stations.RiverPositions| - 1 && LiveEngine.Defined(rainfall)
    ensures |Gaps(n, samplingStep, rainfall, temperature, m)| == n * (Count(samplingStep) + 1)
  {
    if n > 0 {
      GapsLength(n - 1, samplingStep, rainfall, temperature, m);
      var c := Count(samplingStep) + 1;
      assert (n - 1) * c + c == n * c;
    }
  }

  /** The first `n` gaps rise strictly and lie below gate n. */
  lemma {:induction false} GapsShape(n: nat, samplingStep: int, rainfall: real, temperature: real, m: MathLib)
    requires n <= |Stations.RiverPositions| - 1 && LiveEngine.Defined(rainfall)
    ensures var s := Gaps(n, samplingStep, rainfall, temperature, m);
      && Ascending(s)
      && (forall i :: 0 <= i < |s| ==> s[i].position < GatePosition(n))
  {
    if n > 0 {
      GapsShape(n - 1, samplingStep, rainfall, temperature, m);
      GapAscending(n - 1, samplingStep, rainfall, temperature, m);
      var a := Gaps(n - 1, samplingStep, rainfall, temperature, m);
      var b := GapPoints(n - 1, samplingStep, rainfall, temperature, m);
      AscendingAppend(a, b, GatePosition(n - 1));
      GatesIncrease(n - 1);
      BelowAfterAppend(a, b, GatePosition(n - 1), GatePosition(n));
    }
  }

  lemma BelowAfterAppend(a: seq<ChartPoint>, b: seq<ChartPoint>, lo: real, hi: real)
    requires lo < hi
    requires forall i :: 0 <= i < |a| ==> a[i].position < lo
    requires forall j :: 0 <= j < |b| ==> b[j].position < hi
    ensures forall i :: 0 <= i < |a + b| ==> (a + b)[i].position < hi
  {
    forall i | 0 <= i < |a + b|
      ensures (a + b)[i].position < hi
    {
      if i >= |a| {
        assert (a + b)[i] == b[i - |a|];
      } else {
        assert (a + b)[i] == a[i];
      }
    }
  }

  /**
   * The effect builds 5 * (Count + 1) + 1 points, at positions rising
   * strictly from the first gate (0) to the last (8013).
   */
  lemma ChartSpecShape(samplingStep: int, rainfall: real, temperature: real, m: MathLib)
    requires LiveEngine.Defined(rainfall)
    ensures var s := ChartSpec(samplingStep, rainfall, temperature, m);
      && |s| == 5 * (Count(samplingStep) + 1) + 1
      && Ascending(s)
      && s[0].position == 0.0 && s[|s| - 1].position == 8013.0
  {
    GapsShape(5, samplingStep, rainfall, temperature, m);
    GapsLength(5, samplingStep, rainfall, temperature, m);
    var a := Gaps(5, samplingStep, rainfall, temperature, m);
    var b := [GatePoint(5, rainfall, temperature, m)];
    AscendingAppend(a, b, GatePosition(5));
    assert Gaps(1, samplingStep, rainfall, temperature, m) == GapPoints(0, samplingStep, rainfall, temperature, m);
    GapsPrefix(1, 5, samplingStep, rainfall, temperature, m);
  }

  /** Earlier gaps are a prefix of later ones. */
  lemma {:induction false} GapsPrefix(n: nat, n': nat, samplingStep: int, rainfall: real, temperature: real, m: MathLib)
    requires n <= n' <= |Stations.RiverPositions| - 1 && LiveEngine.Defined(rainfall)
    ensures Gaps(n, samplingStep, rainfall, temperature, m) <= Gaps(n', samplingStep, rainfall, temperature, m)
    decreases n' - n
  {
    if n < n' {
      GapsPrefix(n, n' - 1, samplingStep, rainfall, temperature, m);
    }
  }

  /**
   * Inside gap k the gate point comes first, named after its station, and
   * the intermediate points follow, unnamed and strictly between the gates.
   */
  lemma GapNames(k: nat, samplingStep: int, rainfall: real, temperature: real, m: MathLib)
    requires k < |Stations.RiverPositions| - 1 && LiveEngine.Defined(rainfall)
    ensures var s := GapPoints(k, samplingStep, rainfall, temperature, m);
      && s[0].name == Stations.RiverPositions[k].name
      && (forall j :: 1 <= j < |s| ==> s[j].name == "" && GatePosition(k) < s[j].position < GatePosition(k + 1))
  {
    GapAscending(k, samplingStep, rainfall, temperature, m);
  }

  // ---------------------------------------------------------------------------
  // The sort by position

  /** Positions never decreasing along the sequence. */
  predicate NonDecreasing(s: seq<ChartPoint>)
  {
    forall i, j :: 0 <= i < j < |s| ==> s[i].position <= s[j].position
  }

  /** Inserts `p` after every point whose position is at most its own. */
  function Insert(s: seq<ChartPoint>, p: ChartPoint): seq<ChartPoint>
  {
    if |s| == 0 then [p]
    else if s[|s| - 1].position <= p.position then s + [p]
    else Insert(s[..|s| - 1], p) + [s[|s| - 1]]
  }

  /** Insertion adds exactly `p` and keeps ordered data ordered. */
  lemma {:induction false} InsertSpec(s: seq<ChartPoint>, p: ChartPoint)
    ensures multiset(Insert(s, p)) == multiset(s) + multiset{p}
    ensures forall x :: x in Insert(s, p) ==> x in s || x == p
    ensures NonDecreasing(s) ==> NonDecreasing(Insert(s, p))
  {
    if |s| == 0 {
    } else if s[|s| - 1].position <= p.position {
      InsertAtEnd(s, p);
    } else {
      var init := s[..|s| - 1];
      var last := s[|s| - 1];
      assert s == init + [last];
      InsertSpec(init, p);
      InsertBeforeLast(s, Insert(init, p), p);
    }
  }

  lemma InsertAtEnd(s: seq<ChartPoint>, p: ChartPoint)
    requires |s| > 0 && s[|s| - 1].position <= p.position
    ensures NonDecreasing(s) ==> NonDecreasing(s + [p])
  {
    if NonDecreasing(s) {
      var r := s + [p];
      forall i, j | 0 <= i < j < |r|
        ensures r[i].position <= r[j].position
      {
        if j == |s| && i < |s| - 1 {
          assert s[i].position <= s[|s| - 1].position;
        }
      }
    }
  }

  lemma InsertBeforeLast(s: seq<ChartPoint>, r': seq<ChartPoint>, p: ChartPoint)
    requires |s| > 0 && s[|s| - 1].position > p.position
    requires forall x :: x in r' ==> x in s[..|s| - 1] || x == p
    requires NonDecreasing(s[..|s| - 1]) ==> NonDecreasing(r')
    ensures NonDecreasing(s) ==> NonDecreasing(r' + [s[|s| - 1]])
  {
    var last := s[|s| - 1];
    if NonDecreasing(s) {
      var init := s[..|s| - 1];
      assert NonDecreasing(init);
      var r := r' + [last];
      forall i, j | 0 <= i < j < |r|
        ensures r[i].position <= r[j].position
      {
        if j == |r'| {
          assert r[i] in r';
          if r[i] != p {
            var k :| 0 <= k < |init| && init[k] == r[i];
            assert s[k] == init[k];
          }
        }
      }
    }
  }

  /** `data.sort((a, b) => a.position - b.position)`, as a stable insertion sort. */
  function SortByPosition(s: seq<ChartPoint>): seq<ChartPoint>
  {
    if |s| == 0 then []
    else Insert(SortByPosition(s[..|s| - 1]), s[|s| - 1])
  }

  /** The sort is a permutation of its input with positions in order. */
  lemma {:induction false} SortByPositionSpec(s: seq<ChartPoint>)
    ensures multiset(SortByPosition(s)) == multiset(s)
    ensures NonDecreasing(SortByPosition(s))
  {
    if |s| > 0 {
      var init := s[..|s| - 1];
      var last := s[|s| - 1];
      assert s == init + [last];
      SortByPositionSpec(init);
      InsertSpec(SortByPosition(init), last);
    }
  }

  /** Sorting data already in strictly increasing position order leaves it as it is. */
  lemma {:induction false} SortKeepsAscending(s: seq<ChartPoint>)
    requires Ascending(s)
    ensures SortByPosition(s) == s
  {
    if |s| > 0 {
      var init := s[..|s| - 1];
      var last := s[|s| - 1];
      assert SortByPosition(init) == init by {
        AscendingSplit(s);
        SortKeepsAscending(init);
      }
      assert Insert(init, last) == init + [last] by {
        AscendingSplit(s);
        InsertAfterLast(init, last);
      }
      assert SortByPosition(s) == Insert(SortByPosition(init), last);
      assert s == init + [last];
    }
  }

  lemma AscendingSplit(s: seq<ChartPoint>)
    requires Ascending(s) && |s| > 0
    ensures Ascending(s[..|s| - 1])
    ensures |s| > 1 ==> s[..|s| - 1][|s| - 2].position <= s[|s| - 1].position
  {
  }

  lemma InsertAfterLast(s: seq<ChartPoint>, p: ChartPoint)
    requires |s| == 0 || s[|s| - 1].position <= p.position
    ensures Insert(s, p) == s + [p]
  {
  }

  // ---------------------------------------------------------------------------
  // getYScale

  /** The enabled concentrations of a point are at most `b`. */
  predicate EnabledAtMost(q: Quality, e: EnabledSeries, b: real)
  {
    && (e.bod5Sample0 ==> q.bod5Sample0 <= b)
    && (e.bod5Sample1 ==> q.bod5Sample1 <= b)
    && (e.nh4Sample0 ==> q.nh4Sample0 <= b)
    && (e.nh4Sample1 ==> q.nh4Sample1 <= b)
    && (e.no3Sample1 ==> q.no3Sample1 <= b)
  }

  /** `b` is one of the enabled concentrations of `q`. */
  predicate EnabledValue(q: Quality, e: EnabledSeries, b: real)
  {
    || (e.bod5Sample0 && q.bod5Sample0 == b)
    || (e.bod5Sample1 && q.bod5Sample1 == b)
    || (e.nh4Sample0 && q.nh4Sample0 == b)
    || (e.nh4Sample1 && q.nh4Sample1 == b)
    || (e.no3Sample1 && q.no3Sample1 == b)
  }

  /** One iteration of the `forEach`: the running maximum against each enabled series in turn. */
  function PointMax(acc: real, q: Quality, e: EnabledSeries): real
  {
    var a0 := if e.bod5Sample0 then Max(acc, q.bod5Sample0) else acc;
    var a1 := if e.bod5Sample1 then Max(a0, q.bod5Sample1) else a0;
    var a2 := if e.nh4Sample0 then Max(a1, q.nh4Sample0) else a1;
    var a3 := if e.nh4Sample1 then Max(a2, q.nh4Sample1) else a2;
    if e.no3Sample1 then Max(a3, q.no3Sample1) else a3
  }

  /** `maxValue` after the `forEach` over `points`, starting from 0. */
  function MaxEnabled(points: seq<ChartPoint>, e: EnabledSeries): real
  {
    if |points| == 0 then 0.0
    else PointMax(MaxEnabled(points[..|points| - 1], e), points[|points| - 1].data, e)
  }

  /**
   * The running maximum is at least 0 and every enabled value, and it is
   * either 0 or one of those values.
   */
  lemma {:induction false} MaxEnabledIsMaximum(points: seq<ChartPoint>, e: EnabledSeries)
    ensures MaxEnabled(points, e) >= 0.0
    ensures forall i :: 0 <= i < |points| ==> EnabledAtMost(points[i].data, e, MaxEnabled(points, e))
    ensures MaxEnabled(points, e) == 0.0
         || exists i :: 0 <= i < |points| && EnabledValue(points[i].data, e, MaxEnabled(points, e))
  {
    if |points| > 0 {
      var init := points[..|points| - 1];
      var last := points[|points| - 1];
      MaxEnabledIsMaximum(init, e);
      var acc := MaxEnabled(init, e);
      var r := MaxEnabled(points, e);
      assert r == PointMax(acc, last.data, e);
      assert r >= acc;
      forall i | 0 <= i < |points|
        ensures EnabledAtMost(points[i].data, e, r)
      {
        if i < |points| - 1 {
          assert points[i] == init[i];
        }
      }
      if r != acc {
        assert EnabledValue(last.data, e, r);
      } else if acc != 0.0 {
        var i :| 0 <= i < |init| && EnabledValue(init[i].data, e, acc);
        assert points[i] == init[i];
      }
    }
  }

  /** The enabled concentrations of a point, with the disabled ones set to 0. */
  function Masked(q: Quality, e: EnabledSeries): Quality
  {
    Quality(
      if e.bod5Sample0 then q.bod5Sample0 else 0.0,
      if e.bod5Sample1 then q.bod5Sample1 else 0.0,
      if e.nh4Sample0 then q.nh4Sample0 else 0.0,
      if e.nh4Sample1 then q.nh4Sample1 else 0.0,
      if e.no3Sample1 then q.no3Sample1 else 0.0)
  }

  /** Disabled series do not affect the maximum: two data sets agreeing on the enabled series have the same one. */
  lemma {:induction false} DisabledSeriesIgnored(p1: seq<ChartPoint>, p2: seq<ChartPoint>, e: EnabledSeries)
    requires |p1| == |p2|
    requires forall i :: 0 <= i < |p1| ==> Masked(p1[i].data, e) == Masked(p2[i].data, e)
    ensures MaxEnabled(p1, e) == MaxEnabled(p2, e)
  {
    if |p1| > 0 {
      var n := |p1| - 1;
      DisabledSeriesIgnored(p1[..n], p2[..n], e);
      assert Masked(p1[n].data, e) == Masked(p2[n].data, e);
    }
  }

  /**
   * `getYScale`: 1.1 times the largest enabled value, and never below 1; so
   * it is at least 1.1 times every enabled value at every point.
   */
  method GetYScale(chartData: seq<ChartPoint>, enabledSeries: EnabledSeries) returns (scale: real)
    ensures scale == Max(MaxEnabled(chartData, enabledSeries) * 1.1, 1.0)
    ensures scale >= 1.0
    ensures forall i :: 0 <= i < |chartData| ==> EnabledAtMost(chartData[i].data, enabledSeries, scale / 1.1)
  {
    var maxValue := 0.0;
    var k := 0;
    while k < |chartData|
      invariant 0 <= k <= |chartData|
      invariant maxValue == MaxEnabled(chartData[..k], enabledSeries)
    {
      var point := chartData[k];
      if enabledSeries.bod5Sample0 {
        maxValue := Max(maxValue, point.data.bod5Sample0);
      }
      if enabledSeries.bod5Sample1 {
        maxValue := Max(maxValue, point.data.bod5Sample1);
      }
      if enabledSeries.nh4Sample0 {
        maxValue := Max(maxValue, point.data.nh4Sample0);
      }
      if enabledSeries.nh4Sample1 {
        maxValue := Max(maxValue, point.data.nh4Sample1);
      }
      if enabledSeries.no3Sample1 {
        maxValue := Max(maxValue, point.data.no3Sample1);
      }
      assert chartData[..k + 1][..k] == chartData[..k];
      k := k + 1;
    }
    assert chartData[..k] == chartData;
    MaxEnabledIsMaximum(chartData, enabledSeries);
    scale := Max(maxValue * 1.1, 1.0);
  }
}
