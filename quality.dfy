/**
 * The result record of both concentration engines (`WaterQualityData`): two
 * BOD5 samples, two NH4+ samples and one NO3- sample, in mg/L.
 */
module QualityData {
  import opened Numeric

  datatype Quality = Quality(
    bod5Sample0: real,
    bod5Sample1: real,
    nh4Sample0: real,
    nh4Sample1: real,
    no3Sample1: real)

  const Zero: Quality := Quality(0.0, 0.0, 0.0, 0.0, 0.0)

  /** The two BOD5 samples agree and so do the two NH4+ samples. */
  predicate SamplesAgree(q: Quality)
  {
    q.bod5Sample0 == q.bod5Sample1 && q.nh4Sample0 == q.nh4Sample1
  }

  predicate NonNegative(q: Quality)
  {
    q.bod5Sample0 >= 0.0 && q.bod5Sample1 >= 0.0 && q.nh4Sample0 >= 0.0 &&
    q.nh4Sample1 >= 0.0 && q.no3Sample1 >= 0.0
  }

  predicate Positive(q: Quality)
  {
    q.bod5Sample0 > 0.0 && q.bod5Sample1 > 0.0 && q.nh4Sample0 > 0.0 &&
    q.nh4Sample1 > 0.0 && q.no3Sample1 > 0.0
  }

  /** Component-wise `a <= b`. */
  predicate AtMost(a: Quality, b: Quality)
  {
    a.bod5Sample0 <= b.bod5Sample0 && a.bod5Sample1 <= b.bod5Sample1 &&
    a.nh4Sample0 <= b.nh4Sample0 && a.nh4Sample1 <= b.nh4Sample1 &&
    a.no3Sample1 <= b.no3Sample1
  }

  /** Every concentration of `r` lies between the matching ones of `a` and `b`. */
  predicate BetweenQ(r: Quality, a: Quality, b: Quality)
  {
    && Between(r.bod5Sample0, a.bod5Sample0, b.bod5Sample0)
    && Between(r.bod5Sample1, a.bod5Sample1, b.bod5Sample1)
    && Between(r.nh4Sample0, a.nh4Sample0, b.nh4Sample0)
    && Between(r.nh4Sample1, a.nh4Sample1, b.nh4Sample1)
    && Between(r.no3Sample1, a.no3Sample1, b.no3Sample1)
  }
}
