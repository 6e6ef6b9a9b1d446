/**
 * The research-table exporter (lib/export-utils.ts): `generateExportData`
 * samples the live engine at 53 fixed positions grouped by region and
 * numbers the rows; `exportToCSV` lays them out as comma-separated lines.
 * The number formatting the CSV uses (`toLocaleString`, `toFixed(2)` and the
 * template conversion of the two weather inputs) is taken as given by a
 * `Formatter`.
 */
module Export {
  import opened Numeric
  import opened QualityData
  import LiveEngine
  import Stations
  import Text

  /** One row of the table; `viTri` is the position label. */
  datatype ExportDataPoint = ExportDataPoint(
    tt: int,
    viTri: string,
    z: int,
    bod5Sample1: real,
    bod5Sample0: real,
    nh4Sample1: real,
    nh4Sample0: real,
    no3Sample1: real)

  datatype LabelledPoint = LabelledPoint(z: int, caption: string)

  // The sampled positions, region by region.

  const SaiDongPoints: seq<int> := [0, 100, 300, 500, 700, 900, 1100]

  const DaiTuPoints: seq<LabelledPoint> := [
    LabelledPoint(1107, "2. Đài Tư Trước cống"),
    LabelledPoint(1112, "Tại cống"),
    LabelledPoint(1117, "Sau cống"),
    LabelledPoint(1317, "1.317"),
    LabelledPoint(1517, "1.517"),
    LabelledPoint(1717, "1.717"),
    LabelledPoint(1917, "1.917"),
    LabelledPoint(2117, "2.117"),
    LabelledPoint(2317, "2.317"),
    LabelledPoint(2517, "2.517"),
    LabelledPoint(2717, "2.717"),
    LabelledPoint(2917, "2.917"),
    LabelledPoint(3117, "3.117")
  ]

  const AnLacPoints: seq<LabelledPoint> := [
    LabelledPoint(3165, "3. An Lạc Trước cống"),
    LabelledPoint(3170, "Tại cống"),
    LabelledPoint(3175, "Sau cống"),
    LabelledPoint(3375, "3.375"),
    LabelledPoint(3575, "3.575"),
    LabelledPoint(3775, "3.775"),
    LabelledPoint(3975, "3.975"),
    LabelledPoint(4175, "4.175"),
    LabelledPoint(4375, "4.375"),
    LabelledPoint(4575, "4.575")
  ]

  const TrauQuyPoints: seq<LabelledPoint> := [
    LabelledPoint(4585, "4. Trâu Quỳ Trước cống"),
    LabelledPoint(4590, "Tại cống"),
    LabelledPoint(4595, "Sau cống"),
    LabelledPoint(4795, "4.795"),
    LabelledPoint(4995, "4.995"),
    LabelledPoint(5195, "5.195"),
    LabelledPoint(5395, "5.395"),
    LabelledPoint(5595, "5.595"),
    LabelledPoint(5795, "5.795"),
    LabelledPoint(5995, "5.995"),
    LabelledPoint(6195, "6.195"),
    LabelledPoint(6395, "6.395"),
    LabelledPoint(6595, "6.595"),
    LabelledPoint(6795, "6.795"),
    LabelledPoint(6995, "6.995")
  ]

  const DaTonPoints: seq<LabelledPoint> := [
    LabelledPoint(7065, "5. Đa Tốn Trước cống"),
    LabelledPoint(7070, "Tại cống"),
    LabelledPoint(7075, "Sau cống"),
    LabelledPoint(7275, "7.275"),
    LabelledPoint(7475, "7.475"),
    LabelledPoint(7675, "7.675"),
    LabelledPoint(7875, "7.875")
  ]

  const SaiDongOriginLabel: string := "1. Sài Đồng Tại cống"
  const XuanThuyPoint: LabelledPoint := LabelledPoint(8013, "6. Xuân Thụy Tại cống")

  /** Sài Đồng rows are labelled by their position, except the origin. */
  function SaiDongLabel(z: int): string
  {
    if z == 0 then SaiDongOriginLabel else Text.IntToString(z)
  }

  /** The Sài Đồng points with their labels, in `forEach` order. */
  function SaiDongPlan(): seq<LabelledPoint>
  {
    seq(|SaiDongPoints|, i requires 0 <= i < |SaiDongPoints| => LabelledPoint(SaiDongPoints[i], SaiDongLabel(SaiDongPoints[i])))
  }

  /** Every row of the table, in push order. */
  function ExportPlan(): seq<LabelledPoint>
  {
    SaiDongPlan() + DaiTuPoints + AnLacPoints + TrauQuyPoints + DaTonPoints + [XuanThuyPoint]
  }

  /** The row for one plan point: its number, label and position, and the engine's five values there. */
  function Row(tt: int, p: LabelledPoint, rainfall: real, temperature: real, m: MathLib): ExportDataPoint
    requires LiveEngine.Defined(rainfall)
  {
    var data := LiveEngine.CalculateConcentration(p.z as real, rainfall, temperature, m);
    ExportDataPoint(tt, p.caption, p.z,
      data.bod5Sample1, data.bod5Sample0, data.nh4Sample1, data.nh4Sample0, data.no3Sample1)
  }

  /**
   * The rows for a run of plan points numbered from `start`: row i is numbered
   * start + i, carries point i's label and position, and copies the engine's
   * five values at that position into the renamed fields.
   */
  function ExportRows(plan: seq<LabelledPoint>, start: int, rainfall: real, temperature: real, m: MathLib): (rows: seq<ExportDataPoint>)
    requires LiveEngine.Defined(rainfall)
    ensures |rows| == |plan|
    ensures forall i :: 0 <= i < |plan| ==>
      var data := LiveEngine.CalculateConcentration(plan[i].z as real, rainfall, temperature, m);
      && rows[i].tt == start + i && rows[i].viTri == plan[i].caption && rows[i].z == plan[i].z
      && rows[i].bod5Sample0 == data.bod5Sample0 && rows[i].bod5Sample1 == data.bod5Sample1
      && rows[i].nh4Sample0 == data.nh4Sample0 && rows[i].nh4Sample1 == data.nh4Sample1
      && rows[i].no3Sample1 == data.no3Sample1
  {
    seq(|plan|, i requires 0 <= i < |plan| => Row(start + i, plan[i], rainfall, temperature, m))
  }

  lemma ExportRowsAppend(a: seq<LabelledPoint>, b: seq<LabelledPoint>, start: int, rainfall: real, temperature: real, m: MathLib)
    requires LiveEngine.Defined(rainfall)
    ensures ExportRows(a + b, start, rainfall, temperature, m)
         == ExportRows(a, start, rainfall, temperature, m) + ExportRows(b, start + |a|, rainfall, temperature, m)
  {
    var lhs := ExportRows(a + b, start, rainfall, temperature, m);
    var rhs := ExportRows(a, start, rainfall, temperature, m) + ExportRows(b, start + |a|, rainfall, temperature, m);
    assert |lhs| == |rhs|;
    forall i | 0 <= i < |lhs|
      ensures lhs[i] == rhs[i]
    {
      if i >= |a| {
        assert (a + b)[i] == b[i - |a|];
      }
    }
  }

  lemma ExportRowsSingle(p: LabelledPoint, start: int, rainfall: real, temperature: real, m: MathLib)
    requires LiveEngine.Defined(rainfall)
    ensures ExportRows([p], start, rainfall, temperature, m) == [Row(start, p, rainfall, temperature, m)]
  {
  }

  /** One region's `forEach`: pushes a row per point, numbering on from `tt`. */
  method PushRegion(exportData: seq<ExportDataPoint>, tt: int, points: seq<LabelledPoint>,
                    rainfall: real, temperature: real, m: MathLib)
    returns (data': seq<ExportDataPoint>, tt': int)
    requires LiveEngine.Defined(rainfall)
    ensures data' == exportData + ExportRows(points, tt, rainfall, temperature, m)
    ensures tt' == tt + |points|
  {
    data' := exportData;
    tt' := tt;
    var k := 0;
    while k < |points|
      invariant 0 <= k <= |points|
      invariant tt' == tt + k
      invariant data' == exportData + ExportRows(points[..k], tt, rainfall, temperature, m)
    {
      var point := points[k];
      var data := LiveEngine.CalculateConcentration(point.z as real, rainfall, temperature, m);
      assert points[..k + 1] == points[..k] + [point];
      ExportRowsAppend(points[..k], [point], tt, rainfall, temperature, m);
      ExportRowsSingle(point, tt', rainfall, temperature, m);
      data' := data' + [ExportDataPoint(tt', point.caption, point.z,
        data.bod5Sample1, data.bod5Sample0, data.nh4Sample1, data.nh4Sample0, data.no3Sample1)];
      tt' := tt' + 1;
      k := k + 1;
    }
    assert points[..k] == points;
  }

  /** The Sài Đồng `forEach`: the first seven rows, numbered from 1. */
  method PushSaiDong(rainfall: real, temperature: real, m: MathLib) returns (exportData: seq<ExportDataPoint>, tt: int)
    requires LiveEngine.Defined(rainfall)
    ensures exportData == ExportRows(SaiDongPlan(), 1, rainfall, temperature, m)
    ensures tt == 1 + |SaiDongPoints|
  {
    exportData := [];
    tt := 1;
    var i := 0;
    while i < |SaiDongPoints|
      invariant 0 <= i <= |SaiDongPoints|
      invariant tt == 1 + i
      invariant exportData == ExportRows(SaiDongPlan()[..i], 1, rainfall, temperature, m)
    {
      var z := SaiDongPoints[i];
      var data := LiveEngine.CalculateConcentration(z as real, rainfall, temperature, m);
      SaiDongPlanAt(i);
      assert SaiDongPlan()[..i + 1] == SaiDongPlan()[..i] + [SaiDongPlan()[i]];
      ExportRowsAppend(SaiDongPlan()[..i], [SaiDongPlan()[i]], 1, rainfall, temperature, m);
      ExportRowsSingle(SaiDongPlan()[i], tt, rainfall, temperature, m);
      var caption := if z == 0 then SaiDongOriginLabel else Text.IntToString(z);
      assert ExportDataPoint(tt, caption, z, data.bod5Sample1, data.bod5Sample0, data.nh4Sample1, data.nh4Sample0, data.no3Sample1)
          == Row(tt, SaiDongPlan()[i], rainfall, temperature, m);
      exportData := exportData + [ExportDataPoint(tt, caption, z,
        data.bod5Sample1, data.bod5Sample0, data.nh4Sample1, data.nh4Sample0, data.no3Sample1)];
      tt := tt + 1;
      i := i + 1;
    }
    assert SaiDongPlan()[..i] == SaiDongPlan();
  }

  lemma SaiDongPlanAt(i: nat)
    requires i < |SaiDongPoints|
    ensures |SaiDongPlan()| == |SaiDongPoints|
    ensures SaiDongPlan()[i] == LabelledPoint(SaiDongPoints[i], SaiDongLabel(SaiDongPoints[i]))
  {
  }

  /**
   * `generateExportData`: the 53 rows of the plan, numbered 1 to 53, each
   * carrying the engine's values at its position.
   */
  method GenerateExportData(rainfall: real, temperature: real, m: MathLib) returns (exportData: seq<ExportDataPoint>)
    requires LiveEngine.Defined(rainfall)
    ensures exportData == ExportRows(ExportPlan(), 1, rainfall, temperature, m)
    ensures |exportData| == 53
    ensures forall i :: 0 <= i < |exportData| ==> exportData[i].tt == i + 1
  {
    var tt;
    // 1. Sài Đồng
    exportData, tt := PushSaiDong(rainfall, temperature, m);
    // 2. to 5.: Đài Tư, An Lạc, Trâu Quỳ, Đa Tốn
    exportData, tt := PushRegion(exportData, tt, DaiTuPoints, rainfall, temperature, m);
    exportData, tt := PushRegion(exportData, tt, AnLacPoints, rainfall, temperature, m);
    exportData, tt := PushRegion(exportData, tt, TrauQuyPoints, rainfall, temperature, m);
    exportData, tt := PushRegion(exportData, tt, DaTonPoints, rainfall, temperature, m);
    // 6. Xuân Thụy
    var xuanThuyData := LiveEngine.CalculateConcentration(8013.0, rainfall, temperature, m);
    exportData := exportData + [ExportDataPoint(tt, XuanThuyPoint.caption, 8013,
      xuanThuyData.bod5Sample1, xuanThuyData.bod5Sample0, xuanThuyData.nh4Sample1,
      xuanThuyData.nh4Sample0, xuanThuyData.no3Sample1)];
    tt := tt + 1;
    ExportRowsByRegion(rainfall, temperature, m);
    ExportPlanSizes();
  }

  /** The plan's rows are the regions' rows in push order, each numbered on from the one before. */
  lemma ExportRowsByRegion(rainfall: real, temperature: real, m: MathLib)
    requires LiveEngine.Defined(rainfall)
    ensures ExportRows(ExportPlan(), 1, rainfall, temperature, m)
      == ExportRows(SaiDongPlan(), 1, rainfall, temperature, m)
       + ExportRows(DaiTuPoints, 8, rainfall, temperature, m)
       + ExportRows(AnLacPoints, 21, rainfall, temperature, m)
       + ExportRows(TrauQuyPoints, 31, rainfall, temperature, m)
       + ExportRows(DaTonPoints, 46, rainfall, temperature, m)
       + ExportRows([XuanThuyPoint], 53, rainfall, temperature, m)
  {
    ExportPlanSizes();
    var p1 := SaiDongPlan() + DaiTuPoints;
    var p2 := p1 + AnLacPoints;
    var p3 := p2 + TrauQuyPoints;
    var p4 := p3 + DaTonPoints;
    ExportRowsAppend(SaiDongPlan(), DaiTuPoints, 1, rainfall, temperature, m);
    ExportRowsAppend(p1, AnLacPoints, 1, rainfall, temperature, m);
    ExportRowsAppend(p2, TrauQuyPoints, 1, rainfall, temperature, m);
    ExportRowsAppend(p3, DaTonPoints, 1, rainfall, temperature, m);
    ExportRowsAppend(p4, [XuanThuyPoint], 1, rainfall, temperature, m);
  }

  // ---------------------------------------------------------------------------
  // The plan

  function PlanPositions(plan: seq<LabelledPoint>): (ps: seq<int>)
    ensures |ps| == |plan|
    ensures forall i :: 0 <= i < |plan| ==> ps[i] == plan[i].z
  {
    seq(|plan|, i requires 0 <= i < |plan| => plan[i].z)
  }

  lemma {:induction false} IncreasingFromAdjacent(s: seq<int>)
    requires forall i :: 0 <= i < |s| - 1 ==> s[i] < s[i + 1]
    ensures Stations.StrictlyIncreasing(s)
  {
    forall i, j | 0 <= i < j < |s|
      ensures s[i] < s[j]
    {
      AdjacentChain(s, i, j);
    }
  }

  lemma {:induction false} AdjacentChain(s: seq<int>, i: int, j: int)
    requires forall k :: 0 <= k < |s| - 1 ==> s[k] < s[k + 1]
    requires 0 <= i < j < |s|
    ensures s[i] < s[j]
    decreases j - i
  {
    if j > i + 1 {
      AdjacentChain(s, i + 1, j);
    }
  }

  lemma PlanPositionsAppend(a: seq<LabelledPoint>, b: seq<LabelledPoint>)
    ensures PlanPositions(a + b) == PlanPositions(a) + PlanPositions(b)
  {
    assert PlanPositions(a + b) == PlanPositions(a) + PlanPositions(b);
  }

  /** Joining two strictly increasing runs, the first ending below the start of the second, keeps the rise strict. */
  lemma IncreasingAppend(a: seq<int>, b: seq<int>)
    requires Stations.StrictlyIncreasing(a) && Stations.StrictlyIncreasing(b)
    requires |a| > 0 && |b| > 0 && a[|a| - 1] < b[0]
    ensures Stations.StrictlyIncreasing(a + b)
  {
    var c := a + b;
    forall i, j | 0 <= i < j < |c|
      ensures c[i] < c[j]
    {
      if j < |a| {
      } else if i >= |a| {
        assert c[i] == b[i - |a|] && c[j] == b[j - |a|];
      } else {
        assert c[i] <= a[|a| - 1] && b[0] <= b[j - |a|];
      }
    }
  }

  /** The position run of each region, written out, and each rising strictly. */
  lemma RegionRuns()
    ensures PlanPositions(SaiDongPlan()) == SaiDongPoints
    ensures PlanPositions(DaiTuPoints) == [1107, 1112, 1117, 1317, 1517, 1717, 1917, 2117, 2317, 2517, 2717, 2917, 3117]
    ensures PlanPositions(AnLacPoints) == [3165, 3170, 3175, 3375, 3575, 3775, 3975, 4175, 4375, 4575]
    ensures PlanPositions(TrauQuyPoints) == [4585, 4590, 4595, 4795, 4995, 5195, 5395, 5595, 5795, 5995, 6195, 6395, 6595, 6795, 6995]
    ensures PlanPositions(DaTonPoints) == [7065, 7070, 7075, 7275, 7475, 7675, 7875]
    ensures Stations.StrictlyIncreasing(SaiDongPoints)
    ensures Stations.StrictlyIncreasing(PlanPositions(DaiTuPoints))
    ensures Stations.StrictlyIncreasing(PlanPositions(AnLacPoints))
    ensures Stations.StrictlyIncreasing(PlanPositions(TrauQuyPoints))
    ensures Stations.StrictlyIncreasing(PlanPositions(DaTonPoints))
  {
    IncreasingFromAdjacent(SaiDongPoints);
    IncreasingFromAdjacent(PlanPositions(DaiTuPoints));
    IncreasingFromAdjacent(PlanPositions(AnLacPoints));
    IncreasingFromAdjacent(PlanPositions(TrauQuyPoints));
    IncreasingFromAdjacent(PlanPositions(DaTonPoints));
  }

  /** The plan has 53 points, 7 + 13 + 10 + 15 + 7 + 1 by region. */
  lemma ExportPlanSizes()
    ensures |SaiDongPlan()| == 7 && |DaiTuPoints| == 13 && |AnLacPoints| == 10
    ensures |TrauQuyPoints| == 15 && |DaTonPoints| == 7
    ensures |ExportPlan()| == 53
  {
  }

  /** The plan's positions rise strictly, from 0 at the first point to 8013 at the last. */
  lemma ExportPlanOrdered()
    ensures Stations.StrictlyIncreasing(PlanPositions(ExportPlan()))
    ensures ExportPlan()[0].z == 0 && ExportPlan()[52].z == 8013
  {
    RegionRuns();
    var a := SaiDongPlan();
    var p1 := a + DaiTuPoints;
    var p2 := p1 + AnLacPoints;
    var p3 := p2 + TrauQuyPoints;
    var p4 := p3 + DaTonPoints;
    PlanPositionsAppend(a, DaiTuPoints);
    IncreasingAppend(PlanPositions(a), PlanPositions(DaiTuPoints));
    PlanPositionsAppend(p1, AnLacPoints);
    IncreasingAppend(PlanPositions(p1), PlanPositions(AnLacPoints));
    PlanPositionsAppend(p2, TrauQuyPoints);
    IncreasingAppend(PlanPositions(p2), PlanPositions(TrauQuyPoints));
    PlanPositionsAppend(p3, DaTonPoints);
    IncreasingAppend(PlanPositions(p3), PlanPositions(DaTonPoints));
    PlanPositionsAppend(p4, [XuanThuyPoint]);
    IncreasingAppend(PlanPositions(p4), PlanPositions([XuanThuyPoint]));
    assert ExportPlan() == p4 + [XuanThuyPoint];
  }

  /** The origin and the end carry their station labels; the other Sài Đồng points are labelled by their position. */
  lemma ExportPlanLabels()
    ensures ExportPlan()[0] == LabelledPoint(0, "1. Sài Đồng Tại cống")
    ensures forall i :: 1 <= i < 7 ==> ExportPlan()[i].caption == Text.IntToString(ExportPlan()[i].z)
    ensures ExportPlan()[52] == LabelledPoint(8013, "6. Xuân Thụy Tại cống")
  {
    var p := ExportPlan();
    forall i | 1 <= i < 7
      ensures p[i].caption == Text.IntToString(p[i].z)
    {
      assert p[i] == SaiDongPlan()[i];
      assert SaiDongPoints[i] != 0;
    }
  }

  /** The generated rows: numbered 1 to 53 in order, positions rising strictly from 0 to 8013, each with the engine's values there. */
  lemma GeneratedRows(rainfall: real, temperature: real, m: MathLib)
    requires LiveEngine.Defined(rainfall)
    ensures var rows := ExportRows(ExportPlan(), 1, rainfall, temperature, m);
      && |rows| == 53
      && rows[0].z == 0 && rows[52].z == 8013
      && (forall i, j :: 0 <= i < j < |rows| ==> rows[i].z < rows[j].z)
      && (forall i :: 0 <= i < |rows| ==> rows[i].tt == i + 1)
      && (forall i :: 0 <= i < |rows| ==>
            var data := LiveEngine.CalculateConcentration(rows[i].z as real, rainfall, temperature, m);
            && rows[i].bod5Sample0 == data.bod5Sample0 && rows[i].bod5Sample1 == data.bod5Sample1
            && rows[i].nh4Sample0 == data.nh4Sample0 && rows[i].nh4Sample1 == data.nh4Sample1
            && rows[i].no3Sample1 == data.no3Sample1)
  {
    ExportPlanSizes();
    ExportPlanOrdered();
    var rows := ExportRows(ExportPlan(), 1, rainfall, temperature, m);
    var ps := PlanPositions(ExportPlan());
    forall i, j | 0 <= i < j < |rows|
      ensures rows[i].z < rows[j].z
    {
      assert rows[i].z == ps[i] && rows[j].z == ps[j];
    }
  }

  // ---------------------------------------------------------------------------
  // CSV

  /** The number formatting `exportToCSV` relies on: template conversion, `toLocaleString` and `toFixed(2)`. */
  datatype Formatter = Formatter(show: real -> string, localeString: int -> string, fixed2: real -> string)

  /** The first line of the file. */
  const Title: string := "Bảng kết quả " + "tính toán " + "chất lượng " + "nước sông Cầu Bây"

  const Headers: seq<string> := ["TT", "Vị trí", "Z", "BOD5 mẫu 1", "BOD5 mẫu 0", "NH4+ mẫu 1", "NH4+ mẫu 0", "NO3- Mẫu 1"]

  function ParameterLine(rainfall: real, temperature: real, f: Formatter): string
  {
    "Lượng mưa (X): " + f.show(rainfall) + " mm/hr, Nhiệt độ (Y): " + f.show(temperature) + "°C"
  }

  /** The eight cells of a data line: number, quoted label, formatted position, then the five values. */
  function RowFields(row: ExportDataPoint, f: Formatter): (cells: seq<string>)
    ensures |cells| == |Headers|
  {
    [Text.IntToString(row.tt), "\"" + row.viTri + "\"", f.localeString(row.z),
     f.fixed2(row.bod5Sample1), f.fixed2(row.bod5Sample0), f.fixed2(row.nh4Sample1),
     f.fixed2(row.nh4Sample0), f.fixed2(row.no3Sample1)]
  }

  /** The lines of the file: title, parameters, a blank line, the header, then one line per row. */
  function CsvLines(data: seq<ExportDataPoint>, rainfall: real, temperature: real, f: Formatter): (lines: seq<string>)
    ensures |lines| == 4 + |data|
  {
    [Title, ParameterLine(rainfall, temperature, f), "", Text.Join(Headers, ',')]
      + seq(|data|, i requires 0 <= i < |data| => Text.Join(RowFields(data[i], f), ','))
  }

  /** `exportToCSV`. */
  function ExportToCsv(data: seq<ExportDataPoint>, rainfall: real, temperature: real, f: Formatter): string
  {
    Text.Join(CsvLines(data, rainfall, temperature, f), '\n')
  }

  /** No character of a formatted integer is `sep` unless `sep` is a digit or the minus sign. */
  lemma IntToStringFree(n: int, sep: char)
    requires !('0' <= sep <= '9') && sep != '-'
    ensures sep !in Text.IntToString(n)
  {
    var s := Text.IntToString(n);
    if n >= 0 {
      assert Text.IsDigits(s);
    } else {
      assert Text.IsDigits(s[1..]);
      assert s == [s[0]] + s[1..];
    }
  }

  /** The cells of a row hold no `sep`, given that its label and formatted numbers hold none. */
  predicate RowFree(row: ExportDataPoint, f: Formatter, sep: char)
  {
    && sep !in row.viTri && sep !in f.localeString(row.z)
    && sep !in f.fixed2(row.bod5Sample1) && sep !in f.fixed2(row.bod5Sample0)
    && sep !in f.fixed2(row.nh4Sample1) && sep !in f.fixed2(row.nh4Sample0)
    && sep !in f.fixed2(row.no3Sample1)
  }

  lemma RowFieldsFree(row: ExportDataPoint, f: Formatter, sep: char)
    requires sep in {',', '\n'} && RowFree(row, f, sep)
    ensures Text.FreeOf(RowFields(row, f), sep)
  {
    IntToStringFree(row.tt, sep);
    assert sep !in "\"" + row.viTri + "\"";
  }

  /** The header line splits back into the eight column names. */
  lemma HeaderColumns()
    ensures |Headers| == 8
    ensures Text.Split(Text.Join(Headers, ','), ',') == Headers
  {
    Text.SplitJoin(Headers, ',');
  }

  /**
   * A data line splits at its commas into exactly its eight cells, the
   * second being the label in quotes, when no label or formatted number
   * holds a comma.
   */
  lemma RowColumns(row: ExportDataPoint, f: Formatter)
    requires RowFree(row, f, ',')
    ensures var cells := Text.Split(Text.Join(RowFields(row, f), ','), ',');
      && cells == RowFields(row, f)
      && |cells| == 8
      && cells[1] == "\"" + row.viTri + "\""
  {
    RowFieldsFree(row, f, ',');
    Text.SplitJoin(RowFields(row, f), ',');
  }

  /**
   * A locale that groups thousands with a comma (1112 as "1,112") breaks that
   * layout: the data line no longer splits back into its eight cells.
   */
  lemma GroupedPositionBreaksColumns(row: ExportDataPoint, f: Formatter)
    requires ',' in f.localeString(row.z)
    ensures Text.Split(Text.Join(RowFields(row, f), ','), ',') != RowFields(row, f)
  {
    var cells := Text.Split(Text.Join(RowFields(row, f), ','), ',');
    assert |cells| > 2 ==> ',' !in cells[2];
  }

  /**
   * The file splits at its newlines into the four preamble lines and one
   * line per row, in order, when no formatted value or label holds a newline.
   */
  lemma CsvLayout(data: seq<ExportDataPoint>, rainfall: real, temperature: real, f: Formatter)
    requires '\n' !in f.show(rainfall) && '\n' !in f.show(temperature)
    requires forall i :: 0 <= i < |data| ==> RowFree(data[i], f, '\n')
    ensures var lines := Text.Split(ExportToCsv(data, rainfall, temperature, f), '\n');
      && |lines| == 4 + |data|
      && lines[0] == Title && lines[2] == "" && lines[3] == Text.Join(Headers, ',')
      && (forall i :: 0 <= i < |data| ==> lines[4 + i] == Text.Join(RowFields(data[i], f), ','))
  {
    CsvLinesFree(data, rainfall, temperature, f);
    Text.SplitJoin(CsvLines(data, rainfall, temperature, f), '\n');
    CsvLinesAt(data, rainfall, temperature, f);
  }

  lemma CsvLinesAt(data: seq<ExportDataPoint>, rainfall: real, temperature: real, f: Formatter)
    ensures var lines := CsvLines(data, rainfall, temperature, f);
      && lines[0] == Title && lines[2] == "" && lines[3] == Text.Join(Headers, ',')
      && (forall i :: 0 <= i < |data| ==> lines[4 + i] == Text.Join(RowFields(data[i], f), ','))
  {
  }

  lemma CsvLinesFree(data: seq<ExportDataPoint>, rainfall: real, temperature: real, f: Formatter)
    requires '\n' !in f.show(rainfall) && '\n' !in f.show(temperature)
    requires forall i :: 0 <= i < |data| ==> RowFree(data[i], f, '\n')
    ensures Text.FreeOf(CsvLines(data, rainfall, temperature, f), '\n')
  {
    var lines := CsvLines(data, rainfall, temperature, f);
    PreambleFree(rainfall, temperature, f);
    forall k | 4 <= k < |lines|
      ensures '\n' !in lines[k]
    {
      RowFieldsFree(data[k - 4], f, '\n');
      JoinFree(RowFields(data[k - 4], f), ',', '\n');
    }
  }

  lemma PreambleFree(rainfall: real, temperature: real, f: Formatter)
    requires '\n' !in f.show(rainfall) && '\n' !in f.show(temperature)
    ensures '\n' !in Title && '\n' !in ParameterLine(rainfall, temperature, f)
    ensures '\n' !in Text.Join(Headers, ',')
  {
    TitleFree();
    ParameterLineFree(rainfall, temperature, f);
    HeadersFree();
    JoinFree(Headers, ',', '\n');
  }

  lemma TitleFree()
    ensures '\n' !in Title
  {
  }

  lemma ParameterLineFree(rainfall: real, temperature: real, f: Formatter)
    requires '\n' !in f.show(rainfall) && '\n' !in f.show(temperature)
    ensures '\n' !in ParameterLine(rainfall, temperature, f)
  {
  }

  lemma HeadersFree()
    ensures Text.FreeOf(Headers, '\n')
  {
  }

  /** Joining pieces free of `c` with a separator other than `c` gives a string free of `c`. */
  lemma {:induction false} JoinFree(xs: seq<string>, sep: char, c: char)
    requires sep != c && Text.FreeOf(xs, c)
    ensures c !in Text.Join(xs, sep)
    decreases |xs|
  {
    if |xs| > 1 {
      JoinFree(xs[1..], sep, c);
    }
  }
}
