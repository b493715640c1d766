/** The history chart (src/components/PriceChart.tsx): the time-window filter, the
    grouping of records into one chart row per time tag, the y-axis extremes of a
    zoomed range, and the drag-to-zoom state machine. The locale time tag of a
    timestamp is the parameter `timeKey`. */
module PriceChart {
  import opened Common

  datatype TimeRange = OneHour | ThreeHours | SixHours | TwelveHours | OneDay | AllTime

  /** "price" plots the two prices, "range" the four range bounds. */
  datatype DataType = PriceData | RangeData

  const MS_PER_HOUR: int := 60 * 60 * 1000

  /** The `ranges` table; None stands for `Infinity`. */
  function WindowLength(r: TimeRange): Option<int>
  {
    match r
    case OneHour => Some(MS_PER_HOUR)
    case ThreeHours => Some(3 * MS_PER_HOUR)
    case SixHours => Some(6 * MS_PER_HOUR)
    case TwelveHours => Some(12 * MS_PER_HOUR)
    case OneDay => Some(24 * MS_PER_HOUR)
    case AllTime => None
  }

  /** `data.timestamp > now - ranges[timeRange]`. */
  predicate InWindow(rec: PriceRecord, r: TimeRange, now: int)
  {
    match WindowLength(r)
    case None => true
    case Some(w) => rec.timestamp > now - w
  }

  /** `filteredData`. */
  function FilterWindow(h: seq<PriceRecord>, r: TimeRange, now: int): seq<PriceRecord>
  {
    if h == [] then []
    else
      var init, last := h[..|h| - 1], h[|h| - 1];
      FilterWindow(init, r, now) + (if InWindow(last, r, now) then [last] else [])
  }

  /** The filter works record by record: one more record is kept, once and at the
      end, exactly when it is inside the window. */
  lemma FilterWindowSnoc(h: seq<PriceRecord>, x: PriceRecord, r: TimeRange, now: int)
    ensures InWindow(x, r, now) ==> FilterWindow(h + [x], r, now) == FilterWindow(h, r, now) + [x]
    ensures !InWindow(x, r, now) ==> FilterWindow(h + [x], r, now) == FilterWindow(h, r, now)
  {
    assert (h + [x])[..|h|] == h;
  }

  /** The filter distributes over concatenation. */
  lemma {:induction false} FilterWindowAppend(a: seq<PriceRecord>, b: seq<PriceRecord>, r: TimeRange, now: int)
    ensures FilterWindow(a + b, r, now) == FilterWindow(a, r, now) + FilterWindow(b, r, now)
  {
    if b == [] {
      assert a + b == a;
    } else {
      var init := b[..|b| - 1];
      assert (a + b)[..|a + b| - 1] == a + init;
      FilterWindowAppend(a, init, r, now);
    }
  }

  /** The filter keeps exactly the records inside the window. */
  lemma {:induction false} FilterWindowSelects(h: seq<PriceRecord>, r: TimeRange, now: int)
    ensures forall x :: x in FilterWindow(h, r, now) <==> x in h && InWindow(x, r, now)
  {
    if h != [] {
      var init, last := h[..|h| - 1], h[|h| - 1];
      FilterWindowSelects(init, r, now);
      assert h == init + [last];
      assert forall x :: x in h <==> x in init || x == last;
    }
  }

  /** The "all" window keeps every record. */
  lemma {:induction false} AllTimeKeepsEverything(h: seq<PriceRecord>, now: int)
    ensures FilterWindow(h, AllTime, now) == h
  {
    if h != [] {
      AllTimeKeepsEverything(h[..|h| - 1], now);
      assert h == h[..|h| - 1] + [h[|h| - 1]];
    }
  }

  /** `wide` covers at least as much time as `narrow`. */
  predicate AtLeastAsWide(wide: TimeRange, narrow: TimeRange)
  {
    match WindowLength(wide)
    case None => true
    case Some(w) => WindowLength(narrow).Some? && WindowLength(narrow).value <= w
  }

  /** A narrower window keeps exactly what it would keep from the wider window's
      result, so everything it keeps the wider window keeps too. */
  lemma {:induction false} WiderWindowKeepsMore(h: seq<PriceRecord>, wide: TimeRange, narrow: TimeRange, now: int)
    requires AtLeastAsWide(wide, narrow)
    ensures FilterWindow(h, narrow, now) == FilterWindow(FilterWindow(h, wide, now), narrow, now)
    ensures forall x :: x in FilterWindow(h, narrow, now) ==> x in FilterWindow(h, wide, now)
  {
    if h != [] {
      var init, last := h[..|h| - 1], h[|h| - 1];
      WiderWindowKeepsMore(init, wide, narrow, now);
      var kept := if InWindow(last, wide, now) then [last] else [];
      FilterWindowAppend(FilterWindow(init, wide, now), kept, narrow, now);
      if InWindow(last, wide, now) {
        assert kept[..0] == [];
      }
      FilterWindowSelects(h, narrow, now);
      FilterWindowSelects(FilterWindow(h, wide, now), narrow, now);
      FilterWindowSelects(h, wide, now);
    }
  }

  /** One entry of `chartData`; absent series values are None. */
  datatype ChartRow = ChartRow(
    time: string, timestamp: int,
    buy: Option<int>, sell: Option<int>,
    buyHigh: Option<int>, buyLow: Option<int>, sellHigh: Option<int>, sellLow: Option<int>)

  /** `{ ...existing, time: timeKey, timestamp, ...the record's series }`, starting
      from `{}` when the tag has no row yet. */
  function Place(existing: Option<ChartRow>, rec: PriceRecord, key: string, mode: DataType): ChartRow
  {
    var base := match existing
      case Some(row) => row
      case None => ChartRow(key, rec.timestamp, None, None, None, None, None, None);
    var row := base.(time := key, timestamp := rec.timestamp);
    match mode
    case PriceData =>
      if rec.tradeType == BUY then row.(buy := Some(rec.price)) else row.(sell := Some(rec.price))
    case RangeData =>
      if rec.tradeType == BUY then row.(buyHigh := Some(rec.range.highest), buyLow := Some(rec.range.lowest))
      else row.(sellHigh := Some(rec.range.highest), sellLow := Some(rec.range.lowest))
  }

  /** The `groupedData` Map: its keys in insertion order, and its entries. */
  datatype Grouping = Grouping(order: seq<string>, rows: map<string, ChartRow>)

  ghost predicate WellFormed(g: Grouping)
  {
    && (forall i, j :: 0 <= i < j < |g.order| ==> g.order[i] != g.order[j])
    && (forall k :: k in g.rows <==> k in g.order)
  }

  /** One `groupedData.set(timeKey, ...)`: a new label goes to the end of the Map,
      an existing one keeps its place. */
  function AddRecord(g: Grouping, rec: PriceRecord, key: string, mode: DataType): Grouping
  {
    if key in g.rows then Grouping(g.order, g.rows[key := Place(Some(g.rows[key]), rec, key, mode)])
    else Grouping(g.order + [key], g.rows[key := Place(None, rec, key, mode)])
  }

  /** One `set` keeps the Map's keys distinct and in step with its entries, and adds
      exactly the record's label. */
  lemma AddRecordWellFormed(g: Grouping, rec: PriceRecord, key: string, mode: DataType)
    requires WellFormed(g)
    ensures WellFormed(AddRecord(g, rec, key, mode))
    ensures forall k :: k in AddRecord(g, rec, key, mode).rows <==> k in g.rows || k == key
  {
    if key !in g.rows {
      var order := g.order + [key];
      forall i, j | 0 <= i < j < |order| ensures order[i] != order[j] {
        if j == |g.order| {
          assert order[i] == g.order[i];
        }
      }
    }
  }

  /** The Map after `filteredData.forEach(...)`: one entry per distinct label. */
  function Group(data: seq<PriceRecord>, timeKey: int -> string, mode: DataType): (g: Grouping)
    ensures WellFormed(g)
    ensures forall k :: k in g.rows <==> exists i :: 0 <= i < |data| && timeKey(data[i].timestamp) == k
  {
    if data == [] then Grouping([], map[])
    else
      var init, last := data[..|data| - 1], data[|data| - 1];
      var g := Group(init, timeKey, mode);
      var g' := AddRecord(g, last, timeKey(last.timestamp), mode);
      AddRecordWellFormed(g, last, timeKey(last.timestamp), mode);
      assert forall k :: k in g'.rows <==> exists i :: 0 <= i < |data| && timeKey(data[i].timestamp) == k by {
        forall k ensures k in g'.rows <==> exists i :: 0 <= i < |data| && timeKey(data[i].timestamp) == k {
          if k in g.rows {
            var i :| 0 <= i < |init| && timeKey(init[i].timestamp) == k;
            assert data[i] == init[i];
          } else if k != timeKey(last.timestamp) {
            forall i | 0 <= i < |data| ensures timeKey(data[i].timestamp) != k {
              if i < |init| { assert data[i] == init[i]; }
            }
          }
        }
      }
      g'
  }

  /** `Array.from(groupedData.values())`. */
  function Rows(g: Grouping): seq<ChartRow>
    requires WellFormed(g)
  {
    seq(|g.order|, i requires 0 <= i < |g.order| => g.rows[g.order[i]])
  }

  /** `chartData`: the Map is filled in place, record by record. */
  method ChartData(filtered: seq<PriceRecord>, mode: DataType, timeKey: int -> string) returns (rows: seq<ChartRow>)
    ensures |rows| == |Group(filtered, timeKey, mode).order|
    ensures rows == Rows(Group(filtered, timeKey, mode))
  {
    var order: seq<string> := [];
    var grouped: map<string, ChartRow> := map[];
    for n := 0 to |filtered|
      invariant Grouping(order, grouped) == Group(filtered[..n], timeKey, mode)
    {
      assert filtered[..n + 1][..n] == filtered[..n];
      var rec := filtered[n];
      var key := timeKey(rec.timestamp);
      var existing := if key in grouped then Some(grouped[key]) else None;
      if key !in grouped {
        order := order + [key];
      }
      grouped := grouped[key := Place(existing, rec, key, mode)];
    }
    assert filtered[..|filtered|] == filtered;
    rows := seq(|order|, i requires 0 <= i < |order| => grouped[order[i]]);
  }

  /** The labels of the records, in record order. */
  function Labels(data: seq<PriceRecord>, timeKey: int -> string): (keys: seq<string>)
    ensures |keys| == |data|
    ensures forall i :: 0 <= i < |data| ==> keys[i] == timeKey(data[i].timestamp)
  {
    seq(|data|, i requires 0 <= i < |data| => timeKey(data[i].timestamp))
  }

  /** The position of the first occurrence of `k`. */
  function FirstIndex(s: seq<string>, k: string): (i: nat)
    requires k in s
    ensures i < |s| && s[i] == k
    ensures forall j :: 0 <= j < i ==> s[j] != k
  {
    if s[|s| - 1] == k && k !in s[..|s| - 1] then |s| - 1
    else
      assert k in s[..|s| - 1] by {
        var w :| 0 <= w < |s| && s[w] == k;
        if w == |s| - 1 { assert s[|s| - 1] == k; } else { assert s[..|s| - 1][w] == k; }
      }
      FirstIndex(s[..|s| - 1], k)
  }

  /** Appending keeps the first occurrence of a label already present, and puts a new
      label's first occurrence at the end. */
  lemma FirstIndexSnoc(s: seq<string>, x: string, k: string)
    requires k in s + [x]
    ensures k in s ==> FirstIndex(s + [x], k) == FirstIndex(s, k)
    ensures k !in s ==> FirstIndex(s + [x], k) == |s|
  {
    var t := s + [x];
    assert forall j :: 0 <= j < |s| ==> t[j] == s[j];
    if k in s {
      assert t[FirstIndex(s, k)] == k;
    }
  }

  /** `order` lists the distinct labels of `keys`, in the order of their first
      occurrence. */
  ghost predicate FirstAppearanceOrder(order: seq<string>, keys: seq<string>)
  {
    && (forall k :: k in order <==> k in keys)
    && forall i, j :: 0 <= i < j < |order| ==> FirstIndex(keys, order[i]) < FirstIndex(keys, order[j])
  }

  /** One more label: a repeated one leaves the order as it is, a new one goes last. */
  lemma FirstAppearanceSnoc(order: seq<string>, keys: seq<string>, key: string)
    requires FirstAppearanceOrder(order, keys)
    ensures FirstAppearanceOrder(if key in order then order else order + [key], keys + [key])
  {
    var order' := if key in order then order else order + [key];
    forall i, j | 0 <= i < j < |order'| ensures FirstIndex(keys + [key], order'[i]) < FirstIndex(keys + [key], order'[j]) {
      assert order'[i] == order[i];
      FirstIndexSnoc(keys, key, order'[i]);
      FirstIndexSnoc(keys, key, order'[j]);
      if j < |order| {
        assert order'[j] == order[j];
      }
    }
  }

  /** The chart rows come in the order in which their labels first appear. */
  lemma {:induction false} GroupFirstAppearance(data: seq<PriceRecord>, timeKey: int -> string, mode: DataType)
    ensures FirstAppearanceOrder(Group(data, timeKey, mode).order, Labels(data, timeKey))
  {
    if data == [] {
      assert Labels(data, timeKey) == [];
    } else {
      var init, last := data[..|data| - 1], data[|data| - 1];
      var g0 := Group(init, timeKey, mode);
      var key := timeKey(last.timestamp);
      GroupFirstAppearance(init, timeKey, mode);
      assert Labels(data, timeKey) == Labels(init, timeKey) + [key];
      assert Group(data, timeKey, mode).order == if key in g0.order then g0.order else g0.order + [key];
      FirstAppearanceSnoc(g0.order, Labels(init, timeKey), key);
    }
  }

  /** The newest record carrying label `k`. */
  function LastWithLabel(data: seq<PriceRecord>, timeKey: int -> string, k: string): Option<PriceRecord>
  {
    if data == [] then None
    else
      var last := data[|data| - 1];
      if timeKey(last.timestamp) == k then Some(last) else LastWithLabel(data[..|data| - 1], timeKey, k)
  }

  /** The newest record of type `t` carrying label `k`. */
  function LastWithLabelOfType(data: seq<PriceRecord>, timeKey: int -> string, k: string, t: TradeType): Option<PriceRecord>
  {
    if data == [] then None
    else
      var last := data[|data| - 1];
      if timeKey(last.timestamp) == k && last.tradeType == t then Some(last)
      else LastWithLabelOfType(data[..|data| - 1], timeKey, k, t)
  }

  /** The fields of a row that records of type `t` write under `mode`. */
  function Cell(row: ChartRow, mode: DataType, t: TradeType): seq<Option<int>>
  {
    match (mode, t)
    case (PriceData, BUY) => [row.buy]
    case (PriceData, SELL) => [row.sell]
    case (RangeData, BUY) => [row.buyHigh, row.buyLow]
    case (RangeData, SELL) => [row.sellHigh, row.sellLow]
  }

  /** What a record writes into its cell. */
  function Written(rec: PriceRecord, mode: DataType): seq<Option<int>>
  {
    match mode
    case PriceData => [Some(rec.price)]
    case RangeData => [Some(rec.range.highest), Some(rec.range.lowest)]
  }

  function Blank(mode: DataType): seq<Option<int>>
  {
    match mode
    case PriceData => [None]
    case RangeData => [None, None]
  }

  function OtherMode(mode: DataType): DataType
  {
    match mode
    case PriceData => RangeData
    case RangeData => PriceData
  }

  /** What one `set` does to a row: the tag and timestamp are the record's, the
      record's own cell holds its values, and every other cell is as it was (empty
      for a new row). */
  lemma PlaceCells(existing: Option<ChartRow>, rec: PriceRecord, key: string, mode: DataType, t: TradeType)
    ensures Place(existing, rec, key, mode).time == key
    ensures Place(existing, rec, key, mode).timestamp == rec.timestamp
    ensures Cell(Place(existing, rec, key, mode), mode, t) ==
              if rec.tradeType == t then Written(rec, mode)
              else if existing.Some? then Cell(existing.value, mode, t) else Blank(mode)
    ensures Cell(Place(existing, rec, key, mode), OtherMode(mode), t) ==
              if existing.Some? then Cell(existing.value, OtherMode(mode), t) else Blank(OtherMode(mode))
  {
  }

  /** The row `g` holds for label `k` reflects the newest records of `data` with
      that label: its timestamp is the newest one's, each cell of the plotted data
      type holds the newest value of its trade type (or nothing when there is none),
      and the cells of the other data type are empty. A label without a row has no
      records. */
  ghost predicate ReflectsNewest(g: Grouping, data: seq<PriceRecord>, timeKey: int -> string, mode: DataType, k: string, t: TradeType)
  {
    && (k in g.rows ==>
         && g.rows[k].time == k
         && LastWithLabel(data, timeKey, k).Some?
         && g.rows[k].timestamp == LastWithLabel(data, timeKey, k).value.timestamp
         && Cell(g.rows[k], mode, t) == (match LastWithLabelOfType(data, timeKey, k, t)
                                         case Some(r) => Written(r, mode)
                                         case None => Blank(mode))
         && Cell(g.rows[k], OtherMode(mode), t) == Blank(OtherMode(mode)))
    && (k !in g.rows ==> LastWithLabelOfType(data, timeKey, k, t).None?)
  }

  /** One more record keeps the row of every label in step with the newest records. */
  lemma AddRecordReflectsNewest(g: Grouping, data: seq<PriceRecord>, timeKey: int -> string, mode: DataType, rec: PriceRecord, k: string, t: TradeType)
    requires ReflectsNewest(g, data, timeKey, mode, k, t)
    ensures ReflectsNewest(AddRecord(g, rec, timeKey(rec.timestamp), mode), data + [rec], timeKey, mode, k, t)
  {
    var data' := data + [rec];
    assert data'[..|data'| - 1] == data;
    var key := timeKey(rec.timestamp);
    var g' := AddRecord(g, rec, key, mode);
    if key == k {
      var existing := if k in g.rows then Some(g.rows[k]) else None;
      assert g'.rows[k] == Place(existing, rec, k, mode);
      PlaceCells(existing, rec, k, mode, t);
    } else {
      assert k in g'.rows <==> k in g.rows;
      if k in g'.rows {
        assert g'.rows[k] == g.rows[k];
      }
    }
  }

  /** Later records overwrite earlier ones: every label's row reflects the newest
      records carrying it. */
  lemma {:induction false} GroupLastWins(data: seq<PriceRecord>, timeKey: int -> string, mode: DataType, k: string, t: TradeType)
    ensures ReflectsNewest(Group(data, timeKey, mode), data, timeKey, mode, k, t)
  {
    if data != [] {
      var init, last := data[..|data| - 1], data[|data| - 1];
      GroupLastWins(init, timeKey, mode, k, t);
      AddRecordReflectsNewest(Group(init, timeKey, mode), init, timeKey, mode, last, k, t);
      assert init + [last] == data;
    }
  }

  /** The values `getAxisYDomain` looks at in one row, in order. */
  function Values(row: ChartRow, mode: DataType): seq<Option<int>>
  {
    match mode
    case PriceData => [row.buy, row.sell]
    case RangeData => [row.buyHigh, row.buyLow, row.sellHigh, row.sellLow]
  }

  /** The defined values of a list of rows, row by row. */
  function Plotted(rows: seq<ChartRow>, mode: DataType): seq<int>
  {
    if rows == [] then []
    else Plotted(rows[..|rows| - 1], mode) + Somes(Values(rows[|rows| - 1], mode))
  }

  lemma PlottedSnoc(rows: seq<ChartRow>, row: ChartRow, mode: DataType)
    ensures Plotted(rows + [row], mode) == Plotted(rows, mode) + Somes(Values(row, mode))
  {
    assert (rows + [row])[..|rows|] == rows;
  }

  /** `bottom` and `top` are the least and the greatest of `vs`; both are None (the
      ±Infinity seeds) when `vs` is empty. */
  ghost predicate Extremes(bottom: Option<int>, top: Option<int>, vs: seq<int>)
  {
    && (bottom.Some? <==> vs != [])
    && (top.Some? <==> vs != [])
    && (bottom.Some? ==> bottom.value in vs && forall v :: v in vs ==> bottom.value <= v)
    && (top.Some? ==> top.value in vs && forall v :: v in vs ==> v <= top.value)
  }

  /** The two comparisons made for one defined value: `if (value > top) top = value;
      if (value < bottom) bottom = value;`. They keep `bottom` and `top` the extremes
      of the values seen so far. */
  method Widen(value: int, ghost seen: seq<int>, bottom0: Option<int>, top0: Option<int>)
    returns (bottom: Option<int>, top: Option<int>)
    requires Extremes(bottom0, top0, seen)
    ensures Extremes(bottom, top, seen + [value])
  {
    bottom, top := bottom0, top0;
    if top.None? || value > top.value {
      top := Some(value);
    }
    if bottom.None? || value < bottom.value {
      bottom := Some(value);
    }
    forall u | u in seen + [value] ensures u in seen || u == value {
    }
  }

  lemma SomesPrefixStep(values: seq<Option<int>>, j: nat)
    requires j < |values|
    ensures Somes(values[..j + 1]) == Somes(values[..j]) + (if values[j].Some? then [values[j].value] else [])
  {
    assert values[..j + 1] == values[..j] + [values[j]];
    SomesSnoc(values[..j], values[j]);
  }

  /** The inner `forEach` over one row's values: each defined value lowers `bottom`
      or raises `top` when it passes them. */
  method ScanValues(values: seq<Option<int>>, ghost done: seq<int>, bottom0: Option<int>, top0: Option<int>)
    returns (bottom: Option<int>, top: Option<int>)
    requires Extremes(bottom0, top0, done)
    ensures Extremes(bottom, top, done + Somes(values))
  {
    bottom, top := bottom0, top0;
    ghost var seen := done;
    assert values[..0] == [];
    for j := 0 to |values|
      invariant seen == done + Somes(values[..j])
      invariant Extremes(bottom, top, seen)
    {
      SomesPrefixStep(values, j);
      if values[j].Some? {
        var value := values[j].value;
        bottom, top := Widen(value, seen, bottom, top);
        ghost var prefix := Somes(values[..j]);
        assert done + (prefix + [value]) == seen + [value];
        seen := seen + [value];
      }
    }
    assert values[..|values|] == values;
  }

  /** `getAxisYDomain(from, to, data)` before padding: the extremes of the defined
      values in `data.slice(from, to)`, skipping absent ones. */
  method AxisYDomain(from: int, to: int, data: seq<ChartRow>, mode: DataType) returns (bottom: Option<int>, top: Option<int>)
    ensures Extremes(bottom, top, Plotted(Slice(data, from, to), mode))
  {
    var refData := Slice(data, from, to);
    bottom, top := None, None;
    for i := 0 to |refData|
      invariant Extremes(bottom, top, Plotted(refData[..i], mode))
    {
      ghost var done := Plotted(refData[..i], mode);
      bottom, top := ScanValues(Values(refData[i], mode), done, bottom, top);
      assert refData[..i + 1] == refData[..i] + [refData[i]];
      PlottedSnoc(refData[..i], refData[i], mode);
    }
    assert refData[..|refData|] == refData;
  }

  /** The component's `zoom` state. */
  datatype ZoomState = ZoomState(
    left: Option<int>, right: Option<int>,
    refAreaLeft: Option<string>, refAreaRight: Option<string>,
    isZooming: bool)

  /** `{ isZooming: false }`: the initial state, and the state after a reset. */
  const Unzoomed: ZoomState := ZoomState(None, None, None, None, false)

  /** A label passes `!label` only when it is present and non-empty. */
  predicate Truthy(text: Option<string>)
  {
    text.Some? && text.value != ""
  }

  /** `handleMouseDown`: a press on a label starts a new selection there. */
  function MouseDown(z: ZoomState, activeLabel: Option<string>): (z': ZoomState)
    ensures !Truthy(activeLabel) ==> z' == z
    ensures Truthy(activeLabel) ==> z'.isZooming && z'.refAreaLeft == activeLabel && z'.refAreaRight.None?
    ensures z'.left == z.left && z'.right == z.right
  {
    if !Truthy(activeLabel) then z
    else z.(refAreaLeft := activeLabel, refAreaRight := None, isZooming := true)
  }

  /** `handleMouseMove`: only the selection's far end moves, and only while zooming
      over a tag. */
  function MouseMove(z: ZoomState, activeLabel: Option<string>): (z': ZoomState)
    ensures z'.(refAreaRight := z.refAreaRight) == z
    ensures z'.refAreaRight != z.refAreaRight ==> z.isZooming && Truthy(activeLabel) && z'.refAreaRight == activeLabel
    ensures z.isZooming && Truthy(activeLabel) ==> z'.refAreaRight == activeLabel
  {
    if !z.isZooming || !Truthy(activeLabel) then z
    else z.(refAreaRight := activeLabel)
  }

  /** The scan of `findIndex` from position `k` on. */
  function FindIndexFrom(rows: seq<ChartRow>, tag: string, k: nat): (i: int)
    requires k <= |rows|
    ensures i == -1 || k <= i < |rows|
    ensures i == -1 ==> forall j :: k <= j < |rows| ==> rows[j].time != tag
    ensures i >= 0 ==> rows[i].time == tag && forall j :: k <= j < i ==> rows[j].time != tag
    decreases |rows| - k
  {
    if k == |rows| then -1
    else if rows[k].time == tag then k
    else FindIndexFrom(rows, tag, k + 1)
  }

  /** `chartData.findIndex((item) => item.time === label)`: the first position whose
      row carries `tag`, or -1 when none does. */
  function FindIndex(rows: seq<ChartRow>, tag: string): (i: int)
    ensures -1 <= i < |rows|
    ensures i == -1 ==> forall j :: 0 <= j < |rows| ==> rows[j].time != tag
    ensures i >= 0 ==> rows[i].time == tag && forall j :: 0 <= j < i ==> rows[j].time != tag
  {
    FindIndexFrom(rows, tag, 0)
  }

  /** Some row carries `tag`. */
  ghost predicate HasLabel(rows: seq<ChartRow>, tag: string)
  {
    exists j :: 0 <= j < |rows| && rows[j].time == tag
  }

  /** A label that some row carries is found. */
  lemma LabelFound(rows: seq<ChartRow>, tag: string)
    requires HasLabel(rows, tag)
    ensures 0 <= FindIndex(rows, tag) < |rows|
  {
    var a :| 0 <= a < |rows| && rows[a].time == tag;
    assert rows[a].time == tag;
  }

  /** The two found positions in order, the right one moved one past and capped at
      `cap`: `if (left > right) [left, right] = [right, left]; Math.min(right + 1, cap)`. */
  function Span(l0: int, r0: int, cap: int): (int, int)
  {
    var left, right := if l0 > r0 then r0 else l0, if l0 > r0 then l0 else r0;
    (left, if right + 1 < cap then right + 1 else cap)
  }

  /** `handleMouseUp`, as written: the selected labels' positions, ordered, with the
      right end moved one past and clamped to the last index. */
  function MouseUp(z: ZoomState, rows: seq<ChartRow>): (z': ZoomState)
    ensures !z'.isZooming && z'.refAreaLeft.None? && z'.refAreaRight.None?
    ensures !Truthy(z.refAreaLeft) || !Truthy(z.refAreaRight) ==> z' == Unzoomed
    ensures Truthy(z.refAreaLeft) && Truthy(z.refAreaRight)
            && HasLabel(rows, z.refAreaLeft.value) && HasLabel(rows, z.refAreaRight.value) ==>
              && z'.left.Some? && z'.right.Some?
              && 0 <= z'.left.value <= z'.right.value <= |rows| - 1
    ensures Truthy(z.refAreaLeft) && Truthy(z.refAreaRight) ==>
              var i, j := FindIndex(rows, z.refAreaLeft.value), FindIndex(rows, z.refAreaRight.value);
              && z'.left == Some(if i <= j then i else j)
              && z'.right == Some(if (if i <= j then j else i) + 1 <= |rows| - 1 then (if i <= j then j else i) + 1 else |rows| - 1)
  {
    if !Truthy(z.refAreaLeft) || !Truthy(z.refAreaRight) then Unzoomed
    else
      var span := Span(FindIndex(rows, z.refAreaLeft.value), FindIndex(rows, z.refAreaRight.value), |rows| - 1);
      ZoomState(Some(span.0), Some(span.1), None, None, false)
  }

  /** `handleMouseUp` with the right end clamped to the row count, so that it stays
      an exclusive bound of `slice`. */
  function MouseUpInclusive(z: ZoomState, rows: seq<ChartRow>): (z': ZoomState)
    ensures !z'.isZooming && z'.refAreaLeft.None? && z'.refAreaRight.None?
    ensures !Truthy(z.refAreaLeft) || !Truthy(z.refAreaRight) ==> z' == Unzoomed
  {
    if !Truthy(z.refAreaLeft) || !Truthy(z.refAreaRight) then Unzoomed
    else
      var span := Span(FindIndex(rows, z.refAreaLeft.value), FindIndex(rows, z.refAreaRight.value), |rows|);
      ZoomState(Some(span.0), Some(span.1), None, None, false)
  }

  /** The rows the y-axis domain is computed from once a zoom is set:
      `getAxisYDomain(zoom.left, zoom.right, chartData)` reads `data.slice(left, right)`. */
  function ZoomedRows(z: ZoomState, rows: seq<ChartRow>): seq<ChartRow>
    requires z.left.Some? && z.right.Some?
  {
    Slice(rows, z.left.value, z.right.value)
  }

  /** As written, the y-axis is fitted to the rows from the first selected label up
      to, but not including, the second one when that is the last row; before the
      last row both selected rows are included. */
  lemma MouseUpFitsSelection(z: ZoomState, rows: seq<ChartRow>)
    requires Truthy(z.refAreaLeft) && Truthy(z.refAreaRight)
    requires HasLabel(rows, z.refAreaLeft.value) && HasLabel(rows, z.refAreaRight.value)
    ensures var z', i, j := MouseUp(z, rows), FindIndex(rows, z.refAreaLeft.value), FindIndex(rows, z.refAreaRight.value);
      var lo, hi := if i <= j then i else j, if i <= j then j else i;
      && 0 <= lo <= hi < |rows|
      && z'.left.Some? && z'.right.Some?
      && (hi < |rows| - 1 ==> ZoomedRows(z', rows) == rows[lo..hi + 1])
      && (hi == |rows| - 1 ==> ZoomedRows(z', rows) == rows[lo..hi])
  {
    LabelFound(rows, z.refAreaLeft.value);
    LabelFound(rows, z.refAreaRight.value);
    var i, j := FindIndex(rows, z.refAreaLeft.value), FindIndex(rows, z.refAreaRight.value);
    var lo, hi := if i <= j then i else j, if i <= j then j else i;
    var z' := MouseUp(z, rows);
    if hi < |rows| - 1 {
      assert z'.left == Some(lo) && z'.right == Some(hi + 1);
      SliceWithin(rows, lo, hi + 1);
    } else {
      assert z'.left == Some(lo) && z'.right == Some(hi);
      SliceWithin(rows, lo, hi);
    }
  }

  /** As written, a selection that ends on the last row leaves that row out of the
      rows the y-axis is fitted to (and a selection of the last row alone leaves
      nothing). */
  lemma MouseUpOmitsLastRow(z: ZoomState, rows: seq<ChartRow>, i: nat)
    requires i < |rows|
    requires Truthy(z.refAreaLeft) && Truthy(z.refAreaRight)
    requires z.refAreaLeft.value == rows[i].time && z.refAreaRight.value == rows[|rows| - 1].time
    requires forall a, b :: 0 <= a < b < |rows| ==> rows[a].time != rows[b].time
    ensures MouseUp(z, rows).left.Some? && MouseUp(z, rows).right.Some?
    ensures ZoomedRows(MouseUp(z, rows), rows) == rows[i..|rows| - 1]
    ensures rows[|rows| - 1] !in ZoomedRows(MouseUp(z, rows), rows)
  {
    var l0, r0 := FindIndex(rows, z.refAreaLeft.value), FindIndex(rows, z.refAreaRight.value);
    assert l0 == i && r0 == |rows| - 1;
  }

  /** With the corrected clamp every row between the two selected labels, both
      included, is used to fit the y-axis. */
  lemma MouseUpInclusiveCoversSelection(z: ZoomState, rows: seq<ChartRow>)
    requires Truthy(z.refAreaLeft) && Truthy(z.refAreaRight)
    requires HasLabel(rows, z.refAreaLeft.value) && HasLabel(rows, z.refAreaRight.value)
    ensures var z', i, j := MouseUpInclusive(z, rows), FindIndex(rows, z.refAreaLeft.value), FindIndex(rows, z.refAreaRight.value);
      && 0 <= i < |rows| && 0 <= j < |rows|
      && z'.left.Some? && z'.right.Some?
      && (i <= j ==> ZoomedRows(z', rows) == rows[i..j + 1])
      && (j < i ==> ZoomedRows(z', rows) == rows[j..i + 1])
  {
    LabelFound(rows, z.refAreaLeft.value);
    LabelFound(rows, z.refAreaRight.value);
    var i, j := FindIndex(rows, z.refAreaLeft.value), FindIndex(rows, z.refAreaRight.value);
    var lo, hi := if i > j then j else i, if i > j then i else j;
    var z' := MouseUpInclusive(z, rows);
    assert z'.left == Some(lo) && z'.right == Some(hi + 1);
    SliceWithin(rows, lo, hi + 1);
  }

  /** `handleZoomOut`, and the chart's mouse-leave handler: back to the initial state,
      with no zoom range and no selection. */
  function ZoomOut(z: ZoomState): (z': ZoomState)
    ensures z'.left.None? && z'.right.None? && z'.refAreaLeft.None? && z'.refAreaRight.None? && !z'.isZooming
  {
    Unzoomed
  }
}
