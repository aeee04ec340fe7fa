/**
 * The interactive line chart: drag across the x-axis to zoom into a range
 * of points, reset to show everything again.
 */
module InteractiveChart {
  import opened Types

  /** A chart point: its x-axis label and those of its fields whose value is a number. */
  datatype DataPoint = DataPoint(name: string, numbers: map<string, real>)

  /** An accepted selection, as indices into the chart data with `left <= right`. */
  datatype Range = Range(left: int, right: int)

  /** Where a `slice` argument lands: negative counts from the end, out-of-range is clamped. */
  function SliceIndex(i: int, len: nat): (k: nat)
    ensures k <= len
    ensures 0 <= i <= len ==> k == i
  {
    if i < 0 then (if len + i < 0 then 0 else len + i)
    else if i > len then len
    else i
  }

  /** `Array.prototype.slice(start, end)`. */
  function JsSlice<T>(s: seq<T>, start: int, end: int): (r: seq<T>)
    ensures 0 <= start <= end <= |s| ==> r == s[start..end]
    ensures |r| <= |s|
  {
    var a := SliceIndex(start, |s|);
    var b := SliceIndex(end, |s|);
    if a < b then s[a..b] else []
  }

  /** The numeric values of field `key` over `items`, in item order. */
  function NumbersOf(items: seq<DataPoint>, key: string): seq<real>
  {
    if items == [] then []
    else
      var last := items[|items| - 1];
      NumbersOf(items[..|items| - 1], key) + (if key in last.numbers then [last.numbers[key]] else [])
  }

  /** The configured series keys that are plotted: all but `name` and `date`. */
  predicate IsSeriesKey(key: string)
  {
    key != "name" && key != "date"
  }

  /** The values `getAxisYDomain` collects: config key by config key, item by item. */
  function SeriesValues(items: seq<DataPoint>, keys: seq<string>): seq<real>
  {
    if keys == [] then []
    else
      var key := keys[|keys| - 1];
      SeriesValues(items, keys[..|keys| - 1]) + (if IsSeriesKey(key) then NumbersOf(items, key) else [])
  }

  lemma {:induction false} NumbersOfMembers(items: seq<DataPoint>, key: string, v: real)
    ensures v in NumbersOf(items, key) <==>
            exists j :: 0 <= j < |items| && key in items[j].numbers && items[j].numbers[key] == v
  {
    if items != [] {
      var init := items[..|items| - 1];
      NumbersOfMembers(init, key, v);
      assert forall j :: 0 <= j < |init| ==> init[j] == items[j];
    }
  }

  /**
   * A value is collected exactly when some plotted key of some item holds
   * it as a number.
   */
  lemma {:induction false} SeriesValuesMembers(items: seq<DataPoint>, keys: seq<string>, v: real)
    ensures v in SeriesValues(items, keys) <==>
            exists i, j :: 0 <= i < |keys| && 0 <= j < |items| && IsSeriesKey(keys[i])
                           && keys[i] in items[j].numbers && items[j].numbers[keys[i]] == v
  {
    if keys != [] {
      var init, key := keys[..|keys| - 1], keys[|keys| - 1];
      SeriesValuesMembers(items, init, v);
      NumbersOfMembers(items, key, v);
      assert forall i :: 0 <= i < |init| ==> init[i] == keys[i];
    }
  }

  /** `Math.min(...values)`. */
  function Min(values: seq<real>): (m: real)
    requires values != []
    ensures m in values && forall v :: v in values ==> m <= v
  {
    if |values| == 1 then values[0]
    else
      var rest := Min(values[1..]);
      assert values == [values[0]] + values[1..];
      if values[0] <= rest then values[0] else rest
  }

  /** `Math.max(...values)`. */
  function Max(values: seq<real>): (m: real)
    requires values != []
    ensures m in values && forall v :: v in values ==> v <= m
  {
    if |values| == 1 then values[0]
    else
      var rest := Max(values[1..]);
      assert values == [values[0]] + values[1..];
      if values[0] >= rest then values[0] else rest
  }

  /** A label that names some point of `data`. */
  ghost predicate IsLabel(data: seq<DataPoint>, axisLabel: string)
  {
    exists i :: 0 <= i < |data| && data[i].name == axisLabel
  }

  /** `data.findIndex(item => item.name === label)` for a label that is present. */
  function FindIndex(data: seq<DataPoint>, axisLabel: string): (i: int)
    requires IsLabel(data, axisLabel)
    ensures 0 <= i < |data| && data[i].name == axisLabel
    ensures forall j :: 0 <= j < i ==> data[j].name != axisLabel
  {
    if data[0].name == axisLabel then 0
    else
      assert IsLabel(data[1..], axisLabel) by {
        var k :| 0 <= k < |data| && data[k].name == axisLabel;
        assert data[1..][k - 1].name == axisLabel;
      }
      1 + FindIndex(data[1..], axisLabel)
  }

  /**
   * The range a mouse-up accepts for the two markers: both set, taken in
   * index order whichever way the drag went, and spanning at least three
   * points; otherwise none.
   */
  function Selection(data: seq<DataPoint>, left: Option<string>, right: Option<string>): (r: Option<Range>)
    requires Truthy(left) ==> IsLabel(data, left.value)
    requires Truthy(right) ==> IsLabel(data, right.value)
    ensures r.Some? ==> 0 <= r.value.left && r.value.left + 2 <= r.value.right < |data|
  {
    if !Truthy(left) || !Truthy(right) then None
    else
      var a := FindIndex(data, left.value);
      var b := FindIndex(data, right.value);
      var lo := if a < b then a else b;
      var hi := if a < b then b else a;
      if hi - lo < 2 then None else Some(Range(lo, hi))
  }

  /**
   * A selection needs both markers; its ends are the two marked points;
   * and it is refused exactly when the marked points are fewer than two
   * positions apart.
   */
  lemma SelectionEnds(data: seq<DataPoint>, left: Option<string>, right: Option<string>)
    requires Truthy(left) ==> IsLabel(data, left.value)
    requires Truthy(right) ==> IsLabel(data, right.value)
    ensures Selection(data, left, right).Some? ==> Truthy(left) && Truthy(right)
    ensures Selection(data, left, right).Some? ==>
              var r := Selection(data, left, right).value;
              {data[r.left].name, data[r.right].name} == {left.value, right.value}
    ensures Truthy(left) && Truthy(right) ==>
              (Selection(data, left, right).None?
               <==> -2 < FindIndex(data, left.value) - FindIndex(data, right.value) < 2)
  {
  }

  /** Dragging right-to-left selects the same range as dragging left-to-right. */
  lemma SelectionIgnoresDirection(data: seq<DataPoint>, a: Option<string>, b: Option<string>)
    requires Truthy(a) ==> IsLabel(data, a.value)
    requires Truthy(b) ==> IsLabel(data, b.value)
    ensures Selection(data, a, b) == Selection(data, b, a)
  {
  }

  class Chart {
    const data: seq<DataPoint>
    /** `Object.keys(config)`. */
    const configKeys: seq<string>
    /** Whether the parent passed an `onRangeSelect` callback. */
    const hasRangeListener: bool

    var refAreaLeft: Option<string>
    var refAreaRight: Option<string>
    var zoomedData: seq<DataPoint>
    var zoomed: bool
    /** `zoomedData` is `data[windowStart..windowEnd]`. */
    ghost var windowStart: nat
    ghost var windowEnd: nat

    ghost predicate Valid()
      reads this
    {
      && (refAreaLeft.Some? ==> Truthy(refAreaLeft) && IsLabel(data, refAreaLeft.value))
      && (refAreaRight.Some? ==> Truthy(refAreaRight) && IsLabel(data, refAreaRight.value))
      && windowStart <= windowEnd <= |data|
      && zoomedData == data[windowStart..windowEnd]
      && (zoomed ==> windowEnd - windowStart >= 3)
    }

    constructor(data: seq<DataPoint>, configKeys: seq<string>, hasRangeListener: bool)
      ensures Valid()
      ensures this.data == data && this.configKeys == configKeys && this.hasRangeListener == hasRangeListener
      ensures refAreaLeft == None && refAreaRight == None
      ensures zoomedData == data && !zoomed
    {
      this.data := data;
      this.configKeys := configKeys;
      this.hasRangeListener := hasRangeListener;
      refAreaLeft, refAreaRight := None, None;
      zoomedData, zoomed := data, false;
      windowStart, windowEnd := 0, |data|;
    }

    /**
     * `getAxisYDomain(from, to, offset)`: `[0, 0]` when the slice holds no
     * number, else the smallest value minus `offset` (but not below 0) and
     * the largest plus `offset`.
     */
    method AxisYDomain(from: int, to: int, offset: real) returns (bottom: real, top: real)
      ensures bottom >= 0.0
      ensures SeriesValues(JsSlice(data, from, to + 1), configKeys) == [] ==> bottom == 0.0 && top == 0.0
      ensures var values := SeriesValues(JsSlice(data, from, to + 1), configKeys);
              values != [] ==>
                && (exists v :: v in values && (forall w :: w in values ==> v <= w)
                                && bottom == (if v - offset > 0.0 then v - offset else 0.0))
                && (exists v :: v in values && (forall w :: w in values ==> w <= v) && top == v + offset)
    {
      var dataSlice := JsSlice(data, from, to + 1);
      var allValues: seq<real> := [];
      var i := 0;
      while i < |configKeys|
        invariant 0 <= i <= |configKeys|
        invariant allValues == SeriesValues(dataSlice, configKeys[..i])
      {
        var key := configKeys[i];
        if IsSeriesKey(key) {
          var j := 0;
          while j < |dataSlice|
            invariant 0 <= j <= |dataSlice|
            invariant allValues == SeriesValues(dataSlice, configKeys[..i]) + NumbersOf(dataSlice[..j], key)
          {
            var item := dataSlice[j];
            if key in item.numbers {
              allValues := allValues + [item.numbers[key]];
            }
            assert dataSlice[..j + 1][..j] == dataSlice[..j];
            j := j + 1;
          }
          assert dataSlice[..j] == dataSlice;
        }
        assert configKeys[..i + 1][..i] == configKeys[..i];
        i := i + 1;
      }
      assert configKeys[..i] == configKeys;
      if |allValues| == 0 {
        return 0.0, 0.0;
      }
      var min := Min(allValues);
      var max := Max(allValues);
      bottom := if 0.0 > min - offset then 0.0 else min - offset;
      top := max + offset;
    }

    /** `handleMouseDown`: a present axisLabel becomes the left marker. */
    method HandleMouseDown(activeLabel: Option<string>)
      requires Valid()
      requires Truthy(activeLabel) ==> IsLabel(data, activeLabel.value)
      modifies this`refAreaLeft
      ensures Valid()
      ensures refAreaLeft == if Truthy(activeLabel) then activeLabel else old(refAreaLeft)
    {
      if !Truthy(activeLabel) {
        return;
      }
      refAreaLeft := activeLabel;
    }

    /** `handleMouseMove`: while a left marker is set, a present axisLabel becomes the right marker. */
    method HandleMouseMove(activeLabel: Option<string>)
      requires Valid()
      requires Truthy(activeLabel) ==> IsLabel(data, activeLabel.value)
      modifies this`refAreaRight
      ensures Valid()
      ensures refAreaRight
              == if Truthy(refAreaLeft) && Truthy(activeLabel) then activeLabel else old(refAreaRight)
    {
      if !Truthy(refAreaLeft) || !Truthy(activeLabel) {
        return;
      }
      refAreaRight := activeLabel;
    }

    /**
     * `handleMouseUp`: zoom into the selected range when it is accepted,
     * report it to the listener, and always clear both markers. `notified`
     * is the call made to `onRangeSelect`, if any.
     */
    method HandleMouseUp() returns (notified: Option<Range>)
      requires Valid()
      modifies this
      ensures Valid()
      ensures refAreaLeft == None && refAreaRight == None
      ensures var selection := Selection(data, old(refAreaLeft), old(refAreaRight));
              && (selection.Some? ==>
                    zoomed && zoomedData == data[selection.value.left..selection.value.right + 1])
              && (selection.None? ==> zoomed == old(zoomed) && zoomedData == old(zoomedData))
              && notified == (if hasRangeListener then selection else None)
    {
      // the marker check, the two `findIndex` calls, min / max and the size check
      var selection := Selection(data, refAreaLeft, refAreaRight);
      notified := None;
      if selection.Some? {
        var left, right := selection.value.left, selection.value.right;
        // the source computes the y-domain here and never uses it
        var bottom, top := AxisYDomain(left, right, (right - left) as real * 0.05);
        // `data.slice(left, right + 1)`, both ends within bounds here
        zoomedData := data[left..right + 1];
        zoomed := true;
        windowStart, windowEnd := left, right + 1;
        if hasRangeListener {
          notified := Some(Range(left, right));
        }
      }
      // every path, accepted or refused, clears both markers
      refAreaLeft, refAreaRight := None, None;
    }

    /** `handleReset`: show all of `data` again. */
    method HandleReset()
      requires Valid()
      modifies this`zoomedData, this`zoomed, this`windowStart, this`windowEnd
      ensures Valid()
      ensures zoomedData == data && !zoomed
    {
      zoomedData, zoomed := data, false;
      windowStart, windowEnd := 0, |data|;
    }

    /** `displayData`: the zoomed range while zoomed, else all of `data`; always a run of consecutive points. */
    function DisplayData(): (shown: seq<DataPoint>)
      reads this
      requires Valid()
      ensures zoomed ==> shown == zoomedData && |shown| >= 3
      ensures !zoomed ==> shown == data
      ensures exists a, b :: 0 <= a <= b <= |data| && shown == data[a..b]
    {
      assert data == data[0..|data|];
      if zoomed then zoomedData else data
    }
  }
}
