/** The control tool's display of an allocation table as intervals, and the assignment of such lists to a table.

    The same code serves VIDs by FID (indices 1 to MAX_VID, values up to MAX_FID) and FIDs by MSTID (indices 0 to
    MAX_FID, values up to MAX_MSTID): `lo`, `max` and `maxValue` are these limits. */
module Intervals {
  import opened Types

  const NONE: u16 := 0xFFFF

  datatype Interval = Interval(first: nat, last: nat)
  datatype Line = Line(value: u16, runs: seq<Interval>)

  predicate Covers(v: Interval, i: int) {
    v.first <= i <= v.last
  }

  // ---- What is to be displayed ----

  /** All indices of the interval hold `value`, and it cannot be made longer within `lo..end`. */
  ghost predicate MaximalRun(v: Interval, t: seq<u16>, lo: nat, end: nat, value: u16)
    requires end <= |t|
  {
    && lo <= v.first <= v.last < end
    && (forall i :: Covers(v, i) ==> t[i] == value)
    && (v.first == lo || t[v.first - 1] != value)
    && (v.last + 1 == end || t[v.last + 1] != value)
  }

  /** The maximal runs of `value` among the indices `lo..end`, in order, with gaps between them. */
  ghost predicate AreRuns(runs: seq<Interval>, t: seq<u16>, lo: nat, end: nat, value: u16)
    requires end <= |t|
  {
    && (forall k :: 0 <= k < |runs| ==> MaximalRun(runs[k], t, lo, end, value))
    && (forall j, k :: 0 <= j < k < |runs| ==> runs[j].last + 1 < runs[k].first)
    && (forall i :: lo <= i < end && t[i] == value ==> Covered(runs, i))
  }

  ghost predicate Covered(runs: seq<Interval>, i: int) {
    exists k :: 0 <= k < |runs| && Covers(runs[k], i)
  }

  /** One line for each value in use, in increasing order, with the runs of that value. */
  ghost predicate Displays(lines: seq<Line>, t: seq<u16>, lo: nat, end: nat, maxValue: u16)
    requires end <= |t|
  {
    && (forall k :: 0 <= k < |lines| ==> LineFits(lines[k], t, lo, end, maxValue))
    && (forall j, k :: 0 <= j < k < |lines| ==> lines[j].value < lines[k].value)
    && (forall i :: lo <= i < end && t[i] <= maxValue ==> HasLine(lines, t[i]))
  }

  ghost predicate LineFits(line: Line, t: seq<u16>, lo: nat, end: nat, maxValue: u16)
    requires end <= |t|
  {
    line.value <= maxValue && line.runs != [] && AreRuns(line.runs, t, lo, end, line.value)
  }

  ghost predicate HasLine(lines: seq<Line>, value: u16) {
    exists k :: 0 <= k < |lines| && lines[k].value == value
  }

  // ---- The scan for one value ----

  /** Index `i` has been reached, and the last `count` indices hold the value. */
  ghost predicate Scanned(runs: seq<Interval>, t: seq<u16>, lo: nat, i: nat, count: nat, value: u16)
    requires i <= |t|
  {
    && lo + count <= i
    && AreRuns(runs, t, lo, i - count, value)
    && (forall j :: i - count <= j < i ==> t[j] == value)
    && (count > 0 ==> i - count == lo || t[i - count - 1] != value)
  }

  /** An index that holds the value makes the present run longer. */
  lemma ScanExtends(runs: seq<Interval>, t: seq<u16>, lo: nat, i: nat, count: nat, value: u16)
    requires lo <= i < |t| && Scanned(runs, t, lo, i, count, value) && t[i] == value
    requires count > 0 || i == lo || t[i - 1] != value
    ensures Scanned(runs, t, lo, i + 1, count + 1, value)
  {
  }

  /** An index that does not hold it ends the present run. */
  lemma ScanCloses(runs: seq<Interval>, t: seq<u16>, lo: nat, i: nat, count: nat, value: u16)
    requires lo <= i < |t| && Scanned(runs, t, lo, i, count, value) && t[i] != value && count > 0
    ensures Scanned(runs + [Interval(i - count, i - 1)], t, lo, i + 1, 0, value)
  {
    var v, more := Interval(i - count, i - 1), runs + [Interval(i - count, i - 1)];
    assert MaximalRun(v, t, lo, i + 1, value);
    forall k | 0 <= k < |runs|
      ensures MaximalRun(more[k], t, lo, i + 1, value) && more[k].last + 1 < v.first
    {
      assert MaximalRun(runs[k], t, lo, i - count, value);
    }
    forall j | lo <= j < i + 1 && t[j] == value
      ensures Covered(more, j)
    {
      if j < i - count {
        assert Covered(runs, j);
        var k :| 0 <= k < |runs| && Covers(runs[k], j);
        assert Covers(more[k], j);
      } else {
        assert Covers(more[|runs|], j);
      }
    }
  }

  lemma ScanSkips(runs: seq<Interval>, t: seq<u16>, lo: nat, i: nat, value: u16)
    requires lo <= i < |t| && Scanned(runs, t, lo, i, 0, value) && t[i] != value
    ensures Scanned(runs, t, lo, i + 1, 0, value)
  {
    forall k | 0 <= k < |runs|
      ensures MaximalRun(runs[k], t, lo, i + 1, value)
    {
      assert MaximalRun(runs[k], t, lo, i, value);
    }
  }

  /** Runs depend only on where the value is. */
  lemma RunsTransfer(runs: seq<Interval>, t: seq<u16>, s: seq<u16>, lo: nat, end: nat, value: u16)
    requires end <= |t| == |s| && AreRuns(runs, t, lo, end, value)
    requires forall i :: lo <= i < end ==> (t[i] == value <==> s[i] == value)
    ensures AreRuns(runs, s, lo, end, value)
  {
    forall k | 0 <= k < |runs|
      ensures MaximalRun(runs[k], s, lo, end, value)
    {
      assert MaximalRun(runs[k], t, lo, end, value);
    }
  }

  /** The guard beyond the last index belongs to no run. */
  lemma DropGuard(runs: seq<Interval>, t: seq<u16>, lo: nat, end: nat, value: u16)
    requires end < |t| && t[end] != value && AreRuns(runs, t, lo, end + 1, value)
    ensures AreRuns(runs, t, lo, end, value)
  {
    forall k | 0 <= k < |runs|
      ensures MaximalRun(runs[k], t, lo, end, value)
    {
      assert MaximalRun(runs[k], t, lo, end + 1, value);
      assert Covers(runs[k], runs[k].last);
    }
  }

  /** From index `lo` on, one value is gone. */
  ghost predicate Erased(t: seq<u16>, r: seq<u16>, lo: nat, value: u16) {
    |r| == |t| && forall i :: 0 <= i < |t| ==> r[i] == if i >= lo && t[i] == value then NONE else t[i]
  }

  /** Erases one value from the table and returns its runs. */
  method TakeRuns(table: array<u16>, lo: nat, max: nat, value: u16) returns (runs: seq<Interval>)
    requires lo <= max && table.Length == max + 2 && table[max + 1] == NONE && value != NONE
    modifies table
    ensures AreRuns(runs, old(table[..]), lo, max + 1, value)
    ensures Erased(old(table[..]), table[..], lo, value)
  {
    ghost var t := table[..];
    runs := [];
    var i, count := lo, 0;
    while i <= max + 1
      invariant lo <= i <= max + 2
      invariant Scanned(runs, t, lo, i, count, value)
      invariant count > 0 || i == lo || t[i - 1] != value
      invariant forall j :: 0 <= j < lo ==> table[j] == t[j]
      invariant forall j :: lo <= j < i ==> table[j] == if t[j] == value then NONE else t[j]
      invariant forall j :: i <= j < |t| ==> table[j] == t[j]
    {
      if value != table[i] {
        if count > 0 {
          ScanCloses(runs, t, lo, i, count, value);
          runs := runs + [Interval(i - count, i - 1)];
          count := 0;
        } else {
          ScanSkips(runs, t, lo, i, value);
        }
      } else {
        ScanExtends(runs, t, lo, i, count, value);
        table[i] := NONE;
        count := count + 1;
      }
      i := i + 1;
    }
    DropGuard(runs, t, lo, max + 1, value);
  }

  /** The smallest value among the indices. */
  method Smallest(table: array<u16>, lo: nat, max: nat) returns (value: u16, ghost at: nat)
    requires lo <= max < table.Length
    ensures IsSmallest(table[..], lo, max, value, at)
  {
    value, at := table[lo], lo;
    for i := lo to max + 1
      invariant lo <= at <= max && table[at] == value
      invariant forall j :: lo <= j < i ==> value <= table[j]
    {
      if value > table[i] { value, at := table[i], i; }
    }
  }

  ghost predicate IsSmallest(t: seq<u16>, lo: nat, max: nat, value: u16, at: nat) {
    lo <= at <= max < |t| && t[at] == value && forall i :: lo <= i <= max ==> value <= t[i]
  }

  /** What is left of the table when all values up to `last` have been erased. */
  ghost predicate Left(now: seq<u16>, t: seq<u16>, lo: nat, end: nat, last: int) {
    |now| == |t| >= end && forall i :: lo <= i < end ==> now[i] == if t[i] <= last then NONE else t[i]
  }

  /** The whole display: repeatedly takes the smallest value out of the table. */
  method Show(table: array<u16>, lo: nat, max: nat, maxValue: u16) returns (lines: seq<Line>)
    requires lo <= max && table.Length == max + 2 && maxValue < NONE
    modifies table
    ensures Displays(lines, old(table[..]), lo, max + 1, maxValue)
  {
    ghost var t := table[..];
    table[max + 1] := NONE;
    lines := [];
    var done := false;
    ghost var last := -1;
    while !done
      invariant Progress(table[..], lines, t, lo, max, maxValue, last)
      invariant done ==> Displays(lines, t, lo, max + 1, maxValue)
      decreases !done, NONE - last
    {
      lines, done, last := ShowNext(table, lo, max, maxValue, lines, t, last);
    }
  }

  ghost predicate Progress(now: seq<u16>, lines: seq<Line>, t: seq<u16>, lo: nat, max: nat, maxValue: u16, last: int) {
    && |now| == |t| == max + 2 && now[max + 1] == NONE && last < NONE
    && Left(now, t, lo, max + 1, last) && Shown(lines, t, lo, max + 1, maxValue, last)
  }

  /** One more line, unless no value is left. */
  method ShowNext(table: array<u16>, lo: nat, max: nat, maxValue: u16, lines: seq<Line>, ghost t: seq<u16>,
                  ghost last: int)
    returns (more: seq<Line>, done: bool, ghost next: int)
    requires lo <= max && maxValue < NONE && Progress(table[..], lines, t, lo, max, maxValue, last)
    modifies table
    ensures Progress(table[..], more, t, lo, max, maxValue, next)
    ensures if done then next == last && Displays(more, t, lo, max + 1, maxValue) else next > last
  {
    ghost var now := table[..];
    ghost var at: nat;
    var value;
    value, at := Smallest(table, lo, max);
    if value > maxValue {
      AllShown(lines, t, now, lo, max + 1, maxValue, last, value, at);
      return lines, true, last;
    }
    var runs := TakeRuns(table, lo, max, value);
    TakingShows(lines, t, now, lo, max + 1, maxValue, last, value, runs, at);
    ErasingLeaves(now, table[..], t, lo, max + 1, last, value);
    return lines + [Line(value, runs)], false, value;
  }

  /** The lines so far are those of the values up to `last`. */
  ghost predicate Shown(lines: seq<Line>, t: seq<u16>, lo: nat, end: nat, maxValue: u16, last: int)
    requires end <= |t|
  {
    && (forall k :: 0 <= k < |lines| ==> LineFits(lines[k], t, lo, end, maxValue) && lines[k].value <= last)
    && (forall j, k :: 0 <= j < k < |lines| ==> lines[j].value < lines[k].value)
    && (forall i :: lo <= i < end && t[i] <= last ==> HasLine(lines, t[i]))
  }

  lemma ErasingLeaves(now: seq<u16>, after: seq<u16>, t: seq<u16>, lo: nat, end: nat, last: int, value: u16)
    requires Left(now, t, lo, end, last) && Erased(now, after, lo, value)
    requires forall i :: lo <= i < end ==> (t[i] <= value <==> t[i] <= last || now[i] == value)
    ensures Left(after, t, lo, end, value)
  {
  }

  lemma AllShown(lines: seq<Line>, t: seq<u16>, now: seq<u16>, lo: nat, end: nat, maxValue: u16, last: int, value: u16,
                 at: nat)
    requires lo < end <= |t| && Left(now, t, lo, end, last) && Shown(lines, t, lo, end, maxValue, last)
    requires IsSmallest(now, lo, end - 1, value, at) && value > maxValue
    ensures Displays(lines, t, lo, end, maxValue)
  {
    forall i | lo <= i < end && t[i] <= maxValue
      ensures HasLine(lines, t[i])
    {
      assert now[i] > maxValue;
    }
  }

  lemma TakingShows(lines: seq<Line>, t: seq<u16>, now: seq<u16>, lo: nat, end: nat, maxValue: u16, last: int,
                    value: u16, runs: seq<Interval>, at: nat)
    requires end <= |t| && Left(now, t, lo, end, last) && Shown(lines, t, lo, end, maxValue, last)
    requires value <= maxValue < NONE && lo < end && IsSmallest(now, lo, end - 1, value, at)
    requires AreRuns(runs, now, lo, end, value)
    ensures value > last && Shown(lines + [Line(value, runs)], t, lo, end, maxValue, value)
    ensures forall i :: lo <= i < end ==> (t[i] <= value <==> t[i] <= last || now[i] == value)
  {
    assert now[at] == if t[at] <= last then NONE else t[at];
    forall i | lo <= i < end
      ensures (t[i] <= value <==> t[i] <= last || now[i] == value) && (now[i] == value <==> t[i] == value)
    {
      assert value <= now[i];
    }
    RunsTransfer(runs, now, t, lo, end, value);
    assert Covered(runs, at);
    var line := Line(value, runs);
    var more := lines + [line];
    assert LineFits(line, t, lo, end, maxValue);
    forall i | lo <= i < end && t[i] <= value
      ensures HasLine(more, t[i])
    {
      if t[i] <= last {
        assert HasLine(lines, t[i]);
        var k :| 0 <= k < |lines| && lines[k].value == t[i];
        assert more[k].value == t[i];
      } else {
        assert more[|lines|].value == t[i];
      }
    }
  }

  // ---- Assigning lists to a table ----

  /** An item of a list: an interval, in either order, or `*` for everything that has no value yet; or neither. */
  datatype Item = Range(first: nat, last: nat) | Star | Malformed

  function Filled(a: seq<u16>, first: nat, last: nat, value: u16): (r: seq<u16>)
    ensures |r| == |a|
  {
    seq(|a|, i requires 0 <= i < |a| => if first <= i <= last then value else a[i])
  }

  function Starred(a: seq<u16>, lo: nat, max: nat, maxValue: u16, value: u16): (r: seq<u16>)
    ensures |r| == |a|
  {
    seq(|a|, i requires 0 <= i < |a| => if lo <= i <= max && a[i] > maxValue then value else a[i])
  }

  predicate GoodItem(item: Item, lo: nat, max: nat) {
    item.Star? || (item.Range? && lo <= item.first <= max && lo <= item.last <= max)
  }

  function Applied(a: seq<u16>, item: Item, lo: nat, max: nat, maxValue: u16, value: u16): (r: seq<u16>)
    ensures |r| == |a|
  {
    match item
    case Star => Starred(a, lo, max, maxValue, value)
    case Range(f, l) => if f <= l then Filled(a, f, l, value) else Filled(a, l, f, value)
    case Malformed => a
  }

  /** The table after the items up to the first bad one. */
  function AppliedAll(a: seq<u16>, items: seq<Item>, lo: nat, max: nat, maxValue: u16, value: u16): (r: seq<u16>)
    ensures |r| == |a|
    decreases |items|
  {
    if items == [] || !GoodItem(items[0], lo, max) then a
    else AppliedAll(Applied(a, items[0], lo, max, maxValue, value), items[1..], lo, max, maxValue, value)
  }

  /** The assignment of the items of a list in turn; `lo` is 1 when index 0 is not allowed. */
  method AssignItems(value: u16, items: seq<Item>, table: array<u16>, lo: nat, max: nat, maxValue: u16)
    returns (ok: bool)
    requires table.Length == max + 1 && lo <= 1
    modifies table
    ensures ok <==> value <= maxValue && forall k :: 0 <= k < |items| ==> GoodItem(items[k], lo, max)
    ensures table[..] == if value > maxValue then old(table[..])
                         else AppliedAll(old(table[..]), items, lo, max, maxValue, value)
  {
    if value > maxValue { return false; }
    ghost var whole := AppliedAll(table[..], items, lo, max, maxValue, value);
    var n := 0;
    assert items[0..] == items;
    while n < |items|
      invariant n <= |items| && forall k :: 0 <= k < n ==> GoodItem(items[k], lo, max)
      invariant AppliedAll(table[..], items[n..], lo, max, maxValue, value) == whole
    {
      assert items[n..][0] == items[n] && items[n..][1..] == items[n + 1..];
      match items[n] {
        case Malformed => return false;
        case Star => FillFree(table, lo, max, maxValue, value);
        case Range(f, l) =>
          if f > max || f < lo || l > max || l < lo { return false; }
          Fill(table, if f > l then l else f, if f > l then f else l, value);
      }
      n := n + 1;
    }
    return true;
  }

  method Fill(table: array<u16>, first: nat, last: nat, value: u16)
    requires first <= last < table.Length
    modifies table
    ensures table[..] == Filled(old(table[..]), first, last, value)
  {
    for i := first to last + 1
      invariant forall j :: 0 <= j < table.Length ==> table[j] == if first <= j < i then value else old(table[j])
    {
      table[i] := value;
    }
  }

  method FillFree(table: array<u16>, lo: nat, max: nat, maxValue: u16, value: u16)
    requires lo <= max + 1 == table.Length
    modifies table
    ensures table[..] == Starred(old(table[..]), lo, max, maxValue, value)
  {
    for i := lo to max + 1
      invariant forall j :: 0 <= j < table.Length ==>
                  table[j] == if lo <= j < i && old(table[j]) > maxValue then value else old(table[j])
    {
      if table[i] > maxValue { table[i] := value; }
    }
  }

  // ---- Replaying a display ----

  function ItemsOf(runs: seq<Interval>): (r: seq<Item>)
    ensures |r| == |runs|
  {
    seq(|runs|, k requires 0 <= k < |runs| => Range(runs[k].first, runs[k].last))
  }

  /** All lines of a display, assigned one after the other. */
  function Replayed(a: seq<u16>, lines: seq<Line>, lo: nat, max: nat, maxValue: u16): (r: seq<u16>)
    ensures |r| == |a|
    decreases |lines|
  {
    if lines == [] then a
    else Replayed(AppliedAll(a, ItemsOf(lines[0].runs), lo, max, maxValue, lines[0].value), lines[1..], lo, max,
                  maxValue)
  }

  /** Assigning well-placed intervals changes exactly the covered indices. */
  lemma {:induction false} AppliedRuns(a: seq<u16>, runs: seq<Interval>, lo: nat, max: nat, maxValue: u16, value: u16,
                                       i: nat)
    requires forall k :: 0 <= k < |runs| ==> lo <= runs[k].first <= runs[k].last <= max
    requires i < |a|
    ensures AppliedAll(a, ItemsOf(runs), lo, max, maxValue, value)[i] == if Covered(runs, i) then value else a[i]
    decreases |runs|
  {
    if runs != [] {
      var items := ItemsOf(runs);
      assert items[1..] == ItemsOf(runs[1..]) && items[0] == Range(runs[0].first, runs[0].last);
      AppliedRuns(Filled(a, runs[0].first, runs[0].last, value), runs[1..], lo, max, maxValue, value, i);
      CoveredUnfolds(runs, i);
    }
  }

  lemma CoveredUnfolds(runs: seq<Interval>, i: int)
    requires runs != []
    ensures Covered(runs, i) <==> Covers(runs[0], i) || Covered(runs[1..], i)
  {
    if Covered(runs[1..], i) {
      var k :| 0 <= k < |runs[1..]| && Covers(runs[1..][k], i);
      assert Covers(runs[k + 1], i);
    }
    if Covered(runs, i) {
      var k :| 0 <= k < |runs| && Covers(runs[k], i);
      if k > 0 { assert Covers(runs[1..][k - 1], i); }
    }
  }

  /** A line sets exactly the indices that hold its value. */
  lemma AppliedLine(a: seq<u16>, line: Line, t: seq<u16>, lo: nat, max: nat, maxValue: u16, i: nat)
    requires max + 1 <= |t| && LineFits(line, t, lo, max + 1, maxValue) && i < |a| == max + 1
    ensures AppliedAll(a, ItemsOf(line.runs), lo, max, maxValue, line.value)[i]
         == if lo <= i && t[i] == line.value then line.value else a[i]
  {
    forall k | 0 <= k < |line.runs|
      ensures lo <= line.runs[k].first <= line.runs[k].last <= max
    {
      assert MaximalRun(line.runs[k], t, lo, max + 1, line.value);
    }
    AppliedRuns(a, line.runs, lo, max, maxValue, line.value, i);
    if Covered(line.runs, i) {
      var k :| 0 <= k < |line.runs| && Covers(line.runs[k], i);
      assert MaximalRun(line.runs[k], t, lo, max + 1, line.value);
    }
  }

  lemma {:induction false} ReplayedAt(a: seq<u16>, lines: seq<Line>, t: seq<u16>, lo: nat, max: nat, maxValue: u16,
                                      i: nat)
    requires max + 1 <= |t| && i < |a| == max + 1
    requires forall k :: 0 <= k < |lines| ==> LineFits(lines[k], t, lo, max + 1, maxValue)
    ensures Replayed(a, lines, lo, max, maxValue)[i] == if lo <= i && HasLine(lines, t[i]) then t[i] else a[i]
    decreases |lines|
  {
    if lines != [] {
      var b := AppliedAll(a, ItemsOf(lines[0].runs), lo, max, maxValue, lines[0].value);
      AppliedLine(a, lines[0], t, lo, max, maxValue, i);
      ReplayedAt(b, lines[1..], t, lo, max, maxValue, i);
      if HasLine(lines, t[i]) && lines[0].value != t[i] {
        var k :| 0 <= k < |lines| && lines[k].value == t[i];
        assert lines[1..][k - 1].value == t[i];
      }
      if HasLine(lines[1..], t[i]) {
        var k :| 0 <= k < |lines[1..]| && lines[1..][k].value == t[i];
        assert lines[k + 1].value == t[i];
      }
      if lines[0].value == t[i] { assert HasLine(lines, t[i]); }
    }
  }

  /** Replaying a display on an empty table restores the displayed table, except for values that are too large, which
      are displayed by no line. */
  lemma ReplayRestores(lines: seq<Line>, t: seq<u16>, lo: nat, max: nat, maxValue: u16)
    requires max + 1 <= |t| && Displays(lines, t, lo, max + 1, maxValue)
    ensures var blank := seq(max + 1, i => NONE);
            var r := Replayed(blank, lines, lo, max, maxValue);
            forall i :: 0 <= i <= max ==> r[i] == if lo <= i && t[i] <= maxValue then t[i] else NONE
  {
    var blank := seq(max + 1, i => NONE);
    forall i: nat | i <= max
      ensures Replayed(blank, lines, lo, max, maxValue)[i] == if lo <= i && t[i] <= maxValue then t[i] else NONE
    {
      ReplayedAt(blank, lines, t, lo, max, maxValue, i);
      if lo <= i && HasLine(lines, t[i]) {
        var k :| 0 <= k < |lines| && lines[k].value == t[i];
        assert LineFits(lines[k], t, lo, max + 1, maxValue);
      }
    }
  }

  // ---- A display is unique ----

  ghost predicate Increasing<T>(key: T -> int, s: seq<T>) {
    forall j, k :: 0 <= j < k < |s| ==> key(s[j]) < key(s[k])
  }

  lemma LastIsGreatest<T>(key: T -> int, s: seq<T>, x: T)
    requires Increasing(key, s) && x in s
    ensures key(x) <= key(s[|s| - 1])
    ensures key(x) == key(s[|s| - 1]) ==> x == s[|s| - 1]
    ensures x in s[..|s| - 1] <==> key(x) < key(s[|s| - 1])
  {
    var j :| 0 <= j < |s| && s[j] == x;
    if x in s[..|s| - 1] {
      var k :| 0 <= k < |s| - 1 && s[k] == x;
    }
    if j < |s| - 1 { assert s[..|s| - 1][j] == x; }
  }

  /** Increasing sequences of the same elements are equal. */
  lemma {:induction false} IncreasingAreEqual<T>(key: T -> int, r: seq<T>, s: seq<T>)
    requires Increasing(key, r) && Increasing(key, s) && (forall x :: x in r <==> x in s)
    ensures r == s
    decreases |r|
  {
    assert |r| == 0 || r[0] in s;
    assert |s| == 0 || s[0] in r;
    if r != [] {
      var m, n := |r| - 1, |s| - 1;
      assert r[m] in s && s[n] in r;
      LastIsGreatest(key, r, s[n]);
      LastIsGreatest(key, s, r[m]);
      forall x
        ensures x in r[..m] <==> x in s[..n]
      {
        if x in r {
          LastIsGreatest(key, r, x);
          LastIsGreatest(key, s, x);
        }
      }
      IncreasingAreEqual(key, r[..m], s[..n]);
      assert r == r[..m] + [r[m]] && s == s[..n] + [s[n]];
    }
  }

  /** Every run of one list is a run of the other. */
  lemma RunIsShared(v: Interval, r: seq<Interval>, s: seq<Interval>, t: seq<u16>, lo: nat, end: nat, value: u16)
    requires end <= |t| && AreRuns(r, t, lo, end, value) && AreRuns(s, t, lo, end, value) && v in r
    ensures v in s
  {
    assert MaximalRun(v, t, lo, end, value) && Covers(v, v.first);
    assert Covered(s, v.first);
    var j :| 0 <= j < |s| && Covers(s[j], v.first);
    assert MaximalRun(s[j], t, lo, end, value);
    SameRun(v, s[j], t, lo, end, value);
  }

  lemma SameRun(v: Interval, w: Interval, t: seq<u16>, lo: nat, end: nat, value: u16)
    requires end <= |t| && MaximalRun(v, t, lo, end, value) && MaximalRun(w, t, lo, end, value) && Covers(w, v.first)
    ensures v == w
  {
    assert Covers(w, v.first - 1) <==> w.first < v.first;
    assert Covers(v, w.last + 1) <==> w.last < v.last;
    assert Covers(w, v.last + 1) <==> v.last < w.last;
  }

  /** The runs of a value are determined by the table. */
  lemma RunsAreUnique(r: seq<Interval>, s: seq<Interval>, t: seq<u16>, lo: nat, end: nat, value: u16)
    requires end <= |t| && AreRuns(r, t, lo, end, value) && AreRuns(s, t, lo, end, value)
    ensures r == s
  {
    forall v | v in r
      ensures v in s
    {
      RunIsShared(v, r, s, t, lo, end, value);
    }
    forall v | v in s
      ensures v in r
    {
      RunIsShared(v, s, r, t, lo, end, value);
    }
    RunsIncrease(r, t, lo, end, value);
    RunsIncrease(s, t, lo, end, value);
    IncreasingAreEqual((v: Interval) => v.first as int, r, s);
  }

  lemma RunsIncrease(r: seq<Interval>, t: seq<u16>, lo: nat, end: nat, value: u16)
    requires end <= |t| && AreRuns(r, t, lo, end, value)
    ensures Increasing((v: Interval) => v.first as int, r)
  {
    forall j, k | 0 <= j < k < |r|
      ensures r[j].first < r[k].first
    {
      assert MaximalRun(r[j], t, lo, end, value);
    }
  }

  /** Every line of one display is a line of the other. */
  lemma LineIsShared(line: Line, a: seq<Line>, b: seq<Line>, t: seq<u16>, lo: nat, end: nat, maxValue: u16)
    requires end <= |t| && Displays(a, t, lo, end, maxValue) && Displays(b, t, lo, end, maxValue) && line in a
    ensures line in b
  {
    assert LineFits(line, t, lo, end, maxValue);
    var v := line.runs[0];
    assert MaximalRun(v, t, lo, end, line.value) && Covers(v, v.first);
    assert HasLine(b, t[v.first]);
    var k :| 0 <= k < |b| && b[k].value == line.value;
    assert LineFits(b[k], t, lo, end, maxValue);
    RunsAreUnique(line.runs, b[k].runs, t, lo, end, line.value);
  }

  /** The conditions on a display leave no choice: a table has exactly one. */
  lemma DisplayIsUnique(a: seq<Line>, b: seq<Line>, t: seq<u16>, lo: nat, end: nat, maxValue: u16)
    requires end <= |t| && Displays(a, t, lo, end, maxValue) && Displays(b, t, lo, end, maxValue)
    ensures a == b
  {
    forall line | line in a
      ensures line in b
    {
      LineIsShared(line, a, b, t, lo, end, maxValue);
    }
    forall line | line in b
      ensures line in a
    {
      LineIsShared(line, b, a, t, lo, end, maxValue);
    }
    IncreasingAreEqual((line: Line) => line.value as int, a, b);
  }
}
