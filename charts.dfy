/** The chart payload of plot/types.py (`ChartData`) that every
    `get_plot_data` of the response models returns, and the insertion-ordered
    counting dict two of them build. Python floats are `real`s: the
    projections only copy them. */
module Charts {
  import opened Wrappers

  /** One cell of a data row. */
  datatype Cell = CStr(s: string) | CInt(i: int) | CReal(r: real) | CNone

  /** A data row: a dict from column name to cell, in insertion order. */
  type Row = seq<(string, Cell)>

  /** `PlotKind = Literal["line", "bar", "pie", "area"]` */
  datatype PlotKind = Line | Bar | Pie | Area

  datatype ChartData = ChartData(data: seq<Row>, title: Option<string>, x: Option<string>, y: Option<string>, kind: PlotKind)

  /** `row.get(col)` */
  function Column(row: Row, col: string): (c: Cell)
    ensures c != CNone ==> exists i :: 0 <= i < |row| && row[i] == (col, c)
  {
    if row == [] then CNone
    else if row[0].0 == col then row[0].1
    else
      var c := Column(row[1..], col);
      assert forall i :: 1 <= i < |row| ==> row[i] == row[1..][i - 1];
      c
  }

  predicate HasColumn(row: Row, col: string) {
    exists i :: 0 <= i < |row| && row[i].0 == col
  }

  /** Every row carries the columns the chart names as its axes. */
  predicate WellFormed(c: ChartData) {
    (c.x.Some? ==> forall i :: 0 <= i < |c.data| ==> HasColumn(c.data[i], c.x.value))
    && (c.y.Some? ==> forall i :: 0 <= i < |c.data| ==> HasColumn(c.data[i], c.y.value))
  }

  /** A two-column row `{a: u, b: v}`. */
  function Row2(a: string, u: Cell, b: string, v: Cell): (r: Row)
    requires a != b
    ensures HasColumn(r, a) && HasColumn(r, b)
    ensures Column(r, a) == u && Column(r, b) == v
  {
    var r := [(a, u), (b, v)];
    assert r[0].0 == a && r[1].0 == b;
    r
  }

  /** A three-column row `{a: u, b: v, c: w}`. */
  function Row3(a: string, u: Cell, b: string, v: Cell, c: string, w: Cell): (r: Row)
    requires a != b && b != c && a != c
    ensures HasColumn(r, a) && HasColumn(r, b) && HasColumn(r, c)
    ensures Column(r, a) == u && Column(r, b) == v && Column(r, c) == w
  {
    var r := [(a, u), (b, v), (c, w)];
    assert r[0].0 == a && r[1].0 == b && r[2].0 == c;
    assert r[1..] == [(b, v), (c, w)] && r[1..][1..] == [(c, w)];
    assert Column(r[1..][1..], c) == w;
    assert Column(r[1..], c) == w;
    r
  }

  /** `[{x: fx(t), y: fy(t)} for t in items]`: one row per item, in order. */
  function Project<T>(items: seq<T>, x: string, fx: T -> Cell, y: string, fy: T -> Cell): (rows: seq<Row>)
    requires x != y
    ensures |rows| == |items|
    ensures forall i :: 0 <= i < |items| ==>
      HasColumn(rows[i], x) && HasColumn(rows[i], y) && Column(rows[i], x) == fx(items[i]) && Column(rows[i], y) == fy(items[i])
  {
    seq(|items|, i requires 0 <= i < |items| => Row2(x, fx(items[i]), y, fy(items[i])))
  }

  /** The rows of an insertion-ordered count dict, `{x: key, y: count}`. */
  function CountRows(c: Counts, x: string, y: string): (rows: seq<Row>)
    requires x != y
    ensures |rows| == |c|
    ensures forall i :: 0 <= i < |c| ==>
      HasColumn(rows[i], x) && HasColumn(rows[i], y) && Column(rows[i], x) == CStr(c[i].0) && Column(rows[i], y) == CInt(c[i].1)
  {
    Project(c, x, (e: (string, nat)) => CStr(e.0), y, (e: (string, nat)) => CInt(e.1))
  }

  /** `x or 0` for an optional float: None and 0.0 are falsy. */
  function RealOrZero(x: Option<real>): (c: Cell)
    ensures c == CInt(0) <==> x.None? || x.value == 0.0
    ensures c != CInt(0) ==> c == CReal(x.value)
  {
    if x.None? || x.value == 0.0 then CInt(0) else CReal(x.value)
  }

  // ---------------------------------------------------------------------
  // `counts[k] = counts.get(k, 0) + 1` over an insertion-ordered dict

  type Counts = seq<(string, nat)>

  /** `counts.get(k, 0)` */
  function CountOf(c: Counts, k: string): nat {
    if c == [] then 0 else if c[0].0 == k then c[0].1 else CountOf(c[1..], k)
  }

  /** With distinct keys, `counts.get(k)` reads the entry stored under `k`. */
  lemma {:induction false} CountAt(c: Counts, i: nat)
    requires i < |c| && forall p, q :: 0 <= p < q < |c| ==> c[p].0 != c[q].0
    ensures CountOf(c, c[i].0) == c[i].1
  {
    if i > 0 {
      CountAt(c[1..], i - 1);
    }
  }

  /** An absent key counts 0. */
  lemma {:induction false} CountAbsent(c: Counts, k: string)
    requires forall i :: 0 <= i < |c| ==> c[i].0 != k
    ensures CountOf(c, k) == 0
  {
    if c != [] {
      CountAbsent(c[1..], k);
    }
  }

  function Keys(c: Counts): (r: seq<string>)
    ensures |r| == |c| && forall i :: 0 <= i < |c| ==> r[i] == c[i].0
  {
    seq(|c|, i requires 0 <= i < |c| => c[i].0)
  }

  function Total(c: Counts): nat {
    if c == [] then 0 else c[0].1 + Total(c[1..])
  }

  /** Distinct keys, each counted at least once. */
  predicate ValidCounts(c: Counts) {
    (forall i, j :: 0 <= i < j < |c| ==> c[i].0 != c[j].0) && (forall i :: 0 <= i < |c| ==> c[i].1 >= 1)
  }

  /** One increment: an existing key keeps its place, a new one goes last with 1. */
  function Bump(c: Counts, k: string): (r: Counts)
    ensures Keys(r) == if k in Keys(c) then Keys(c) else Keys(c) + [k]
  {
    if c == [] then [(k, 1)]
    else if c[0].0 == k then [(k, c[0].1 + 1)] + c[1..]
    else
      var t := Bump(c[1..], k);
      assert Keys(c) == [c[0].0] + Keys(c[1..]);
      assert Keys([c[0]] + t) == [c[0].0] + Keys(t);
      [c[0]] + t
  }

  /** Bumping adds one to `k`'s count and to no other. */
  lemma {:induction false} BumpCounts(c: Counts, k: string)
    ensures Total(Bump(c, k)) == Total(c) + 1
    ensures forall k' :: CountOf(Bump(c, k), k') == CountOf(c, k') + (if k' == k then 1 else 0)
  {
    if c != [] && c[0].0 != k {
      BumpCounts(c[1..], k);
      assert Bump(c, k)[1..] == Bump(c[1..], k);
    } else if c != [] {
      assert Bump(c, k)[1..] == c[1..];
    }
  }

  /** Bumping keeps the keys distinct and every count positive. */
  lemma BumpValid(c: Counts, k: string)
    requires ValidCounts(c)
    ensures ValidCounts(Bump(c, k))
  {
    BumpDistinct(c, k);
    BumpPositive(c, k);
  }

  lemma BumpDistinct(c: Counts, k: string)
    requires forall i, j :: 0 <= i < j < |c| ==> c[i].0 != c[j].0
    ensures var r := Bump(c, k); forall i, j :: 0 <= i < j < |r| ==> r[i].0 != r[j].0
  {
    var r := Bump(c, k);
    var kr, kc := Keys(r), Keys(c);
    assert forall i :: 0 <= i < |r| ==> r[i].0 == kr[i];
    assert forall i :: 0 <= i < |c| ==> c[i].0 == kc[i];
  }

  lemma {:induction false} BumpPositive(c: Counts, k: string)
    requires forall i :: 0 <= i < |c| ==> c[i].1 >= 1
    ensures var r := Bump(c, k); forall i :: 0 <= i < |r| ==> r[i].1 >= 1
  {
    if c != [] && c[0].0 != k {
      BumpPositive(c[1..], k);
      assert Bump(c, k) == [c[0]] + Bump(c[1..], k);
    }
  }

  /** The dict after counting `keys` in order. */
  function Tally(keys: seq<string>): Counts
    decreases |keys|
  {
    if keys == [] then [] else Bump(Tally(keys[..|keys| - 1]), keys[|keys| - 1])
  }

  /** How often `k` occurs in `keys`. */
  function Occurrences(keys: seq<string>, k: string): nat
    decreases |keys|
  {
    if keys == [] then 0 else Occurrences(keys[..|keys| - 1], k) + (if keys[|keys| - 1] == k then 1 else 0)
  }

  /** The keys of `keys` in order of first occurrence. */
  function FirstOccurrences(keys: seq<string>): seq<string>
    decreases |keys|
  {
    if keys == [] then []
    else
      var d := FirstOccurrences(keys[..|keys| - 1]);
      if keys[|keys| - 1] in d then d else d + [keys[|keys| - 1]]
  }

  /** The distinct keys are exactly the keys that occur. */
  lemma {:induction false} FirstOccurrencesMembers(keys: seq<string>)
    ensures forall k :: k in FirstOccurrences(keys) <==> k in keys
    decreases |keys|
  {
    if keys != [] {
      var init := keys[..|keys| - 1];
      FirstOccurrencesMembers(init);
      assert keys == init + [keys[|keys| - 1]];
    }
  }

  /** The counting loop yields each distinct key once, in order of first
      occurrence, with its number of occurrences (at least 1); the counts
      add up to the number of items. */
  lemma {:induction false} TallyCorrect(keys: seq<string>)
    ensures ValidCounts(Tally(keys))
    ensures Keys(Tally(keys)) == FirstOccurrences(keys)
    ensures forall k :: CountOf(Tally(keys), k) == Occurrences(keys, k)
    ensures Total(Tally(keys)) == |keys|
    decreases |keys|
  {
    if keys != [] {
      var init, last := keys[..|keys| - 1], keys[|keys| - 1];
      TallyCorrect(init);
      BumpCounts(Tally(init), last);
      BumpValid(Tally(init), last);
    }
  }
}
