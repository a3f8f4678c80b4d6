/**
 Querying pre-aggregated rows against querying the raw samples: the grouped query, the two continuous
 aggregates it may run over, and exactly when both give the same curve. Averages are over reals.
 */
module SeriesLayers {
  import opened Options

  /** A row the query reads: a raw sample, or one bucket of an aggregate. Time is in whole units. */
  datatype Row = Row(t: int, avg: real, min: real, max: real, last: real, count: nat)

  /** The columns one group accumulates; `at` is the time of the value kept as the last one. */
  datatype Acc = Acc(sum: real, count: nat, min: real, max: real, last: real, at: int)

  datatype Point = Point(bucket: int, avg: real, min: real, max: real, last: real, samples: nat)

  function Sample(t: int, v: real): Row { Row(t, v, v, v, v, 1) }

  function Min(a: real, b: real): real { if b < a then b else a }

  function Max(a: real, b: real): real { if b > a then b else a }

  // ---------------------------------------------------------------- the aggregates

  function One(r: Row): Acc { Acc(r.avg * r.count as real, r.count, r.min, r.max, r.last, r.t) }

  /** Of two rows with the same time the one read first is the last value. */
  function Join(a: Option<Acc>, b: Option<Acc>): Option<Acc> {
    if a.None? then b
    else if b.None? then a
    else
      var x := a.value;
      var y := b.value;
      Some(Acc(x.sum + y.sum, x.count + y.count, Min(x.min, y.min), Max(x.max, y.max),
               if y.at > x.at then y.last else x.last, if y.at > x.at then y.at else x.at))
  }

  lemma JoinAssociates(a: Option<Acc>, b: Option<Acc>, c: Option<Acc>)
    ensures Join(a, Join(b, c)) == Join(Join(a, b), c)
  {
  }

  /** Rows of different times may be taken in either order. */
  lemma JoinCommutes(a: Option<Acc>, b: Option<Acc>, c: Option<Acc>)
    requires a.Some? && b.Some? ==> a.value.at != b.value.at
    ensures Join(a, Join(b, c)) == Join(b, Join(a, c))
  {
  }

  function AccOf(rows: seq<Row>): (a: Option<Acc>)
    ensures a.None? <==> rows == []
    ensures (forall r | r in rows :: r.count > 0) && rows != [] ==> a.value.count > 0
  {
    if rows == [] then None else Join(Some(One(rows[0])), AccOf(rows[1..]))
  }

  function Pick(rows: seq<Row>, p: int -> bool): (picked: seq<Row>)
    ensures forall r :: r in picked <==> r in rows && p(r.t)
  {
    if rows == [] then []
    else (if p(rows[0].t) then [rows[0]] else []) + Pick(rows[1..], p)
  }

  /** What the accumulated columns mean, whatever the order of the rows. */
  lemma {:induction false} AccMeaning(rows: seq<Row>)
    requires rows != []
    ensures
      var a := AccOf(rows).value;
      && (forall r | r in rows :: a.min <= r.min && r.max <= a.max && r.t <= a.at)
      && (exists r :: r in rows && r.min == a.min) && (exists r :: r in rows && r.max == a.max)
      && (exists r :: r in rows && r.t == a.at && r.last == a.last)
  {
    var x := rows[0];
    if |rows| > 1 {
      AccMeaning(rows[1..]);
      assert forall r :: r in rows <==> r == x || r in rows[1..];
      var b := AccOf(rows[1..]).value;
      var lo :| lo in rows[1..] && lo.min == b.min;
      var hi :| hi in rows[1..] && hi.max == b.max;
      var la :| la in rows[1..] && la.t == b.at && la.last == b.last;
      assert lo in rows && hi in rows && la in rows && x in rows;
    } else {
      assert x in rows;
    }
  }

  function CountSum(rows: seq<Row>): nat {
    if rows == [] then 0 else rows[0].count + CountSum(rows[1..])
  }

  function WeightedSum(rows: seq<Row>): real {
    if rows == [] then 0.0 else rows[0].avg * rows[0].count as real + WeightedSum(rows[1..])
  }

  /** The count is the sum of the counts, the sum that of the averages times their counts. */
  lemma {:induction false} AccSums(rows: seq<Row>)
    requires rows != []
    ensures AccOf(rows).value.count == CountSum(rows) && AccOf(rows).value.sum == WeightedSum(rows)
  {
    if |rows| > 1 {
      AccSums(rows[1..]);
    }
  }

  lemma AccOfPick(rows: seq<Row>, p: int -> bool)
    requires rows != []
    ensures AccOf(Pick(rows, p)) ==
      if p(rows[0].t) then Join(Some(One(rows[0])), AccOf(Pick(rows[1..], p))) else AccOf(Pick(rows[1..], p))
  {
    PickCons(rows, p);
    if p(rows[0].t) {
      assert Pick(rows, p)[1..] == Pick(rows[1..], p);
    }
  }

  lemma PickCons(rows: seq<Row>, p: int -> bool)
    requires rows != []
    ensures Pick(rows, p) == if p(rows[0].t) then [rows[0]] + Pick(rows[1..], p) else Pick(rows[1..], p)
  {
  }

  /** Aggregating a part and the rest apart and joining them is aggregating the whole. */
  lemma {:induction false} Partition(rows: seq<Row>, p: int -> bool, q: int -> bool)
    requires forall t :: p(t) <==> !q(t)
    ensures AccOf(rows) == Join(AccOf(Pick(rows, p)), AccOf(Pick(rows, q)))
    ensures Pick(rows, p) != [] ==> p(AccOf(Pick(rows, p)).value.at)
    ensures Pick(rows, q) != [] ==> q(AccOf(Pick(rows, q)).value.at)
  {
    if rows != [] {
      var r := Some(One(rows[0]));
      Partition(rows[1..], p, q);
      AccOfPick(rows, p);
      AccOfPick(rows, q);
      var part := AccOf(Pick(rows[1..], p));
      var rest := AccOf(Pick(rows[1..], q));
      if p(rows[0].t) {
        JoinAssociates(r, part, rest);
      } else {
        JoinCommutes(r, part, rest);
      }
    }
  }

  // ---------------------------------------------------------------- buckets

  /** time_bucket: the multiple of the width at or below the time. */
  function Bucket(t: int, w: int): (b: int)
    requires w > 0
    ensures b <= t < b + w && b % w == 0
  {
    BucketIsMultiple(t, w);
    w * (t / w)
  }

  lemma BucketIsMultiple(t: int, w: int)
    requires w > 0
    ensures (w * (t / w)) % w == 0
  {
    MultipleMod(t / w, w);
  }

  lemma MultipleMod(k: int, w: int)
    requires w > 0
    ensures (w * k) % w == 0
  {
    var d := k - w * k / w;
    assert w * d == w * k % w;
    MultipleSmall(w, d);
  }

  lemma MultipleSmall(w: int, d: int)
    requires w > 0 && 0 <= w * d < w
    ensures d == 0
  {
  }

  /** A multiple of the width is at or below a time exactly if it is at or below its bucket. */
  lemma MultipleBelow(m: int, t: int, w: int)
    requires w > 0 && m % w == 0
    ensures m <= t <==> m <= Bucket(t, w)
  {
    var k := m / w;
    var q := t / w;
    assert m == w * k && Bucket(t, w) == w * q;
    if k <= q {
      ScaleUp(w, k, q);
    } else {
      ScaleUp(w, q + 1, k);
      assert w * (q + 1) == w * q + w;
    }
  }

  lemma ScaleUp(w: int, a: int, b: int)
    requires w > 0 && a <= b
    ensures w * a <= w * b
  {
  }

  lemma BucketUnique(b: int, t: int, w: int)
    requires w > 0 && b % w == 0 && b <= t < b + w
    ensures Bucket(t, w) == b
  {
    MultipleBelow(b, t, w);
    MultipleBelow(Bucket(t, w), b, w);
    var k := b / w;
    var q := t / w;
    assert b == w * k && Bucket(t, w) == w * q;
    MultipleSmall(w, q - k);
  }

  lemma BucketOfBucket(t: int, w: int, big: int)
    requires w > 0 && big > 0 && big % w == 0
    ensures Bucket(Bucket(t, w), big) == Bucket(t, big)
  {
    var b := Bucket(t, big);
    var n := big / w;
    assert big == w * n;
    var k := t / big;
    assert b == w * (n * k) by {
      assert b == big * k;
      assert w * n * k == w * (n * k);
    }
    MultipleMod(n * k, w);
    MultipleBelow(b, t, w);
    BucketUnique(b, Bucket(t, w), big);
  }

  function InBucket(w: int, b: int): int -> bool
    requires w > 0
  {
    t => Bucket(t, w) == b
  }

  function OutOfBucket(w: int, b: int): int -> bool
    requires w > 0
  {
    t => Bucket(t, w) != b
  }

  // ---------------------------------------------------------------- aggregates as tables

  function Rolled(b: int, a: Acc): Row
    requires a.count > 0
  {
    Row(b, a.sum / a.count as real, a.min, a.max, a.last, a.count)
  }

  function Times(rows: seq<Row>): set<int> { set r | r in rows :: r.t }

  predicate Distinct(rows: seq<Row>) {
    rows == [] || (rows[0].t !in Times(rows[1..]) && Distinct(rows[1..]))
  }

  predicate Counted(rows: seq<Row>) { forall r | r in rows :: r.count > 0 }

  predicate RollsUp(r: Row, rows: seq<Row>, w: int)
    requires w > 0 && Counted(rows)
  {
    var group := Pick(rows, InBucket(w, r.t));
    r.t % w == 0 && group != [] && r == Rolled(r.t, AccOf(group).value)
  }

  /** One row for every bucket that has any, in whatever order the table gives them. */
  ghost predicate IsLayer(layer: seq<Row>, rows: seq<Row>, w: int)
    requires w > 0
  {
    && Counted(rows) && Distinct(layer)
    && (forall r | r in layer :: RollsUp(r, rows, w))
    && (forall r | r in rows :: Bucket(r.t, w) in Times(layer))
  }

  lemma LayerIsCounted(layer: seq<Row>, rows: seq<Row>, w: int)
    requires w > 0 && IsLayer(layer, rows, w)
    ensures Counted(layer)
  {
  }

  lemma {:induction false} PickPick(rows: seq<Row>, p: int -> bool, q: int -> bool)
    requires forall t :: q(t) ==> p(t)
    ensures Pick(Pick(rows, p), q) == Pick(rows, q)
  {
    if rows != [] {
      PickPick(rows[1..], p, q);
      PickCons(rows, p);
      PickCons(rows, q);
      if p(rows[0].t) {
        PickCons(Pick(rows, p), q);
        assert Pick(rows, p)[1..] == Pick(rows[1..], p);
      }
    }
  }

  lemma {:induction false} PickDistinct(rows: seq<Row>, p: int -> bool)
    requires Distinct(rows)
    ensures Distinct(Pick(rows, p))
  {
    if rows != [] {
      PickDistinct(rows[1..], p);
      PickCons(rows, p);
      if p(rows[0].t) {
        assert Pick(rows, p)[1..] == Pick(rows[1..], p);
      }
    }
  }

  /** The two accumulators agree, but for the time of the last value, which is known by its bucket. */
  predicate Agree(a: Option<Acc>, c: Option<Acc>, w: int)
    requires w > 0
  {
    (a.None? <==> c.None?) && (a.Some? ==> a.value == c.value.(at := Bucket(c.value.at, w)))
  }

  lemma OneOfRolled(b: int, a: Acc)
    requires a.count > 0
    ensures One(Rolled(b, a)) == a.(at := b)
  {
  }

  lemma JoinAgrees(a: Acc, a': Option<Acc>, c: Acc, c': Option<Acc>, w: int)
    requires w > 0 && Agree(Some(a), Some(c), w) && Agree(a', c', w)
    requires c'.Some? ==> Bucket(c'.value.at, w) != Bucket(c.at, w)
    ensures Agree(Join(Some(a), a'), Join(Some(c), c'), w)
  {
    if c'.Some? {
      var t := c.at;
      var u := c'.value.at;
      MultipleBelow(Bucket(t, w), u, w);
      MultipleBelow(Bucket(u, w), t, w);
    }
  }

  /** Aggregating a layer's rows, in any order, is aggregating the rows it was made from. */
  lemma {:induction false} LayerAgrees(layer: seq<Row>, rows: seq<Row>, w: int)
    requires w > 0 && IsLayer(layer, rows, w)
    ensures Agree(AccOf(layer), AccOf(rows), w)
  {
    if layer == [] {
      assert forall i | 0 <= i < |rows| :: rows[i] in rows;
    } else {
      var x := layer[0];
      var within := InBucket(w, x.t);
      var out := OutOfBucket(w, x.t);
      var rest := Pick(rows, out);
      assert x in layer && RollsUp(x, rows, w);
      RestIsLayer(layer, rows, w);
      LayerAgrees(layer[1..], rest, w);
      Partition(rows, within, out);
      var group := Pick(rows, within);
      var c := AccOf(group).value;
      OneOfRolled(x.t, c);
      JoinAgrees(One(x), AccOf(layer[1..]), c, AccOf(rest), w);
    }
  }

  lemma RestIsLayer(layer: seq<Row>, rows: seq<Row>, w: int)
    requires w > 0 && IsLayer(layer, rows, w) && layer != []
    ensures IsLayer(layer[1..], Pick(rows, OutOfBucket(w, layer[0].t)), w)
  {
    var x := layer[0];
    var out := OutOfBucket(w, x.t);
    var rest := Pick(rows, out);
    forall r | r in layer[1..] ensures RollsUp(r, rest, w) {
      assert r in layer && RollsUp(r, rows, w) && r.t in Times(layer[1..]);
      PickPick(rows, out, InBucket(w, r.t));
    }
    forall r | r in rest ensures Bucket(r.t, w) in Times(layer[1..]) {
      assert r in rows && Bucket(r.t, w) in Times(layer);
      var y :| y in layer && y.t == Bucket(r.t, w);
      assert y in layer[1..];
    }
  }

  /** A condition on the time that does not cut a bucket selects a layer of the rows it selects. */
  lemma LayerOfPicked(layer: seq<Row>, rows: seq<Row>, w: int, p: int -> bool)
    requires w > 0 && IsLayer(layer, rows, w)
    requires forall t :: p(t) <==> p(Bucket(t, w))
    ensures IsLayer(Pick(layer, p), Pick(rows, p), w)
  {
    PickDistinct(layer, p);
    forall r | r in Pick(layer, p) ensures RollsUp(r, Pick(rows, p), w) {
      assert r in layer && RollsUp(r, rows, w);
      var inside := InBucket(w, r.t);
      assert forall t :: inside(t) ==> p(Bucket(t, w));
      PickPick(rows, p, inside);
    }
    forall r | r in Pick(rows, p) ensures Bucket(r.t, w) in Times(Pick(layer, p)) {
      assert r in rows;
      var y :| y in layer && y.t == Bucket(r.t, w);
      assert y in Pick(layer, p);
    }
  }

  /** A layer made from a layer is the layer made from the samples: the hour from five minutes. */
  lemma LayerOfLayer(top: seq<Row>, layer: seq<Row>, rows: seq<Row>, w: int, big: int)
    requires w > 0 && big > 0 && big % w == 0
    requires IsLayer(layer, rows, w) && IsLayer(top, layer, big)
    ensures IsLayer(top, rows, big)
  {
    forall r | r in top ensures RollsUp(r, rows, big) {
      assert RollsUp(r, layer, big);
      var inside := InBucket(big, r.t);
      forall t ensures inside(t) <==> inside(Bucket(t, w)) { BucketOfBucket(t, w, big); }
      LayerOfPicked(layer, rows, w, inside);
      LayerAgrees(Pick(layer, inside), Pick(rows, inside), w);
    }
    forall r | r in rows ensures Bucket(r.t, big) in Times(top) {
      var y :| y in layer && y.t == Bucket(r.t, w);
      BucketOfBucket(r.t, w, big);
      assert Bucket(y.t, big) in Times(top);
    }
  }

  // ---------------------------------------------------------------- the query

  function InWindow(from: int, until: int, step: int, o: int): int -> bool
    requires step > 0
  {
    t => from <= t < until && Bucket(t, step) == o
  }

  /** The output row of one bucket; NULLIF never meets a zero, as every row counts a sample. */
  function PointAt(rows: seq<Row>, from: int, until: int, step: int, o: int): Option<Point>
    requires step > 0 && Counted(rows)
  {
    var group := Pick(rows, InWindow(from, until, step, o));
    if group == [] then None
    else
      var a := AccOf(group).value;
      Some(Point(o, a.sum / a.count as real, a.min, a.max, a.last, a.count))
  }

  /** The points from bucket `o` on, in bucket order. */
  function Curve(rows: seq<Row>, from: int, until: int, step: int, o: int): seq<Point>
    requires step > 0 && Counted(rows)
    decreases until - o
  {
    if o >= until then []
    else
      var p := PointAt(rows, from, until, step, o);
      (if p.Some? then [p.value] else []) + Curve(rows, from, until, step, o + step)
  }

  function SeriesRange(rows: seq<Row>, from: int, until: int, step: int): seq<Point>
    requires step > 0 && Counted(rows)
  {
    Curve(rows, from, until, step, Bucket(from, step))
  }

  /** A curve is in ascending order of bucket. */
  lemma {:induction false} CurveIsOrdered(rows: seq<Row>, from: int, until: int, step: int, o: int)
    requires step > 0 && Counted(rows)
    ensures OrderedFrom(Curve(rows, from, until, step, o), o)
    ensures
      var curve := Curve(rows, from, until, step, o);
      forall i, j | 0 <= i < j < |curve| :: o <= curve[i].bucket < curve[j].bucket
    decreases until - o
  {
    hide PointAt, Pick, AccOf;
    if o < until {
      CurveIsOrdered(rows, from, until, step, o + step);
      var p := PointAt(rows, from, until, step, o);
      PointIsInBucket(rows, from, until, step, o);
      if p.Some? { OrderedCons(p.value, Curve(rows, from, until, step, o + step), o, step); }
    }
  }

  lemma {:induction false} CurveIsQueried(rows: seq<Row>, from: int, until: int, step: int, o: int)
    requires step > 0 && Counted(rows)
    ensures forall p | p in Curve(rows, from, until, step, o) :: PointAt(rows, from, until, step, p.bucket) == Some(p)
    decreases until - o
  {
    if o < until { CurveIsQueried(rows, from, until, step, o + step); }
  }

  lemma PointIsInBucket(rows: seq<Row>, from: int, until: int, step: int, o: int)
    requires step > 0 && Counted(rows)
    ensures PointAt(rows, from, until, step, o).Some? ==> PointAt(rows, from, until, step, o).value.bucket == o
  {
  }

  lemma OrderedCons(p: Point, rest: seq<Point>, o: int, step: int)
    requires step > 0 && p.bucket == o && OrderedFrom(rest, o + step)
    ensures OrderedFrom([p] + rest, o)
  {
  }

  predicate OrderedFrom(curve: seq<Point>, o: int) {
    && (forall i | 0 <= i < |curve| :: o <= curve[i].bucket)
    && (forall i, j | 0 <= i < j < |curve| :: curve[i].bucket < curve[j].bucket)
  }

  /** Every sample in the window is in the point of its bucket. */
  lemma {:induction false} CurveIsComplete(rows: seq<Row>, from: int, until: int, step: int, o: int, r: Row)
    requires step > 0 && Counted(rows) && o % step == 0
    requires r in rows && from <= r.t < until && o <= r.t
    ensures exists p :: p in Curve(rows, from, until, step, o) && p.bucket == Bucket(r.t, step)
    decreases until - o
  {
    var c := Curve(rows, from, until, step, o);
    if r.t >= o + step {
      StepKeepsMultiple(o, step);
      CurveIsComplete(rows, from, until, step, o + step, r);
      var p :| p in Curve(rows, from, until, step, o + step) && p.bucket == Bucket(r.t, step);
      assert p in c;
    } else {
      BucketUnique(o, r.t, step);
      assert r in Pick(rows, InWindow(from, until, step, o));
      assert PointAt(rows, from, until, step, o).value in c;
    }
  }

  lemma PointHasSample(rows: seq<Row>, from: int, until: int, step: int, p: Point)
    requires step > 0 && Counted(rows) && p in SeriesRange(rows, from, until, step)
    ensures exists r :: r in rows && from <= r.t < until && Bucket(r.t, step) == p.bucket
  {
    CurveIsQueried(rows, from, until, step, Bucket(from, step));
    var group := Pick(rows, InWindow(from, until, step, p.bucket));
    assert group[0] in group;
  }

  // ---------------------------------------------------------------- what a point says of the samples

  /** A sample is its time and its value. */
  function RawRows(samples: seq<(int, real)>): (rows: seq<Row>)
    ensures |rows| == |samples| && Counted(rows)
  {
    seq(|samples|, i requires 0 <= i < |samples| => Sample(samples[i].0, samples[i].1))
  }

  /** The samples from time `lo` up to, not including, `hi`. */
  function Between(samples: seq<(int, real)>, lo: int, hi: int): (inside: seq<(int, real)>)
    ensures forall x :: x in inside <==> x in samples && lo <= x.0 < hi
  {
    if samples == [] then []
    else (if lo <= samples[0].0 < hi then [samples[0]] else []) + Between(samples[1..], lo, hi)
  }

  function SumOf(samples: seq<(int, real)>): real {
    if samples == [] then 0.0 else samples[0].1 + SumOf(samples[1..])
  }

  lemma {:induction false} PickRaw(samples: seq<(int, real)>, p: int -> bool, lo: int, hi: int)
    requires forall t :: p(t) <==> lo <= t < hi
    ensures Pick(RawRows(samples), p) == RawRows(Between(samples, lo, hi))
  {
    if samples != [] {
      var rows, rest := RawRows(samples), samples[1..];
      PickRaw(rest, p, lo, hi);
      assert rows[1..] == RawRows(rest) && rows[0].t == samples[0].0;
      PickCons(rows, p);
      RawCons(samples[0], Between(rest, lo, hi));
      BetweenCons(samples, lo, hi);
    }
  }

  lemma RawCons(x: (int, real), rest: seq<(int, real)>)
    ensures RawRows([x] + rest) == [Sample(x.0, x.1)] + RawRows(rest)
  {
  }

  lemma BetweenCons(samples: seq<(int, real)>, lo: int, hi: int)
    requires samples != []
    ensures Between(samples, lo, hi) ==
      if lo <= samples[0].0 < hi then [samples[0]] + Between(samples[1..], lo, hi) else Between(samples[1..], lo, hi)
  {
  }

  lemma {:induction false} SumsOfRaw(samples: seq<(int, real)>)
    ensures CountSum(RawRows(samples)) == |samples| && WeightedSum(RawRows(samples)) == SumOf(samples)
  {
    if samples != [] {
      SumsOfRaw(samples[1..]);
      assert RawRows(samples)[1..] == RawRows(samples[1..]);
    }
  }

  /** The query over raw samples with the two ends of a bucket, cut by the window, written out. */
  function Begins(p: Point, from: int): int { if p.bucket < from then from else p.bucket }

  function Ends(p: Point, until: int, step: int): int { if p.bucket + step < until then p.bucket + step else until }

  /**
   Every point of a query over raw samples is of a multiple of the step and speaks of the samples of its bucket
   and window: how many there are, their mean, the least, the greatest, and one of the latest.
   */
  lemma PointMeaning(samples: seq<(int, real)>, from: int, until: int, step: int, p: Point)
    requires step > 0 && p in SeriesRange(RawRows(samples), from, until, step)
    ensures p.bucket % step == 0
    ensures
      var inside := Between(samples, Begins(p, from), Ends(p, until, step));
      && p.samples == |inside| > 0 && p.avg * p.samples as real == SumOf(inside)
      && (forall x | x in inside :: p.min <= x.1 <= p.max)
      && (exists x :: x in inside && x.1 == p.min) && (exists x :: x in inside && x.1 == p.max)
      && exists x :: x in inside && x.1 == p.last && forall y | y in inside :: y.0 <= x.0
  {
    hide Pick, AccOf, SeriesRange, Between, SumOf, RawRows;
    var inside := Between(samples, Begins(p, from), Ends(p, until, step));
    PointRows(samples, from, until, step, p);
    AccOfSamples(inside);
    MeanTimesCount(SumOf(inside), |inside|);
  }

  /** What a group of samples accumulates. */
  lemma AccOfSamples(samples: seq<(int, real)>)
    requires samples != []
    ensures
      var a := AccOf(RawRows(samples)).value;
      && a.count == |samples| && a.sum == SumOf(samples)
      && (forall x | x in samples :: a.min <= x.1 <= a.max)
      && (exists x :: x in samples && x.1 == a.min) && (exists x :: x in samples && x.1 == a.max)
      && exists x :: x in samples && x.1 == a.last && forall y | y in samples :: y.0 <= x.0
  {
    hide AccOf, CountSum, WeightedSum, SumOf;
    var a := AccOf(RawRows(samples)).value;
    AccSums(RawRows(samples));
    SumsOfRaw(samples);
    AccMeaning(RawRows(samples));
    RawValues(samples, a.min, a.max, a.last, a.at);
  }

  lemma MeanTimesCount(sum: real, count: nat)
    requires count > 0
    ensures sum / count as real * count as real == sum
  {
  }

  /** The rows behind a point. */
  lemma PointRows(samples: seq<(int, real)>, from: int, until: int, step: int, p: Point)
    requires step > 0 && p in SeriesRange(RawRows(samples), from, until, step)
    ensures p.bucket % step == 0
    ensures
      var rows := RawRows(Between(samples, Begins(p, from), Ends(p, until, step)));
      && rows != []
      && var a := AccOf(rows).value;
         p == Point(p.bucket, a.sum / a.count as real, a.min, a.max, a.last, a.count)
  {
    hide AccOf, Between;
    var rows := RawRows(samples);
    PointHasSample(rows, from, until, step, p);
    CurveIsQueried(rows, from, until, step, Bucket(from, step));
    forall t ensures InWindow(from, until, step, p.bucket)(t) <==> Begins(p, from) <= t < Ends(p, until, step) {
      if p.bucket <= t < p.bucket + step { BucketUnique(p.bucket, t, step); }
    }
    PickRaw(samples, InWindow(from, until, step, p.bucket), Begins(p, from), Ends(p, until, step));
  }

  lemma RawValues(samples: seq<(int, real)>, min: real, max: real, last: real, at: int)
    requires
      var rows := RawRows(samples);
      && (forall r | r in rows :: min <= r.min && r.max <= max && r.t <= at)
      && (exists r :: r in rows && r.min == min) && (exists r :: r in rows && r.max == max)
      && (exists r :: r in rows && r.t == at && r.last == last)
    ensures
      && (forall x | x in samples :: min <= x.1 <= max)
      && (exists x :: x in samples && x.1 == min) && (exists x :: x in samples && x.1 == max)
      && exists x :: x in samples && x.1 == last && forall y | y in samples :: y.0 <= x.0
  {
    var rows := RawRows(samples);
    forall x | x in samples ensures min <= x.1 <= max && x.0 <= at {
      var i :| 0 <= i < |samples| && samples[i] == x;
      assert rows[i] in rows;
    }
    var lo :| lo in rows && lo.min == min;
    var hi :| hi in rows && hi.max == max;
    var la :| la in rows && la.t == at && la.last == last;
    var i :| 0 <= i < |rows| && rows[i] == lo;
    var j :| 0 <= j < |rows| && rows[j] == hi;
    var k :| 0 <= k < |rows| && rows[k] == la;
    assert samples[i] in samples && samples[j] in samples && samples[k] in samples;
  }

  lemma StepKeepsMultiple(o: int, step: int)
    requires step > 0 && o % step == 0
    ensures (o + step) % step == 0
  {
    MultipleMod(o / step + 1, step);
    assert o + step == step * (o / step + 1);
  }

  /** The window and the steps inside it do not cut a bucket of width `w`. */
  ghost predicate Aligned(w: int, from: int, until: int, step: int)
    requires w > 0 && step > 0
  {
    from % w == 0 && until % w == 0 && forall m :: from < m < until && m % step == 0 ==> m % w == 0
  }

  lemma AlignedWindow(w: int, from: int, until: int, step: int, o: int, t: int)
    requires w > 0 && step > 0 && Aligned(w, from, until, step)
    ensures InWindow(from, until, step, o)(t) <==> InWindow(from, until, step, o)(Bucket(t, w))
  {
    var b := Bucket(t, w);
    MultipleBelow(from, t, w);
    MultipleBelow(until, t, w);
    if from <= b && t < until {
      var m := Bucket(t, step);
      if m > b {
        assert m % w == 0;
        MultipleBelow(m, t, w);
      } else {
        BucketUnique(m, b, step);
      }
    }
  }

  lemma {:induction false} SamePoints(layer: seq<Row>, rows: seq<Row>, from: int, until: int, step: int, o: int)
    requires step > 0 && Counted(rows) && Counted(layer)
    requires forall o :: PointAt(layer, from, until, step, o) == PointAt(rows, from, until, step, o)
    ensures Curve(layer, from, until, step, o) == Curve(rows, from, until, step, o)
    decreases until - o
  {
    if o < until { SamePoints(layer, rows, from, until, step, o + step); }
  }

  /** On an aligned window the layer gives the same curve: same mean, extremes, last value and count. */
  lemma LayerCurveIsRawCurve(layer: seq<Row>, rows: seq<Row>, w: int, from: int, until: int, step: int)
    requires w > 0 && step > 0 && IsLayer(layer, rows, w) && Aligned(w, from, until, step)
    ensures Counted(layer) && SeriesRange(layer, from, until, step) == SeriesRange(rows, from, until, step)
  {
    LayerIsCounted(layer, rows, w);
    forall o ensures PointAt(layer, from, until, step, o) == PointAt(rows, from, until, step, o) {
      var p := InWindow(from, until, step, o);
      forall t ensures p(t) <==> p(Bucket(t, w)) { AlignedWindow(w, from, until, step, o, t); }
      LayerOfPicked(layer, rows, w, p);
      LayerAgrees(Pick(layer, p), Pick(rows, p), w);
    }
    SamePoints(layer, rows, from, until, step, Bucket(from, step));
  }

  lemma OneSampleLayer(w: int, t: int)
    requires w > 0
    ensures IsLayer([Sample(Bucket(t, w), 0.0)], [Sample(t, 0.0)], w)
  {
    var rows := [Sample(t, 0.0)];
    var layer := [Sample(Bucket(t, w), 0.0)];
    assert layer[0] in layer && rows[0] in rows;
    assert Pick(rows, InBucket(w, Bucket(t, w))) == rows;
    assert AccOf(rows) == Some(One(rows[0]));
  }

  /** Where a query can cut a bucket: at either end of its window, or at a step inside it. */
  predicate Cuts(w: int, from: int, until: int, step: int, t: int)
    requires w > 0 && step > 0
  {
    && t % w != 0
    && (t == from < until || (from % w == 0 && from < t == until) || (from % w == 0 && from < t < until && t % step == 0))
  }

  /** One sample at a cut makes the two curves differ. */
  lemma CutBucketDiffers(w: int, from: int, until: int, step: int, t: int)
    requires w > 0 && step > 0 && Cuts(w, from, until, step, t)
    ensures SeriesRange([Sample(Bucket(t, w), 0.0)], from, until, step) != SeriesRange([Sample(t, 0.0)], from, until, step)
  {
    var b := Bucket(t, w);
    var rows := [Sample(t, 0.0)];
    var layer := [Sample(b, 0.0)];
    var raw := SeriesRange(rows, from, until, step);
    var rolled := SeriesRange(layer, from, until, step);
    MultipleBelow(Bucket(from, w), t, w);
    if t == until {
      MultipleBelow(from, t, w);
      MultipleBelow(Bucket(from, step), b, step);
      CurveIsComplete(layer, from, until, step, Bucket(from, step), layer[0]);
      var p :| p in rolled && p.bucket == Bucket(b, step);
      if p in raw { PointHasSample(rows, from, until, step, p); }
    } else {
      CurveIsComplete(rows, from, until, step, Bucket(from, step), rows[0]);
      var p :| p in raw && p.bucket == Bucket(t, step);
      if p in rolled {
        PointHasSample(layer, from, until, step, p);
        BucketUnique(t, t, step);
      }
    }
  }

  /** Exactly when a layer of width `w` may stand in for the samples: nothing in the query cuts a bucket. */
  lemma LayersAgreeIff(w: int, from: int, until: int, step: int)
    requires w > 0 && step > 0 && from < until
    ensures Aligned(w, from, until, step) <==>
      forall layer, rows | IsLayer(layer, rows, w) ::
        Counted(layer) && SeriesRange(layer, from, until, step) == SeriesRange(rows, from, until, step)
  {
    if Aligned(w, from, until, step) {
      forall layer, rows | IsLayer(layer, rows, w)
        ensures Counted(layer) && SeriesRange(layer, from, until, step) == SeriesRange(rows, from, until, step)
      {
        LayerCurveIsRawCurve(layer, rows, w, from, until, step);
      }
    } else {
      var t := Cut(w, from, until, step);
      CutBucketDiffers(w, from, until, step, t);
      OneSampleLayer(w, t);
      var rows := [Sample(t, 0.0)];
      var layer := [Sample(Bucket(t, w), 0.0)];
      assert IsLayer(layer, rows, w);
    }
  }

  ghost function Cut(w: int, from: int, until: int, step: int): (t: int)
    requires w > 0 && step > 0 && from < until && !Aligned(w, from, until, step)
    ensures Cuts(w, from, until, step, t)
  {
    if from % w != 0 then from
    else if until % w != 0 then until
    else var m :| from < m < until && m % step == 0 && m % w != 0; m
  }

  // ---------------------------------------------------------------- choosing a layer

  const MINUTE := 60
  const HOUR := 60 * MINUTE
  const DAY := 24 * HOUR
  const RAW_RETENTION := 14 * DAY
  const FIVE_MIN_RETENTION := 90 * DAY
  const HOUR_RETENTION := 400 * DAY

  datatype Layer = Raw | FiveMin | Hourly

  function LayerFor(from: int, now: int): Layer {
    if now - from <= RAW_RETENTION then Raw
    else if now - from <= FIVE_MIN_RETENTION then FiveMin
    else Hourly
  }

  function Retention(l: Layer): int {
    match l
    case Raw => RAW_RETENTION
    case FiveMin => FIVE_MIN_RETENTION
    case Hourly => HOUR_RETENTION
  }

  function Width(l: Layer): int {
    match l
    case Raw => 1
    case FiveMin => 5 * MINUTE
    case Hourly => HOUR
  }

  /** The layers by the age of the window's start in seconds: 14 days, 90 days, and beyond. */
  lemma LayerByAge(from: int, now: int)
    ensures LayerFor(from, now) ==
      if now - from <= 1209600 then Raw else if now - from <= 7776000 then FiveMin else Hourly
    ensures Width(FiveMin) == 300 && Width(Hourly) == 3600 && HOUR_RETENTION == 34560000
  {
  }

  /** It is the finest layer that still has the start of the window, if any has. */
  lemma LayerIsFinest(from: int, now: int, l: Layer)
    requires now - from <= Retention(l)
    ensures now - from <= Retention(LayerFor(from, now)) && Width(LayerFor(from, now)) <= Width(l)
  {
  }

  lemma DroppedOutsideWindow(rows: seq<Row>, keep: int -> bool, from: int, until: int, step: int)
    requires step > 0 && Counted(rows) && forall t :: t >= from ==> keep(t)
    ensures SeriesRange(Pick(rows, keep), from, until, step) == SeriesRange(rows, from, until, step)
  {
    forall o ensures PointAt(Pick(rows, keep), from, until, step, o) == PointAt(rows, from, until, step, o) {
      PickPick(rows, keep, InWindow(from, until, step, o));
    }
    SamePoints(Pick(rows, keep), rows, from, until, step, Bucket(from, step));
  }

  /** The rows of a layer, given the samples and the two aggregates over them. */
  function RowsOf(l: Layer, samples: seq<Row>, fives: seq<Row>, hours: seq<Row>): seq<Row> {
    match l
    case Raw => samples
    case FiveMin => fives
    case Hourly => hours
  }

  lemma EveryLayerAgrees(l: Layer, samples: seq<Row>, fives: seq<Row>, hours: seq<Row>, from: int, until: int, step: int)
    requires step > 0 && IsLayer(fives, samples, Width(FiveMin)) && IsLayer(hours, fives, Width(Hourly))
    requires l != Raw ==> Aligned(Width(l), from, until, step)
    ensures
      var rows := RowsOf(l, samples, fives, hours);
      Counted(rows) && SeriesRange(rows, from, until, step) == SeriesRange(samples, from, until, step)
  {
    if l == FiveMin {
      LayerCurveIsRawCurve(fives, samples, Width(FiveMin), from, until, step);
    } else if l == Hourly {
      LayerOfLayer(hours, fives, samples, Width(FiveMin), Width(Hourly));
      LayerCurveIsRawCurve(hours, samples, Width(Hourly), from, until, step);
    }
  }

  /**
   For a window no older than the last retention and cutting no bucket of the layer chosen, the query
   over what retention leaves of that layer is the query over every sample ever written.
   */
  lemma QuerySeesEverySample(samples: seq<Row>, fives: seq<Row>, hours: seq<Row>, keep: int -> bool,
                             from: int, until: int, step: int, now: int)
    requires step > 0 && IsLayer(fives, samples, Width(FiveMin)) && IsLayer(hours, fives, Width(Hourly))
    requires now - from <= HOUR_RETENTION
    requires forall t :: t >= now - Retention(LayerFor(from, now)) ==> keep(t)
    requires LayerFor(from, now) != Raw ==> Aligned(Width(LayerFor(from, now)), from, until, step)
    ensures
      var rows := RowsOf(LayerFor(from, now), samples, fives, hours);
      Counted(Pick(rows, keep)) && SeriesRange(Pick(rows, keep), from, until, step) == SeriesRange(samples, from, until, step)
  {
    var l := LayerFor(from, now);
    EveryLayerAgrees(l, samples, fives, hours, from, until, step);
    assert now - from <= Retention(l);
    DroppedOutsideWindow(RowsOf(l, samples, fives, hours), keep, from, until, step);
  }
}
