/**
  The greedy line diff: the search over diagonals that overwrites one array in place and
  keeps a copy of every round, and the walk back through those copies.
 */
module LineDiff {
  import opened Basics
  import opened Options
  import opened EditScripts

  const MAX_D := 1024
  const MAX_LINES := 20_000

  /** On diagonal `k`, `x` is the last point within distance `d`. */
  ghost predicate Furthest<T>(a: seq<T>, b: seq<T>, d: int, k: int, x: int) {
    && 0 <= x && k <= x
    && Distance(a, b, x, x - k) <= d < Distance(a, b, x + 1, x + 1 - k)
  }

  /** `row[i]` is furthest within `d` on diagonal 2i - d, for the diagonals -d, -d + 2, ..., d. */
  ghost predicate Round<T>(a: seq<T>, b: seq<T>, d: int, row: seq<int>) {
    d >= 0 && |row| == d + 1 && forall i :: 0 <= i <= d ==> Furthest(a, b, d, 2 * i - d, row[i])
  }

  ghost predicate Rounds<T>(a: seq<T>, b: seq<T>, trace: seq<seq<int>>) {
    forall d :: 0 <= d < |trace| ==> Round(a, b, d, trace[d])
  }

  /** Where the search enters diagonal `k` in round `d >= 1`, given the previous round. */
  function Entry(row: seq<int>, d: int, k: int): int
    requires |row| == d >= 1 && -d <= k <= d && (k + d) % 2 == 0
  {
    var right := (k + d) / 2;  // the index of diagonal k + 1; diagonal k - 1 comes before it
    if k == -d || (k != d && row[right - 1] < row[right]) then row[right] else row[right - 1] + 1
  }

  /** The entry point is within `d`: it is one step away from a point within `d - 1`. */
  lemma EntryWithin<T>(a: seq<T>, b: seq<T>, d: int, k: int, row: seq<int>)
    requires d >= 1 && -d <= k <= d && (k + d) % 2 == 0
    requires Round(a, b, d - 1, row)
    ensures 0 <= Entry(row, d, k) && k <= Entry(row, d, k)
    ensures Distance(a, b, Entry(row, d, k), Entry(row, d, k) - k) <= d
  {
    hide Distance;
    var i := (k + d) / 2;
    var x := Entry(row, d, k);
    if k == -d || (k != d && row[i - 1] < row[i]) {
      assert Furthest(a, b, d - 1, 2 * i - (d - 1), row[i]);
      OneStep(a, b, x, x - k - 1);
    } else {
      assert Furthest(a, b, d - 1, 2 * (i - 1) - (d - 1), row[i - 1]);
      OneStep(a, b, x - 1, x - k);
    }
  }

  /** On or after the entry point, the neighbour on diagonal k - 1 is not within `d - 1`. */
  lemma BelowIsFar<T>(a: seq<T>, b: seq<T>, d: int, k: int, row: seq<int>, x: nat)
    requires d >= 1 && -d <= k <= d && (k + d) % 2 == 0
    requires Round(a, b, d - 1, row)
    requires Entry(row, d, k) <= x && k <= x
    ensures Distance(a, b, x, x + 1 - k) > d - 1
  {
    hide Distance;
    if k == -d {
      DistanceBounds(a, b, x, x + 1 - k);
    } else {
      var i := (k + d) / 2 - 1;
      assert Furthest(a, b, d - 1, 2 * i - (d - 1), row[i]);
      DiagonalMonotone(a, b, row[i] + 1, row[i] + 2 - k, x - row[i] - 1);
    }
  }

  /** On or after the entry point, the neighbour on diagonal k + 1 is not within `d - 1`. */
  lemma RightIsFar<T>(a: seq<T>, b: seq<T>, d: int, k: int, row: seq<int>, x: nat)
    requires d >= 1 && -d <= k <= d && (k + d) % 2 == 0
    requires Round(a, b, d - 1, row)
    requires Entry(row, d, k) <= x && k <= x
    ensures Distance(a, b, x + 1, x - k) > d - 1
  {
    hide Distance;
    if k == d {
      DistanceBounds(a, b, x + 1, x - k);
    } else {
      var i := (k + d) / 2;
      assert Furthest(a, b, d - 1, 2 * i - (d - 1), row[i]);
      DiagonalMonotone(a, b, row[i] + 1, row[i] - k, x - row[i]);
    }
  }

  /** On or after the entry point only a pair of equal lines keeps the next point within `d`. */
  lemma EntryBlocks<T>(a: seq<T>, b: seq<T>, d: int, k: int, row: seq<int>, x: nat)
    requires d >= 1 && -d <= k <= d && (k + d) % 2 == 0
    requires Round(a, b, d - 1, row)
    requires Entry(row, d, k) <= x && k <= x
    requires !Matches(a, b, x, x - k)
    ensures Distance(a, b, x + 1, x + 1 - k) > d
  {
    BelowIsFar(a, b, d, k, row, x);
    RightIsFar(a, b, d, k, row, x);
  }

  /** A round that did not reach the goal leaves the goal further away than the round's distance. */
  lemma RoundMissesGoal<T>(a: seq<T>, b: seq<T>, d: int, row: seq<int>)
    requires Round(a, b, d, row)
    requires forall i :: 0 <= i <= d ==> row[i] < |a| || row[i] - (2 * i - d) < |b|
    requires Distance(a, b, |a|, |b|) >= d
    ensures Distance(a, b, |a|, |b|) > d
  {
    hide Distance, Furthest;
    var n, m := |a|, |b|;
    DistanceBounds(a, b, n, m);
    DistanceParity(a, b, n, m);
    var k := n - m;
    if -d <= k <= d && (k + d) % 2 == 0 {
      var i := (k + d) / 2;
      assert 2 * i - d == k;
      PointBeforeGoal(a, b, d, row[i]);
    }
  }

  /** The furthest point on the goal's diagonal lies before the goal. */
  lemma PointBeforeGoal<T>(a: seq<T>, b: seq<T>, d: int, x: int)
    requires Furthest(a, b, d, |a| - |b|, x) && (x < |a| || x - (|a| - |b|) < |b|)
    ensures Distance(a, b, |a|, |b|) > d
  {
    hide Distance;
    DiagonalMonotone(a, b, x + 1, x + 1 - (|a| - |b|), |a| - x - 1);
  }

  /** The point that meets the goal test in round `d` is the goal itself, at distance `d`. */
  lemma GoalIsExact<T>(a: seq<T>, b: seq<T>, d: nat, k: int, x: int)
    requires Furthest(a, b, d, k, x)
    requires x >= |a| && x - k >= |b|
    requires Distance(a, b, |a|, |b|) >= d
    ensures x == |a| && x - k == |b| && Distance(a, b, |a|, |b|) == d
  {
    hide Distance;
    BeyondTheGoal(a, b, x, x - k);
  }

  /** Follows the equal lines from (x, x - k); `x'` is where they end. */
  method Snake<T(==)>(a: seq<T>, b: seq<T>, ghost d: int, k: int, start: int) returns (x: int)
    requires 0 <= start && k <= start
    requires Distance(a, b, start, start - k) <= d
    ensures start <= x && Distance(a, b, x, x - k) <= d
    ensures !Matches(a, b, x, x - k)
  {
    x := start;
    var y := x - k;
    while x < |a| && y < |b| && a[x] == b[y]
      invariant y == x - k && start <= x && 0 <= y
      invariant Distance(a, b, x, y) <= d
    {
      x, y := x + 1, y + 1;
    }
  }

  /** The search array holds the first `count` entries of round `d`. */
  ghost predicate Stores(v: seq<int>, off: int, d: int, row: seq<int>, count: int) {
    && 0 <= d <= off && |v| == 2 * off + 1 && 0 <= count <= |row| == d + 1
    && forall i :: 0 <= i < count ==> v[off + 2 * i - d] == row[i]
  }

  /** Writing the next diagonal of round `d` leaves the entries of round `d - 1` alone. */
  lemma WriteKeepsPrevious(v: seq<int>, off: int, d: int, prev: seq<int>, count: int, x: int)
    requires 1 <= d <= off && 0 <= count <= d
    requires Stores(v, off, d - 1, prev, d)
    ensures Stores(v[off + 2 * count - d := x], off, d - 1, prev, d)
  {
  }

  lemma WriteExtends(v: seq<int>, off: int, d: int, row: seq<int>, count: int, x: int)
    requires Stores(v, off, d, row, count) && count <= d
    ensures Stores(v[off + 2 * count - d := x], off, d, row[count := x], count + 1)
  {
  }

  /** The furthest point of diagonal `k` in round `d`, from the entries of the previous round. */
  method Advance<T(==)>(a: seq<T>, b: seq<T>, v: array<int>, off: int, d: int, k: int, ghost prev: seq<int>)
    returns (x: int)
    requires 0 <= d <= off && v.Length == 2 * off + 1 && off >= 1
    requires -d <= k <= d && (k + d) % 2 == 0
    requires if d == 0 then v[off + 1] == 0 else Round(a, b, d - 1, prev) && Stores(v[..], off, d - 1, prev, d)
    ensures Furthest(a, b, d, k, x)
  {
    var ki := k + off;
    ghost var j := (k + d) / 2;
    assert d >= 1 && k != -d ==> v[..][off + 2 * (j - 1) - (d - 1)] == prev[j - 1];
    assert d >= 1 && k != d ==> v[..][off + 2 * j - (d - 1)] == prev[j];
    var start :=
      if k == -d || (k != d && v[ki - 1] < v[ki + 1]) then v[ki + 1] else v[ki - 1] + 1;
    if d >= 1 {
      EntryWithin(a, b, d, k, prev);
    }
    x := Snake(a, b, d, k, start);
    if d >= 1 {
      EntryBlocks(a, b, d, k, prev, x);
    } else {
      DistanceBounds(a, b, x, x + 1);
      DistanceBounds(a, b, x + 1, x);
    }
  }

  /**
    Round `d` of the search: it reads the previous round's entries of `v` and overwrites the
    others, which have the other parity. `row` is the copy kept in the trace.
   */
  method SearchRound<T(==)>(a: seq<T>, b: seq<T>, v: array<int>, off: int, d: int, ghost prev: seq<int>)
    returns (row: seq<int>, reached: bool)
    requires off == |a| + |b| >= 1 && v.Length == 2 * off + 1
    requires 0 <= d <= Distance(a, b, |a|, |b|) <= off
    requires if d == 0 then v[off + 1] == 0 else Round(a, b, d - 1, prev) && Stores(v[..], off, d - 1, prev, d)
    modifies v
    ensures reached ==> Distance(a, b, |a|, |b|) == d && Furthest(a, b, d, |a| - |b|, |a|)
    ensures !reached ==> Distance(a, b, |a|, |b|) > d && Round(a, b, d, row) && Stores(v[..], off, d, row, d + 1)
  {
    hide Distance;
    row, reached := seq(d + 1, _ => 0), false;
    var k := -d;
    ghost var j := 0;  // the number of diagonals done
    while k <= d
      invariant k == 2 * j - d && 0 <= j <= d + 1
      invariant if d == 0 then j == 0 ==> v[off + 1] == 0 else Stores(v[..], off, d - 1, prev, d)
      invariant Stores(v[..], off, d, row, j)
      invariant forall i :: 0 <= i < j ==> Furthest(a, b, d, 2 * i - d, row[i])
      invariant forall i :: 0 <= i < j ==> row[i] < |a| || row[i] - (2 * i - d) < |b|
      invariant !reached
    {
      var x := Advance(a, b, v, off, d, k, prev);
      if d >= 1 {
        WriteKeepsPrevious(v[..], off, d, prev, j, x);
      }
      WriteExtends(v[..], off, d, row, j, x);
      ghost var before := v[..];
      v[k + off] := x;
      assert v[..] == before[k + off := x];
      assert (k + d) / 2 == j;
      row := row[(k + d) / 2 := x];
      if x >= |a| && x - k >= |b| {
        GoalIsExact(a, b, d, k, x);
        reached := true;
        return;
      }
      k := k + 2;
      j := j + 1;
    }
    RoundMissesGoal(a, b, d, row);
  }

  /**
    The forward search. Every index into `v` is in range because a round starts only while the
    goal is at least `d` away, and the goal is at most |a| + |b| away.
   */
  method Search<T(==)>(a: seq<T>, b: seq<T>) returns (trace: seq<seq<int>>, reached: bool)
    requires |a| + |b| >= 1
    ensures Rounds(a, b, trace)
    ensures reached ==>
      && |trace| == Distance(a, b, |a|, |b|) <= MAX_D
      && Furthest(a, b, |trace|, |a| - |b|, |a|)
    ensures !reached ==> Distance(a, b, |a|, |b|) > MAX_D
  {
    hide Distance;
    var off := |a| + |b|;
    var v := new int[2 * off + 1](_ => 0);
    trace, reached := [], false;
    DistanceBounds(a, b, |a|, |b|);
    for d := 0 to MAX_D + 1
      invariant |trace| == d <= Distance(a, b, |a|, |b|)
      invariant Rounds(a, b, trace)
      invariant if d == 0 then v[off + 1] == 0 else Stores(v[..], off, d - 1, trace[d - 1], d)
      invariant !reached
    {
      var row;
      row, reached := SearchRound(a, b, v, off, d, if d == 0 then [] else trace[d - 1]);
      if reached {
        return;
      }
      trace := trace + [row];
    }
  }

  // ----- the walk back

  /** Along diagonal `k` the lines lo..hi of `a` equal their partners in `b`. */
  ghost predicate EqualRun<T>(a: seq<T>, b: seq<T>, k: int, lo: int, hi: int) {
    && 0 <= lo && k <= lo
    && (lo < hi ==> hi <= |a| && hi - k <= |b|)
    && forall i {:trigger a[i]} :: lo <= i < hi ==> a[i] == b[i - k]
  }

  /** Between the entry of its diagonal and a furthest point the walk ran over equal lines. */
  lemma SnakeMatches<T>(a: seq<T>, b: seq<T>, d: int, k: int, row: seq<int>, end: int, i: int)
    requires d >= 1 && -d <= k <= d && (k + d) % 2 == 0
    requires Round(a, b, d - 1, row)
    requires Furthest(a, b, d, k, end)
    requires Entry(row, d, k) <= i < end
    ensures Matches(a, b, i, i - k)
  {
    hide Distance;
    EntryWithin(a, b, d, k, row);
    DiagonalMonotone(a, b, i + 1, i + 1 - k, end - i - 1);
    if !Matches(a, b, i, i - k) {
      EntryBlocks(a, b, d, k, row, i);
    }
  }

  lemma SnakeIsEqualRun<T>(a: seq<T>, b: seq<T>, d: int, k: int, row: seq<int>, end: int)
    requires d >= 1 && -d <= k <= d && (k + d) % 2 == 0
    requires Round(a, b, d - 1, row)
    requires Furthest(a, b, d, k, end)
    ensures EqualRun(a, b, k, Entry(row, d, k), end)
  {
    hide Distance;
    EntryWithin(a, b, d, k, row);
    if Entry(row, d, k) < end {
      SnakeMatches(a, b, d, k, row, end, end - 1);
    }
    forall i | Entry(row, d, k) <= i < end
      ensures i < |a| && i - k < |b| && a[i] == b[i - k]
    {
      SnakeMatches(a, b, d, k, row, end, i);
    }
  }

  /** A furthest point at distance 0 was reached over equal lines only. */
  lemma FirstSnakeMatches<T>(a: seq<T>, b: seq<T>, end: int)
    requires Furthest(a, b, 0, 0, end)
    ensures EqualRun(a, b, 0, 0, end)
  {
    forall i | 0 <= i < end
      ensures i < |a| && i < |b| && a[i] == b[i - 0]
    {
      DiagonalMonotone(a, b, i + 1, i + 1, end - i - 1);
      DistanceBounds(a, b, i, i + 1);
      DistanceBounds(a, b, i + 1, i);
    }
    if 0 < end {
      var last := end - 1;
      assert last < |a|;
    }
  }

  /** A furthest point is not before the entry of its diagonal. */
  lemma EntryBeforeFurthest<T>(a: seq<T>, b: seq<T>, d: int, k: int, row: seq<int>, end: int)
    requires d >= 1 && -d <= k <= d && (k + d) % 2 == 0
    requires Round(a, b, d - 1, row)
    requires Furthest(a, b, d, k, end)
    ensures 0 <= Entry(row, d, k) <= end && k <= Entry(row, d, k)
  {
    hide Distance;
    EntryWithin(a, b, d, k, row);
    var x := Entry(row, d, k);
    if end < x {
      DiagonalMonotone(a, b, end + 1, end + 1 - k, x - end - 1);
    }
  }

  function Reversed<T>(s: seq<T>): (r: seq<T>)
    ensures |r| == |s|
  {
    seq(|s|, i requires 0 <= i < |s| => s[|s| - 1 - i])
  }

  /** `ops`, pushed in reverse, turns the lines from (x, y) on into each other at cost `cost`. */
  ghost predicate Tail<T>(a: seq<T>, b: seq<T>, x: int, y: int, ops: seq<Op>, cost: int) {
    && 0 <= x <= |a| && 0 <= y <= |b|
    && Transforms(Reversed(ops), a[x..], b[y..])
    && Cost(Reversed(ops)) == cost
  }

  lemma Push<T>(a: seq<T>, b: seq<T>, x: int, y: int, ops: seq<Op>, cost: int, op: Op)
    requires Tail(a, b, x, y, ops, cost)
    ensures op == Keep && x >= 1 && y >= 1 && a[x - 1] == b[y - 1] ==> Tail(a, b, x - 1, y - 1, ops + [op], cost)
    ensures op == Delete && x >= 1 ==> Tail(a, b, x - 1, y, ops + [op], cost + 1)
    ensures op == Insert && y >= 1 ==> Tail(a, b, x, y - 1, ops + [op], cost + 1)
  {
    assert Reversed(ops + [op])[1..] == Reversed(ops);
    assert x >= 1 ==> a[x - 1..][1..] == a[x..];
    assert y >= 1 ==> b[y - 1..][1..] == b[y..];
  }

  /** Pushes a Keep for every line of the run from (x, y) back to where `prevX` or `prevY` is met. */
  method Unwind<T>(a: seq<T>, b: seq<T>, startX: int, startY: int, prevX: int, prevY: int, startOps: seq<Op>,
    ghost cost: int)
    returns (x: int, y: int, ops: seq<Op>)
    requires 0 <= prevX <= startX && 0 <= prevY <= startY
    requires Tail(a, b, startX, startY, startOps, cost)
    requires EqualRun(a, b, startX - startY, Max(prevX, prevY + startX - startY), startX)
    ensures x == Max(prevX, prevY + startX - startY) && x - y == startX - startY
    ensures Tail(a, b, x, y, ops, cost)
  {
    x, y, ops := startX, startY, startOps;
    while x > prevX && y > prevY
      invariant x - y == startX - startY && Max(prevX, prevY + startX - startY) <= x <= startX
      invariant Tail(a, b, x, y, ops, cost)
    {
      assert a[x - 1] == b[x - 1 - (startX - startY)];
      Push(a, b, x, y, ops, cost, Keep);
      ops := ops + [Keep];
      x, y := x - 1, y - 1;
    }
  }

  /** A furthest point lies on one of the round's diagonals. */
  lemma FurthestIsInRange<T>(a: seq<T>, b: seq<T>, d: int, k: int, x: int)
    requires Furthest(a, b, d, k, x)
    ensures -d <= k <= d
  {
    hide Distance;
    DistanceBounds(a, b, x, x - k);
  }

  /** (prevX, prevY) is one edge before the run of equal lines that ends at `x` on diagonal `k`. */
  ghost predicate EdgeThenRun<T>(a: seq<T>, b: seq<T>, prevX: int, prevY: int, k: int, x: int) {
    && 0 <= prevX && 0 <= prevY
    && EqualRun(a, b, k, Max(prevX, prevY + k), x)
    && ((prevX - prevY == k + 1 && prevX <= x) || (prevX - prevY == k - 1 && prevX < x))
  }

  /** The choice of the forward search again: the point that led to the entry of diagonal `k`. */
  method Predecessor<T>(a: seq<T>, b: seq<T>, d: int, row: seq<int>, k: int, ghost x: int)
    returns (prevX: int, prevY: int)
    requires d >= 1 && -d <= k <= d && (k + d) % 2 == 0
    requires Round(a, b, d - 1, row) && Furthest(a, b, d, k, x)
    ensures Furthest(a, b, d - 1, prevX - prevY, prevX) && (prevX - prevY + d - 1) % 2 == 0
    ensures EdgeThenRun(a, b, prevX, prevY, k, x)
  {
    hide Distance;
    var up, down := (k + 1 + d - 1) / 2, (k - 1 + d - 1) / 2;
    var prevK := if k == -d || (k != d && row[down] < row[up]) then k + 1 else k - 1;
    var i := (prevK + d - 1) / 2;
    assert Furthest(a, b, d - 1, 2 * i - (d - 1), row[i]);
    prevX := row[i];
    prevY := prevX - prevK;
    SnakeIsEqualRun(a, b, d, k, row, x);
    EntryBeforeFurthest(a, b, d, k, row, x);
    assert Entry(row, d, k) == Max(prevX, prevY + k);
  }

  /** One round of the walk: back over the snake, then over the edge that led to it. */
  method BackStep<T>(a: seq<T>, b: seq<T>, startX: int, startY: int, prevX: int, prevY: int, startOps: seq<Op>,
    ghost cost: int)
    returns (x: int, y: int, ops: seq<Op>)
    requires EdgeThenRun(a, b, prevX, prevY, startX - startY, startX)
    requires Tail(a, b, startX, startY, startOps, cost)
    ensures x == prevX && y == prevY
    ensures Tail(a, b, x, y, ops, cost + 1)
  {
    x, y, ops := Unwind(a, b, startX, startY, prevX, prevY, startOps, cost);
    if x == prevX {
      Push(a, b, x, y, ops, cost, Insert);
      ops := ops + [Insert];
      y := y - 1;
    } else {
      Push(a, b, x, y, ops, cost, Delete);
      ops := ops + [Delete];
      x := x - 1;
    }
  }

  /**
    Retraces the search from the goal. The copies in `trace` suffice: in every round the walk
    stands on a furthest point, so the choice made here is the choice made going forward.
   */
  method Backtrack<T>(a: seq<T>, b: seq<T>, trace: seq<seq<int>>) returns (ops: seq<Op>)
    requires Rounds(a, b, trace)
    requires |trace| == Distance(a, b, |a|, |b|) && Furthest(a, b, |trace|, |a| - |b|, |a|)
    ensures Transforms(ops, a, b) && Cost(ops) == |trace|
  {
    hide Distance;
    var x, y := |a|, |b|;
    ops := [];
    DistanceParity(a, b, x, y);
    var d := |trace|;
    while d >= 1
      invariant 0 <= d <= |trace|
      invariant Furthest(a, b, d, x - y, x) && (x - y + d) % 2 == 0
      invariant Tail(a, b, x, y, ops, |trace| - d)
    {
      FurthestIsInRange(a, b, d, x - y, x);
      var prevX, prevY := Predecessor(a, b, d, trace[d - 1], x - y, x);
      x, y, ops := BackStep(a, b, x, y, prevX, prevY, ops, |trace| - d);
      d := d - 1;
    }
    FurthestIsInRange(a, b, 0, x - y, x);
    FirstSnakeMatches(a, b, x);
    x, y, ops := Unwind(a, b, x, y, 0, 0, ops, |trace|);
    ops := Reversed(ops);
    assert a[0..] == a && b[0..] == b;
  }

  /**
    A cheapest script, or None exactly when the input is too long or every script is too
    expensive. The caller never passes two empty sides.
   */
  method LineOps<T(==, !new)>(a: seq<T>, b: seq<T>) returns (r: Option<seq<Op>>)
    requires |a| + |b| >= 1
    ensures r.Some? ==> Optimal(r.value, a, b)
    ensures r.Some? ==> Cost(r.value) == |a| + |b| - 2 * Lcs(a, b, |a|, |b|)
    ensures r.None? <==> |a| + |b| > 20_000 || forall ops :: Transforms(ops, a, b) ==> Cost(ops) > 1_024
  {
    if |a| + |b| > MAX_LINES {
      return None;
    }
    var trace, reached := Search(a, b);
    DistanceIsOptimal(a, b);
    DistanceIsLcs(a, b, |a|, |b|);
    if !reached {
      return None;
    }
    var ops := Backtrack(a, b, trace);
    r := Some(ops);
  }
}
