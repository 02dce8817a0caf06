/**
  The meaning of a line diff: edit scripts, their cost, and the distance of two line
  sequences. A line is a value of any type that has equality.
 */
module EditScripts {

  datatype Op = Keep | Delete | Insert

  /** `ops` consumes all of `a`, produces exactly `b`, and keeps only equal lines. */
  ghost predicate Transforms<T>(ops: seq<Op>, a: seq<T>, b: seq<T>) {
    if ops == [] then
      a == [] && b == []
    else
      match ops[0]
      case Keep => a != [] && b != [] && a[0] == b[0] && Transforms(ops[1..], a[1..], b[1..])
      case Delete => a != [] && Transforms(ops[1..], a[1..], b)
      case Insert => b != [] && Transforms(ops[1..], a, b[1..])
  }

  function Cost(ops: seq<Op>): nat {
    if ops == [] then 0 else (if ops[0] == Keep then 0 else 1) + Cost(ops[1..])
  }

  /** `ops` is a script from `a` to `b`, and no script is cheaper. */
  ghost predicate Optimal<T(!new)>(ops: seq<Op>, a: seq<T>, b: seq<T>) {
    && Transforms(ops, a, b)
    && forall other :: Transforms(other, a, b) ==> Cost(ops) <= Cost(other)
  }

  ghost predicate Matches<T>(a: seq<T>, b: seq<T>, x: int, y: int) {
    0 <= x < |a| && 0 <= y < |b| && a[x] == b[y]
  }

  /**
    The fewest unit steps from (0, 0) to (x, y) when matching lines are free diagonals. The
    plane goes on past the grid |a| x |b|, where there are no diagonals: the search may walk there.
   */
  ghost function Distance<T>(a: seq<T>, b: seq<T>, x: nat, y: nat): nat {
    if x == 0 then y
    else if y == 0 then x
    else if Matches(a, b, x - 1, y - 1) then Distance(a, b, x - 1, y - 1)
    else
      var up, left := Distance(a, b, x, y - 1), Distance(a, b, x - 1, y);
      1 + if up < left then up else left
  }

  /** The length of a longest common subsequence of a[..x] and b[..y]. */
  ghost function Lcs<T>(a: seq<T>, b: seq<T>, x: nat, y: nat): nat
    requires x <= |a| && y <= |b|
  {
    if x == 0 || y == 0 then 0
    else if a[x - 1] == b[y - 1] then 1 + Lcs(a, b, x - 1, y - 1)
    else
      var up, left := Lcs(a, b, x, y - 1), Lcs(a, b, x - 1, y);
      if up < left then left else up
  }

  lemma {:induction false} DistanceIsLcs<T>(a: seq<T>, b: seq<T>, x: nat, y: nat)
    requires x <= |a| && y <= |b|
    ensures Distance(a, b, x, y) == x + y - 2 * Lcs(a, b, x, y)
  {
    if x > 0 && y > 0 {
      if a[x - 1] == b[y - 1] {
        DistanceIsLcs(a, b, x - 1, y - 1);
      } else {
        DistanceIsLcs(a, b, x, y - 1);
        DistanceIsLcs(a, b, x - 1, y);
      }
    }
  }

  // ----- how the distance varies over the plane

  /** One step right or down changes the distance by at most one. */
  lemma {:induction false} OneStep<T>(a: seq<T>, b: seq<T>, x: nat, y: nat)
    ensures -1 <= Distance(a, b, x + 1, y) - Distance(a, b, x, y) <= 1
    ensures -1 <= Distance(a, b, x, y + 1) - Distance(a, b, x, y) <= 1
    decreases x + y
  {
    if y > 0 {
      OneStep(a, b, x, y - 1);
    }
    if x > 0 {
      OneStep(a, b, x - 1, y);
    }
  }

  /** The distance never shrinks along a diagonal. */
  lemma {:induction false} DiagonalMonotone<T>(a: seq<T>, b: seq<T>, x: nat, y: nat, steps: nat)
    ensures Distance(a, b, x, y) <= Distance(a, b, x + steps, y + steps)
    decreases steps
  {
    if steps > 0 {
      DiagonalMonotone(a, b, x, y, steps - 1);
      OneStep(a, b, x + steps - 1, y + steps - 1);
    }
  }

  /** The distance is at least the diagonal's offset and at most x + y. */
  lemma {:induction false} DistanceBounds<T>(a: seq<T>, b: seq<T>, x: nat, y: nat)
    ensures x - y <= Distance(a, b, x, y) && y - x <= Distance(a, b, x, y) <= x + y
  {
    if x > 0 && y > 0 {
      DistanceBounds(a, b, x - 1, y - 1);
      DistanceBounds(a, b, x, y - 1);
      DistanceBounds(a, b, x - 1, y);
    }
  }

  /** The distance has the parity of x + y. */
  lemma {:induction false} DistanceParity<T>(a: seq<T>, b: seq<T>, x: nat, y: nat)
    ensures (Distance(a, b, x, y) + x + y) % 2 == 0
  {
    if x > 0 && y > 0 {
      if Matches(a, b, x - 1, y - 1) {
        DistanceParity(a, b, x - 1, y - 1);
      } else {
        DistanceParity(a, b, x, y - 1);
        DistanceParity(a, b, x - 1, y);
      }
    }
  }

  /** Right of the grid the distance is that of the border column plus the way out. */
  lemma {:induction false} BesideTheGrid<T>(a: seq<T>, b: seq<T>, x: nat, y: nat)
    requires |a| <= x
    ensures Distance(a, b, x, y) == Distance(a, b, |a|, y) + (x - |a|)
    decreases x + y
  {
    if x > |a| && y > 0 {
      BesideTheGrid(a, b, x - 1, y);
      BesideTheGrid(a, b, x, y - 1);
      OneStep(a, b, |a|, y - 1);
      assert !Matches(a, b, x - 1, y - 1);
    }
  }

  lemma {:induction false} BelowTheGrid<T>(a: seq<T>, b: seq<T>, x: nat, y: nat)
    requires |b| <= y
    ensures Distance(a, b, x, y) == Distance(a, b, x, |b|) + (y - |b|)
    decreases x + y
  {
    if y > |b| && x > 0 {
      BelowTheGrid(a, b, x, y - 1);
      BelowTheGrid(a, b, x - 1, y);
      OneStep(a, b, x - 1, |b|);
      assert !Matches(a, b, x - 1, y - 1);
    }
  }

  /** Past the goal every step counts: no path turns back into the grid. */
  lemma BeyondTheGoal<T>(a: seq<T>, b: seq<T>, x: nat, y: nat)
    requires |a| <= x && |b| <= y
    ensures Distance(a, b, x, y) == Distance(a, b, |a|, |b|) + (x - |a|) + (y - |b|)
  {
    BesideTheGrid(a, b, x, y);
    BelowTheGrid(a, b, |a|, y);
  }

  // ----- scripts are paths

  /** A script of the remaining lines costs at least the distance that remains. */
  lemma {:induction false} ScriptsCostDistance<T>(ops: seq<Op>, a: seq<T>, b: seq<T>, x: nat, y: nat)
    requires x <= |a| && y <= |b|
    requires Transforms(ops, a[x..], b[y..])
    ensures Distance(a, b, |a|, |b|) <= Distance(a, b, x, y) + Cost(ops)
    decreases |ops|
  {
    if ops != [] {
      OneStep(a, b, x, y);
      match ops[0]
      case Keep =>
        assert a[x..][1..] == a[x + 1..] && b[y..][1..] == b[y + 1..];
        ScriptsCostDistance(ops[1..], a, b, x + 1, y + 1);
      case Delete =>
        assert a[x..][1..] == a[x + 1..];
        ScriptsCostDistance(ops[1..], a, b, x + 1, y);
      case Insert =>
        assert b[y..][1..] == b[y + 1..];
        ScriptsCostDistance(ops[1..], a, b, x, y + 1);
    }
  }

  /** A script as cheap as the distance is optimal. */
  lemma DistanceIsOptimal<T(!new)>(a: seq<T>, b: seq<T>)
    ensures forall ops :: Transforms(ops, a, b) ==> Distance(a, b, |a|, |b|) <= Cost(ops)
  {
    forall ops | Transforms(ops, a, b)
      ensures Distance(a, b, |a|, |b|) <= Cost(ops)
    {
      assert a[0..] == a && b[0..] == b;
      ScriptsCostDistance(ops, a, b, 0, 0);
    }
  }
}
