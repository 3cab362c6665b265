/** The strong-correlation scan of `/correlation`: every ordered pair of
    selected variables is visited in nested-loop order, each unordered pair is
    tested once (the first time it is met) and kept when the absolute value of
    its coefficient is strictly above 0.7. */
module StrongPairs {
  import opened Common
  import opened Seqs

  /** `correlation_matrix`, as `subset.corr(...).to_dict()` builds it. */
  type Matrix = map<string, map<string, Coeff>>

  const Threshold: real := 0.7

  /** The matrix has an entry for every pair of selected variables. */
  predicate Covers(m: Matrix, vars: seq<string>) {
    forall a, b :: a in vars && b in vars ==> a in m && b in m[a]
  }

  function Abs(x: real): real {
    if x < 0.0 then -x else x
  }

  /** `abs(corr_value) > 0.7`; NaN compares false. */
  predicate IsStrong(c: Coeff) {
    c.Num? && Abs(c.r) > Threshold
  }

  /** `tuple(sorted([i, j]))`: for two distinct names the sorted tuple and the
      two-element set identify the same unordered pair. */
  function PairKey(a: string, b: string): set<string> {
    {a, b}
  }

  lemma PairKeyEq(a: string, b: string, c: string, d: string)
    requires a != b
    ensures PairKey(a, b) == PairKey(c, d) <==> (a == c && b == d) || (a == d && b == c)
  {
    if PairKey(a, b) == PairKey(c, d) {
      assert a in PairKey(c, d) && b in PairKey(c, d);
      assert c in PairKey(a, b) && d in PairKey(a, b);
    }
  }

  /** Position (p, q) comes before position (k, t) in nested-loop order. */
  predicate Before(p: int, q: int, k: int, t: int) {
    p < k || (p == k && q < t)
  }

  /** The pair (a, b) is reported: both are selected, they differ, `a` is met
      first in the outer loop, and the coefficient at `[a][b]` is strong. */
  predicate IsStrongPair(vars: seq<string>, m: Matrix, a: string, b: string) {
    && a in vars && b in vars && a != b
    && Pos(vars, a) < Pos(vars, b)
    && a in m && b in m[a] && IsStrong(m[a][b])
  }

  /** An entry reports a strong pair with the matrix's coefficient. */
  predicate Reported(vars: seq<string>, m: Matrix, e: StrongCorrelation) {
    IsStrongPair(vars, m, e.var1, e.var2) && e.value == m[e.var1][e.var2].r
  }

  /** Entry `e` is produced before entry `f` by the nested loops. */
  predicate RankedBefore(vars: seq<string>, e: StrongCorrelation, f: StrongCorrelation) {
    Before(Pos(vars, e.var1), Pos(vars, e.var2), Pos(vars, f.var1), Pos(vars, f.var2))
  }

  /** What `strong_correlations` holds once the scan is over: only reported
      pairs, in nested-loop order, and every strong pair. */
  ghost predicate StrongSpec(vars: seq<string>, m: Matrix, out: seq<StrongCorrelation>) {
    && (forall e :: e in out ==> Reported(vars, m, e))
    && (forall z1, z2 :: 0 <= z1 < z2 < |out| ==> RankedBefore(vars, out[z1], out[z2]))
    && (forall a, b :: IsStrongPair(vars, m, a, b) ==> StrongCorrelation(a, b, m[a][b].r) in out)
  }

  /** The unordered pair {a, b} has been met before position (k, t); it is
      first met at (first position of one, first position of the other). */
  predicate Met(vars: seq<string>, a: string, b: string, k: int, t: int) {
    if Pos(vars, a) < Pos(vars, b) then Before(Pos(vars, a), Pos(vars, b), k, t)
    else Before(Pos(vars, b), Pos(vars, a), k, t)
  }

  /** `seen_pairs` at outer position k, inner position t: exactly the
      unordered pairs of distinct selected names met so far. */
  ghost predicate SeenInv(vars: seq<string>, seen: set<set<string>>, k: int, t: int) {
    forall a, b :: a in vars && b in vars ==>
      (PairKey(a, b) in seen <==> a != b && Met(vars, a, b, k, t))
  }

  /** Every entry so far reports a strong pair first met before (k, t). */
  ghost predicate SoundInv(vars: seq<string>, m: Matrix, out: seq<StrongCorrelation>, k: int, t: int) {
    forall e :: e in out ==>
      Reported(vars, m, e) && Before(Pos(vars, e.var1), Pos(vars, e.var2), k, t)
  }

  ghost predicate Ordered(vars: seq<string>, out: seq<StrongCorrelation>) {
    forall z1, z2 :: 0 <= z1 < z2 < |out| ==> RankedBefore(vars, out[z1], out[z2])
  }

  /** Every strong pair first met before (k, t) has its entry. */
  ghost predicate CompleteInv(vars: seq<string>, m: Matrix, out: seq<StrongCorrelation>, k: int, t: int) {
    forall a, b :: IsStrongPair(vars, m, a, b) && Before(Pos(vars, a), Pos(vars, b), k, t) ==>
      StrongCorrelation(a, b, m[a][b].r) in out
  }

  ghost predicate ScanInv(vars: seq<string>, m: Matrix, seen: set<set<string>>,
                          out: seq<StrongCorrelation>, k: int, t: int)
  {
    SeenInv(vars, seen, k, t) && SoundInv(vars, m, out, k, t) && Ordered(vars, out)
    && CompleteInv(vars, m, out, k, t)
  }

  /** The pair at (k, t) is tested: it is a pair of distinct names not yet seen. */
  predicate Tested(vars: seq<string>, seen: set<set<string>>, k: int, t: int)
    requires 0 <= k < |vars| && 0 <= t < |vars|
  {
    vars[k] != vars[t] && PairKey(vars[k], vars[t]) !in seen
  }

  /** `seen_pairs` after visiting (k, t). */
  function NextSeen(vars: seq<string>, seen: set<set<string>>, k: int, t: int): set<set<string>>
    requires 0 <= k < |vars| && 0 <= t < |vars|
  {
    if Tested(vars, seen, k, t) then seen + {PairKey(vars[k], vars[t])} else seen
  }

  /** `strong_correlations` after visiting (k, t). */
  function NextOut(vars: seq<string>, m: Matrix, seen: set<set<string>>,
                   out: seq<StrongCorrelation>, k: int, t: int): seq<StrongCorrelation>
    requires Covers(m, vars) && 0 <= k < |vars| && 0 <= t < |vars|
  {
    var a, b := vars[k], vars[t];
    assert a in vars && b in vars;
    if Tested(vars, seen, k, t) && IsStrong(m[a][b]) then out + [StrongCorrelation(a, b, m[a][b].r)]
    else out
  }

  /** A pair not yet met at (k, t) is being met for the first time: the
      outer name is the first occurrence of one variable, the inner name the
      first occurrence of the other, and the outer one comes first. */
  lemma FirstMeeting(vars: seq<string>, k: int, t: int)
    requires 0 <= k < |vars| && 0 <= t < |vars| && vars[k] != vars[t]
    requires !Met(vars, vars[k], vars[t], k, t)
    ensures Pos(vars, vars[k]) == k && Pos(vars, vars[t]) == t && k < t
  {
  }

  /** Moving from (k, t) to (k, t + 1) newly meets only the pair at (k, t),
      and only when that is its first meeting. */
  lemma MetStep(vars: seq<string>, k: int, t: int, c: string, d: string)
    requires 0 <= k < |vars| && 0 <= t < |vars|
    requires c in vars && d in vars && c != d
    ensures Met(vars, c, d, k, t + 1) <==>
            Met(vars, c, d, k, t) ||
            (vars[k] != vars[t] && !Met(vars, vars[k], vars[t], k, t) &&
             ((c == vars[k] && d == vars[t]) || (c == vars[t] && d == vars[k])))
  {
  }

  lemma SeenStep(vars: seq<string>, seen: set<set<string>>, k: int, t: int)
    requires 0 <= k < |vars| && 0 <= t < |vars|
    requires SeenInv(vars, seen, k, t)
    ensures SeenInv(vars, NextSeen(vars, seen, k, t), k, t + 1)
  {
    var a, b := vars[k], vars[t];
    var seen' := NextSeen(vars, seen, k, t);
    forall c, d | c in vars && d in vars
      ensures PairKey(c, d) in seen' <==> c != d && Met(vars, c, d, k, t + 1)
    {
      if c != d {
        MetStep(vars, k, t, c, d);
      }
      if Tested(vars, seen, k, t) {
        if c == d {
          assert PairKey(c, d) != PairKey(a, b) by {
            assert a in PairKey(a, b) && b in PairKey(a, b);
          }
        } else {
          PairKeyEq(a, b, c, d);
        }
      } else if a != b && c != d {
        PairKeyEq(a, b, c, d);
      }
    }
  }

  lemma SoundStep(vars: seq<string>, m: Matrix, seen: set<set<string>>,
                  out: seq<StrongCorrelation>, k: int, t: int)
    requires Covers(m, vars) && 0 <= k < |vars| && 0 <= t < |vars|
    requires SeenInv(vars, seen, k, t) && SoundInv(vars, m, out, k, t)
    ensures SoundInv(vars, m, NextOut(vars, m, seen, out, k, t), k, t + 1)
  {
    if Tested(vars, seen, k, t) {
      FirstMeeting(vars, k, t);
    }
  }

  lemma OrderStep(vars: seq<string>, m: Matrix, seen: set<set<string>>,
                  out: seq<StrongCorrelation>, k: int, t: int)
    requires Covers(m, vars) && 0 <= k < |vars| && 0 <= t < |vars|
    requires SeenInv(vars, seen, k, t) && SoundInv(vars, m, out, k, t) && Ordered(vars, out)
    ensures Ordered(vars, NextOut(vars, m, seen, out, k, t))
  {
    var out' := NextOut(vars, m, seen, out, k, t);
    if out' != out {
      FirstMeeting(vars, k, t);
      forall z1, z2 | 0 <= z1 < z2 < |out'|
        ensures RankedBefore(vars, out'[z1], out'[z2])
      {
        if z2 == |out| {
          assert out'[z1] in out;
        }
      }
    }
  }

  lemma CompleteStep(vars: seq<string>, m: Matrix, seen: set<set<string>>,
                     out: seq<StrongCorrelation>, k: int, t: int)
    requires Covers(m, vars) && 0 <= k < |vars| && 0 <= t < |vars|
    requires SeenInv(vars, seen, k, t) && CompleteInv(vars, m, out, k, t)
    ensures CompleteInv(vars, m, NextOut(vars, m, seen, out, k, t), k, t + 1)
  {
    var out' := NextOut(vars, m, seen, out, k, t);
    forall a, b | IsStrongPair(vars, m, a, b) && Before(Pos(vars, a), Pos(vars, b), k, t + 1)
      ensures StrongCorrelation(a, b, m[a][b].r) in out'
    {
      if !Before(Pos(vars, a), Pos(vars, b), k, t) {
        // (a, b) is first met exactly at (k, t).
        assert a == vars[k] && b == vars[t];
        assert !Met(vars, a, b, k, t);
      }
    }
  }

  /** At the end of an inner loop, (k, |vars|) and (k + 1, 0) are the same point. */
  lemma ScanWrap(vars: seq<string>, m: Matrix, seen: set<set<string>>,
                 out: seq<StrongCorrelation>, k: int)
    requires ScanInv(vars, m, seen, out, k, |vars|)
    ensures ScanInv(vars, m, seen, out, k + 1, 0)
  {
  }

  /** The invariant at the end of the outer loop is the specification. */
  lemma ScanDone(vars: seq<string>, m: Matrix, seen: set<set<string>>, out: seq<StrongCorrelation>)
    requires ScanInv(vars, m, seen, out, |vars|, 0)
    ensures StrongSpec(vars, m, out)
  {
  }

  /** The scan of app.py:70-84. `seen_pairs` records every unordered pair the
      first time it is met, strong or not; only then is its coefficient tested. */
  method StrongCorrelations(vars: seq<string>, m: Matrix) returns (out: seq<StrongCorrelation>)
    requires Covers(m, vars)
    ensures StrongSpec(vars, m, out)
  {
    out := [];
    var seen: set<set<string>> := {};
    var x := 0;
    while x < |vars|
      invariant 0 <= x <= |vars|
      invariant ScanInv(vars, m, seen, out, x, 0)
    {
      var y := 0;
      while y < |vars|
        invariant 0 <= y <= |vars|
        invariant ScanInv(vars, m, seen, out, x, y)
      {
        SeenStep(vars, seen, x, y);
        SoundStep(vars, m, seen, out, x, y);
        OrderStep(vars, m, seen, out, x, y);
        CompleteStep(vars, m, seen, out, x, y);
        ghost var seen', out' := NextSeen(vars, seen, x, y), NextOut(vars, m, seen, out, x, y);
        var i, j := vars[x], vars[y];
        if i != j {
          var sortedPair := PairKey(i, j);
          if sortedPair !in seen {
            var corrValue := m[i][j];
            if IsStrong(corrValue) {
              out := out + [StrongCorrelation(i, j, corrValue.r)];
            }
            seen := seen + {sortedPair};
          }
        }
        assert seen == seen' && out == out';
        y := y + 1;
      }
      ScanWrap(vars, m, seen, out, x);
      x := x + 1;
    }
    ScanDone(vars, m, seen, out);
  }

  /** No unordered pair is reported twice. */
  lemma NoRepeatedPair(vars: seq<string>, m: Matrix, out: seq<StrongCorrelation>)
    requires StrongSpec(vars, m, out)
    ensures forall z1, z2 :: 0 <= z1 < z2 < |out| ==>
              PairKey(out[z1].var1, out[z1].var2) != PairKey(out[z2].var1, out[z2].var2)
  {
    forall z1, z2 | 0 <= z1 < z2 < |out|
      ensures PairKey(out[z1].var1, out[z1].var2) != PairKey(out[z2].var1, out[z2].var2)
    {
      var e, f := out[z1], out[z2];
      assert e in out && f in out;
      PairKeyEq(e.var1, e.var2, f.var1, f.var2);
    }
  }

  /** Two lists in nested-loop order with the same entries are equal. */
  lemma {:induction false} OrderedUnique(vars: seq<string>, o1: seq<StrongCorrelation>, o2: seq<StrongCorrelation>)
    requires Ordered(vars, o1) && Ordered(vars, o2)
    requires forall e :: e in o1 <==> e in o2
    ensures o1 == o2
    decreases |o1|
  {
    assert o1 != [] ==> o1[0] in o2;
    assert o2 != [] ==> o2[0] in o1;
    if o1 == [] {
      assert o2 == [];
    } else {
      assert o1[0] in o2;
      var j :| 0 <= j < |o2| && o2[j] == o1[0];
      assert o2[0] in o1;
      var i :| 0 <= i < |o1| && o1[i] == o2[0];
      assert j == 0;
      forall e
        ensures e in o1[1..] <==> e in o2[1..]
      {
        if e in o1[1..] {
          var z :| 1 <= z < |o1| && o1[z] == e;
          assert RankedBefore(vars, o1[0], o1[z]);
          assert e in o2;
          var w :| 0 <= w < |o2| && o2[w] == e;
          assert w != 0;
          assert o2[1..][w - 1] == e;
        }
        if e in o2[1..] {
          var z :| 1 <= z < |o2| && o2[z] == e;
          assert RankedBefore(vars, o2[0], o2[z]);
          assert e in o1;
          var w :| 0 <= w < |o1| && o1[w] == e;
          assert w != 0;
          assert o1[1..][w - 1] == e;
        }
      }
      OrderedUnique(vars, o1[1..], o2[1..]);
    }
  }

  /** The specification determines `strong_correlations` completely. */
  lemma StrongSpecUnique(vars: seq<string>, m: Matrix, o1: seq<StrongCorrelation>, o2: seq<StrongCorrelation>)
    requires StrongSpec(vars, m, o1) && StrongSpec(vars, m, o2)
    ensures o1 == o2
  {
    forall e
      ensures e in o1 <==> e in o2
    {
      if e in o1 {
        assert Reported(vars, m, e);
        assert e == StrongCorrelation(e.var1, e.var2, m[e.var1][e.var2].r);
      }
      if e in o2 {
        assert Reported(vars, m, e);
        assert e == StrongCorrelation(e.var1, e.var2, m[e.var1][e.var2].r);
      }
    }
    OrderedUnique(vars, o1, o2);
  }

  /** Only the orientation met first is ever tested: two matrices that agree
      on `[a][b]` whenever `a` is listed before `b` give the same list, whatever
      they hold for the reverse orientation. */
  lemma ReverseOrientationNeverTested(vars: seq<string>, m1: Matrix, m2: Matrix, out: seq<StrongCorrelation>)
    requires Covers(m1, vars) && Covers(m2, vars)
    requires forall a, b :: a in vars && b in vars && Pos(vars, a) < Pos(vars, b) ==> m1[a][b] == m2[a][b]
    requires StrongSpec(vars, m1, out)
    ensures StrongSpec(vars, m2, out)
  {
    forall a, b
      ensures IsStrongPair(vars, m1, a, b) <==> IsStrongPair(vars, m2, a, b)
    {
    }
    forall e | e in out
      ensures Reported(vars, m2, e)
    {
      assert Reported(vars, m1, e);
    }
  }
}
