/**
 * The table of control-chart coefficients keyed by subgroup size, and the
 * nearest-size fallback used for sizes the table does not list.
 */
module ControlConstants {

  /** One row of the table. */
  datatype Coefficients = Coefficients(
    a2: real, d3: real, d4: real, d2: real,
    a3: real, b3: real, b4: real, c4: real)

  /** The static table, keyed by subgroup size (2 to 12, 15, 20 and 25). */
  const Table: map<int, Coefficients> := map[
    2 := Coefficients(1.880, 0.0, 3.267, 1.128, 2.659, 0.0, 3.267, 0.7979),
    3 := Coefficients(1.023, 0.0, 2.574, 1.693, 1.954, 0.0, 2.568, 0.8862),
    4 := Coefficients(0.729, 0.0, 2.282, 2.059, 1.628, 0.0, 2.266, 0.9213),
    5 := Coefficients(0.577, 0.0, 2.114, 2.326, 1.427, 0.0, 2.089, 0.9400),
    6 := Coefficients(0.483, 0.0, 2.004, 2.534, 1.287, 0.030, 1.970, 0.9515),
    7 := Coefficients(0.419, 0.076, 1.924, 2.704, 1.182, 0.118, 1.882, 0.9594),
    8 := Coefficients(0.373, 0.136, 1.864, 2.847, 1.099, 0.185, 1.815, 0.9650),
    9 := Coefficients(0.337, 0.184, 1.816, 2.970, 1.032, 0.239, 1.761, 0.9693),
    10 := Coefficients(0.308, 0.223, 1.777, 3.078, 0.975, 0.284, 1.716, 0.9727),
    11 := Coefficients(0.285, 0.256, 1.744, 3.173, 0.927, 0.321, 1.679, 0.9754),
    12 := Coefficients(0.266, 0.283, 1.717, 3.258, 0.886, 0.354, 1.646, 0.9776),
    15 := Coefficients(0.223, 0.348, 1.652, 3.472, 0.789, 0.428, 1.572, 0.9823),
    20 := Coefficients(0.180, 0.414, 1.586, 3.735, 0.680, 0.510, 1.490, 0.9869),
    25 := Coefficients(0.153, 0.459, 1.541, 3.931, 0.606, 0.565, 1.435, 0.9896)
  ]

  /** The table's keys in ascending order (sorted(CONTROL_CHART_CONSTANTS.keys())). */
  const SortedKeys: seq<int> := [2, 3, 4, 5, 6, 7, 8, 9, 10, 11, 12, 15, 20, 25]

  predicate Ascending(keys: seq<int>)
  {
    forall i, j :: 0 <= i < j < |keys| ==> keys[i] < keys[j]
  }

  /** The coefficient facts the limit formulas rely on. */
  predicate WellFormed(c: Coefficients)
  {
    && c.a2 > 0.0 && c.a3 > 0.0 && c.d2 > 0.0 && c.c4 > 0.0
    && 0.0 <= c.d3 <= 1.0 <= c.d4
    && 0.0 <= c.b3 <= 1.0 <= c.b4
  }

  lemma SortedKeysAreTheTableKeys()
    ensures Ascending(SortedKeys)
    ensures forall k :: k in Table <==> k in SortedKeys
  {
  }

  /** Every row of the table satisfies the facts the limit formulas need. */
  lemma TableWellFormed(k: int)
    requires k in Table
    ensures WellFormed(Table[k])
  {
  }

  function Distance(k: int, n: int): nat
  {
    if k >= n then k - n else n - k
  }

  /**
   * Python's min(keys, key=lambda x: abs(x - n)): a scan from the left that
   * replaces the running best only by a strictly closer key, so the first
   * key at minimum distance wins.
   */
  function Nearest(keys: seq<int>, n: int): (k: int)
    requires |keys| > 0
    ensures k in keys
    ensures forall j :: 0 <= j < |keys| ==> Distance(k, n) <= Distance(keys[j], n)
  {
    if |keys| == 1 then keys[0]
    else
      var best := Nearest(keys[..|keys| - 1], n);
      var last := keys[|keys| - 1];
      if Distance(last, n) < Distance(best, n) then last else best
  }

  /** The key Nearest picks is the first one at the minimum distance. */
  lemma {:induction false} NearestIsFirstMinimum(keys: seq<int>, n: int, j: nat)
    requires |keys| > 0 && j < |keys|
    requires Distance(keys[j], n) == Distance(Nearest(keys, n), n)
    ensures exists i :: 0 <= i <= j && keys[i] == Nearest(keys, n)
  {
    if |keys| > 1 {
      var p := keys[..|keys| - 1];
      var best := Nearest(p, n);
      var last := keys[|keys| - 1];
      if Distance(last, n) < Distance(best, n) {
        // keys[j] is as close as last; last is strictly closer than every key of p
        assert forall i :: 0 <= i < |keys| - 1 ==> Distance(best, n) <= Distance(keys[i], n) by {
          forall i | 0 <= i < |keys| - 1 ensures Distance(best, n) <= Distance(keys[i], n) {
            assert p[i] == keys[i];
          }
        }
        assert keys[|keys| - 1] == Nearest(keys, n);
      } else if j < |keys| - 1 {
        assert p[j] == keys[j];
        NearestIsFirstMinimum(p, n, j);
        var i :| 0 <= i <= j && p[i] == best;
        assert keys[i] == Nearest(keys, n);
      } else {
        assert best in p;
        var i :| 0 <= i < |p| && p[i] == best;
        assert keys[i] == Nearest(keys, n);
      }
    }
  }

  /** In an ascending key list, a tie between two keys goes to the smaller one. */
  lemma NearestBreaksTiesDownward(keys: seq<int>, n: int, k: int)
    requires |keys| > 0 && Ascending(keys)
    requires k in keys && Distance(k, n) == Distance(Nearest(keys, n), n)
    ensures Nearest(keys, n) <= k
  {
    var j :| 0 <= j < |keys| && keys[j] == k;
    NearestIsFirstMinimum(keys, n, j);
  }

  /**
   * The size whose coefficients are used for subgroups of width n: n itself
   * when the table lists it, otherwise the nearest listed size.
   */
  function ResolveSize(n: int): (k: int)
    ensures k in Table
    ensures n in Table ==> k == n
    ensures forall key :: key in Table ==> Distance(k, n) <= Distance(key, n)
    ensures forall key :: key in Table && Distance(key, n) == Distance(k, n) ==> k <= key
  {
    SortedKeysAreTheTableKeys();
    if n in Table then n
    else
      var k := Nearest(SortedKeys, n);
      forall key | key in Table && Distance(key, n) == Distance(k, n)
        ensures k <= key
      {
        NearestBreaksTiesDownward(SortedKeys, n, key);
      }
      k
  }

  /** Sizes below the table map to its smallest key and sizes above it to its largest. */
  lemma ResolveSizeClamps(n: int)
    ensures n <= 2 ==> ResolveSize(n) == 2
    ensures n >= 25 ==> ResolveSize(n) == 25
  {
    SortedKeysAreTheTableKeys();
    var k := ResolveSize(n);
    if n <= 2 {
      assert Distance(k, n) <= Distance(2, n);
    }
    if n >= 25 {
      assert Distance(k, n) <= Distance(25, n);
    }
  }

  /** Coefficients used for subgroups of width n. */
  function Lookup(n: int): (c: Coefficients)
    ensures WellFormed(c)
  {
    TableWellFormed(ResolveSize(n));
    Table[ResolveSize(n)]
  }
}
