/**
 * Properties of `states`: it lists every in-grid state exactly once, in the
 * deterministic order of `itertools.product` (x, then y, then the gold flag
 * True before False, then the immunity flag True before False).
 */
module StateEnumeration {
  import opened WumpusWorld

  /** Position of a flag combination in the order `(True, False) x (True, False)`. */
  function FlagRank(s: State): nat {
    (if s.hasGold then 0 else 2) + (if s.hasImmunity then 0 else 1)
  }

  /** `s` comes strictly before `t` in product order. */
  predicate Precedes(s: State, t: State) {
    s.x < t.x || (s.x == t.x && (s.y < t.y || (s.y == t.y && FlagRank(s) < FlagRank(t))))
  }

  predicate StrictlyOrdered(q: seq<State>) {
    forall i, j :: 0 <= i < j < |q| ==> Precedes(q[i], q[j])
  }

  lemma OrderedAppend(a: seq<State>, b: seq<State>)
    requires StrictlyOrdered(a) && StrictlyOrdered(b)
    requires forall s, t :: s in a && t in b ==> Precedes(s, t)
    ensures StrictlyOrdered(a + b)
  {
    forall i, j | 0 <= i < j < |a + b| ensures Precedes((a + b)[i], (a + b)[j]) {
      if j < |a| {
        assert (a + b)[i] == a[i] && (a + b)[j] == a[j];
      } else if i < |a| {
        assert (a + b)[i] == a[i] && (a + b)[j] == b[j - |a|];
        assert a[i] in a && b[j - |a|] in b;
      } else {
        assert (a + b)[i] == b[i - |a|] && (a + b)[j] == b[j - |a|];
      }
    }
  }

  lemma FlagsAtFacts(x: int, y: int)
    ensures forall s {:trigger s in FlagsAt(x, y)} :: s in FlagsAt(x, y) <==> s.x == x && s.y == y
    ensures StrictlyOrdered(FlagsAt(x, y))
  {
    forall s: State | s.x == x && s.y == y ensures s in FlagsAt(x, y) {
      assert s == FlagsAt(x, y)[FlagRank(s)];
    }
  }

  lemma {:induction false} ColumnFacts(x: int, n: nat)
    ensures |Column(x, n)| == 4 * n
    ensures forall s {:trigger s in Column(x, n)} :: s in Column(x, n) <==> s.x == x && 0 <= s.y < n
    ensures StrictlyOrdered(Column(x, n))
  {
    if n > 0 {
      ColumnFacts(x, n - 1);
      FlagsAtFacts(x, n - 1);
      OrderedAppend(Column(x, n - 1), FlagsAt(x, n - 1));
    }
  }

  lemma {:induction false} GridLength(n: nat, h: nat)
    ensures |Grid(n, h)| == n * h * 4
  {
    if n > 0 {
      GridLength(n - 1, h);
      ColumnFacts(n - 1, h);
      assert |Grid(n, h)| == (n - 1) * h * 4 + 4 * h;
      assert (n - 1) * h * 4 + 4 * h == n * h * 4 by {
        assert (n - 1) * h == n * h - h;
      }
    }
  }

  lemma {:induction false} GridMembers(n: nat, h: nat)
    ensures forall s {:trigger s in Grid(n, h)} :: s in Grid(n, h) <==> 0 <= s.x < n && 0 <= s.y < h
  {
    if n > 0 {
      GridMembers(n - 1, h);
      ColumnFacts(n - 1, h);
    }
  }

  lemma {:induction false} GridOrdered(n: nat, h: nat)
    ensures StrictlyOrdered(Grid(n, h))
  {
    if n > 0 {
      GridOrdered(n - 1, h);
      GridMembers(n - 1, h);
      ColumnFacts(n - 1, h);
      OrderedAppend(Grid(n - 1, h), Column(n - 1, h));
    }
  }

  /** `states` yields exactly width * height * 2 * 2 tuples. */
  lemma StatesCount(w: World)
    ensures |States(w)| == w.width * w.height * 2 * 2
  {
    GridLength(w.width, w.height);
  }

  /** A state is enumerated exactly when its position lies in [0, width) x [0, height); every flag combination appears at every cell. */
  lemma StatesExactlyTheGrid(w: World)
    ensures forall s :: s in States(w) <==> InGrid(w, s)
  {
    GridMembers(w.width, w.height);
  }

  /** The enumeration is in product order, so no tuple appears twice. */
  lemma StatesInProductOrder(w: World)
    ensures StrictlyOrdered(States(w))
    ensures forall i, j :: 0 <= i < j < |States(w)| ==> States(w)[i] != States(w)[j]
  {
    GridOrdered(w.width, w.height);
  }
}
