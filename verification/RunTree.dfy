/**
 Run trees: parent links form a forest, no live run has an ended parent, every run
 names the top of its tree, and what a cascade or a hold reaches.
 */
module RunTree {
  import opened Options
  import opened Runs

  // ── the forest ────────────────────────────────────────────────────────────

  /** `n` parent links lead from `x` to a root. */
  ghost predicate Rooted(runs: Rows, x: Id, n: nat)
    decreases n
  {
    && x in runs
    && if n == 0 then ParentOf(runs[x]).None?
       else ParentOf(runs[x]).Some? && Rooted(runs, ParentOf(runs[x]).value, n - 1)
  }

  ghost predicate HasRoot(runs: Rows, x: Id) {
    exists n: nat :: Rooted(runs, x, n)
  }

  ghost predicate Forest(runs: Rows) {
    forall x {:trigger HasRoot(runs, x)} :: x in runs ==> HasRoot(runs, x)
  }

  ghost predicate LiveParents(runs: Rows) {
    forall x {:trigger LiveParent(runs, x)} :: x in runs && Live(runs[x]) ==> LiveParent(runs, x)
  }

  ghost predicate LiveParent(runs: Rows, x: Id)
    requires x in runs
  {
    ParentOf(runs[x]).Some? ==> ParentOf(runs[x]).value in runs && Live(runs[ParentOf(runs[x]).value])
  }

  /** A run without parent is its own root; a child has its parent's. */
  ghost predicate RootsOk(runs: Rows) {
    forall x {:trigger RootOk(runs, x)} :: x in runs ==> RootOk(runs, x)
  }

  ghost predicate RootOk(runs: Rows, x: Id)
    requires x in runs
  {
    && IdOf(runs[x]) == x
    && match ParentOf(runs[x])
       case None => runs[x].origin.root.None?
       case Some(p) => p in runs && runs[x].origin.root == Some(RootOf(runs[p]))
  }

  ghost predicate TreeOk(runs: Rows) {
    Forest(runs) && LiveParents(runs) && RootsOk(runs)
  }

  lemma {:induction false} ClimbDepth(runs: Rows, x: Id, y: Id, m: nat, n: nat)
    requires Climbs(runs, x, y, m) && Rooted(runs, x, n)
    ensures m <= n && Rooted(runs, y, n - m)
    decreases m
  {
    if m > 0 {
      if n == 0 {
        assert false;
      }
      ClimbDepth(runs, ParentOf(runs[x]).value, y, m - 1, n - 1);
    }
  }

  lemma {:induction false} DepthUnique(runs: Rows, x: Id, m: nat, n: nat)
    requires Rooted(runs, x, m) && Rooted(runs, x, n)
    ensures m == n
    decreases m
  {
    if m > 0 && n > 0 {
      DepthUnique(runs, ParentOf(runs[x]).value, m - 1, n - 1);
    }
  }

  /** No run is its own ancestor. */
  lemma NoCycle(runs: Rows, x: Id, m: nat)
    requires Forest(runs) && x in runs && Climbs(runs, x, x, m)
    ensures m == 0
  {
    assert HasRoot(runs, x);
    var n: nat :| Rooted(runs, x, n);
    ClimbDepth(runs, x, x, m, n);
    DepthUnique(runs, x, n, n - m);
  }

  lemma UnderParent(runs: Rows, x: Id, top: Id)
    requires x in runs && ParentOf(runs[x]).Some? && Under(runs, ParentOf(runs[x]).value, top)
    ensures Under(runs, x, top)
  {
    var n: nat :| Climbs(runs, ParentOf(runs[x]).value, top, n);
    assert Climbs(runs, x, top, n + 1);
  }

  lemma UnderSelf(runs: Rows, x: Id)
    ensures Under(runs, x, x)
  {
    assert Climbs(runs, x, x, 0);
  }

  /** A parent of `top` is not below it. */
  lemma ParentNotUnder(runs: Rows, top: Id)
    requires Forest(runs) && top in runs && ParentOf(runs[top]).Some?
    ensures !Under(runs, ParentOf(runs[top]).value, top)
  {
    var p := ParentOf(runs[top]).value;
    forall n: nat ensures !Climbs(runs, p, top, n) {
      if Climbs(runs, p, top, n) {
        assert Climbs(runs, top, top, n + 1);
        NoCycle(runs, top, n + 1);
      }
    }
  }

  lemma {:induction false} LiveAbove(runs: Rows, x: Id, y: Id, n: nat)
    requires LiveParents(runs) && x in runs && Live(runs[x]) && Climbs(runs, x, y, n)
    ensures y in runs && Live(runs[y])
    decreases n
  {
    if n > 0 {
      assert LiveParent(runs, x);
      LiveAbove(runs, ParentOf(runs[x]).value, y, n - 1);
    }
  }

  lemma {:induction false} TopOf(runs: Rows, x: Id, n: nat)
    requires RootsOk(runs) && Rooted(runs, x, n)
    ensures var top := RootOf(runs[x]);
            Climbs(runs, x, top, n) && top in runs && runs[top].origin.root.None? && RootOf(runs[top]) == top
    decreases n
  {
    assert RootOk(runs, x);
    if n > 0 {
      TopOf(runs, ParentOf(runs[x]).value, n - 1);
    } else {
      assert Climbs(runs, x, x, 0);
    }
  }

  /** The root a live run spends from is a live run without parent above it. */
  lemma LiveRoot(runs: Rows, x: Id)
    requires TreeOk(runs) && x in runs && Live(runs[x])
    ensures var top := RootOf(runs[x]);
            top in runs && Live(runs[top]) && runs[top].origin.root.None? && Under(runs, x, top)
  {
    assert HasRoot(runs, x);
    var n: nat :| Rooted(runs, x, n);
    TopOf(runs, x, n);
    LiveAbove(runs, x, RootOf(runs[x]), n);
  }

  // ── growth ────────────────────────────────────────────────────────────────

  ghost predicate SameOrigins(a: Rows, b: Rows) {
    a.Keys <= b.Keys && forall x :: x in a ==> b[x].origin == a[x].origin
  }

  lemma {:induction false} RootedKept(a: Rows, b: Rows, x: Id, n: nat)
    requires SameOrigins(a, b) && Rooted(a, x, n)
    ensures Rooted(b, x, n)
    decreases n
  {
    if n > 0 {
      RootedKept(a, b, ParentOf(a[x]).value, n - 1);
    }
  }

  lemma {:induction false} ClimbsKept(a: Rows, b: Rows, x: Id, y: Id, n: nat)
    requires SameOrigins(a, b) && x in a && Forest(a)
    ensures Climbs(a, x, y, n) <==> Climbs(b, x, y, n)
    decreases n
  {
    if n > 0 && ParentOf(a[x]).Some? {
      ParentStored(a, x);
      ClimbsKept(a, b, ParentOf(a[x]).value, y, n - 1);
    }
  }

  lemma ParentStored(runs: Rows, x: Id)
    requires Forest(runs) && x in runs && ParentOf(runs[x]).Some?
    ensures ParentOf(runs[x]).value in runs
  {
    assert HasRoot(runs, x);
    var n: nat :| Rooted(runs, x, n);
    assert Rooted(runs, ParentOf(runs[x]).value, n - 1);
  }

  lemma UnderKept(a: Rows, b: Rows, x: Id, y: Id)
    requires SameOrigins(a, b) && x in a && Forest(a)
    ensures Under(a, x, y) <==> Under(b, x, y)
  {
    forall n: nat ensures Climbs(a, x, y, n) <==> Climbs(b, x, y, n) {
      ClimbsKept(a, b, x, y, n);
    }
  }

  /** Rows keep their place in the forest, and a new one hangs below a stored one. */
  ghost predicate Grafts(a: Rows, b: Rows) {
    && SameOrigins(a, b)
    && forall x :: x in b && x !in a ==> Grafted(a, b[x], x)
  }

  ghost predicate Grafted(a: Rows, r: Run, x: Id) {
    && IdOf(r) == x
    && match ParentOf(r)
       case None => r.origin.root.None?
       case Some(p) => p in a && r.origin.root == Some(RootOf(a[p])) && (Live(r) ==> Live(a[p]))
  }

  lemma ForestKept(a: Rows, b: Rows)
    requires Forest(a) && Grafts(a, b)
    ensures Forest(b)
  {
    forall x | x in b ensures HasRoot(b, x) {
      if x in a {
        assert HasRoot(a, x);
        var n: nat :| Rooted(a, x, n);
        RootedKept(a, b, x, n);
      } else {
        assert Grafted(a, b[x], x);
        if ParentOf(b[x]).Some? {
          var p := ParentOf(b[x]).value;
          assert HasRoot(a, p);
          var n: nat :| Rooted(a, p, n);
          RootedKept(a, b, p, n);
          assert Rooted(b, x, n + 1);
        } else {
          assert Rooted(b, x, 0);
        }
      }
    }
  }

  lemma RootsKept(a: Rows, b: Rows)
    requires RootsOk(a) && Grafts(a, b)
    ensures RootsOk(b)
  {
    forall x | x in b ensures RootOk(b, x) {
      if x in a {
        assert RootOk(a, x);
      } else {
        assert Grafted(a, b[x], x);
      }
    }
  }

  /** Stored rows neither end nor revive. */
  ghost predicate SameLives(a: Rows, b: Rows) {
    a.Keys <= b.Keys && forall x :: x in a ==> Live(b[x]) == Live(a[x])
  }

  lemma LivesKept(a: Rows, b: Rows)
    requires LiveParents(a) && Grafts(a, b) && SameLives(a, b)
    ensures LiveParents(b)
  {
    forall x | x in b && Live(b[x]) ensures LiveParent(b, x) {
      if x in a {
        assert LiveParent(a, x);
      } else {
        assert Grafted(a, b[x], x);
      }
    }
  }

  lemma TreeKept(a: Rows, b: Rows)
    requires TreeOk(a) && Grafts(a, b) && SameLives(a, b)
    ensures TreeOk(b)
  {
    ForestKept(a, b);
    RootsKept(a, b);
    LivesKept(a, b);
  }

  // ── the end of a subtree ──────────────────────────────────────────────────

  /** Ending a run with its live descendants leaves no live run under an ended one. */
  lemma EndTreeLives(a: Rows, id: Id, status: Status, spent: nat, now: int, b: Rows)
    requires LiveParents(a) && id in a && b == EndTree(a, id, status, spent, now)
    ensures LiveParents(b)
  {
    forall x | x in b && Live(b[x]) ensures LiveParent(b, x) {
      assert b[x] == a[x] && LiveParent(a, x);
      if ParentOf(a[x]).Some? {
        var p := ParentOf(a[x]).value;
        if p == id {
          UnderSelf(a, id);
        }
        assert Under(a, p, id) ==> Under(a, x, id) by {
          if Under(a, p, id) {
            UnderParent(a, x, id);
          }
        }
      }
    }
  }

  lemma EndTreeKeeps(a: Rows, id: Id, status: Status, spent: nat, now: int, b: Rows)
    requires TreeOk(a) && id in a && b == EndTree(a, id, status, spent, now)
    ensures TreeOk(b)
  {
    assert Grafts(a, b);
    ForestKept(a, b);
    RootsKept(a, b);
    EndTreeLives(a, id, status, spent, now, b);
  }

  /** A set of runs closed under live children, holding only `id` and live runs below
      it, is exactly what ends with `id`. */
  lemma {:induction false} ClosedReaches(a: Rows, id: Id, s: set<Id>, x: Id, n: nat)
    requires LiveParents(a) && id in s
    requires forall c :: c in a && Live(a[c]) && ParentOf(a[c]).Some? && ParentOf(a[c]).value in s ==> c in s
    requires x in a && Live(a[x]) && Climbs(a, x, id, n)
    ensures x in s
    decreases n
  {
    if n > 0 {
      assert LiveParent(a, x);
      ClosedReaches(a, id, s, ParentOf(a[x]).value, n - 1);
    }
  }

  lemma ClosedIsSubtree(a: Rows, id: Id, s: set<Id>)
    requires LiveParents(a) && id in s && id in a
    requires forall x :: x in s ==> EndsWith(a, x, id)
    requires forall c :: c in a && Live(a[c]) && ParentOf(a[c]).Some? && ParentOf(a[c]).value in s ==> c in s
    ensures forall x :: x in s <==> EndsWith(a, x, id)
  {
    forall x | EndsWith(a, x, id) ensures x in s {
      if x != id {
        var n: nat :| Climbs(a, x, id, n);
        ClosedReaches(a, id, s, x, n);
      }
    }
  }

  // ── holds ─────────────────────────────────────────────────────────────────

  /** Releasing what a hold of an unheld subtree froze restores every row. */
  lemma HoldThenRelease(a: Rows, id: Id, hold: Hold)
    requires Forest(a)
    requires forall x :: x in a && Live(a[x]) && Under(a, x, id) ==> a[x].life.held.None?
    ensures HoldTree(HoldTree(a, id, Some(hold)), id, None) == a
  {
    var b := HoldTree(a, id, Some(hold));
    assert SameOrigins(a, b);
    forall x | x in a ensures HoldTree(b, id, None)[x] == a[x] {
      UnderKept(a, b, x, id);
    }
  }

  /** The hold reaches exactly the runs the end of `id` would end. */
  lemma HoldReach(a: Rows, id: Id, hold: Hold, x: Id)
    requires Forest(a) && id in a && Live(a[id]) && x in a && a[x].life.held.None?
    ensures HoldTree(a, id, Some(hold))[x].life.held == Some(hold) <==> EndsWith(a, x, id)
  {
    UnderSelf(a, id);
  }
}
