/** The per-host script sets of a run: setup scripts kept as an insertion-ordered set
    without duplicates, run scripts kept as an unordered set. */
module HostScriptSets {
  import opened Model

  /** Adding to an insertion-ordered set: an element already present stays where it is,
      a new one goes to the end. */
  function Insert<T(==,!new)>(xs: seq<T>, x: T): (r: seq<T>)
    ensures xs <= r && |r| <= |xs| + 1
    ensures forall y :: y in r <==> y in xs || y == x
    ensures Distinct(xs) ==> Distinct(r)
  {
    if x in xs then xs else xs + [x]
  }

  /** Removing from an insertion-ordered set: x is gone, everything else keeps its order. */
  function Without<T(==,!new)>(xs: seq<T>, x: T): (r: seq<T>)
    ensures forall y :: y in r <==> y in xs && y != x
    ensures |r| <= |xs|
  {
    if xs == [] then []
    else if xs[0] == x then Without(xs[1..], x)
    else [xs[0]] + Without(xs[1..], x)
  }

  lemma {:induction false} WithoutKeepsDistinct<T(!new)>(xs: seq<T>, x: T)
    requires Distinct(xs)
    ensures Distinct(Without(xs, x))
  {
    if xs != [] {
      assert Distinct(xs[1..]) by {
        forall i, j | 0 <= i < j < |xs[1..]| ensures xs[1..][i] != xs[1..][j] {
          assert xs[1..][i] == xs[i + 1] && xs[1..][j] == xs[j + 1];
        }
      }
      WithoutKeepsDistinct(xs[1..], x);
      if xs[0] != x {
        assert xs[0] !in xs[1..];
        assert xs[0] !in Without(xs[1..], x);
      }
    }
  }

  /** Taking out what is absent changes nothing. */
  lemma {:induction false} WithoutAbsent<T(!new)>(xs: seq<T>, x: T)
    requires x !in xs
    ensures Without(xs, x) == xs
  {
    if xs != [] {
      WithoutAbsent(xs[1..], x);
      assert [xs[0]] + xs[1..] == xs;
    }
  }

  /** In a duplicate-free list, removing the element at index i leaves the elements
      before it and the elements after it, each part in its order. */
  lemma {:induction false} WithoutRemovesAt<T(!new)>(xs: seq<T>, x: T, i: nat)
    requires Distinct(xs)
    requires i < |xs| && xs[i] == x
    ensures Without(xs, x) == xs[..i] + xs[i + 1..]
  {
    if i == 0 {
      assert x !in xs[1..] by {
        forall k | 0 <= k < |xs[1..]| ensures xs[1..][k] != x {
          assert xs[1..][k] == xs[k + 1];
        }
      }
      WithoutAbsent(xs[1..], x);
    } else {
      assert xs[0] != x;
      assert Distinct(xs[1..]) by {
        forall a, b | 0 <= a < b < |xs[1..]| ensures xs[1..][a] != xs[1..][b] {
          assert xs[1..][a] == xs[a + 1] && xs[1..][b] == xs[b + 1];
        }
      }
      WithoutRemovesAt(xs[1..], x, i - 1);
      assert xs[..i] == [xs[0]] + xs[1..][..i - 1];
      assert xs[i + 1..] == xs[1..][i..];
    }
  }

  /** Adding a new element and removing it again gives back the original order. */
  lemma {:induction false} WithoutUndoesInsert<T(!new)>(xs: seq<T>, x: T)
    requires x !in xs
    ensures Without(Insert(xs, x), x) == xs
  {
    if xs == [] {
      assert Insert(xs, x) == [x];
      assert [x][1..] == [];
    } else {
      var ys := Insert(xs, x);
      assert ys == xs + [x];
      assert ys[0] == xs[0] && ys[1..] == xs[1..] + [x];
      assert x !in xs[1..];
      WithoutUndoesInsert(xs[1..], x);
      assert Insert(xs[1..], x) == xs[1..] + [x];
      assert [xs[0]] + xs[1..] == xs;
    }
  }

  /** The scripts scheduled on one host. */
  class HostScripts {
    /** The host these sets belong to; every host has its own. */
    ghost const owner: Host
    var setup: seq<Script>
    var run: set<Script>

    ghost predicate Valid()
      reads this
    {
      Distinct(setup)
    }

    constructor (ghost owner: Host)
      ensures Valid()
      ensures this.owner == owner && setup == [] && run == {}
    {
      this.owner := owner;
      setup := [];
      run := {};
    }

    method AddRunScript(script: Script)
      modifies this`run
      ensures run == old(run) + {script}
    {
      run := run + {script};
    }

    method RemoveRunScript(script: Script)
      modifies this`run
      ensures run == old(run) - {script}
    {
      run := run - {script};
    }

    method AddSetupScript(script: Script)
      requires Valid()
      modifies this`setup
      ensures Valid()
      ensures setup == Insert(old(setup), script)
    {
      if script !in setup {
        setup := setup + [script];
      }
    }

    method RemoveSetupScript(script: Script)
      requires Valid()
      modifies this`setup
      ensures Valid()
      ensures setup == Without(old(setup), script)
    {
      WithoutKeepsDistinct(setup, script);
      setup := Without(setup, script);
    }

    /** The setup scripts in first-insertion order. */
    method SetupScripts() returns (r: seq<Script>)
      requires Valid()
      ensures Distinct(r)
      ensures r == setup
    {
      r := setup;
    }

    /** The run scripts, each once, in an unspecified order. */
    method RunScripts() returns (r: seq<Script>)
      ensures Distinct(r)
      ensures forall s :: s in r <==> s in run
    {
      r := Enumerate(run);
    }
  }
}
