/** One pass of `cleanupDeletedDirs` (internal/client/sync.go) reaches its fixpoint, whatever the order among
    paths of one length. */
module DirectoryCleanup {
  import opened Paths
  import opened LocalFiles

  /** Nothing but members of `dirs` stands below `p`, itself one. */
  predicate Emptied(t: Tree, dirs: set<string>, p: string) {
    p in dirs && forall q | q in t && Under(q, p) :: q in dirs
  }

  /** The tree without the members of `dirs` that hold nothing else. */
  function Cleaned(t: Tree, dirs: set<string>): Tree { CleanedAmong(t, dirs, dirs) }

  /** The pass so far: `tried` were tried. */
  function CleanedAmong(t: Tree, dirs: set<string>, tried: set<string>): Tree {
    map p | p in t && !(p in tried && Emptied(t, dirs, p)) :: t[p]
  }

  /** `os.Remove` fails at `p`, other than for want of a file or because a directory is not empty. */
  predicate Stuck(t: Tree, p: string) { p !in t && BlockedAbove(t, p) }

  /** One more directory, all longer paths having been tried. */
  lemma CleanOne(t: Tree, dirs: set<string>, tried: set<string>, p: string)
    requires WellFormed(t) && p in dirs && tried <= dirs && p !in tried
    requires forall q | q in dirs && |q| > |p| :: q in tried
    requires forall q | q in tried :: |q| >= |p|
    ensures var (t', removed) := Remove(CleanedAmong(t, dirs, tried), p);
            t' == (if Stuck(t, p) then CleanedAmong(t, dirs, tried) else CleanedAmong(t, dirs, tried + {p}))
            && (removed.Failed? <==> Stuck(t, p))
  {
  }

  function RemoveEach(t: Tree, order: seq<string>): (Tree, bool) {
    if order == [] then (t, true)
    else
      var (t1, removed) := Remove(t, order[0]);
      if removed.Failed? then (t1, false) else RemoveEach(t1, order[1..])
  }

  predicate LongestFirst(order: seq<string>) {
    forall i, j | 0 <= i < j < |order| :: |order[i]| >= |order[j]| && order[i] != order[j]
  }

  function SetOf(order: seq<string>): set<string> { set p | p in order }

  /** What an order says about its directory number `k`, those before it and those after it. */
  lemma NextInOrder(order: seq<string>, k: nat)
    requires LongestFirst(order) && k < |order|
    ensures order[k..][0] == order[k] && order[k..][1..] == order[k + 1..]
    ensures SetOf(order[..k + 1]) == SetOf(order[..k]) + {order[k]}
    ensures var p, tried := order[k], SetOf(order[..k]);
            p in SetOf(order) && tried <= SetOf(order) && p !in tried
            && (forall q | q in SetOf(order) && |q| > |p| :: q in tried) && forall q | q in tried :: |q| >= |p|
  {
    assert order[..k + 1] == order[..k] + [order[k]];
    forall q | q in SetOf(order) && |q| > |order[k]| ensures q in SetOf(order[..k]) {
      var i :| 0 <= i < |order| && order[i] == q;
      assert i < k && order[..k][i] == q;
    }
  }

  /** Over the rest of an order whose first `k` were tried. */
  lemma {:induction false} RemoveRest(t: Tree, order: seq<string>, k: nat)
    requires WellFormed(t) && LongestFirst(order) && k <= |order|
    ensures var (t', done) := RemoveEach(CleanedAmong(t, SetOf(order), SetOf(order[..k])), order[k..]);
            (done <==> forall i | k <= i < |order| :: !Stuck(t, order[i]))
            && (done ==> t' == Cleaned(t, SetOf(order)))
    decreases |order| - k
  {
    hide CleanedAmong, Stuck, WellFormed, Remove, SetOf, LongestFirst;
    if k < |order| {
      NextInOrder(order, k);
      CleanOne(t, SetOf(order), SetOf(order[..k]), order[k]);
      RemoveRest(t, order, k + 1);
    } else {
      assert order[..k] == order && order[k..] == [];
    }
  }

  /** Removing directories longest path first, in any such order, succeeds exactly when none of them is cut off
      by a regular file above it, and then leaves of them just those below which something else stands. */
  lemma AnyOrderCleans(t: Tree, order: seq<string>)
    requires WellFormed(t) && LongestFirst(order)
    ensures var (t', done) := RemoveEach(t, order);
            (done <==> forall i | 0 <= i < |order| :: !Stuck(t, order[i]))
            && (done ==> t' == Cleaned(t, SetOf(order)))
  {
    RemoveRest(t, order, 0);
    assert order[0..] == order;
    assert CleanedAmong(t, SetOf(order), SetOf(order[..0])) == t;
  }

  /** A directory of the set is left exactly when something below it is not of the set. */
  lemma LeftStanding(t: Tree, dirs: set<string>, p: string)
    requires p in dirs && p in t
    ensures p in Cleaned(t, dirs) <==> exists q :: q in Cleaned(t, dirs) && Under(q, p) && q !in dirs
  {
  }

  /** A second pass finds nothing to do. */
  lemma CleanedIsFixpoint(t: Tree, dirs: set<string>)
    ensures Cleaned(Cleaned(t, dirs), dirs) == Cleaned(t, dirs)
  {
  }

  lemma CleanedWellFormed(t: Tree, dirs: set<string>)
    requires WellFormed(t)
    ensures WellFormed(Cleaned(t, dirs))
  {
  }
}
