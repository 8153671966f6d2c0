/** Selection of the k highest scores of one image's flattened score vector,
    as torch.topk(…, k) along the candidate dimension does: k distinct
    positions, every selected score at least every unselected one, listed
    from the highest score down. */
module Selection {
  import opened Outcome

  /** The positions below n. */
  function Below(n: nat): (r: set<nat>)
    ensures forall i: nat :: i in r <==> i < n
    ensures |r| == n
  {
    if n == 0 then {} else Below(n - 1) + {n - 1}
  }

  /** Pigeonhole: fewer than n taken positions leave a position below n free. */
  lemma Untaken(n: nat, taken: set<nat>)
    requires |taken| < n
    ensures exists i :: 0 <= i < n && i !in taken
  {
    var all := Below(n);
    assert taken == (taken - all) + (all * taken);
    assert all == (all - taken) + (all * taken);
    var i :| i in all - taken;
  }

  /** The best free position below n: the highest score, and among equal
      scores the lowest position. None when every position below n is taken. */
  function Best(s: seq<int>, taken: set<nat>, n: nat): (r: Option<nat>)
    requires n <= |s|
    ensures r.None? <==> forall i :: 0 <= i < n ==> i in taken
    ensures r.Some? ==> r.value < n && r.value !in taken
    ensures r.Some? ==> forall i :: 0 <= i < n && i !in taken ==> s[i] <= s[r.value]
    ensures r.Some? ==> forall i :: 0 <= i < r.value && i !in taken ==> s[i] < s[r.value]
  {
    if n == 0 then None
    else
      var prev := Best(s, taken, n - 1);
      if n - 1 in taken then prev
      else if prev.None? || s[prev.value] < s[n - 1] then Some(n - 1)
      else prev
  }

  /** k further positions of s, none of them in `taken`, picked one at a time
      as the best free position. */
  function TopKFrom(s: seq<int>, k: nat, taken: set<nat>): (r: seq<nat>)
    requires |taken| + k <= |s|
    ensures |r| == k
    ensures forall j :: 0 <= j < k ==> r[j] < |s| && r[j] !in taken
    ensures forall i, j :: 0 <= i < j < k ==> r[i] != r[j]
    decreases k
  {
    if k == 0 then []
    else
      Untaken(|s|, taken);
      var b := Best(s, taken, |s|).value;
      [b] + TopKFrom(s, k - 1, taken + {b})
  }

  /** Every position of s outside `taken` and left out of r scores at most
      every position in r. */
  predicate Dominates(s: seq<int>, taken: set<nat>, r: seq<nat>)
  {
    forall j, x :: 0 <= j < |r| && 0 <= r[j] < |s| && 0 <= x < |s| && x !in taken && x !in r ==> s[x] <= s[r[j]]
  }

  /** Putting in front a free position b that scores at least every free
      position keeps the domination, once b counts as free again. */
  lemma DominatesStep(s: seq<int>, taken: set<nat>, b: nat, rest: seq<nat>)
    requires b < |s| && b !in taken
    requires forall i :: 0 <= i < |s| && i !in taken ==> s[i] <= s[b]
    requires Dominates(s, taken + {b}, rest)
    ensures Dominates(s, taken, [b] + rest)
  {
    var r := [b] + rest;
    forall j, x | 0 <= j < |r| && 0 <= r[j] < |s| && 0 <= x < |s| && x !in taken && x !in r
      ensures s[x] <= s[r[j]]
    {
      if j > 0 {
        assert r[j] == rest[j - 1] && x !in taken + {b} && x !in rest;
      }
    }
  }

  /** Every free position left out scores at most every position picked. */
  lemma {:induction false} TopKFromDominates(s: seq<int>, k: nat, taken: set<nat>)
    requires |taken| + k <= |s|
    ensures Dominates(s, taken, TopKFrom(s, k, taken))
    decreases k
  {
    if k > 0 {
      Untaken(|s|, taken);
      var b := Best(s, taken, |s|).value;
      var rest := TopKFrom(s, k - 1, taken + {b});
      TopKFromDominates(s, k - 1, taken + {b});
      DominatesStep(s, taken, b, rest);
      assert TopKFrom(s, k, taken) == [b] + rest;
    }
  }

  /** The picked positions come in order of descending score. */
  lemma {:induction false} TopKFromSorted(s: seq<int>, k: nat, taken: set<nat>)
    requires |taken| + k <= |s|
    ensures var r := TopKFrom(s, k, taken);
      forall i, j :: 0 <= i < j < k ==> s[r[i]] >= s[r[j]]
    decreases k
  {
    if k > 0 {
      Untaken(|s|, taken);
      var b := Best(s, taken, |s|).value;
      TopKFromSorted(s, k - 1, taken + {b});
      var r := TopKFrom(s, k, taken);
      assert r == [b] + TopKFrom(s, k - 1, taken + {b});
    }
  }

  /** r is a top-k selection of s: k distinct positions of s, every score
      left out is at most every score kept, and the kept scores descend. */
  predicate Selects(s: seq<int>, k: nat, r: seq<nat>)
  {
    && |r| == k
    && (forall j :: 0 <= j < k ==> r[j] < |s|)
    && (forall i, j :: 0 <= i < j < k ==> r[i] != r[j])
    && (forall j, x :: 0 <= j < k && 0 <= r[j] < |s| && 0 <= x < |s| && x !in r ==> s[x] <= s[r[j]])
    && (forall i, j :: 0 <= i < j < k && r[i] < |s| && r[j] < |s| ==> s[r[i]] >= s[r[j]])
  }

  /** torch.topk: the k best positions, or an error when s has fewer than k
      entries. */
  function TopK(s: seq<int>, k: nat): (r: Result<seq<nat>>)
    ensures r.Err? <==> k > |s|
    ensures r.Err? ==> r.error == TopKOutOfRange
    ensures r.Ok? ==> Selects(s, k, r.value)
  {
    if k > |s| then Err(TopKOutOfRange)
    else
      TopKFromSelects(s, k);
      Ok(TopKFrom(s, k, {}))
  }

  lemma TopKFromSelects(s: seq<int>, k: nat)
    requires k <= |s|
    ensures Selects(s, k, TopKFrom(s, k, {}))
  {
    TopKFromDominates(s, k, {});
    TopKFromSorted(s, k, {});
  }

  /** Selecting more positions never drops one: the best k are the first k
      of the best k + 1. */
  lemma {:induction false} TopKFromPrefix(s: seq<int>, k: nat, taken: set<nat>)
    requires |taken| + k + 1 <= |s|
    ensures TopKFrom(s, k + 1, taken)[..k] == TopKFrom(s, k, taken)
    decreases k
  {
    if k > 0 {
      Untaken(|s|, taken);
      var b := Best(s, taken, |s|).value;
      TopKFromPrefix(s, k - 1, taken + {b});
    }
  }
}
