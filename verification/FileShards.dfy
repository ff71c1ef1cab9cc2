/** Round-robin sharding (`parallel_dagbag.py`: `shard_file_paths`, `resolved_worker_count`). */
module FileShards {
  import opened Prelude
  import opened Ordering

  function Concat<T>(xss: seq<seq<T>>): seq<T> {
    if xss == [] then [] else xss[0] + Concat(xss[1..])
  }

  /** Shard `i` of `n` holds exactly the positions of `xs` congruent to `i`, in order: each
      place of the shard is such a position, and the next one is past the end. */
  ghost predicate DealtTo<T>(xs: seq<T>, n: int, i: nat, shard: seq<T>) {
    && |xs| <= |shard| * n + i
    && forall k :: 0 <= k < |shard| ==> 0 <= k * n + i < |xs| && shard[k] == xs[k * n + i]
  }

  lemma {:induction false} Apart(n: int, i: nat, a: nat, b: nat)
    requires a < b && n >= 1
    ensures a * n + n + i <= b * n + i
  {
    assert b * n == (b - 1) * n + n;
    if a < b - 1 {
      Apart(n, i, a, b - 1);
    }
  }

  lemma NextPlace<T>(xs: seq<T>, n: int, i: nat, shard: seq<T>)
    requires n >= 1 && i < n && DealtTo(xs, n, i, shard)
    ensures i == |xs| % n <==> |shard| * n + i == |xs|
  {
    var q, r := |xs| / n, |xs| % n;
    assert |xs| == q * n + r;
    if |shard| < q {
      Apart(n, i, |shard|, q);
    } else if q < |shard| {
      Apart(n, i, q, |shard|);
      assert (|shard| - 1) * n + i < |xs|;
    }
  }

  lemma DealOne<T>(xs: seq<T>, n: int, i: nat, shard: seq<T>, j: nat)
    requires n >= 1 && j < |xs| && i < n && DealtTo(xs[..j], n, i, shard)
    ensures DealtTo(xs[..j + 1], n, i, if i == j % n then shard + [xs[j]] else shard)
  {
    NextPlace(xs[..j], n, i, shard);
  }

  ghost predicate AllDealt<T>(xs: seq<T>, n: int, shards: seq<seq<T>>) {
    |shards| == n && forall i :: 0 <= i < n ==> DealtTo(xs, n, i, shards[i])
  }

  lemma DealNext<T>(xs: seq<T>, n: int, shards: seq<seq<T>>, j: nat)
    requires n >= 1 && j < |xs| && AllDealt(xs[..j], n, shards)
    ensures AllDealt(xs[..j + 1], n, shards[j % n := shards[j % n] + [xs[j]]])
  {
    var dealt := shards[j % n := shards[j % n] + [xs[j]]];
    forall i | 0 <= i < n ensures DealtTo(xs[..j + 1], n, i, dealt[i]) {
      DealOne(xs, n, i, shards[i], j);
    }
  }

  lemma {:induction false} ConcatExtended<T>(xss: seq<seq<T>>, i: nat, x: T)
    requires i < |xss|
    ensures multiset(Concat(xss[i := xss[i] + [x]])) == multiset(Concat(xss)) + multiset{x}
  {
    if i == 0 {
      assert xss[0 := xss[0] + [x]][1..] == xss[1..];
    } else {
      assert xss[i := xss[i] + [x]][1..] == xss[1..][i - 1 := xss[i] + [x]];
      ConcatExtended(xss[1..], i - 1, x);
    }
  }

  lemma {:induction false} ConcatOfEmpty<T>(xss: seq<seq<T>>)
    requires forall i :: 0 <= i < |xss| ==> xss[i] == []
    ensures Concat(xss) == []
  {
    if xss != [] {
      ConcatOfEmpty(xss[1..]);
    }
  }

  function Dealt<T>(xs: seq<T>, n: int): (shards: seq<seq<T>>)
    requires n >= 1
    ensures |shards| == n
  {
    if xs == [] then seq(n, _ => [])
    else var j := |xs| - 1; var shards := Dealt(xs[..j], n); shards[j % n := shards[j % n] + [xs[j]]]
  }

  lemma {:induction false} DealtShards<T>(xs: seq<T>, n: int)
    requires n >= 1
    ensures AllDealt(xs, n, Dealt(xs, n))
    ensures multiset(Concat(Dealt(xs, n))) == multiset(xs)
  {
    if xs == [] {
      ConcatOfEmpty(Dealt(xs, n));
    } else {
      var j := |xs| - 1;
      DealtShards(xs[..j], n);
      assert xs[..j + 1] == xs == xs[..j] + [xs[j]];
      DealNext(xs, n, Dealt(xs[..j], n), j);
      ConcatExtended(Dealt(xs[..j], n), j % n, xs[j]);
    }
  }

  method ShardFilePaths(paths: seq<string>, workers: int) returns (result: Result<seq<seq<string>>, string>)
    ensures result.Ok? <==> workers >= 1
    ensures result.Ok? ==> result.value == Dealt(Sort(paths, TextLeq), workers)
    ensures result.Ok? ==> AllDealt(Sort(paths, TextLeq), workers, result.value)
    ensures result.Ok? ==> multiset(Concat(result.value)) == multiset(paths)
  {
    if workers < 1 {
      return Err("worker_count must be positive");
    }
    var shards: seq<seq<string>> := seq(workers, _ => []);
    var sorted := Sort(paths, TextLeq);
    for j := 0 to |sorted|
      invariant shards == Dealt(sorted[..j], workers)
    {
      assert sorted[..j + 1][..j] == sorted[..j];
      shards := shards[j % workers := shards[j % workers] + [sorted[j]]];
    }
    assert sorted[..|sorted|] == sorted;
    DealtShards(sorted, workers);
    TextLeqIsOrder();
    SortSorts(paths, TextLeq);
    return Ok(shards);
  }

  lemma ShardsAreBalanced<T>(xs: seq<T>, n: int, i: nat, a: seq<T>, j: nat, b: seq<T>)
    requires i < n && j < n && DealtTo(xs, n, i, a) && DealtTo(xs, n, j, b)
    ensures -1 <= |a| - |b| <= 1
  {
    if |a| > |b| + 1 {
      Apart(n, i, |b|, |a| - 1);
    } else if |b| > |a| + 1 {
      Apart(n, j, |a|, |b| - 1);
    }
  }

  /** `configured == 0` means "choose for me"; `cpus` is at least 1. */
  function ResolvedWorkerCount(configured: nat, cpus: nat, files: nat): (workers: int) {
    var wanted := if configured != 0 then configured else Min(cpus, Max(files, 1));
    Max(1, if files > 0 then Min(wanted, files) else 1)
  }

  /** That many workers may be asked for: as configured, else as the machine can run, and one per file. */
  predicate Allowed(configured: nat, cpus: nat, files: nat, workers: int) {
    1 <= workers <= (if configured > 0 then configured else cpus) && workers <= files
  }

  /** The greatest number allowed; one worker when there are no files. */
  lemma MostWorkers(configured: nat, cpus: nat, files: nat)
    requires cpus >= 1
    ensures var workers := ResolvedWorkerCount(configured, cpus, files);
            && (files == 0 ==> workers == 1)
            && (files > 0 ==> Allowed(configured, cpus, files, workers)
                              && forall more :: Allowed(configured, cpus, files, more) ==> more <= workers)
  {
  }

  /** There are never more workers than files, so no shard of a non-empty list is empty. */
  lemma EveryWorkerHasAFile<T>(configured: nat, cpus: nat, xs: seq<T>, i: nat, shard: seq<T>)
    requires cpus >= 1 && xs != []
    requires i < ResolvedWorkerCount(configured, cpus, |xs|)
    requires DealtTo(xs, ResolvedWorkerCount(configured, cpus, |xs|), i, shard)
    ensures shard != []
    ensures ResolvedWorkerCount(configured, cpus, |xs|) <= |xs|
  {
  }
}
