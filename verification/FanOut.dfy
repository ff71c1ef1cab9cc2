/** Parsing a Dag corpus in shards (`parallel_dagbag.py`: `merge_shard_payloads`,
    `fan_out_dag_bag`'s merge; `build_partial_dag_bag` and `encode_shard` in each shard),
    against a declarative account of a first-wins parse. Parsing one file is a function. */
module FanOut {
  import opened Prelude
  import opened Lookups
  import opened Ordering
  import opened FileShards

  datatype Encoded = Encoded(fileloc: string, content: string)
  datatype ImportError = Broken(message: string) | DuplicateId(id: string, winner: string)
  datatype Stat = Stat(file: string, duration: int, tasks: nat)

  datatype Parsed = Parsed(error: Option<string>, dags: map<string, Encoded>, stat: Stat, lookups: seq<Lookup>)

  datatype Payload = Payload(
    errors: map<string, ImportError>,
    stats: seq<Stat>,
    lookups: seq<Lookup>,
    dags: map<string, Encoded>)

  const NOTHING := Payload(map[], [], [], map[])

  type Parser = string -> Parsed

  /** A Dag's `fileloc` is the file it was parsed from. */
  ghost predicate Located(parse: Parser) {
    forall f, id :: id in parse(f).dags ==> parse(f).dags[id].fileloc == f
  }

  // ----- what a first-wins parse of a set of files is, whoever wins

  ghost predicate Defines(parse: Parser, f: string, id: string) {
    id in parse(f).dags
  }

  ghost predicate IsFrom(parse: Parser, f: string, id: string, dag: Encoded) {
    id in parse(f).dags && parse(f).dags[id] == dag
  }

  ghost predicate LosesTo(parse: Parser, dags: map<string, Encoded>, f: string, id: string) {
    Defines(parse, f, id) && id in dags && dags[id].fileloc != f
  }

  ghost predicate Loses(parse: Parser, dags: map<string, Encoded>, f: string) {
    exists id :: LosesTo(parse, dags, f, id)
  }

  /** Every id some file defines is kept once, with the definition of the file it names. */
  ghost predicate KeepsOneOfEach(files: set<string>, parse: Parser, dags: map<string, Encoded>) {
    && (forall f, id :: f in files && Defines(parse, f, id) ==> id in dags)
    && (forall id :: id in dags ==> dags[id].fileloc in files && IsFrom(parse, dags[id].fileloc, id, dags[id]))
  }

  /** A file has an entry exactly when it fails to import or loses a collision. */
  ghost predicate ReportsAll(files: set<string>, parse: Parser, p: Payload) {
    forall f :: f in p.errors <==> f in files && (parse(f).error.Some? || Loses(parse, p.dags, f))
  }

  /** Each entry tells a failure, or a collision with a file that does define the id, though
      not always the file whose definition was kept. */
  ghost predicate ReportsTruly(files: set<string>, parse: Parser, p: Payload) {
    forall f :: f in p.errors ==> IsTrue(files, parse, p.dags, f, p.errors[f])
  }

  ghost predicate IsTrue(files: set<string>, parse: Parser, dags: map<string, Encoded>, f: string, error: ImportError) {
    match error
    case Broken(message) => parse(f).error == Some(message) && !Loses(parse, dags, f)
    case DuplicateId(id, other) =>
      LosesTo(parse, dags, f, id) && other in files && other != f && Defines(parse, other, id)
  }

  ghost predicate Seen(files: set<string>, parse: Parser, l: Lookup) {
    exists f :: f in files && l in parse(f).lookups
  }

  ghost predicate Observes(files: set<string>, parse: Parser, lookups: seq<Lookup>) {
    forall l :: l in lookups <==> Seen(files, parse, l)
  }

  ghost predicate Bags(files: set<string>, parse: Parser, p: Payload) {
    && KeepsOneOfEach(files, parse, p.dags)
    && ReportsAll(files, parse, p)
    && ReportsTruly(files, parse, p)
    && Observes(files, parse, p.lookups)
  }

  function StatsOf(files: seq<string>, parse: Parser): seq<Stat> {
    if files == [] then [] else [parse(files[0]).stat] + StatsOf(files[1..], parse)
  }

  predicate SlowestFirst(a: Stat, b: Stat) {
    a.duration >= b.duration
  }

  // ----- merging

  /** The files whose definition of some id is dropped. */
  function Losers(kept: map<string, Encoded>, more: map<string, Encoded>): set<string> {
    set id | id in more && id in kept :: more[id].fileloc
  }

  ghost predicate IsCollision(kept: map<string, Encoded>, more: map<string, Encoded>, f: string, error: ImportError) {
    && error.DuplicateId? && error.id in more && error.id in kept
    && more[error.id].fileloc == f && kept[error.id].fileloc == error.winner
  }

  ghost predicate ErrorsMerged(p: Payload, q: Payload, errors: map<string, ImportError>) {
    && errors.Keys == p.errors.Keys + q.errors.Keys + Losers(p.dags, q.dags)
    && (forall f :: f in Losers(p.dags, q.dags) ==> IsCollision(p.dags, q.dags, f, errors[f]))
    && (forall f :: f in errors && f !in Losers(p.dags, q.dags) ==> errors[f] == (p.errors + q.errors)[f])
  }

  ghost predicate LookupsMerged(p: seq<Lookup>, q: seq<Lookup>, lookups: seq<Lookup>) {
    && (NoDuplicates(p) ==> NoDuplicates(lookups))
    && (forall l :: l in lookups <==> l in p || l in q)
  }

  /** `r` is `p` with the shard `q` merged in. */
  ghost predicate Absorbs(p: Payload, q: Payload, r: Payload) {
    && r.dags == q.dags + p.dags
    && ErrorsMerged(p, q, r.errors)
    && r.stats == p.stats + q.stats
    && LookupsMerged(p.lookups, q.lookups, r.lookups)
  }

  method MergeLookups(p: seq<Lookup>, q: seq<Lookup>) returns (lookups: seq<Lookup>)
    ensures LookupsMerged(p, q, lookups)
  {
    lookups := p;
    for i := 0 to |q|
      invariant LookupsMerged(p, q[..i], lookups)
    {
      assert q[..i + 1] == q[..i] + [q[i]];
      if q[i] !in lookups {
        lookups := lookups + [q[i]];
      }
    }
    assert q[..|q|] == q;
  }

  /** The ids of `done` have been merged into `dags` and `errors`. */
  ghost predicate PartlyMerged(p: Payload, q: Payload, left: set<string>, dags: map<string, Encoded>,
                               errors: map<string, ImportError>) {
    && left <= q.dags.Keys
    && dags == (q.dags - left) + p.dags
    && ErrorsMerged(p, q.(dags := q.dags - left), errors)
  }

  method Absorb(p: Payload, q: Payload) returns (r: Payload)
    ensures Absorbs(p, q, r)
  {
    var lookups := MergeLookups(p.lookups, q.lookups);
    var dags, errors := p.dags, p.errors + q.errors;
    var left := q.dags.Keys;
    while left != {}
      invariant PartlyMerged(p, q, left, dags, errors)
      decreases left
    {
      var id :| id in left;
      var rest := left - {id};
      if id !in dags {
        KeepOne(p, q, left, id, dags, errors);
        dags := dags[id := q.dags[id]];
      } else {
        DropOne(p, q, left, id, dags, errors);
        errors := errors[q.dags[id].fileloc := DuplicateId(id, dags[id].fileloc)];
      }
      left := rest;
    }
    assert q.dags - {} == q.dags;
    assert q.(dags := q.dags) == q;
    r := Payload(errors, p.stats + q.stats, lookups, dags);
  }

  lemma KeepOne(p: Payload, q: Payload, left: set<string>, id: string, dags: map<string, Encoded>,
                errors: map<string, ImportError>)
    requires PartlyMerged(p, q, left, dags, errors) && id in left && id !in dags
    ensures PartlyMerged(p, q, left - {id}, dags[id := q.dags[id]], errors)
  {
    var before, after := q.dags - left, q.dags - (left - {id});
    assert after == before[id := q.dags[id]];
    assert Losers(p.dags, after) == Losers(p.dags, before);
    assert forall f :: f in Losers(p.dags, before) ==> IsCollision(p.dags, before, f, errors[f]);
    assert forall f :: f in Losers(p.dags, after) ==> IsCollision(p.dags, after, f, errors[f]);
  }

  lemma DropOne(p: Payload, q: Payload, left: set<string>, id: string, dags: map<string, Encoded>,
                errors: map<string, ImportError>)
    requires PartlyMerged(p, q, left, dags, errors) && id in left && id in dags
    ensures PartlyMerged(p, q, left - {id}, dags, errors[q.dags[id].fileloc := DuplicateId(id, dags[id].fileloc)])
  {
  }

  // ----- merging keeps the account

  lemma KeepsMerged(a: set<string>, b: set<string>, parse: Parser, p: map<string, Encoded>, q: map<string, Encoded>)
    requires KeepsOneOfEach(a, parse, p) && KeepsOneOfEach(b, parse, q)
    ensures KeepsOneOfEach(a + b, parse, q + p)
  {
  }

  lemma LosesSame(a: set<string>, parse: Parser, p: map<string, Encoded>, q: map<string, Encoded>, f: string)
    requires KeepsOneOfEach(a, parse, p) && f in a
    ensures Loses(parse, q + p, f) <==> Loses(parse, p, f)
  {
    forall id ensures LosesTo(parse, q + p, f, id) <==> LosesTo(parse, p, f, id) {
    }
    if Loses(parse, p, f) {
      var id :| LosesTo(parse, p, f, id);
      assert LosesTo(parse, q + p, f, id);
    }
    if Loses(parse, q + p, f) {
      var id :| LosesTo(parse, q + p, f, id);
      assert LosesTo(parse, p, f, id);
    }
  }

  lemma LosesMore(a: set<string>, b: set<string>, parse: Parser, p: map<string, Encoded>, q: map<string, Encoded>,
                  f: string)
    requires KeepsOneOfEach(a, parse, p) && KeepsOneOfEach(b, parse, q) && a !! b && f in b
    ensures Loses(parse, q + p, f) <==> Loses(parse, q, f) || f in Losers(p, q)
  {
    if f in Losers(p, q) {
      var id :| id in q && id in p && q[id].fileloc == f;
      assert LosesTo(parse, q + p, f, id);
    }
    if Loses(parse, q, f) {
      var id :| LosesTo(parse, q, f, id);
      assert LosesTo(parse, q + p, f, id);
    }
    if Loses(parse, q + p, f) && !Loses(parse, q, f) {
      var id :| LosesTo(parse, q + p, f, id);
      assert !LosesTo(parse, q, f, id);
      assert id in q && q[id].fileloc == f;
    }
  }

  lemma LosersAreLater(b: set<string>, parse: Parser, p: map<string, Encoded>, q: map<string, Encoded>)
    requires KeepsOneOfEach(b, parse, q)
    ensures Losers(p, q) <= b
  {
  }

  lemma ReportsAllMerged(a: set<string>, b: set<string>, parse: Parser, p: Payload, q: Payload, r: Payload)
    requires KeepsOneOfEach(a, parse, p.dags) && KeepsOneOfEach(b, parse, q.dags) && a !! b
    requires ReportsAll(a, parse, p) && ReportsAll(b, parse, q)
    requires Absorbs(p, q, r)
    ensures ReportsAll(a + b, parse, r)
  {
    LosersAreLater(b, parse, p.dags, q.dags);
    forall f ensures f in r.errors <==> f in a + b && (parse(f).error.Some? || Loses(parse, r.dags, f)) {
      assert f in r.errors <==> f in p.errors || f in q.errors || f in Losers(p.dags, q.dags);
      if f in a {
        LosesSame(a, parse, p.dags, q.dags, f);
      } else if f in b {
        LosesMore(a, b, parse, p.dags, q.dags, f);
      }
    }
  }

  lemma ReportTrueMerged(a: set<string>, b: set<string>, parse: Parser, p: Payload, q: Payload, r: Payload, f: string)
    requires KeepsOneOfEach(a, parse, p.dags) && KeepsOneOfEach(b, parse, q.dags) && a !! b
    requires p.errors.Keys <= a && q.errors.Keys <= b
    requires ReportsTruly(a, parse, p) && ReportsTruly(b, parse, q)
    requires Absorbs(p, q, r) && f in r.errors
    ensures IsTrue(a + b, parse, r.dags, f, r.errors[f])
  {
    LosersAreLater(b, parse, p.dags, q.dags);
    if f in Losers(p.dags, q.dags) {
      var id := r.errors[f].id;
      assert IsCollision(p.dags, q.dags, f, r.errors[f]);
      assert r.dags[id] == p.dags[id];
    } else if f in q.errors {
      assert r.errors[f] == q.errors[f] && IsTrue(b, parse, q.dags, f, q.errors[f]);
      LosesMore(a, b, parse, p.dags, q.dags, f);
    } else {
      assert r.errors[f] == p.errors[f] && IsTrue(a, parse, p.dags, f, p.errors[f]);
      LosesSame(a, parse, p.dags, q.dags, f);
    }
  }

  lemma ObservesMerged(a: set<string>, b: set<string>, parse: Parser, p: seq<Lookup>, q: seq<Lookup>,
                       lookups: seq<Lookup>)
    requires Observes(a, parse, p) && Observes(b, parse, q) && LookupsMerged(p, q, lookups)
    ensures Observes(a + b, parse, lookups)
  {
  }

  /** Bagging disjoint sets of files apart and merging is bagging them together. */
  lemma MergeBags(a: set<string>, b: set<string>, parse: Parser, p: Payload, q: Payload, r: Payload)
    requires Bags(a, parse, p) && Bags(b, parse, q) && a !! b && Absorbs(p, q, r)
    ensures Bags(a + b, parse, r)
  {
    KeepsMerged(a, b, parse, p.dags, q.dags);
    ReportsAllMerged(a, b, parse, p, q, r);
    forall f | f in r.errors ensures IsTrue(a + b, parse, r.dags, f, r.errors[f]) {
      ReportTrueMerged(a, b, parse, p, q, r, f);
    }
    ObservesMerged(a, b, parse, p.lookups, q.lookups, r.lookups);
  }

  // ----- the shards' own parses, and the whole run

  /** The flat first-wins fold over `files`. */
  function FirstWins(files: seq<string>, parse: Parser): map<string, Encoded> {
    if files == [] then map[]
    else parse(files[|files| - 1]).dags + FirstWins(files[..|files| - 1], parse)
  }

  function FileBag(f: string, parsed: Parsed): Payload {
    Payload(if parsed.error.Some? then map[f := Broken(parsed.error.value)] else map[],
            [parsed.stat], parsed.lookups, parsed.dags)
  }

  lemma FileBagBags(f: string, parse: Parser)
    requires Located(parse)
    ensures Bags({f}, parse, FileBag(f, parse(f)))
  {
  }

  lemma StatsOfSnoc(files: seq<string>, f: string, parse: Parser)
    ensures StatsOf(files + [f], parse) == StatsOf(files, parse) + [parse(f).stat]
  {
    if files == [] {
      assert files + [f] == [f];
    } else {
      assert (files + [f])[1..] == files[1..] + [f];
      StatsOfSnoc(files[1..], f, parse);
    }
  }

  method PartialDagBag(files: seq<string>, parse: Parser) returns (bag: Payload)
    requires NoDuplicates(files) && Located(parse)
    ensures Bags(Elements(files), parse, bag)
    ensures bag.dags == FirstWins(files, parse) && bag.stats == StatsOf(files, parse)
    ensures NoDuplicates(bag.lookups)
  {
    bag := NOTHING;
    for i := 0 to |files|
      invariant Bags(Elements(files[..i]), parse, bag)
      invariant bag.dags == FirstWins(files[..i], parse) && bag.stats == StatsOf(files[..i], parse)
      invariant NoDuplicates(bag.lookups)
    {
      ghost var before := bag;
      FileBagBags(files[i], parse);
      bag := Absorb(bag, FileBag(files[i], parse(files[i])));
      OneMoreFile(files, i);
      MergeBags(Elements(files[..i]), {files[i]}, parse, before, FileBag(files[i], parse(files[i])), bag);
      StatsOfSnoc(files[..i], files[i], parse);
      assert files[..i + 1][..i] == files[..i];
    }
    assert files[..|files|] == files;
  }

  lemma OneMoreFile(files: seq<string>, i: nat)
    requires i < |files| && NoDuplicates(files)
    ensures files[..i + 1] == files[..i] + [files[i]]
    ensures Elements(files[..i + 1]) == Elements(files[..i]) + {files[i]}
    ensures Elements(files[..i]) !! {files[i]}
  {
  }

  /** `m` is `payloads` merged from the left, before the final sort. */
  ghost predicate Merges(payloads: seq<Payload>, m: Payload) {
    if payloads == [] then m == NOTHING
    else
      var last := payloads[|payloads| - 1];
      exists p :: Merges(payloads[..|payloads| - 1], p) && Absorbs(p, last, m)
  }

  /** `merged` is the payloads merged, with the statistics sorted. */
  ghost predicate MergesTo(payloads: seq<Payload>, merged: Payload) {
    exists m :: Merges(payloads, m) && merged == m.(stats := Sort(m.stats, SlowestFirst))
  }

  method MergeShardPayloads(payloads: seq<Payload>) returns (merged: Payload)
    ensures MergesTo(payloads, merged)
    ensures merged.dags == FirstOf(payloads)
  {
    var m := NOTHING;
    for i := 0 to |payloads|
      invariant Merges(payloads[..i], m)
    {
      ghost var before := m;
      m := Absorb(m, payloads[i]);
      MergesMore(payloads, i, before, m);
    }
    assert payloads[..|payloads|] == payloads;
    MergeKeepsFirst(payloads, m);
    merged := m.(stats := Sort(m.stats, SlowestFirst));
  }

  lemma MergesMore(payloads: seq<Payload>, i: nat, before: Payload, m: Payload)
    requires i < |payloads| && Merges(payloads[..i], before) && Absorbs(before, payloads[i], m)
    ensures Merges(payloads[..i + 1], m)
  {
    assert payloads[..i + 1][..i] == payloads[..i];
  }

  ghost predicate ShardsBagged(shards: seq<seq<string>>, parse: Parser, payloads: seq<Payload>) {
    && |payloads| == |shards|
    && forall i :: 0 <= i < |shards| ==> ShardBagged(shards[i], parse, payloads[i])
  }

  ghost predicate ShardBagged(shard: seq<string>, parse: Parser, payload: Payload) {
    && Bags(Elements(shard), parse, payload)
    && payload.stats == StatsOf(shard, parse) && payload.dags == FirstWins(shard, parse)
  }

  lemma StatsOfConcat(a: seq<string>, b: seq<string>, parse: Parser)
    ensures StatsOf(a + b, parse) == StatsOf(a, parse) + StatsOf(b, parse)
  {
    if a == [] {
      assert a + b == b;
    } else {
      assert (a + b)[1..] == a[1..] + b;
    }
  }

  lemma {:induction false} ConcatSnoc<T>(xss: seq<seq<T>>)
    requires xss != []
    ensures Concat(xss) == Concat(xss[..|xss| - 1]) + xss[|xss| - 1]
  {
    if |xss| > 1 {
      ConcatSnoc(xss[1..]);
      assert xss[1..][..|xss| - 2] == xss[..|xss| - 1][1..];
    }
  }

  lemma SplitFiles(a: seq<string>, b: seq<string>)
    requires NoDuplicates(a + b)
    ensures NoDuplicates(a) && NoDuplicates(b)
    ensures Elements(a) !! Elements(b) && Elements(a + b) == Elements(a) + Elements(b)
  {
    forall i, j | 0 <= i < j < |a| ensures a[i] != a[j] {
      assert (a + b)[i] == a[i] && (a + b)[j] == a[j];
    }
    forall i, j | 0 <= i < j < |b| ensures b[i] != b[j] {
      assert (a + b)[|a| + i] == b[i] && (a + b)[|a| + j] == b[j];
    }
    forall i, j | 0 <= i < |a| && 0 <= j < |b| ensures a[i] != b[j] {
      assert (a + b)[i] == a[i] && (a + b)[|a| + j] == b[j];
    }
  }

  /** Merging the shards' bags is bagging all their files. */
  lemma {:induction false} MergedShardsBag(shards: seq<seq<string>>, parse: Parser, payloads: seq<Payload>, m: Payload)
    requires Located(parse) && NoDuplicates(Concat(shards))
    requires ShardsBagged(shards, parse, payloads) && Merges(payloads, m)
    ensures Bags(Elements(Concat(shards)), parse, m)
    ensures m.stats == StatsOf(Concat(shards), parse) && NoDuplicates(m.lookups)
  {
    if shards != [] {
      var k := |shards| - 1;
      var p :| Merges(payloads[..k], p) && Absorbs(p, payloads[k], m);
      ConcatSnoc(shards);
      SplitFiles(Concat(shards[..k]), shards[k]);
      MergedShardsBag(shards[..k], parse, payloads[..k], p);
      MergeBags(Elements(Concat(shards[..k])), Elements(shards[k]), parse, p, payloads[k], m);
      StatsOfConcat(Concat(shards[..k]), shards[k], parse);
    }
  }

  lemma WithoutOne(b: seq<string>, i: nat)
    requires i < |b|
    ensures multiset(b[..i] + b[i + 1..]) == multiset(b) - multiset{b[i]}
  {
    assert b == b[..i] + ([b[i]] + b[i + 1..]);
  }

  lemma WithoutFirst(a: seq<string>)
    requires a != []
    ensures multiset(a[1..]) == multiset(a) - multiset{a[0]}
  {
    assert a == [a[0]] + a[1..];
  }

  lemma StatsWithoutOne(b: seq<string>, i: nat, parse: Parser)
    requires i < |b|
    ensures multiset(StatsOf(b, parse)) == multiset{parse(b[i]).stat} + multiset(StatsOf(b[..i] + b[i + 1..], parse))
  {
    assert b == b[..i] + b[i..] && b[i..][1..] == b[i + 1..];
    StatsOfConcat(b[..i], b[i..], parse);
    StatsOfConcat(b[..i], b[i + 1..], parse);
    MovedToFront(StatsOf(b[..i], parse), parse(b[i]).stat, StatsOf(b[i + 1..], parse));
  }

  lemma MovedToFront<T>(front: seq<T>, x: T, rest: seq<T>)
    ensures multiset(front + ([x] + rest)) == multiset{x} + multiset(front + rest)
  {
  }

  lemma {:induction false} StatsOfPermuted(a: seq<string>, b: seq<string>, parse: Parser)
    requires multiset(a) == multiset(b)
    ensures multiset(StatsOf(a, parse)) == multiset(StatsOf(b, parse))
  {
    if a == [] {
      assert |multiset(b)| == 0;
    } else {
      assert a[0] in multiset(b);
      var i :| 0 <= i < |b| && b[i] == a[0];
      WithoutOne(b, i);
      WithoutFirst(a);
      StatsWithoutOne(b, i, parse);
      StatsOfPermuted(a[1..], b[..i] + b[i + 1..], parse);
    }
  }

  lemma PermutedFiles(a: seq<string>, b: seq<string>)
    requires multiset(a) == multiset(b) && NoDuplicates(a)
    ensures NoDuplicates(b) && Elements(b) == Elements(a)
  {
    CountsNoDuplicates(a);
    NoDuplicatesCounts(b);
    assert forall x :: x in a <==> x in multiset(a);
    assert forall x :: x in b <==> x in multiset(b);
  }

  lemma {:induction false} ShardDistinct(shards: seq<seq<string>>, i: nat)
    requires i < |shards| && NoDuplicates(Concat(shards))
    ensures NoDuplicates(shards[i])
  {
    SplitFiles(shards[0], Concat(shards[1..]));
    if i > 0 {
      ShardDistinct(shards[1..], i - 1);
    }
  }

  lemma {:induction false} FirstWinsConcat(a: seq<string>, b: seq<string>, parse: Parser)
    ensures FirstWins(a + b, parse) == FirstWins(b, parse) + FirstWins(a, parse)
  {
    if b == [] {
      assert a + b == a;
    } else {
      var k := |b| - 1;
      assert (a + b)[..|a + b| - 1] == a + b[..k];
      FirstWinsConcat(a, b[..k], parse);
      Stacked(parse(b[k]).dags, FirstWins(b[..k], parse), FirstWins(a, parse));
    }
  }

  lemma Stacked<K, V>(a: map<K, V>, b: map<K, V>, c: map<K, V>)
    ensures a + (b + c) == a + b + c
  {
  }

  /** Of each id, the merged shards keep what parsing the shards one after the other keeps. */
  lemma {:induction false} ShardsKeepFirst(shards: seq<seq<string>>, parse: Parser, payloads: seq<Payload>)
    requires ShardsBagged(shards, parse, payloads)
    ensures FirstOf(payloads) == FirstWins(Concat(shards), parse)
  {
    if shards != [] {
      var k := |shards| - 1;
      ConcatSnoc(shards);
      ShardsKeepFirst(shards[..k], parse, payloads[..k]);
      FirstWinsConcat(Concat(shards[..k]), shards[k], parse);
    }
  }

  /** The files in the order of their shards. */
  function DealtOrder(files: seq<string>, workers: int): seq<string>
    requires workers >= 1
  {
    Concat(Dealt(Sort(files, TextLeq), workers))
  }

  /** The fanned-out parse is a first-wins parse of all the files, reports their times slowest
      first, and keeps the definitions that come first in the order of the shards. */
  method FanOutDagBag(files: seq<string>, parse: Parser, configured: nat, cpus: nat) returns (merged: Payload)
    requires NoDuplicates(files) && Located(parse) && cpus >= 1
    ensures Bags(Elements(files), parse, merged) && NoDuplicates(merged.lookups)
    ensures multiset(merged.stats) == multiset(StatsOf(files, parse)) && Sorted(merged.stats, SlowestFirst)
    ensures merged.dags == FirstWins(DealtOrder(files, ResolvedWorkerCount(configured, cpus, |files|)), parse)
  {
    if files == [] {
      merged := MergeShardPayloads([]);
      MergedIsBag([], [], parse, [], merged);
      ConcatOfEmpty(Dealt(Sort(files, TextLeq), ResolvedWorkerCount(configured, cpus, |files|)));
      return;
    }
    var shards := Shards(files, ResolvedWorkerCount(configured, cpus, |files|));
    var payloads := BagShards(files, shards, parse);
    merged := MergeShardPayloads(payloads);
    MergedIsBag(files, shards, parse, payloads, merged);
    ShardsKeepFirst(shards, parse, payloads);
  }

  lemma MergedIsBag(files: seq<string>, shards: seq<seq<string>>, parse: Parser, payloads: seq<Payload>,
                    merged: Payload)
    requires NoDuplicates(files) && Located(parse) && multiset(Concat(shards)) == multiset(files)
    requires ShardsBagged(shards, parse, payloads) && MergesTo(payloads, merged)
    ensures Bags(Elements(files), parse, merged) && NoDuplicates(merged.lookups)
    ensures multiset(merged.stats) == multiset(StatsOf(files, parse)) && Sorted(merged.stats, SlowestFirst)
  {
    var m :| Merges(payloads, m) && merged == m.(stats := Sort(m.stats, SlowestFirst));
    PermutedFiles(files, Concat(shards));
    MergedShardsBag(shards, parse, payloads, m);
    StatsOfPermuted(files, Concat(shards), parse);
    SortStats(merged, m);
  }

  /** The empty shards `fan_out_dag_bag` filters out do not arise (`EveryWorkerHasAFile`). */
  method Shards(files: seq<string>, workers: int) returns (shards: seq<seq<string>>)
    requires workers >= 1
    ensures multiset(Concat(shards)) == multiset(files) && Concat(shards) == DealtOrder(files, workers)
  {
    var dealt := ShardFilePaths(files, workers);
    return dealt.value;
  }

  method BagShards(files: seq<string>, shards: seq<seq<string>>, parse: Parser) returns (payloads: seq<Payload>)
    requires NoDuplicates(files) && Located(parse) && multiset(Concat(shards)) == multiset(files)
    ensures ShardsBagged(shards, parse, payloads)
  {
    PermutedFiles(files, Concat(shards));
    payloads := [];
    for i := 0 to |shards|
      invariant ShardsBagged(shards[..i], parse, payloads)
    {
      ShardDistinct(shards, i);
      var payload := PartialDagBag(shards[i], parse);
      payloads := payloads + [payload];
    }
    assert shards[..|shards|] == shards;
  }

  lemma SortStats(merged: Payload, unsorted: Payload)
    requires merged == unsorted.(stats := Sort(unsorted.stats, SlowestFirst))
    ensures Sorted(merged.stats, SlowestFirst) && multiset(merged.stats) == multiset(unsorted.stats)
    ensures forall files, parse :: Bags(files, parse, unsorted) ==> Bags(files, parse, merged)
  {
    assert TotalPreorder(SlowestFirst);
    SortSorts(unsorted.stats, SlowestFirst);
  }

  // ----- what any two such parses agree on

  function Definers(files: set<string>, parse: Parser, id: string): set<string> {
    set f | f in files && id in parse(f).dags
  }

  /** An id defined in `m` files keeps one definition, and the other `m - 1` files are named. */
  lemma CollisionsAreNamed(files: set<string>, parse: Parser, p: Payload, id: string)
    requires Bags(files, parse, p) && Definers(files, parse, id) != {}
    ensures id in p.dags && p.dags[id].fileloc in Definers(files, parse, id)
    ensures Definers(files, parse, id) - {p.dags[id].fileloc} <= p.errors.Keys
    ensures |Definers(files, parse, id) - {p.dags[id].fileloc}| == |Definers(files, parse, id)| - 1
  {
    var f0 :| f0 in Definers(files, parse, id);
    assert Defines(parse, f0, id);
    forall f | f in Definers(files, parse, id) - {p.dags[id].fileloc} ensures f in p.errors {
      assert LosesTo(parse, p.dags, f, id);
    }
  }

  lemma CleanMeansSame(files: set<string>, parse: Parser, p: Payload, q: Payload)
    requires Bags(files, parse, p) && Bags(files, parse, q) && p.errors == map[]
    ensures q.dags == p.dags && q.errors == map[]
  {
    forall f, id | f in files && Defines(parse, f, id) ensures id in p.dags && p.dags[id].fileloc == f {
      assert f !in p.errors;
      assert !LosesTo(parse, p.dags, f, id);
    }
    assert q.dags.Keys == p.dags.Keys;
    forall id | id in q.dags ensures q.dags[id] == p.dags[id] {
      assert Defines(parse, q.dags[id].fileloc, id);
      assert IsFrom(parse, p.dags[id].fileloc, id, p.dags[id]);
    }
    forall f ensures f !in q.errors {
      assert f !in p.errors;
    }
  }

  /** Sharded or serial: the same ids, the same lookups, the same verdict on whether anything
      is wrong, and, when nothing is, the same Dags. */
  lemma FanOutAgreesWithSerial(files: set<string>, parse: Parser, p: Payload, q: Payload)
    requires Bags(files, parse, p) && Bags(files, parse, q)
    ensures p.dags.Keys == q.dags.Keys
    ensures forall l :: l in p.lookups <==> l in q.lookups
    ensures p.errors == map[] <==> q.errors == map[]
    ensures p.errors == map[] ==> p.dags == q.dags
  {
    if p.errors == map[] {
      CleanMeansSame(files, parse, p, q);
    }
    if q.errors == map[] {
      CleanMeansSame(files, parse, q, p);
    }
    forall id ensures id in p.dags <==> id in q.dags {
      if id in p.dags { assert Defines(parse, p.dags[id].fileloc, id); }
      if id in q.dags { assert Defines(parse, q.dags[id].fileloc, id); }
    }
  }

  // ----- which file wins is not agreed on

  function FirstOf(payloads: seq<Payload>): map<string, Encoded> {
    if payloads == [] then map[]
    else payloads[|payloads| - 1].dags + FirstOf(payloads[..|payloads| - 1])
  }

  lemma {:induction false} MergeKeepsFirst(payloads: seq<Payload>, m: Payload)
    requires Merges(payloads, m)
    ensures m.dags == FirstOf(payloads)
  {
    if payloads != [] {
      var last := payloads[|payloads| - 1];
      var p :| Merges(payloads[..|payloads| - 1], p) && Absorbs(p, last, m);
      MergeKeepsFirst(payloads[..|payloads| - 1], p);
    }
  }

  function DefinesD(f: string): Parsed {
    Parsed(None, if f == "f0" then map[] else map["d" := Encoded(f, "")], Stat(f, 0, 1), [])
  }

  lemma DealtSnoc(xs: seq<string>, x: string, shards: seq<seq<string>>)
    requires Dealt(xs, 2) == shards
    ensures Dealt(xs + [x], 2) == shards[|xs| % 2 := shards[|xs| % 2] + [x]]
  {
  }

  lemma Dealt3(a: string, b: string, c: string)
    ensures Concat(Dealt([a, b, c], 2)) == [a, c, b]
  {
    DealtSnoc([], a, [[], []]);
    assert [] + [a] == [a];
    DealtSnoc([a], b, [[a], []]);
    assert [a] + [b] == [a, b] && [] + [b] == [b];
    DealtSnoc([a, b], c, [[a], [b]]);
    assert [a, b] + [c] == [a, b, c] && [a] + [c] == [a, c];
    var shards := [[a, c], [b]];
    assert Dealt([a, b, c], 2) == shards;
    assert shards[1..] == [[b]] && [[b]][1..] == [];
    assert Concat([[b]]) == [b];
  }

  lemma FirstWins3(a: string, b: string, c: string, parse: Parser)
    ensures FirstWins([a, b, c], parse) == parse(c).dags + (parse(b).dags + parse(a).dags)
  {
    assert [a, b, c][..2] == [a, b] && [a, b][..1] == [a] && [a][..0] == [];
    assert FirstWins([a], parse) == parse(a).dags;
  }

  lemma Sorted3()
    ensures Sort(["f0", "f1", "f2"], TextLeq) == ["f0", "f1", "f2"]
  {
  }

  /** Files f1 and f2 define the same id. One process parsing them in order keeps f1's; two
      shards, f0 with f2 and f1 alone, keep f2's. */
  lemma WinnerMayDiffer()
    ensures FirstWins(DealtOrder(["f0", "f1", "f2"], 2), DefinesD) == map["d" := Encoded("f2", "")]
    ensures FirstWins(["f0", "f1", "f2"], DefinesD) == map["d" := Encoded("f1", "")]
  {
    Sorted3();
    Dealt3("f0", "f1", "f2");
    FirstWins3("f0", "f1", "f2", DefinesD);
    FirstWins3("f0", "f2", "f1", DefinesD);
  }
}
