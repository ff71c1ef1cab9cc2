/** Comparing two recordings in seven buckets (`baseline.py`: `_project`,
    `compute_categories`, `_selected`, the known regressions of `_apply_xfail`). */
module MigrationDiff {
  import opened Ordering
  import opened OutcomeRecord

  type Outcomes = map<string, Entry>

  datatype Projection = Pass | Fail | Neutral

  datatype Category = Missing | New | GatedSkip | StillPassing | BrokenOnBoth | Regression | Fixed

  predicate PassOutcome(outcome: Outcome) { outcome.Passed? || outcome.Xpassed? }
  predicate FailOutcome(outcome: Outcome) { outcome.Failed? || outcome.Error? || outcome.Xfailed? }

  function Project(entry: Entry): Projection {
    if PassOutcome(entry.outcome) then Pass else if FailOutcome(entry.outcome) then Fail else Neutral
  }

  /** `_CATEGORY_BY_PROJECTION`, baseline first. */
  function CategoryByProjection(baseline: Projection, live: Projection): Category {
    match (baseline, live)
    case (Pass, Pass) => StillPassing
    case (Pass, Fail) => Regression
    case (Pass, Neutral) => StillPassing
    case (Fail, Pass) => Fixed
    case (Fail, Fail) => BrokenOnBoth
    case (Fail, Neutral) => BrokenOnBoth
    case (Neutral, Pass) => StillPassing
    case (Neutral, Fail) => BrokenOnBoth
    case (Neutral, Neutral) => StillPassing
  }

  /** Where a node id of either recording belongs. */
  function CategoryOf(baseline: Outcomes, live: Outcomes, id: string): Category
    requires id in baseline || id in live
  {
    if id !in live then Missing
    else if id !in baseline then New
    else if baseline[id].gated || live[id].gated then GatedSkip
    else CategoryByProjection(Project(baseline[id]), Project(live[id]))
  }

  predicate Succeeds(entry: Entry) {
    entry.outcome.Passed? || entry.outcome.Xpassed?
  }

  predicate Breaks(entry: Entry) {
    !Succeeds(entry) && !entry.outcome.Skipped?
  }

  /** What each category says of the two recordings. Skipped tests count neither as succeeding nor as breaking. */
  lemma CategoriesMean(baseline: Outcomes, live: Outcomes, id: string)
    requires id in baseline || id in live
    ensures var category := CategoryOf(baseline, live, id);
            && (category == Missing <==> id !in live)
            && (category == New <==> id !in baseline)
            && (id in baseline && id in live ==>
                  var before, now := baseline[id], live[id];
                  && (category == GatedSkip <==> before.gated || now.gated)
                  && (!before.gated && !now.gated ==>
                        && (category == Regression <==> Succeeds(before) && Breaks(now))
                        && (category == Fixed <==> Breaks(before) && Succeeds(now))
                        && (category == BrokenOnBoth <==>
                            (Breaks(before) || Breaks(now)) && !Succeeds(before) && !Succeeds(now))
                        && (category == StillPassing <==> !Breaks(before) && !Breaks(now))))
  {
  }

  function Members(baseline: Outcomes, live: Outcomes, category: Category): set<string> {
    set id | id in baseline.Keys + live.Keys && CategoryOf(baseline, live, id) == category
  }

  datatype Buckets = Buckets(
    missing: seq<string>, added: seq<string>, gated: seq<string>, stillPassing: seq<string>,
    brokenOnBoth: seq<string>, regression: seq<string>, fixed: seq<string>)

  function Bucket(buckets: Buckets, category: Category): seq<string> {
    match category
    case Missing => buckets.missing
    case New => buckets.added
    case GatedSkip => buckets.gated
    case StillPassing => buckets.stillPassing
    case BrokenOnBoth => buckets.brokenOnBoth
    case Regression => buckets.regression
    case Fixed => buckets.fixed
  }

  function Appended(buckets: Buckets, category: Category, id: string): Buckets {
    match category
    case Missing => buckets.(missing := buckets.missing + [id])
    case New => buckets.(added := buckets.added + [id])
    case GatedSkip => buckets.(gated := buckets.gated + [id])
    case StillPassing => buckets.(stillPassing := buckets.stillPassing + [id])
    case BrokenOnBoth => buckets.(brokenOnBoth := buckets.brokenOnBoth + [id])
    case Regression => buckets.(regression := buckets.regression + [id])
    case Fixed => buckets.(fixed := buckets.fixed + [id])
  }

  /** The comparison: each bucket is its category's members, sorted. */
  ghost function Categories(baseline: Outcomes, live: Outcomes): Buckets {
    Buckets(SortedList(Members(baseline, live, Missing)), SortedList(Members(baseline, live, New)),
            SortedList(Members(baseline, live, GatedSkip)), SortedList(Members(baseline, live, StillPassing)),
            SortedList(Members(baseline, live, BrokenOnBoth)), SortedList(Members(baseline, live, Regression)),
            SortedList(Members(baseline, live, Fixed)))
  }

  // ----- computing it

  method SortedSet(s: set<string>) returns (list: seq<string>)
    ensures list == SortedList(s)
  {
    list := [];
    var left := s;
    while left != {}
      invariant left <= s && Elements(list) == s - left && NoDuplicates(list)
      decreases left
    {
      var x :| x in left;
      assert x !in Elements(list);
      assert Elements(list + [x]) == Elements(list) + {x};
      list := list + [x];
      left := left - {x};
    }
    assert Elements(list) == s;
    TextLeqIsOrder();
    SortSorts(list, TextLeq);
    SortMembers(list, TextLeq);
    SortKeepsDistinct(list, TextLeq);
    assert Elements(Sort(list, TextLeq)) == s;
    SortedListUnique(Sort(list, TextLeq));
    list := Sort(list, TextLeq);
  }

  function Filtered(ids: seq<string>, baseline: Outcomes, live: Outcomes, category: Category): seq<string>
    requires forall id :: id in ids ==> id in baseline && id in live
  {
    if ids == [] then []
    else
      var last := ids[|ids| - 1];
      Filtered(ids[..|ids| - 1], baseline, live, category) +
      (if CategoryOf(baseline, live, last) == category then [last] else [])
  }

  predicate IsShared(category: Category) {
    !category.Missing? && !category.New?
  }

  ghost predicate Classified(buckets: Buckets, ids: seq<string>, baseline: Outcomes, live: Outcomes)
    requires forall id :: id in ids ==> id in baseline && id in live
  {
    forall category :: IsShared(category) ==> Bucket(buckets, category) == Filtered(ids, baseline, live, category)
  }

  lemma ClassifiedMore(buckets: Buckets, more: Buckets, ids: seq<string>, baseline: Outcomes, live: Outcomes, i: nat)
    requires i < |ids| && forall id :: id in ids ==> id in baseline && id in live
    requires Classified(buckets, ids[..i], baseline, live)
    requires more == Appended(buckets, CategoryOf(baseline, live, ids[i]), ids[i])
    ensures Classified(more, ids[..i + 1], baseline, live)
  {
    assert ids[..i + 1][..i] == ids[..i];
  }

  method Classify(common: seq<string>, baseline: Outcomes, live: Outcomes, empty: Buckets) returns (buckets: Buckets)
    requires forall id :: id in common ==> id in baseline && id in live
    requires forall category :: IsShared(category) ==> Bucket(empty, category) == []
    ensures Classified(buckets, common, baseline, live)
    ensures buckets.missing == empty.missing && buckets.added == empty.added
  {
    buckets := empty;
    for i := 0 to |common|
      invariant Classified(buckets, common[..i], baseline, live)
      invariant buckets.missing == empty.missing && buckets.added == empty.added
    {
      ghost var before := buckets;
      assert common[i] in common;
      if baseline[common[i]].gated || live[common[i]].gated {
        buckets := buckets.(gated := buckets.gated + [common[i]]);
      } else {
        var category := CategoryByProjection(Project(baseline[common[i]]), Project(live[common[i]]));
        buckets := Appended(buckets, category, common[i]);
      }
      ClassifiedMore(before, buckets, common, baseline, live, i);
    }
    assert common[..|common|] == common;
  }

  method ComputeCategories(baseline: Outcomes, live: Outcomes) returns (buckets: Buckets)
    ensures buckets == Categories(baseline, live)
  {
    var missing := SortedSet(baseline.Keys - live.Keys);
    var onlyLive := SortedSet(live.Keys - baseline.Keys);
    var common := SortedSet(baseline.Keys * live.Keys);
    SortedListSorts(baseline.Keys * live.Keys);
    CommonIds(common, baseline, live);
    buckets := Classify(common, baseline, live, Buckets(missing, onlyLive, [], [], [], [], []));
    OneSided(baseline, live);
    ClassifiedIsCategories(buckets, common, baseline, live);
  }

  lemma ClassifiedIsCategories(buckets: Buckets, common: seq<string>, baseline: Outcomes, live: Outcomes)
    requires forall id :: id in common <==> id in baseline && id in live
    requires Sorted(common, TextLeq) && NoDuplicates(common) && Classified(buckets, common, baseline, live)
    requires buckets.missing == SortedList(Members(baseline, live, Missing))
    requires buckets.added == SortedList(Members(baseline, live, New))
    ensures buckets == Categories(baseline, live)
  {
    forall category | IsShared(category)
      ensures Bucket(buckets, category) == Bucket(Categories(baseline, live), category)
    {
      FilteredIsSorted(common, baseline, live, category);
    }
    SameBuckets(buckets, Categories(baseline, live));
  }

  lemma SameBuckets(a: Buckets, b: Buckets)
    requires forall category :: Bucket(a, category) == Bucket(b, category)
    ensures a == b
  {
    assert Bucket(a, Missing) == Bucket(b, Missing) && Bucket(a, New) == Bucket(b, New) &&
           Bucket(a, GatedSkip) == Bucket(b, GatedSkip);
    assert Bucket(a, StillPassing) == Bucket(b, StillPassing) && Bucket(a, BrokenOnBoth) == Bucket(b, BrokenOnBoth);
    assert Bucket(a, Regression) == Bucket(b, Regression) && Bucket(a, Fixed) == Bucket(b, Fixed);
  }

  lemma CommonIds(common: seq<string>, baseline: Outcomes, live: Outcomes)
    requires Elements(common) == baseline.Keys * live.Keys
    ensures forall id :: id in common <==> id in baseline && id in live
  {
    forall id ensures id in common <==> id in Elements(common) {
    }
  }

  lemma OneSided(baseline: Outcomes, live: Outcomes)
    ensures Members(baseline, live, Missing) == baseline.Keys - live.Keys
    ensures Members(baseline, live, New) == live.Keys - baseline.Keys
  {
  }

  lemma {:induction false} FilteredPart(ids: seq<string>, baseline: Outcomes, live: Outcomes, category: Category)
    requires forall id :: id in ids ==> id in baseline && id in live
    requires Sorted(ids, TextLeq) && NoDuplicates(ids)
    ensures forall id :: id in Filtered(ids, baseline, live, category) <==>
                         id in ids && CategoryOf(baseline, live, id) == category
    ensures Sorted(Filtered(ids, baseline, live, category), TextLeq) &&
            NoDuplicates(Filtered(ids, baseline, live, category))
  {
    if ids != [] {
      var front, last := ids[..|ids| - 1], ids[|ids| - 1];
      assert ids == front + [last];
      FilteredPart(front, baseline, live, category);
      forall id | id in Filtered(front, baseline, live, category) ensures TextLeq(id, last) && id != last {
        var i :| 0 <= i < |front| && front[i] == id;
        assert ids[i] == id;
      }
    }
  }

  lemma FilteredIsSorted(ids: seq<string>, baseline: Outcomes, live: Outcomes, category: Category)
    requires forall id :: id in ids <==> id in baseline && id in live
    requires Sorted(ids, TextLeq) && NoDuplicates(ids)
    requires !category.Missing? && !category.New?
    ensures Filtered(ids, baseline, live, category) == SortedList(Members(baseline, live, category))
  {
    FilteredPart(ids, baseline, live, category);
    assert Elements(Filtered(ids, baseline, live, category)) == Members(baseline, live, category);
    SortedListUnique(Filtered(ids, baseline, live, category));
  }

  // ----- what the comparison promises

  lemma BucketMembers(baseline: Outcomes, live: Outcomes, category: Category)
    ensures Elements(Bucket(Categories(baseline, live), category)) == Members(baseline, live, category)
    ensures Sorted(Bucket(Categories(baseline, live), category), TextLeq)
    ensures NoDuplicates(Bucket(Categories(baseline, live), category))
  {
    SortedListSorts(Members(baseline, live, category));
  }

  /** Every node id of either recording stands in exactly one bucket, once. */
  lemma ExactlyOneBucket(baseline: Outcomes, live: Outcomes, id: string)
    requires id in baseline || id in live
    ensures forall category :: id in Bucket(Categories(baseline, live), category) <==>
                               category == CategoryOf(baseline, live, id)
  {
    forall category
      ensures id in Bucket(Categories(baseline, live), category) <==> category == CategoryOf(baseline, live, id)
    {
      BucketMembers(baseline, live, category);
      assert id in Bucket(Categories(baseline, live), category) <==>
             id in Elements(Bucket(Categories(baseline, live), category));
    }
  }

  function Mirror(category: Category): Category {
    match category
    case Missing => New
    case New => Missing
    case Regression => Fixed
    case Fixed => Regression
    case same => same
  }

  lemma BucketIs(baseline: Outcomes, live: Outcomes, category: Category)
    ensures Bucket(Categories(baseline, live), category) == SortedList(Members(baseline, live, category))
  {
  }

  lemma CategoryMirrors(baseline: Outcomes, live: Outcomes, id: string)
    requires id in baseline || id in live
    ensures CategoryOf(live, baseline, id) == Mirror(CategoryOf(baseline, live, id))
  {
  }

  /** Comparing the other way round swaps missing with new and regressions with fixes. */
  lemma SwappingMirrors(baseline: Outcomes, live: Outcomes, category: Category)
    ensures Bucket(Categories(live, baseline), category) == Bucket(Categories(baseline, live), Mirror(category))
  {
    BucketIs(live, baseline, category);
    BucketIs(baseline, live, Mirror(category));
    forall id | id in baseline.Keys + live.Keys
      ensures CategoryOf(live, baseline, id) == category <==> CategoryOf(baseline, live, id) == Mirror(category)
    {
      CategoryMirrors(baseline, live, id);
    }
    assert Members(live, baseline, category) == Members(baseline, live, Mirror(category));
  }

  datatype Selector = SelectPassing | SelectFailing | SelectNew

  predicate Selected(id: string, baseline: Outcomes, selector: Selector) {
    match selector
    case SelectNew => id !in baseline
    case SelectPassing => id in baseline && PassOutcome(baseline[id].outcome)
    case SelectFailing => id in baseline && FailOutcome(baseline[id].outcome)
  }

  /** The live run with the tests outside the selection deselected. */
  function Restricted(live: Outcomes, baseline: Outcomes, selector: Selector): Outcomes {
    map id | id in live && Selected(id, baseline, selector) :: live[id]
  }

  lemma PassingKeepsRegressions(baseline: Outcomes, live: Outcomes)
    ensures Members(baseline, Restricted(live, baseline, SelectPassing), Regression) ==
            Members(baseline, live, Regression)
    ensures Members(baseline, Restricted(live, baseline, SelectPassing), Fixed) == {}
  {
  }

  lemma FailingKeepsFixes(baseline: Outcomes, live: Outcomes)
    ensures Members(baseline, Restricted(live, baseline, SelectFailing), Fixed) == Members(baseline, live, Fixed)
    ensures Members(baseline, Restricted(live, baseline, SelectFailing), Regression) == {}
  {
  }

  lemma NewKeepsNew(baseline: Outcomes, live: Outcomes)
    ensures Members(baseline, Restricted(live, baseline, SelectNew), New) == Members(baseline, live, New)
  {
  }

  /** Running only what passed keeps every regression and shows no fix; only what failed, every
      fix and no regression; only what is new, every new test. */
  lemma SelectionKeepsItsBucket(baseline: Outcomes, live: Outcomes)
    ensures Bucket(Categories(baseline, Restricted(live, baseline, SelectPassing)), Regression) ==
            Bucket(Categories(baseline, live), Regression)
    ensures Bucket(Categories(baseline, Restricted(live, baseline, SelectPassing)), Fixed) == []
    ensures Bucket(Categories(baseline, Restricted(live, baseline, SelectFailing)), Fixed) ==
            Bucket(Categories(baseline, live), Fixed)
    ensures Bucket(Categories(baseline, Restricted(live, baseline, SelectFailing)), Regression) == []
    ensures Bucket(Categories(baseline, Restricted(live, baseline, SelectNew)), New) ==
            Bucket(Categories(baseline, live), New)
  {
    PassingKeepsRegressions(baseline, live);
    FailingKeepsFixes(baseline, live);
    NewKeepsNew(baseline, live);
    BucketIs(baseline, live, Regression);
    BucketIs(baseline, live, Fixed);
    BucketIs(baseline, live, New);
    BucketIs(baseline, Restricted(live, baseline, SelectPassing), Regression);
    BucketIs(baseline, Restricted(live, baseline, SelectPassing), Fixed);
    BucketIs(baseline, Restricted(live, baseline, SelectFailing), Regression);
    BucketIs(baseline, Restricted(live, baseline, SelectFailing), Fixed);
    BucketIs(baseline, Restricted(live, baseline, SelectNew), New);
  }

  /** The node ids `_apply_xfail` marks: passed in the baseline, failed in the prior live run. */
  function KnownRegressions(baseline: Outcomes, prior: Outcomes): set<string> {
    set id | id in baseline && PassOutcome(baseline[id].outcome) && id in prior && FailOutcome(prior[id].outcome)
  }

  /** They are the comparison's regressions, and besides only gated node ids. */
  lemma KnownRegressionsAreRegressions(baseline: Outcomes, prior: Outcomes)
    ensures Elements(Categories(baseline, prior).regression) <= KnownRegressions(baseline, prior)
    ensures KnownRegressions(baseline, prior) <=
            Elements(Categories(baseline, prior).regression) + Elements(Categories(baseline, prior).gated)
  {
    BucketMembers(baseline, prior, Regression);
    BucketMembers(baseline, prior, GatedSkip);
    assert Members(baseline, prior, Regression) <= KnownRegressions(baseline, prior);
  }
}
