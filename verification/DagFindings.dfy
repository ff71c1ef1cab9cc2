/** Exactly what the Dag-file scan reports (`find_runtime_varying_dag_args`). */
module DagFindings {
  import opened Prelude
  import opened DagSyntax
  import opened VaryingAnalyzer
  import opened DagArgsVisitor
  import opened DagReport
  import opened DagReplay
  import opened Ordering

  const NOTHING := Notes([], map[])

  function LastMade(visits: seq<Visit>, name: string): (i: int)
    ensures -1 <= i < |visits|
    ensures i >= 0 ==> MadeIn(visits[i], name)
    ensures forall k :: i < k < |visits| ==> !MadeIn(visits[k], name)
  {
    if visits == [] then -1
    else
      var last := |visits| - 1;
      if MadeIn(visits[last], name) then last
      else LastMade(visits[..last], name)
  }

  ghost predicate ParkedIn(deferred: map<string, Finding>, visits: seq<Visit>) {
    forall name ::
      var i := LastMade(visits, name);
      if i < 0 then name !in deferred else name in deferred && Describes(deferred[name], visits[i])
  }

  ghost predicate SurfacesAtAll(visits: seq<Visit>, finding: Finding) {
    exists j :: SurfacesFirst(visits, j, finding)
  }

  function Times(findings: seq<Finding>, finding: Finding): nat {
    multiset(findings)[finding]
  }

  ghost predicate CountedIn(findings: seq<Finding>, visits: seq<Visit>) {
    forall finding ::
      Times(findings, finding) == Directs(visits, finding) + if SurfacesAtAll(visits, finding) then 1 else 0
  }

  lemma ParkedMore(before: seq<Visit>, visit: Visit, notes: Notes)
    requires ParkedIn(notes.deferred, before)
    ensures ParkedIn(Noted(visit, notes).deferred, before + [visit])
  {
  }

  lemma {:induction false} NoDirects(visits: seq<Visit>, finding: Finding)
    ensures Directs(visits, finding) == 0 <==> forall i :: !Direct(visits, i, finding)
  {
    if visits != [] {
      var last := |visits| - 1;
      NoDirects(visits[..last], finding);
      assert forall i :: 0 <= i < last ==> Direct(visits, i, finding) == Direct(visits[..last], i, finding);
      assert Directs(visits, finding) == 0 ==> forall i :: Direct(visits, i, finding) ==> i < last;
    }
  }

  lemma ParkedBefore(before: seq<Visit>, visit: Visit, i: int, j: int, name: string)
    requires j <= |before|
    ensures IsParked(before + [visit], i, j, name) == IsParked(before, i, j, name)
  {
    var visits := before + [visit];
    assert forall k :: 0 <= k < |before| ==> visits[k] == before[k];
    if IsParked(before, i, j, name) {
      assert forall k :: i < k < j ==> !MadeIn(visits[k], name);
    }
    if IsParked(visits, i, j, name) {
      assert forall k :: i < k < j ==> !MadeIn(before[k], name);
    }
  }

  lemma ParkedIsLast(visits: seq<Visit>, i: int, name: string)
    ensures IsParked(visits, i, |visits|, name) <==> i == LastMade(visits, name) && i >= 0
  {
  }

  lemma SurfacesBefore(before: seq<Visit>, visit: Visit, j: int, finding: Finding)
    requires j < |before|
    ensures Surfaces(before + [visit], j, finding) == Surfaces(before, j, finding)
  {
    forall i, name ensures IsParked(before + [visit], i, j, name) == IsParked(before, i, j, name) {
      ParkedBefore(before, visit, i, j, name);
    }
  }

  lemma FirstBefore(before: seq<Visit>, visit: Visit, j: int, finding: Finding)
    requires j < |before|
    ensures SurfacesFirst(before + [visit], j, finding) == SurfacesFirst(before, j, finding)
  {
    SurfacesBefore(before, visit, j, finding);
    assert forall i :: i < j ==> Direct(before + [visit], i, finding) == Direct(before, i, finding);
  }

  /** The last visit surfaces what is kept for the function that it calls. */
  lemma SurfacesLast(before: seq<Visit>, visit: Visit, notes: Notes, finding: Finding)
    requires ParkedIn(notes.deferred, before)
    ensures Surfaces(before + [visit], |before|, finding) <==>
            visit.role.Stated? && visit.call.func.Name? && visit.call.func.id in notes.deferred
            && notes.deferred[visit.call.func.id] == finding
  {
    var visits := before + [visit];
    if visit.role.Stated? && visit.call.func.Name? {
      var name := visit.call.func.id;
      forall k ensures IsParked(visits, k, |before|, name) <==> k == LastMade(before, name) && k >= 0 {
        ParkedBefore(before, visit, k, |before|, name);
        ParkedIsLast(before, k, name);
      }
      if LastMade(before, name) >= 0 {
        assert IsParked(visits, LastMade(before, name), |before|, name);
      }
    }
  }

  lemma AllAsBefore(before: seq<Visit>, visit: Visit, finding: Finding)
    ensures SurfacesAtAll(before, finding) ==> SurfacesAtAll(before + [visit], finding)
    ensures SurfacesAtAll(before + [visit], finding) ==>
              SurfacesAtAll(before, finding) || SurfacesFirst(before + [visit], |before|, finding)
  {
    if j :| SurfacesFirst(before, j, finding) {
      FirstBefore(before, visit, j, finding);
    }
    if j :| SurfacesFirst(before + [visit], j, finding) {
      if j < |before| {
        FirstBefore(before, visit, j, finding);
      }
    }
  }

  lemma SurfacedTimes(before: seq<Visit>, visit: Visit, notes: Notes, finding: Finding)
    requires ParkedIn(notes.deferred, before)
    ensures Times(Surfaced(visit, notes).findings, finding) ==
            Times(notes.findings, finding)
            + if Surfaces(before + [visit], |before|, finding) && finding !in notes.findings then 1 else 0
  {
    SurfacesLast(before, visit, notes, finding);
  }

  /** What the last visit surfaces is reported once. */
  lemma SurfacedMore(before: seq<Visit>, visit: Visit, notes: Notes, finding: Finding)
    requires ParkedIn(notes.deferred, before) && CountedIn(notes.findings, before)
    ensures Times(Surfaced(visit, notes).findings, finding) ==
            Directs(before, finding) + if SurfacesAtAll(before + [visit], finding) then 1 else 0
  {
    var visits := before + [visit];
    SurfacedTimes(before, visit, notes, finding);
    AllAsBefore(before, visit, finding);
    NoDirects(before, finding);
    assert forall i :: i < |before| ==> Direct(visits, i, finding) == Direct(before, i, finding);
    assert finding in notes.findings <==> Times(notes.findings, finding) > 0;
    if Surfaces(visits, |before|, finding) && Directs(before, finding) == 0 {
      assert SurfacesFirst(visits, |before|, finding);
    }
  }

  lemma NotedMore(before: seq<Visit>, visit: Visit, notes: Notes, finding: Finding)
    ensures Times(Noted(visit, notes).findings, finding) ==
            Times(notes.findings, finding) + if Direct(before + [visit], |before|, finding) then 1 else 0
  {
  }

  lemma CountedMore(before: seq<Visit>, visit: Visit, notes: Notes)
    requires ParkedIn(notes.deferred, before) && CountedIn(notes.findings, before)
    ensures CountedIn(Noted(visit, Surfaced(visit, notes)).findings, before + [visit])
  {
    assert (before + [visit])[..|before|] == before;
    forall finding
      ensures Times(Noted(visit, Surfaced(visit, notes)).findings, finding) ==
              Directs(before + [visit], finding) + if SurfacesAtAll(before + [visit], finding) then 1 else 0
    {
      SurfacedMore(before, visit, notes, finding);
      NotedMore(before, visit, Surfaced(visit, notes), finding);
    }
  }

  lemma {:induction false} ReplayTells(visits: seq<Visit>)
    ensures ParkedIn(Replay(visits, NOTHING).deferred, visits)
    ensures CountedIn(Replay(visits, NOTHING).findings, visits)
  {
    if visits != [] {
      var before := visits[..|visits| - 1];
      var visit := visits[|visits| - 1];
      var notes := Replay(before, NOTHING);
      assert visits == before + [visit];
      ReplayTells(before);
      ReplayJoined(before, [visit], NOTHING);
      assert Replay([visit], notes) == Noted(visit, Surfaced(visit, notes));
      ParkedMore(before, visit, Surfaced(visit, notes));
      CountedMore(before, visit, notes);
    }
  }

  // ----- the report

  /** How often each finding is reported: once for each visit outside of functions that makes it, and once
      more when a call surfaced it before any of those did. */
  lemma ReportCounts(module_: seq<Stmt>, finding: Finding)
    ensures var visits := Visits(module_, START);
            Times(FindRuntimeVaryingDagArgs(module_), finding) ==
            Directs(visits, finding) + if SurfacesAtAll(visits, finding) then 1 else 0
  {
    ReportIsSorted(module_);
    BodyReplays(module_, START, NOTHING);
    ReplayTells(Visits(module_, START));
  }

  /** A finding is reported exactly when a visit outside of functions makes it, or a call by name of
      a function surfaces it: the last one made there before the call. */
  lemma ReportExactly(module_: seq<Stmt>, finding: Finding)
    ensures var visits := Visits(module_, START);
            finding in FindRuntimeVaryingDagArgs(module_) <==>
                       (exists i :: Direct(visits, i, finding)) || (exists j :: Surfaces(visits, j, finding))
  {
    var visits := Visits(module_, START);
    ReportCounts(module_, finding);
    NoDirects(visits, finding);
    if j :| Surfaces(visits, j, finding) {
      assert SurfacesFirst(visits, j, finding) || exists k :: Direct(visits, k, finding);
    }
    assert finding in FindRuntimeVaryingDagArgs(module_) <==> Times(FindRuntimeVaryingDagArgs(module_), finding) > 0;
  }
}
