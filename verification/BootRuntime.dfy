/** The boot pass as it is written: state updated in place, loops over the tasks. */
module BootRuntime {
  import opened Common
  import opened Lifecycle
  import opened BootReconcile
  import opened BootTheorems

  /** What the loop over the orphans leaves for the loop over the parks. */
  lemma AtTheParks(ts: seq<BootTask>, cutoff: nat, stamp: nat, y: nat)
    requires WellParented(ts) && y < |ts| && CategoryOf(ts[y], cutoff).Park?
    ensures Healable(Orphaned(ts, cutoff, stamp)[y]) <==> Answered(ts[y], cutoff) && !FailHit(ts, cutoff, y)
    ensures Wedged(Orphaned(ts, cutoff, stamp)[y]) <==> Stuck(ts[y], cutoff) && !FailHit(ts, cutoff, y)
  {
    OrphanPhase(ts, cutoff, stamp, y);
  }

  /** The parks still to come are as the loop first saw them. */
  predicate Untouched(now: seq<BootTask>, before: seq<BootTask>, ids: seq<nat>) {
    |now| == |before| && forall z :: z in ids ==> z < |now| && now[z] == before[z]
  }

  lemma ParkStepKeeps(ts: seq<BootTask>, was: seq<BootTask>, ids: seq<nat>, stamp: nat)
    requires WellParented(ts) && Descending(ids) && ids != [] && Untouched(ts, was, ids)
    ensures WellParented(ParkStep(ts, ids[0], stamp))
    ensures Descending(ids[1..]) && Untouched(ParkStep(ts, ids[0], stamp), was, ids[1..])
  {
    RestIsOlder(ids);
    assert ids[0] in ids;
    if Wedged(ts[ids[0]]) { FailTreeUp(ts, ids[0], stamp); }
  }

  /** `found` lists the members of `ids` that were healable (wedged) to begin with. */
  ghost predicate AreHealed(found: seq<nat>, ids: seq<nat>, was: seq<BootTask>) {
    forall y :: y in found <==> y in ids && y < |was| && Healable(was[y])
  }

  ghost predicate AreWedged(found: seq<nat>, ids: seq<nat>, was: seq<BootTask>) {
    forall y :: y in found <==> y in ids && y < |was| && Wedged(was[y])
  }

  lemma OneMore(healed: seq<nat>, wedged: seq<nat>, ids: seq<nat>, i: nat, was: seq<BootTask>)
    requires i < |ids| && ids[i] < |was|
    requires AreHealed(healed, ids[..i], was) && AreWedged(wedged, ids[..i], was)
    ensures AreHealed(if Healable(was[ids[i]]) then healed + [ids[i]] else healed, ids[..i + 1], was)
    ensures AreWedged(if Wedged(was[ids[i]]) then wedged + [ids[i]] else wedged, ids[..i + 1], was)
  {
    assert ids[..i + 1] == ids[..i] + [ids[i]];
  }

  lemma ResumedExact(ts: seq<BootTask>, cutoff: nat, stamp: nat, healed: seq<nat>)
    requires WellParented(ts) && AreHealed(healed, Ids(ts, cutoff, Park, 0), Orphaned(ts, cutoff, stamp))
    ensures forall y: nat :: y in Ids(ts, cutoff, Resume, 0) + healed <==> y < |ts| && Restarted(ts, cutoff, y)
  {
    IdsExact(ts, cutoff, Resume, 0);
    IdsExact(ts, cutoff, Park, 0);
    forall y: nat ensures y in Ids(ts, cutoff, Resume, 0) + healed <==> y < |ts| && Restarted(ts, cutoff, y) {
      if y < |ts| {
        CategoryMeans(ts[y], cutoff);
        if CategoryOf(ts[y], cutoff).Park? { AtTheParks(ts, cutoff, stamp, y); }
      }
    }
  }

  lemma FailedExact(ts: seq<BootTask>, cutoff: nat, stamp: nat, wedged: seq<nat>)
    requires WellParented(ts) && AreWedged(wedged, Ids(ts, cutoff, Park, 0), Orphaned(ts, cutoff, stamp))
    ensures forall y: nat :: y in Ids(ts, cutoff, FailIt, 0) + wedged <==> y < |ts| && FailedItself(ts, cutoff, y)
  {
    IdsExact(ts, cutoff, FailIt, 0);
    IdsExact(ts, cutoff, Park, 0);
    forall y: nat ensures y in Ids(ts, cutoff, FailIt, 0) + wedged <==> y < |ts| && FailedItself(ts, cutoff, y) {
      if y < |ts| {
        CategoryMeans(ts[y], cutoff);
        if CategoryOf(ts[y], cutoff).Park? { AtTheParks(ts, cutoff, stamp, y); }
      }
    }
  }

  // --------------------------------------------------------- the pass itself

  class Gateway {
    var tasks: seq<BootTask>

    method CancelTask(x: nat, stamp: nat)
      modifies this
      ensures tasks == CancelTree(old(tasks), x, stamp)
      decreases Alives(tasks), 0
    {
      if x >= |tasks| || Terminal(tasks[x].status) {
        return;
      }
      AlivesDrops(tasks, x, Cancelling(tasks[x], stamp));
      tasks := tasks[x := Cancelling(tasks[x], stamp)];
      CancelDescendantTasks(x, stamp);
    }

    /** Snapshot the live children, then cancel them one after the other. */
    method CancelDescendantTasks(x: nat, stamp: nat)
      modifies this
      ensures tasks == CancelKids(old(tasks), Children(old(tasks), x, |old(tasks)|), stamp)
      decreases Alives(tasks), |tasks| + 1
    {
      var kids := Children(tasks, x, |tasks|);
      var i := 0;
      while i < |kids|
        invariant 0 <= i <= |kids|
        invariant |tasks| == |old(tasks)| && Alives(tasks) <= Alives(old(tasks))
        invariant CancelKids(tasks, kids[i..], stamp) == CancelKids(old(tasks), kids, stamp)
      {
        assert kids[i..][1..] == kids[i + 1..];
        CancelTask(kids[i], stamp);
        i := i + 1;
      }
    }

    method FailTask(x: nat, stamp: nat)
      modifies this
      ensures tasks == FailTree(old(tasks), x, stamp)
    {
      if x >= |tasks| {
        return;
      }
      if !Terminal(tasks[x].status) {
        tasks := tasks[x := Failing(tasks[x], stamp)];
      }
      if tasks[x].status.Failed? {
        CancelDescendantTasks(x, stamp);
      }
    }

    /** The scan under the lock: classify every task, stamp the resumable ones. */
    method ScanTasks(cutoff: nat, stamp: nat) returns (resumeIds: seq<nat>, failIds: seq<nat>, parkedIds: seq<nat>)
      modifies this
      ensures tasks == Scan(old(tasks), cutoff, stamp)
      ensures resumeIds == Ids(old(tasks), cutoff, Resume, 0)
      ensures failIds == Ids(old(tasks), cutoff, FailIt, 0)
      ensures parkedIds == Ids(old(tasks), cutoff, Park, 0)
    {
      resumeIds, failIds, parkedIds := [], [], [];
      for y := |tasks| downto 0
        invariant |tasks| == |old(tasks)|
        invariant forall z :: y <= z < |tasks| ==> tasks[z] == Scan(old(tasks), cutoff, stamp)[z]
        invariant forall z :: 0 <= z < y ==> tasks[z] == old(tasks)[z]
        invariant resumeIds == Ids(old(tasks), cutoff, Resume, y)
        invariant failIds == Ids(old(tasks), cutoff, FailIt, y)
        invariant parkedIds == Ids(old(tasks), cutoff, Park, y)
      {
        var t := tasks[y];
        if (t.status.WaitingApproval? || t.status.NeedsInput?) && t.updatedAt < cutoff {
          parkedIds := parkedIds + [y];
        } else if (t.status.Running? || t.status.Queued?) && t.updatedAt < cutoff {
          if t.chat && t.parent.None? && t.resumes + 1 <= MAX_BOOT_RESUMES {
            tasks := tasks[y := t.(resumes := t.resumes + 1, updatedAt := stamp)];
            resumeIds := resumeIds + [y];
          } else {
            failIds := failIds + [y];
          }
        }
      }
    }

    method FailOrphans(ids: seq<nat>, stamp: nat)
      modifies this
      ensures tasks == FailAll(old(tasks), ids, stamp)
    {
      assert ids[0..] == ids;
      for i := 0 to |ids|
        invariant FailAll(tasks, ids[i..], stamp) == FailAll(old(tasks), ids, stamp)
      {
        assert ids[i..][1..] == ids[i + 1..];
        FailTask(ids[i], stamp);
      }
    }

    /** One park: heal what can be resumed, leave what waits on the user, fail what is wedged. */
    method HealPark(y: nat, stamp: nat) returns (heal: bool, wedged: bool)
      requires y < |tasks|
      modifies this
      ensures tasks == ParkStep(old(tasks), y, stamp)
      ensures heal == Healable(old(tasks)[y]) && wedged == Wedged(old(tasks)[y])
    {
      heal, wedged := false, false;
      var t := tasks[y];
      if !t.status.WaitingApproval? && !t.status.NeedsInput? {
        return;
      }
      if t.pendingGate {
        return;
      }
      if t.snapshot {
        heal := t.accountable;
        return;
      }
      wedged := true;
      FailTask(y, stamp);
    }

    method HealParks(ids: seq<nat>, stamp: nat) returns (healed: seq<nat>, wedged: seq<nat>)
      requires WellParented(tasks) && Descending(ids) && forall y :: y in ids ==> y < |tasks|
      modifies this
      ensures tasks == ParkAll(old(tasks), ids, stamp)
      ensures AreHealed(healed, ids, old(tasks)) && AreWedged(wedged, ids, old(tasks))
    {
      healed, wedged := [], [];
      assert ids[0..] == ids;
      for i := 0 to |ids|
        invariant ParkAll(tasks, ids[i..], stamp) == ParkAll(old(tasks), ids, stamp)
        invariant WellParented(tasks) && Descending(ids[i..]) && Untouched(tasks, old(tasks), ids[i..])
        invariant AreHealed(healed, ids[..i], old(tasks)) && AreWedged(wedged, ids[..i], old(tasks))
      {
        var y := ids[i];
        assert ids[i..][1..] == ids[i + 1..] && ids[i..][0] == y && y in ids[i..];
        ParkStepKeeps(tasks, old(tasks), ids[i..], stamp);
        OneMore(healed, wedged, ids, i, old(tasks));
        var heal, wedge := HealPark(y, stamp);
        if heal { healed := healed + [y]; }
        if wedge { wedged := wedged + [y]; }
      }
      assert ids[..|ids|] == ids;
    }

    /** The whole pass, and the two lists it answers with. Resumes and heals are kicked off
        detached; what they do next is part of what happens between two boots. */
    method ReconcileInFlightTasks(cutoff: nat, stamp: nat) returns (resumed: seq<nat>, failed: seq<nat>)
      requires WellParented(tasks)
      modifies this
      ensures tasks == Pass(old(tasks), cutoff, stamp)
      ensures forall y: nat :: y in resumed <==> y < |old(tasks)| && Restarted(old(tasks), cutoff, y)
      ensures forall y: nat :: y in failed <==> y < |old(tasks)| && FailedItself(old(tasks), cutoff, y)
    {
      var resumeIds, failIds, parkedIds := ScanTasks(cutoff, stamp);
      IdsExact(old(tasks), cutoff, FailIt, 0);
      IdsExact(old(tasks), cutoff, Park, 0);
      FailOrphans(failIds, stamp);
      OrphanedParents(old(tasks), cutoff, stamp);
      var healed, wedged := HealParks(parkedIds, stamp);
      ResumedExact(old(tasks), cutoff, stamp, healed);
      FailedExact(old(tasks), cutoff, stamp, wedged);
      resumed, failed := resumeIds + healed, failIds + wedged;
    }
  }
}
