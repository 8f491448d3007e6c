/** What one boot pass decides, and what any sequence of crashes and boots can do. */
module BootTheorems {
  import opened Common
  import opened Lifecycle
  import opened BootReconcile

  // -------------------------------------------------- what one pass decides

  /** A parent row, when there is one, is older than its child. */
  predicate WellParented(ts: seq<BootTask>) {
    forall y :: 0 <= y < |ts| && ts[y].parent.Some? ==> ts[y].parent.value < y || |ts| <= ts[y].parent.value
  }

  /** Running or queued, and not touched by this process. */
  predicate Stale(t: BootTask, cutoff: nat) {
    (t.status.Running? || t.status.Queued?) && t.updatedAt < cutoff
  }

  /** The turn of a chat, not of a subagent, that boot has resumed less than three times. */
  predicate GoesOn(t: BootTask) {
    t.chat && t.parent.None? && t.resumes < 3
  }

  predicate Lost(t: BootTask, cutoff: nat) {
    Stale(t, cutoff) && !GoesOn(t)
  }

  predicate StalePark(t: BootTask, cutoff: nat) {
    (t.status.WaitingApproval? || t.status.NeedsInput?) && t.updatedAt < cutoff
  }

  /** A park that waits for nothing and has nothing to resume against. */
  predicate Stuck(t: BootTask, cutoff: nat) {
    StalePark(t, cutoff) && !t.pendingGate && !t.snapshot
  }

  /** A park whose every gate is decided, with its outcome on record and a call to resume. */
  predicate Answered(t: BootTask, cutoff: nat) {
    StalePark(t, cutoff) && !t.pendingGate && t.snapshot && t.accountable
  }

  /** What the scan's categories and the park loop's tests come to. */
  lemma CategoryMeans(t: BootTask, cutoff: nat)
    ensures CategoryOf(t, cutoff).Resume? <==> Stale(t, cutoff) && GoesOn(t)
    ensures CategoryOf(t, cutoff).FailIt? <==> Lost(t, cutoff)
    ensures CategoryOf(t, cutoff).Park? <==> StalePark(t, cutoff)
    ensures CategoryOf(t, cutoff).Park? && Wedged(t) <==> Stuck(t, cutoff)
    ensures CategoryOf(t, cutoff).Park? && Healable(t) <==> Answered(t, cutoff)
    ensures Doomed(t, cutoff) <==> Lost(t, cutoff) || Stuck(t, cutoff)
  {}

  /** The reference definition of who ends in this pass: the lost and the stuck, and every
      live task under a task that ends. */
  predicate Hit(ts: seq<BootTask>, cutoff: nat, y: nat)
    requires WellParented(ts)
    decreases y
  {
    y < |ts| && Alive(ts[y]) &&
    (Lost(ts[y], cutoff) || Stuck(ts[y], cutoff)
     || (ts[y].parent.Some? && ts[y].parent.value < y && Hit(ts, cutoff, ts[y].parent.value)))
  }

  function DoomedSet(ts: seq<BootTask>, cutoff: nat): set<nat> {
    set y: nat | y < |ts| && Doomed(ts[y], cutoff)
  }

  lemma PassShape(ts: seq<BootTask>, cutoff: nat, stamp: nat)
    ensures var scanned := Scan(ts, cutoff, stamp);
      Shape(scanned, Pass(ts, cutoff, stamp), DoomedSet(ts, cutoff), stamp)
    ensures forall y :: 0 <= y < |ts| && Doomed(ts[y], cutoff) ==> !Alive(Pass(ts, cutoff, stamp)[y])
  {
    var scanned := Scan(ts, cutoff, stamp);
    var failIds := Ids(ts, cutoff, FailIt, 0);
    var parkIds := Ids(ts, cutoff, Park, 0);
    var failed := FailAll(scanned, failIds, stamp);
    IdsExact(ts, cutoff, FailIt, 0);
    IdsExact(ts, cutoff, Park, 0);
    FailAllShape(scanned, failIds, stamp);
    ParkAllShape(failed, parkIds, stamp);
    ShapeCompose(scanned, failed, Pass(ts, cutoff, stamp), SetOf(failIds), WedgedIds(failed, parkIds), stamp);
    assert SetOf(failIds) + WedgedIds(failed, parkIds) <= DoomedSet(ts, cutoff);
    PassDooms(ts, cutoff, stamp);
  }

  lemma PassDooms(ts: seq<BootTask>, cutoff: nat, stamp: nat)
    ensures |Pass(ts, cutoff, stamp)| == |ts|
    ensures forall y :: 0 <= y < |ts| && Doomed(ts[y], cutoff) ==> !Alive(Pass(ts, cutoff, stamp)[y])
  {
    var scanned := Scan(ts, cutoff, stamp);
    var failIds := Ids(ts, cutoff, FailIt, 0);
    var parkIds := Ids(ts, cutoff, Park, 0);
    var failed := FailAll(scanned, failIds, stamp);
    IdsExact(ts, cutoff, FailIt, 0);
    IdsExact(ts, cutoff, Park, 0);
    FailAllShape(scanned, failIds, stamp);
    ParkAllShape(failed, parkIds, stamp);
    forall y | 0 <= y < |ts| && Doomed(ts[y], cutoff) ensures !Alive(Pass(ts, cutoff, stamp)[y]) {
      if y in parkIds {
        assert scanned[y] == ts[y];
        assert y in WedgedIds(failed, parkIds) || !Alive(failed[y]);
      }
    }
  }

  lemma {:induction false} PassHits(ts: seq<BootTask>, cutoff: nat, stamp: nat, y: nat)
    requires WellParented(ts) && y < |ts|
    ensures Flipped(Scan(ts, cutoff, stamp), Pass(ts, cutoff, stamp), y) <==> Hit(ts, cutoff, y)
    decreases y
  {
    PassShape(ts, cutoff, stamp);
    var p := ts[y].parent;
    if p.Some? && p.value < y {
      PassHits(ts, cutoff, stamp, p.value);
    }
  }

  // ------------------------------------------------- failed or cancelled

  lemma ParentsKept(a: seq<BootTask>, b: seq<BootTask>, stamp: nat)
    requires Frame(a, b, stamp) && WellParented(a)
    ensures WellParented(b)
  {
    forall y | 0 <= y < |b| && b[y].parent.Some? ensures b[y].parent.value < y || |b| <= b[y].parent.value {
      assert b[y].parent == a[y].parent;
    }
  }

  /** `b` is `a` with some live tasks from `lo` on cancelled. */
  predicate CancelsFrom(a: seq<BootTask>, b: seq<BootTask>, lo: nat, stamp: nat) {
    && |b| == |a|
    && forall y :: 0 <= y < |a| ==> b[y] == a[y] || (lo <= y && Alive(a[y]) && b[y] == Cancelling(a[y], stamp))
  }

  lemma CancelsCompose(a: seq<BootTask>, b: seq<BootTask>, c: seq<BootTask>, lo: nat, lo1: nat, stamp: nat)
    requires CancelsFrom(a, b, lo1, stamp) && CancelsFrom(b, c, lo, stamp) && lo <= lo1
    ensures CancelsFrom(a, c, lo, stamp)
  {
    forall y | 0 <= y < |a|
      ensures c[y] == a[y] || (lo <= y && Alive(a[y]) && c[y] == Cancelling(a[y], stamp))
    {
      assert b[y] == a[y] || (Alive(a[y]) && !Alive(b[y]));
    }
  }

  lemma {:induction false} CancelTreeUp(ts: seq<BootTask>, x: nat, stamp: nat)
    requires WellParented(ts)
    ensures CancelsFrom(ts, CancelTree(ts, x, stamp), x, stamp)
    decreases Alives(ts), 0
  {
    if x < |ts| && Alive(ts[x]) {
      AlivesDrops(ts, x, Cancelling(ts[x], stamp));
      var flipped := ts[x := Cancelling(ts[x], stamp)];
      CancelKidsUp(flipped, Children(flipped, x, |flipped|), x, stamp);
      CancelsCompose(ts, flipped, CancelTree(ts, x, stamp), x, x, stamp);
    }
  }

  lemma {:induction false} CancelKidsUp(ts: seq<BootTask>, kids: seq<nat>, lo: nat, stamp: nat)
    requires WellParented(ts) && forall k :: k in kids ==> lo <= k
    ensures CancelsFrom(ts, CancelKids(ts, kids, stamp), lo, stamp)
    decreases Alives(ts), |kids|
  {
    if kids != [] {
      var mid := CancelTree(ts, kids[0], stamp);
      assert kids[0] in kids;
      CancelTreeUp(ts, kids[0], stamp);
      CancelTreeShape(ts, kids[0], stamp);
      ParentsKept(ts, mid, stamp);
      forall k | k in kids[1..] ensures lo <= k { assert k in kids; }
      CancelKidsUp(mid, kids[1..], lo, stamp);
      CancelsCompose(ts, mid, CancelKids(mid, kids[1..], stamp), lo, kids[0], stamp);
    }
  }

  /** The root is failed, and only newer tasks are cancelled with it. */
  predicate FailsOne(a: seq<BootTask>, b: seq<BootTask>, x: nat, stamp: nat) {
    && x < |a| && |b| == |a| && b[x] == Failing(a[x], stamp)
    && forall y :: 0 <= y < |a| && y != x ==>
         b[y] == a[y] || (x < y && Alive(a[y]) && b[y] == Cancelling(a[y], stamp))
  }

  lemma FailTreeUp(ts: seq<BootTask>, x: nat, stamp: nat)
    requires WellParented(ts) && x < |ts| && Alive(ts[x])
    ensures FailsOne(ts, FailTree(ts, x, stamp), x, stamp) && WellParented(FailTree(ts, x, stamp))
  {
    var flipped := ts[x := Failing(ts[x], stamp)];
    CancelKidsUp(flipped, Children(flipped, x, |flipped|), x, stamp);
    FailTreeShape(ts, x, stamp);
    ParentsKept(ts, FailTree(ts, x, stamp), stamp);
  }

  /** A task that is failed itself, against one that can only be cancelled by a cascade. */
  predicate Verdict(before: BootTask, after: BootTask, itself: bool, stamp: nat) {
    if itself then after == Failing(before, stamp)
    else after == before || (Alive(before) && after == Cancelling(before, stamp))
  }

  lemma RestIsOlder(ids: seq<nat>)
    requires Descending(ids) && ids != []
    ensures Descending(ids[1..]) && forall z :: z in ids[1..] ==> z < ids[0] && z in ids
  {
    forall z | z in ids[1..] ensures z < ids[0] && z in ids {
      var i :| 0 <= i < |ids[1..]| && ids[1..][i] == z;
      assert ids[i + 1] == z;
    }
  }

  /** The newest task goes first, so no cascade reaches a task before its own turn. */
  lemma {:induction false} FailAllVerdict(ts: seq<BootTask>, ids: seq<nat>, stamp: nat, y: nat)
    requires WellParented(ts) && Descending(ids) && y < |ts|
    requires forall z :: z in ids ==> z < |ts| && Alive(ts[z])
    ensures Verdict(ts[y], FailAll(ts, ids, stamp)[y], y in ids, stamp)
    decreases |ids|
  {
    if ids != [] {
      var mid := FailTree(ts, ids[0], stamp);
      RestIsOlder(ids);
      assert ids[0] in ids;
      FailTreeUp(ts, ids[0], stamp);
      FailAllVerdict(mid, ids[1..], stamp, y);
      assert y in ids <==> y == ids[0] || y in ids[1..];
    }
  }

  lemma {:induction false} ParkAllVerdict(ts: seq<BootTask>, ids: seq<nat>, stamp: nat, y: nat)
    requires WellParented(ts) && Descending(ids) && y < |ts|
    ensures Verdict(ts[y], ParkAll(ts, ids, stamp)[y], y in ids && Wedged(ts[y]), stamp)
    decreases |ids|
  {
    if ids != [] {
      var x := ids[0];
      var mid := ParkStep(ts, x, stamp);
      RestIsOlder(ids);
      if x < |ts| && Wedged(ts[x]) { FailTreeUp(ts, x, stamp); }
      ParkAllVerdict(mid, ids[1..], stamp, y);
      assert y in ids <==> y == x || y in ids[1..];
    }
  }

  /** Ended by the loop over the orphans: failed there, or under a task that was. */
  predicate FailHit(ts: seq<BootTask>, cutoff: nat, y: nat)
    requires WellParented(ts)
    decreases y
  {
    y < |ts| && Alive(ts[y])
    && (Lost(ts[y], cutoff)
        || (ts[y].parent.Some? && ts[y].parent.value < y && FailHit(ts, cutoff, ts[y].parent.value)))
  }

  function Orphaned(ts: seq<BootTask>, cutoff: nat, stamp: nat): (r: seq<BootTask>)
    ensures |r| == |ts|
  {
    FailAll(Scan(ts, cutoff, stamp), Ids(ts, cutoff, FailIt, 0), stamp)
  }

  lemma {:induction false} FailHits(ts: seq<BootTask>, cutoff: nat, stamp: nat, y: nat)
    requires WellParented(ts) && y < |ts|
    ensures Flipped(Scan(ts, cutoff, stamp), Orphaned(ts, cutoff, stamp), y) <==> FailHit(ts, cutoff, y)
    decreases y
  {
    IdsExact(ts, cutoff, FailIt, 0);
    FailAllShape(Scan(ts, cutoff, stamp), Ids(ts, cutoff, FailIt, 0), stamp);
    var p := ts[y].parent;
    if p.Some? && p.value < y { FailHits(ts, cutoff, stamp, p.value); }
  }

  /** A task that ends is failed when it is lost itself, or a stuck park that no lost task
      takes along first; otherwise it is cancelled. */
  predicate FailedItself(ts: seq<BootTask>, cutoff: nat, y: nat)
    requires WellParented(ts) && y < |ts|
  {
    Lost(ts[y], cutoff) || (Stuck(ts[y], cutoff) && !FailHit(ts, cutoff, y))
  }

  lemma OrphanedParents(ts: seq<BootTask>, cutoff: nat, stamp: nat)
    requires WellParented(ts)
    ensures WellParented(Orphaned(ts, cutoff, stamp))
  {
    var scanned := Scan(ts, cutoff, stamp);
    FailAllShape(scanned, Ids(ts, cutoff, FailIt, 0), stamp);
    ParentsKept(scanned, Orphaned(ts, cutoff, stamp), stamp);
  }

  lemma OrphanPhase(ts: seq<BootTask>, cutoff: nat, stamp: nat, y: nat)
    requires WellParented(ts) && y < |ts|
    ensures var after := Orphaned(ts, cutoff, stamp)[y];
      if CategoryOf(ts[y], cutoff).FailIt? then after == Failing(ts[y], stamp)
      else if FailHit(ts, cutoff, y) then after == Cancelling(ts[y], stamp)
      else after == Scan(ts, cutoff, stamp)[y]
  {
    var scanned := Scan(ts, cutoff, stamp);
    var ids := Ids(ts, cutoff, FailIt, 0);
    IdsExact(ts, cutoff, FailIt, 0);
    FailAllVerdict(scanned, ids, stamp, y);
    FailHits(ts, cutoff, stamp, y);
  }

  lemma ParkPhase(ts: seq<BootTask>, cutoff: nat, stamp: nat, y: nat)
    requires WellParented(ts) && y < |ts|
    ensures var mid := Orphaned(ts, cutoff, stamp); var after := Pass(ts, cutoff, stamp)[y];
      if CategoryOf(ts[y], cutoff).Park? && Wedged(mid[y]) then after == Failing(mid[y], stamp)
      else after == mid[y] || (Alive(mid[y]) && after == Cancelling(mid[y], stamp))
  {
    OrphanedParents(ts, cutoff, stamp);
    IdsExact(ts, cutoff, Park, 0);
    ParkAllVerdict(Orphaned(ts, cutoff, stamp), Ids(ts, cutoff, Park, 0), stamp, y);
  }

  /** What one boot pass does to each task, exactly: a task ends iff it is hit, failed if it
      is at fault itself and cancelled otherwise; an eligible orphan is stamped and counted;
      anything else is untouched. */
  lemma PassExact(ts: seq<BootTask>, cutoff: nat, stamp: nat, y: nat)
    requires WellParented(ts) && y < |ts|
    ensures Pass(ts, cutoff, stamp)[y] == (
      if Hit(ts, cutoff, y) then
        if FailedItself(ts, cutoff, y) then ts[y].(status := Failed, updatedAt := stamp)
        else ts[y].(status := Cancelled, updatedAt := stamp, pendingGate := false, snapshot := false)
      else if Stale(ts[y], cutoff) && GoesOn(ts[y]) then ts[y].(resumes := ts[y].resumes + 1, updatedAt := stamp)
      else ts[y])
  {
    CategoryMeans(ts[y], cutoff);
    PassShape(ts, cutoff, stamp);
    PassHits(ts, cutoff, stamp, y);
    OrphanPhase(ts, cutoff, stamp, y);
    ParkPhase(ts, cutoff, stamp, y);
    if CategoryOf(ts[y], cutoff).Resume? { ResumeNotHit(ts, cutoff, y); }
  }

  /** A task left running or queued by the last process: dispatched again and counted iff it is
      a chat turn of its own that boot has resumed less than three times, and failed otherwise. */
  lemma OrphanDecided(ts: seq<BootTask>, cutoff: nat, stamp: nat, y: nat)
    requires WellParented(ts) && y < |ts|
    requires (ts[y].status.Running? || ts[y].status.Queued?) && ts[y].updatedAt < cutoff
    ensures Pass(ts, cutoff, stamp)[y] ==
      if ts[y].chat && ts[y].parent.None? && ts[y].resumes < 3
      then ts[y].(resumes := ts[y].resumes + 1, updatedAt := stamp)
      else ts[y].(status := Failed, updatedAt := stamp)
  {
    PassExact(ts, cutoff, stamp, y);
  }

  /** A task parked by the last process: failed iff nothing is pending, there is nothing to
      resume against and no lost task takes it along; cancelled iff its parent ends in the pass
      first; and otherwise left as it is, to be healed or to wait on. */
  lemma ParkDecided(ts: seq<BootTask>, cutoff: nat, stamp: nat, y: nat)
    requires WellParented(ts) && y < |ts|
    requires (ts[y].status.WaitingApproval? || ts[y].status.NeedsInput?) && ts[y].updatedAt < cutoff
    ensures Pass(ts, cutoff, stamp)[y] ==
      if !ts[y].pendingGate && !ts[y].snapshot && !FailHit(ts, cutoff, y) then ts[y].(status := Failed, updatedAt := stamp)
      else if ParentHit(ts, cutoff, y)
      then ts[y].(status := Cancelled, updatedAt := stamp, pendingGate := false, snapshot := false)
      else ts[y]
    ensures FailHit(ts, cutoff, y) <==>
      ts[y].parent.Some? && ts[y].parent.value < y && FailHit(ts, cutoff, ts[y].parent.value)
  {
    PassExact(ts, cutoff, stamp, y);
    if FailHit(ts, cutoff, y) { FailHitIsHit(ts, cutoff, ts[y].parent.value); }
  }

  lemma {:induction false} FailHitIsHit(ts: seq<BootTask>, cutoff: nat, y: nat)
    requires WellParented(ts) && FailHit(ts, cutoff, y)
    ensures Hit(ts, cutoff, y)
    decreases y
  {
    if !Lost(ts[y], cutoff) { FailHitIsHit(ts, cutoff, ts[y].parent.value); }
  }

  /** After a pass no task from before the cutoff is running or queued. */
  lemma NoStaleTaskInFlight(ts: seq<BootTask>, cutoff: nat, stamp: nat, y: nat)
    requires WellParented(ts) && y < |ts| && cutoff <= stamp
    ensures var after := Pass(ts, cutoff, stamp)[y];
      after.status.Running? || after.status.Queued? ==> cutoff <= after.updatedAt
  {
    PassExact(ts, cutoff, stamp, y);
  }

  predicate ParentHit(ts: seq<BootTask>, cutoff: nat, y: nat)
    requires WellParented(ts) && y < |ts|
  {
    ts[y].parent.Some? && ts[y].parent.value < y && Hit(ts, cutoff, ts[y].parent.value)
  }

  /** A park with a pending gate, and any live task of this process (updated at or after
      the cutoff), is untouched exactly when its parent does not end in the same pass:
      failTask cancels live children whatever their age and whatever they wait for. */
  lemma UntouchedIff(ts: seq<BootTask>, cutoff: nat, stamp: nat, y: nat)
    requires WellParented(ts) && y < |ts| && Alive(ts[y])
    requires (Parked(ts[y]) && ts[y].pendingGate) || cutoff <= ts[y].updatedAt
    ensures Pass(ts, cutoff, stamp)[y] == ts[y] <==> !ParentHit(ts, cutoff, y)
  {
    PassExact(ts, cutoff, stamp, y);
  }

  /** A concrete pass that ends both: a chat turn whose resumes are used up, and its parked
      subagent of this process, which waits on a pending gate. */
  lemma PendingParkCancelled(stamp: nat)
    ensures var parent := BootTask(Running, None, true, MAX_BOOT_RESUMES, 0, false, false, false);
      var child := BootTask(WaitingApproval, Some(0), true, 0, 1, true, true, false);
      !Alive(Pass([parent, child], 1, stamp)[1])
  {
    var parent := BootTask(Running, None, true, MAX_BOOT_RESUMES, 0, false, false, false);
    var child := BootTask(WaitingApproval, Some(0), true, 0, 1, true, true, false);
    var ts := [parent, child];
    assert Hit(ts, 1, 0);
    assert Hit(ts, 1, 1);
    PassExact(ts, 1, stamp, 1);
  }

  /** server.ts settles a leftover streaming block only if no resumed turn will write it. */
  predicate HealsBlock(ts: seq<BootTask>, owner: Option<nat>) {
    owner.None? || owner.value >= |ts|
    || (!InFlight(ts[owner.value]) && (Terminal(ts[owner.value].status) || Parked(ts[owner.value])))
  }

  /** The tasks this pass sets going again: the orphans it re-dispatches, and the parks it
      finds resumable when their turn comes. */
  predicate Restarted(ts: seq<BootTask>, cutoff: nat, y: nat)
    requires WellParented(ts) && y < |ts|
  {
    (Stale(ts[y], cutoff) && GoesOn(ts[y])) || (Answered(ts[y], cutoff) && !FailHit(ts, cutoff, y))
  }

  /** A healed block belongs to a task the same boot sets going again exactly when that task
      is a resumable park that no failed orphan takes along; a task whose block is left
      alone is re-dispatched or ends, unless it was touched after the cutoff. */
  lemma HealedBlockWriterExact(ts: seq<BootTask>, cutoff: nat, stamp: nat, y: nat)
    requires WellParented(ts) && y < |ts|
    ensures HealsBlock(ts, Some(y)) && Restarted(ts, cutoff, y) <==> Answered(ts[y], cutoff) && !FailHit(ts, cutoff, y)
    ensures !HealsBlock(ts, Some(y)) && ts[y].updatedAt < cutoff ==>
      Restarted(ts, cutoff, y) || Pass(ts, cutoff, stamp)[y].status == Failed
  {
    PassExact(ts, cutoff, stamp, y);
  }

  /** A park whose last gate was decided before the crash: its block is settled, and the
      same boot resumes the turn that would have written it. */
  lemma HealedParkRuns()
    ensures var ts := [BootTask(WaitingApproval, None, true, 0, 0, false, true, true)];
      HealsBlock(ts, Some(0)) && Restarted(ts, 1, 0)
  {
    HealedBlockWriterExact([BootTask(WaitingApproval, None, true, 0, 0, false, true, true)], 1, 0, 0);
  }

  // ---------------------------------------------------- crash after crash

  /** One boot: the tasks it finds, its cutoff, and the time it stamps. */
  datatype Epoch = Epoch(tasks: seq<BootTask>, cutoff: nat, stamp: nat)

  function After(e: Epoch): seq<BootTask> {
    Pass(e.tasks, e.cutoff, e.stamp)
  }

  /** Anything may happen between two boots, except that terminal tasks stay terminal and
      only the boot pass counts resumes. */
  predicate Evolves(a: seq<BootTask>, b: seq<BootTask>) {
    && |a| <= |b| && WellParented(b)
    && (forall y :: 0 <= y < |a| ==> b[y].resumes == a[y].resumes && (!Alive(a[y]) ==> b[y].status == a[y].status))
    && (forall y :: |a| <= y < |b| ==> b[y].resumes == 0)
  }

  predicate Boots(es: seq<Epoch>) {
    && (es != [] ==> Evolves([], es[0].tasks))
    && (forall i :: 0 <= i < |es| - 1 ==> Evolves(After(es[i]), es[i + 1].tasks))
    && (forall i :: 0 <= i < |es| ==> es[i].cutoff <= es[i].stamp)
  }

  /** How many of the boots dispatched the task again: stamped it and counted a resume. */
  function Dispatches(es: seq<Epoch>, y: nat): nat {
    if es == [] then 0
    else
      var last := es[|es| - 1];
      Dispatches(es[..|es| - 1], y)
      + if y < |last.tasks| && After(last)[y].resumes > last.tasks[y].resumes then 1 else 0
  }

  lemma BootsSplit(es: seq<Epoch>)
    requires Boots(es) && es != []
    ensures WellParented(es[|es| - 1].tasks)
    ensures |es| > 1 ==> Boots(es[..|es| - 1]) && Evolves(After(es[|es| - 2]), es[|es| - 1].tasks)
    ensures |es| == 1 ==> Evolves([], es[0].tasks)
  {
    var n := |es| - 1;
    if n > 0 {
      assert Evolves(After(es[n - 1]), es[n - 1 + 1].tasks);
      var before := es[..n];
      forall i | 0 <= i < |before| - 1 ensures Evolves(After(before[i]), before[i + 1].tasks) {
        assert Evolves(After(es[i]), es[i + 1].tasks);
      }
    }
  }

  /** One boot counts a resume exactly when it dispatches one, and only below the cap. */
  lemma BootCounts(e: Epoch, y: nat)
    requires WellParented(e.tasks) && y < |e.tasks|
    ensures |After(e)| == |e.tasks|
    ensures if Stale(e.tasks[y], e.cutoff) && GoesOn(e.tasks[y])
            then After(e)[y].resumes == e.tasks[y].resumes + 1 <= 3
            else After(e)[y].resumes == e.tasks[y].resumes
  {
    PassExact(e.tasks, e.cutoff, e.stamp, y);
  }

  /** Over any sequence of boots, a task that is not a chat turn, or has a parent, is never
      dispatched again. */
  lemma {:induction false} NeverDispatched(es: seq<Epoch>, y: nat)
    requires Boots(es)
    requires forall i :: 0 <= i < |es| && y < |es[i].tasks| ==> !es[i].tasks[y].chat || es[i].tasks[y].parent.Some?
    ensures Dispatches(es, y) == 0
    decreases |es|
  {
    if es != [] {
      BootsSplit(es);
      var n := |es| - 1;
      assert forall i :: 0 <= i < n ==> es[..n][i] == es[i];
      if n > 0 { NeverDispatched(es[..n], y); } else { assert es[..n] == []; }
      if y < |es[n].tasks| { BootCounts(es[n], y); }
    }
  }

  /** Over any sequence of crashes and boots, boot re-dispatches a task exactly as often as
      bootResumeCount says, and never more than three times. */
  lemma {:induction false} DispatchesBounded(es: seq<Epoch>, y: nat)
    requires Boots(es) && es != []
    ensures Dispatches(es, y) <= 3
    ensures Dispatches(es, y) == if y < |After(es[|es| - 1])| then After(es[|es| - 1])[y].resumes else 0
    decreases |es|
  {
    BootsSplit(es);
    var n := |es| - 1;
    var last := es[n];
    var before := es[..n];
    if n > 0 {
      DispatchesBounded(before, y);
      assert before[n - 1] == es[n - 1];
    } else {
      assert before == [] && Dispatches(before, y) == 0;
    }
    if y < |last.tasks| {
      BootCounts(last, y);
      assert Dispatches(before, y) == last.tasks[y].resumes;
    }
  }

  lemma ResumeNotHit(ts: seq<BootTask>, cutoff: nat, y: nat)
    requires WellParented(ts) && y < |ts| && CategoryOf(ts[y], cutoff).Resume?
    ensures !Hit(ts, cutoff, y)
  {}

  /** A task that used up its resumes is failed by the next boot that finds it orphaned, and
      it stays failed in every later one. */
  lemma {:induction false} ExhaustedTaskEnds(es: seq<Epoch>, i: nat, y: nat)
    requires Boots(es) && i < |es| && y < |es[i].tasks|
    requires es[i].tasks[y].resumes >= 3
    requires Stale(es[i].tasks[y], es[i].cutoff)
    ensures |es[i].tasks| <= |After(es[|es| - 1])| && After(es[|es| - 1])[y].status.Failed?
    decreases |es|
  {
    BootsSplit(es);
    var n := |es| - 1;
    if i < n {
      var before := es[..n];
      assert before[n - 1] == es[n - 1] && before[i] == es[i];
      ExhaustedTaskEnds(before, i, y);
    }
    FailedStaysOrFails(es[n], y);
  }

  lemma FailedStaysOrFails(e: Epoch, y: nat)
    requires WellParented(e.tasks) && y < |e.tasks|
    requires e.tasks[y].status.Failed?
      || (Stale(e.tasks[y], e.cutoff) && e.tasks[y].resumes >= 3)
    ensures |After(e)| == |e.tasks| && After(e)[y].status.Failed?
  {
    PassExact(e.tasks, e.cutoff, e.stamp, y);
  }
}
