/** reconcileInFlightTasks of packages/runtime/src/agent.ts: one boot pass as a function of
    the tasks, and the shape of what its cascades change.

    Times are numbers (the source compares ISO strings). Tasks are named by creation
    index; `snapshot` says that toolCallState still holds entries to resume against,
    `accountable` that every unresolved entry's gate has an outcome on record. */
module BootReconcile {
  import opened Common
  import opened Lifecycle

  const MAX_BOOT_RESUMES := 3

  datatype BootTask = BootTask(
    status: Status,
    parent: Option<nat>,
    chat: bool,
    resumes: nat,
    updatedAt: nat,
    pendingGate: bool,
    snapshot: bool,
    accountable: bool)

  predicate Parked(t: BootTask) {
    t.status.WaitingApproval? || t.status.NeedsInput?
  }

  predicate InFlight(t: BootTask) {
    t.status.Running? || t.status.Queued?
  }

  predicate Alive(t: BootTask) {
    !Terminal(t.status)
  }

  datatype Category = Park | Resume | FailIt | Skip

  function CategoryOf(t: BootTask, cutoff: nat): Category {
    if Parked(t) && t.updatedAt < cutoff then Park
    else if !(InFlight(t) && t.updatedAt < cutoff) then Skip
    else if t.chat && t.parent.None? && t.resumes + 1 <= MAX_BOOT_RESUMES then Resume
    else FailIt
  }

  /** resumeParkIfGatesSettled finds every gate settled and something to resume against. */
  predicate Healable(t: BootTask) {
    Parked(t) && !t.pendingGate && t.snapshot && t.accountable
  }

  predicate Wedged(t: BootTask) {
    Parked(t) && !Healable(t) && !t.pendingGate && !t.snapshot
  }

  /** The tasks the pass itself fails, before any cascade. */
  predicate Doomed(t: BootTask, cutoff: nat) {
    CategoryOf(t, cutoff).FailIt? || (CategoryOf(t, cutoff).Park? && Wedged(t))
  }

  function Resumed(t: BootTask, stamp: nat): BootTask {
    t.(resumes := t.resumes + 1, updatedAt := stamp)
  }

  // ------------------------------------------------ failTask and its cascade

  function Alives(ts: seq<BootTask>): nat {
    if ts == [] then 0 else Alives(ts[..|ts| - 1]) + if Alive(ts[|ts| - 1]) then 1 else 0
  }

  function Failing(t: BootTask, stamp: nat): BootTask {
    t.(status := Failed, updatedAt := stamp)
  }

  function Cancelling(t: BootTask, stamp: nat): BootTask {
    t.(status := Cancelled, updatedAt := stamp, pendingGate := false, snapshot := false)
  }

  lemma {:induction false} AlivesDrops(ts: seq<BootTask>, x: nat, t: BootTask)
    requires x < |ts| && Alive(ts[x]) && !Alive(t)
    ensures Alives(ts[x := t]) == Alives(ts) - 1
  {
    var n := |ts| - 1;
    if x < n {
      assert ts[x := t][..n] == ts[..n][x := t];
      AlivesDrops(ts[..n], x, t);
    } else {
      assert ts[x := t][..n] == ts[..n];
    }
  }

  /** Live children of `p` among the first `n` tasks, newest first. */
  function Children(ts: seq<BootTask>, p: nat, n: nat): (kids: seq<nat>)
    requires n <= |ts|
    ensures forall c: nat :: c in kids <==> c < n && ts[c].parent == Some(p) && Alive(ts[c])
  {
    if n == 0 then []
    else (if ts[n - 1].parent == Some(p) && Alive(ts[n - 1]) then [n - 1] else []) + Children(ts, p, n - 1)
  }

  function CancelTree(ts: seq<BootTask>, x: nat, stamp: nat): (r: seq<BootTask>)
    ensures |r| == |ts| && Alives(r) <= Alives(ts)
    decreases Alives(ts), 0
  {
    if x >= |ts| || !Alive(ts[x]) then ts
    else
      AlivesDrops(ts, x, Cancelling(ts[x], stamp));
      var flipped := ts[x := Cancelling(ts[x], stamp)];
      CancelKids(flipped, Children(flipped, x, |flipped|), stamp)
  }

  function CancelKids(ts: seq<BootTask>, kids: seq<nat>, stamp: nat): (r: seq<BootTask>)
    ensures |r| == |ts| && Alives(r) <= Alives(ts)
    decreases Alives(ts), |kids|
  {
    if kids == [] then ts else CancelKids(CancelTree(ts, kids[0], stamp), kids[1..], stamp)
  }

  function FailTree(ts: seq<BootTask>, x: nat, stamp: nat): (r: seq<BootTask>)
    ensures |r| == |ts|
  {
    if x >= |ts| then ts
    else
      var flipped := if Alive(ts[x]) then ts[x := Failing(ts[x], stamp)] else ts;
      if flipped[x].status.Failed? then CancelKids(flipped, Children(flipped, x, |flipped|), stamp) else flipped
  }

  // ------------------------------------------------------------- the pass

  function Scan(ts: seq<BootTask>, cutoff: nat, stamp: nat): seq<BootTask> {
    seq(|ts|, y requires 0 <= y < |ts| =>
      if CategoryOf(ts[y], cutoff).Resume? then Resumed(ts[y], stamp) else ts[y])
  }

  /** The ids of one category among the tasks from `n` on, in scan order: the task list holds
      the newest task first. */
  function Ids(ts: seq<BootTask>, cutoff: nat, category: Category, n: nat): seq<nat>
    requires n <= |ts|
    decreases |ts| - n
  {
    if n == |ts| then []
    else
      var newer := Ids(ts, cutoff, category, n + 1);
      if CategoryOf(ts[n], cutoff) == category then newer + [n] else newer
  }

  lemma {:induction false} IdsExact(ts: seq<BootTask>, cutoff: nat, category: Category, n: nat)
    requires n <= |ts|
    ensures forall y: nat :: y in Ids(ts, cutoff, category, n) <==> n <= y < |ts| && CategoryOf(ts[y], cutoff) == category
    ensures Descending(Ids(ts, cutoff, category, n))
    decreases |ts| - n
  {
    if n < |ts| {
      IdsExact(ts, cutoff, category, n + 1);
      var newer := Ids(ts, cutoff, category, n + 1);
      forall i | 0 <= i < |newer| ensures newer[i] > n { assert newer[i] in newer; }
    }
  }

  predicate Descending(ids: seq<nat>) {
    forall i, j :: 0 <= i < j < |ids| ==> ids[i] > ids[j]
  }

  function FailAll(ts: seq<BootTask>, ids: seq<nat>, stamp: nat): (r: seq<BootTask>)
    ensures |r| == |ts|
    decreases |ids|
  {
    if ids == [] then ts else FailAll(FailTree(ts, ids[0], stamp), ids[1..], stamp)
  }

  /** The park loop: heal, leave alone, or fail what nothing can resume any more. */
  function ParkStep(ts: seq<BootTask>, y: nat, stamp: nat): (r: seq<BootTask>)
    ensures |r| == |ts|
  {
    if y < |ts| && Wedged(ts[y]) then FailTree(ts, y, stamp) else ts
  }

  function ParkAll(ts: seq<BootTask>, ids: seq<nat>, stamp: nat): (r: seq<BootTask>)
    ensures |r| == |ts|
    decreases |ids|
  {
    if ids == [] then ts else ParkAll(ParkStep(ts, ids[0], stamp), ids[1..], stamp)
  }

  function Pass(ts: seq<BootTask>, cutoff: nat, stamp: nat): (r: seq<BootTask>)
    ensures |r| == |ts|
  {
    var failed := FailAll(Scan(ts, cutoff, stamp), Ids(ts, cutoff, FailIt, 0), stamp);
    ParkAll(failed, Ids(ts, cutoff, Park, 0), stamp)
  }

  // ------------------------------------------------- shape of every sub-step

  predicate Flipped(a: seq<BootTask>, b: seq<BootTask>, y: nat) {
    y < |a| && y < |b| && Alive(a[y]) && !Alive(b[y])
  }

  /** Every task is as before, or has just been failed or cancelled. */
  predicate Frame(a: seq<BootTask>, b: seq<BootTask>, stamp: nat) {
    && |b| == |a|
    && (forall y :: 0 <= y < |a| ==>
          b[y] == a[y] || (Alive(a[y]) && (b[y] == Failing(a[y], stamp) || b[y] == Cancelling(a[y], stamp))))
  }

  /** A flipped task leaves no live child. */
  predicate Closed(a: seq<BootTask>, b: seq<BootTask>) {
    forall y :: 0 <= y < |a| && y < |b| && Alive(b[y]) && a[y].parent.Some? ==> !Flipped(a, b, a[y].parent.value)
  }

  function SetOf(ids: seq<nat>): set<nat> {
    set k: nat | k in ids
  }

  /** A task is flipped as a root, or because its parent was flipped or is a root. */
  predicate Rooted(a: seq<BootTask>, b: seq<BootTask>, roots: set<nat>) {
    forall y :: 0 <= y < |a| && Flipped(a, b, y) ==>
      y in roots || (a[y].parent.Some? && (a[y].parent.value in roots || Flipped(a, b, a[y].parent.value)))
  }

  predicate Shape(a: seq<BootTask>, b: seq<BootTask>, roots: set<nat>, stamp: nat) {
    Frame(a, b, stamp) && Closed(a, b) && Rooted(a, b, roots)
  }

  lemma ShapeCompose(a: seq<BootTask>, b: seq<BootTask>, c: seq<BootTask>, r1: set<nat>, r2: set<nat>, stamp: nat)
    requires Shape(a, b, r1, stamp) && Shape(b, c, r2, stamp)
    ensures Shape(a, c, r1 + r2, stamp)
  {
    forall y | 0 <= y < |a| ensures Flipped(a, c, y) <==> Flipped(a, b, y) || Flipped(b, c, y) {}
  }

  /** `b` is `a` with its live task `x` ended. */
  predicate FlipOf(a: seq<BootTask>, b: seq<BootTask>, x: nat, stamp: nat) {
    x < |a| && Alive(a[x]) && (b == a[x := Cancelling(a[x], stamp)] || b == a[x := Failing(a[x], stamp)])
  }

  predicate LiveKid(ts: seq<BootTask>, x: nat, k: nat) {
    k < |ts| && ts[k].parent == Some(x) && Alive(ts[k])
  }

  lemma FlipThenKidsClosed(ts: seq<BootTask>, flipped: seq<BootTask>, r: seq<BootTask>, x: nat, stamp: nat)
    requires FlipOf(ts, flipped, x, stamp) && Frame(flipped, r, stamp) && Closed(flipped, r)
    requires forall k: nat :: LiveKid(flipped, x, k) ==> !Alive(r[k])
    ensures Closed(ts, r)
  {
    forall y | 0 <= y < |ts| && Alive(r[y]) && ts[y].parent.Some? ensures !Flipped(ts, r, ts[y].parent.value) {
      assert y != x && flipped[y] == ts[y] && !LiveKid(flipped, x, y);
      assert !Flipped(flipped, r, ts[y].parent.value);
    }
  }

  lemma FlipThenKidsRooted(ts: seq<BootTask>, flipped: seq<BootTask>, r: seq<BootTask>, x: nat, kids: set<nat>, stamp: nat)
    requires FlipOf(ts, flipped, x, stamp) && Frame(flipped, r, stamp) && Rooted(flipped, r, kids)
    requires forall k: nat :: k in kids ==> LiveKid(flipped, x, k) && !Alive(r[k])
    ensures Rooted(ts, r, {x})
  {
    forall y | 0 <= y < |ts| && Flipped(ts, r, y) && y != x
      ensures ts[y].parent.Some? && (ts[y].parent.value == x || Flipped(ts, r, ts[y].parent.value))
    {
      assert flipped[y] == ts[y] && Flipped(flipped, r, y);
      if y in kids {
        assert LiveKid(flipped, x, y);
      } else {
        var p := ts[y].parent.value;
        if p in kids { assert LiveKid(flipped, x, p); }
      }
    }
  }

  /** Flip a root, then end the children it has after the flip: one closed, rooted step. */
  lemma FlipThenKids(ts: seq<BootTask>, flipped: seq<BootTask>, r: seq<BootTask>, x: nat, stamp: nat)
    requires FlipOf(ts, flipped, x, stamp)
    requires Shape(flipped, r, SetOf(Children(flipped, x, |flipped|)), stamp)
    requires forall k :: k in Children(flipped, x, |flipped|) ==> !Alive(r[k])
    ensures Shape(ts, r, {x}, stamp) && !Alive(r[x])
  {
    forall k: nat ensures k in SetOf(Children(flipped, x, |flipped|)) <==> LiveKid(flipped, x, k) {}
    FlipThenKidsClosed(ts, flipped, r, x, stamp);
    FlipThenKidsRooted(ts, flipped, r, x, SetOf(Children(flipped, x, |flipped|)), stamp);
    DeadStays(flipped, r, x, stamp);
  }

  lemma {:induction false} CancelTreeShape(ts: seq<BootTask>, x: nat, stamp: nat)
    ensures Shape(ts, CancelTree(ts, x, stamp), {x}, stamp)
    ensures x < |ts| ==> !Alive(CancelTree(ts, x, stamp)[x])
    decreases Alives(ts), 0
  {
    if x < |ts| && Alive(ts[x]) {
      AlivesDrops(ts, x, Cancelling(ts[x], stamp));
      var flipped := ts[x := Cancelling(ts[x], stamp)];
      CancelKidsShape(flipped, Children(flipped, x, |flipped|), stamp);
      FlipThenKids(ts, flipped, CancelTree(ts, x, stamp), x, stamp);
    }
  }

  lemma {:induction false} CancelKidsShape(ts: seq<BootTask>, kids: seq<nat>, stamp: nat)
    ensures Shape(ts, CancelKids(ts, kids, stamp), SetOf(kids), stamp)
    ensures forall k :: k in kids && k < |ts| ==> !Alive(CancelKids(ts, kids, stamp)[k])
    decreases Alives(ts), |kids|
  {
    if kids != [] {
      var mid := CancelTree(ts, kids[0], stamp);
      CancelTreeShape(ts, kids[0], stamp);
      CancelKidsShape(mid, kids[1..], stamp);
      ShapeCompose(ts, mid, CancelKids(mid, kids[1..], stamp), {kids[0]}, SetOf(kids[1..]), stamp);
      assert SetOf(kids) == {kids[0]} + SetOf(kids[1..]);
    }
  }

  lemma FailTreeShape(ts: seq<BootTask>, x: nat, stamp: nat)
    ensures Shape(ts, FailTree(ts, x, stamp), {x}, stamp)
    ensures x < |ts| ==> !Alive(FailTree(ts, x, stamp)[x])
  {
    if x < |ts| && Alive(ts[x]) {
      var flipped := ts[x := Failing(ts[x], stamp)];
      CancelKidsShape(flipped, Children(flipped, x, |flipped|), stamp);
      FlipThenKids(ts, flipped, FailTree(ts, x, stamp), x, stamp);
    } else if x < |ts| && ts[x].status.Failed? {
      CancelKidsShape(ts, Children(ts, x, |ts|), stamp);
    }
  }

  lemma {:induction false} FailAllShape(ts: seq<BootTask>, ids: seq<nat>, stamp: nat)
    ensures Shape(ts, FailAll(ts, ids, stamp), SetOf(ids), stamp)
    ensures forall x :: x in ids && x < |ts| ==> !Alive(FailAll(ts, ids, stamp)[x])
    decreases |ids|
  {
    if ids != [] {
      var mid := FailTree(ts, ids[0], stamp);
      FailTreeShape(ts, ids[0], stamp);
      FailAllShape(mid, ids[1..], stamp);
      ShapeCompose(ts, mid, FailAll(mid, ids[1..], stamp), {ids[0]}, SetOf(ids[1..]), stamp);
      assert SetOf(ids) == {ids[0]} + SetOf(ids[1..]);
    }
  }

  /** The parks among `ids` that the pass gives up on. */
  function WedgedIds(ts: seq<BootTask>, ids: seq<nat>): set<nat> {
    set y: nat | y in ids && y < |ts| && Wedged(ts[y])
  }

  lemma ParkStepShape(ts: seq<BootTask>, y: nat, stamp: nat)
    ensures Shape(ts, ParkStep(ts, y, stamp), if y < |ts| && Wedged(ts[y]) then {y} else {}, stamp)
    ensures y < |ts| && Wedged(ts[y]) ==> !Alive(ParkStep(ts, y, stamp)[y])
  {
    FailTreeShape(ts, y, stamp);
  }

  lemma WedgedStays(ts: seq<BootTask>, mid: seq<BootTask>, ids: seq<nat>, y: nat, stamp: nat)
    requires ids != [] && Frame(ts, mid, stamp) && y in WedgedIds(ts, ids)
    ensures y == ids[0] || !Alive(mid[y]) || y in WedgedIds(mid, ids[1..])
  {
    if y != ids[0] && Alive(mid[y]) {
      assert mid[y] == ts[y] && y in ids[1..];
    }
  }

  lemma DeadStays(a: seq<BootTask>, b: seq<BootTask>, y: nat, stamp: nat)
    requires Frame(a, b, stamp) && y < |a| && !Alive(a[y])
    ensures b[y] == a[y]
  {}

  lemma ShapeWeaken(a: seq<BootTask>, b: seq<BootTask>, r1: set<nat>, r2: set<nat>, stamp: nat)
    requires Shape(a, b, r1, stamp) && r1 <= r2
    ensures Shape(a, b, r2, stamp)
  {}

  lemma {:induction false} ParkAllShape(ts: seq<BootTask>, ids: seq<nat>, stamp: nat)
    ensures Shape(ts, ParkAll(ts, ids, stamp), WedgedIds(ts, ids), stamp)
    ensures forall y :: y in WedgedIds(ts, ids) ==> !Alive(ParkAll(ts, ids, stamp)[y])
    decreases |ids|
  {
    if ids != [] {
      var mid := ParkStep(ts, ids[0], stamp);
      var rest := ids[1..];
      var r := ParkAll(mid, rest, stamp);
      ParkAllShape(mid, rest, stamp);
      var first: set<nat> := if ids[0] < |ts| && Wedged(ts[ids[0]]) then {ids[0]} else {};
      ParkStepShape(ts, ids[0], stamp);
      ShapeCompose(ts, mid, r, first, WedgedIds(mid, rest), stamp);
      forall y | y in WedgedIds(mid, rest) ensures y in WedgedIds(ts, ids) {
        assert mid[y] == ts[y];
      }
      ShapeWeaken(ts, r, first + WedgedIds(mid, rest), WedgedIds(ts, ids), stamp);
      forall y | y in WedgedIds(ts, ids) ensures !Alive(r[y]) {
        WedgedStays(ts, mid, ids, y, stamp);
        if !Alive(mid[y]) { DeadStays(mid, r, y, stamp); }
      }
    }
  }
}
