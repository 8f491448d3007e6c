/** The block list of packages/mobile/src/queries.ts, `useChatStream`: upsert by id, the seed
    merge, and what at-least-once delivery does to them. */
module ChatBlocks {
  import opened Common

  datatype Block = Block(id: string, sessionId: string, body: string)

  /** The first position holding `id`, or -1. */
  function Find(list: seq<Block>, id: string): (i: int)
    ensures -1 <= i < |list|
    ensures i >= 0 ==> list[i].id == id
  {
    if list == [] then -1
    else if list[0].id == id then 0
    else
      var i := Find(list[1..], id);
      if i < 0 then -1 else i + 1
  }

  /** Replace the block with this id where it stands, or append a new one. */
  function Upsert(list: seq<Block>, b: Block): seq<Block> {
    if Find(list, b.id) >= 0 then list[Find(list, b.id) := b] else list + [b]
  }

  method UpsertBlock(list: seq<Block>, block: Block) returns (next: seq<Block>)
    ensures next == Upsert(list, block)
  {
    var idx := -1;
    for i := 0 to |list|
      invariant idx == -1
      invariant Find(list, block.id) == if Find(list[i..], block.id) < 0 then -1 else Find(list[i..], block.id) + i
    {
      if list[i].id == block.id {
        idx := i;
        break;
      }
      assert list[i..][1..] == list[i + 1..];
    }
    if idx >= 0 {
      next := [];
      for i := 0 to |list|
        invariant next == list[idx := block][..i]
      {
        next := next + [if i == idx then block else list[i]];
      }
    } else {
      next := list + [block];
    }
  }

  /** The seed response, then whatever was already there under other ids. */
  function Merge(seed: seq<Block>, existing: seq<Block>): seq<Block> {
    seed + Without(existing, seed)
  }

  function Without(list: seq<Block>, seed: seq<Block>): seq<Block> {
    if list == [] then []
    else
      var before, b := Without(list[..|list| - 1], seed), list[|list| - 1];
      if Find(seed, b.id) >= 0 then before else before + [b]
  }

  predicate DistinctIds(list: seq<Block>) {
    forall i, j :: 0 <= i < j < |list| ==> list[i].id != list[j].id
  }

  lemma {:induction false} FindExact(list: seq<Block>, id: string, i: nat)
    requires i < |list| && list[i].id == id
    ensures 0 <= Find(list, id) <= i
    ensures DistinctIds(list) ==> Find(list, id) == i
  {
    if list[0].id != id { FindExact(list[1..], id, i - 1); }
  }

  // --------------------------------------------------------------- meaning

  function IdsOf(list: seq<Block>): seq<string> {
    seq(|list|, i requires 0 <= i < |list| => list[i].id)
  }

  function Lookup(list: seq<Block>, id: string): Option<Block> {
    if Find(list, id) >= 0 then Some(list[Find(list, id)]) else None
  }

  function UpsertAll(list: seq<Block>, frames: seq<Block>): seq<Block> {
    if frames == [] then list
    else Upsert(UpsertAll(list, frames[..|frames| - 1]), frames[|frames| - 1])
  }

  /** The last frame with this id, or what was there before. */
  function Latest(before: Option<Block>, frames: seq<Block>, id: string): Option<Block> {
    if frames == [] then before
    else if frames[|frames| - 1].id == id then Some(frames[|frames| - 1])
    else Latest(before, frames[..|frames| - 1], id)
  }

  /** The ids in order of first appearance. */
  function Appearing(before: seq<string>, frames: seq<Block>): seq<string> {
    if frames == [] then before
    else
      var ids, id := Appearing(before, frames[..|frames| - 1]), frames[|frames| - 1].id;
      if id in ids then ids else ids + [id]
  }

  lemma FindIffId(list: seq<Block>, id: string)
    ensures Find(list, id) >= 0 <==> id in IdsOf(list)
  {
    if id in IdsOf(list) {
      var i :| 0 <= i < |list| && IdsOf(list)[i] == id;
      FindExact(list, id, i);
    }
    if Find(list, id) >= 0 { assert IdsOf(list)[Find(list, id)] == id; }
  }

  lemma UpsertMeaning(list: seq<Block>, b: Block, id: string)
    requires DistinctIds(list)
    ensures DistinctIds(Upsert(list, b))
    ensures IdsOf(Upsert(list, b)) == if b.id in IdsOf(list) then IdsOf(list) else IdsOf(list) + [b.id]
    ensures Lookup(Upsert(list, b), id) == if b.id == id then Some(b) else Lookup(list, id)
  {
    var next, at := Upsert(list, b), Find(list, b.id);
    FindIffId(list, b.id);
    if at < 0 {
      forall i | 0 <= i < |list| ensures list[i].id != b.id {
        assert IdsOf(list)[i] == list[i].id;
      }
    }
    assert DistinctIds(next);
    if b.id == id {
      FindExact(next, id, if at >= 0 then at else |list|);
    } else if Find(list, id) >= 0 {
      FindExact(next, id, Find(list, id));
    } else if Find(next, id) >= 0 {
      FindExact(list, id, Find(next, id));
    }
  }

  /** Ids stay unique, each id holds its last frame, and the order is that of first
      appearance. */
  lemma {:induction false} UpsertAllMeaning(list: seq<Block>, frames: seq<Block>, id: string)
    requires DistinctIds(list)
    ensures DistinctIds(UpsertAll(list, frames))
    ensures IdsOf(UpsertAll(list, frames)) == Appearing(IdsOf(list), frames)
    ensures Lookup(UpsertAll(list, frames), id) == Latest(Lookup(list, id), frames, id)
  {
    if frames != [] {
      var n := |frames| - 1;
      UpsertAllMeaning(list, frames[..n], id);
      UpsertMeaning(UpsertAll(list, frames[..n]), frames[n], id);
    }
  }

  /** A list with unique ids is determined by its ids and what each holds. */
  lemma Extensional(a: seq<Block>, b: seq<Block>)
    requires DistinctIds(a) && DistinctIds(b) && IdsOf(a) == IdsOf(b)
    requires forall id :: Lookup(a, id) == Lookup(b, id)
    ensures a == b
  {
    assert |a| == |IdsOf(a)| == |b|;
    forall i | 0 <= i < |a| ensures a[i] == b[i] {
      assert IdsOf(a)[i] == IdsOf(b)[i];
      FindExact(a, a[i].id, i);
      FindExact(b, a[i].id, i);
      assert Lookup(a, a[i].id) == Lookup(b, a[i].id);
    }
  }

  predicate Mentions(frames: seq<Block>, id: string) {
    exists i :: 0 <= i < |frames| && frames[i].id == id
  }

  lemma {:induction false} LatestExact(before: Option<Block>, frames: seq<Block>, id: string)
    ensures !Mentions(frames, id) ==> Latest(before, frames, id) == before
    ensures Mentions(frames, id) ==> forall other :: Latest(before, frames, id) == Latest(other, frames, id)
  {
    if frames != [] {
      var n := |frames| - 1;
      LatestExact(before, frames[..n], id);
      if frames[n].id != id {
        if i :| 0 <= i < |frames| && frames[i].id == id { assert frames[..n][i].id == id; }
      }
    }
  }

  lemma {:induction false} LatestConcat(before: Option<Block>, a: seq<Block>, b: seq<Block>, id: string)
    ensures Latest(before, a + b, id) == Latest(Latest(before, a, id), b, id)
  {
    if b == [] {
      assert a + b == a;
    } else {
      var n := |b| - 1;
      assert (a + b)[..|a| + n] == a + b[..n];
      LatestConcat(before, a, b[..n], id);
    }
  }

  lemma {:induction false} AppearingKnown(ids: seq<string>, frames: seq<Block>)
    requires forall i :: 0 <= i < |frames| ==> frames[i].id in ids
    ensures Appearing(ids, frames) == ids
  {
    if frames != [] { AppearingKnown(ids, frames[..|frames| - 1]); }
  }

  lemma {:induction false} AppearingHas(ids: seq<string>, frames: seq<Block>, i: nat)
    requires i < |frames|
    ensures frames[i].id in Appearing(ids, frames)
  {
    if i < |frames| - 1 { AppearingHas(ids, frames[..|frames| - 1], i); }
  }

  // ----------------------------------------- at least once is exactly once

  /** The client's side of a resumable stream: it takes the next frame, or reconnects and is
      sent everything from an earlier frame on. */
  datatype Move = Take | Rewind(to: nat)

  /** The list, the next frame to arrive, and the furthest one received so far. */
  datatype Cursor = Cursor(list: seq<Block>, next: nat, furthest: nat)

  function Receive(frames: seq<Block>, c: Cursor, m: Move): Cursor {
    match m
    case Take =>
      if c.next < |frames|
      then Cursor(Upsert(c.list, frames[c.next]), c.next + 1, if c.furthest < c.next + 1 then c.next + 1 else c.furthest)
      else c
    case Rewind(to) => if to <= c.next then c.(next := to) else c
  }

  function ReceiveAll(frames: seq<Block>, c: Cursor, moves: seq<Move>): Cursor {
    if moves == [] then c
    else Receive(frames, ReceiveAll(frames, c, moves[..|moves| - 1]), moves[|moves| - 1])
  }

  /** Reading on to the furthest frame seen restores the list of a client that received
      every frame once. */
  ghost predicate CatchesUp(frames: seq<Block>, start: seq<Block>, c: Cursor) {
    && c.next <= c.furthest <= |frames|
    && DistinctIds(c.list)
    && IdsOf(c.list) == Appearing(IdsOf(start), frames[..c.furthest])
    && forall id :: Latest(Lookup(c.list, id), frames[c.next..c.furthest], id)
                 == Latest(Lookup(start, id), frames[..c.furthest], id)
  }

  lemma RewindKeeps(frames: seq<Block>, start: seq<Block>, c: Cursor, to: nat)
    requires CatchesUp(frames, start, c) && to <= c.next
    ensures CatchesUp(frames, start, c.(next := to))
  {
    var again := frames[to..c.next];
    assert frames[to..c.furthest] == again + frames[c.next..c.furthest];
    assert frames[..c.furthest] == frames[..to] + frames[to..c.furthest];
    forall id
      ensures Latest(Lookup(c.list, id), frames[to..c.furthest], id) == Latest(Lookup(start, id), frames[..c.furthest], id)
    {
      LatestConcat(Lookup(start, id), frames[..to], frames[to..c.furthest], id);
      LatestConcat(Lookup(c.list, id), again, frames[c.next..c.furthest], id);
      LatestExact(Lookup(c.list, id), frames[to..c.furthest], id);
      LatestExact(Lookup(c.list, id), again, id);
      if Mentions(again, id) {
        var i :| 0 <= i < |again| && again[i].id == id;
        assert frames[to..c.furthest][i].id == id;
      }
    }
  }

  lemma TakeOld(frames: seq<Block>, start: seq<Block>, c: Cursor)
    requires CatchesUp(frames, start, c) && c.next < c.furthest
    ensures CatchesUp(frames, start, Receive(frames, c, Take))
  {
    var f := frames[c.next];
    assert frames[..c.furthest][c.next] == f;
    AppearingHas(IdsOf(start), frames[..c.furthest], c.next);
    assert frames[c.next..c.furthest] == [f] + frames[c.next + 1..c.furthest];
    UpsertMeaning(c.list, f, f.id);
    forall id
      ensures Latest(Lookup(Upsert(c.list, f), id), frames[c.next + 1..c.furthest], id)
           == Latest(Lookup(start, id), frames[..c.furthest], id)
    {
      UpsertMeaning(c.list, f, id);
      LatestConcat(Lookup(c.list, id), [f], frames[c.next + 1..c.furthest], id);
      LatestOne(Lookup(c.list, id), f, id);
    }
  }

  lemma LatestOne(before: Option<Block>, f: Block, id: string)
    ensures Latest(before, [f], id) == if f.id == id then Some(f) else before
  {
    assert [f][..0] == [];
  }

  lemma TakeNew(frames: seq<Block>, start: seq<Block>, c: Cursor)
    requires CatchesUp(frames, start, c) && c.next == c.furthest < |frames|
    ensures CatchesUp(frames, start, Receive(frames, c, Take))
  {
    var f, n := frames[c.next], c.next;
    assert frames[..n + 1][..n] == frames[..n];
    assert frames[n..n] == [] && frames[n + 1..n + 1] == [];
    UpsertMeaning(c.list, f, f.id);
    forall id ensures Lookup(Upsert(c.list, f), id) == Latest(Lookup(start, id), frames[..n + 1], id) {
      UpsertMeaning(c.list, f, id);
      assert Latest(Lookup(c.list, id), frames[n..n], id) == Latest(Lookup(start, id), frames[..n], id);
    }
  }

  lemma {:induction false} ReceiveKeeps(frames: seq<Block>, start: seq<Block>, moves: seq<Move>)
    requires DistinctIds(start)
    ensures CatchesUp(frames, start, ReceiveAll(frames, Cursor(start, 0, 0), moves))
  {
    if moves == [] {
      assert frames[..0] == [];
    } else {
      var before := ReceiveAll(frames, Cursor(start, 0, 0), moves[..|moves| - 1]);
      ReceiveKeeps(frames, start, moves[..|moves| - 1]);
      match moves[|moves| - 1]
      case Rewind(to) => if to <= before.next { RewindKeeps(frames, start, before, to); }
      case Take =>
        if before.next < before.furthest { TakeOld(frames, start, before); }
        else if before.next < |frames| { TakeNew(frames, start, before); }
    }
  }

  /** However often the stream is resumed from an earlier frame, a client that has caught up
      holds exactly the list of a client that received every frame once. */
  lemma AtLeastOnceIsExactlyOnce(frames: seq<Block>, start: seq<Block>, moves: seq<Move>)
    requires DistinctIds(start)
    requires var c := ReceiveAll(frames, Cursor(start, 0, 0), moves); c.next == c.furthest
    ensures var c := ReceiveAll(frames, Cursor(start, 0, 0), moves);
      c.furthest <= |frames| && c.list == UpsertAll(start, frames[..c.furthest])
  {
    var c := ReceiveAll(frames, Cursor(start, 0, 0), moves);
    ReceiveKeeps(frames, start, moves);
    var once := UpsertAll(start, frames[..c.furthest]);
    assert frames[c.next..c.furthest] == [];
    UpsertAllMeaning(start, frames[..c.furthest], "");
    forall id ensures Lookup(c.list, id) == Lookup(once, id) {
      UpsertAllMeaning(start, frames[..c.furthest], id);
      assert Latest(Lookup(c.list, id), frames[c.next..c.furthest], id)
          == Latest(Lookup(start, id), frames[..c.furthest], id);
    }
    Extensional(c.list, once);
  }

  /** Replaying any suffix that was already applied leaves the list exactly as it is. */
  lemma ReplayChangesNothing(list: seq<Block>, a: seq<Block>, b: seq<Block>)
    requires DistinctIds(list)
    ensures UpsertAll(UpsertAll(list, a + b), b) == UpsertAll(list, a + b)
  {
    var once := UpsertAll(list, a + b);
    UpsertAllMeaning(list, a + b, "");
    UpsertAllMeaning(once, b, "");
    forall i | 0 <= i < |b| ensures b[i].id in IdsOf(once) {
      assert (a + b)[|a| + i] == b[i];
      AppearingHas(IdsOf(list), a + b, |a| + i);
    }
    AppearingKnown(IdsOf(once), b);
    forall id ensures Lookup(UpsertAll(once, b), id) == Lookup(once, id) {
      UpsertAllMeaning(list, a + b, id);
      UpsertAllMeaning(once, b, id);
      LatestConcat(Lookup(list, id), a, b, id);
      LatestExact(Lookup(once, id), b, id);
      LatestExact(Latest(Lookup(list, id), a, id), b, id);
    }
    Extensional(UpsertAll(once, b), once);
  }

  /** Appending a block with a new id is an upsert. */
  lemma SnocIsUpsert(list: seq<Block>, b: Block)
    requires DistinctIds(list + [b])
    ensures DistinctIds(list) && Find(list, b.id) < 0 && list + [b] == Upsert(list, b)
  {
    var all := list + [b];
    forall i, j | 0 <= i < j < |list| ensures list[i].id != list[j].id {
      assert all[i] == list[i] && all[j] == list[j];
    }
    forall k | 0 <= k < |list| ensures list[k].id != b.id {
      assert all[k] == list[k] && all[|list|] == b;
    }
  }

  /** Merging keeps ids unique, takes the seed's block for every seeded id and keeps the
      others. */
  lemma {:induction false} MergeMeaning(seed: seq<Block>, existing: seq<Block>, id: string)
    requires DistinctIds(seed) && DistinctIds(existing)
    ensures DistinctIds(Merge(seed, existing))
    ensures Lookup(Merge(seed, existing), id) ==
      if Lookup(seed, id).Some? then Lookup(seed, id) else Lookup(existing, id)
  {
    if existing == [] {
      assert Merge(seed, existing) == seed;
    } else {
      var init, b := existing[..|existing| - 1], existing[|existing| - 1];
      assert existing == init + [b];
      SnocIsUpsert(init, b);
      UpsertMeaning(init, b, id);
      MergeMeaning(seed, init, id);
      MergeMeaning(seed, init, b.id);
      if Find(seed, b.id) < 0 {
        assert Merge(seed, existing) == Merge(seed, init) + [b] == Upsert(Merge(seed, init), b);
        UpsertMeaning(Merge(seed, init), b, id);
      }
    }
  }
}
