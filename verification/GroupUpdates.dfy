/** What replacing a block in place does to the view of group-exchanges.ts: a streamed block
    comes again under its id with more text or another status. */
module GroupUpdates {
  import opened Common
  import opened GroupExchanges

  function Tag(k: Kind): nat {
    match k
    case UserText => 0
    case AssistantText(_) => 1
    case ToolCall(_, _, _) => 2
    case ToolResult => 3
    case Phase => 4
    case SystemNote => 5
    case OtherKind => 6
  }

  /** A later version of the same block: text, streaming flag, tool status and path may differ. */
  predicate Version(was: Block, now: Block) {
    now.id == was.id && now.taskId == was.taskId && Tag(now.kind) == Tag(was.kind)
  }

  function Swap(b: Block, was: Block, now: Block): Block {
    if b == was then now else b
  }

  function Swapped(bs: seq<Block>, was: Block, now: Block): (r: seq<Block>)
    ensures |r| == |bs|
  {
    seq(|bs|, i requires 0 <= i < |bs| => Swap(bs[i], was, now))
  }

  function SwapStep(s: Step, was: Block, now: Block): Step {
    match s
    case CallStep(b) => CallStep(Swap(b, was, now))
    case Narration(b) => Narration(Swap(b, was, now))
  }

  function SwapSteps(steps: seq<Step>, was: Block, now: Block): (r: seq<Step>)
    ensures |r| == |steps|
  {
    seq(|steps|, i requires 0 <= i < |steps| => SwapStep(steps[i], was, now))
  }

  /** The same item showing the new version: same kind, id, place and final-answer mark. */
  function SwapItem(item: Item, was: Block, now: Block): Item {
    match item
    case Bubble(b, isFinal) => Bubble(Swap(b, was, now), isFinal)
    case ToolGroup(id, calls, steps, inProgress) =>
      ToolGroup(id, Swapped(calls, was, now), SwapSteps(steps, was, now), inProgress)
    case FileArtifact(_, _) => item
  }

  function SwapItems(items: seq<Item>, was: Block, now: Block): (r: seq<Item>)
    ensures |r| == |items|
  {
    seq(|items|, i requires 0 <= i < |items| => SwapItem(items[i], was, now))
  }

  // ------------------------------------------------------------ one exchange

  lemma SwappedTake(bs: seq<Block>, was: Block, now: Block, n: nat)
    requires n <= |bs|
    ensures Swapped(bs, was, now)[..n] == Swapped(bs[..n], was, now)
  {}

  lemma SwappedSnoc(bs: seq<Block>, b: Block, was: Block, now: Block)
    ensures Swapped(bs + [b], was, now) == Swapped(bs, was, now) + [Swap(b, was, now)]
  {}

  lemma StepsSnoc(steps: seq<Step>, s: Step, was: Block, now: Block)
    ensures SwapSteps(steps + [s], was, now) == SwapSteps(steps, was, now) + [SwapStep(s, was, now)]
  {}

  lemma ItemsAppend(a: seq<Item>, b: seq<Item>, was: Block, now: Block)
    ensures SwapItems(a + b, was, now) == SwapItems(a, was, now) + SwapItems(b, was, now)
  {}

  lemma {:induction false} LastSwapped(ex: seq<Block>, was: Block, now: Block, n: nat)
    requires Version(was, now) && n <= |ex|
    ensures LastCall(Swapped(ex, was, now), n) == LastCall(ex, n)
    ensures LastText(Swapped(ex, was, now), n) == LastText(ex, n)
  {
    if n > 0 { LastSwapped(ex, was, now, n - 1); }
  }

  lemma StepSwapped(ex: seq<Block>, was: Block, now: Block, final: int, i: nat)
    requires Version(was, now) && i < |ex|
    ensures IsStep(Swapped(ex, was, now), final, i) <==> IsStep(ex, final, i)
    ensures ShownAfterGroup(Swapped(ex, was, now), final, i) <==> ShownAfterGroup(ex, final, i)
    ensures StepOf(Swapped(ex, was, now)[i]) == SwapStep(StepOf(ex[i]), was, now)
  {}

  lemma {:induction false} StepsSwapped(ex: seq<Block>, was: Block, now: Block, final: int, n: nat)
    requires Version(was, now) && n <= |ex|
    ensures StepsUpTo(Swapped(ex, was, now), final, n) == SwapSteps(StepsUpTo(ex, final, n), was, now)
    ensures GroupIdx(Swapped(ex, was, now), final, n) == GroupIdx(ex, final, n)
  {
    if n > 0 {
      StepsSwapped(ex, was, now, final, n - 1);
      StepSwapped(ex, was, now, final, n - 1);
      StepsSnoc(StepsUpTo(ex, final, n - 1), StepOf(ex[n - 1]), was, now);
    }
  }

  lemma {:induction false} CallsSwapped(ex: seq<Block>, was: Block, now: Block)
    requires Version(was, now)
    ensures Calls(Swapped(ex, was, now)) == Swapped(Calls(ex), was, now)
  {
    if ex != [] {
      var n := |ex| - 1;
      CallsSwapped(ex[..n], was, now);
      SwappedTake(ex, was, now, n);
      SwappedSnoc(Calls(ex[..n]), ex[n], was, now);
    }
  }

  /** In one exchange an update moves nothing: final answer and group stay where they are,
      and each step and call is the new version of the one before. */
  lemma UpdateKeepsPlaces(ex: seq<Block>, was: Block, now: Block)
    requires Version(was, now)
    ensures FinalIdx(Swapped(ex, was, now)) == FinalIdx(ex) && GroupAt(Swapped(ex, was, now)) == GroupAt(ex)
    ensures Steps(Swapped(ex, was, now)) == SwapSteps(Steps(ex), was, now)
    ensures Calls(Swapped(ex, was, now)) == Swapped(Calls(ex), was, now)
  {
    LastSwapped(ex, was, now, |ex|);
    StepsSwapped(ex, was, now, FinalIdx(ex), |ex|);
    CallsSwapped(ex, was, now);
  }

  lemma {:induction false} BubblesSwapped(ex: seq<Block>, was: Block, now: Block, final: int, n: int)
    requires n <= |ex|
    ensures Bubbles(Swapped(ex, was, now), final, n) == SwapItems(Bubbles(ex, final, n), was, now)
    decreases if n < 0 then 0 else n
  {
    if n > 0 {
      BubblesSwapped(ex, was, now, final, n - 1);
      ItemsAppend(Bubbles(ex, final, n - 1), [Bubble(ex[n - 1], n - 1 == final)], was, now);
    }
  }

  lemma {:induction false} TrailingSwapped(ex: seq<Block>, was: Block, now: Block, final: int, from: nat, n: nat)
    requires Version(was, now) && n <= |ex|
    ensures Trailing(Swapped(ex, was, now), final, from, n) == SwapItems(Trailing(ex, final, from, n), was, now)
    decreases n
  {
    if n > from {
      TrailingSwapped(ex, was, now, final, from, n - 1);
      StepSwapped(ex, was, now, final, n - 1);
      ItemsAppend(Trailing(ex, final, from, n - 1), [Bubble(ex[n - 1], n - 1 == final)], was, now);
    }
  }

  lemma {:induction false} SkeletonSwapped(items: seq<Item>, was: Block, now: Block)
    ensures Skeleton(SwapItems(items, was, now)) == SwapItems(Skeleton(items), was, now)
  {
    if items != [] {
      var init, last := items[..|items| - 1], items[|items| - 1];
      SkeletonSwapped(init, was, now);
      assert SwapItems(items, was, now)[..|init|] == SwapItems(init, was, now);
      assert Unflagged(SwapItem(last, was, now)) == SwapItems(Unflagged(last), was, now);
      ItemsAppend(Skeleton(init), Unflagged(last), was, now);
    }
  }

  lemma ExchangeSwapped(ex: seq<Block>, was: Block, now: Block, terminal: set<string>)
    requires Version(was, now)
    ensures Skeleton(ExchangeItems(Swapped(ex, was, now), terminal)) == SwapItems(Skeleton(ExchangeItems(ex, terminal)), was, now)
  {
    UpdateKeepsPlaces(ex, was, now);
    if Calls(ex) == [] {
      BubblesSwapped(ex, was, now, FinalIdx(ex), |ex|);
      SkeletonSwapped(Bubbles(ex, FinalIdx(ex), |ex|), was, now);
    } else {
      WithToolsSwapped(ex, was, now, terminal);
    }
  }

  lemma AroundSwapped(a: seq<Item>, x: Item, b: seq<Item>, was: Block, now: Block)
    ensures SwapItems(a + [x] + b, was, now) == SwapItems(a, was, now) + [SwapItem(x, was, now)] + SwapItems(b, was, now)
  {}

  function Heading(ex: seq<Block>): Item
    requires Calls(ex) != []
  {
    ToolGroup("group-" + Calls(ex)[0].id, Calls(ex), Steps(ex), false)
  }

  function Above(ex: seq<Block>): seq<Item> {
    Skeleton(Bubbles(ex, FinalIdx(ex), GroupAt(ex)))
  }

  function Below(ex: seq<Block>): seq<Item> {
    Skeleton(Trailing(ex, FinalIdx(ex), GroupAt(ex) + 1, |ex|))
  }

  lemma ThreeParts(ex: seq<Block>, terminal: set<string>)
    requires Calls(ex) != []
    ensures Skeleton(ExchangeItems(ex, terminal)) == Above(ex) + [Heading(ex)] + Below(ex)
  {
    SkeletonPieces(ex, terminal);
  }

  lemma HeadingSwapped(ex: seq<Block>, was: Block, now: Block)
    requires Version(was, now) && Calls(ex) != []
    ensures Calls(Swapped(ex, was, now)) != []
    ensures Heading(Swapped(ex, was, now)) == SwapItem(Heading(ex), was, now)
  {
    UpdateKeepsPlaces(ex, was, now);
  }

  lemma AboveSwapped(ex: seq<Block>, was: Block, now: Block)
    requires Version(was, now)
    ensures Above(Swapped(ex, was, now)) == SwapItems(Above(ex), was, now)
  {
    UpdateKeepsPlaces(ex, was, now);
    BubblesSwapped(ex, was, now, FinalIdx(ex), GroupAt(ex));
    SkeletonSwapped(Bubbles(ex, FinalIdx(ex), GroupAt(ex)), was, now);
  }

  lemma BelowSwapped(ex: seq<Block>, was: Block, now: Block)
    requires Version(was, now)
    ensures Below(Swapped(ex, was, now)) == SwapItems(Below(ex), was, now)
  {
    UpdateKeepsPlaces(ex, was, now);
    TrailingSwapped(ex, was, now, FinalIdx(ex), GroupAt(ex) + 1, |ex|);
    SkeletonSwapped(Trailing(ex, FinalIdx(ex), GroupAt(ex) + 1, |ex|), was, now);
  }

  lemma PartsSwapped(v: seq<Item>, v': seq<Item>, a: seq<Item>, x: Item, b: seq<Item>, was: Block, now: Block)
    requires v == a + [x] + b
    requires v' == SwapItems(a, was, now) + [SwapItem(x, was, now)] + SwapItems(b, was, now)
    ensures v' == SwapItems(v, was, now)
  {
    AroundSwapped(a, x, b, was, now);
  }

  lemma WithToolsSwapped(ex: seq<Block>, was: Block, now: Block, terminal: set<string>)
    requires Version(was, now) && Calls(ex) != []
    ensures Skeleton(ExchangeItems(Swapped(ex, was, now), terminal)) == SwapItems(Skeleton(ExchangeItems(ex, terminal)), was, now)
  {
    HeadingSwapped(ex, was, now);
    AboveSwapped(ex, was, now);
    BelowSwapped(ex, was, now);
    ThreeParts(ex, terminal);
    ThreeParts(Swapped(ex, was, now), terminal);
    PartsSwapped(Skeleton(ExchangeItems(ex, terminal)), Skeleton(ExchangeItems(Swapped(ex, was, now), terminal)),
                 Above(ex), Heading(ex), Below(ex), was, now);
  }

  // ------------------------------------------------------------ the whole list

  function SwapKey(k: Key, was: Block, now: Block): Key {
    if k.Lone? then Lone(Swap(k.block, was, now)) else k
  }

  lemma {:induction false} OfTaskSwapped(blocks: seq<Block>, was: Block, now: Block, t: string)
    requires Version(was, now)
    ensures OfTask(Swapped(blocks, was, now), t) == Swapped(OfTask(blocks, t), was, now)
  {
    if blocks != [] {
      var n := |blocks| - 1;
      OfTaskSwapped(blocks[..n], was, now, t);
      SwappedTake(blocks, was, now, n);
      SwappedSnoc(OfTask(blocks[..n], t), blocks[n], was, now);
    }
  }

  predicate KeysMatch(ks: seq<Key>, ks': seq<Key>, was: Block, now: Block) {
    |ks'| == |ks| && forall i :: 0 <= i < |ks| ==> ks'[i] == SwapKey(ks[i], was, now)
  }

  lemma TurnMatches(ks: seq<Key>, ks': seq<Key>, was: Block, now: Block, t: string)
    requires KeysMatch(ks, ks', was, now)
    ensures Turn(t) in ks' <==> Turn(t) in ks
  {
    if Turn(t) in ks {
      var i :| 0 <= i < |ks| && ks[i] == Turn(t);
      assert ks'[i] == Turn(t);
    }
  }

  lemma {:induction false} KeysSwapped(blocks: seq<Block>, was: Block, now: Block)
    requires Version(was, now)
    ensures KeysMatch(Keys(blocks), Keys(Swapped(blocks, was, now)), was, now)
  {
    if blocks != [] {
      var n := |blocks| - 1;
      var b := blocks[n];
      KeysSwapped(blocks[..n], was, now);
      SwappedTake(blocks, was, now, n);
      assert Swapped(blocks, was, now)[n] == Swap(b, was, now);
      if b.taskId.Some? {
        TurnMatches(Keys(blocks[..n]), Keys(Swapped(blocks[..n], was, now)), was, now, b.taskId.value);
      }
    }
  }

  predicate ExchangesMatch(xs: seq<seq<Block>>, ys: seq<seq<Block>>, was: Block, now: Block) {
    |ys| == |xs| && forall i :: 0 <= i < |xs| ==> ys[i] == Swapped(xs[i], was, now)
  }

  lemma ExchangesSwapped(blocks: seq<Block>, was: Block, now: Block)
    requires Version(was, now)
    ensures ExchangesMatch(Exchanges(blocks), Exchanges(Swapped(blocks, was, now)), was, now)
  {
    KeysSwapped(blocks, was, now);
    var ks, ks' := Keys(blocks), Keys(Swapped(blocks, was, now));
    forall i | 0 <= i < |ks| ensures ExchangeOf(Swapped(blocks, was, now), ks'[i]) == Swapped(ExchangeOf(blocks, ks[i]), was, now) {
      assert ks'[i] == SwapKey(ks[i], was, now);
      if ks[i].Turn? { OfTaskSwapped(blocks, was, now, ks[i].task); }
    }
  }

  lemma {:induction false} GroupItemsSwapped(xs: seq<seq<Block>>, ys: seq<seq<Block>>, was: Block, now: Block, terminal: set<string>)
    requires Version(was, now) && ExchangesMatch(xs, ys, was, now)
    ensures Skeleton(GroupItems(ys, terminal)) == SwapItems(Skeleton(GroupItems(xs, terminal)), was, now)
  {
    if xs != [] {
      var n := |xs| - 1;
      GroupItemsSwapped(xs[..n], ys[..n], was, now, terminal);
      ExchangeSwapped(xs[n], was, now, terminal);
      FlatMapAppend(Unflagged, GroupItems(xs[..n], terminal), ExchangeItems(xs[n], terminal));
      FlatMapAppend(Unflagged, GroupItems(ys[..n], terminal), ExchangeItems(ys[n], terminal));
      ItemsAppend(Skeleton(GroupItems(xs[..n], terminal)), Skeleton(ExchangeItems(xs[n], terminal)), was, now);
    }
  }

  predicate DistinctIds(blocks: seq<Block>) {
    forall i, j :: 0 <= i < j < |blocks| ==> blocks[i].id != blocks[j].id
  }

  /** Over the whole list: when a block comes again in place, the view is the old one with
      that block exchanged for its new version. No item, step or call is added, removed or
      moved and no final-answer mark changes; only in-progress flags and file cards may. */
  lemma UpdateInPlace(blocks: seq<Block>, at: nat, now: Block, terminal: set<string>)
    requires at < |blocks| && DistinctIds(blocks) && Version(blocks[at], now)
    ensures Skeleton(GroupItems(Exchanges(blocks[at := now]), terminal))
      == SwapItems(Skeleton(GroupItems(Exchanges(blocks), terminal)), blocks[at], now)
  {
    var was := blocks[at];
    assert blocks[at := now] == Swapped(blocks, was, now);
    ExchangesSwapped(blocks, was, now);
    GroupItemsSwapped(Exchanges(blocks), Exchanges(blocks[at := now]), was, now, terminal);
  }
}
