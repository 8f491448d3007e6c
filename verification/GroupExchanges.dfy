/** packages/mobile/src/group-exchanges.ts: the render-time view of a chat block stream. */
module GroupExchanges {
  import opened Common

  datatype Kind =
    | UserText
    | AssistantText(streaming: bool)
    | ToolCall(toolName: string, ok: bool, path: string)
    | ToolResult
    | Phase
    | SystemNote
    | OtherKind

  /** `path` is the trimmed path argument of a tool call. */
  datatype Block = Block(id: string, taskId: Option<string>, kind: Kind)

  datatype Step = CallStep(block: Block) | Narration(block: Block)

  datatype Item =
    | Bubble(block: Block, isFinalAnswer: bool)
    | ToolGroup(id: string, calls: seq<Block>, steps: seq<Step>, inProgress: bool)
    | FileArtifact(id: string, files: seq<(string, string)>)

  // ------------------------------------------------------------- exchanges

  /** What an exchange is keyed by: a task, or a block that has none. */
  datatype Key = Turn(task: string) | Lone(block: Block)

  /** The keys of a block list in order of first appearance. */
  function Keys(blocks: seq<Block>): seq<Key> {
    if blocks == [] then []
    else
      var b := blocks[|blocks| - 1];
      var before := Keys(blocks[..|blocks| - 1]);
      if b.taskId.None? then before + [Lone(b)]
      else if Turn(b.taskId.value) in before then before
      else before + [Turn(b.taskId.value)]
  }

  /** The blocks of one task, in order. */
  function OfTask(blocks: seq<Block>, t: string): seq<Block> {
    if blocks == [] then []
    else
      var b := blocks[|blocks| - 1];
      var before := OfTask(blocks[..|blocks| - 1], t);
      if b.taskId == Some(t) then before + [b] else before
  }

  function ExchangeOf(blocks: seq<Block>, k: Key): seq<Block> {
    match k
    case Turn(t) => OfTask(blocks, t)
    case Lone(b) => [b]
  }

  /** The reference definition: one exchange per key, in order of first appearance. */
  function Exchanges(blocks: seq<Block>): seq<seq<Block>> {
    seq(|Keys(blocks)|, i requires 0 <= i < |Keys(blocks)| => ExchangeOf(blocks, Keys(blocks)[i]))
  }

  lemma {:induction false} Snoc(blocks: seq<Block>, b: Block)
    ensures (blocks + [b])[..|blocks|] == blocks && (blocks + [b])[|blocks|] == b
  {}

  lemma {:induction false} TurnKeyExact(blocks: seq<Block>, t: string)
    ensures Turn(t) in Keys(blocks) <==> exists i :: 0 <= i < |blocks| && blocks[i].taskId == Some(t)
    ensures Turn(t) !in Keys(blocks) ==> OfTask(blocks, t) == []
  {
    if blocks != [] {
      var n := |blocks| - 1;
      TurnKeyExact(blocks[..n], t);
      if Turn(t) in Keys(blocks[..n]) {
        var i :| 0 <= i < n && blocks[..n][i].taskId == Some(t);
        assert blocks[i].taskId == Some(t);
      }
    }
  }

  predicate DistinctTurns(ks: seq<Key>) {
    forall i, j :: 0 <= i < j < |ks| && ks[i].Turn? ==> ks[i] != ks[j]
  }

  lemma {:induction false} KeysDistinct(blocks: seq<Block>)
    ensures DistinctTurns(Keys(blocks))
  {
    if blocks != [] {
      KeysDistinct(blocks[..|blocks| - 1]);
    }
  }

  /** `after` is `before` with `b` added at the end of exchange `k`. */
  predicate ExtendsAt(before: seq<seq<Block>>, after: seq<seq<Block>>, k: nat, b: Block) {
    k < |before| && after == before[k := before[k] + [b]]
  }

  lemma {:induction false} KnownTurnGrows(blocks: seq<Block>, b: Block, k: nat)
    requires k < |Keys(blocks)| && b.taskId.Some? && Keys(blocks)[k] == Turn(b.taskId.value)
    ensures Keys(blocks + [b]) == Keys(blocks)
    ensures ExtendsAt(Exchanges(blocks), Exchanges(blocks + [b]), k, b)
  {
    Snoc(blocks, b);
    KeysDistinct(blocks);
    var ks := Keys(blocks);
    assert Turn(b.taskId.value) in ks;
    forall i | 0 <= i < |ks| && i != k ensures ExchangeOf(blocks + [b], ks[i]) == ExchangeOf(blocks, ks[i]) {
      assert ks[i] != ks[k];
    }
    assert ExchangeOf(blocks + [b], ks[k]) == ExchangeOf(blocks, ks[k]) + [b];
  }

  lemma {:induction false} NewKeyAppends(blocks: seq<Block>, b: Block)
    requires b.taskId.None? || Turn(b.taskId.value) !in Keys(blocks)
    ensures Keys(blocks + [b]) == Keys(blocks) + [if b.taskId.None? then Lone(b) else Turn(b.taskId.value)]
    ensures Exchanges(blocks + [b]) == Exchanges(blocks) + [[b]]
  {
    Snoc(blocks, b);
    var ks := Keys(blocks);
    if b.taskId.Some? { TurnKeyExact(blocks, b.taskId.value); }
    forall i | 0 <= i < |ks| ensures ExchangeOf(blocks + [b], ks[i]) == ExchangeOf(blocks, ks[i]) {
      assert ks[i] in ks;
    }
    assert ExchangeOf(blocks + [b], Keys(blocks + [b])[|ks|]) == [b];
  }

  /** Appending a block starts a new exchange at the end, or extends exactly one. */
  lemma {:induction false} AppendTouchesOneExchange(blocks: seq<Block>, b: Block)
    ensures Exchanges(blocks + [b]) == Exchanges(blocks) + [[b]]
      || exists k: nat :: ExtendsAt(Exchanges(blocks), Exchanges(blocks + [b]), k, b)
  {
    if b.taskId.Some? && Turn(b.taskId.value) in Keys(blocks) {
      var k :| 0 <= k < |Keys(blocks)| && Keys(blocks)[k] == Turn(b.taskId.value);
      KnownTurnGrows(blocks, b, k);
    } else {
      NewKeyAppends(blocks, b);
    }
  }

  function Flatten<T>(xss: seq<seq<T>>): seq<T> {
    if xss == [] then [] else Flatten(xss[..|xss| - 1]) + xss[|xss| - 1]
  }

  lemma {:induction false} FlattenUpdate<T>(xss: seq<seq<T>>, k: nat, x: T)
    requires k < |xss|
    ensures multiset(Flatten(xss[k := xss[k] + [x]])) == multiset(Flatten(xss)) + multiset{x}
  {
    var n := |xss| - 1;
    var yss := xss[k := xss[k] + [x]];
    if k < n {
      assert yss[..n] == xss[..n][k := xss[..n][k] + [x]] && yss[n] == xss[n];
      FlattenUpdate(xss[..n], k, x);
      assert multiset(Flatten(yss)) == multiset(Flatten(yss[..n])) + multiset(xss[n]);
    } else {
      assert yss[..n] == xss[..n] && yss[n] == xss[n] + [x];
      assert multiset(Flatten(yss)) == multiset(Flatten(xss[..n])) + (multiset(xss[n]) + multiset{x});
    }
  }

  /** Partitioning loses and duplicates nothing. */
  lemma {:induction false} ExchangesConserve(blocks: seq<Block>)
    ensures multiset(Flatten(Exchanges(blocks))) == multiset(blocks)
  {
    if blocks != [] {
      var n := |blocks| - 1;
      var init, b := blocks[..n], blocks[n];
      assert blocks == init + [b];
      ExchangesConserve(init);
      AppendTouchesOneExchange(init, b);
      if k: nat :| ExtendsAt(Exchanges(init), Exchanges(blocks), k, b) {
        FlattenUpdate(Exchanges(init), k, b);
      } else {
        assert Exchanges(blocks)[..|Exchanges(init)|] == Exchanges(init);
      }
    }
  }

  // -------------------------------------------------------- one exchange

  function Calls(ex: seq<Block>): seq<Block> {
    if ex == [] then []
    else
      var before, b := Calls(ex[..|ex| - 1]), ex[|ex| - 1];
      if b.kind.ToolCall? then before + [b] else before
  }

  /** The last tool call among the first `n` blocks, or -1. */
  function LastCall(ex: seq<Block>, n: nat): (i: int)
    requires n <= |ex|
    ensures -1 <= i < n
    ensures i >= 0 ==> ex[i].kind.ToolCall?
  {
    if n == 0 then -1 else if ex[n - 1].kind.ToolCall? then n - 1 else LastCall(ex, n - 1)
  }

  function LastText(ex: seq<Block>, n: nat): (i: int)
    requires n <= |ex|
    ensures -1 <= i < n
    ensures i >= 0 ==> ex[i].kind.AssistantText?
  {
    if n == 0 then -1 else if ex[n - 1].kind.AssistantText? then n - 1 else LastText(ex, n - 1)
  }

  /** The final answer: the last assistant text, provided no tool call follows it. */
  function FinalIdx(ex: seq<Block>): (i: int)
    ensures -1 <= i < |ex|
    ensures i >= 0 ==> ex[i].kind.AssistantText?
  {
    if LastText(ex, |ex|) > LastCall(ex, |ex|) then LastText(ex, |ex|) else -1
  }

  predicate IsStep(ex: seq<Block>, final: int, i: nat)
    requires i < |ex|
  {
    ex[i].kind.ToolCall? || (ex[i].kind.AssistantText? && i != final)
  }

  function StepOf(b: Block): Step {
    if b.kind.ToolCall? then CallStep(b) else Narration(b)
  }

  /** The process steps among the first `n` blocks. */
  function StepsUpTo(ex: seq<Block>, final: int, n: nat): seq<Step>
    requires n <= |ex|
  {
    if n == 0 then []
    else
      var before := StepsUpTo(ex, final, n - 1);
      if IsStep(ex, final, n - 1) then before + [StepOf(ex[n - 1])] else before
  }

  /** The position of the first step among the first `n` blocks, or -1. */
  function GroupIdx(ex: seq<Block>, final: int, n: nat): (g: int)
    requires n <= |ex|
    ensures -1 <= g < n
    ensures g >= 0 ==> IsStep(ex, final, g)
  {
    if n == 0 then -1
    else
      var g := GroupIdx(ex, final, n - 1);
      if g >= 0 then g else if IsStep(ex, final, n - 1) then n - 1 else -1
  }

  function Steps(ex: seq<Block>): seq<Step> {
    StepsUpTo(ex, FinalIdx(ex), |ex|)
  }

  function GroupAt(ex: seq<Block>): (g: int)
    ensures -1 <= g < |ex|
  {
    GroupIdx(ex, FinalIdx(ex), |ex|)
  }

  /** The first `n` blocks as bubbles; none when `n` is negative. */
  function Bubbles(ex: seq<Block>, final: int, n: int): seq<Item>
    requires n <= |ex|
  {
    if n <= 0 then [] else Bubbles(ex, final, n - 1) + [Bubble(ex[n - 1], n - 1 == final)]
  }

  predicate ShownAfterGroup(ex: seq<Block>, final: int, i: nat)
    requires i < |ex|
  {
    !IsStep(ex, final, i) && !ex[i].kind.ToolResult?
  }

  /** The bubbles that follow the group, among blocks `from .. n`. */
  function Trailing(ex: seq<Block>, final: int, from: nat, n: nat): seq<Item>
    requires n <= |ex|
  {
    if n <= from then []
    else
      var before := Trailing(ex, final, from, n - 1);
      if ShownAfterGroup(ex, final, n - 1) then before + [Bubble(ex[n - 1], n - 1 == final)] else before
  }

  predicate Quiet(k: Kind) {
    k.Phase? || k.ToolResult? || k.SystemNote?
  }

  /** Is the last block that is neither a phase, a tool result nor a note a settled answer? */
  predicate Settled(ex: seq<Block>, n: nat)
    requires n <= |ex|
  {
    n > 0
    && if Quiet(ex[n - 1].kind) then Settled(ex, n - 1)
       else ex[n - 1].kind.AssistantText? && !ex[n - 1].kind.streaming
  }

  function TaskOf(ex: seq<Block>): Option<string> {
    if ex == [] then None else if ex[0].taskId.Some? then ex[0].taskId else TaskOf(ex[1..])
  }

  predicate Complete(ex: seq<Block>, terminal: set<string>) {
    (TaskOf(ex).Some? && TaskOf(ex).value in terminal) || Settled(ex, |ex|)
  }

  predicate WritesFile(call: Block) {
    && call.kind.ToolCall? && (call.kind.toolName == "file_write" || call.kind.toolName == "file_patch")
    && call.kind.ok && call.kind.path != ""
  }

  /** An insertion-ordered map: a known path keeps its place and takes the new tool. */
  function Upsert(files: seq<(string, string)>, path: string, tool: string): seq<(string, string)> {
    if files == [] then [(path, tool)]
    else if files[0].0 == path then [(path, tool)] + files[1..]
    else [files[0]] + Upsert(files[1..], path, tool)
  }

  function Files(calls: seq<Block>): seq<(string, string)> {
    if calls == [] then []
    else
      var c := calls[|calls| - 1];
      var before := Files(calls[..|calls| - 1]);
      if WritesFile(c) then Upsert(before, c.kind.path, c.kind.toolName) else before
  }

  function Group(ex: seq<Block>, terminal: set<string>): Item
    requires Calls(ex) != []
  {
    ToolGroup("group-" + Calls(ex)[0].id, Calls(ex), Steps(ex), !Complete(ex, terminal))
  }

  /** The card of generated files, shown once the turn is complete. */
  function CardOf(calls: seq<Block>, complete: bool): seq<Item>
    requires calls != []
  {
    if complete && Files(calls) != [] then [FileArtifact("files-" + calls[0].id, Files(calls))] else []
  }

  function Card(ex: seq<Block>, terminal: set<string>): seq<Item>
    requires Calls(ex) != []
  {
    CardOf(Calls(ex), Complete(ex, terminal))
  }

  function Assemble<T>(before: seq<T>, x: T, after: seq<T>, last: seq<T>): seq<T> {
    before + [x] + after + last
  }

  function ExchangeItems(ex: seq<Block>, terminal: set<string>): seq<Item> {
    if Calls(ex) == [] then Bubbles(ex, FinalIdx(ex), |ex|)
    else
      Assemble(Bubbles(ex, FinalIdx(ex), GroupAt(ex)), Group(ex, terminal),
               Trailing(ex, FinalIdx(ex), GroupAt(ex) + 1, |ex|), Card(ex, terminal))
  }

  function GroupItems(exchanges: seq<seq<Block>>, terminal: set<string>): seq<Item> {
    if exchanges == [] then []
    else GroupItems(exchanges[..|exchanges| - 1], terminal) + ExchangeItems(exchanges[|exchanges| - 1], terminal)
  }

  // ----------------------------------------------------- facts about indices

  lemma {:induction false} CallsMember(ex: seq<Block>)
    ensures Calls(ex) == [] <==> LastCall(ex, |ex|) == -1
  {
    if ex != [] {
      var n := |ex| - 1;
      CallsMember(ex[..n]);
      LastPrefix(ex, ex[..n], n);
    }
  }

  lemma {:induction false} LastPrefix(a: seq<Block>, b: seq<Block>, n: nat)
    requires n <= |a| && n <= |b| && a[..n] == b[..n]
    ensures LastCall(a, n) == LastCall(b, n) && LastText(a, n) == LastText(b, n)
  {
    if n > 0 {
      assert a[n - 1] == a[..n][n - 1] == b[..n][n - 1] == b[n - 1];
      assert a[..n - 1] == a[..n][..n - 1] == b[..n - 1];
      LastPrefix(a, b, n - 1);
    }
  }

  /** Nothing after the last call is a call, and nothing after the last text is a text. */
  lemma {:induction false} LastIsLast(ex: seq<Block>, n: nat, i: nat)
    requires i < n <= |ex|
    ensures i > LastCall(ex, n) ==> !ex[i].kind.ToolCall?
    ensures i > LastText(ex, n) ==> !ex[i].kind.AssistantText?
  {
    if i < n - 1 { LastIsLast(ex, n - 1, i); }
  }

  lemma {:induction false} GroupIsFirst(ex: seq<Block>, final: int, n: nat, i: nat)
    requires i < n <= |ex| && IsStep(ex, final, i)
    ensures 0 <= GroupIdx(ex, final, n) <= i
  {
    if i < n - 1 { GroupIsFirst(ex, final, n - 1, i); }
  }

  /** With a tool call there is a group, it starts no later than the last call, and the
      final answer comes after that call. */
  lemma {:induction false} GroupExists(ex: seq<Block>)
    requires Calls(ex) != []
    ensures 0 <= GroupAt(ex) <= LastCall(ex, |ex|)
    ensures FinalIdx(ex) == -1 || FinalIdx(ex) > LastCall(ex, |ex|)
  {
    CallsMember(ex);
    assert IsStep(ex, FinalIdx(ex), LastCall(ex, |ex|));
    GroupIsFirst(ex, FinalIdx(ex), |ex|, LastCall(ex, |ex|));
  }

  // ------------------------------------------------------------ conservation

  function FlatMap<T, U>(f: T -> seq<U>, xs: seq<T>): seq<U> {
    if xs == [] then [] else FlatMap(f, xs[..|xs| - 1]) + f(xs[|xs| - 1])
  }

  lemma {:induction false} FlatMapAppend<T, U>(f: T -> seq<U>, a: seq<T>, b: seq<T>)
    ensures FlatMap(f, a + b) == FlatMap(f, a) + FlatMap(f, b)
  {
    if b == [] {
      assert a + b == a;
    } else {
      var n := |b| - 1;
      assert (a + b)[..|a| + n] == a + b[..n];
      FlatMapAppend(f, a, b[..n]);
    }
  }

  lemma {:induction false} FlatMapSnoc<T, U>(f: T -> seq<U>, a: seq<T>, x: T)
    ensures FlatMap(f, a + [x]) == FlatMap(f, a) + f(x)
  {
    assert (a + [x])[..|a|] == a;
  }

  lemma {:induction false} FlatMapAssemble<T, U>(f: T -> seq<U>, before: seq<T>, x: T, after: seq<T>, last: seq<T>)
    requires forall k :: 0 <= k < |last| ==> f(last[k]) == []
    ensures FlatMap(f, Assemble(before, x, after, last)) == FlatMap(f, before) + f(x) + FlatMap(f, after)
  {
    FlatMapSnoc(f, before, x);
    FlatMapAppend(f, before + [x], after);
    FlatMapAppend(f, before + [x] + after, last);
    FlatMapNothing(f, last);
  }

  lemma {:induction false} FlatMapNothing<T, U>(f: T -> seq<U>, xs: seq<T>)
    requires forall k :: 0 <= k < |xs| ==> f(xs[k]) == []
    ensures FlatMap(f, xs) == []
  {
    if xs != [] { FlatMapNothing(f, xs[..|xs| - 1]); }
  }

  /** A map over the items of an exchange with tools, piece by piece; `f` ignores file cards. */
  lemma {:induction false} MapExchange<U>(f: Item -> seq<U>, ex: seq<Block>, terminal: set<string>)
    requires Calls(ex) != []
    requires forall item: Item :: item.FileArtifact? ==> f(item) == []
    ensures FlatMap(f, ExchangeItems(ex, terminal)) == (
      FlatMap(f, Bubbles(ex, FinalIdx(ex), GroupAt(ex))) + f(Group(ex, terminal))
      + FlatMap(f, Trailing(ex, FinalIdx(ex), GroupAt(ex) + 1, |ex|)))
  {
    var above, below := Bubbles(ex, FinalIdx(ex), GroupAt(ex)), Trailing(ex, FinalIdx(ex), GroupAt(ex) + 1, |ex|);
    assert ExchangeItems(ex, terminal) == Assemble(above, Group(ex, terminal), below, Card(ex, terminal));
    CardIsCards(Calls(ex), Complete(ex, terminal));
    FlatMapAssemble(f, above, Group(ex, terminal), below, Card(ex, terminal));
  }

  lemma CardIsCards(calls: seq<Block>, complete: bool)
    requires calls != []
    ensures forall k :: 0 <= k < |CardOf(calls, complete)| ==> CardOf(calls, complete)[k].FileArtifact?
  {}

  function StepBlocks(steps: seq<Step>): seq<Block> {
    seq(|steps|, i requires 0 <= i < |steps| => steps[i].block)
  }

  /** The input blocks an item displays. */
  function ShownBy(item: Item): seq<Block> {
    match item
    case Bubble(b, _) => [b]
    case ToolGroup(_, _, steps, _) => StepBlocks(steps)
    case FileArtifact(_, _) => []
  }

  function Shown(items: seq<Item>): seq<Block> {
    FlatMap(ShownBy, items)
  }

  /** The tool results among blocks `from .. n`. */
  function Results(ex: seq<Block>, from: nat, n: nat): seq<Block>
    requires n <= |ex|
  {
    if n <= from then []
    else
      var before := Results(ex, from, n - 1);
      if ex[n - 1].kind.ToolResult? then before + [ex[n - 1]] else before
  }

  /** The tool results that follow the group start: the only blocks not displayed. */
  function Dropped(ex: seq<Block>): seq<Block> {
    if Calls(ex) == [] then [] else Results(ex, GroupAt(ex) + 1, |ex|)
  }

  lemma {:induction false} BubblesShow(ex: seq<Block>, final: int, n: nat)
    requires n <= |ex|
    ensures Shown(Bubbles(ex, final, n)) == ex[..n]
  {
    if n > 0 {
      BubblesShow(ex, final, n - 1);
      FlatMapSnoc(ShownBy, Bubbles(ex, final, n - 1), Bubble(ex[n - 1], n - 1 == final));
      assert ex[..n] == ex[..n - 1] + [ex[n - 1]];
    }
  }

  lemma {:induction false} StepBlocksSnoc(steps: seq<Step>, s: Step)
    ensures StepBlocks(steps + [s]) == StepBlocks(steps) + [s.block]
  {}

  lemma {:induction false} NoStepsBefore(ex: seq<Block>, final: int, n: nat)
    requires n <= |ex| && GroupIdx(ex, final, n) == -1
    ensures StepsUpTo(ex, final, n) == []
  {
    if n > 0 { NoStepsBefore(ex, final, n - 1); }
  }

  /** Up to the group start there is one step, the block there. */
  lemma {:induction false} FirstStep(ex: seq<Block>, final: int, n: nat)
    requires 0 < n <= |ex| && GroupIdx(ex, final, n) == n - 1
    ensures StepsUpTo(ex, final, n) == [StepOf(ex[n - 1])]
  {
    NoStepsBefore(ex, final, n - 1);
  }

  /** Each block after the group start joins exactly one of the three lists. */
  lemma {:induction false} ThreeWayStep(ex: seq<Block>, final: int, from: nat, n: nat)
    requires from < n <= |ex|
    ensures ShownAfterGroup(ex, final, n - 1) ==>
      Shown(Trailing(ex, final, from, n)) == Shown(Trailing(ex, final, from, n - 1)) + [ex[n - 1]]
    ensures IsStep(ex, final, n - 1) ==>
      StepBlocks(StepsUpTo(ex, final, n)) == StepBlocks(StepsUpTo(ex, final, n - 1)) + [ex[n - 1]]
  {
    StepBlocksSnoc(StepsUpTo(ex, final, n - 1), StepOf(ex[n - 1]));
    FlatMapSnoc(ShownBy, Trailing(ex, final, from, n - 1), Bubble(ex[n - 1], n - 1 == final));
  }

  ghost predicate SplitInto<T>(all: seq<T>, a: seq<T>, b: seq<T>, c: seq<T>) {
    multiset(all) == multiset(a) + multiset(b) + multiset(c)
  }

  lemma SplitSnoc<T>(all: seq<T>, a: seq<T>, b: seq<T>, c: seq<T>, all': seq<T>, a': seq<T>, b': seq<T>, c': seq<T>, x: T)
    requires SplitInto(all, a, b, c) && all' == all + [x]
    requires (
      || (a' == a + [x] && b' == b && c' == c)
      || (a' == a && b' == b + [x] && c' == c)
      || (a' == a && b' == b && c' == c + [x]))
    ensures SplitInto(all', a', b', c')
  {}

  ghost predicate SplitAfter(ex: seq<Block>, final: int, g: nat, n: nat)
    requires g < n <= |ex|
  {
    SplitInto(ex[g..n], StepBlocks(StepsUpTo(ex, final, n)), Shown(Trailing(ex, final, g + 1, n)),
              Results(ex, g + 1, n))
  }

  lemma {:induction false} SplitAtGroup(ex: seq<Block>, final: int, g: nat)
    requires g < |ex| && GroupIdx(ex, final, g + 1) == g
    ensures SplitAfter(ex, final, g, g + 1)
  {
    FirstStep(ex, final, g + 1);
    assert ex[g..g + 1] == [ex[g]] == StepBlocks([StepOf(ex[g])]);
  }

  lemma SliceSnoc(ex: seq<Block>, g: nat, n: nat)
    requires g <= n < |ex|
    ensures ex[g..n + 1] == ex[g..n] + [ex[n]]
  {}

  lemma {:induction false} SplitGrows(ex: seq<Block>, final: int, g: nat, n: nat)
    requires g < n < |ex| && SplitAfter(ex, final, g, n)
    ensures SplitAfter(ex, final, g, n + 1)
  {
    ThreeWayStep(ex, final, g + 1, n + 1);
    SliceSnoc(ex, g, n);
    SplitSnoc(ex[g..n], StepBlocks(StepsUpTo(ex, final, n)), Shown(Trailing(ex, final, g + 1, n)), Results(ex, g + 1, n),
              ex[g..n + 1], StepBlocks(StepsUpTo(ex, final, n + 1)), Shown(Trailing(ex, final, g + 1, n + 1)),
              Results(ex, g + 1, n + 1), ex[n]);
  }

  /** From the group start on, every block is a step, a bubble or a tool result. */
  lemma {:induction false} ThreeWaySplit(ex: seq<Block>, final: int, g: nat, n: nat)
    requires g < n <= |ex| && GroupIdx(ex, final, n) == g
    ensures SplitAfter(ex, final, g, n)
    decreases n
  {
    if n - 1 == g {
      SplitAtGroup(ex, final, g);
    } else {
      ThreeWaySplit(ex, final, g, n - 1);
      SplitGrows(ex, final, g, n - 1);
    }
  }

  /** Every block of an exchange is displayed exactly once, as a bubble or a step, except
      the tool results after the group start. */
  lemma {:induction false} ExchangeConserves(ex: seq<Block>, terminal: set<string>)
    ensures multiset(Shown(ExchangeItems(ex, terminal))) + multiset(Dropped(ex)) == multiset(ex)
  {
    if Calls(ex) == [] {
      BubblesShow(ex, FinalIdx(ex), |ex|);
      assert ex[..|ex|] == ex;
    } else {
      GroupExists(ex);
      WithToolsConserves(ex, terminal, GroupAt(ex));
    }
  }

  lemma {:induction false} WithToolsConserves(ex: seq<Block>, terminal: set<string>, g: nat)
    requires Calls(ex) != [] && g == GroupAt(ex)
    ensures multiset(Shown(ExchangeItems(ex, terminal))) + multiset(Dropped(ex)) == multiset(ex)
  {
    var steps, tail := StepBlocks(Steps(ex)), Shown(Trailing(ex, FinalIdx(ex), g + 1, |ex|));
    assert Shown(ExchangeItems(ex, terminal)) == ex[..g] + steps + tail by {
      MapExchange(ShownBy, ex, terminal);
      BubblesShow(ex, FinalIdx(ex), g);
    }
    assert SplitInto(ex[g..|ex|], steps, tail, Dropped(ex)) by {
      ThreeWaySplit(ex, FinalIdx(ex), g, |ex|);
    }
    Reassemble(ex, g, steps, tail, Dropped(ex));
  }

  lemma Reassemble<T>(all: seq<T>, g: nat, a: seq<T>, b: seq<T>, c: seq<T>)
    requires g <= |all| && SplitInto(all[g..|all|], a, b, c)
    ensures multiset(all[..g] + a + b) + multiset(c) == multiset(all)
  {
    assert all == all[..g] + all[g..|all|];
  }

  lemma {:induction false} GroupItemsConserve(exchanges: seq<seq<Block>>, terminal: set<string>)
    ensures (multiset(Shown(GroupItems(exchanges, terminal))) + multiset(FlatMap(Dropped, exchanges))
             == multiset(Flatten(exchanges)))
  {
    if exchanges != [] {
      var n := |exchanges| - 1;
      GroupItemsConserve(exchanges[..n], terminal);
      ExchangeConserves(exchanges[n], terminal);
      FlatMapAppend(ShownBy, GroupItems(exchanges[..n], terminal), ExchangeItems(exchanges[n], terminal));
    }
  }

  lemma {:induction false} ResultsOnly(ex: seq<Block>, from: nat, n: nat, b: Block)
    requires n <= |ex| && b in Results(ex, from, n)
    ensures b.kind.ToolResult?
  {
    if b in Results(ex, from, n - 1) { ResultsOnly(ex, from, n - 1, b); }
  }

  lemma {:induction false} DroppedAreResults(exchanges: seq<seq<Block>>, b: Block)
    requires b in FlatMap(Dropped, exchanges)
    ensures b.kind.ToolResult?
  {
    var n := |exchanges| - 1;
    if b in Dropped(exchanges[n]) {
      ResultsOnly(exchanges[n], GroupAt(exchanges[n]) + 1, |exchanges[n]|, b);
    } else {
      DroppedAreResults(exchanges[..n], b);
    }
  }

  /** Grouping conserves the block list: what is not displayed exactly once is a tool result. */
  lemma {:induction false} GroupingConserves(blocks: seq<Block>, terminal: set<string>, b: Block)
    ensures multiset(Shown(GroupItems(Exchanges(blocks), terminal)))[b]
            + multiset(FlatMap(Dropped, Exchanges(blocks)))[b] == multiset(blocks)[b]
    ensures !b.kind.ToolResult? ==>
      multiset(Shown(GroupItems(Exchanges(blocks), terminal)))[b] == multiset(blocks)[b]
  {
    GroupItemsConserve(Exchanges(blocks), terminal);
    ExchangesConserve(blocks);
    if b in FlatMap(Dropped, Exchanges(blocks)) { DroppedAreResults(Exchanges(blocks), b); }
  }

  // ------------------------------------------------------ interleaving

  /** Two streams with the same per-task subsequences and the same order of first
      appearance give the same view, whatever their interleaving. */
  lemma {:induction false} InterleavingIndependent(a: seq<Block>, b: seq<Block>, terminal: set<string>)
    requires Keys(a) == Keys(b) && forall t :: OfTask(a, t) == OfTask(b, t)
    ensures GroupItems(Exchanges(a), terminal) == GroupItems(Exchanges(b), terminal)
  {
    forall i | 0 <= i < |Keys(a)| ensures Exchanges(a)[i] == Exchanges(b)[i] {
      assert ExchangeOf(a, Keys(a)[i]) == ExchangeOf(b, Keys(b)[i]);
    }
    assert Exchanges(a) == Exchanges(b);
  }

  // ---------------------------------------------------- streaming stability

  lemma {:induction false} StepsPrefix(a: seq<Block>, b: seq<Block>, fa: int, fb: int, n: nat)
    requires n <= |a| && n <= |b| && a[..n] == b[..n]
    requires forall i :: 0 <= i < n ==> (IsStep(a, fa, i) <==> IsStep(b, fb, i))
    ensures StepsUpTo(a, fa, n) == StepsUpTo(b, fb, n)
    ensures GroupIdx(a, fa, n) == GroupIdx(b, fb, n)
  {
    if n > 0 {
      assert a[n - 1] == a[..n][n - 1] == b[..n][n - 1] == b[n - 1];
      assert a[..n - 1] == a[..n][..n - 1] == b[..n - 1];
      StepsPrefix(a, b, fa, fb, n - 1);
      assert IsStep(a, fa, n - 1) <==> IsStep(b, fb, n - 1);
    }
  }

  lemma {:induction false} StepsGrow(ex: seq<Block>, final: int, m: nat, n: nat)
    requires m <= n <= |ex|
    ensures StepsUpTo(ex, final, m) <= StepsUpTo(ex, final, n)
    ensures GroupIdx(ex, final, m) >= 0 ==> GroupIdx(ex, final, n) == GroupIdx(ex, final, m)
  {
    if m < n { StepsGrow(ex, final, m, n - 1); }
  }

  /** Nothing from the final answer on is a step, so the steps end before it. */
  lemma {:induction false} StepsEndAtFinal(ex: seq<Block>, n: nat)
    requires 0 <= FinalIdx(ex) <= n <= |ex|
    ensures StepsUpTo(ex, FinalIdx(ex), n) == StepsUpTo(ex, FinalIdx(ex), FinalIdx(ex))
    decreases n
  {
    if n > FinalIdx(ex) {
      LastIsLast(ex, |ex|, n - 1);
      StepsEndAtFinal(ex, n - 1);
    }
  }

  /** The blocks before the final answer, or all of them when there is none. */
  function Process(ex: seq<Block>): (n: nat)
    ensures n <= |ex|
  {
    if FinalIdx(ex) >= 0 then FinalIdx(ex) else |ex|
  }

  /** The steps and the group start are decided by the blocks before the final answer. */
  lemma {:induction false} ProcessDecides(ex: seq<Block>)
    requires Calls(ex) != []
    ensures StepsUpTo(ex, FinalIdx(ex), Process(ex)) == Steps(ex)
    ensures GroupIdx(ex, FinalIdx(ex), Process(ex)) == GroupAt(ex) >= 0
  {
    GroupExists(ex);
    if FinalIdx(ex) >= 0 {
      StepsEndAtFinal(ex, |ex|);
      GroupIsFirst(ex, FinalIdx(ex), FinalIdx(ex), LastCall(ex, |ex|));
      StepsGrow(ex, FinalIdx(ex), FinalIdx(ex), |ex|);
    }
  }

  /** Appending a block moves the final answer to that block, keeps it, or removes it. */
  lemma {:induction false} FinalAfterAppend(ex: seq<Block>, b: Block)
    ensures var f, f' := FinalIdx(ex), FinalIdx(ex + [b]); f' == f || f' == |ex| || (f' == -1 && b.kind.ToolCall?)
  {
    assert (ex + [b])[..|ex|] == ex;
    LastPrefix(ex + [b], ex, |ex|);
  }

  /** Appending a block never reflows a turn: the old steps are a prefix of the new ones,
      and a group that has started stays where it is. */
  lemma {:induction false} AppendNeverReflows(ex: seq<Block>, b: Block)
    requires Calls(ex) != []
    ensures Calls(ex + [b]) != [] && Calls(ex) <= Calls(ex + [b])
    ensures Steps(ex) <= Steps(ex + [b])
    ensures GroupAt(ex + [b]) == GroupAt(ex)
  {
    var ex' := ex + [b];
    var m := Process(ex);
    assert ex'[..|ex|] == ex && ex'[..m] == ex[..m];
    FinalAfterAppend(ex, b);
    StepsPrefix(ex, ex', FinalIdx(ex), FinalIdx(ex'), m);
    ProcessDecides(ex);
    StepsGrow(ex', FinalIdx(ex'), m, |ex'|);
  }

  lemma {:induction false} BubblesAgree(a: seq<Block>, b: seq<Block>, fa: int, fb: int, n: nat)
    requires n <= |a| && n <= |b| && a[..n] == b[..n]
    requires (fa < 0 || fa >= n) && (fb < 0 || fb >= n)
    ensures Bubbles(a, fa, n) == Bubbles(b, fb, n) && |Bubbles(a, fa, n)| == n
  {
    if n > 0 {
      assert a[n - 1] == a[..n][n - 1] == b[..n][n - 1] == b[n - 1];
      assert a[..n - 1] == a[..n][..n - 1] == b[..n - 1];
      BubblesAgree(a, b, fa, fb, n - 1);
    }
  }

  /** The items of an exchange with tools, split at its group. */
  lemma {:induction false} GroupPosition(ex: seq<Block>, terminal: set<string>)
    requires Calls(ex) != []
    ensures 0 <= GroupAt(ex) < |ExchangeItems(ex, terminal)|
    ensures ExchangeItems(ex, terminal)[..GroupAt(ex)] == Bubbles(ex, FinalIdx(ex), GroupAt(ex))
    ensures ExchangeItems(ex, terminal)[GroupAt(ex)] == Group(ex, terminal)
  {
    GroupExists(ex);
    BubblesAgree(ex, ex, FinalIdx(ex), FinalIdx(ex), GroupAt(ex));
  }

  /** What is rendered above the group and the group's identity stay the same while the
      turn streams, and its steps only grow. */
  lemma {:induction false} StreamingKeepsTheView(ex: seq<Block>, b: Block, terminal: set<string>)
    requires Calls(ex) != []
    ensures 0 <= GroupAt(ex) < |ExchangeItems(ex, terminal)|
    ensures GroupAt(ex) < |ExchangeItems(ex + [b], terminal)|
    ensures ExchangeItems(ex, terminal)[..GroupAt(ex)] == ExchangeItems(ex + [b], terminal)[..GroupAt(ex)]
    ensures ContinuesGroup(ExchangeItems(ex, terminal)[GroupAt(ex)], ExchangeItems(ex + [b], terminal)[GroupAt(ex)])
  {
    AppendNeverReflows(ex, b);
    GroupPosition(ex, terminal);
    GroupPosition(ex + [b], terminal);
    GroupExists(ex);
    GroupExists(ex + [b]);
    assert (ex + [b])[..GroupAt(ex)] == ex[..GroupAt(ex)];
    BubblesAgree(ex, ex + [b], FinalIdx(ex), FinalIdx(ex + [b]), GroupAt(ex));
    assert Calls(ex + [b])[0] == Calls(ex)[0];
  }

  predicate ContinuesGroup(before: Item, after: Item) {
    before.ToolGroup? && after.ToolGroup? && before.id == after.id
    && before.calls <= after.calls && before.steps <= after.steps
  }

  /** Over the whole list: one more block either adds an exchange at the end, or changes one
      exchange only, and that one without reflowing it. */
  predicate Grows(before: seq<seq<Block>>, after: seq<seq<Block>>, k: nat) {
    && k < |before| == |after|
    && (forall j :: 0 <= j < |before| && j != k ==> after[j] == before[j])
    && (Calls(before[k]) != [] ==>
          && Steps(before[k]) <= Steps(after[k])
          && GroupAt(after[k]) == GroupAt(before[k]))
  }

  lemma {:induction false} StreamingGrowsOneExchange(blocks: seq<Block>, b: Block)
    ensures Exchanges(blocks + [b]) == Exchanges(blocks) + [[b]]
      || exists k: nat :: Grows(Exchanges(blocks), Exchanges(blocks + [b]), k)
  {
    AppendTouchesOneExchange(blocks, b);
    if k: nat :| ExtendsAt(Exchanges(blocks), Exchanges(blocks + [b]), k, b) {
      if Calls(Exchanges(blocks)[k]) != [] { AppendNeverReflows(Exchanges(blocks)[k], b); }
      assert Grows(Exchanges(blocks), Exchanges(blocks + [b]), k);
    }
  }

  // ------------------------------------------------------- final answers

  function FinalBy(item: Item): seq<Block> {
    if item.Bubble? && item.isFinalAnswer then [item.block] else []
  }

  /** The block at `final`, if that position lies in `from .. n`. */
  function AnswerIn(ex: seq<Block>, final: int, from: nat, n: nat): seq<Block>
    requires n <= |ex|
  {
    if from <= final < n then [ex[final]] else []
  }

  lemma {:induction false} BubblesFinal(ex: seq<Block>, final: int, n: nat)
    requires n <= |ex|
    ensures FlatMap(FinalBy, Bubbles(ex, final, n)) == AnswerIn(ex, final, 0, n)
  {
    if n > 0 {
      BubblesFinal(ex, final, n - 1);
      FlatMapSnoc(FinalBy, Bubbles(ex, final, n - 1), Bubble(ex[n - 1], n - 1 == final));
    }
  }

  lemma {:induction false} TrailingFinal(ex: seq<Block>, final: int, from: nat, n: nat)
    requires n <= |ex| && -1 <= final < |ex| && (final >= 0 ==> ex[final].kind.AssistantText?)
    ensures FlatMap(FinalBy, Trailing(ex, final, from, n)) == AnswerIn(ex, final, from, n)
  {
    if n > from {
      TrailingFinal(ex, final, from, n - 1);
      assert n - 1 == final ==> ShownAfterGroup(ex, final, n - 1);
      FlatMapSnoc(FinalBy, Trailing(ex, final, from, n - 1), Bubble(ex[n - 1], n - 1 == final));
    }
  }

  /** The bubbles marked as final answer are exactly the last assistant text, when no tool
      call follows it, and none otherwise. */
  lemma {:induction false} OneFinalAnswer(ex: seq<Block>, terminal: set<string>)
    ensures FlatMap(FinalBy, ExchangeItems(ex, terminal)) == AnswerIn(ex, FinalIdx(ex), 0, |ex|)
    ensures forall k: nat :: FinalIdx(ex) >= 0 && FinalIdx(ex) < k < |ex| ==>
      !ex[k].kind.ToolCall? && !ex[k].kind.AssistantText?
  {
    forall k: nat | FinalIdx(ex) >= 0 && FinalIdx(ex) < k < |ex|
      ensures !ex[k].kind.ToolCall? && !ex[k].kind.AssistantText?
    {
      LastIsLast(ex, |ex|, k);
    }
    if Calls(ex) == [] {
      BubblesFinal(ex, FinalIdx(ex), |ex|);
    } else {
      GroupExists(ex);
      WithToolsFinal(ex, terminal, GroupAt(ex));
    }
  }

  lemma {:induction false} WithToolsFinal(ex: seq<Block>, terminal: set<string>, g: nat)
    requires Calls(ex) != [] && g == GroupAt(ex) && (FinalIdx(ex) < 0 || FinalIdx(ex) > g)
    ensures FlatMap(FinalBy, ExchangeItems(ex, terminal)) == AnswerIn(ex, FinalIdx(ex), 0, |ex|)
  {
    var f := FinalIdx(ex);
    assert FlatMap(FinalBy, Bubbles(ex, f, g)) == [] by { BubblesFinal(ex, f, g); }
    assert FlatMap(FinalBy, Trailing(ex, f, g + 1, |ex|)) == AnswerIn(ex, f, 0, |ex|) by {
      TrailingFinal(ex, f, g + 1, |ex|);
    }
    MapExchange(FinalBy, ex, terminal);
    assert FinalBy(Group(ex, terminal)) == [];
  }

  // ------------------------------------------------- terminal task ids

  function Unflagged(item: Item): seq<Item> {
    match item
    case Bubble(_, _) => [item]
    case ToolGroup(id, calls, steps, _) => [ToolGroup(id, calls, steps, false)]
    case FileArtifact(_, _) => []
  }

  /** The items without in-progress flags and file cards. */
  function Skeleton(items: seq<Item>): seq<Item> {
    FlatMap(Unflagged, items)
  }

  lemma {:induction false} SkeletonOfExchange(ex: seq<Block>, t1: set<string>, t2: set<string>)
    ensures Skeleton(ExchangeItems(ex, t1)) == Skeleton(ExchangeItems(ex, t2))
  {
    if Calls(ex) != [] {
      SkeletonPieces(ex, t1);
      SkeletonPieces(ex, t2);
    }
  }

  lemma {:induction false} SkeletonPieces(ex: seq<Block>, terminal: set<string>)
    requires Calls(ex) != []
    ensures Skeleton(ExchangeItems(ex, terminal)) == (
      Skeleton(Bubbles(ex, FinalIdx(ex), GroupAt(ex)))
      + [ToolGroup("group-" + Calls(ex)[0].id, Calls(ex), Steps(ex), false)]
      + Skeleton(Trailing(ex, FinalIdx(ex), GroupAt(ex) + 1, |ex|)))
  {
    MapExchange(Unflagged, ex, terminal);
  }

  /** Which tasks are known to be terminal changes only in-progress flags and file cards. */
  lemma {:induction false} TerminalIdsOnlyFlag(exchanges: seq<seq<Block>>, t1: set<string>, t2: set<string>)
    ensures Skeleton(GroupItems(exchanges, t1)) == Skeleton(GroupItems(exchanges, t2))
  {
    if exchanges != [] {
      var n := |exchanges| - 1;
      TerminalIdsOnlyFlag(exchanges[..n], t1, t2);
      FlatMapAppend(Unflagged, GroupItems(exchanges[..n], t1), ExchangeItems(exchanges[n], t1));
      FlatMapAppend(Unflagged, GroupItems(exchanges[..n], t2), ExchangeItems(exchanges[n], t2));
      SkeletonOfExchange(exchanges[n], t1, t2);
    }
  }

  // ---------------------------------------------------------- file cards

  function Lookup(files: seq<(string, string)>, path: string): Option<string> {
    if files == [] then None else if files[0].0 == path then Some(files[0].1) else Lookup(files[1..], path)
  }

  predicate DistinctPaths(files: seq<(string, string)>) {
    files == [] || (Lookup(files[1..], files[0].0).None? && DistinctPaths(files[1..]))
  }

  lemma {:induction false} UpsertExact(files: seq<(string, string)>, path: string, tool: string, q: string)
    ensures Lookup(Upsert(files, path, tool), q) == if q == path then Some(tool) else Lookup(files, q)
  {
    if files != [] && files[0].0 != path {
      UpsertExact(files[1..], path, tool, q);
      assert Upsert(files, path, tool)[1..] == Upsert(files[1..], path, tool);
    } else if files != [] {
      assert Upsert(files, path, tool)[1..] == files[1..];
    }
  }

  lemma {:induction false} UpsertDistinct(files: seq<(string, string)>, path: string, tool: string)
    requires DistinctPaths(files)
    ensures DistinctPaths(Upsert(files, path, tool))
  {
    if files != [] && files[0].0 != path {
      UpsertDistinct(files[1..], path, tool);
      UpsertExact(files[1..], path, tool, files[0].0);
      assert Upsert(files, path, tool)[1..] == Upsert(files[1..], path, tool);
    } else if files != [] {
      assert Upsert(files, path, tool)[1..] == files[1..];
    }
  }

  /** The tool of the last successful write to `path`. */
  function LastWriter(calls: seq<Block>, path: string): Option<string> {
    if calls == [] then None
    else
      var c := calls[|calls| - 1];
      if WritesFile(c) && c.kind.path == path then Some(c.kind.toolName)
      else LastWriter(calls[..|calls| - 1], path)
  }

  /** The card lists every written path once, with the tool that wrote it last. */
  lemma {:induction false} FilesExact(calls: seq<Block>, path: string)
    ensures DistinctPaths(Files(calls))
    ensures Lookup(Files(calls), path) == LastWriter(calls, path)
  {
    if calls != [] {
      var init, c := calls[..|calls| - 1], calls[|calls| - 1];
      FilesExact(init, path);
      if WritesFile(c) {
        UpsertExact(Files(init), c.kind.path, c.kind.toolName, path);
        UpsertDistinct(Files(init), c.kind.path, c.kind.toolName);
      }
    }
  }

  // ------------------------------------------------------------ the loops

  /** `index` maps every task seen so far to its exchange. */
  ghost predicate IndexesTurns(index: map<string, nat>, ks: seq<Key>) {
    && (forall t :: t in index <==> Turn(t) in ks)
    && (forall t :: t in index ==> index[t] < |ks| && ks[index[t]] == Turn(t))
  }

  method Partition(blocks: seq<Block>) returns (exchanges: seq<seq<Block>>)
    ensures exchanges == Exchanges(blocks)
  {
    exchanges := [];
    var indexByTask: map<string, nat> := map[];
    for n := 0 to |blocks|
      invariant exchanges == Exchanges(blocks[..n])
      invariant IndexesTurns(indexByTask, Keys(blocks[..n]))
    {
      var b := blocks[n];
      assert blocks[..n + 1] == blocks[..n] + [b];
      if b.taskId.None? {
        NewKeyAppends(blocks[..n], b);
        exchanges := exchanges + [[b]];
      } else if b.taskId.value !in indexByTask {
        NewKeyAppends(blocks[..n], b);
        indexByTask := indexByTask[b.taskId.value := |exchanges|];
        exchanges := exchanges + [[b]];
      } else {
        var existing := indexByTask[b.taskId.value];
        KnownTurnGrows(blocks[..n], b, existing);
        exchanges := exchanges[existing := exchanges[existing] + [b]];
      }
    }
    assert blocks[..|blocks|] == blocks;
  }

  method CollectCalls(ex: seq<Block>) returns (calls: seq<Block>)
    ensures calls == Calls(ex)
  {
    calls := [];
    for n := 0 to |ex|
      invariant calls == Calls(ex[..n])
    {
      assert ex[..n + 1][..n] == ex[..n];
      if ex[n].kind.ToolCall? { calls := calls + [ex[n]]; }
    }
    assert ex[..|ex|] == ex;
  }

  /** The two backward scans that find the final answer. */
  method FindFinal(ex: seq<Block>) returns (final: int)
    ensures final == FinalIdx(ex)
  {
    var lastCall := -1;
    var i := |ex| - 1;
    while i >= 0
      invariant -1 <= i < |ex|
      invariant LastCall(ex, |ex|) == if lastCall >= 0 then lastCall else LastCall(ex, i + 1)
    {
      if ex[i].kind.ToolCall? {
        lastCall := i;
        break;
      }
      i := i - 1;
    }
    final := -1;
    i := |ex| - 1;
    while i >= 0
      invariant -1 <= i < |ex| && final == -1
      invariant LastText(ex, |ex|) == LastText(ex, i + 1)
    {
      if ex[i].kind.AssistantText? {
        if i > lastCall { final := i; }
        break;
      }
      i := i - 1;
    }
  }

  method BuildSteps(ex: seq<Block>, final: int) returns (steps: seq<Step>, groupIdx: int)
    ensures steps == StepsUpTo(ex, final, |ex|) && groupIdx == GroupIdx(ex, final, |ex|)
  {
    steps, groupIdx := [], -1;
    for n := 0 to |ex|
      invariant steps == StepsUpTo(ex, final, n) && groupIdx == GroupIdx(ex, final, n)
    {
      var b := ex[n];
      if b.kind.ToolCall? {
        steps := steps + [CallStep(b)];
      } else if b.kind.AssistantText? && n != final {
        steps := steps + [Narration(b)];
      } else {
        continue;
      }
      if groupIdx == -1 { groupIdx := n; }
    }
  }

  method IsExchangeComplete(ex: seq<Block>, terminal: set<string>) returns (complete: bool)
    ensures complete <==> Complete(ex, terminal)
  {
    var task := None;
    for n := 0 to |ex|
      invariant task.None? && TaskOf(ex) == TaskOf(ex[n..])
    {
      if ex[n].taskId.Some? {
        task := ex[n].taskId;
        break;
      }
      assert ex[n..][1..] == ex[n + 1..];
    }
    if task.Some? && task.value in terminal { return true; }
    var i := |ex| - 1;
    while i >= 0
      invariant -1 <= i < |ex|
      invariant Settled(ex, |ex|) == Settled(ex, i + 1)
    {
      if Quiet(ex[i].kind) {
        i := i - 1;
        continue;
      }
      if ex[i].kind.AssistantText? { return !ex[i].kind.streaming; }
      return false;
    }
    return false;
  }

  method CollectFiles(calls: seq<Block>) returns (files: seq<(string, string)>)
    ensures files == Files(calls)
  {
    files := [];
    for n := 0 to |calls|
      invariant files == Files(calls[..n])
    {
      var call := calls[n];
      assert calls[..n + 1][..n] == calls[..n];
      if !WritesFile(call) { continue; }
      files := Upsert(files, call.kind.path, call.kind.toolName);
    }
    assert calls[..|calls|] == calls;
  }

  method PushBubbles(items: seq<Item>, ex: seq<Block>, final: int, n: int) returns (out: seq<Item>)
    requires n <= |ex|
    ensures out == items + Bubbles(ex, final, n)
  {
    out := items;
    var i := 0;
    while i < n
      invariant 0 <= i && (i <= n || i == 0)
      invariant out == items + Bubbles(ex, final, i)
    {
      out := out + [Bubble(ex[i], i == final)];
      i := i + 1;
    }
  }

  method PushTrailing(items: seq<Item>, ex: seq<Block>, final: int, from: nat) returns (out: seq<Item>)
    ensures out == items + Trailing(ex, final, from, |ex|)
  {
    out := items;
    var i := from;
    while i < |ex|
      invariant from <= i && (i <= |ex| || i == from)
      invariant i <= |ex| ==> out == items + Trailing(ex, final, from, i)
      invariant i > |ex| ==> out == items
    {
      var b := ex[i];
      i := i + 1;
      if b.kind.ToolCall? || b.kind.ToolResult? { continue; }
      if b.kind.AssistantText? && i - 1 != final { continue; }
      out := out + [Bubble(b, i - 1 == final)];
    }
  }

  method PushCard(items: seq<Item>, calls: seq<Block>, complete: bool) returns (out: seq<Item>)
    requires calls != []
    ensures out == items + CardOf(calls, complete)
  {
    out := items;
    if complete {
      var files := CollectFiles(calls);
      if |files| > 0 { out := out + [FileArtifact("files-" + calls[0].id, files)]; }
    }
  }

  method PushProcess(items: seq<Item>, ex: seq<Block>, calls: seq<Block>, terminal: set<string>)
    returns (out: seq<Item>, complete: bool, groupIdx: int)
    requires calls == Calls(ex) != []
    ensures complete <==> Complete(ex, terminal)
    ensures groupIdx == GroupAt(ex)
    ensures out == items + Bubbles(ex, FinalIdx(ex), groupIdx) + [Group(ex, terminal)]
  {
    var final := FindFinal(ex);
    var steps;
    steps, groupIdx := BuildSteps(ex, final);
    out := PushBubbles(items, ex, final, groupIdx);
    complete := IsExchangeComplete(ex, terminal);
    out := out + [ToolGroup("group-" + calls[0].id, calls, steps, !complete)];
  }

  method AppendExchange(items: seq<Item>, ex: seq<Block>, terminal: set<string>) returns (out: seq<Item>)
    ensures out == items + ExchangeItems(ex, terminal)
  {
    var calls := CollectCalls(ex);
    var final := FindFinal(ex);
    if |calls| == 0 {
      out := PushBubbles(items, ex, final, |ex|);
      return;
    }
    var complete, groupIdx;
    out, complete, groupIdx := PushProcess(items, ex, calls, terminal);
    out := PushTrailing(out, ex, final, groupIdx + 1);
    out := PushCard(out, calls, complete);
    AppendAssembled(items, Bubbles(ex, final, groupIdx), Group(ex, terminal),
                    Trailing(ex, final, groupIdx + 1, |ex|), Card(ex, terminal));
  }

  lemma AppendAssembled<T>(items: seq<T>, before: seq<T>, x: T, after: seq<T>, last: seq<T>)
    ensures items + before + [x] + after + last == items + Assemble(before, x, after, last)
  {}

  lemma {:induction false} GroupItemsSnoc(exchanges: seq<seq<Block>>, n: nat, terminal: set<string>)
    requires n < |exchanges|
    ensures GroupItems(exchanges[..n + 1], terminal) == (
      GroupItems(exchanges[..n], terminal) + ExchangeItems(exchanges[n], terminal))
  {
    assert exchanges[..n + 1][..n] == exchanges[..n];
  }

  /** The loops compute the reference view. */
  method GroupExchanges(blocks: seq<Block>, terminal: set<string>) returns (items: seq<Item>)
    ensures items == GroupItems(Exchanges(blocks), terminal)
  {
    items := [];
    var exchanges := Partition(blocks);
    for n := 0 to |exchanges|
      invariant items == GroupItems(exchanges[..n], terminal)
    {
      GroupItemsSnoc(exchanges, n, terminal);
      items := AppendExchange(items, exchanges[n], terminal);
    }
    assert exchanges[..|exchanges|] == exchanges;
  }
}
