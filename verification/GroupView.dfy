/** The view of group-exchanges.ts in terms of the blocks alone: which are process steps, which
    one is the answer, when a turn is over, and what each item then says. */
module GroupView {
  import opened Common
  import opened GroupExchanges

  // ------------------------------------------------- a turn, block by block

  /** The closing answer: an assistant text after which neither a text nor a call comes. */
  predicate IsAnswer(ex: seq<Block>, i: nat)
    requires i < |ex|
  {
    ex[i].kind.AssistantText?
    && forall j :: i < j < |ex| ==> !ex[j].kind.AssistantText? && !ex[j].kind.ToolCall?
  }

  /** Part of the process: a tool call, or an assistant text that is not the closing answer. */
  predicate InProcess(ex: seq<Block>, i: nat)
    requires i < |ex|
  {
    ex[i].kind.ToolCall? || (ex[i].kind.AssistantText? && !IsAnswer(ex, i))
  }

  predicate Aside(k: Kind) {
    k.Phase? || k.ToolResult? || k.SystemNote?
  }

  /** A settled assistant text after which only phases, tool results and notes come. */
  predicate SettledAt(ex: seq<Block>, i: nat)
    requires i < |ex|
  {
    ex[i].kind.AssistantText? && !ex[i].kind.streaming && forall j :: i < j < |ex| ==> Aside(ex[j].kind)
  }

  /** The first block with a task names this one. */
  predicate TaskAt(ex: seq<Block>, i: nat, terminal: set<string>)
    requires i < |ex|
  {
    ex[i].taskId.Some? && ex[i].taskId.value in terminal && forall j :: 0 <= j < i ==> ex[j].taskId.None?
  }

  predicate TurnOver(ex: seq<Block>, terminal: set<string>) {
    || (exists i :: 0 <= i < |ex| && TaskAt(ex, i, terminal))
    || (exists i :: 0 <= i < |ex| && SettledAt(ex, i))
  }

  predicate HasCall(ex: seq<Block>) {
    exists i :: 0 <= i < |ex| && ex[i].kind.ToolCall?
  }

  predicate WroteAt(ex: seq<Block>, i: nat)
    requires i < |ex|
  {
    && ex[i].kind.ToolCall? && (ex[i].kind.toolName == "file_write" || ex[i].kind.toolName == "file_patch")
    && ex[i].kind.ok && ex[i].kind.path != ""
  }

  predicate WroteFile(ex: seq<Block>) {
    exists i :: 0 <= i < |ex| && WroteAt(ex, i)
  }

  // ------------------------------------------------------- when a turn is over

  lemma {:induction false} SettledExact(ex: seq<Block>, n: nat)
    requires n <= |ex| && forall j :: n <= j < |ex| ==> Aside(ex[j].kind)
    ensures Settled(ex, n) <==> exists i :: 0 <= i < |ex| && SettledAt(ex, i)
  {
    if n > 0 {
      if Aside(ex[n - 1].kind) {
        SettledExact(ex, n - 1);
      } else if ex[n - 1].kind.AssistantText? && !ex[n - 1].kind.streaming {
        assert SettledAt(ex, n - 1);
      } else {
        forall i | 0 <= i < |ex| ensures !SettledAt(ex, i) {}
      }
    }
  }

  lemma {:induction false} TaskOfExact(ex: seq<Block>, terminal: set<string>)
    ensures (TaskOf(ex).Some? && TaskOf(ex).value in terminal) <==> exists i :: 0 <= i < |ex| && TaskAt(ex, i, terminal)
  {
    if ex != [] {
      if ex[0].taskId.Some? {
        if TaskOf(ex).value in terminal { assert TaskAt(ex, 0, terminal); }
      } else {
        TaskOfExact(ex[1..], terminal);
        TaskShift(ex, terminal);
      }
    }
  }

  lemma TaskShift(ex: seq<Block>, terminal: set<string>)
    requires ex != [] && ex[0].taskId.None?
    ensures (exists i :: 0 <= i < |ex| && TaskAt(ex, i, terminal))
      <==> exists i :: 0 <= i < |ex[1..]| && TaskAt(ex[1..], i, terminal)
  {
    if i :| 0 <= i < |ex| && TaskAt(ex, i, terminal) {
      forall j | 0 <= j < i - 1 ensures ex[1..][j].taskId.None? { assert ex[1..][j] == ex[j + 1]; }
      assert TaskAt(ex[1..], i - 1, terminal);
    }
    if i :| 0 <= i < |ex[1..]| && TaskAt(ex[1..], i, terminal) {
      forall j | 0 <= j < i + 1 ensures ex[j].taskId.None? {
        if j > 0 { assert ex[1..][j - 1] == ex[j]; }
      }
      assert TaskAt(ex, i + 1, terminal);
    }
  }

  /** isExchangeComplete, from the blocks: the turn's task is known to be terminal, or the
      turn ends in a settled answer, asides apart. */
  lemma CompleteExact(ex: seq<Block>, terminal: set<string>)
    ensures Complete(ex, terminal) <==> TurnOver(ex, terminal)
  {
    SettledExact(ex, |ex|);
    TaskOfExact(ex, terminal);
  }

  // ------------------------------------------------------ answer and process

  lemma {:induction false} LastAre(ex: seq<Block>, n: nat, i: nat)
    requires i < n <= |ex|
    ensures ex[i].kind.ToolCall? ==> LastCall(ex, n) >= i
    ensures ex[i].kind.AssistantText? ==> LastText(ex, n) >= i
  {
    if i < n - 1 { LastAre(ex, n - 1, i); }
  }

  lemma FinalExact(ex: seq<Block>, i: nat)
    requires i < |ex|
    ensures i == FinalIdx(ex) <==> IsAnswer(ex, i)
    ensures IsStep(ex, FinalIdx(ex), i) <==> InProcess(ex, i)
  {
    var f, c, t := FinalIdx(ex), LastCall(ex, |ex|), LastText(ex, |ex|);
    if i == f {
      forall j | i < j < |ex| ensures !ex[j].kind.AssistantText? && !ex[j].kind.ToolCall? { LastIsLast(ex, |ex|, j); }
    }
    if IsAnswer(ex, i) { LastAre(ex, |ex|, i); }
  }

  lemma {:induction false} HasCallExact(ex: seq<Block>)
    ensures Calls(ex) != [] <==> HasCall(ex)
    ensures forall c :: c in Calls(ex) <==> c in ex && c.kind.ToolCall?
  {
    if ex != [] {
      var init, last := ex[..|ex| - 1], ex[|ex| - 1];
      assert ex == init + [last];
      HasCallExact(init);
      if HasCall(init) {
        var i :| 0 <= i < |init| && init[i].kind.ToolCall?;
        assert ex[i].kind.ToolCall?;
      }
    }
  }

  /** The process among the first `n` blocks, in order. */
  function ProcessOf(ex: seq<Block>, n: nat): seq<Step>
    requires n <= |ex|
  {
    if n == 0 then []
    else if !InProcess(ex, n - 1) then ProcessOf(ex, n - 1)
    else ProcessOf(ex, n - 1) + [if ex[n - 1].kind.ToolCall? then CallStep(ex[n - 1]) else Narration(ex[n - 1])]
  }

  lemma {:induction false} StepsAreProcess(ex: seq<Block>, n: nat)
    requires n <= |ex|
    ensures StepsUpTo(ex, FinalIdx(ex), n) == ProcessOf(ex, n)
  {
    if n > 0 {
      StepsAreProcess(ex, n - 1);
      FinalExact(ex, n - 1);
    }
  }

  lemma {:induction false} GroupIsFirstStep(ex: seq<Block>, n: nat)
    requires n <= |ex|
    ensures var g := GroupIdx(ex, FinalIdx(ex), n);
      && (g < 0 ==> forall j :: 0 <= j < n ==> !InProcess(ex, j))
      && (g >= 0 ==> InProcess(ex, g) && forall j :: 0 <= j < g ==> !InProcess(ex, j))
  {
    if n > 0 {
      GroupIsFirstStep(ex, n - 1);
      FinalExact(ex, n - 1);
    }
  }

  // ------------------------------------------------------------- the bubbles

  /** Shown as a bubble: everything in a turn without tools; otherwise what is no part of the
      process, tool results only before it. */
  predicate Standing(ex: seq<Block>, i: nat)
    requires i < |ex|
  {
    HasCall(ex) ==>
      !InProcess(ex, i) && (ex[i].kind.ToolResult? ==> forall j :: 0 <= j < i ==> !InProcess(ex, j))
  }

  function BubblesOf(ex: seq<Block>, n: nat): seq<Item>
    requires n <= |ex|
  {
    if n == 0 then []
    else if Standing(ex, n - 1) then BubblesOf(ex, n - 1) + [Bubble(ex[n - 1], IsAnswer(ex, n - 1))]
    else BubblesOf(ex, n - 1)
  }

  lemma {:induction false} BubblesBefore(ex: seq<Block>, n: nat)
    requires n <= |ex| && (HasCall(ex) ==> forall j :: 0 <= j < n ==> !InProcess(ex, j))
    ensures Bubbles(ex, FinalIdx(ex), n) == BubblesOf(ex, n)
    ensures |BubblesOf(ex, n)| == n
  {
    if n > 0 {
      BubblesBefore(ex, n - 1);
      FinalExact(ex, n - 1);
      assert Standing(ex, n - 1);
    }
  }

  lemma {:induction false} BubblesAfter(ex: seq<Block>, g: nat, n: nat)
    requires g < n <= |ex| && HasCall(ex) && InProcess(ex, g)
    ensures BubblesOf(ex, n) == BubblesOf(ex, g) + Trailing(ex, FinalIdx(ex), g + 1, n)
  {
    if n == g + 1 {
      assert !Standing(ex, g);
    } else {
      BubblesAfter(ex, g, n - 1);
      FinalExact(ex, n - 1);
      assert Standing(ex, n - 1) <==> ShownAfterGroup(ex, FinalIdx(ex), n - 1);
    }
  }

  // ------------------------------------------------------------ one exchange

  lemma {:induction false} FilesIffWrote(calls: seq<Block>)
    ensures Files(calls) != [] <==> exists c :: c in calls && WritesFile(c)
  {
    if calls != [] {
      var init, last := calls[..|calls| - 1], calls[|calls| - 1];
      assert calls == init + [last];
      FilesIffWrote(init);
    }
  }

  lemma WroteExact(ex: seq<Block>)
    ensures WroteFile(ex) <==> exists c :: c in Calls(ex) && WritesFile(c)
  {
    HasCallExact(ex);
    if WroteFile(ex) {
      var i :| 0 <= i < |ex| && WroteAt(ex, i);
      assert ex[i] in Calls(ex) && WritesFile(ex[i]);
    }
    if c :| c in Calls(ex) && WritesFile(c) {
      var i :| 0 <= i < |ex| && ex[i] == c;
      assert WroteAt(ex, i);
    }
  }

  /** A turn without tool calls is shown as it is, the closing answer marked. */
  lemma PlainExact(ex: seq<Block>, terminal: set<string>)
    requires !HasCall(ex)
    ensures ExchangeItems(ex, terminal) == BubblesOf(ex, |ex|) && |BubblesOf(ex, |ex|)| == |ex|
  {
    HasCallExact(ex);
    BubblesBefore(ex, |ex|);
  }

  /** `first` is where the process of the exchange begins. */
  predicate StartsAt(ex: seq<Block>, first: nat) {
    first < |ex| && InProcess(ex, first) && forall j :: 0 <= j < first ==> !InProcess(ex, j)
  }

  /** What follows the bubbles: the file card, once the turn is over, if it wrote a file. */
  function FileCard(ex: seq<Block>, terminal: set<string>): seq<Item>
    requires HasCall(ex)
  {
    HasCallExact(ex);
    if TurnOver(ex, terminal) && WroteFile(ex) then [FileArtifact("files-" + Calls(ex)[0].id, Files(Calls(ex)))] else []
  }

  /** A turn with tool calls, from its blocks: the bubbles before the process, one group with
      the whole process in order, in progress iff the turn is not over, the other bubbles in
      order, and the file card iff the turn is over and wrote a file. */
  lemma WithToolsExact(ex: seq<Block>, terminal: set<string>, first: nat)
    requires HasCall(ex) && StartsAt(ex, first)
    ensures Calls(ex) != [] && first <= |BubblesOf(ex, |ex|)|
    ensures ExchangeItems(ex, terminal) ==
      BubblesOf(ex, |ex|)[..first]
      + [ToolGroup("group-" + Calls(ex)[0].id, Calls(ex), ProcessOf(ex, |ex|), !TurnOver(ex, terminal))]
      + BubblesOf(ex, |ex|)[first..]
      + FileCard(ex, terminal)
  {
    HasCallExact(ex);
    GroupIsFirstStep(ex, |ex|);
    assert GroupAt(ex) == first;
    StepsAreProcess(ex, |ex|);
    CompleteExact(ex, terminal);
    WroteExact(ex);
    FilesIffWrote(Calls(ex));
    BubblesBefore(ex, first);
    BubblesAfter(ex, first, |ex|);
    assert BubblesOf(ex, |ex|)[..first] == Bubbles(ex, FinalIdx(ex), first);
    assert BubblesOf(ex, |ex|)[first..] == Trailing(ex, FinalIdx(ex), first + 1, |ex|);
  }

  // ------------------------------------------------------------ the whole list

  lemma {:induction false} ItemsAreMapped(f: seq<Block> -> seq<Item>, xs: seq<seq<Block>>, terminal: set<string>)
    requires forall ex :: f(ex) == ExchangeItems(ex, terminal)
    ensures GroupItems(xs, terminal) == FlatMap(f, xs)
  {
    if xs != [] { ItemsAreMapped(f, xs[..|xs| - 1], terminal); }
  }

  lemma Sandwich(f: seq<Block> -> seq<Item>, a: seq<seq<Block>>, ex: seq<Block>, b: seq<seq<Block>>)
    ensures FlatMap(f, a + [ex] + b) == FlatMap(f, a) + f(ex) + FlatMap(f, b)
  {
    FlatMapAppend(f, a + [ex], b);
    FlatMapSnoc(f, a, ex);
  }

  /** The view is the items of the exchanges, one exchange after the other. */
  lemma ExchangeInView(exchanges: seq<seq<Block>>, k: nat, terminal: set<string>)
    requires k < |exchanges|
    ensures GroupItems(exchanges, terminal) ==
      GroupItems(exchanges[..k], terminal) + ExchangeItems(exchanges[k], terminal) + GroupItems(exchanges[k + 1..], terminal)
  {
    var f: seq<Block> -> seq<Item> := ex => ExchangeItems(ex, terminal);
    assert exchanges == exchanges[..k] + [exchanges[k]] + exchanges[k + 1..];
    ItemsAreMapped(f, exchanges, terminal);
    ItemsAreMapped(f, exchanges[..k], terminal);
    ItemsAreMapped(f, exchanges[k + 1..], terminal);
    Sandwich(f, exchanges[..k], exchanges[k], exchanges[k + 1..]);
  }
}
