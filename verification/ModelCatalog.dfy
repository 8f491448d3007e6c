/** packages/runtime/src/model-routes.ts: the provider catalog turned inside out, from the
    models of each provider to the routes of each model. */
module ModelCatalog {
  import opened Common

  datatype Item = Item(name: string, models: seq<string>, configured: bool)

  /** One provider serving one model under the provider's own id. */
  datatype Pair = Pair(provider: string, model: string)

  datatype Route = Route(pair: Pair, title: string, isDefault: bool)

  datatype Entry = Entry(id: string, routes: seq<Route>)

  datatype Alias = Alias(id: string, qualifier: string)

  /** The curated equivalences: Bedrock's geographic profiles of Anthropic models. */
  function AliasOf(p: Pair): Option<Alias> {
    if p.provider != "bedrock" then None
    else if p.model == "us.anthropic.claude-opus-4-8" then Some(Alias("claude-opus-4-8", "us"))
    else if p.model == "us.anthropic.claude-opus-4-7" then Some(Alias("claude-opus-4-7", "us"))
    else if p.model == "us.anthropic.claude-sonnet-4-6" then Some(Alias("claude-sonnet-4-6", "us"))
    else if p.model == "us.anthropic.claude-haiku-4-5-20251001-v1:0" then Some(Alias("claude-haiku-4-5", "us"))
    else if p.model == "eu.anthropic.claude-sonnet-4-6" then Some(Alias("claude-sonnet-4-6", "eu"))
    else if p.model == "apac.anthropic.claude-sonnet-4-6" then Some(Alias("claude-sonnet-4-6", "apac"))
    else if p.model == "global.anthropic.claude-sonnet-4-6" then Some(Alias("claude-sonnet-4-6", "global"))
    else None
  }

  function Canonical(p: Pair): string {
    if AliasOf(p).Some? then AliasOf(p).value.id else p.model
  }

  const PRIORITY := ["openai", "anthropic", "deepseek", "codex", "azure", "bedrock", "openrouter", "local"]

  function IndexIn(names: seq<string>, name: string): (i: nat)
    ensures i <= |names|
  {
    if names == [] || names[0] == name then 0 else 1 + IndexIn(names[1..], name)
  }

  /** The route preference; an unknown provider comes last. */
  function Priority(provider: string): nat {
    IndexIn(PRIORITY, provider)
  }

  function DisplayLabel(provider: string): string {
    if provider == "codex" then "Codex"
    else if provider == "openai" then "OpenAI"
    else if provider == "openrouter" then "OpenRouter"
    else if provider == "deepseek" then "DeepSeek"
    else if provider == "anthropic" then "Anthropic"
    else if provider == "bedrock" then "Amazon Bedrock"
    else if provider == "azure" then "Azure OpenAI"
    else if provider == "local" then "Local"
    else if provider == "echo" then "Gini Echo"
    else provider
  }

  function RouteLabel(p: Pair): string {
    if AliasOf(p).Some? then DisplayLabel(p.provider) + " \U{00B7} " + AliasOf(p).value.qualifier
    else DisplayLabel(p.provider)
  }

  function Key(p: Pair): string {
    p.provider + "::" + p.model
  }

  // --------------------------------------------------------- specification

  function PairsOf(item: Item, n: nat): seq<Pair>
    requires n <= |item.models|
  {
    if n == 0 || !item.configured then [] else PairsOf(item, n - 1) + [Pair(item.name, item.models[n - 1])]
  }

  /** Every pair of a configured row, in catalog order. */
  function Pairs(items: seq<Item>): seq<Pair> {
    if items == [] then []
    else
      var item := items[|items| - 1];
      Pairs(items[..|items| - 1]) + PairsOf(item, |item.models|)
  }

  function Keys(pairs: seq<Pair>): set<string> {
    set p | p in pairs :: Key(p)
  }

  /** The pairs that get a route: the first of each key. */
  function Kept(pairs: seq<Pair>): seq<Pair> {
    if pairs == [] then []
    else
      var before, p := Kept(pairs[..|pairs| - 1]), pairs[|pairs| - 1];
      if Key(p) in Keys(before) then before else before + [p]
  }

  /** The canonical ids in order of first appearance. */
  function Ids(kept: seq<Pair>): seq<string> {
    if kept == [] then []
    else
      var before, id := Ids(kept[..|kept| - 1]), Canonical(kept[|kept| - 1]);
      if id in before then before else before + [id]
  }

  function Serving(kept: seq<Pair>, id: string): seq<Pair> {
    if kept == [] then []
    else
      var before, p := Serving(kept[..|kept| - 1], id), kept[|kept| - 1];
      if Canonical(p) == id then before + [p] else before
  }

  /** The positions below `n` with this priority. */
  function Bucket(ps: seq<Pair>, priority: nat, n: nat): seq<nat>
    requires n <= |ps|
  {
    if n == 0 then []
    else
      var before := Bucket(ps, priority, n - 1);
      if Priority(ps[n - 1].provider) == priority then before + [n - 1] else before
  }

  function OrderBelow(ps: seq<Pair>, priority: nat): seq<nat> {
    if priority == 0 then [] else OrderBelow(ps, priority - 1) + Bucket(ps, priority - 1, |ps|)
  }

  /** The positions by priority, and in catalog order within a priority. */
  function Order(ps: seq<Pair>): seq<nat> {
    OrderBelow(ps, |PRIORITY| + 1)
  }

  /** `routes[0]` is the default. */
  function RoutesIn(ps: seq<Pair>, order: seq<nat>): seq<Route>
    requires forall j :: 0 <= j < |order| ==> order[j] < |ps|
  {
    seq(|order|, j requires 0 <= j < |order| => Route(ps[order[j]], RouteLabel(ps[order[j]]), j == 0))
  }

  function EntryOf(kept: seq<Pair>, id: string): Entry {
    OrderExact(Serving(kept, id));
    Entry(id, RoutesIn(Serving(kept, id), Order(Serving(kept, id))))
  }

  function Catalog(items: seq<Item>): seq<Entry> {
    var kept := Kept(Pairs(items));
    seq(|Ids(kept)|, i requires 0 <= i < |Ids(kept)| => EntryOf(kept, Ids(kept)[i]))
  }

  // -------------------------------------------------------------- the order

  predicate Before(ps: seq<Pair>, a: nat, b: nat) {
    a < |ps| && b < |ps|
    && (Priority(ps[a].provider) < Priority(ps[b].provider)
        || (Priority(ps[a].provider) == Priority(ps[b].provider) && a < b))
  }

  /** Every position once, by priority and then by position. */
  predicate StableOrder(ps: seq<Pair>, order: seq<nat>) {
    && (forall j, k :: 0 <= j < k < |order| ==> Before(ps, order[j], order[k]))
    && (forall j :: 0 <= j < |order| ==> order[j] < |ps|)
    && (forall i: nat :: i < |ps| ==> i in order)
  }

  lemma {:induction false} BucketExact(ps: seq<Pair>, priority: nat, n: nat)
    requires n <= |ps|
    ensures forall i: nat :: i in Bucket(ps, priority, n) <==> i < n && Priority(ps[i].provider) == priority
    ensures forall j, k :: 0 <= j < k < |Bucket(ps, priority, n)| ==> Bucket(ps, priority, n)[j] < Bucket(ps, priority, n)[k]
  {
    if n > 0 {
      BucketExact(ps, priority, n - 1);
      var before := Bucket(ps, priority, n - 1);
      forall j | 0 <= j < |before| ensures before[j] < n - 1 { assert before[j] in before; }
    }
  }

  lemma {:induction false} OrderBelowExact(ps: seq<Pair>, priority: nat)
    ensures forall i: nat :: i in OrderBelow(ps, priority) <==> i < |ps| && Priority(ps[i].provider) < priority
    ensures forall j, k :: 0 <= j < k < |OrderBelow(ps, priority)| ==>
      Before(ps, OrderBelow(ps, priority)[j], OrderBelow(ps, priority)[k])
  {
    if priority > 0 {
      OrderBelowExact(ps, priority - 1);
      BucketExact(ps, priority - 1, |ps|);
      var low, top := OrderBelow(ps, priority - 1), Bucket(ps, priority - 1, |ps|);
      var all := low + top;
      forall j, k | 0 <= j < k < |all| ensures Before(ps, all[j], all[k]) {
        assert j < |low| ==> all[j] in low;
        assert j >= |low| ==> all[j] in top;
        assert k >= |low| ==> all[k] in top;
      }
    }
  }

  lemma OrderExact(ps: seq<Pair>)
    ensures StableOrder(ps, Order(ps))
  {
    OrderBelowExact(ps, |PRIORITY| + 1);
    var o := Order(ps);
    forall j | 0 <= j < |o| ensures o[j] < |ps| { assert o[j] in o; }
  }

  lemma OrderDistinct(ps: seq<Pair>, order: seq<nat>)
    requires StableOrder(ps, order)
    ensures forall j, k :: 0 <= j < k < |order| ==> order[j] != order[k]
  {
    forall j, k | 0 <= j < k < |order| ensures order[j] != order[k] {
      assert Before(ps, order[j], order[k]);
    }
  }

  lemma Antisymmetric(ps: seq<Pair>, x: nat, y: nat)
    requires (x == y || Before(ps, x, y)) && (x == y || Before(ps, y, x))
    ensures x == y
  {}

  /** Past a common prefix, the next position of one order is not before that of the other. */
  lemma NotBefore(ps: seq<Pair>, a: seq<nat>, b: seq<nat>, n: nat)
    requires StableOrder(ps, a) && StableOrder(ps, b) && n < |a| && n <= |b| && a[..n] == b[..n]
    ensures n < |b| && (a[n] == b[n] || Before(ps, b[n], a[n]))
  {
    OrderDistinct(ps, a);
    assert a[n] in b;
    var j :| 0 <= j < |b| && b[j] == a[n];
    assert forall k :: 0 <= k < n ==> a[..n][k] == a[k] && b[..n][k] == b[k];
    assert j >= n;
    if j > n { assert Before(ps, b[n], b[j]); }
  }

  lemma {:induction false} AgreeUpTo(ps: seq<Pair>, a: seq<nat>, b: seq<nat>, n: nat)
    requires StableOrder(ps, a) && StableOrder(ps, b) && n <= |a|
    ensures n <= |b| && a[..n] == b[..n]
  {
    if n > 0 {
      AgreeUpTo(ps, a, b, n - 1);
      NotBefore(ps, a, b, n - 1);
      NotBefore(ps, b, a, n - 1);
      Antisymmetric(ps, a[n - 1], b[n - 1]);
      assert a[..n] == a[..n - 1] + [a[n - 1]] && b[..n] == b[..n - 1] + [b[n - 1]];
    }
  }

  /** There is only one such order, so any correct sort by priority and position finds it. */
  lemma OrderUnique(ps: seq<Pair>, a: seq<nat>, b: seq<nat>)
    requires StableOrder(ps, a) && StableOrder(ps, b)
    ensures a == b
  {
    AgreeUpTo(ps, a, b, |a|);
    AgreeUpTo(ps, b, a, |b|);
    assert a[..|a|] == a && b[..|b|] == b;
  }

  // -------------------------------------------------------------- the keys

  predicate NoColon(s: string) {
    forall i :: 0 <= i < |s| ==> s[i] != ':'
  }

  /** The dedupe key tells pairs apart as long as provider names hold no colon. */
  lemma KeyInjective(p: Pair, q: Pair)
    requires NoColon(p.provider) && NoColon(q.provider) && Key(p) == Key(q)
    ensures p == q
  {
    var m, n := |p.provider|, |q.provider|;
    assert Key(p)[m] == ':' && Key(q)[n] == ':';
    assert forall i :: 0 <= i < m ==> Key(p)[i] == p.provider[i];
    assert forall i :: 0 <= i < n ==> Key(q)[i] == q.provider[i];
    assert m == n;
    assert Key(p)[..m] == p.provider && Key(q)[..n] == q.provider;
    assert Key(p)[m + 2..] == p.model && Key(q)[n + 2..] == q.model;
  }

  /** With a colon two different pairs can share a key. */
  lemma KeyCollision()
    ensures Key(Pair("a", ":b")) == Key(Pair("a:", "b")) && Pair("a", ":b") != Pair("a:", "b")
  {
    assert Key(Pair("a", ":b")) == "a:::b" && Key(Pair("a:", "b")) == "a:::b";
  }

  predicate DistinctKeys(ps: seq<Pair>) {
    forall i, j :: 0 <= i < j < |ps| ==> Key(ps[i]) != Key(ps[j])
  }

  lemma KeysSnoc(pairs: seq<Pair>, p: Pair)
    ensures Keys(pairs + [p]) == Keys(pairs) + {Key(p)}
  {}

  lemma {:induction false} KeptExact(pairs: seq<Pair>)
    ensures DistinctKeys(Kept(pairs)) && Keys(Kept(pairs)) == Keys(pairs)
    ensures forall p :: p in Kept(pairs) ==> p in pairs
  {
    if pairs != [] {
      var init, p := pairs[..|pairs| - 1], pairs[|pairs| - 1];
      KeptExact(init);
      var before := Kept(init);
      assert pairs == init + [p];
      KeysSnoc(init, p);
      KeysSnoc(before, p);
      forall i | 0 <= i < |before| ensures Key(before[i]) in Keys(before) { assert before[i] in before; }
    }
  }

  /** The first pair of the list with this key. */
  function First(pairs: seq<Pair>, key: string): Option<Pair> {
    if pairs == [] then None else if Key(pairs[0]) == key then Some(pairs[0]) else First(pairs[1..], key)
  }

  lemma {:induction false} FirstSnoc(pairs: seq<Pair>, p: Pair, key: string)
    ensures First(pairs, key).Some? <==> key in Keys(pairs)
    ensures First(pairs, key).Some? ==> Key(First(pairs, key).value) == key
    ensures First(pairs + [p], key) ==
      if First(pairs, key).Some? then First(pairs, key) else if Key(p) == key then Some(p) else None
  {
    if pairs == [] {
      assert (pairs + [p])[0] == p && (pairs + [p])[1..] == [];
    } else {
      FirstSnoc(pairs[1..], p, key);
      assert (pairs + [p])[0] == pairs[0] && (pairs + [p])[1..] == pairs[1..] + [p];
      assert Keys(pairs) == {Key(pairs[0])} + Keys(pairs[1..]);
    }
  }

  /** A pair is kept exactly when it is the first of the list with its key. */
  lemma {:induction false} KeptIffFirst(pairs: seq<Pair>, p: Pair)
    ensures p in Kept(pairs) <==> First(pairs, Key(p)) == Some(p)
  {
    if pairs != [] {
      var init, last := pairs[..|pairs| - 1], pairs[|pairs| - 1];
      assert pairs == init + [last];
      KeptIffFirst(init, p);
      KeptExact(init);
      FirstSnoc(init, last, Key(p));
    }
  }

  predicate PlainNames(items: seq<Item>) {
    forall i :: 0 <= i < |items| && items[i].configured ==> NoColon(items[i].name)
  }

  lemma {:induction false} PairsPlain(items: seq<Item>, p: Pair)
    requires PlainNames(items) && p in Pairs(items)
    ensures NoColon(p.provider)
  {
    var n := |items| - 1;
    if p in Pairs(items[..n]) {
      assert forall i :: 0 <= i < n ==> items[..n][i] == items[i];
      PairsPlain(items[..n], p);
    } else {
      PairsOfExact(items[n], |items[n].models|);
    }
  }

  lemma {:induction false} PairsOfExact(item: Item, n: nat)
    requires n <= |item.models|
    ensures forall p :: p in PairsOf(item, n) ==> item.configured && p.provider == item.name && p.model in item.models
    ensures item.configured ==> forall i :: 0 <= i < n ==> Pair(item.name, item.models[i]) in PairsOf(item, n)
  {
    if n > 0 { PairsOfExact(item, n - 1); }
  }

  /** With plain provider names nothing is lost. */
  lemma KeptAll(items: seq<Item>, p: Pair)
    requires PlainNames(items)
    ensures p in Kept(Pairs(items)) <==> p in Pairs(items)
  {
    KeptExact(Pairs(items));
    if p in Pairs(items) {
      assert Key(p) in Keys(Kept(Pairs(items)));
      var q :| q in Kept(Pairs(items)) && Key(q) == Key(p);
      PairsPlain(items, p);
      PairsPlain(items, q);
      KeyInjective(p, q);
    }
  }

  // ------------------------------------------------------------ the entries

  lemma {:induction false} IdsExact(kept: seq<Pair>)
    ensures forall i, j :: 0 <= i < j < |Ids(kept)| ==> Ids(kept)[i] != Ids(kept)[j]
    ensures forall id :: id in Ids(kept) <==> exists k :: 0 <= k < |kept| && Canonical(kept[k]) == id
  {
    if kept != [] {
      var n := |kept| - 1;
      IdsExact(kept[..n]);
      assert forall k :: 0 <= k < n ==> kept[..n][k] == kept[k];
      forall id ensures id in Ids(kept) <==> exists k :: 0 <= k < |kept| && Canonical(kept[k]) == id {
        if k :| 0 <= k < |kept| && Canonical(kept[k]) == id {
          if k < n { assert Canonical(kept[..n][k]) == id; }
        }
        if id in Ids(kept[..n]) {
          var k :| 0 <= k < n && Canonical(kept[..n][k]) == id;
          assert Canonical(kept[k]) == id;
        }
      }
    }
  }

  function FirstUse(kept: seq<Pair>, id: string): nat {
    if kept == [] || Canonical(kept[0]) == id then 0 else 1 + FirstUse(kept[1..], id)
  }

  lemma {:induction false} FirstUseSnoc(kept: seq<Pair>, p: Pair, id: string)
    ensures FirstUse(kept, id) <= |kept|
    ensures FirstUse(kept, id) < |kept| <==> exists k :: 0 <= k < |kept| && Canonical(kept[k]) == id
    ensures FirstUse(kept + [p], id) ==
      if FirstUse(kept, id) < |kept| || Canonical(p) == id then FirstUse(kept, id) else |kept| + 1
  {
    if kept == [] {
      assert (kept + [p])[1..] == [];
    } else if Canonical(kept[0]) != id {
      FirstUseSnoc(kept[1..], p, id);
      assert (kept + [p])[1..] == kept[1..] + [p];
      if k :| 0 <= k < |kept| && Canonical(kept[k]) == id { assert kept[1..][k - 1] == kept[k]; }
    }
  }

  /** Entries come in the order in which their models first appear. */
  lemma {:induction false} IdsInOrder(kept: seq<Pair>, i: nat, j: nat)
    requires i < j < |Ids(kept)|
    ensures FirstUse(kept, Ids(kept)[i]) < FirstUse(kept, Ids(kept)[j]) < |kept|
  {
    var init, p := kept[..|kept| - 1], kept[|kept| - 1];
    assert kept == init + [p];
    IdsExact(init);
    FirstUseSnoc(init, p, Ids(kept)[i]);
    FirstUseSnoc(init, p, Ids(kept)[j]);
    assert Ids(init)[i] in Ids(init);
    if j < |Ids(init)| {
      assert Ids(init)[j] in Ids(init);
      IdsInOrder(init, i, j);
    }
  }

  lemma {:induction false} ServingExact(kept: seq<Pair>, id: string)
    ensures forall p :: p in Serving(kept, id) <==> p in kept && Canonical(p) == id
    ensures DistinctKeys(kept) ==> DistinctKeys(Serving(kept, id))
  {
    if kept != [] {
      var init, p := kept[..|kept| - 1], kept[|kept| - 1];
      ServingExact(init, id);
      assert kept == init + [p];
      if DistinctKeys(kept) {
        forall i, j | 0 <= i < j < |init| ensures Key(init[i]) != Key(init[j]) {
          assert kept[i] == init[i] && kept[j] == init[j];
        }
        ServingSnoc(init, p, id);
      }
    }
  }

  lemma ServingSnoc(init: seq<Pair>, p: Pair, id: string)
    requires DistinctKeys(init + [p]) && DistinctKeys(Serving(init, id))
    requires forall q :: q in Serving(init, id) ==> q in init
    ensures DistinctKeys(Serving(init, id) + [p])
  {
    var before := Serving(init, id);
    forall i | 0 <= i < |before| ensures Key(before[i]) != Key(p) {
      assert before[i] in before;
      var k :| 0 <= k < |init| && init[k] == before[i];
      assert (init + [p])[k] == init[k] && (init + [p])[|init|] == p;
    }
  }

  // -------------------------------------------------------------- theorems

  /** The route of `p` is at position `j` of entry `i`. */
  predicate RouteAt(catalog: seq<Entry>, p: Pair, i: nat, j: nat) {
    i < |catalog| && j < |catalog[i].routes| && catalog[i].routes[j].pair == p
  }

  /** What a route position says about the kept pairs. */
  lemma RouteIs(items: seq<Item>, p: Pair, i: nat, j: nat)
    requires RouteAt(Catalog(items), p, i, j)
    ensures var kept := Kept(Pairs(items)); i < |Ids(kept)| && Catalog(items)[i].id == Ids(kept)[i]
    ensures var kept := Kept(Pairs(items)); var ps := Serving(kept, Ids(kept)[i]);
      StableOrder(ps, Order(ps)) && j < |Order(ps)| && ps[Order(ps)[j]] == p
  {
    OrderExact(Serving(Kept(Pairs(items)), Ids(Kept(Pairs(items)))[i]));
  }

  /** Every route stands for a configured pair and is filed under its canonical model. */
  lemma RoutesAreConfigured(items: seq<Item>, p: Pair, i: nat, j: nat)
    requires RouteAt(Catalog(items), p, i, j)
    ensures p in Pairs(items) && p in Kept(Pairs(items)) && Catalog(items)[i].id == Canonical(p)
  {
    var kept := Kept(Pairs(items));
    RouteIs(items, p, i, j);
    KeptExact(Pairs(items));
    ServingExact(kept, Ids(kept)[i]);
    assert p in Serving(kept, Ids(kept)[i]);
  }

  lemma SamePlace(ps: seq<Pair>, a: nat, b: nat)
    requires DistinctKeys(ps) && a < |ps| && b < |ps| && ps[a] == ps[b]
    ensures a == b
  {}

  /** No pair has two routes. */
  lemma RouteUnique(items: seq<Item>, p: Pair, i: nat, j: nat, k: nat, l: nat)
    requires RouteAt(Catalog(items), p, i, j) && RouteAt(Catalog(items), p, k, l)
    ensures i == k && j == l
  {
    var kept := Kept(Pairs(items));
    RouteIs(items, p, i, j);
    RouteIs(items, p, k, l);
    RoutesAreConfigured(items, p, i, j);
    RoutesAreConfigured(items, p, k, l);
    IdsExact(kept);
    assert Ids(kept)[i] == Ids(kept)[k];
    KeptExact(Pairs(items));
    ServingExact(kept, Ids(kept)[i]);
    var ps := Serving(kept, Ids(kept)[i]);
    SamePlace(ps, Order(ps)[j], Order(ps)[l]);
    OrderDistinct(ps, Order(ps));
  }

  lemma FindEntry(kept: seq<Pair>, p: Pair) returns (i: nat)
    requires p in kept
    ensures i < |Ids(kept)| && Ids(kept)[i] == Canonical(p)
  {
    IdsExact(kept);
    var at :| 0 <= at < |kept| && kept[at] == p;
    assert Canonical(kept[at]) == Canonical(p);
    assert Canonical(p) in Ids(kept);
    i :| 0 <= i < |Ids(kept)| && Ids(kept)[i] == Canonical(p);
  }

  lemma FindRoute(kept: seq<Pair>, p: Pair) returns (j: nat)
    requires p in kept
    ensures j < |EntryOf(kept, Canonical(p)).routes| && EntryOf(kept, Canonical(p)).routes[j].pair == p
  {
    var ps := Serving(kept, Canonical(p));
    ServingExact(kept, Canonical(p));
    OrderExact(ps);
    assert p in ps;
    var m: nat :| m < |ps| && ps[m] == p;
    assert m in Order(ps);
    j :| 0 <= j < |Order(ps)| && Order(ps)[j] == m;
  }

  /** With plain provider names, every configured (provider, model) pair is exactly one route
      of exactly one entry, that of its canonical model. */
  lemma PairHasOneRoute(items: seq<Item>, p: Pair) returns (i: nat, j: nat)
    requires PlainNames(items) && p in Pairs(items)
    ensures RouteAt(Catalog(items), p, i, j) && Catalog(items)[i].id == Canonical(p)
    ensures forall k: nat, l: nat :: RouteAt(Catalog(items), p, k, l) ==> k == i && l == j
  {
    KeptAll(items, p);
    i := FindEntry(Kept(Pairs(items)), p);
    j := FindRoute(Kept(Pairs(items)), p);
    forall k: nat, l: nat | RouteAt(Catalog(items), p, k, l) ensures k == i && l == j {
      RouteUnique(items, p, i, j, k, l);
    }
  }

  lemma KeptHasRoute(items: seq<Item>, p: Pair) returns (i: nat, j: nat)
    requires p in Kept(Pairs(items))
    ensures RouteAt(Catalog(items), p, i, j)
  {
    i := FindEntry(Kept(Pairs(items)), p);
    j := FindRoute(Kept(Pairs(items)), p);
  }

  /** Whatever the names: a pair has a route exactly when it is the first configured pair with
      its key. */
  lemma HasRouteIff(items: seq<Item>, p: Pair)
    ensures (exists i: nat, j: nat :: RouteAt(Catalog(items), p, i, j)) <==> First(Pairs(items), Key(p)) == Some(p)
  {
    KeptIffFirst(Pairs(items), p);
    if i: nat, j: nat :| RouteAt(Catalog(items), p, i, j) { RoutesAreConfigured(items, p, i, j); }
    if p in Kept(Pairs(items)) {
      var i, j := KeptHasRoute(items, p);
    }
  }

  /** A catalog that loses a route: provider "a" serves ":b" and provider "a:" serves "b". */
  lemma CollidingCatalog()
    ensures var items := [Item("a", [":b"], true), Item("a:", ["b"], true)];
      Pair("a:", "b") in Pairs(items) && !(exists i: nat, j: nat :: RouteAt(Catalog(items), Pair("a:", "b"), i, j))
  {
    var one, two := Item("a", [":b"], true), Item("a:", ["b"], true);
    assert [one, two][..1] == [one] && [one][..0] == [];
    assert PairsOf(one, 1) == PairsOf(one, 0) + [Pair("a", ":b")] && PairsOf(two, 1) == PairsOf(two, 0) + [Pair("a:", "b")];
    assert Pairs([one, two]) == Pairs([one]) + PairsOf(two, 1);
    assert Pairs([one]) == Pairs([]) + PairsOf(one, 1);
    assert Pairs([one, two]) == [Pair("a", ":b"), Pair("a:", "b")];
    KeyCollision();
    HasRouteIff([one, two], Pair("a:", "b"));
  }

  /** Entry ids are distinct and in order of first appearance. */
  lemma EntriesInOrder(items: seq<Item>, i: nat, j: nat)
    requires i < j < |Catalog(items)|
    ensures Catalog(items)[i].id != Catalog(items)[j].id
    ensures FirstUse(Kept(Pairs(items)), Catalog(items)[i].id) < FirstUse(Kept(Pairs(items)), Catalog(items)[j].id)
  {
    IdsExact(Kept(Pairs(items)));
    IdsInOrder(Kept(Pairs(items)), i, j);
  }

  /** Within an entry routes are sorted by preference, stable in catalog order, and exactly
      the first is the default; no entry is empty. */
  lemma RoutesInOrder(items: seq<Item>, i: nat)
    requires i < |Catalog(items)|
    ensures var e := Catalog(items)[i]; var ps := Serving(Kept(Pairs(items)), e.id);
      && e.routes != [] && StableOrder(ps, Order(ps)) && |e.routes| == |Order(ps)|
      && (forall j :: 0 <= j < |e.routes| ==> e.routes[j].pair == ps[Order(ps)[j]])
      && (forall j :: 0 <= j < |e.routes| ==> (e.routes[j].isDefault <==> j == 0))
      && (forall j, k :: 0 <= j < k < |e.routes| ==>
            Priority(e.routes[j].pair.provider) <= Priority(e.routes[k].pair.provider))
  {
    var kept := Kept(Pairs(items));
    var id := Ids(kept)[i];
    var ps := Serving(kept, id);
    IdsExact(kept);
    assert id in Ids(kept);
    var k :| 0 <= k < |kept| && Canonical(kept[k]) == id;
    ServingExact(kept, id);
    assert kept[k] in ps;
    OrderExact(ps);
    assert 0 in Order(ps);
    forall j, l | 0 <= j < l < |Order(ps)|
      ensures Priority(ps[Order(ps)[j]].provider) <= Priority(ps[Order(ps)[l]].provider)
    {
      assert Before(ps, Order(ps)[j], Order(ps)[l]);
    }
  }

  /** The place of a provider in the preference: the vendors' own services, then the bundle,
      the clouds, the aggregator and the local server; anything else comes last. */
  function Rank(provider: string): (r: nat)
    ensures r == Priority(provider)
  {
    if provider == "openai" then 0
    else if provider == "anthropic" then 1
    else if provider == "deepseek" then 2
    else if provider == "codex" then 3
    else if provider == "azure" then 4
    else if provider == "bedrock" then 5
    else if provider == "openrouter" then 6
    else if provider == "local" then 7
    else IndexSteps(provider); 8
  }

  lemma IndexSteps(provider: string)
    requires provider != "openai" && provider != "anthropic" && provider != "deepseek" && provider != "codex"
    requires provider != "azure" && provider != "bedrock" && provider != "openrouter" && provider != "local"
    ensures Priority(provider) == 8
  {
    NotIn(PRIORITY, provider);
  }

  lemma {:induction false} NotIn(names: seq<string>, name: string)
    requires name !in names
    ensures IndexIn(names, name) == |names|
  {
    if names != [] { NotIn(names[1..], name); }
  }

  /** The default route of every entry: no route of the entry has a more preferred provider,
      and among routes as preferred the default's pair came first in the catalog. */
  lemma DefaultRoute(items: seq<Item>, i: nat, j: nat)
    requires i < |Catalog(items)| && j < |Catalog(items)[i].routes|
    ensures var routes := Catalog(items)[i].routes;
      && routes[0].isDefault && (routes[j].isDefault <==> j == 0)
      && Rank(routes[0].pair.provider) <= Rank(routes[j].pair.provider)
  {
    RoutesInOrder(items, i);
  }

  /** The route of this bedrock id is filed under the first-party model, labelled with its
      geography. */
  predicate ProfileOf(id: string, model: string, geo: string) {
    Canonical(Pair("bedrock", id)) == model && RouteLabel(Pair("bedrock", id)) == "Amazon Bedrock" + " \U{00B7} " + geo
  }

  lemma Opus8Profile()
    ensures ProfileOf("us.anthropic.claude-opus-4-8", "claude-opus-4-8", "us")
  {
  }

  lemma Opus7Profile()
    ensures ProfileOf("us.anthropic.claude-opus-4-7", "claude-opus-4-7", "us")
  {
    assert "us.anthropic.claude-opus-4-7"[27] != "us.anthropic.claude-opus-4-8"[27];
  }

  lemma SonnetProfile()
    ensures ProfileOf("us.anthropic.claude-sonnet-4-6", "claude-sonnet-4-6", "us")
  {
    assert |"us.anthropic.claude-sonnet-4-6"| == 30 && |"us.anthropic.claude-opus-4-8"| == 28;
    assert |"us.anthropic.claude-sonnet-4-6"| == 30 && |"us.anthropic.claude-opus-4-7"| == 28;
  }

  lemma HaikuProfile()
    ensures ProfileOf("us.anthropic.claude-haiku-4-5-20251001-v1:0", "claude-haiku-4-5", "us")
  {
    assert |"us.anthropic.claude-haiku-4-5-20251001-v1:0"| == 43 && |"us.anthropic.claude-opus-4-8"| == 28;
    assert |"us.anthropic.claude-haiku-4-5-20251001-v1:0"| == 43 && |"us.anthropic.claude-opus-4-7"| == 28;
    assert |"us.anthropic.claude-haiku-4-5-20251001-v1:0"| == 43 && |"us.anthropic.claude-sonnet-4-6"| == 30;
  }

  lemma SonnetEuProfile()
    ensures ProfileOf("eu.anthropic.claude-sonnet-4-6", "claude-sonnet-4-6", "eu")
  {
    assert |"eu.anthropic.claude-sonnet-4-6"| == 30 && |"us.anthropic.claude-opus-4-8"| == 28;
    assert |"eu.anthropic.claude-sonnet-4-6"| == 30 && |"us.anthropic.claude-opus-4-7"| == 28;
    assert "eu.anthropic.claude-sonnet-4-6"[0] != "us.anthropic.claude-sonnet-4-6"[0];
    assert |"eu.anthropic.claude-sonnet-4-6"| == 30 && |"us.anthropic.claude-haiku-4-5-20251001-v1:0"| == 43;
  }

  lemma SonnetApacProfile()
    ensures ProfileOf("apac.anthropic.claude-sonnet-4-6", "claude-sonnet-4-6", "apac")
  {
    assert |"apac.anthropic.claude-sonnet-4-6"| == 32 && |"us.anthropic.claude-opus-4-8"| == 28;
    assert |"apac.anthropic.claude-sonnet-4-6"| == 32 && |"us.anthropic.claude-opus-4-7"| == 28;
    assert |"apac.anthropic.claude-sonnet-4-6"| == 32 && |"us.anthropic.claude-sonnet-4-6"| == 30;
    assert |"apac.anthropic.claude-sonnet-4-6"| == 32 && |"us.anthropic.claude-haiku-4-5-20251001-v1:0"| == 43;
    assert |"apac.anthropic.claude-sonnet-4-6"| == 32 && |"eu.anthropic.claude-sonnet-4-6"| == 30;
  }

  lemma SonnetGlobalProfile()
    ensures ProfileOf("global.anthropic.claude-sonnet-4-6", "claude-sonnet-4-6", "global")
  {
    assert |"global.anthropic.claude-sonnet-4-6"| == 34 && |"us.anthropic.claude-opus-4-8"| == 28;
    assert |"global.anthropic.claude-sonnet-4-6"| == 34 && |"us.anthropic.claude-opus-4-7"| == 28;
    assert |"global.anthropic.claude-sonnet-4-6"| == 34 && |"us.anthropic.claude-sonnet-4-6"| == 30;
    assert |"global.anthropic.claude-sonnet-4-6"| == 34 && |"us.anthropic.claude-haiku-4-5-20251001-v1:0"| == 43;
    assert |"global.anthropic.claude-sonnet-4-6"| == 34 && |"eu.anthropic.claude-sonnet-4-6"| == 30;
    assert |"global.anthropic.claude-sonnet-4-6"| == 34 && |"apac.anthropic.claude-sonnet-4-6"| == 32;
  }

  /** Each geographic profile of Amazon Bedrock is filed under the model of Anthropic's own
      service, and its label says which geography it is. */
  lemma ProfilesShareTheModel()
    ensures ProfileOf("us.anthropic.claude-opus-4-8", "claude-opus-4-8", "us")
    ensures ProfileOf("us.anthropic.claude-opus-4-7", "claude-opus-4-7", "us")
    ensures ProfileOf("us.anthropic.claude-sonnet-4-6", "claude-sonnet-4-6", "us")
    ensures ProfileOf("us.anthropic.claude-haiku-4-5-20251001-v1:0", "claude-haiku-4-5", "us")
    ensures ProfileOf("eu.anthropic.claude-sonnet-4-6", "claude-sonnet-4-6", "eu")
    ensures ProfileOf("apac.anthropic.claude-sonnet-4-6", "claude-sonnet-4-6", "apac")
    ensures ProfileOf("global.anthropic.claude-sonnet-4-6", "claude-sonnet-4-6", "global")
  {
    Opus8Profile();
    Opus7Profile();
    SonnetProfile();
    HaikuProfile();
    SonnetEuProfile();
    SonnetApacProfile();
    SonnetGlobalProfile();
  }

  /** Any other id stands for itself: no models are merged by guessing. */
  lemma OthersStandForThemselves(p: Pair)
    requires p.provider != "bedrock" || p.model !in {
      "us.anthropic.claude-opus-4-8",
      "us.anthropic.claude-opus-4-7",
      "us.anthropic.claude-sonnet-4-6",
      "us.anthropic.claude-haiku-4-5-20251001-v1:0",
      "eu.anthropic.claude-sonnet-4-6",
      "apac.anthropic.claude-sonnet-4-6",
      "global.anthropic.claude-sonnet-4-6"}
    ensures Canonical(p) == p.model && RouteLabel(p) == DisplayLabel(p.provider)
  {}

  /** Pairs of one model are routes of one entry, whoever serves them. */
  lemma OneEntryPerModel(items: seq<Item>, p: Pair, q: Pair) returns (i: nat, j: nat, l: nat)
    requires PlainNames(items) && p in Pairs(items) && q in Pairs(items) && Canonical(p) == Canonical(q)
    ensures RouteAt(Catalog(items), p, i, j) && RouteAt(Catalog(items), q, i, l)
  {
    var k;
    i, j := PairHasOneRoute(items, p);
    k, l := PairHasOneRoute(items, q);
    if i < k { EntriesInOrder(items, i, k); } else if k < i { EntriesInOrder(items, k, i); }
  }

  // -------------------------------------------------------------- the loops

  /** The insertion-ordered map from canonical id to the pairs found so far. */
  datatype Slot = Slot(id: string, ps: seq<Pair>)

  function Table(kept: seq<Pair>): seq<Slot> {
    seq(|Ids(kept)|, i requires 0 <= i < |Ids(kept)| => Slot(Ids(kept)[i], Serving(kept, Ids(kept)[i])))
  }

  lemma {:induction false} NotServed(kept: seq<Pair>, id: string)
    requires id !in Ids(kept)
    ensures Serving(kept, id) == []
  {
    if kept != [] { NotServed(kept[..|kept| - 1], id); }
  }

  lemma ServingPush(kept: seq<Pair>, p: Pair, id: string)
    ensures Serving(kept + [p], id) == if Canonical(p) == id then Serving(kept, id) + [p] else Serving(kept, id)
    ensures Ids(kept + [p]) == if Canonical(p) in Ids(kept) then Ids(kept) else Ids(kept) + [Canonical(p)]
  {
    assert (kept + [p])[..|kept|] == kept;
  }

  lemma TableKnown(kept: seq<Pair>, p: Pair, i: nat)
    requires i < |Ids(kept)| && Ids(kept)[i] == Canonical(p)
    ensures Table(kept + [p]) == Table(kept)[i := Slot(Canonical(p), Table(kept)[i].ps + [p])]
  {
    IdsExact(kept);
    var ids := Ids(kept);
    assert Canonical(p) in ids;
    forall k | 0 <= k < |ids| ensures Serving(kept + [p], ids[k]) ==
      if k == i then Serving(kept, ids[k]) + [p] else Serving(kept, ids[k])
    {
      ServingPush(kept, p, ids[k]);
    }
    ServingPush(kept, p, Canonical(p));
  }

  lemma TableNew(kept: seq<Pair>, p: Pair)
    requires Canonical(p) !in Ids(kept)
    ensures Table(kept + [p]) == Table(kept) + [Slot(Canonical(p), [p])]
  {
    var ids := Ids(kept);
    forall k | 0 <= k < |ids| ensures Serving(kept + [p], ids[k]) == Serving(kept, ids[k]) {
      assert ids[k] in ids;
      ServingPush(kept, p, ids[k]);
    }
    ServingPush(kept, p, Canonical(p));
    NotServed(kept, Canonical(p));
  }

  /** One pair of the double loop. */
  method AddPair(entries: seq<Slot>, p: Pair, ghost kept: seq<Pair>) returns (r: seq<Slot>)
    requires entries == Table(kept)
    ensures r == Table(kept + [p])
  {
    var i := 0;
    var id := if AliasOf(p).Some? then AliasOf(p).value.id else p.model;
    while i < |entries| && entries[i].id != id
      invariant 0 <= i <= |entries|
      invariant forall k :: 0 <= k < i ==> entries[k].id != id
    {
      i := i + 1;
    }
    assert forall k :: 0 <= k < |entries| ==> entries[k].id == Ids(kept)[k];
    if i < |entries| {
      TableKnown(kept, p, i);
      r := entries[i := Slot(id, entries[i].ps + [p])];
    } else {
      TableNew(kept, p);
      r := entries + [Slot(id, [p])];
    }
  }

  lemma KeptSnoc(pairs: seq<Pair>, p: Pair)
    ensures Kept(pairs + [p]) == if Key(p) in Keys(pairs) then Kept(pairs) else Kept(pairs) + [p]
    ensures Keys(pairs + [p]) == Keys(pairs) + {Key(p)}
  {
    assert (pairs + [p])[..|pairs|] == pairs;
    KeptExact(pairs);
  }

  lemma PairsOfStep(done: seq<Pair>, item: Item, n: nat)
    requires n < |item.models| && item.configured
    ensures done + PairsOf(item, n) + [Pair(item.name, item.models[n])] == done + PairsOf(item, n + 1)
  {}

  /** The body of the inner loop. */
  method AddModel(entries: seq<Slot>, seen: set<string>, p: Pair, ghost done: seq<Pair>)
    returns (r: seq<Slot>, keys: set<string>)
    requires entries == Table(Kept(done)) && seen == Keys(done)
    ensures r == Table(Kept(done + [p])) && keys == Keys(done + [p])
  {
    KeptSnoc(done, p);
    r, keys := entries, seen;
    if Key(p) in keys { return; }
    keys := keys + {Key(p)};
    r := AddPair(r, p, Kept(done));
  }

  method AddItem(entries: seq<Slot>, seen: set<string>, item: Item, ghost done: seq<Pair>)
    returns (r: seq<Slot>, keys: set<string>)
    requires entries == Table(Kept(done)) && seen == Keys(done)
    ensures r == Table(Kept(done + PairsOf(item, |item.models|)))
    ensures keys == Keys(done + PairsOf(item, |item.models|))
  {
    r, keys := entries, seen;
    ghost var pairs := done;
    assert done + [] == done;
    if !item.configured { return; }
    for n := 0 to |item.models|
      invariant pairs == done + PairsOf(item, n)
      invariant r == Table(Kept(pairs)) && keys == Keys(pairs)
    {
      PairsOfStep(done, item, n);
      r, keys := AddModel(r, keys, Pair(item.name, item.models[n]), pairs);
      pairs := pairs + [Pair(item.name, item.models[n])];
    }
  }

  method FinishEntries(entries: seq<Slot>, ghost kept: seq<Pair>) returns (catalog: seq<Entry>)
    requires entries == Table(kept)
    ensures |catalog| == |Ids(kept)| && forall i :: 0 <= i < |Ids(kept)| ==> catalog[i] == EntryOf(kept, Ids(kept)[i])
  {
    catalog := [];
    for n := 0 to |entries|
      invariant |catalog| == n && forall i :: 0 <= i < n ==> catalog[i] == EntryOf(kept, Ids(kept)[i])
    {
      OrderExact(entries[n].ps);
      catalog := catalog + [Entry(entries[n].id, RoutesIn(entries[n].ps, Order(entries[n].ps)))];
    }
  }

  /** `buildModelCatalog`: the loops fill the table, and each entry is then sorted. */
  method BuildModelCatalog(items: seq<Item>) returns (catalog: seq<Entry>)
    ensures catalog == Catalog(items)
  {
    var entries: seq<Slot> := [];
    var seen: set<string> := {};
    for n := 0 to |items|
      invariant entries == Table(Kept(Pairs(items[..n]))) && seen == Keys(Pairs(items[..n]))
    {
      assert items[..n + 1][..n] == items[..n];
      entries, seen := AddItem(entries, seen, items[n], Pairs(items[..n]));
    }
    assert items[..|items|] == items;
    catalog := FinishEntries(entries, Kept(Pairs(items)));
  }
}
