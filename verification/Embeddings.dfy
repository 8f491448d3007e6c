/** packages/runtime/src/embeddings.ts: the cached and batched providers, against the
    pointwise function they stand for, and the similarity of two vectors. */
module Embeddings {
  import opened Common

  const BATCH_SIZE := 100

  /** One entry of an embeddings response; `index` is absent when it is not a number. */
  datatype Entry<V> = Entry(index: Option<int>, vector: V)

  /** The service either fails or sends entries in any order. */
  datatype Response<V> = Failure | Data(entries: seq<Entry<V>>)

  /** A text that was not in the cache, and where its vector goes. */
  datatype Miss = Miss(index: nat, text: string)

  // --------------------------------------------------------- specification

  /** Every input position is answered. */
  predicate Covers<V>(r: Response<V>, n: nat) {
    r.Data? && forall i :: 0 <= i < n ==> Answers(r.entries, i)
  }

  predicate Answers<V>(entries: seq<Entry<V>>, i: int) {
    exists k :: 0 <= k < |entries| && entries[k].index == Some(i)
  }

  /** What the service says about a position is the embedding of the text there. */
  ghost predicate Honest<V>(f: string -> V, texts: seq<string>, r: Response<V>) {
    r.Data? ==> forall k :: 0 <= k < |r.entries| && r.entries[k].index.Some? && 0 <= r.entries[k].index.value < |texts| ==>
      r.entries[k].vector == f(texts[r.entries[k].index.value])
  }

  ghost predicate Within<V>(cache: map<string, V>, f: string -> V) {
    forall t :: t in cache ==> cache[t] == f(t)
  }

  /** The positions of uncached texts among the first `n`, in order. */
  function Misses<V>(texts: seq<string>, cache: map<string, V>, n: nat): seq<Miss>
    requires n <= |texts|
  {
    if n == 0 then []
    else
      var before := Misses(texts, cache, n - 1);
      if texts[n - 1] in cache then before else before + [Miss(n - 1, texts[n - 1])]
  }

  function TextsOf(misses: seq<Miss>): seq<string> {
    seq(|misses|, i requires 0 <= i < |misses| => misses[i].text)
  }

  function Texts(misses: seq<Miss>): set<string> {
    set m | m in misses :: m.text
  }

  lemma TextsSnoc(misses: seq<Miss>, j: nat)
    requires j < |misses|
    ensures Texts(misses[..j + 1]) == Texts(misses[..j]) + {misses[j].text}
  {
    assert misses[..j + 1] == misses[..j] + [misses[j]];
  }

  lemma TextsSplit(misses: seq<Miss>, start: nat, end: nat)
    requires start <= end <= |misses|
    ensures Texts(misses[..end]) == Texts(misses[..start]) + Texts(misses[start..end])
    ensures Texts(misses[..end]) <= Texts(misses)
  {
    assert misses[..end] == misses[..start] + misses[start..end];
    assert forall m :: m in misses[..end] ==> m in misses;
  }

  /** After a call every text is cached: the misses are the texts that were not. */
  lemma MissTexts<V>(texts: seq<string>, cache: map<string, V>)
    ensures cache.Keys + Texts(Misses(texts, cache, |texts|)) == cache.Keys + (set t | t in texts)
  {
    var misses := Misses(texts, cache, |texts|);
    MissesBounded(texts, cache, |texts|);
    forall t | t in texts && t !in cache ensures t in Texts(misses) {
      var i: nat :| i < |texts| && texts[i] == t;
      MissesExact(texts, cache, |texts|, i);
    }
  }

  function Min(a: nat, b: nat): nat {
    if a < b then a else b
  }

  /** The requests that cover the misses from `start` on. */
  function Batches(misses: seq<Miss>, start: nat): seq<seq<string>>
    requires start <= |misses|
    decreases |misses| - start
  {
    if start == |misses| then []
    else
      var end := Min(start + BATCH_SIZE, |misses|);
      [TextsOf(misses[start..end])] + Batches(misses, end)
  }

  lemma BatchesStep(misses: seq<Miss>, start: nat, all: seq<seq<string>>, n: nat)
    requires start < |misses| && n <= |all| && all[n..] == Batches(misses, start)
    ensures n < |all| && all[..n + 1] == all[..n] + [all[n]]
    ensures var end := Min(start + BATCH_SIZE, |misses|);
      all[n] == TextsOf(misses[start..end]) && all[n + 1..] == Batches(misses, end)
  {
    assert all[n] == all[n..][0];
    assert all[n..][1..] == all[n + 1..];
  }

  function Flatten(batches: seq<seq<string>>): seq<string> {
    if batches == [] then [] else batches[0] + Flatten(batches[1..])
  }

  /** The batches partition the misses in order, each holds at most a full batch, and only
      the last may be short. */
  lemma {:induction false} BatchesPartition(misses: seq<Miss>, start: nat)
    requires start <= |misses|
    ensures Flatten(Batches(misses, start)) == TextsOf(misses[start..])
    ensures forall k :: 0 <= k < |Batches(misses, start)| ==> 0 < |Batches(misses, start)[k]| <= 100
    ensures forall k :: 0 <= k < |Batches(misses, start)| - 1 ==> |Batches(misses, start)[k]| == 100
    ensures 100 * (|Batches(misses, start)| - 1) < |misses| - start + 1
    ensures |misses| - start <= 100 * |Batches(misses, start)|
    decreases |misses| - start
  {
    if start < |misses| {
      var end := Min(start + BATCH_SIZE, |misses|);
      BatchesPartition(misses, end);
      var b := Batches(misses, start);
      assert b[1..] == Batches(misses, end);
      assert TextsOf(misses[start..]) == TextsOf(misses[start..end]) + TextsOf(misses[end..]);
      forall k | 0 < k < |b| ensures b[k] == Batches(misses, end)[k - 1] {}
    }
  }

  lemma {:induction false} MissesExact<V>(texts: seq<string>, cache: map<string, V>, n: nat, i: nat)
    requires i < n <= |texts|
    ensures texts[i] !in cache <==> Miss(i, texts[i]) in Misses(texts, cache, n)
  {
    MissesBounded(texts, cache, n);
    MissesBounded(texts, cache, n - 1);
    if i < n - 1 {
      MissesExact(texts, cache, n - 1, i);
    }
  }

  lemma {:induction false} MissesBounded<V>(texts: seq<string>, cache: map<string, V>, n: nat)
    requires n <= |texts|
    ensures forall m :: m in Misses(texts, cache, n) ==> m.index < n && m.text == texts[m.index] && m.text !in cache
  {
    if n > 0 { MissesBounded(texts, cache, n - 1); }
  }

  // ------------------------------------------------------------- one batch

  /** Scatter the entries by index, ignore positions that do not exist, and fail when one is
      missing. */
  method EmbedBatch<V>(ghost f: string -> V, texts: seq<string>, response: Response<V>) returns (r: Result<seq<V>>)
    requires Honest(f, texts, response)
    ensures r.Ok? <==> Covers(response, |texts|)
    ensures r.Ok? ==> |r.value| == |texts| && forall i :: 0 <= i < |texts| ==> r.value[i] == f(texts[i])
  {
    if response.Failure? { return Err; }
    var data := response.entries;
    var out := new Option<V>[|texts|](_ => None);
    for k := 0 to |data|
      invariant forall i :: 0 <= i < |texts| ==> (out[i].Some? <==> Answers(data[..k], i))
      invariant forall i :: 0 <= i < |texts| && out[i].Some? ==> out[i].value == f(texts[i])
    {
      AnswersSnoc(data, k);
      var at := if data[k].index.Some? then data[k].index.value else -1;
      if at < 0 || at >= |texts| { continue; }
      out[at] := Some(data[k].vector);
    }
    assert data[..|data|] == data;
    var vectors: seq<V> := [];
    for i := 0 to |texts|
      invariant |vectors| == i
      invariant forall j :: 0 <= j < i ==> out[j].Some? && vectors[j] == f(texts[j])
    {
      if out[i].None? { return Err; }
      vectors := vectors + [out[i].value];
    }
    return Ok(vectors);
  }

  lemma AnswersSnoc<V>(entries: seq<Entry<V>>, k: nat)
    requires k < |entries|
    ensures forall i :: Answers(entries[..k + 1], i) <==> Answers(entries[..k], i) || entries[k].index == Some(i)
  {
    forall i ensures Answers(entries[..k + 1], i) <==> Answers(entries[..k], i) || entries[k].index == Some(i) {
      if Answers(entries[..k], i) {
        var j :| 0 <= j < k && entries[..k][j].index == Some(i);
        assert entries[..k + 1][j] == entries[..k][j];
      }
      if entries[k].index == Some(i) { assert entries[..k + 1][k] == entries[k]; }
      if Answers(entries[..k + 1], i) {
        var j :| 0 <= j < k + 1 && entries[..k + 1][j].index == Some(i);
        if j < k { assert entries[..k][j] == entries[..k + 1][j]; }
      }
    }
  }

  // ------------------------------------------------------ shared by providers

  ghost predicate Filled<V>(f: string -> V, texts: seq<string>, out: array<Option<V>>, i: nat)
    reads out
  {
    i < |texts| && i < out.Length && out[i] == Some(f(texts[i]))
  }

  /** The reads of the cache, and the list of misses. */
  method Lookup<V>(ghost f: string -> V, texts: seq<string>, cache: map<string, V>, out: array<Option<V>>)
    returns (misses: seq<Miss>)
    requires Within(cache, f) && out.Length == |texts| && forall i :: 0 <= i < out.Length ==> out[i].None?
    modifies out
    ensures misses == Misses(texts, cache, |texts|)
    ensures forall i: nat :: i < |texts| && texts[i] in cache ==> Filled(f, texts, out, i)
  {
    misses := [];
    for i := 0 to |texts|
      invariant misses == Misses(texts, cache, i)
      invariant forall j: nat :: j < i && texts[j] in cache ==> Filled(f, texts, out, j)
    {
      var text := texts[i];
      if text in cache { out[i] := Some(cache[text]); } else { misses := misses + [Miss(i, text)]; }
    }
  }

  /** Every position is a hit or a miss. */
  lemma AllFilled<V>(f: string -> V, texts: seq<string>, cache: map<string, V>, out: array<Option<V>>)
    requires out.Length == |texts|
    requires forall i: nat :: i < |texts| && texts[i] in cache ==> Filled(f, texts, out, i)
    requires forall k :: 0 <= k < |Misses(texts, cache, |texts|)| ==> Filled(f, texts, out, Misses(texts, cache, |texts|)[k].index)
    ensures forall i: nat :: i < |texts| ==> Filled(f, texts, out, i)
  {
    forall i: nat | i < |texts| ensures Filled(f, texts, out, i) {
      if texts[i] !in cache {
        MissesExact(texts, cache, |texts|, i);
        var misses := Misses(texts, cache, |texts|);
        var k :| 0 <= k < |misses| && misses[k] == Miss(i, texts[i]);
        assert Filled(f, texts, out, misses[k].index);
      }
    }
  }

  method Collect<V>(ghost f: string -> V, texts: seq<string>, out: array<Option<V>>) returns (r: Result<seq<V>>)
    requires out.Length == |texts| && forall i: nat :: i < |texts| ==> Filled(f, texts, out, i)
    ensures r.Ok? && |r.value| == |texts| && forall i :: 0 <= i < |texts| ==> r.value[i] == f(texts[i])
  {
    var vectors: seq<V> := [];
    for i := 0 to |texts|
      invariant |vectors| == i && forall j :: 0 <= j < i ==> vectors[j] == f(texts[j])
    {
      assert Filled(f, texts, out, i);
      vectors := vectors + [out[i].value];
    }
    return Ok(vectors);
  }

  lemma SliceFilled<V>(f: string -> V, texts: seq<string>, out: array<Option<V>>, misses: seq<Miss>, start: nat, end: nat)
    requires start <= end <= |misses|
    requires forall j :: 0 <= j < end - start ==> Filled(f, texts, out, misses[start..end][j].index)
    ensures forall k :: start <= k < end ==> Filled(f, texts, out, misses[k].index)
  {
    forall k | start <= k < end ensures Filled(f, texts, out, misses[k].index) {
      assert misses[start..end][k - start] == misses[k];
    }
  }

  // ------------------------------------------------------- the OpenAI provider

  /** The `k`-th response answers every text of the `k`-th batch. */
  predicate CoveredAt<V>(responses: seq<Response<V>>, batches: seq<seq<string>>, k: nat)
    requires k < |batches| == |responses|
  {
    Covers(responses[k], |batches[k]|)
  }

  predicate AllCovered<V>(responses: seq<Response<V>>, batches: seq<seq<string>>, n: nat)
    requires n <= |batches| == |responses|
  {
    forall k: nat :: k < n ==> CoveredAt(responses, batches, k)
  }

  /** One honest response for each request. */
  ghost predicate HonestTo<V>(f: string -> V, responses: seq<Response<V>>, batches: seq<seq<string>>) {
    |responses| == |batches| && forall k :: 0 <= k < |batches| ==> Honest(f, batches[k], responses[k])
  }

  class OpenAiProvider<V> {
    var cache: map<string, V>
    var requests: seq<seq<string>>
    ghost const f: string -> V

    /** The cache never holds anything but embeddings. */
    ghost predicate Valid()
      reads this
    {
      Within(cache, f)
    }

    constructor (ghost f: string -> V)
      ensures Valid() && this.f == f && cache == map[] && requests == []
    {
      this.f := f;
      cache, requests := map[], [];
    }

    /** Store one batch's vectors at their positions and in the cache. */
    method Store(texts: seq<string>, slice: seq<Miss>, vectors: seq<V>, out: array<Option<V>>)
      requires Valid() && out.Length == |texts| && |vectors| == |slice|
      requires forall j :: 0 <= j < |slice| ==> slice[j].index < |texts| && slice[j].text == texts[slice[j].index]
      requires forall j :: 0 <= j < |slice| ==> vectors[j] == f(slice[j].text)
      modifies out, `cache
      ensures Valid()
      ensures cache.Keys == old(cache).Keys + Texts(slice)
      ensures forall i: nat :: old(Filled(f, texts, out, i)) ==> Filled(f, texts, out, i)
      ensures forall j :: 0 <= j < |slice| ==> Filled(f, texts, out, slice[j].index)
    {
      for j := 0 to |slice|
        invariant Valid()
        invariant cache.Keys == old(cache).Keys + Texts(slice[..j])
        invariant forall i: nat :: old(Filled(f, texts, out, i)) ==> Filled(f, texts, out, i)
        invariant forall k :: 0 <= k < j ==> Filled(f, texts, out, slice[k].index)
      {
        var slot := slice[j];
        TextsSnoc(slice, j);
        out[slot.index] := Some(vectors[j]);
        cache := cache[slot.text := vectors[j]];
      }
      assert slice[..|slice|] == slice;
    }

    /** One round trip. */
    method EmbedSlice(texts: seq<string>, slice: seq<Miss>, out: array<Option<V>>, response: Response<V>) returns (ok: bool)
      requires Valid() && out.Length == |texts| && Honest(f, TextsOf(slice), response)
      requires forall j :: 0 <= j < |slice| ==> slice[j].index < |texts| && slice[j].text == texts[slice[j].index]
      modifies this, out
      ensures Valid() && requests == old(requests) + [TextsOf(slice)]
      ensures ok <==> Covers(response, |slice|)
      ensures cache.Keys == old(cache).Keys + if ok then Texts(slice) else {}
      ensures forall i: nat :: old(Filled(f, texts, out, i)) ==> Filled(f, texts, out, i)
      ensures ok ==> forall j :: 0 <= j < |slice| ==> Filled(f, texts, out, slice[j].index)
    {
      var batch := TextsOf(slice);
      requests := requests + [batch];
      var vectors := EmbedBatch(f, batch, response);
      ok := vectors.Ok?;
      if ok { Store(texts, slice, vectors.value, out); }
    }

    method EmbedMisses(texts: seq<string>, misses: seq<Miss>, out: array<Option<V>>, responses: seq<Response<V>>)
      returns (ok: bool)
      requires Valid() && out.Length == |texts| && HonestTo(f, responses, Batches(misses, 0))
      requires forall j :: 0 <= j < |misses| ==> misses[j].index < |texts| && misses[j].text == texts[misses[j].index]
      modifies this, out
      ensures Valid()
      ensures ok <==> AllCovered(responses, Batches(misses, 0), |responses|)
      ensures ok ==> requests == old(requests) + Batches(misses, 0)
      ensures old(cache).Keys <= cache.Keys <= old(cache).Keys + Texts(misses)
      ensures ok ==> cache.Keys == old(cache).Keys + Texts(misses)
      ensures forall i: nat :: old(Filled(f, texts, out, i)) ==> Filled(f, texts, out, i)
      ensures ok ==> forall j :: 0 <= j < |misses| ==> Filled(f, texts, out, misses[j].index)
    {
      ok := true;
      var start := 0;
      ghost var all := Batches(misses, 0);
      var n: nat := 0;
      while start < |misses|
        invariant start <= |misses| && n <= |all| && all[n..] == Batches(misses, start)
        invariant Valid() && requests == old(requests) + all[..n]
        invariant AllCovered(responses, all, n)
        invariant cache.Keys == old(cache).Keys + Texts(misses[..start])
        invariant forall i: nat :: old(Filled(f, texts, out, i)) ==> Filled(f, texts, out, i)
        invariant forall k :: 0 <= k < start ==> Filled(f, texts, out, misses[k].index)
        decreases |misses| - start
      {
        var end := if start + BATCH_SIZE < |misses| then start + BATCH_SIZE else |misses|;
        var slice := misses[start..end];
        BatchesStep(misses, start, all, n);
        TextsSplit(misses, start, end);
        ok := EmbedSlice(texts, slice, out, responses[n]);
        assert ok <==> CoveredAt(responses, all, n);
        if !ok { return; }
        SliceFilled(f, texts, out, misses, start, end);
        n := n + 1;
        start := end;
      }
      assert all[..|all|] == all && misses[..|misses|] == misses;
    }

    /** `embed`, given the service's response to each request it makes: the answer is the
        embedding of every text, or an error; either way the cache holds only embeddings and
        keeps what it had. It fails exactly when some batch is not fully answered. */
    method Embed(texts: seq<string>, responses: seq<Response<V>>) returns (r: Result<seq<V>>)
      requires Valid() && HonestTo(f, responses, Batches(Misses(texts, cache, |texts|), 0))
      modifies this
      ensures Valid()
      ensures r.Ok? ==> |r.value| == |texts| && forall i :: 0 <= i < |texts| ==> r.value[i] == f(texts[i])
      ensures r.Ok? <==> AllCovered(responses, Batches(Misses(texts, old(cache), |texts|), 0), |responses|)
      ensures r.Ok? ==> requests == old(requests) + Batches(Misses(texts, old(cache), |texts|), 0)
      ensures old(cache).Keys <= cache.Keys <= old(cache).Keys + (set t | t in texts)
      ensures r.Ok? ==> cache.Keys == old(cache).Keys + (set t | t in texts)
    {
      if |texts| == 0 {
        assert Misses(texts, cache, 0) == [];
        return Ok([]);
      }
      var out := new Option<V>[|texts|](_ => None);
      var misses := Lookup(f, texts, cache, out);
      MissesBounded(texts, cache, |texts|);
      MissTexts(texts, cache);
      ghost var before := cache;
      var ok := EmbedMisses(texts, misses, out, responses);
      if !ok { return Err; }
      AllFilled(f, texts, before, out);
      r := Collect(f, texts, out);
    }
  }

  // -------------------------------------------------------- the local provider

  /** The model's result for each miss: its embedding, or a throw. */
  ghost predicate ExtractsTo<V>(f: string -> V, misses: seq<Miss>, extracted: seq<Result<V>>) {
    && |extracted| == |misses|
    && forall k :: 0 <= k < |misses| && extracted[k].Ok? ==> extracted[k].value == f(misses[k].text)
  }

  /** One text at a time; the model may fail to load, and any extraction may throw. */
  class LocalProvider<V> {
    var cache: map<string, V>
    ghost const f: string -> V

    ghost predicate Valid()
      reads this
    {
      Within(cache, f)
    }

    constructor (ghost f: string -> V)
      ensures Valid() && this.f == f && cache == map[]
    {
      this.f := f;
      cache := map[];
    }

    method StoreOne(texts: seq<string>, slot: Miss, vector: V, out: array<Option<V>>)
      requires Valid() && out.Length == |texts| && slot.index < |texts| && slot.text == texts[slot.index]
      requires vector == f(slot.text)
      modifies out, `cache
      ensures Valid() && cache.Keys == old(cache).Keys + {slot.text}
      ensures forall i: nat :: old(Filled(f, texts, out, i)) ==> Filled(f, texts, out, i)
      ensures Filled(f, texts, out, slot.index)
    {
      out[slot.index] := Some(vector);
      cache := cache[slot.text := vector];
    }

    /** The loop over the misses; `done` of them are in the cache at the end. */
    method ExtractMisses(texts: seq<string>, misses: seq<Miss>, out: array<Option<V>>, extracted: seq<Result<V>>)
      returns (done: nat)
      requires Valid() && out.Length == |texts|
      requires ExtractsTo(f, misses, extracted)
      requires forall j :: 0 <= j < |misses| ==> misses[j].index < |texts| && misses[j].text == texts[misses[j].index]
      modifies out, `cache
      ensures Valid() && done <= |misses|
      ensures forall k :: 0 <= k < done ==> extracted[k].Ok?
      ensures done < |misses| ==> extracted[done].Err?
      ensures cache.Keys == old(cache).Keys + Texts(misses[..done])
      ensures forall i: nat :: old(Filled(f, texts, out, i)) ==> Filled(f, texts, out, i)
      ensures forall j :: 0 <= j < done ==> Filled(f, texts, out, misses[j].index)
    {
      done := 0;
      while done < |misses|
        invariant Valid() && done <= |misses|
        invariant forall k :: 0 <= k < done ==> extracted[k].Ok?
        invariant cache.Keys == old(cache).Keys + Texts(misses[..done])
        invariant forall i: nat :: old(Filled(f, texts, out, i)) ==> Filled(f, texts, out, i)
        invariant forall j :: 0 <= j < done ==> Filled(f, texts, out, misses[j].index)
      {
        var slot := misses[done];
        var result := extracted[done];
        if result.Err? { return; }
        TextsSnoc(misses, done);
        StoreOne(texts, slot, result.value, out);
        done := done + 1;
      }
    }

    /** `embed`: it fails exactly when the model does not load or some extraction throws, and
        even then what was extracted before stays cached. */
    method Embed(texts: seq<string>, loads: bool, extracted: seq<Result<V>>) returns (r: Result<seq<V>>)
      requires Valid() && ExtractsTo(f, Misses(texts, cache, |texts|), extracted)
      modifies this
      ensures Valid()
      ensures r.Ok? ==> |r.value| == |texts| && forall i :: 0 <= i < |texts| ==> r.value[i] == f(texts[i])
      ensures var misses := Misses(texts, old(cache), |texts|);
        r.Ok? <==> misses == [] || (loads && forall k :: 0 <= k < |misses| ==> extracted[k].Ok?)
      ensures old(cache).Keys <= cache.Keys
      ensures r.Ok? ==> cache.Keys == old(cache).Keys + (set t | t in texts)
    {
      if |texts| == 0 {
        assert Misses(texts, cache, 0) == [];
        return Ok([]);
      }
      var out := new Option<V>[|texts|](_ => None);
      var misses := Lookup(f, texts, cache, out);
      MissesBounded(texts, cache, |texts|);
      MissTexts(texts, cache);
      ghost var before := cache;
      if |misses| > 0 {
        if !loads { return Err; }
        var done := ExtractMisses(texts, misses, out, extracted);
        if done < |misses| { return Err; }
        assert misses[..done] == misses;
      }
      AllFilled(f, texts, before, out);
      r := Collect(f, texts, out);
    }
  }

  // -------------------------------------------------------------- similarity

  function Dot(a: seq<real>, b: seq<real>, n: nat): real
    requires n <= |a| && n <= |b|
  {
    if n == 0 then 0.0 else Dot(a, b, n - 1) + a[n - 1] * b[n - 1]
  }

  lemma SquareNonNegative(x: real)
    ensures x * x >= 0.0
  {}

  lemma {:induction false} NormNonNegative(a: seq<real>, n: nat)
    requires n <= |a|
    ensures Dot(a, a, n) >= 0.0
  {
    if n > 0 {
      NormNonNegative(a, n - 1);
      SquareNonNegative(a[n - 1]);
    }
  }

  /** Of two non-negative numbers the one with the larger square is the larger. */
  lemma RootOrder(x: real, y: real)
    requires x * x <= y * y && y >= 0.0
    ensures -y <= x <= y
  {
    if x > y { Grows(x, y); } else if -x > y { Grows(-x, y); }
  }

  lemma PositiveProduct(x: real, y: real)
    requires x > 0.0 && y > 0.0
    ensures x * y > 0.0
  {}

  lemma Grows(x: real, y: real)
    requires x > y >= 0.0
    ensures x * x > y * y
  {
    assert x * x - y * y == (x - y) * (x + y);
    PositiveProduct(x - y, x + y);
  }

  lemma MixedTerm(d: real, a: real, b: real, x: real, y: real)
    requires a >= 0.0 && b >= 0.0 && d * d <= a * b
    ensures 2.0 * d * x * y <= a * y * y + b * x * x
  {
    var p, q := a * y * y, b * x * x;
    assert p >= 0.0 by { SquareNonNegative(y); assert p == a * (y * y); }
    assert q >= 0.0 by { SquareNonNegative(x); assert q == b * (x * x); }
    var m := 2.0 * d * x * y;
    var xy := x * y;
    assert m * m == 4.0 * (d * d) * (xy * xy);
    assert 4.0 * p * q == 4.0 * (a * b) * (xy * xy);
    assert (d * d) * (xy * xy) <= (a * b) * (xy * xy) by { SquareNonNegative(xy); }
    assert (p + q) * (p + q) - 4.0 * p * q == (p - q) * (p - q);
    SquareNonNegative(p - q);
    RootOrder(m, p + q);
  }

  lemma AddTerm(d: real, p: real, q: real, x: real, y: real, d': real, p': real, q': real)
    requires p >= 0.0 && q >= 0.0 && d * d <= p * q
    requires d' == d + x * y && p' == p + x * x && q' == q + y * y
    ensures d' * d' <= p' * q'
  {
    MixedTerm(d, p, q, x, y);
    Expand(d, p, q, x, y);
  }

  /** The Cauchy-Schwarz inequality over the loop's sums. */
  lemma {:induction false} CauchySchwarz(a: seq<real>, b: seq<real>, n: nat)
    requires n <= |a| && n <= |b|
    ensures Dot(a, b, n) * Dot(a, b, n) <= Dot(a, a, n) * Dot(b, b, n)
  {
    if n > 0 {
      CauchySchwarz(a, b, n - 1);
      NormNonNegative(a, n - 1);
      NormNonNegative(b, n - 1);
      AddTerm(Dot(a, b, n - 1), Dot(a, a, n - 1), Dot(b, b, n - 1), a[n - 1], b[n - 1],
              Dot(a, b, n), Dot(a, a, n), Dot(b, b, n));
    }
  }

  lemma Expand(d: real, p: real, q: real, x: real, y: real)
    requires d * d <= p * q && 2.0 * d * x * y <= p * y * y + q * x * x
    ensures (d + x * y) * (d + x * y) <= (p + x * x) * (q + y * y)
  {
    assert (d + x * y) * (d + x * y) == d * d + 2.0 * d * x * y + x * y * x * y;
    assert (p + x * x) * (q + y * y) == p * q + p * y * y + q * x * x + x * x * y * y;
    assert x * y * x * y == x * x * y * y;
  }

  /** `cosineSimilarity` over the reals; `root` supplies exact square roots. */
  method CosineSimilarity(a: seq<real>, b: seq<real>, root: real -> real) returns (r: real)
    requires forall v: real :: v >= 0.0 ==> root(v) >= 0.0 && root(v) * root(v) == v
    ensures -1.0 <= r <= 1.0
    ensures |a| != |b| ==> r == 0.0
    ensures |a| == |b| && (Dot(a, a, |a|) == 0.0 || Dot(b, b, |b|) == 0.0) ==> r == 0.0
    ensures |a| == |b| && Dot(a, a, |a|) > 0.0 && Dot(b, b, |b|) > 0.0 ==>
      r * (root(Dot(a, a, |a|)) * root(Dot(b, b, |b|))) == Dot(a, b, |a|)
  {
    if |a| != |b| { return 0.0; }
    var dot, normA, normB := Sums(a, b);
    if normA == 0.0 || normB == 0.0 { return 0.0; }
    NormNonNegative(a, |a|);
    NormNonNegative(b, |b|);
    CauchySchwarz(a, b, |a|);
    var rootA, rootB := root(normA), root(normB);
    r := Quotient(dot, normA, normB, rootA, rootB);
  }

  method Sums(a: seq<real>, b: seq<real>) returns (dot: real, normA: real, normB: real)
    requires |a| == |b|
    ensures dot == Dot(a, b, |a|) && normA == Dot(a, a, |a|) && normB == Dot(b, b, |b|)
  {
    dot, normA, normB := 0.0, 0.0, 0.0;
    for i := 0 to |a|
      invariant dot == Dot(a, b, i) && normA == Dot(a, a, i) && normB == Dot(b, b, i)
    {
      dot := dot + a[i] * b[i];
      normA := normA + a[i] * a[i];
      normB := normB + b[i] * b[i];
    }
  }

  /** The product of two roots is positive and squares to the product. */
  lemma RootProduct(normA: real, normB: real, ra: real, rb: real)
    requires normA > 0.0 && normB > 0.0 && ra >= 0.0 && rb >= 0.0 && ra * ra == normA && rb * rb == normB
    ensures ra * rb > 0.0 && (ra * rb) * (ra * rb) == normA * normB
  {
    assert ra != 0.0 && rb != 0.0;
    assert (ra * rb) * (ra * rb) == (ra * ra) * (rb * rb);
  }

  lemma RatioBounded(x: real, scale: real, r: real)
    requires scale > 0.0 && -scale <= x <= scale && r * scale == x
    ensures -1.0 <= r <= 1.0
  {
    assert (1.0 - r) * scale >= 0.0 && (1.0 + r) * scale >= 0.0;
    NonNegativeFactor(1.0 - r, scale);
    NonNegativeFactor(1.0 + r, scale);
  }

  lemma NonNegativeFactor(x: real, scale: real)
    requires scale > 0.0 && x * scale >= 0.0
    ensures x >= 0.0
  {}

  method Quotient(dot: real, normA: real, normB: real, ra: real, rb: real) returns (r: real)
    requires normA > 0.0 && normB > 0.0 && ra >= 0.0 && rb >= 0.0 && ra * ra == normA && rb * rb == normB
    requires dot * dot <= normA * normB
    ensures -1.0 <= r <= 1.0 && r * (ra * rb) == dot
  {
    RootProduct(normA, normB, ra, rb);
    RootOrder(dot, ra * rb);
    r := dot / (ra * rb);
    assert r * (ra * rb) == dot;
    RatioBounded(dot, ra * rb, r);
  }
}
