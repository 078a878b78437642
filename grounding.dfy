/**
 * Grounding sources of a streamed answer: each chunk may carry grounding
 * chunks; those with a web URI become sources, and at the end of the stream
 * the sources are de-duplicated by URI through a JavaScript `Map` (one entry
 * per URI, in order of the URI's first insertion, holding the last value set).
 */
module Grounding {
  import opened Wrappers
  import opened Text
  import opened Types
  import opened Sequences

  datatype WebReference = WebReference(uri: Option<string>, title: Option<string>)

  /** A grounding chunk; `web` is absent for non-web grounding. */
  datatype GroundingChunk = GroundingChunk(web: Option<WebReference>)

  /** One element of the response stream: its text (`""` when the chunk has none)
      and the grounding chunks of its first candidate, if any. */
  datatype StreamChunk = StreamChunk(text: string, grounding: Option<seq<GroundingChunk>>)

  /** `x || ''` for an optional string. */
  function OrEmpty(s: Option<string>): string {
    if s.Some? then s.value else ""
  }

  /** `{ uri: c.web?.uri || '', title: c.web?.title || '' }`. */
  function ToSource(g: GroundingChunk): GroundingSource {
    if g.web.Some? then GroundingSource(OrEmpty(g.web.value.uri), OrEmpty(g.web.value.title))
    else GroundingSource("", "")
  }

  /** Every grounding chunk mapped to a source, in order. */
  function ToSources(gs: seq<GroundingChunk>): (r: seq<GroundingSource>)
    ensures |r| == |gs| && forall i :: 0 <= i < |gs| ==> r[i] == ToSource(gs[i])
  {
    if gs == [] then [] else [ToSource(gs[0])] + ToSources(gs[1..])
  }

  /** How many sources have a non-empty URI. */
  function CountUris(s: seq<GroundingSource>): nat {
    if s == [] then 0 else (if s[0].uri != "" then 1 else 0) + CountUris(s[1..])
  }

  /** The sources of one chunk: mapped, then those with an empty URI dropped. Being the
      mapped list with some elements left out, as many as have a non-empty URI, and all
      with a non-empty URI, it is exactly the filtered list. */
  function ChunkSources(gs: seq<GroundingChunk>): (r: seq<GroundingSource>)
    ensures forall i :: 0 <= i < |r| ==> r[i].uri != ""
    ensures forall g :: g in gs && ToSource(g).uri != "" ==> ToSource(g) in r
    ensures forall s :: s in r ==> exists g :: g in gs && ToSource(g) == s
    ensures IsSubsequence(r, ToSources(gs))
    ensures |r| == CountUris(ToSources(gs))
  {
    if gs == [] then []
    else
      var rest := ChunkSources(gs[1..]);
      assert forall g :: g in gs[1..] ==> g in gs;
      assert ToSources(gs)[1..] == ToSources(gs[1..]);
      if ToSource(gs[0]).uri != "" then
        var r := [ToSource(gs[0])] + rest;
        assert r[1..] == rest;
        r
      else rest
  }

  /** The sources a stream chunk contributes: none when it has no grounding. */
  function ChunkOf(c: StreamChunk): seq<GroundingSource> {
    if c.grounding.Some? then ChunkSources(c.grounding.value) else []
  }

  /** Some element of `xs` contributes `y` under `f`. */
  ghost predicate FromSome<X, Y>(xs: seq<X>, f: X -> seq<Y>, y: Y) {
    exists k :: 0 <= k < |xs| && y in f(xs[k])
  }

  /** An element comes from some part iff it comes from one before the last, or the last. */
  lemma {:induction false} FromSomeStep<X, Y>(xs: seq<X>, f: X -> seq<Y>, y: Y)
    requires xs != []
    ensures FromSome(xs, f, y) <==> FromSome(xs[..|xs| - 1], f, y) || y in f(xs[|xs| - 1])
  {
    var init := xs[..|xs| - 1];
    if FromSome(xs, f, y) {
      var k :| 0 <= k < |xs| && y in f(xs[k]);
      if k < |init| {
        assert init[k] == xs[k];
      }
    }
    if FromSome(init, f, y) {
      var k :| 0 <= k < |init| && y in f(init[k]);
      assert xs[k] == init[k];
    }
  }

  /** `finalSources` after the given chunks: every chunk's sources, in stream order. */
  function CollectSources(chunks: seq<StreamChunk>): (r: seq<GroundingSource>)
    ensures forall i :: 0 <= i < |r| ==> r[i].uri != ""
    ensures forall s :: s in r <==> FromSome(chunks, ChunkOf, s)
  {
    if chunks == [] then []
    else
      var init := chunks[..|chunks| - 1];
      var r := CollectSources(init) + ChunkOf(chunks[|chunks| - 1]);
      forall s ensures s in r <==> FromSome(chunks, ChunkOf, s) {
        FromSomeStep(chunks, ChunkOf, s);
      }
      r
  }

  /** Collecting is done chunk by chunk: the sources of a stream split in two are those of
      the first part followed by those of the second. */
  lemma {:induction false} CollectSourcesAppend(a: seq<StreamChunk>, b: seq<StreamChunk>)
    ensures CollectSources(a + b) == CollectSources(a) + CollectSources(b)
    decreases |b|
  {
    if b == [] {
      assert a + b == a;
    } else {
      var ab := a + b;
      var front := b[..|b| - 1];
      var last := b[|b| - 1];
      assert ab != [] && ab[..|ab| - 1] == a + front && ab[|ab| - 1] == last;
      CollectSourcesAppend(a, front);
      assert CollectSources(b) == CollectSources(front) + ChunkOf(last);
      assert CollectSources(ab) == CollectSources(a + front) + ChunkOf(last);
      AppendAssociative(CollectSources(a), CollectSources(front), ChunkOf(last));
    }
  }

  // ---------------------------------------------------------------------------
  // De-duplication by URI

  /** The URIs of a list of sources, in order. */
  function Uris(s: seq<GroundingSource>): (r: seq<string>)
    ensures |r| == |s| && forall i :: 0 <= i < |s| ==> r[i] == s[i].uri
  {
    if s == [] then [] else Uris(s[..|s| - 1]) + [s[|s| - 1].uri]
  }

  predicate HasUri(s: seq<GroundingSource>, u: string) {
    u in Uris(s)
  }

  /** The position of the first source with URI `u`. */
  function FirstIndex(s: seq<GroundingSource>, u: string): (k: nat)
    requires HasUri(s, u)
    ensures k < |s| && s[k].uri == u
    ensures forall i :: 0 <= i < k ==> s[i].uri != u
  {
    if s[0].uri == u then 0
    else
      assert HasUri(s[1..], u) by {
        var i :| 0 <= i < |s| && Uris(s)[i] == u;
        assert Uris(s[1..])[i - 1] == u;
      }
      1 + FirstIndex(s[1..], u)
  }

  /** The last source with URI `u`. */
  function LastWith(s: seq<GroundingSource>, u: string): (r: GroundingSource)
    requires HasUri(s, u)
    ensures r in s && r.uri == u
  {
    if s[|s| - 1].uri == u then s[|s| - 1]
    else
      assert Uris(s) == Uris(s[..|s| - 1]) + [s[|s| - 1].uri];
      LastWith(s[..|s| - 1], u)
  }

  predicate DistinctUris(s: seq<GroundingSource>) {
    forall i, j :: 0 <= i < j < |s| ==> s[i].uri != s[j].uri
  }

  /** `map.set(src.uri, src)` on a map kept as its entry list. */
  function MapSet(entries: seq<GroundingSource>, src: GroundingSource): (r: seq<GroundingSource>)
  {
    if HasUri(entries, src.uri) then entries[FirstIndex(entries, src.uri) := src]
    else entries + [src]
  }

  /** `r` holds the URIs of `s` and no other. */
  ghost predicate SameUris(r: seq<GroundingSource>, s: seq<GroundingSource>) {
    forall u :: HasUri(r, u) <==> HasUri(s, u)
  }

  /** Each entry of `r` is the last source of `s` with its URI. */
  ghost predicate HoldsLast(r: seq<GroundingSource>, s: seq<GroundingSource>) {
    forall i :: 0 <= i < |r| ==> HasUri(s, r[i].uri) && r[i] == LastWith(s, r[i].uri)
  }

  /** Both URIs occur in `s`, and `a` first occurs before `b` does. */
  predicate Before(s: seq<GroundingSource>, a: string, b: string) {
    HasUri(s, a) && HasUri(s, b) && FirstIndex(s, a) < FirstIndex(s, b)
  }

  /** The entries of `r` are in the order of their URI's first occurrence in `s`. */
  ghost predicate FirstOrder(r: seq<GroundingSource>, s: seq<GroundingSource>) {
    forall i, j :: 0 <= i < j < |r| ==> Before(s, r[i].uri, r[j].uri)
  }

  /** The properties that make `r` the value list of the map built from `s`. */
  ghost predicate IsDedupOf(r: seq<GroundingSource>, s: seq<GroundingSource>) {
    DistinctUris(r) && SameUris(r, s) && HoldsLast(r, s) && FirstOrder(r, s)
  }

  /** `Array.from(new Map(sources.map(s => [s.uri, s])).values())`: one entry per URI of the
      input and no other, holding the last source seen for that URI, in the order of each
      URI's first occurrence. */
  function DedupByUri(sources: seq<GroundingSource>): (r: seq<GroundingSource>)
    ensures DistinctUris(r)
    ensures forall u :: HasUri(r, u) <==> HasUri(sources, u)
    ensures forall i :: 0 <= i < |r| ==> HasUri(sources, r[i].uri) && r[i] == LastWith(sources, r[i].uri)
    ensures forall i, j :: 0 <= i < j < |r| ==>
      HasUri(sources, r[i].uri) && HasUri(sources, r[j].uri) &&
      FirstIndex(sources, r[i].uri) < FirstIndex(sources, r[j].uri)
  {
    if sources == [] then []
    else
      var init := sources[..|sources| - 1];
      var src := sources[|sources| - 1];
      assert init + [src] == sources;
      var prev := DedupByUri(init);
      assert IsDedupOf(prev, init);
      if HasUri(prev, src.uri) then
        DedupStepKnown(init, src, prev);
        MapSet(prev, src)
      else
        DedupStepNew(init, src, prev);
        MapSet(prev, src)
  }

  lemma UrisAppend(init: seq<GroundingSource>, src: GroundingSource)
    ensures Uris(init + [src]) == Uris(init) + [src.uri]
  {
  }

  lemma HasUriAppend(init: seq<GroundingSource>, src: GroundingSource, u: string)
    ensures HasUri(init + [src], u) <==> HasUri(init, u) || u == src.uri
  {
    UrisAppend(init, src);
  }

  lemma LastWithAppend(init: seq<GroundingSource>, src: GroundingSource, u: string)
    requires HasUri(init, u) || u == src.uri
    ensures HasUri(init + [src], u)
    ensures LastWith(init + [src], u) == if u == src.uri then src else LastWith(init, u)
  {
    HasUriAppend(init, src, u);
    var s := init + [src];
    assert s[..|s| - 1] == init;
  }

  lemma FirstIndexAppend(init: seq<GroundingSource>, src: GroundingSource, u: string)
    requires HasUri(init, u) || u == src.uri
    ensures HasUri(init + [src], u)
    ensures HasUri(init, u) ==> FirstIndex(init + [src], u) == FirstIndex(init, u)
    ensures !HasUri(init, u) ==> FirstIndex(init + [src], u) == |init|
  {
    HasUriAppend(init, src, u);
    var s := init + [src];
    var k' := FirstIndex(s, u);
    if HasUri(init, u) {
      var k := FirstIndex(init, u);
      assert s[k].uri == u;
      assert k' <= k;
    }
  }

  /** Setting a URI the map already holds replaces its value in place. */
  lemma DedupStepKnown(init: seq<GroundingSource>, src: GroundingSource, prev: seq<GroundingSource>)
    requires IsDedupOf(prev, init) && HasUri(prev, src.uri)
    ensures IsDedupOf(MapSet(prev, src), init + [src])
  {
    var r := prev[FirstIndex(prev, src.uri) := src];
    assert MapSet(prev, src) == r;
    assert Uris(r) == Uris(prev);
    KnownUris(init, src, prev, r);
    KnownLast(init, src, prev, r);
    KnownOrder(init, src, prev, r);
  }

  lemma KnownUris(init: seq<GroundingSource>, src: GroundingSource, prev: seq<GroundingSource>, r: seq<GroundingSource>)
    requires SameUris(prev, init) && Uris(r) == Uris(prev) && HasUri(prev, src.uri)
    ensures SameUris(r, init + [src])
  {
    forall u ensures HasUri(r, u) <==> HasUri(init + [src], u) {
      HasUriAppend(init, src, u);
    }
  }

  lemma KnownLast(init: seq<GroundingSource>, src: GroundingSource, prev: seq<GroundingSource>, r: seq<GroundingSource>)
    requires HoldsLast(prev, init) && DistinctUris(prev) && HasUri(prev, src.uri)
    requires r == prev[FirstIndex(prev, src.uri) := src]
    ensures HoldsLast(r, init + [src])
  {
    forall i | 0 <= i < |r|
      ensures HasUri(init + [src], r[i].uri) && r[i] == LastWith(init + [src], r[i].uri)
    {
      LastWithAppend(init, src, r[i].uri);
    }
  }

  lemma KnownOrder(init: seq<GroundingSource>, src: GroundingSource, prev: seq<GroundingSource>, r: seq<GroundingSource>)
    requires FirstOrder(prev, init) && Uris(r) == Uris(prev)
    ensures FirstOrder(r, init + [src])
  {
    forall i, j | 0 <= i < j < |r|
      ensures Before(init + [src], r[i].uri, r[j].uri)
    {
      assert r[i].uri == prev[i].uri && r[j].uri == prev[j].uri;
      FirstIndexAppend(init, src, r[i].uri);
      FirstIndexAppend(init, src, r[j].uri);
    }
  }

  /** Setting a new URI appends it at the end. */
  lemma DedupStepNew(init: seq<GroundingSource>, src: GroundingSource, prev: seq<GroundingSource>)
    requires IsDedupOf(prev, init) && !HasUri(prev, src.uri)
    ensures IsDedupOf(MapSet(prev, src), init + [src])
  {
    var r := prev + [src];
    assert MapSet(prev, src) == r;
    UrisAppend(prev, src);
    assert !HasUri(init, src.uri);
    NewUris(init, src, prev);
    NewLast(init, src, prev);
    NewOrder(init, src, prev, r);
  }

  lemma NewUris(init: seq<GroundingSource>, src: GroundingSource, prev: seq<GroundingSource>)
    requires SameUris(prev, init)
    ensures SameUris(prev + [src], init + [src])
  {
    forall u ensures HasUri(prev + [src], u) <==> HasUri(init + [src], u) {
      HasUriAppend(init, src, u);
      HasUriAppend(prev, src, u);
    }
  }

  lemma NewLast(init: seq<GroundingSource>, src: GroundingSource, prev: seq<GroundingSource>)
    requires HoldsLast(prev, init) && !HasUri(init, src.uri)
    ensures HoldsLast(prev + [src], init + [src])
  {
    var r := prev + [src];
    forall i | 0 <= i < |r|
      ensures HasUri(init + [src], r[i].uri) && r[i] == LastWith(init + [src], r[i].uri)
    {
      if i < |prev| {
        assert r[i] == prev[i];
      }
      LastWithAppend(init, src, r[i].uri);
    }
  }

  lemma NewOrder(init: seq<GroundingSource>, src: GroundingSource, prev: seq<GroundingSource>, r: seq<GroundingSource>)
    requires FirstOrder(prev, init) && HoldsLast(prev, init) && !HasUri(init, src.uri)
    requires r == prev + [src]
    ensures FirstOrder(r, init + [src])
  {
    forall i, j | 0 <= i < j < |r|
      ensures Before(init + [src], r[i].uri, r[j].uri)
    {
      NewOrderAt(init, src, prev, r, i, j);
    }
  }

  lemma NewOrderAt(init: seq<GroundingSource>, src: GroundingSource, prev: seq<GroundingSource>, r: seq<GroundingSource>,
                   i: nat, j: nat)
    requires FirstOrder(prev, init) && HoldsLast(prev, init) && !HasUri(init, src.uri)
    requires r == prev + [src] && i < j < |r|
    ensures Before(init + [src], r[i].uri, r[j].uri)
  {
    assert r[i] == prev[i] && HasUri(init, r[i].uri);
    FirstIndexAppend(init, src, r[i].uri);
    if j < |prev| {
      assert r[j] == prev[j];
      FirstIndexAppend(init, src, r[j].uri);
    } else {
      assert r[j] == src;
      FirstIndexAppend(init, src, src.uri);
    }
  }

  /** The sources attached to the finished answer, when there is at least one. */
  function FinalSources(chunks: seq<StreamChunk>): Option<seq<GroundingSource>> {
    var all := CollectSources(chunks);
    if |all| > 0 then Some(DedupByUri(all)) else None
  }
}
