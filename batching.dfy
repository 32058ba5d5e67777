/** Cutting a list of ids into consecutive batches (`slice::chunks`) and
    putting per-batch results back together. */
module Batching {
  import opened Errors

  /** `xs.chunks(n)`: consecutive pieces of `n` elements, the last one
      possibly shorter; no piece is empty. */
  function Chunks<T>(xs: seq<T>, n: nat): (cs: seq<seq<T>>)
    requires n > 0
    ensures forall i :: 0 <= i < |cs| ==> 1 <= |cs[i]| <= n
    ensures forall i :: 0 <= i < |cs| - 1 ==> |cs[i]| == n
    decreases |xs|
  {
    if |xs| == 0 then []
    else if |xs| <= n then [xs]
    else [xs[..n]] + Chunks(xs[n..], n)
  }

  /** The pieces laid end to end. */
  function Flatten<T>(xss: seq<seq<T>>): seq<T>
  {
    if xss == [] then [] else Flatten(xss[..|xss| - 1]) + xss[|xss| - 1]
  }

  lemma {:induction false} FlattenCons<T>(x: seq<T>, xss: seq<seq<T>>)
    ensures Flatten([x] + xss) == x + Flatten(xss)
    decreases |xss|
  {
    if xss != [] {
      var init := xss[..|xss| - 1];
      FlattenCons(x, init);
      assert ([x] + xss)[..|xss|] == [x] + init;
    } else {
      assert [x][..0] == [];
    }
  }

  /** The pieces put back together give the input: nothing is lost,
      repeated or reordered. */
  lemma {:induction false} ChunksFlatten<T>(xs: seq<T>, n: nat)
    requires n > 0
    ensures Flatten(Chunks(xs, n)) == xs
    decreases |xs|
  {
    if |xs| == 0 {
    } else if |xs| <= n {
      assert [xs][..0] == [];
    } else {
      ChunksFlatten(xs[n..], n);
      FlattenCons(xs[..n], Chunks(xs[n..], n));
      assert xs[..n] + xs[n..] == xs;
    }
  }

  /** There are ceil(|xs| / n) pieces: the fewest pieces of at most `n`
      elements that can hold `xs`. */
  lemma {:induction false} ChunkCount<T>(xs: seq<T>, n: nat)
    requires n > 0
    ensures |xs| == 0 ==> |Chunks(xs, n)| == 0
    ensures |xs| > 0 ==> (|Chunks(xs, n)| - 1) * n < |xs| <= |Chunks(xs, n)| * n
    decreases |xs|
  {
    if |xs| > n {
      var k := |Chunks(xs[n..], n)|;
      ChunkCount(xs[n..], n);
      assert |Chunks(xs, n)| == k + 1;
      assert (k + 1) * n == k * n + n;
    }
  }

  /** Prefixes of the pieces flatten to a prefix of the whole, one piece
      at a time. */
  lemma FlattenSnoc<T>(xss: seq<seq<T>>, i: nat)
    requires i < |xss|
    ensures Flatten(xss[..i + 1]) == Flatten(xss[..i]) + xss[i]
  {
    assert xss[..i + 1][..i] == xss[..i];
  }

  /** The positions 0, 1, ..., n - 1. */
  function Range(n: nat): (r: seq<nat>)
    ensures |r| == n && forall i :: 0 <= i < n ==> r[i] == i
  {
    if n == 0 then [] else Range(n - 1) + [n - 1]
  }

  /** Fetching batches 0 to n - 1 in turn, stopping at the first failure:
      the batches' results laid end to end, or the first error. */
  function FetchAll<B>(fetch: nat -> Result<seq<B>>, n: nat): Result<seq<B>>
  {
    match TryMap(fetch, Range(n))
    case Err(e) => Err(e)
    case Ok(parts) => Ok(Flatten(parts))
  }

  /** Fetching succeeds exactly when every batch does, and then gives the
      batches' results in batch order. */
  lemma FetchAllSucceeds<B>(fetch: nat -> Result<seq<B>>, n: nat)
    ensures FetchAll(fetch, n).Ok? <==> forall c :: 0 <= c < n ==> fetch(c).Ok?
    ensures FetchAll(fetch, n).Ok? ==>
              exists parts: seq<seq<B>> :: |parts| == n && FetchAll(fetch, n).value == Flatten(parts)
                && forall c :: 0 <= c < n ==> fetch(c) == Ok(parts[c])
  {
    var cs := Range(n);
    TryMapSucceeds(fetch, cs);
    if TryMap(fetch, cs).Ok? {
      var parts := TryMap(fetch, cs).value;
      forall c | 0 <= c < n ensures fetch(c) == Ok(parts[c]) {
        assert cs[c] == c;
      }
      assert FetchAll(fetch, n) == Ok(Flatten(parts));
    } else {
      var k :| 0 <= k < |cs| && fetch(cs[k]).Err?;
      assert cs[k] == k;
    }
  }

  /** A failed fetch gives the error of the first batch that failed; later
      batches play no part. */
  lemma FetchAllFailsAtFirst<B>(fetch: nat -> Result<seq<B>>, n: nat)
    requires FetchAll(fetch, n).Err?
    ensures exists k :: 0 <= k < n && fetch(k).Err? && FetchAll(fetch, n).error == fetch(k).error
              && forall c :: 0 <= c < k ==> fetch(c).Ok?
  {
    var cs := Range(n);
    TryMapFailsAtFirst(fetch, cs);
    var k :| 0 <= k < |cs| && fetch(cs[k]).Err? && (forall i :: 0 <= i < k ==> fetch(cs[i]).Ok?)
             && TryMap(fetch, cs).error == fetch(cs[k]).error;
    forall c | 0 <= c < k ensures fetch(c).Ok? {
      assert cs[c] == c;
    }
    assert cs[k] == k;
  }

  /** One more successful batch extends the fetched results by its own. */
  lemma FetchStep<B>(fetch: nat -> Result<seq<B>>, c: nat, parts: seq<seq<B>>, part: seq<B>)
    requires TryMap(fetch, Range(c)) == Ok(parts) && fetch(c) == Ok(part)
    ensures TryMap(fetch, Range(c + 1)) == Ok(parts + [part])
    ensures Flatten(parts + [part]) == Flatten(parts) + part
  {
    assert Range(c + 1)[..c] == Range(c);
    assert (parts + [part])[..|parts|] == parts;
  }

  /** A batch that fails after successful ones decides the whole fetch. */
  lemma FetchStops<B>(fetch: nat -> Result<seq<B>>, c: nat, n: nat, parts: seq<seq<B>>)
    requires c < n && TryMap(fetch, Range(c)) == Ok(parts) && fetch(c).Err?
    ensures FetchAll(fetch, n) == Err(fetch(c).error)
  {
    FailStep(fetch, c, parts);
    RangePrefix(n, c + 1);
    TryMapErrorPersists(fetch, Range(n), c + 1);
  }

  /** A failing batch after successful ones fails the batches so far. */
  lemma FailStep<B>(fetch: nat -> Result<seq<B>>, c: nat, parts: seq<seq<B>>)
    requires TryMap(fetch, Range(c)) == Ok(parts) && fetch(c).Err?
    ensures TryMap(fetch, Range(c + 1)) == Err(fetch(c).error)
  {
    assert Range(c + 1)[..c] == Range(c);
  }

  lemma RangePrefix(n: nat, k: nat)
    requires k <= n
    ensures Range(n)[..k] == Range(k)
  {
  }
}
