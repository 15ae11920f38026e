/** The asset pack agent (agents/assetpack_agent.py): lists the required
    assets once each, in first-occurrence order, and those of them that are
    not available. */
module AssetPackAgent {
  import opened Json
  import opened AssetPackSchema

  datatype AssetPackRequest = AssetPackRequest(requiredAssets: seq<string>, availableAssets: seq<string>)

  /** The index of the first occurrence of `x` in `xs`. */
  function FirstIndex(xs: seq<string>, x: string): (k: nat)
    requires x in xs
    ensures k < |xs| && xs[k] == x && x !in xs[..k]
  {
    if xs[0] == x then 0
    else
      var k := FirstIndex(xs[1..], x);
      assert xs[..k + 1] == [xs[0]] + xs[1..][..k];
      k + 1
  }

  /** Any index holding `x` with no earlier `x` is the first index. */
  lemma {:induction false} FirstIndexUnique(xs: seq<string>, x: string, k: nat)
    requires k < |xs| && xs[k] == x && x !in xs[..k]
    ensures FirstIndex(xs, x) == k
    decreases k
  {
    if k > 0 {
      assert xs[0] == xs[..k][0];
      assert xs[1..][..k - 1] == xs[1..k];
      assert forall y :: y in xs[1..k] ==> y in xs[..k];
      FirstIndexUnique(xs[1..], x, k - 1);
    }
  }

  /** Appending an element leaves the first index of an earlier one alone. */
  lemma FirstIndexSnoc(xs: seq<string>, y: string, x: string)
    requires x in xs
    ensures FirstIndex(xs + [y], x) == FirstIndex(xs, x)
  {
    var k := FirstIndex(xs, x);
    assert (xs + [y])[..k] == xs[..k];
    FirstIndexUnique(xs + [y], x, k);
  }

  /** `list(dict.fromkeys(xs))`: a dictionary keeps the first insertion of
      each key, and a later duplicate changes nothing. So the result has no
      duplicates, holds exactly the elements of `xs`, and lists them in the
      order of their first occurrences. */
  function Dedup(xs: seq<string>): (r: seq<string>)
    ensures NoDup(r)
    ensures forall x :: x in r <==> x in xs
    ensures forall i, j :: 0 <= i < j < |r| ==> FirstIndex(xs, r[i]) < FirstIndex(xs, r[j])
    decreases |xs|
  {
    if |xs| == 0 then []
    else
      var init := xs[..|xs| - 1];
      var last := xs[|xs| - 1];
      assert xs == init + [last];
      var r := Dedup(init);
      forall x | x in init
        ensures FirstIndex(xs, x) == FirstIndex(init, x)
      {
        FirstIndexSnoc(init, last, x);
      }
      if last in r then r
      else
        assert FirstIndex(xs, last) == |xs| - 1 by {
          FirstIndexUnique(xs, last, |xs| - 1);
        }
        r + [last]
  }

  /** A list without duplicates is its own de-duplication; in particular
      de-duplicating twice is de-duplicating once. */
  lemma {:induction false} DedupDistinct(xs: seq<string>)
    requires NoDup(xs)
    ensures Dedup(xs) == xs
    decreases |xs|
  {
    if |xs| > 0 {
      var init, last := xs[..|xs| - 1], xs[|xs| - 1];
      assert NoDup(init) by {
        forall i, k | 0 <= i < k < |init| ensures init[i] != init[k] {
          assert init[i] == xs[i] && init[k] == xs[k];
        }
      }
      DedupDistinct(init);
      assert last !in init by {
        forall i | 0 <= i < |init| ensures init[i] != last {
          assert init[i] == xs[i];
        }
      }
      assert Dedup(xs) == Dedup(init) + [last];
      assert init + [last] == xs;
    }
  }

  lemma DedupIdempotent(xs: seq<string>)
    ensures Dedup(Dedup(xs)) == Dedup(xs)
  {
    DedupDistinct(Dedup(xs));
  }

  /** `[asset for asset in required if asset not in available]`: the
      required assets that are not available, in their order, so a
      subsequence of `required`. */
  function Missing(required: seq<string>, available: seq<string>): (r: seq<string>)
    ensures forall x :: x in r <==> x in required && x !in available
    ensures Subseq(r, required)
    ensures NoDup(required) ==> NoDup(r)
  {
    if |required| == 0 then []
    else
      var rest := Missing(required[1..], available);
      if required[0] in available then rest
      else
        assert NoDup(required) ==> required[0] !in required[1..];
        [required[0]] + rest
  }

  /** `a` is `b` with some elements dropped, the rest kept in order. */
  predicate Subseq(a: seq<string>, b: seq<string>)
    decreases |b|
  {
    if |a| == 0 then true
    else if |b| == 0 then false
    else if a[0] == b[0] then Subseq(a[1..], b[1..])
    else Subseq(a, b[1..])
  }

  /** `AssetPackAgent.generate`: total — every request yields a pack. The
      required list is de-duplicated in first-occurrence order; the missing
      list is the de-duplicated required assets that are not available, in
      order; every required asset outside it is available. */
  function Generate(req: AssetPackRequest): (p: AssetPack)
    ensures NoDup(p.requiredAssets) && NoDup(p.missingAssets)
    ensures forall x :: x in p.requiredAssets <==> x in req.requiredAssets
    ensures forall i, j :: 0 <= i < j < |p.requiredAssets| ==>
      FirstIndex(req.requiredAssets, p.requiredAssets[i]) < FirstIndex(req.requiredAssets, p.requiredAssets[j])
    ensures forall x :: x in p.missingAssets <==> x in req.requiredAssets && x !in req.availableAssets
    ensures Subseq(p.missingAssets, p.requiredAssets)
    ensures forall x :: x in p.requiredAssets && x !in p.missingAssets ==> x in req.availableAssets
  {
    var required := Dedup(req.requiredAssets);
    AssetPack(required, Missing(required, req.availableAssets))
  }

  /** The example pack: required ["a", "a", "b"] with "a" available gives
      required ["a", "b"] and missing ["b"]. */
  lemma GenerateExample()
    ensures Generate(AssetPackRequest(["a", "a", "b"], ["a"])) == AssetPack(["a", "b"], ["b"])
  {
    var xs := ["a", "a", "b"];
    assert xs[..2] == ["a", "a"] && xs[..2][..1] == ["a"];
  }
}
