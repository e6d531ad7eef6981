/** The static catalogue: two product lists and their union without
    repeated slugs. Prices are integer cents. */
module Products {
  import opened Wrappers

  datatype Product = Product(slug: string, name: string, price: int, image: string, collection: Option<string>)

  const TrendingProducts: seq<Product> := [
    Product("neo-wave", "Neo Wave", 2499, "/cases/case-1.jpg", Some("neon")),
    Product("midnight-grid", "Midnight Grid", 2200, "/cases/case-2.jpg", Some("minimal")),
    Product("pastel-swirl", "Pastel Swirl", 2150, "/cases/case-3.jpg", Some("soft")),
    Product("retro-pop", "Retro Pop", 2500, "/cases/case-4.jpg", Some("vintage"))
  ]

  const NewDrops: seq<Product> := [
    Product("glossy-mist", "Glossy Mist", 2300, "/cases/case-5.jpg", None),
    Product("aqua-ripple", "Aqua Ripple", 2400, "/cases/case-6.jpg", None),
    Product("sunset-glow", "Sunset Glow", 2450, "/cases/case-7.jpg", None)
  ]

  /** `arr.findIndex(x => x.slug === slug)`: the first position holding the
      slug, or -1. */
  function FindIndex(arr: seq<Product>, slug: string): (r: int)
    ensures -1 <= r < |arr|
    ensures r >= 0 ==> arr[r].slug == slug && forall j :: 0 <= j < r ==> arr[j].slug != slug
    ensures r == -1 ==> forall j :: 0 <= j < |arr| ==> arr[j].slug != slug
  {
    if arr == [] then -1
    else if arr[0].slug == slug then 0
    else
      var r := FindIndex(arr[1..], slug);
      assert forall j :: 1 <= j < |arr| ==> arr[j] == arr[1..][j - 1];
      if r == -1 then -1 else r + 1
  }

  /** The filter's test: position `i` is the first with its slug. */
  predicate IsFirst(arr: seq<Product>, i: nat)
    requires i < |arr|
  {
    FindIndex(arr, arr[i].slug) == i
  }

  predicate Increasing(ix: seq<nat>) {
    forall a, b :: 0 <= a < b < |ix| ==> ix[a] < ix[b]
  }

  /** The positions from `from` on that the filter keeps, in order. */
  function KeptFrom(arr: seq<Product>, from: nat): (ix: seq<nat>)
    ensures Increasing(ix)
    ensures forall k :: 0 <= k < |ix| ==> from <= ix[k] < |arr|
    ensures forall i :: from <= i < |arr| ==> (i in ix <==> IsFirst(arr, i))
    decreases |arr| - from
  {
    if from >= |arr| then []
    else (if IsFirst(arr, from) then [from] else []) + KeptFrom(arr, from + 1)
  }

  /** `arr.filter((p, idx, arr) => arr.findIndex(x => x.slug === p.slug) === idx)`. */
  function DedupBySlug(arr: seq<Product>): (r: seq<Product>)
    ensures |r| == |KeptFrom(arr, 0)|
    ensures forall k :: 0 <= k < |r| ==> r[k] == arr[KeptFrom(arr, 0)[k]]
  {
    var ix := KeptFrom(arr, 0);
    seq(|ix|, k requires 0 <= k < |ix| => arr[ix[k]])
  }

  /** `allProducts`: the two lists of products.ts joined, one entry per
      slug. */
  function AllProducts(): (r: seq<Product>)
    ensures forall a, b :: 0 <= a < b < |r| ==> r[a].slug != r[b].slug
    ensures |r| <= |TrendingProducts| + |NewDrops|
  {
    DedupUnique(TrendingProducts + NewDrops);
    DedupSubsequence(TrendingProducts + NewDrops);
    DedupBySlug(TrendingProducts + NewDrops)
  }

  /** No two kept entries share a slug. */
  lemma DedupUnique(arr: seq<Product>)
    ensures var r := DedupBySlug(arr);
            forall a, b :: 0 <= a < b < |r| ==> r[a].slug != r[b].slug
  {
    var ix := KeptFrom(arr, 0);
    var r := DedupBySlug(arr);
    forall a, b | 0 <= a < b < |r| ensures r[a].slug != r[b].slug {
      assert ix[a] in ix && ix[b] in ix;
      assert IsFirst(arr, ix[a]) && IsFirst(arr, ix[b]);
    }
  }

  /** Each kept entry is the first occurrence of its slug. */
  lemma DedupKeepsFirst(arr: seq<Product>)
    ensures var r := DedupBySlug(arr);
            forall k :: 0 <= k < |r| ==> 0 <= FindIndex(arr, r[k].slug) < |arr| && r[k] == arr[FindIndex(arr, r[k].slug)]
  {
    var ix := KeptFrom(arr, 0);
    forall k | 0 <= k < |ix| ensures IsFirst(arr, ix[k]) {
      assert ix[k] in ix;
    }
  }

  /** Every slug of the input appears in the result. */
  lemma DedupCovers(arr: seq<Product>)
    ensures var r := DedupBySlug(arr);
            forall i :: 0 <= i < |arr| ==> exists k :: 0 <= k < |r| && r[k].slug == arr[i].slug
  {
    var ix := KeptFrom(arr, 0);
    var r := DedupBySlug(arr);
    forall i | 0 <= i < |arr| ensures exists k :: 0 <= k < |r| && r[k].slug == arr[i].slug {
      var j := FindIndex(arr, arr[i].slug);
      assert IsFirst(arr, j);
      assert j in ix;
      var k :| 0 <= k < |ix| && ix[k] == j;
      assert r[k] == arr[j];
    }
  }

  /** The result is an order-preserving subsequence of the input: the kept
      positions increase, so entries of an earlier list come first. */
  lemma DedupSubsequence(arr: seq<Product>)
    ensures var r := DedupBySlug(arr);
            var ix := KeptFrom(arr, 0);
            && |r| == |ix| <= |arr|
            && Increasing(ix)
            && forall k :: 0 <= k < |r| ==> ix[k] < |arr| && r[k] == arr[ix[k]]
  {
    IncreasingBound(KeptFrom(arr, 0), |arr|);
  }

  lemma {:induction false} IncreasingBound(ix: seq<nat>, n: nat)
    requires Increasing(ix)
    requires forall k :: 0 <= k < |ix| ==> ix[k] < n
    ensures |ix| <= n
  {
    if ix != [] {
      var last := |ix| - 1;
      var front := ix[..last];
      assert forall k :: 0 <= k < |front| ==> front[k] < ix[last];
      IncreasingBound(front, ix[last]);
    }
  }

  /** With no repeated slug, none of them already seen, nothing is dropped. */
  lemma {:induction false} DedupSeenDistinct(arr: seq<Product>, seen: set<string>)
    requires forall a, b :: 0 <= a < b < |arr| ==> arr[a].slug != arr[b].slug
    requires forall i :: 0 <= i < |arr| ==> arr[i].slug !in seen
    ensures DedupSeen(arr, seen) == arr
  {
    if arr != [] {
      var tail := arr[1..];
      forall i | 0 <= i < |tail| ensures tail[i].slug !in seen + {arr[0].slug} {
        assert tail[i] == arr[i + 1];
      }
      DedupSeenDistinct(tail, seen + {arr[0].slug});
    }
  }

  /** With no repeated slug the filter keeps everything. */
  lemma DedupDistinct(arr: seq<Product>)
    requires forall a, b :: 0 <= a < b < |arr| ==> arr[a].slug != arr[b].slug
    ensures DedupBySlug(arr) == arr
  {
    DedupMatchesSeen(arr);
    DedupSeenDistinct(arr, {});
  }

  /** The catalogue of products.ts has seven distinct slugs, so
      `allProducts` is the whole concatenation: trending products first,
      then new drops. */
  lemma AllProductsCatalogue()
    ensures AllProducts() == TrendingProducts + NewDrops
    ensures |AllProducts()| == 7
  {
    var arr := TrendingProducts + NewDrops;
    assert forall a, b :: 0 <= a < b < |arr| ==> arr[a].slug != arr[b].slug;
    DedupDistinct(arr);
  }

  // ---------------------------------------------------------------- reference definition

  function Slugs(arr: seq<Product>): set<string> {
    set i | 0 <= i < |arr| :: arr[i].slug
  }

  /** Keep-first de-duplication with a set of slugs already seen. */
  function DedupSeen(arr: seq<Product>, seen: set<string>): seq<Product> {
    if arr == [] then []
    else if arr[0].slug in seen then DedupSeen(arr[1..], seen)
    else [arr[0]] + DedupSeen(arr[1..], seen + {arr[0].slug})
  }

  function Pick(arr: seq<Product>, ix: seq<nat>): seq<Product>
    requires forall k :: 0 <= k < |ix| ==> ix[k] < |arr|
  {
    seq(|ix|, k requires 0 <= k < |ix| => arr[ix[k]])
  }

  lemma FirstIffUnseen(arr: seq<Product>, i: nat)
    requires i < |arr|
    ensures IsFirst(arr, i) <==> arr[i].slug !in Slugs(arr[..i])
  {
    if arr[i].slug in Slugs(arr[..i]) {
      var j :| 0 <= j < i && arr[..i][j].slug == arr[i].slug;
      assert arr[j].slug == arr[i].slug;
    }
  }

  lemma SlugsExtend(arr: seq<Product>, from: nat)
    requires from < |arr|
    ensures Slugs(arr[..from + 1]) == Slugs(arr[..from]) + {arr[from].slug}
  {
    assert arr[..from + 1] == arr[..from] + [arr[from]];
  }

  /** One step of the seen-set definition at position `from`. */
  lemma SeenStep(arr: seq<Product>, from: nat)
    requires from < |arr|
    ensures DedupSeen(arr[from..], Slugs(arr[..from]))
            == (if IsFirst(arr, from) then [arr[from]] else []) + DedupSeen(arr[from + 1..], Slugs(arr[..from + 1]))
  {
    FirstIffUnseen(arr, from);
    SlugsExtend(arr, from);
    assert arr[from..][0] == arr[from] && arr[from..][1..] == arr[from + 1..];
    if !IsFirst(arr, from) {
      assert Slugs(arr[..from]) + {arr[from].slug} == Slugs(arr[..from]);
      assert [] + DedupSeen(arr[from + 1..], Slugs(arr[..from + 1])) == DedupSeen(arr[from + 1..], Slugs(arr[..from + 1]));
    }
  }

  lemma PickConcat(arr: seq<Product>, a: seq<nat>, b: seq<nat>)
    requires forall k :: 0 <= k < |a| ==> a[k] < |arr|
    requires forall k :: 0 <= k < |b| ==> b[k] < |arr|
    ensures Pick(arr, a + b) == Pick(arr, a) + Pick(arr, b)
  {
  }

  lemma {:induction false} KeptFromSeen(arr: seq<Product>, from: nat)
    requires from <= |arr|
    ensures Pick(arr, KeptFrom(arr, from)) == DedupSeen(arr[from..], Slugs(arr[..from]))
    decreases |arr| - from
  {
    if from < |arr| {
      KeptFromSeen(arr, from + 1);
      SeenStep(arr, from);
      var head: seq<nat> := if IsFirst(arr, from) then [from] else [];
      var rest := KeptFrom(arr, from + 1);
      assert KeptFrom(arr, from) == head + rest;
      PickConcat(arr, head, rest);
    }
  }

  /** The filter agrees with keep-first de-duplication over a set of seen slugs. */
  lemma DedupMatchesSeen(arr: seq<Product>)
    ensures DedupBySlug(arr) == DedupSeen(arr, {})
  {
    KeptFromSeen(arr, 0);
    assert arr[0..] == arr;
    assert Slugs(arr[..0]) == {};
  }
}
