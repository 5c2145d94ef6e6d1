/**
 * The list composer of MainActivity: ads that finished loading are
 * interleaved, in arrival order, into the list of menu items with a fixed
 * stride `offset = M / N + 1` (M menu entries, N ads, integer division).
 *
 * `Blocks` and `Compose` are the reference description of the result:
 * ad 0, then M / N entries of the original list, ad 1, then M / N entries,
 * and so on, the last ad being followed by all the remaining entries.
 * `MainActivity.InsertAdsInMenuItems` does what the source does (one
 * `add(index, ad)` per ad, `index += offset`) and is proved to build exactly
 * that list.
 */
module Composer {
  import opened Items

  /** `ArrayList.add(i, x)`: defined only for `i <= |s|`, the index the list accepts. */
  function InsertAt(s: seq<Item>, i: nat, x: Item): (r: seq<Item>)
    requires i <= |s|
    ensures |r| == |s| + 1 && r[i] == x
    ensures forall j :: 0 <= j < i ==> r[j] == s[j]
    ensures forall j :: i < j < |r| ==> r[j] == s[j - 1]
  {
    s[..i] + [x] + s[i..]
  }

  /** The stride between two consecutive ads: `dataList.size / nativeAds.size + 1`. */
  function Offset(m: nat, n: nat): (offset: nat)
    requires n > 0
    ensures offset >= 1
    ensures (offset - 1) * n <= m < offset * n
  {
    m / n + 1
  }

  /**
   * k * w as k additions of w: the value of `index` after k rounds of
   * `index += w`. Kept recursive so that the proofs over it stay linear.
   */
  function Mul(k: nat, w: nat): nat
  {
    if k == 0 then 0 else Mul(k - 1, w) + w
  }

  lemma {:induction false} MulIsProduct(k: nat, w: nat)
    ensures Mul(k, w) == k * w
  {
    if k > 0 {
      MulIsProduct(k - 1, w);
    }
  }

  lemma {:induction false} MulMonotone(k: nat, n: nat, w: nat)
    requires k <= n
    ensures Mul(k, w) <= Mul(n, w)
    decreases n
  {
    if k < n {
      MulMonotone(k, n - 1, w);
    }
  }

  /** k strides of w + 1 are k strides of w and k more. */
  lemma {:induction false} MulSuccStride(k: nat, w: nat)
    ensures Mul(k, w + 1) == Mul(k, w) + k
  {
    if k > 0 {
      MulSuccStride(k - 1, w);
    }
  }

  /** `j` is the index of one of the first n ads when ads are `stride` apart. */
  predicate AtSlot(j: nat, n: nat, stride: nat)
  {
    exists k :: 0 <= k < n && j == Mul(k, stride)
  }

  /** For k <= n, k whole chunks of m / n entries fit in m entries. */
  lemma ChunksFit(m: nat, n: nat, k: nat)
    requires 0 < n && k <= n
    ensures Mul(k, m / n) <= m
  {
    MulMonotone(k, n, m / n);
    MulIsProduct(n, m / n);
  }

  /**
   * Before the k-th insertion the list holds m + k entries, and the insertion
   * index k * offset never exceeds that: `add(index, ad)` never throws.
   */
  lemma InsertIndexInBounds(m: nat, n: nat, k: nat)
    requires 0 < n && k < n
    ensures Mul(k, Offset(m, n)) <= m + k
  {
    ChunksFit(m, n, k);
    MulSuccStride(k, m / n);
  }

  /**
   * The reference layout with stride w + 1: ad, w entries of `orig`, ad,
   * w entries, ..., last ad, all the remaining entries of `orig`.
   */
  function Blocks(orig: seq<Item>, ads: seq<NativeAd>, w: nat): (r: seq<Item>)
    requires |ads| == 0 || Mul(|ads| - 1, w) <= |orig|
    decreases |ads|
  {
    if |ads| == 0 then orig
    else if |ads| == 1 then [Ad(ads[0])] + orig
    else [Ad(ads[0])] + orig[..w] + Blocks(orig[w..], ads[1..], w)
  }

  /** The list after `insertAdsInMenuItems`: unchanged without ads, else `Blocks` with stride `Offset`. */
  function Compose(orig: seq<Item>, ads: seq<NativeAd>): seq<Item>
  {
    if |ads| == 0 then orig
    else
      ChunksFit(|orig|, |ads|, |ads| - 1);
      Blocks(orig, ads, |orig| / |ads|)
  }

  lemma {:induction false} BlocksLength(orig: seq<Item>, ads: seq<NativeAd>, w: nat)
    requires |ads| == 0 || Mul(|ads| - 1, w) <= |orig|
    ensures |Blocks(orig, ads, w)| == |orig| + |ads|
    decreases |ads|
  {
    if |ads| >= 2 {
      BlocksLength(orig[w..], ads[1..], w);
    }
  }

  /** Ad k sits at index k * (w + 1). */
  lemma {:induction false} BlocksAdAt(orig: seq<Item>, ads: seq<NativeAd>, w: nat, k: nat)
    requires |ads| == 0 || Mul(|ads| - 1, w) <= |orig|
    requires k < |ads|
    ensures Mul(k, w + 1) < |Blocks(orig, ads, w)|
    ensures Blocks(orig, ads, w)[Mul(k, w + 1)] == Ad(ads[k])
    decreases |ads|
  {
    BlocksLength(orig, ads, w);
    if k > 0 {
      var rest := Blocks(orig[w..], ads[1..], w);
      BlocksAdAt(orig[w..], ads[1..], w, k - 1);
      var i := Mul(k - 1, w + 1);
      var head := [Ad(ads[0])] + orig[..w];
      assert |head| == 1 + w && Mul(k, w + 1) == |head| + i;
      assert Blocks(orig, ads, w) == head + rest;
      assert (head + rest)[|head| + i] == rest[i];
      assert ads[1..][k - 1] == ads[k];
    }
  }

  /** Every ad of an interleaving over an ad-free list sits at some k * (w + 1). */
  lemma {:induction false} BlocksAdsOnlyAtSlots(orig: seq<Item>, ads: seq<NativeAd>, w: nat, j: nat)
    requires |ads| == 0 || Mul(|ads| - 1, w) <= |orig|
    requires NoAds(orig)
    requires j < |Blocks(orig, ads, w)|
    ensures Blocks(orig, ads, w)[j].Ad? ==> AtSlot(j, |ads|, w + 1)
    decreases |ads|
  {
    BlocksLength(orig, ads, w);
    if |ads| == 0 {
      assert Blocks(orig, ads, w)[j] == orig[j];
    } else if j == 0 {
      assert j == Mul(0, w + 1);
    } else if |ads| == 1 {
      assert Blocks(orig, ads, w) == [Ad(ads[0])] + orig;
      assert Blocks(orig, ads, w)[j] == orig[j - 1];
    } else {
      var rest := Blocks(orig[w..], ads[1..], w);
      var head := [Ad(ads[0])] + orig[..w];
      assert |head| == 1 + w;
      assert Blocks(orig, ads, w) == head + rest;
      if j <= w {
        assert (head + rest)[j] == orig[j - 1];
      } else {
        var i := j - |head|;
        assert (head + rest)[j] == rest[i];
        if rest[i].Ad? {
          assert NoAds(orig[w..]);
          BlocksAdsOnlyAtSlots(orig[w..], ads[1..], w, i);
          var k' :| 0 <= k' < |ads| - 1 && i == Mul(k', w + 1);
          assert j == Mul(k' + 1, w + 1);
          assert 0 <= k' + 1 < |ads|;
        }
      }
    }
  }

  /** The interleaving drops no menu entry and reorders none. */
  lemma {:induction false} BlocksKeepsMenuItems(orig: seq<Item>, ads: seq<NativeAd>, w: nat)
    requires |ads| == 0 || Mul(|ads| - 1, w) <= |orig|
    ensures RemoveAds(Blocks(orig, ads, w)) == RemoveAds(orig)
    decreases |ads|
  {
    if |ads| == 1 {
      assert ([Ad(ads[0])] + orig)[1..] == orig;
    } else if |ads| >= 2 {
      var rest := Blocks(orig[w..], ads[1..], w);
      BlocksKeepsMenuItems(orig[w..], ads[1..], w);
      RemoveAdsAppend([Ad(ads[0])] + orig[..w], rest);
      RemoveAdsAppend([Ad(ads[0])], orig[..w]);
      RemoveAdsAppend(orig[..w], orig[w..]);
      assert orig[..w] + orig[w..] == orig;
    }
  }

  /** Over an ad-free list, the ads of the interleaving are exactly `ads`, in order. */
  lemma {:induction false} BlocksAds(orig: seq<Item>, ads: seq<NativeAd>, w: nat)
    requires |ads| == 0 || Mul(|ads| - 1, w) <= |orig|
    requires NoAds(orig)
    ensures AdsOf(Blocks(orig, ads, w)) == ads
    decreases |ads|
  {
    if |ads| == 0 {
      AdsOfMenuOnly(orig);
    } else if |ads| == 1 {
      AdsOfMenuOnly(orig);
      assert ([Ad(ads[0])] + orig)[1..] == orig;
    } else {
      var rest := Blocks(orig[w..], ads[1..], w);
      assert NoAds(orig[..w]) && NoAds(orig[w..]);
      BlocksAds(orig[w..], ads[1..], w);
      AdsOfMenuOnly(orig[..w]);
      AdsOfAppend([Ad(ads[0])] + orig[..w], rest);
      AdsOfAppend([Ad(ads[0])], orig[..w]);
      assert AdsOf([Ad(ads[0])]) == [ads[0]];
      assert [ads[0]] + ads[1..] == ads;
    }
  }

  /**
   * One more round of the source's loop: inserting the next ad at
   * |ads| * (w + 1) into the layout of `ads` gives the layout of `ads + [a]`.
   */
  lemma {:induction false} BlocksAppend(orig: seq<Item>, ads: seq<NativeAd>, a: NativeAd, w: nat)
    requires Mul(|ads|, w) <= |orig|
    ensures |ads| == 0 || Mul(|ads| - 1, w) <= |orig|
    ensures Mul(|ads|, w + 1) <= |Blocks(orig, ads, w)|
    ensures InsertAt(Blocks(orig, ads, w), Mul(|ads|, w + 1), Ad(a)) == Blocks(orig, ads + [a], w)
    decreases |ads|
  {
    BlocksLength(orig, ads, w);
    MulSuccStride(|ads|, w);
    if |ads| == 0 {
      assert ads + [a] == [a];
      assert InsertAt(orig, 0, Ad(a)) == [Ad(a)] + orig;
    } else if |ads| == 1 {
      var i := Mul(1, w + 1);
      assert i == w + 1 && w <= |orig|;
      var s := [Ad(ads[0])] + orig;
      assert s[..i] == [Ad(ads[0])] + orig[..w];
      assert s[i..] == orig[w..];
      assert (ads + [a])[1..] == [a];
      assert Blocks(orig[w..], [a], w) == [Ad(a)] + orig[w..];
    } else {
      var rest := Blocks(orig[w..], ads[1..], w);
      BlocksAppend(orig[w..], ads[1..], a, w);
      BlocksAppendStep(orig, ads, a, w, rest);
    }
  }

  /** The case of at least two ads in BlocksAppend: the new ad lands in the tail after the first block. */
  lemma BlocksAppendStep(orig: seq<Item>, ads: seq<NativeAd>, a: NativeAd, w: nat, rest: seq<Item>)
    requires |ads| >= 2 && Mul(|ads|, w) <= |orig|
    requires Mul(|ads| - 1, w) <= |orig|
    requires rest == Blocks(orig[w..], ads[1..], w)
    requires Mul(|ads| - 1, w + 1) <= |rest|
    requires InsertAt(rest, Mul(|ads| - 1, w + 1), Ad(a)) == Blocks(orig[w..], ads[1..] + [a], w)
    ensures Mul(|ads|, w + 1) <= |Blocks(orig, ads, w)|
    ensures InsertAt(Blocks(orig, ads, w), Mul(|ads|, w + 1), Ad(a)) == Blocks(orig, ads + [a], w)
  {
    var p := Mul(|ads| - 1, w + 1);
    var head := [Ad(ads[0])] + orig[..w];
    assert |head| == 1 + w;
    assert Mul(|ads|, w + 1) == |head| + p;
    assert (ads + [a])[1..] == ads[1..] + [a];
    assert Blocks(orig, ads, w) == head + rest;
    assert Blocks(orig, ads + [a], w) == head + InsertAt(rest, p, Ad(a));
    assert (head + rest)[..|head| + p] == head + rest[..p];
    assert (head + rest)[|head| + p..] == rest[p..];
  }

  /** The composed list has M + N entries. */
  lemma ComposeLength(orig: seq<Item>, ads: seq<NativeAd>)
    ensures |Compose(orig, ads)| == |orig| + |ads|
  {
    if |ads| > 0 {
      ChunksFit(|orig|, |ads|, |ads| - 1);
      BlocksLength(orig, ads, |orig| / |ads|);
    }
  }

  /** Ad k ends up at index k * offset. */
  lemma ComposeAdAt(orig: seq<Item>, ads: seq<NativeAd>, k: nat)
    requires k < |ads|
    ensures Mul(k, Offset(|orig|, |ads|)) < |Compose(orig, ads)|
    ensures Compose(orig, ads)[Mul(k, Offset(|orig|, |ads|))] == Ad(ads[k])
  {
    ChunksFit(|orig|, |ads|, |ads| - 1);
    BlocksAdAt(orig, ads, |orig| / |ads|, k);
  }

  /** Over an ad-free list, an entry is an ad exactly when its index is k * offset for some ad k. */
  lemma ComposeAdPositions(orig: seq<Item>, ads: seq<NativeAd>, j: nat)
    requires NoAds(orig) && |ads| > 0
    requires j < |orig| + |ads|
    ensures j < |Compose(orig, ads)|
    ensures Compose(orig, ads)[j].Ad? <==> AtSlot(j, |ads|, Offset(|orig|, |ads|))
  {
    ComposeLength(orig, ads);
    var w := |orig| / |ads|;
    ChunksFit(|orig|, |ads|, |ads| - 1);
    BlocksAdsOnlyAtSlots(orig, ads, w, j);
    assert Offset(|orig|, |ads|) == w + 1;
    if AtSlot(j, |ads|, w + 1) {
      var k :| 0 <= k < |ads| && j == Mul(k, Offset(|orig|, |ads|));
      BlocksAdAt(orig, ads, w, k);
    }
  }

  /** Dropping the ads from the composed list gives back the original list's menu entries, in order. */
  lemma ComposeKeepsMenuItems(orig: seq<Item>, ads: seq<NativeAd>)
    ensures RemoveAds(Compose(orig, ads)) == RemoveAds(orig)
    ensures NoAds(orig) ==> RemoveAds(Compose(orig, ads)) == orig
  {
    if |ads| > 0 {
      ChunksFit(|orig|, |ads|, |ads| - 1);
      BlocksKeepsMenuItems(orig, ads, |orig| / |ads|);
    }
    if NoAds(orig) {
      RemoveAdsOfMenuOnly(orig);
    }
  }

  /** Over an ad-free list every loaded ad appears exactly once, in arrival order. */
  lemma ComposeAds(orig: seq<Item>, ads: seq<NativeAd>)
    requires NoAds(orig)
    ensures AdsOf(Compose(orig, ads)) == ads
  {
    if |ads| > 0 {
      ChunksFit(|orig|, |ads|, |ads| - 1);
      BlocksAds(orig, ads, |orig| / |ads|);
    } else {
      AdsOfMenuOnly(orig);
    }
  }

  /**
   * The activity's two lists. `dataList` backs the scrolling list;
   * `nativeAds` accumulates the ads that loaded. `screensShown` counts the
   * calls of `showScreen` and `shownList` is the list it was shown with.
   */
  class MainActivity {
    var dataList: seq<Item>
    var nativeAds: seq<NativeAd>
    ghost var screensShown: nat
    ghost var shownList: seq<Item>

    /** The activity once the bundled menu has been parsed into `menu`; no ad has loaded yet. */
    constructor (menu: seq<MenuItem>)
      ensures dataList == MenuEntries(menu) && NoAds(dataList)
      ensures nativeAds == [] && screensShown == 0 && shownList == []
    {
      dataList := MenuEntries(menu);
      nativeAds := [];
      screensShown := 0;
      shownList := [];
    }

    /** Replaces the loading screen with the list: recorded, not performed. */
    method ShowScreen()
      modifies this`screensShown, this`shownList
      ensures screensShown == old(screensShown) + 1 && shownList == dataList
    {
      screensShown := screensShown + 1;
      shownList := dataList;
    }

    method InsertAdsInMenuItems()
      modifies this
      ensures nativeAds == old(nativeAds)
      ensures old(|nativeAds|) == 0 ==>
        dataList == old(dataList) && screensShown == old(screensShown) && shownList == old(shownList)
      ensures old(|nativeAds|) > 0 ==>
        dataList == Compose(old(dataList), nativeAds) &&
        screensShown == old(screensShown) + 1 && shownList == dataList
      ensures |dataList| == old(|dataList|) + |nativeAds|
    {
      if |nativeAds| <= 0 {
        return;
      }
      ghost var orig := dataList;
      var offset := |dataList| / |nativeAds| + 1;
      assert offset == Offset(|orig|, |nativeAds|);
      var index := 0;
      var k := 0;
      while k < |nativeAds|
        invariant k <= |nativeAds| && nativeAds == old(nativeAds)
        invariant index == Mul(k, offset)
        invariant Mul(k, offset - 1) <= |orig|
        invariant dataList == Blocks(orig, nativeAds[..k], offset - 1)
        invariant |dataList| == |orig| + k
        invariant screensShown == old(screensShown) && shownList == old(shownList)
      {
        InsertIndexInBounds(|orig|, |nativeAds|, k);
        BlocksAppend(orig, nativeAds[..k], nativeAds[k], offset - 1);
        assert nativeAds[..k] + [nativeAds[k]] == nativeAds[..k + 1];
        dataList := InsertAt(dataList, index, Ad(nativeAds[k]));
        index := index + offset;
        k := k + 1;
        ChunksFit(|orig|, |nativeAds|, k);
      }
      assert nativeAds[..k] == nativeAds;
      ShowScreen();
    }

    /** The SDK callback for an ad that loaded; `isLoading` is the loader's state after it. */
    method OnNativeAdLoaded(ad: NativeAd, isLoading: bool)
      modifies this
      ensures nativeAds == old(nativeAds) + [ad]
      ensures isLoading ==>
        dataList == old(dataList) && screensShown == old(screensShown) && shownList == old(shownList)
      ensures !isLoading ==>
        dataList == Compose(old(dataList), nativeAds) &&
        screensShown == old(screensShown) + 1 && shownList == dataList
    {
      nativeAds := nativeAds + [ad];
      if !isLoading {
        InsertAdsInMenuItems();
      }
    }

    /** The SDK callback for an ad that failed to load: logged, not retried. */
    method OnAdFailedToLoad(isLoading: bool)
      modifies this
      ensures nativeAds == old(nativeAds)
      ensures isLoading || |nativeAds| == 0 ==>
        dataList == old(dataList) && screensShown == old(screensShown) && shownList == old(shownList)
      ensures !isLoading && |nativeAds| > 0 ==>
        dataList == Compose(old(dataList), nativeAds) &&
        screensShown == old(screensShown) + 1 && shownList == dataList
    {
      if !isLoading {
        InsertAdsInMenuItems();
      }
    }
  }
}
