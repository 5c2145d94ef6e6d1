/** Option, for the nullable fields of a loaded native ad. */
module Wrappers {
  datatype Option<+T> = None | Some(value: T)
}

/**
 * The two kinds of entry of the scrolling list: a menu item read from the
 * bundled menu file, and a native ad handed over by the ad SDK.
 */
module Items {
  import opened Wrappers

  /** An immutable menu record; `imageName` names a drawable resource. */
  datatype MenuItem = MenuItem(
    name: string,
    description: string,
    price: string,
    category: string,
    imageName: string)

  /** The icon's drawable, an opaque SDK image. */
  datatype Drawable = Drawable(id: nat)

  /**
   * A loaded native ad. `id` stands for the identity of the SDK object.
   * Headline, body and call to action are always present; the other five
   * assets may be null in the SDK and are `None` here.
   */
  datatype NativeAd = NativeAd(
    id: nat,
    headline: string,
    body: string,
    callToAction: string,
    icon: Option<Drawable>,
    price: Option<string>,
    store: Option<string>,
    starRating: Option<real>,
    advertiser: Option<string>)

  /** An entry of the heterogeneous list (the Kotlin list is a `List<Any>`). */
  datatype Item = Menu(menu: MenuItem) | Ad(ad: NativeAd)

  /** The entries of `s` that are menu items, in order, ads dropped. */
  function RemoveAds(s: seq<Item>): (r: seq<Item>)
    ensures |r| <= |s|
    ensures forall i :: 0 <= i < |r| ==> r[i].Menu?
  {
    if s == [] then []
    else if s[0].Menu? then [s[0]] + RemoveAds(s[1..])
    else RemoveAds(s[1..])
  }

  /** The ads of `s`, in order. */
  function AdsOf(s: seq<Item>): (r: seq<NativeAd>)
    ensures |r| <= |s|
  {
    if s == [] then []
    else if s[0].Ad? then [s[0].ad] + AdsOf(s[1..])
    else AdsOf(s[1..])
  }

  /** `s` holds menu items only, as the list does before any ad is inserted. */
  predicate NoAds(s: seq<Item>)
  {
    forall i :: 0 <= i < |s| ==> s[i].Menu?
  }

  /** The list entries for a sequence of parsed menu items. */
  function MenuEntries(menu: seq<MenuItem>): (r: seq<Item>)
    ensures |r| == |menu| && NoAds(r)
    ensures forall i :: 0 <= i < |r| ==> r[i] == Menu(menu[i])
  {
    seq(|menu|, i requires 0 <= i < |menu| => Menu(menu[i]))
  }

  lemma {:induction false} RemoveAdsAppend(a: seq<Item>, b: seq<Item>)
    ensures RemoveAds(a + b) == RemoveAds(a) + RemoveAds(b)
  {
    if a == [] {
      assert a + b == b;
    } else {
      assert (a + b)[0] == a[0] && (a + b)[1..] == a[1..] + b;
      RemoveAdsAppend(a[1..], b);
    }
  }

  lemma {:induction false} AdsOfAppend(a: seq<Item>, b: seq<Item>)
    ensures AdsOf(a + b) == AdsOf(a) + AdsOf(b)
  {
    if a == [] {
      assert a + b == b;
    } else {
      assert (a + b)[0] == a[0] && (a + b)[1..] == a[1..] + b;
      AdsOfAppend(a[1..], b);
    }
  }

  /** Dropping the ads of an ad-free list gives the list back. */
  lemma {:induction false} RemoveAdsOfMenuOnly(s: seq<Item>)
    requires NoAds(s)
    ensures RemoveAds(s) == s
  {
    if s != [] {
      RemoveAdsOfMenuOnly(s[1..]);
    }
  }

  /** An ad-free list contributes no ads. */
  lemma {:induction false} AdsOfMenuOnly(s: seq<Item>)
    requires NoAds(s)
    ensures AdsOf(s) == []
  {
    if s != [] {
      AdsOfMenuOnly(s[1..]);
    }
  }
}
