/**
 * The list adapter: maps each position of the composed list to a view type,
 * creates the matching view holder for a view type, and fills a recycled
 * holder with the item at a position. The adapter only reads the item list
 * it is given; only the views are changed by binding. The source's adapter
 * reads the activity's own list through an alias; here it holds a copy of
 * that list taken when the adapter is created.
 */
module Adapter {
  import opened Wrappers
  import opened Items
  import Composer

  const MENU_ITEM_VIEW_TYPE: int := 0
  const UNIFIED_NATIVE_AD_VIEW_TYPE: int := 1

  datatype Visibility = Visible | Invisible

  /** What one optional slot of an ad view shows: its content, or nothing. */
  datatype Shown<T> = Shown(content: T) | Hidden

  /** The five assets an ad may or may not carry. */
  datatype Asset = Icon | Price | Store | StarRating | Advertiser

  /** The two holder layouts. */
  datatype ViewKind = MenuItemView | NativeAdView

  /** What binding reports: done, or the holder cast threw (the holder has the wrong layout). */
  datatype BindResult = Bound | ClassCastError

  /** What the user sees of a bound ad view. */
  datatype AdDisplay = AdDisplay(
    headline: string,
    body: string,
    callToAction: string,
    icon: Shown<Drawable>,
    price: Shown<string>,
    store: Shown<string>,
    starRating: Shown<real>,
    advertiser: Shown<string>)

  /** The shown state of a slot: its content when visible, nothing when invisible. */
  function SlotShows<T>(visibility: Visibility, content: T): (s: Shown<T>)
    ensures s.Shown? <==> visibility == Visible
    ensures s.Shown? ==> s.content == content
  {
    if visibility == Visible then Shown(content) else Hidden
  }

  /** An optional asset: hidden when null, shown with its own value otherwise. */
  function OptionalAsset<T>(field: Option<T>): (s: Shown<T>)
    ensures s.Hidden? <==> field.None?
    ensures field.Some? ==> s == Shown(field.value)
  {
    match field
    case None => Hidden
    case Some(v) => Shown(v)
  }

  /** What a bound ad view is to show for `ad`. */
  function AdDisplayOf(ad: NativeAd): AdDisplay
  {
    AdDisplay(ad.headline, ad.body, ad.callToAction,
      OptionalAsset(ad.icon), OptionalAsset(ad.price), OptionalAsset(ad.store),
      OptionalAsset(ad.starRating), OptionalAsset(ad.advertiser))
  }

  /** The optional assets `ad` carries. */
  function PresentAssets(ad: NativeAd): (r: set<Asset>)
    ensures Icon in r <==> ad.icon.Some?
    ensures Price in r <==> ad.price.Some?
    ensures Store in r <==> ad.store.Some?
    ensures StarRating in r <==> ad.starRating.Some?
    ensures Advertiser in r <==> ad.advertiser.Some?
  {
    (if ad.icon.Some? then {Icon} else {}) +
    (if ad.price.Some? then {Price} else {}) +
    (if ad.store.Some? then {Store} else {}) +
    (if ad.starRating.Some? then {StarRating} else {}) +
    (if ad.advertiser.Some? then {Advertiser} else {})
  }

  /** The optional slots a display shows. */
  function VisibleSlots(d: AdDisplay): (r: set<Asset>)
    ensures Icon in r <==> d.icon.Shown?
    ensures Price in r <==> d.price.Shown?
    ensures Store in r <==> d.store.Shown?
    ensures StarRating in r <==> d.starRating.Shown?
    ensures Advertiser in r <==> d.advertiser.Shown?
  {
    (if d.icon.Shown? then {Icon} else {}) +
    (if d.price.Shown? then {Price} else {}) +
    (if d.store.Shown? then {Store} else {}) +
    (if d.starRating.Shown? then {StarRating} else {}) +
    (if d.advertiser.Shown? then {Advertiser} else {})
  }

  /** Whatever subset of the optional assets an ad carries, exactly those slots are shown. */
  lemma VisibleSlotsArePresentAssets(ad: NativeAd)
    ensures VisibleSlots(AdDisplayOf(ad)) == PresentAssets(ad)
  {
  }

  /**
   * The five checks are independent: changing one optional asset of an ad
   * changes that slot of its display and nothing else.
   */
  lemma AssetChecksIndependent(ad: NativeAd, icon: Option<Drawable>, price: Option<string>,
                               store: Option<string>, starRating: Option<real>, advertiser: Option<string>)
    ensures AdDisplayOf(ad.(icon := icon)) == AdDisplayOf(ad).(icon := OptionalAsset(icon))
    ensures AdDisplayOf(ad.(price := price)) == AdDisplayOf(ad).(price := OptionalAsset(price))
    ensures AdDisplayOf(ad.(store := store)) == AdDisplayOf(ad).(store := OptionalAsset(store))
    ensures AdDisplayOf(ad.(starRating := starRating)) == AdDisplayOf(ad).(starRating := OptionalAsset(starRating))
    ensures AdDisplayOf(ad.(advertiser := advertiser)) == AdDisplayOf(ad).(advertiser := OptionalAsset(advertiser))
  {
  }

  /**
   * A native ad view: the three text views that every ad fills and the five
   * optional asset views, each with its visibility. A hidden slot keeps
   * whatever it held before; it is simply not shown.
   */
  class UnifiedNativeAdView {
    var headline: string
    var body: string
    var callToAction: string
    var icon: Drawable
    var iconVisibility: Visibility
    var price: string
    var priceVisibility: Visibility
    var store: string
    var storeVisibility: Visibility
    var starRating: real
    var starRatingVisibility: Visibility
    var advertiser: string
    var advertiserVisibility: Visibility

    /** A freshly inflated view; its placeholder content is the layout's and is left blank here. */
    constructor ()
    {
      headline, body, callToAction := "", "", "";
      icon, iconVisibility := Drawable(0), Visible;
      price, priceVisibility := "", Visible;
      store, storeVisibility := "", Visible;
      starRating, starRatingVisibility := 0.0, Visible;
      advertiser, advertiserVisibility := "", Visible;
    }

    /** What the user sees of this view. */
    function Displayed(): AdDisplay
      reads this
    {
      AdDisplay(headline, body, callToAction,
        SlotShows(iconVisibility, icon), SlotShows(priceVisibility, price),
        SlotShows(storeVisibility, store), SlotShows(starRatingVisibility, starRating),
        SlotShows(advertiserVisibility, advertiser))
    }

    /**
     * The state `populateNativeAdView` leaves: the required texts are the ad's,
     * each optional slot is visible holding the asset or invisible, and an
     * invisible slot's content is what it was.
     */
    twostate predicate PopulatedWith(ad: NativeAd)
      reads this
    {
      && headline == ad.headline && body == ad.body && callToAction == ad.callToAction
      && iconVisibility == (if ad.icon.Some? then Visible else Invisible)
      && icon == (if ad.icon.Some? then ad.icon.value else old(icon))
      && priceVisibility == (if ad.price.Some? then Visible else Invisible)
      && price == (if ad.price.Some? then ad.price.value else old(price))
      && storeVisibility == (if ad.store.Some? then Visible else Invisible)
      && store == (if ad.store.Some? then ad.store.value else old(store))
      && starRatingVisibility == (if ad.starRating.Some? then Visible else Invisible)
      && starRating == (if ad.starRating.Some? then ad.starRating.value else old(starRating))
      && advertiserVisibility == (if ad.advertiser.Some? then Visible else Invisible)
      && advertiser == (if ad.advertiser.Some? then ad.advertiser.value else old(advertiser))
    }

    method PopulateNativeAdView(ad: NativeAd)
      modifies this
      ensures PopulatedWith(ad)
      ensures Displayed() == AdDisplayOf(ad)
    {
      // Headline, body and call to action: always present, always filled.
      headline := ad.headline;
      body := ad.body;
      callToAction := ad.callToAction;

      // The five optional assets: one independent null check each.
      SetIcon(ad.icon);
      SetPrice(ad.price);
      SetStore(ad.store);
      SetStarRating(ad.starRating);
      SetAdvertiser(ad.advertiser);
    }

    method SetIcon(asset: Option<Drawable>)
      modifies this`icon, this`iconVisibility
      ensures iconVisibility == (if asset.Some? then Visible else Invisible)
      ensures icon == (if asset.Some? then asset.value else old(icon))
      ensures SlotShows(iconVisibility, icon) == OptionalAsset(asset)
    {
      if asset.None? {
        iconVisibility := Invisible;
      } else {
        icon := asset.value;
        iconVisibility := Visible;
      }
    }

    method SetPrice(asset: Option<string>)
      modifies this`price, this`priceVisibility
      ensures priceVisibility == (if asset.Some? then Visible else Invisible)
      ensures price == (if asset.Some? then asset.value else old(price))
      ensures SlotShows(priceVisibility, price) == OptionalAsset(asset)
    {
      if asset.None? {
        priceVisibility := Invisible;
      } else {
        priceVisibility := Visible;
        price := asset.value;
      }
    }

    method SetStore(asset: Option<string>)
      modifies this`store, this`storeVisibility
      ensures storeVisibility == (if asset.Some? then Visible else Invisible)
      ensures store == (if asset.Some? then asset.value else old(store))
      ensures SlotShows(storeVisibility, store) == OptionalAsset(asset)
    {
      if asset.None? {
        storeVisibility := Invisible;
      } else {
        storeVisibility := Visible;
        store := asset.value;
      }
    }

    method SetStarRating(asset: Option<real>)
      modifies this`starRating, this`starRatingVisibility
      ensures starRatingVisibility == (if asset.Some? then Visible else Invisible)
      ensures starRating == (if asset.Some? then asset.value else old(starRating))
      ensures SlotShows(starRatingVisibility, starRating) == OptionalAsset(asset)
    {
      if asset.None? {
        starRatingVisibility := Invisible;
      } else {
        starRating := asset.value;
        starRatingVisibility := Visible;
      }
    }

    method SetAdvertiser(asset: Option<string>)
      modifies this`advertiser, this`advertiserVisibility
      ensures advertiserVisibility == (if asset.Some? then Visible else Invisible)
      ensures advertiser == (if asset.Some? then asset.value else old(advertiser))
      ensures SlotShows(advertiserVisibility, advertiser) == OptionalAsset(asset)
    {
      if asset.None? {
        advertiserVisibility := Invisible;
      } else {
        advertiser := asset.value;
        advertiserVisibility := Visible;
      }
    }
  }

  /** A menu item view: four text views and the image, named by its resource name. */
  class MenuItemViewHolder {
    var name: string
    var description: string
    var price: string
    var category: string
    var imageName: string

    /** A freshly inflated view; its placeholder content is the layout's and is left blank here. */
    constructor ()
    {
      name, description, price, category, imageName := "", "", "", "", "";
    }

    /** The view shows `item`'s fields verbatim. */
    ghost predicate Shows(item: MenuItem)
      reads this
    {
      name == item.name && description == item.description && price == item.price
      && category == item.category && imageName == item.imageName
    }
  }

  /** A view holder, of one of the two layouts. */
  datatype ViewHolder = AdViewHolder(adView: UnifiedNativeAdView) | MenuViewHolder(menuView: MenuItemViewHolder)
  {
    function Kind(): ViewKind
    {
      if AdViewHolder? then NativeAdView else MenuItemView
    }

    function Views(): set<object>
    {
      if AdViewHolder? then {adView} else {menuView}
    }
  }

  /** The layout `onCreateViewHolder` inflates for a view type: the ad layout for 1, the menu layout otherwise. */
  function ViewKindFor(viewType: int): (k: ViewKind)
    ensures k == NativeAdView <==> viewType == UNIFIED_NATIVE_AD_VIEW_TYPE
    ensures k == MenuItemView <==> viewType != UNIFIED_NATIVE_AD_VIEW_TYPE
  {
    if viewType == UNIFIED_NATIVE_AD_VIEW_TYPE then NativeAdView
    else if viewType == MENU_ITEM_VIEW_TYPE then MenuItemView
    else MenuItemView
  }

  /**
   * The adapter over the list of menu items and ads, which it only reads.
   * `items` is a copy of the list it is created with.
   */
  class ListAdapter {
    const items: seq<Item>

    constructor (items: seq<Item>)
      ensures this.items == items
    {
      this.items := items;
    }

    function ItemCount(): (n: nat)
      ensures n == |items|
    {
      |items|
    }

    /** 1 for an ad, 0 for a menu item. */
    function ItemViewType(position: int): (t: int)
      requires 0 <= position < |items|
      ensures t == UNIFIED_NATIVE_AD_VIEW_TYPE <==> items[position].Ad?
      ensures t == MENU_ITEM_VIEW_TYPE <==> items[position].Menu?
    {
      if items[position].Ad? then UNIFIED_NATIVE_AD_VIEW_TYPE else MENU_ITEM_VIEW_TYPE
    }

    method OnCreateViewHolder(viewType: int) returns (holder: ViewHolder)
      ensures holder.Kind() == ViewKindFor(viewType)
      ensures fresh(holder.Views())
    {
      if viewType == UNIFIED_NATIVE_AD_VIEW_TYPE {
        var adView := new UnifiedNativeAdView();
        holder := AdViewHolder(adView);
      } else if viewType == MENU_ITEM_VIEW_TYPE {
        var menuView := new MenuItemViewHolder();
        holder := MenuViewHolder(menuView);
      } else {
        var menuView := new MenuItemViewHolder();
        holder := MenuViewHolder(menuView);
      }
    }

    /**
     * Fills `holder` with the item at `position`. The menu branch and the
     * source's `else` branch are the same code, so they are one branch here.
     * The item list is not in the frame: binding does not change it.
     */
    method OnBindViewHolder(holder: ViewHolder, position: int) returns (result: BindResult)
      requires 0 <= position < |items|
      modifies holder.Views()
      ensures result == Bound <==> holder.Kind() == ViewKindFor(ItemViewType(position))
      ensures result == ClassCastError ==> unchanged(holder.Views())
      ensures result == Bound && items[position].Ad? ==>
        holder.adView.PopulatedWith(items[position].ad) &&
        holder.adView.Displayed() == AdDisplayOf(items[position].ad)
      ensures result == Bound && items[position].Menu? ==>
        holder.menuView.Shows(items[position].menu)
    {
      if ItemViewType(position) == UNIFIED_NATIVE_AD_VIEW_TYPE {
        var nativeAd := items[position].ad;
        match holder
        case AdViewHolder(adView) =>
          adView.PopulateNativeAdView(nativeAd);
          result := Bound;
        case MenuViewHolder(_) =>
          result := ClassCastError;
      } else {
        match holder
        case MenuViewHolder(menuItemHolder) =>
          var menuItem := items[position].menu;
          menuItemHolder.imageName := menuItem.imageName;
          menuItemHolder.name := menuItem.name;
          menuItemHolder.price := menuItem.price;
          menuItemHolder.category := menuItem.category;
          menuItemHolder.description := menuItem.description;
          result := Bound;
        case AdViewHolder(_) =>
          result := ClassCastError;
      }
    }
  }

  /** A holder created for a position's view type has the layout that position's item needs. */
  lemma CreatedHolderMatchesItem(adapter: ListAdapter, position: int)
    requires 0 <= position < |adapter.items|
    ensures ViewKindFor(adapter.ItemViewType(position)) == NativeAdView <==> adapter.items[position].Ad?
  {
  }

  /**
   * The adapter over the composed list: one row per menu item and ad, and
   * the row at k * offset has the ad view type.
   */
  lemma AdapterOverComposedList(adapter: ListAdapter, menu: seq<MenuItem>, ads: seq<NativeAd>, k: nat)
    requires adapter.items == Composer.Compose(MenuEntries(menu), ads)
    requires k < |ads|
    ensures adapter.ItemCount() == |menu| + |ads|
    ensures Composer.Mul(k, Composer.Offset(|menu|, |ads|)) < adapter.ItemCount()
    ensures adapter.ItemViewType(Composer.Mul(k, Composer.Offset(|menu|, |ads|))) == UNIFIED_NATIVE_AD_VIEW_TYPE
  {
    Composer.ComposeLength(MenuEntries(menu), ads);
    Composer.ComposeAdAt(MenuEntries(menu), ads, k);
  }
}
