# Native ads in a menu list: a Dafny model

This project models the two pieces of logic in the Android sample that shows
native ads inside a scrolling restaurant menu:

- **The list composer** (`MainActivity`). Ads that finish loading are appended
  to `nativeAds` in arrival order. Once the ad loader reports that it is no
  longer loading, `insertAdsInMenuItems` interleaves the N ads into the M menu
  entries of `dataList`. It computes `offset = M / N + 1` with integer
  division and inserts ad k with `dataList.add(k * offset, ad)`. Then it shows
  the list screen.
- **The list adapter** (`ListAdapter`). It gives the number of rows and the
  view type of each row (1 for an ad, 0 for a menu item). It picks the layout
  for a view type and fills a recycled view holder from the item at a
  position. An ad always fills headline, body and call to action. Each of
  its five optional assets (icon, price, store, star rating, advertiser)
  makes its slot visible with the asset when present, and invisible when
  null.

Files:

- `items.dfy`: module `Wrappers` (`Option`) and module `Items`. `Items` holds
  the menu record, the ad record, the list entry `Item = Menu | Ad` and the
  filters `RemoveAds` / `AdsOf`.
- `composer.dfy`: module `Composer` with the `MainActivity` class. It also
  holds the reference layout `Blocks` / `Compose` and the lemmas about it.
  `Blocks` describes the result directly: ad 0, then M / N menu entries, then
  ad 1, then M / N entries, and so on. The last ad is followed by all the
  remaining entries. `InsertAdsInMenuItems` runs the source's loop, one
  insertion per ad. Its loop invariant is that the list equals `Blocks` over
  the ads inserted so far.
- `adapter.dfy`: module `Adapter`. It has the `ListAdapter` class over a
  read-only item list, the two view classes, and the pure description
  `AdDisplayOf` of what a bound ad view shows.

`Mul(k, w)` is `k * w` written as k additions of w. It is also the value of
`index` after k rounds of `index += w`. `MulIsProduct` proves that it equals
the product. Keeping it recursive keeps the list proofs free of nonlinear
arithmetic.

`ArrayList.add(index, x)` throws when `index > size`, and the code has no
clamp. The model follows the code: `InsertAt` requires `i <= |s|`.
`InsertIndexInBounds` proves that `k * offset <= M + k` for every `k < N`, so
the throw never happens.

## Model

| member | source | states |
|---|---|---|
| `Composer.InsertAt` | app/src/main/java/com/google/android/gms/example/nativeadvancedrecyclerviewexample/MainActivity.kt:83 | `add(i, x)` is defined only for `i <= size`; after it, x is at i, earlier entries stay where they were, later ones move one place to the right |
| `Composer.Offset` | app/src/main/java/com/google/android/gms/example/nativeadvancedrecyclerviewexample/MainActivity.kt:80 | the stride is at least 1 and is the integer quotient plus one: `(offset - 1) * N <= M < offset * N` |
| `Composer.MulIsProduct` | app/src/main/java/com/google/android/gms/example/nativeadvancedrecyclerviewexample/MainActivity.kt:81-84 | after k rounds of `index += offset`, starting from 0, `index` is `k * offset` |
| `Composer.ChunksFit` | app/src/main/java/com/google/android/gms/example/nativeadvancedrecyclerviewexample/MainActivity.kt:80 | for k <= N, k chunks of M / N entries fit in the M entries |
| `Composer.InsertIndexInBounds` | app/src/main/java/com/google/android/gms/example/nativeadvancedrecyclerviewexample/MainActivity.kt:80-85 | before the k-th insertion (k < N) the index `k * offset` is at most the list size `M + k`, so `add` never throws |
| `Composer.BlocksAppend` | app/src/main/java/com/google/android/gms/example/nativeadvancedrecyclerviewexample/MainActivity.kt:82-85 | one loop round: inserting the next ad at `k * offset` into the layout of the first k ads gives the layout of the first k + 1 ads |
| `Composer.ComposeLength` | app/src/main/java/com/google/android/gms/example/nativeadvancedrecyclerviewexample/MainActivity.kt:82-85 | the composed list has M + N entries |
| `Composer.ComposeAdAt` | app/src/main/java/com/google/android/gms/example/nativeadvancedrecyclerviewexample/MainActivity.kt:82-85 | ad k is at index `k * offset` of the final list, for every k < N: later insertions land to its right |
| `Composer.ComposeAdPositions` | app/src/main/java/com/google/android/gms/example/nativeadvancedrecyclerviewexample/MainActivity.kt:82-85 | over a menu-only list, an entry of the final list is an ad if and only if its index is `k * offset` for some k < N |
| `Composer.ComposeKeepsMenuItems` | app/src/main/java/com/google/android/gms/example/nativeadvancedrecyclerviewexample/MainActivity.kt:83 | dropping the ads from the final list gives the original list's menu entries in their original order; for a menu-only list, the original list itself |
| `Composer.ComposeAds` | app/src/main/java/com/google/android/gms/example/nativeadvancedrecyclerviewexample/MainActivity.kt:82-84 | over a menu-only list, the ads of the final list are exactly `nativeAds`, each once, in arrival order |
| `Composer.MainActivity.constructor` | app/src/main/java/com/google/android/gms/example/nativeadvancedrecyclerviewexample/MainActivity.kt:45-48 | the data list starts as the parsed menu items (no ads), the ad list starts empty, and no screen has been shown |
| `Composer.MainActivity.ShowScreen` | app/src/main/java/com/google/android/gms/example/nativeadvancedrecyclerviewexample/MainActivity.kt:116-128 | showing the list screen is counted once, with the list as it is at that moment |
| `Composer.MainActivity.InsertAdsInMenuItems` | app/src/main/java/com/google/android/gms/example/nativeadvancedrecyclerviewexample/MainActivity.kt:76-88 | with no ads, nothing changes and no screen is shown; otherwise the list becomes `Compose(old list, nativeAds)` (M + N entries), `nativeAds` is unchanged, and the screen is shown exactly once, after all insertions |
| `Composer.MainActivity.OnNativeAdLoaded` | app/src/main/java/com/google/android/gms/example/nativeadvancedrecyclerviewexample/MainActivity.kt:93-98 | a loaded ad is appended to `nativeAds`; if the loader is done, the ads are interleaved and the screen shown once, else nothing else changes |
| `Composer.MainActivity.OnAdFailedToLoad` | app/src/main/java/com/google/android/gms/example/nativeadvancedrecyclerviewexample/MainActivity.kt:101-108 | a failed load adds no ad; if the loader is done, the ads loaded so far are interleaved (nothing happens if there are none) |
| `Adapter.ListAdapter.constructor` | app/src/main/java/com/google/android/gms/example/nativeadvancedrecyclerviewexample/ListAdapter.kt:37-43 | the adapter reads the item list it is given (a copy of it here, see "Left out") |
| `Adapter.ListAdapter.ItemCount` | app/src/main/java/com/google/android/gms/example/nativeadvancedrecyclerviewexample/ListAdapter.kt:56-58 | the row count is the length of the item list |
| `Adapter.ListAdapter.ItemViewType` | app/src/main/java/com/google/android/gms/example/nativeadvancedrecyclerviewexample/ListAdapter.kt:63-68 | the view type is 1 if and only if the item is an ad, and 0 if and only if it is a menu item |
| `Adapter.AdapterOverComposedList` | app/src/main/java/com/google/android/gms/example/nativeadvancedrecyclerviewexample/ListAdapter.kt:56-68 | over the composed list, the adapter has M + N rows and the row at `k * offset` has the ad view type |
| `Adapter.ViewKindFor` | app/src/main/java/com/google/android/gms/example/nativeadvancedrecyclerviewexample/ListAdapter.kt:74-93 | view type 1 gives the ad layout; 0 and every other value give the menu layout |
| `Adapter.ListAdapter.OnCreateViewHolder` | app/src/main/java/com/google/android/gms/example/nativeadvancedrecyclerviewexample/ListAdapter.kt:74-93 | the new holder is freshly allocated and has the layout `ViewKindFor(viewType)` |
| `Adapter.CreatedHolderMatchesItem` | app/src/main/java/com/google/android/gms/example/nativeadvancedrecyclerviewexample/ListAdapter.kt:74-93 | a holder created for a row's view type has the ad layout if and only if the row is an ad |
| `Adapter.ListAdapter.OnBindViewHolder` | app/src/main/java/com/google/android/gms/example/nativeadvancedrecyclerviewexample/ListAdapter.kt:99-134 | binding succeeds if and only if the holder has the row's layout; if not, the cast throws and no view changes. An ad row is populated as `PopulateNativeAdView` says. A menu row gets name, description, price, category and image name verbatim. Only the holder's views are in the frame, so the item list is never modified |
| `Adapter.UnifiedNativeAdView.PopulateNativeAdView` | app/src/main/java/com/google/android/gms/example/nativeadvancedrecyclerviewexample/ListAdapter.kt:136-175 | headline, body and call to action always take the ad's values. Each optional slot is visible holding the asset when it is present, and invisible keeping its old content when it is null. What the view shows equals `AdDisplayOf(ad)` |
| `Adapter.UnifiedNativeAdView.SetIcon` | app/src/main/java/com/google/android/gms/example/nativeadvancedrecyclerviewexample/ListAdapter.kt:145-151 | a null icon hides the icon slot; otherwise the slot is visible and holds the icon's drawable |
| `Adapter.UnifiedNativeAdView.SetPrice` | app/src/main/java/com/google/android/gms/example/nativeadvancedrecyclerviewexample/ListAdapter.kt:152-157 | a null price hides the price slot; otherwise the slot is visible and holds the price |
| `Adapter.UnifiedNativeAdView.SetStore` | app/src/main/java/com/google/android/gms/example/nativeadvancedrecyclerviewexample/ListAdapter.kt:158-163 | a null store hides the store slot; otherwise the slot is visible and holds the store |
| `Adapter.UnifiedNativeAdView.SetStarRating` | app/src/main/java/com/google/android/gms/example/nativeadvancedrecyclerviewexample/ListAdapter.kt:164-169 | a null rating hides the rating slot; otherwise the slot is visible and holds the rating |
| `Adapter.UnifiedNativeAdView.SetAdvertiser` | app/src/main/java/com/google/android/gms/example/nativeadvancedrecyclerviewexample/ListAdapter.kt:170-175 | a null advertiser hides the advertiser slot; otherwise the slot is visible and holds the advertiser |
| `Adapter.OptionalAsset` | app/src/main/java/com/google/android/gms/example/nativeadvancedrecyclerviewexample/ListAdapter.kt:143-175 | an optional asset's slot is hidden if and only if the asset is null, and otherwise shows exactly that asset |
| `Adapter.VisibleSlotsArePresentAssets` | app/src/main/java/com/google/android/gms/example/nativeadvancedrecyclerviewexample/ListAdapter.kt:145-175 | for any subset of present optional assets, exactly that subset of slots is visible |
| `Adapter.AssetChecksIndependent` | app/src/main/java/com/google/android/gms/example/nativeadvancedrecyclerviewexample/ListAdapter.kt:145-175 | the five checks are independent: changing one asset of an ad changes only that slot of what is shown |

## Left out

- Loading the menu file (`readJsonDataFromFile`, `addMenuItemsFromJson`): stream I/O and a JSON library. The constructor takes the parsed menu items as its input.
- The ad loader and its SDK (`loadNativeAds`, the 20 requested ads, the `isLoading` flag): these belong to the SDK and run asynchronously. The two callbacks are modelled, with `isLoading` as a parameter.
- Fragment transactions in `onCreate` and `showScreen`: platform UI. `showScreen` is recorded only as a ghost counter and a snapshot of the list.
- Image resource lookup (`getIdentifier`, `setImageResource`): the menu view records the image name it was asked to show.
- `setNativeAd`: the registration of the ad with the SDK's view.
- The rating's conversion `toFloat()`: floating point. The rating is kept as the ad's value.
- The inflated layouts' initial contents and visibilities: these are defined in layout resources that are not part of this model. New views start blank.
- The unused `NUMBER_OF_ADS` constant.
- `RecyclerViewFragment.kt` and `UnifiedNativeAdViewHolder.kt`: lifecycle wiring and view registration, with no logic of their own.
- Positions outside the list: `ItemViewType` and `OnBindViewHolder` exclude them with `requires`. The source does not handle them either: a list access there throws, and the platform never passes such a position.
- Adapter.ListAdapter.constructor: the source's adapter holds a read-only alias of `MainActivity.dataList` (`recyclerViewItems`, MainActivity.kt:73-74). The model copies the list when the adapter is created, so later changes to `dataList` are not seen by that adapter. In the source the adapter is created by the list screen, which is shown only after the ads are inserted.
- The error log written by `onAdFailedToLoad` (`Log.e`, MainActivity.kt:104-105): logging has no effect on the model's state.
- A second callback that finds the loader no longer loading would run `insertAdsInMenuItems` again over the already composed list and insert every ad a second time. The model lets this happen too: `InsertAdsInMenuItems` then yields `Compose` of the already composed list, with N more entries. The lemmas on where the ads are (`ComposeAdPositions`, `ComposeAds`) speak of a menu-only list, that is of the first call. How often the SDK reports that loading has ended is not part of this model.
