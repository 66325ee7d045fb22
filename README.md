# Bakery storefront and admin console — a Dafny model

This project models the logic at the core of a Next.js bakery shop, "Bánh Gato Thủy Dung". It models two parts:

- **The storefront product listing.** Customers search products by name, narrow them to a price window, sort them and page through them nine at a time. The listing also shows the five most expensive products.
- **The admin console.**
  - A login page stores a token and a user record in the browser's local storage.
  - A guard hook reads those entries back and lets only administrators in.
  - A layout renders the console menu.
  - There are three CRUD pages: categories, banners and promotions.
  - Two image-upload widgets post to one upload route.
  - A categories API route counts each category's active products and lists the newest category first.

Everything the program gets from outside becomes a parameter of the model:

- the reply of each `fetch`
- the result of each upload
- the verdict of the JWT library
- the `confirm` dialog
- `JSON.parse` of the stored user
- the `localeCompare` collation
- the `vi-VN` number format

Results the program pushes out are recorded in fields of the page objects: alerts, router pushes, `onChange` callbacks and storage writes.

Modules follow the program's files:

| module | models |
|---|---|
| `Catalog` | `app/products/page.tsx` |
| `AuthGuard`, `BrowserStorage` | `hooks/useAuth.ts` and `localStorage` |
| `AdminLogin` | `app/admin/login/page.tsx` |
| `AdminLayout` | `app/admin/layout.tsx` |
| `BearerAuth` | `lib/auth.ts` |
| `AdminForms`, `CategoryAdmin`, `BannerAdmin`, `PromotionAdmin` | the three admin CRUD pages and the request shape they share |
| `UploadRoute` | `app/api/upload/route.ts` |
| `CategoryCounts` | `app/api/categories/route.ts` |
| `MultiImageUpload`, `ImageUpload` | `components/MultiImageUpload.tsx`, `components/ImageUpload.tsx` |
| `Sorting`, `Seqs`, `Strings`, `Numbers`, `Wrappers` | `Array.prototype.sort`, filter results as subsequences, the string built-ins, `toString`/`parseInt`, `Option` |

Objects whose state React updates step by step are classes. Each has a method per handler, and `modifies` names the state the handler sets:

- `ProductsPage`
- `SessionGuard`
- `LoginPage`
- `CategoriesPage`
- `BannersPage`
- `PromotionsPage`
- `GalleryUpload`
- `SingleUpload`

Pure computations are functions. The properties of those functions are lemmas.

Where the system's design description and its code differ, the model follows the code:

- **The price window.** The design describes a default window of `[0, highest price]`. The code uses `[0, max(5000000, highest price)]` (`Catalog.MaxPrice`).
- **A rejected session.** The design says the token is cleared. The code removes both the token and the user entry (`AuthGuard.SessionGuard.CheckSession`).
- **A missing entry.** The guard hook returns before its `try`, so `loading` keeps its old value on that path and the layout keeps showing its spinner.
- **The admin upload widgets.** They POST to `/api/upload` without a body while the route demands multipart form data. Their request for an upload signature is therefore refused by the route's form-data check. `UploadRoute.GuardOrder` and `UploadRoute.RefusedNeverUploads` state what the route does with such a request. The widgets then see every upload fail; the model takes each upload's result as a parameter.
- **The promotion edit form.** It always starts with empty product and category lists (`PromotionAdmin.EditForm`). Editing a promotion and saving it therefore sends empty lists.

## Model

| member | source | states |
|---|---|---|
| Catalog.MatchingSearch | app/products/page.tsx:101-103 | the search keeps a subsequence of the list; each product whose lower-cased name contains the lower-cased query keeps its multiplicity, every other product is dropped |
| Catalog.WithinPrice | app/products/page.tsx:106 | the price filter keeps a subsequence; exactly the products with `lo <= price <= hi`, each as often as in the input |
| Catalog.SortedProducts | app/products/page.tsx:109-121 | every sort key yields a permutation of its input |
| Catalog.FilterResultContents | app/products/page.tsx:97-125 | whatever the sort, the shown list holds exactly the products that pass search and window, with their multiplicities; all lie inside the window; none that passes is lost |
| Catalog.EmptySearchKeepsAll | app/products/page.tsx:101-103 | the empty query keeps every product, in order |
| Catalog.SearchMembership | app/products/page.tsx:101-103 | for a non-empty query, a listed product is kept if and only if its lower-cased name contains the lower-cased query |
| Catalog.DefaultKeepsOrder | app/products/page.tsx:109-121 | with `default` or an unknown key the result is a subsequence of the fetched list (fetched order kept) |
| Catalog.SortKeysOrder | app/products/page.tsx:109-121 | `price-asc` gives non-decreasing prices, `price-desc` non-increasing prices, `name-asc` names ordered by the collation |
| Catalog.TotalPages | app/products/page.tsx:128 | the ceiling of `n / 9`: enough pages for all items, not one more, and zero exactly for an empty list |
| Catalog.SliceIndex | app/products/page.tsx:129-130 | the clamping of a `slice` bound: within the length, and the bound itself when it already lies inside |
| Catalog.PageOf | app/products/page.tsx:129-130 | a page holds at most nine products and is the window `[9(p-1), 9p)` of the filtered list, clamped to its length |
| Catalog.PagesPrefix | app/products/page.tsx:128-130 | the first `k` pages laid end to end are the prefix of length `min(9k, n)` |
| Catalog.PagesCoverAll | app/products/page.tsx:128-130 | all `totalPages` pages together are exactly the filtered list |
| Catalog.LastPageSize | app/products/page.tsx:128-130 | the last page holds `n mod 9` products, or nine when that is zero |
| Catalog.MaxPrice | app/products/page.tsx:87-89 | the slider maximum is at least 5000000, at least every price, and equal to 5000000 or to some product's price |
| Catalog.FetchedWindowAdmitsAll | app/products/page.tsx:87-89 | the window `[0, maxPrice]` set after a fetch admits every product with a non-negative price |
| Catalog.TopProducts | app/products/page.tsx:133 | the top products are the first `min(5, n)` of the list sorted by descending price |
| Catalog.TopProductsShape | app/products/page.tsx:133 | there are `min(5, n)` top products, most expensive first, all drawn from the list |
| Catalog.TopProductsDominate | app/products/page.tsx:133 | no product left out of the top five costs more than one that was chosen |
| Catalog.ProductsUrl | app/products/page.tsx:79-82 | the request URL starts with `/api/products` and is exactly it when no category is selected; with a category it is `/api/products?category=` followed by the id, unencoded, which reads back from the URL |
| Catalog.ProductsPage.constructor | app/products/page.tsx:38-47 | the initial state: empty lists, page 1, loading, empty query, window `[0, 5000000]`, sort `default`, the category from the URL |
| Catalog.ProductsPage.FilterProducts | app/products/page.tsx:97-125 | the shown list becomes the filter of the current inputs and the page goes back to 1 |
| Catalog.ProductsPage.FetchProducts | app/products/page.tsx:76-95 | requests the category URL; on success replaces the list, sets the maximum, resets the window and re-filters; on failure changes no list; clears `loading` |
| Catalog.ProductsPage.LoadProducts | app/products/page.tsx:85-90 | a fetched list becomes the catalogue, the maximum becomes `MaxPrice`, the window becomes `[0, max]`, and the view is re-filtered at page 1 |
| Catalog.ProductsPage.SelectCategory | app/products/page.tsx:55-58 | the same category changes nothing: no request, and list, window, maximum, page and `loading` keep their values; a change fetches that category as `SwitchCategory` states |
| Catalog.ProductsPage.SwitchCategory | app/products/page.tsx:55-58 | the new category is recorded and its URL requested; the page is 1 and `loading` is false afterwards; a successful reply replaces the list, sets the maximum to `MaxPrice` and resets the window to `[0, max]`; a failure keeps list, shown products, maximum and window |
| Catalog.ProductsPage.SetSearchQuery | app/products/page.tsx:203 | the query is set; a changed query re-filters and resets the page, an unchanged one keeps it |
| Catalog.ProductsPage.SetSortBy | app/products/page.tsx:159 | the sort key is set; a changed key re-sorts and resets the page |
| Catalog.ProductsPage.SetPriceCeiling | app/products/page.tsx:258-262 | the slider (bounded by `maxPrice`) sets the ceiling, re-filters and resets the page |
| Catalog.ProductsPage.ApplyFilters | app/products/page.tsx:270 | the Apply button keeps the list and goes to page 1 |
| Catalog.ProductsPage.PreviousPage | app/products/page.tsx:380 | previous page, clamped at 1 |
| Catalog.ProductsPage.NextPage | app/products/page.tsx:400 | next page, clamped at the page count |
| Catalog.ProductsPage.GoToPage | app/products/page.tsx:386-389 | a page button selects its page |
| Catalog.ProductsPage.CurrentProducts | app/products/page.tsx:129-130 | the displayed products are at most nine and are the current page's slice of the filtered list |
| Sorting.SortOn | app/products/page.tsx:109-121 | the sort yields a permutation of its input |
| Sorting.SortOnSorted | app/products/page.tsx:109-121 | with a consistent comparator the sort output is ordered |
| BrowserStorage.Lookup | hooks/useAuth.ts:19-20 | `getItem` yields a value exactly for a stored key, and that key's value |
| AuthGuard.Classify | hooks/useAuth.ts:18-43 | unauthenticated exactly when the token or user entry is missing or empty; authenticated exactly when both are present, the user parses, and the role is `admin` whenever admin is required |
| AuthGuard.SessionGuard.constructor | hooks/useAuth.ts:12-15 | no user, loading, no navigation |
| AuthGuard.SessionGuard.CheckSession | hooks/useAuth.ts:18-43 | per verdict: a missing entry pushes `/admin/login` with `loading` untouched; unparsable data pushes it and clears `loading`; a non-admin clears both entries and pushes it; an admin is stored as the user without navigation; storage only shrinks |
| AuthGuard.SessionGuard.Logout | hooks/useAuth.ts:45-49 | both entries are removed and `/admin/login` is pushed |
| AdminLogin.Outcome | app/admin/login/page.tsx:13-45 | login is granted exactly for a successful reply carrying an admin user; a failure shows the server's error, a non-admin the role message, a thrown request the retry message |
| AdminLogin.LoginPage.constructor | app/admin/login/page.tsx:7-11 | empty error, not loading, no redirect |
| AdminLogin.LoginPage.HandleSubmit | app/admin/login/page.tsx:13-45 | a granted login stores the token and the serialised user and redirects to `/admin`; any other outcome stores nothing and shows its message; `loading` ends false |
| AdminLogin.GrantedLoginPassesGuard | app/admin/login/page.tsx:37-39 | after a granted login the guard, with admin required, authenticates the same user |
| AdminLayout.DisplayName | app/admin/layout.tsx:83 | the shown name is never empty and is the user's name whenever that is present |
| AdminLayout.Menu | app/admin/layout.tsx:33-39 | the five menu entries, each active exactly when its link is the current path |
| AdminLayout.Render | app/admin/layout.tsx:14-31 | the login page renders bare, a loading guard a spinner, a missing user nothing, and otherwise the console with name, email and menu |
| AdminLayout.AtMostOneActive | app/admin/layout.tsx:55 | at most one menu entry is highlighted, and none on a path outside the menu |
| BearerAuth.TokenFromHeader | lib/auth.ts:20-26 | a token exists exactly when the header starts with `Bearer `, and putting the prefix back gives the header |
| BearerAuth.PrefixedTokenExtracted | lib/auth.ts:20-26 | `Bearer ` followed by any token yields that token |
| BearerAuth.NarrowSchemeMatching | lib/auth.ts:20-26 | the scheme is matched case-sensitively and with exactly one space: a missing header, `bearer abc` and `Bearer` give nothing, `Bearer  abc` gives ` abc` |
| BearerAuth.IsAdmin | lib/auth.ts:28-30 | admin exactly when a decoded payload has role `admin` |
| BearerAuth.VerifyToken | lib/auth.ts:12-18 | a payload exactly when the verifier decodes the token, and then the verifier's payload; a throw gives none |
| AdminForms.SubmitTarget | app/admin/categories/page.tsx:41-42 | PUT exactly when editing, POST exactly when creating; the URL is the endpoint, with `/id` appended when editing |
| AdminForms.DeleteTarget | app/admin/categories/page.tsx:76-78 | DELETE on the record's own URL |
| AdminForms.RecordUrlsDistinct | app/admin/banners/page.tsx:56-57 | distinct records get distinct request URLs |
| CategoryAdmin.DashSpaces | app/admin/categories/page.tsx:150 | no whitespace is left after the runs of spaces become dashes |
| CategoryAdmin.KeepSlugChars | app/admin/categories/page.tsx:151 | only `a-z0-9-` remain, as a subsequence of the input, and a string already made of them is unchanged |
| CategoryAdmin.Slugify | app/admin/categories/page.tsx:148-151 | a generated slug consists only of `a-z0-9-` |
| CategoryAdmin.SlugFixpoint | app/admin/categories/page.tsx:148-151 | a string already made of slug characters is its own slug |
| CategoryAdmin.SlugifyIdempotent | app/admin/categories/page.tsx:148-151 | slugifying twice gives the same slug as once |
| CategoryAdmin.SlugExample | app/admin/categories/page.tsx:148-151 | `Bánh Kem Dâu!` becomes `bnh-kem-du`: accented letters are dropped, not transliterated |
| CategoryAdmin.EditForm | app/admin/categories/page.tsx:61-71 | edit loads name, slug and flag as stored and a missing description or image as `""` |
| CategoryAdmin.EditFormKeepsPresentFields | app/admin/categories/page.tsx:61-71 | a category with description and image loads them unchanged |
| CategoryAdmin.RemoveById | app/admin/categories/page.tsx:86 | the delete filter keeps a subsequence in which every record with another id keeps its multiplicity and the deleted id has none |
| CategoryAdmin.RemoveByIdRemovesAll | app/admin/categories/page.tsx:86 | no record with the deleted id remains |
| CategoryAdmin.CategoriesPage.constructor | app/admin/categories/page.tsx:16-25 | empty list, form closed, nothing edited, empty form |
| CategoryAdmin.CategoriesPage.FetchCategories | app/admin/categories/page.tsx:31-37 | a successful reply's data becomes the list; a failure keeps it |
| CategoryAdmin.CategoriesPage.OnNameChange | app/admin/categories/page.tsx:143-152 | typing a name sets it and regenerates the slug from it, leaving the other fields |
| CategoryAdmin.CategoriesPage.OnSlugChange | app/admin/categories/page.tsx:163 | the slug field can be overwritten by hand |
| CategoryAdmin.CategoriesPage.OpenNew | app/admin/categories/page.tsx:103-107 | "new" opens an empty form with nothing edited |
| CategoryAdmin.CategoriesPage.CloseForm | app/admin/categories/page.tsx:124-127 | closing hides the form and forgets the edited record |
| CategoryAdmin.CategoriesPage.HandleEdit | app/admin/categories/page.tsx:61-71 | edit opens the form on that category's fields |
| CategoryAdmin.CategoriesPage.HandleSubmit | app/admin/categories/page.tsx:39-59 | sends the form to the create or update URL; success closes and resets the form; a refusal alerts the server's error and keeps the form; a thrown request changes nothing |
| CategoryAdmin.CategoriesPage.HandleDelete | app/admin/categories/page.tsx:73-93 | nothing without confirmation; a confirmed successful delete removes the id locally and alerts success; any failure keeps the list and alerts failure |
| BannerAdmin.EditForm | app/admin/banners/page.tsx:94-107 | edit copies the banner, with missing optional texts as `""` and the order as its decimal text |
| BannerAdmin.SubmitBody | app/admin/banners/page.tsx:53 | the submitted body is the form with the order parsed by `parseInt` |
| BannerAdmin.OrderRoundTrip | app/admin/banners/page.tsx:53 | editing a banner and saving it unchanged sends back its order |
| BannerAdmin.ResetFormOrderIsZero | app/admin/banners/page.tsx:81-92 | a fresh form submits order 0 |
| BannerAdmin.PositionLabels | app/admin/banners/page.tsx:121-126 | a non-empty label for each of the four positions and for nothing else |
| BannerAdmin.PositionLabel | app/admin/banners/page.tsx:286 | a label is shown exactly for a known position |
| BannerAdmin.BannersPage.constructor | app/admin/banners/page.tsx:19-31 | empty list, form closed, nothing edited, the reset form |
| BannerAdmin.BannersPage.FetchBanners | app/admin/banners/page.tsx:37-47 | a successful reply's data becomes the list; a failure keeps it |
| BannerAdmin.BannersPage.OpenNew | app/admin/banners/page.tsx:136-140 | "new" opens the reset form with nothing edited |
| BannerAdmin.BannersPage.CloseForm | app/admin/banners/page.tsx:157-160 | closing hides the form and forgets the edited banner |
| BannerAdmin.BannersPage.HandleEdit | app/admin/banners/page.tsx:94-107 | edit opens the form on that banner |
| BannerAdmin.BannersPage.HandleSubmit | app/admin/banners/page.tsx:49-79 | sends the parsed body to the create or update URL; success closes and resets; a refusal alerts `Lỗi: ` and the error; a thrown request alerts `Lỗi kết nối: ` and the message; failures keep the form |
| BannerAdmin.BannersPage.HandleDelete | app/admin/banners/page.tsx:109-119 | nothing without confirmation; a refusal alerts the error; the list is not edited locally |
| PromotionAdmin.DatePart | app/admin/promotions/page.tsx:124-125 | `split("T")[0]`: the longest prefix without `T`, ending at the first `T` or at the end |
| PromotionAdmin.DatePartWithoutT | app/admin/promotions/page.tsx:124-125 | a plain date is left unchanged |
| PromotionAdmin.DatePartOfTimestamp | app/admin/promotions/page.tsx:124-125 | an ISO timestamp `date T time` yields its date |
| PromotionAdmin.DatePartIdempotent | app/admin/promotions/page.tsx:124-125 | taking the date part twice is taking it once |
| PromotionAdmin.EditForm | app/admin/promotions/page.tsx:117-131 | edit copies the promotion, the value as decimal text, the dates cut to their date part, and empties the product and category lists |
| PromotionAdmin.TypeLabel | app/admin/promotions/page.tsx:300 | the percentage label exactly for `percentage`, the amount label for every other type |
| PromotionAdmin.ValueLabel | app/admin/promotions/page.tsx:305-307 | a percentage shows its value and `%`; any other type shows `₫` and the formatted value |
| PromotionAdmin.PromotionsPage.constructor | app/admin/promotions/page.tsx:29-42 | empty list, form closed, nothing edited, the reset form |
| PromotionAdmin.PromotionsPage.FetchPromotions | app/admin/promotions/page.tsx:50-56 | a successful reply's data becomes the list; a failure keeps it |
| PromotionAdmin.PromotionsPage.OpenNew | app/admin/promotions/page.tsx:153-157 | "new" opens the reset form with nothing edited |
| PromotionAdmin.PromotionsPage.CloseForm | app/admin/promotions/page.tsx:174-177 | closing hides the form and forgets the edited promotion |
| PromotionAdmin.PromotionsPage.HandleEdit | app/admin/promotions/page.tsx:117-131 | edit opens the form on that promotion |
| PromotionAdmin.PromotionsPage.HandleSubmit | app/admin/promotions/page.tsx:74-101 | sends the form to the create or update URL; success closes and resets; a refusal alerts the error and keeps the form |
| PromotionAdmin.PromotionsPage.HandleDelete | app/admin/promotions/page.tsx:133-143 | nothing without confirmation; a refusal alerts the error |
| Numbers.NatToString | app/admin/banners/page.tsx:104 | `toString` of a natural number: a non-empty run of decimal digits without a leading zero |
| Numbers.ParseInt | app/admin/banners/page.tsx:53 | after the leading space and sign: with a `0x`/`0X` prefix, `NaN` exactly when no hexadecimal digit follows the prefix; otherwise `NaN` exactly when the next character is not a decimal digit; a value after `-` is never positive, any other value never negative |
| Numbers.DecimalValue | app/admin/banners/page.tsx:53 | without a `0x` prefix the value is the longest run of decimal digits, negated after `-` |
| Numbers.BareHexPrefixIsNaN | app/admin/banners/page.tsx:53 | `0x` and `0xg` are `NaN` although they start with the digit `0`, while `0x1f` is 31 |
| Numbers.IntToStringRoundTrip | app/admin/banners/page.tsx:53 | `parseInt` of an integer's exact decimal text gives the integer back, for every integer printed without an exponent |
| UploadRoute.StatusOf | app/api/upload/route.ts:21-110 | a refusal is 400; a missing configuration, a missing URL and an upload error are 500 |
| UploadRoute.Validate | app/api/upload/route.ts:21-67 | a request is accepted exactly when the configuration is complete and the file is an image of at most 10 MB; a refusal is never a Cloudinary failure |
| UploadRoute.Post | app/api/upload/route.ts:19-111 | the status is 200, 400 or 500; 200 exactly for an uploaded URL, which is non-empty and is the one Cloudinary returned |
| UploadRoute.RefusedNeverUploads | app/api/upload/route.ts:38-67 | a refused request gets the same non-200 response whatever the upload would have returned |
| UploadRoute.ConfigCheckedFirst | app/api/upload/route.ts:21-35 | a missing credential gives 500 for every request |
| UploadRoute.SizeLimitInclusive | app/api/upload/route.ts:61-67 | every image of at most 10 MB passes the guards, and every larger one is answered 400 `TooLarge` whatever the upload would return |
| UploadRoute.GuardOrder | app/api/upload/route.ts:38-58 | an unreadable body, a missing file and a non-image file are refused with their own reason, in that order; a non-image file gets 400 `NotAnImage` at every size, since the type is checked before the size |
| UploadRoute.FileGuards | app/api/upload/route.ts:56-67 | a file's outcome is `NotAnImage` exactly when its type lacks `image/`, `TooLarge` exactly for a larger image, and acceptance exactly for an image of at most 10 MB |
| UploadRoute.UploadResults | app/api/upload/route.ts:70-110 | an accepted file answers 200 with a returned URL, 500 `NoUrl` without one, and 500 with a rejection's message |
| UploadRoute.Options | app/api/upload/route.ts:114-123 | the preflight answers 200 with the three CORS headers allowing `POST, OPTIONS` |
| CategoryCounts.ActiveCount | app/api/categories/route.ts:23-37 | the count of a category's products never exceeds the product count |
| CategoryCounts.ActiveCountIsJoinedSize | app/api/categories/route.ts:23-37 | the count is the number of active products whose category is the category's id |
| CategoryCounts.NonJoiningIgnored | app/api/categories/route.ts:23-37 | an inactive product, or one of another category, does not change any count |
| CategoryCounts.Counted | app/api/categories/route.ts:38-43 | the projected record keeps every stored field and adds `productCount` |
| CategoryCounts.CountAll | app/api/categories/route.ts:13-43 | one counted record per category, position by position |
| CategoryCounts.Aggregate | app/api/categories/route.ts:13-47 | the answer is a permutation of the counted categories |
| CategoryCounts.AggregateKeepsEveryCategory | app/api/categories/route.ts:13-47 | every stored category appears, counted, and nothing else does |
| CategoryCounts.AggregateCounts | app/api/categories/route.ts:23-43 | every listed count is the number of that category's active products |
| CategoryCounts.AggregateNewestFirst | app/api/categories/route.ts:44-46 | the list is ordered by descending creation time |
| CategoryCounts.Get | app/api/categories/route.ts:8-60 | success exactly with status 200, carrying the aggregate and the `Cache-Control` header; a database error gives 500 with its message, no data and no header |
| MultiImageUpload.AllWithinLimit | components/MultiImageUpload.tsx:43-48 | true exactly when every file is at most 3 MB |
| MultiImageUpload.SuccessUrls | components/MultiImageUpload.tsx:55-57 | at most one URL per settled upload |
| MultiImageUpload.FailureCount | components/MultiImageUpload.tsx:59-63 | at most one failure per settled upload |
| MultiImageUpload.ResultsPartition | components/MultiImageUpload.tsx:53-63 | every settled upload is either a URL or a failure |
| MultiImageUpload.SuccessUrlsAppend | components/MultiImageUpload.tsx:55-57 | the URLs of two batches are the first batch's URLs followed by the second's, in order |
| MultiImageUpload.RemoveAt | components/MultiImageUpload.tsx:73-75 | removing a valid index drops exactly that image; an index outside the list changes nothing |
| MultiImageUpload.RemoveAtKeepsOthers | components/MultiImageUpload.tsx:73-75 | images before the index stay in place and those after move down by one |
| MultiImageUpload.GalleryUpload.constructor | components/MultiImageUpload.tsx:11-12 | not uploading, no changes, no alerts |
| MultiImageUpload.GalleryUpload.HandleFileChange | components/MultiImageUpload.tsx:37-71 | no selection does nothing; an oversized file alerts and uploads nothing; otherwise the URLs are appended to the value, failures are alerted with their count; uploading ends false |
| MultiImageUpload.GalleryUpload.RemoveImage | components/MultiImageUpload.tsx:73-75 | the value without that image is passed to `onChange` |
| MultiImageUpload.GalleryUpload.ReceiveValue | components/MultiImageUpload.tsx:11 | the parent's value is taken over |
| ImageUpload.PreviewOf | components/ImageUpload.tsx:13 | a preview exactly for a non-empty value, and that value |
| ImageUpload.SingleUpload.constructor | components/ImageUpload.tsx:11-13 | the preview of the initial value, not uploading |
| ImageUpload.SingleUpload.HandleFileChange | components/ImageUpload.tsx:44-61 | no selection does nothing; a success passes the URL to `onChange`; a failure alerts its message; uploading ends false |
| ImageUpload.SingleUpload.Remove | components/ImageUpload.tsx:82-84 | the preview is cleared and `""` is passed to `onChange` |
| ImageUpload.SingleUpload.ReceiveValue | components/ImageUpload.tsx:11 | the parent's value is taken over |

## Left out

- Network, database and Cloudinary I/O. Every `fetch` reply, Mongo query result and upload result is a parameter.
- The JWT signature check and its fallback secret (lib/auth.ts). The verifier is a parameter; only its outcome is modelled.
- The 25-second timeout race of the upload route and the concurrency of `Promise.allSettled`. An upload is a settled result, and concurrent completion order is not modelled.
- The response races between overlapping fetches, and the intermediate React renders: `uploading` set to true while a request runs, and the object-URL preview of a file being uploaded.
- Floating point:
  - the "x MB" figure of the size message (`toFixed`)
  - `parseFloat` of a promotion's discount value
  - `new Date` of its dates in the submit body
  - fractional prices and discount values
  - prices and discount values are whole numbers here
- `toLocaleString("vi-VN")` and `localeCompare`. They become parameters; `localeCompare` is assumed to be a consistent order when `name-asc` is proved sorted.
- `toLowerCase` beyond ASCII. Only `A`–`Z` are lowered, so letters such as `Đ` keep their case.
- `Number#toString` for magnitudes of `1e21` and above, which switches to exponent notation. `Numbers.IntToStringRoundTrip` and `BannerAdmin.OrderRoundTrip` hold below that bound.
- Numbers.IntToString: integers are exact here, while JavaScript numbers are doubles. Above 2^53 a banner order or discount value loses precision, and `toString` prints the shortest digits that round-trip (`2**60` prints `1152921504606847000`, not `1152921504606846976`); this model prints the exact digits.
- `JSON.parse` of the stored user becomes a parameter returning a user or nothing.
- The mobile menu toggle (`mobileOpen`) of the layout, `middleware.ts`, the create-admin route and `lib/cloudinary.ts`. They are not part of this model.
- `POST /api/categories` (a plain `Category.create`) and the route's outer catch of the upload route beyond its status. The POST is a database call with no logic of its own.
- The per-field `onChange` handlers of the banner and promotion forms, and of the category description, image and active fields. Each sets one field.
- The product and category lists fetched by the promotions page for its pickers. They are displayed, never computed with.
- The reload of the list after every successful category, banner or promotion submit, and after a banner or promotion delete. Each is another fetch whose reply is a parameter (`FetchCategories`, `FetchBanners`, `FetchPromotions` model it); the `HandleSubmit` and `HandleDelete` methods leave the list as it was.
- Sorting.SortOn: stability of the sorts is not proved. Only permutation and order are.
- CategoryCounts.AggregateNewestFirst: the order among categories with equal `createdAt` is MongoDB's and is not stated.
