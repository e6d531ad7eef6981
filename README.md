# CaseWave storefront core, modelled in Dafny

This project models the deterministic core of the CaseWave phone-case
storefront. It covers five parts:

- **Cart store** (`Cart`, `cart_context.dfy`). The cart is an ordered list of
  lines keyed by (slug, phone model), plus the drawer's `open` flag.
  - `CartStore` is a class whose methods `Add`, `Remove`, `Clear` and
    `SetOpen` update those two fields as the provider's setters do.
  - The new lists are the pure functions `Added` and `Removed`, and the
    subtotal is the pure function `Subtotal`.
  - The class invariant is that no two lines share a key. Lemmas show that
    `add` bumps exactly one line or appends exactly one, and that `remove`
    deletes exactly the matching lines, in order.
- **Catalog gateway** (`Strapi`, `strapi.dfy`). This part covers:
  - the best-image choice and the collection and design normalisers;
  - the request URL built by `strapiFetch`, and its error on a non-2xx status;
  - the "one record or an array" wrapping, the page clamp and the page
    query strings.
  - Each `fetch*` operation takes the response the content service gave as a
    parameter and returns a `Result`: the normalised records, or the error
    message the source throws.
- **WhatsApp checkout links** (`Checkout`, `config.dfy`). This part covers the
  single-product message and the cart order message (header, one line per
  item, total). The message is joined by newlines, encoded with
  `encodeURIComponent` and appended to the `wa.me` prefix. Lemmas prove three
  things:
  - the encoded part decodes back to the message;
  - it holds no raw space or newline;
  - when no product name contains a newline, splitting the decoded text on
    newlines gives back the message lines.
- **Catalogue de-duplication** (`Products`, `products.dfy`). This part covers
  the catalogue's two product lists (trending and new drops) and `allProducts`, the keep-first filter by slug.
  - Lemmas prove that the result has no duplicate slug, that it keeps the
    first occurrence of each slug, that it covers every slug, and that it
    preserves order.
  - The filter is also proved equal to an independent "seen set" definition.
- **Column preference of the designs grid** (`DesignsGrid`,
  `designs_grid_client.dfy`). `GridState` holds `colPref`, `isMobile` and
  `hydrated`. Its methods are the mount and resize handler, the option check
  and the toggle. The option list, the class string and the "max density"
  flag are functions.

Shared support modules:

- `Wrappers`: `Option` and `Result`.
- `Text`:
  - decimal integers, as `String(n)` prints them below 1e21;
  - two-decimal money from integer cents, as `toFixed(2)` prints it below
    1e21 units;
  - their parsers with round-trip lemmas;
  - `join` and `split`.
- `Uri`: UTF-8, `encodeURIComponent` and `decodeURIComponent`, and the
  `URLSearchParams` serializer with a reader for it. Each encoder has a
  round-trip lemma.

Modelling conventions:

- Money is an integer number of cents. A price of 24.99 is `2499`.
- JavaScript `null` and `undefined` are both `None` where the code treats them
  alike.
  - `x || null` on a string turns `""` into `None` (`Strapi.OrNull`).
  - `x ?? null` keeps `0`, so `NormalizedCollection.price` is the raw
    `precio` unchanged.
- Strings are sequences of Unicode scalar values. A lone surrogate therefore
  cannot occur, and `encodeURIComponent` never fails.

## Model

| member | source | states |
|---|---|---|
| Cart.Find | src/context/cart-context.tsx:31 | finds a line exactly when some line has the (slug, phoneModel) key, and the line it returns has that key |
| Cart.Added | src/context/cart-context.tsx:29-38 | a key already present keeps the length; a new key appends exactly one line `{...item, qty}` after the untouched old lines |
| Cart.AddExisting | src/context/cart-context.tsx:31-35 | with unique keys, adding a present key changes only that line, raising its qty by `qty` and keeping its name, price, image and position |
| Cart.AddedKeepsUnique | src/context/cart-context.tsx:31-37 | if no two lines share a key before `add`, none do after it; a line with no model and one with a model are different keys |
| Cart.AddedKeepsPositive | src/context/cart-context.tsx:33-37 | positive quantities stay positive when the added `qty` is positive |
| Cart.AddedQty | src/context/cart-context.tsx:31-37 | viewed as key-to-quantity, `add` raises the added key by `qty` and leaves every other key unchanged |
| Cart.AddedSubtotal | src/context/cart-context.tsx:29-38 | the subtotal after `add` rises by `qty` times the unit price of the line holding the key: the stored line's price when present, else the item's |
| Cart.UnitCount | src/components/cart-drawer.tsx:10 | the badge count of an empty cart is 0, and it is never negative when no quantity is |
| Cart.AddedUnitCount | src/context/cart-context.tsx:29-38 | the total number of units rises by exactly `qty` |
| Cart.Removed | src/context/cart-context.tsx:43 | removal never lengthens the list |
| Cart.RemovedMembers | src/context/cart-context.tsx:43 | a line survives removal iff it was in the list and does not match the slug and model condition |
| Cart.RemovedConcat | src/context/cart-context.tsx:43 | removal works line by line over a concatenation, so survivors keep their order |
| Cart.RemoveMissing | src/context/cart-context.tsx:43 | removing a key that no line matches leaves the list unchanged |
| Cart.RemoveFalsyModel | src/context/cart-context.tsx:43 | with the model omitted or `""`, removal deletes every line with the slug, whatever its model |
| Cart.RemoveWithModel | src/context/cart-context.tsx:43 | with a non-empty model, removal deletes exactly the lines with that slug and that model |
| Cart.RemovedKeepsUnique | src/context/cart-context.tsx:43 | removal keeps the one-line-per-key invariant |
| Cart.RemovedQty | src/context/cart-context.tsx:43 | viewed as key-to-quantity, removal zeroes the matching keys and keeps every other key |
| Cart.Subtotal | src/context/cart-context.tsx:48-51 | the subtotal of an empty cart is 0, and it is never negative when no price or quantity is |
| Cart.BumpSubtotal | src/context/cart-context.tsx:33-35 | raising one line's quantity by `qty` raises the subtotal by `qty` times that line's price |
| Cart.SubtotalConcat | src/context/cart-context.tsx:48-51 | the subtotal of a concatenation is the sum of the subtotals, so appending a line raises it by price × qty |
| Cart.CartStore.constructor | src/context/cart-context.tsx:26-27 | the cart starts empty and closed |
| Cart.CartStore.Add | src/context/cart-context.tsx:29-40 | the lines become `Added(old lines, item, qty)` with `qty` defaulting to 1, the drawer opens, and keys stay unique |
| Cart.CartStore.Remove | src/context/cart-context.tsx:42-44 | the lines become `Removed(old lines, slug, phoneModel)`, `open` is unchanged, and keys stay unique |
| Cart.CartStore.Clear | src/context/cart-context.tsx:46 | the list is empty afterwards and `open` is unchanged |
| Cart.CartStore.SetOpen | src/context/cart-context.tsx:27 | `open` takes the given value and the lines are unchanged |
| Strapi.OrNull | src/lib/strapi.ts:186 | `s \|\| null` is present iff `s` is a non-empty string, and is then `s` itself |
| Strapi.FirstTruthyIndex | src/lib/strapi.ts:86 | the position of the first non-empty URL: every earlier candidate is empty or absent |
| Strapi.PickBestImage | src/lib/strapi.ts:83-88 | an absent image gives no URL and no formats; otherwise the URL is the first non-empty of large, medium, small and the original, else null, and the formats pass through |
| Strapi.NormalizeCollection | src/lib/strapi.ts:181-192 | id and name are copied; description and launch date become null when empty or absent; the price is copied, so 0 stays 0; the image is the best image |
| Strapi.NormalizeDesign | src/lib/strapi.ts:205-228 | the design's own fields are copied or `\|\| null`-ed; `collectionId` is set exactly when `collection` is set, and both exactly when `coleccion` is present, with equal ids; the summary holds the parent's name, description and best image |
| Strapi.Map | src/lib/strapi.ts:114 | `arr.map(f)` keeps length and order and applies `f` to each record |
| Strapi.WithDesigns | src/lib/strapi.ts:136-138 | a collection with its designs, normalised in order; missing `disenos` gives no designs |
| Strapi.StripTrailingSlash | src/lib/strapi.ts:91 | the base loses its last character exactly when that character is `/`, and otherwise is unchanged |
| Strapi.StripTrailingSlashInverse | src/lib/strapi.ts:91 | stripping undoes one appended slash; a second trailing slash survives |
| Strapi.RequestUrl | src/lib/strapi.ts:91 | base without trailing slash, then the path, then a non-empty query after `&` when the path has `?` and after `?` otherwise; no query adds nothing |
| Strapi.RequestUrlSplits | src/lib/strapi.ts:91 | with no `?` elsewhere, the URL holds one `?` with base and path before it and the query after it |
| Strapi.StrapiFetch | src/lib/strapi.ts:90-107 | success iff the status is in 200..299, giving the body; otherwise the error `[strapi] <status> <statusText> fetching <url>` |
| Strapi.ErrorMessage | src/lib/strapi.ts:103 | the error message starts with `[strapi] ` and ends with the URL fetched |
| Strapi.ErrorMessageStatus | src/lib/strapi.ts:103 | the numeral after `[strapi] ` parses back to the response status |
| Strapi.Records | src/lib/strapi.ts:113 | a single record becomes a list of exactly that record; an array is kept as it is |
| Strapi.ClampPage | src/lib/strapi.ts:118 | for an integer page, the requested page is at least 1, and is unchanged when it already was |
| Strapi.CollectionsPageParams | src/lib/strapi.ts:119-124 | four parameters set in order; `pagination[page]` reads back as the clamped page and `pagination[pageSize]` as the size given |
| Strapi.DesignsPageParams | src/lib/strapi.ts:155-162 | six parameters set in order; `pagination[page]` reads back as the clamped page and `pagination[pageSize]` as the size given |
| Strapi.CollectionsPageQuery | src/lib/strapi.ts:117-125 | the collections page query holds populate, page, pageSize and sort in order; the page reads back as the clamped page and the size as given |
| Strapi.DesignsPageQuery | src/lib/strapi.ts:153-163 | the designs page query holds the three populates, page, pageSize and sort in order; the page reads back clamped |
| Strapi.FetchCollections | src/lib/strapi.ts:110-115 | on a 2xx status, one normalised collection per record in order, a single record counting as a list of one; otherwise the error for `/api/colecciones?populate=imagen` |
| Strapi.FetchCollectionsPage | src/lib/strapi.ts:117-131 | on a 2xx status, the normalised records in order with the service's pagination, `pageSize` defaulting to 24; otherwise the error for the clamped page query |
| Strapi.FetchCollection | src/lib/strapi.ts:133-139 | on a 2xx status, the collection with its designs, none when `disenos` is missing; otherwise the error for `/api/colecciones/<documentId>` |
| Strapi.FetchDesigns | src/lib/strapi.ts:142-150 | on a 2xx status, one normalised design per record in order; otherwise the error for `/api/disenos` |
| Strapi.FetchDesignsPage | src/lib/strapi.ts:153-169 | on a 2xx status, the normalised designs in order with the service's pagination; otherwise the error for the clamped page query |
| Strapi.FetchDesign | src/lib/strapi.ts:171-178 | on a 2xx status, the normalised design, whose collection id and summary agree; otherwise the error for `/api/disenos/<documentId>` |
| Strapi.FetchCollectionsWithDesigns | src/lib/strapi.ts:195-203 | on a 2xx status, each collection with its designs, in the service's order; otherwise the error for the sorted populate query |
| Checkout.ProductMessage | src/config.ts:4 | the product message is the fixed greeting, the name between double quotes, then the fixed closing |
| Checkout.Link | src/config.ts:5 | a link is the `https://wa.me/+593987632921?text=` prefix followed by `encodeURIComponent` of the message, a URI-safe text that decodes to the message |
| Checkout.BuildWhatsAppLink | src/config.ts:3-6 | the product link carries the product message |
| Checkout.TotalLine | src/config.ts:15 | the last line is `Total: $` followed by an amount that parses back to the given subtotal, not one recomputed from the items |
| Checkout.ItemLine | src/config.ts:13 | an item line is the bullet and the name, then a numeral reading back as the quantity, then an amount reading back as price × qty in cents |
| Checkout.ItemLines | src/config.ts:12-14 | one `• name xqty = $amount` line per item, in input order |
| Checkout.MessageLines | src/config.ts:10-16 | the message has `n + 2` lines: the fixed header, the item lines in order, the total line |
| Checkout.BuildCartWhatsAppLink | src/config.ts:8-19 | an empty cart gives exactly `buildWhatsAppLink("")`; otherwise the link carries the lines joined by newlines |
| Checkout.LinkShape | src/config.ts:17-18 | every cart link starts with the fixed prefix, and its encoded part holds no raw space or newline |
| Checkout.ItemLineNoNewline | src/config.ts:13 | an item line has no newline when the product name has none |
| Checkout.HeaderNoNewline | src/config.ts:11 | the header line has no newline |
| Checkout.TotalLineNoNewline | src/config.ts:15 | the total line has no newline |
| Checkout.CartMessageLines | src/config.ts:10-18 | when no name holds a newline, the link's text decodes, and splitting it on newlines gives back exactly the message lines |
| Products.FindIndex | src/data/products.ts:59 | `findIndex` by slug gives the first position with that slug, or -1 when there is none |
| Products.KeptFrom | src/data/products.ts:59 | the kept positions are increasing, in range, and exactly the first occurrences of their slugs |
| Products.DedupUnique | src/data/products.ts:59 | no two entries of the result share a slug |
| Products.DedupKeepsFirst | src/data/products.ts:56-59 | each kept entry is the first occurrence of its slug in the concatenation |
| Products.DedupCovers | src/data/products.ts:56-59 | every slug of the input appears in the result |
| Products.DedupSubsequence | src/data/products.ts:56-59 | the result is an order-preserving subsequence of the input and no longer than it |
| Products.DedupDistinct | src/data/products.ts:56-59 | an input with distinct slugs passes through unchanged |
| Products.DedupMatchesSeen | src/data/products.ts:59 | the filter equals keep-first de-duplication with a set of slugs already seen |
| Products.DedupBySlug | src/data/products.ts:59 | the filter keeps exactly the entries at the kept positions, in order |
| Products.AllProducts | src/data/products.ts:56-59 | `allProducts` has no two products with the same slug and is no longer than the two lists together |
| Products.AllProductsCatalogue | src/data/products.ts:3-59 | for the catalogue's own data, `allProducts` is trending followed by new drops, seven products |
| DesignsGrid.Options | src/components/designs-grid-client.tsx:41 | three options: `[1,2,3]` on mobile and `[2,4,6]` on desktop |
| DesignsGrid.Normalized | src/components/designs-grid-client.tsx:44-46 | after the option check, `colPref` is an option: unchanged if it was one, else the first option |
| DesignsGrid.MobileColumns | src/components/designs-grid-client.tsx:60 | the mobile column count is `colPref` clamped to 1..3 |
| DesignsGrid.ResizeKeepsOptions | src/components/designs-grid-client.tsx:29-46 | a resize keeps a valid preference valid, except desktop 6 on mobile, which the option check then resets to 1 |
| DesignsGrid.NextColPref | src/components/designs-grid-client.tsx:29-34 | the resize rule never leaves 4 on mobile nor 1 or 3 on desktop, and changes the preference only from 4 to 2 on mobile or from 1 or 3 to 4 on desktop |
| DesignsGrid.GridClass | src/components/designs-grid-client.tsx:54-74 | before hydration the class is the default four-column string whatever the state; the class is always one of the six strings the grid uses |
| DesignsGrid.IsMaxDensity | src/components/designs-grid-client.tsx:76 | max density holds only when hydrated with the last option of the current layout |
| DesignsGrid.GridClassCases | src/components/designs-grid-client.tsx:59-73 | on mobile `grid-cols-N` for the clamped count; on desktop dedicated strings for 2 and 6, and the four-column string for anything else |
| DesignsGrid.MaxDensityIsDensest | src/components/designs-grid-client.tsx:76 | for a hydrated, valid preference, max density holds iff it is the last option iff the densest class is rendered |
| DesignsGrid.MaxDensityOutsideOptions | src/components/designs-grid-client.tsx:59-76 | every preference above 3 on mobile shows the densest class, yet the max-density flag is false; desktop 6 survives the resize rule on mobile, so this state is reachable until the option check resets it to 1 |
| DesignsGrid.GridState.constructor | src/components/designs-grid-client.tsx:20-22 | the state starts at `colPref` 4, desktop, not hydrated |
| DesignsGrid.GridState.Resize | src/components/designs-grid-client.tsx:26-35 | mobile means width below 640; `colPref` goes 4→2 on mobile and 1 or 3→4 on desktop, and is otherwise kept |
| DesignsGrid.GridState.Mount | src/components/designs-grid-client.tsx:24-36 | mounting sets `hydrated` and applies the resize rule once |
| DesignsGrid.GridState.SyncOptions | src/components/designs-grid-client.tsx:44-46 | an out-of-options `colPref` is reset to the first option; the other fields are unchanged |
| DesignsGrid.GridState.Choose | src/components/designs-grid-client.tsx:81 | the toggle sets `colPref` and nothing else |
| DesignsGrid.GridState.ResizeAndSync | src/components/designs-grid-client.tsx:29-46 | a resize followed by the option check always leaves `colPref` among the options |
| Text.DecimalRoundTrip | src/config.ts:13 | `String(n)` of an integer parses back to `n` |
| Text.MoneyRoundTrip | src/config.ts:13-15 | `toFixed(2)` of an amount in cents parses back to the same cents |
| Text.SplitJoin | src/config.ts:17 | splitting lines joined by a separator that none holds gives back the lines |
| Uri.OverlongRefused | src/config.ts:17 | decoding refuses the overlong two-byte form of U+0000 and accepts its one-byte form |
| Uri.Utf8RoundTrip | src/config.ts:17 | the UTF-8 bytes of a string decode back to it |
| Uri.EncodeUriComponent | src/config.ts:17 | `encodeURIComponent` output holds only unreserved characters and `%`, and a string of unreserved characters passes through unchanged |
| Uri.EncodeRoundTrip | src/config.ts:17 | `decodeURIComponent(encodeURIComponent(s)) == s` |
| Uri.FormEncode | src/lib/strapi.ts:120-125 | a form-encoded name or value holds no `&` or `=` |
| Uri.FormRoundTrip | src/lib/strapi.ts:120-125 | form-decoding a form-encoded name or value gives it back |
| Uri.SearchParamsRoundTrip | src/lib/strapi.ts:120-125 | the serialized query holds exactly the pairs set, in order, each reading back as set |

## Left out

- Network I/O in `strapiFetch` is not modelled: `fetch`, the headers and bearer token, the revalidation hint and `res.json()`. Each fetch operation receives the response as a value, reduced to its status, status text, `data` and `meta.pagination`.
- The environment variables and their warnings are not modelled, since they are process configuration. The base URL is a parameter. A missing base URL, which would make the template throw, is not modelled.
- A response body that lacks `data` or `meta` is not modelled. The response type always has them.
- Image `size` fields, and image fields that the normalisers never read, are dropped from the records.
- Prices and amounts are integer cents, not floating-point numbers. `toFixed(2)` and `String(qty)` are modelled only for whole cents and integers, so binary rounding of fractional prices is not captured.
- Strapi.ClampPage: `page` and `pageSize` are modelled as integers, not JavaScript numbers. A `NaN` page fails `page < 1`, skips the clamp and is sent as `pagination[page]=NaN`, and a fractional page is sent with its decimals; neither case is modelled.
- Text.Decimal: from 1e21 up, JavaScript's `String(n)` prints exponent notation; the model prints every integer in plain digits.
- Text.Money: from 1e21 units up, `toFixed(2)` prints exponent notation; the model prints every amount in plain digits.
- Quantities are not validated, as in the source. `Cart.AddedKeepsPositive` states positivity only when the added quantity is positive.
- Text is modelled as Unicode scalar values, so the `URIError` that `encodeURIComponent` raises on a lone surrogate cannot arise.
- The `useCart` context lookup and its error outside a provider are not modelled; they are React plumbing.
- React rendering, effect scheduling and the window `resize` listener are not modelled. The grid's handler and effects are the methods of `GridState`, called in the order the framework would.
- The grid's `LayoutIcon` geometry, `buttonStyles`, the cart drawer and page components, and the home page's date sort are not modelled. They are rendering, or depend on date parsing.
- The query strings that the source writes as literals are kept as literal constants rather than built through the `URLSearchParams` model.
