# Storefront core in Dafny

A Dafny model of the sequential logic of a React storefront: the shopping-cart
engine, the shipping-address list kept in a user profile, the mapping between the
product-filter panel's state and the URL query, the catalog client's handling of
already-received responses, and the password checks of the sign-up and profile
forms. Rendering, the identity provider, the document store and the network are
outside the model; their results enter as parameters.

| file | module | models |
|---|---|---|
| `wrappers.dfy` | `Wrappers` | `Option` and `Result` |
| `strings.dfy` | `Strings` | `toString` of integers, ASCII `toLowerCase`, `trim` |
| `cart.dfy` | `Cart` | `src/context/CartContext.tsx`: pure list operations and the `CartStore` provider class |
| `addresses.dfy` | `Addresses` | `src/services/userProfile.ts`: the address-list logic of `addShippingAddress` / `updateShippingAddress` |
| `filters.dfy` | `Filters` | `src/components/ProductFilters.tsx`: query parsing, `updateURL`, the `FilterPanel` class and its handlers |
| `api.dfy` | `Api` | `src/services/api.ts`: JSON values, responses, URLs and the six client functions |
| `signup.dfy` | `Signup` | `src/pages/Signup.tsx`: `handleSubmit` and the error display |
| `profile.dfy` | `Profile` | `src/pages/Profile.tsx`: `handleUpdateProfile`, `handleTabChange`, `handleAddNewAddress` |

The cart keeps the invariant `WellFormed` (unique product ids, every quantity and
every stored stock at least 1). Each operation is specified by a pure function on
`seq<CartLine>`, and each `CartStore` method is proved to keep the invariant and to
produce exactly that function's result. The two folds (`ItemCount`, `Total`) are
left folds like `reduce`. They are proved additive. The lemmas give the exact change
of both folds under each operation: the count by the quantity step, the total by the
change of the affected line's total. `Total` works over `real`.

The address operations copy the fetched list into an array and clear `isDefault`
in place (`ClearDefaults`, the `forEach`). They return the list handed to the
profile write, or the error thrown. The written lists are specified by `AddedList`
and `PatchedList`. The lemmas show that adding keeps at most one default, and that
a patch does too whatever its `isDefault` field says. Ids stay unique when the
generated id is fresh and a patch leaves the target's id alone.

The filter panel's query is a `map<string, string>`. `Encodes` states what
`updateURL` leaves in it. `UpdateURL` is proved to establish `Encodes`, which fixes
the query uniquely and idempotently. `RoundTrip` shows what parsing it back
recovers, for any `Number` that reads a decimal string as the integer it denotes.

Each catalog client function returns the URL it requested and what it returned or
threw, for every kind of response: no response, `!ok`, a body that does not parse,
a `null` body, and a parsed body with or without the expected field.

## Model

| member | source | states |
|---|---|---|
| Cart.Find | src/context/CartContext.tsx:27 | `find` returns a line iff one carries the id, and then the first such line |
| Cart.FindUnique | src/context/CartContext.tsx:27 | with unique ids, `find` returns the one line carrying the id |
| Cart.SetQuantity | src/context/CartContext.tsx:31-33 | the `map` rewrites exactly the lines with the id to the new quantity, all else equal, same length |
| Cart.AddLine | src/context/CartContext.tsx:23-37 | stock 0 leaves the cart unchanged; an absent id appends one line of quantity 1 at the end; a present id adds no line; stored product fields never change |
| Cart.AddExisting | src/context/CartContext.tsx:27-33 | for a present id the line's quantity becomes min(q+1, stock passed in), other fields and all other lines unchanged |
| Cart.RemoveLine | src/context/CartContext.tsx:39-43 | the result holds exactly the lines without the id; an absent id is a no-op |
| Cart.RemoveExisting | src/context/CartContext.tsx:39-43 | with unique ids, removing line k's id cuts out exactly line k and keeps the order of the rest |
| Cart.RemoveAppend | src/context/CartContext.tsx:41 | the removal `filter` distributes over concatenation |
| Cart.RemoveOnly | src/context/CartContext.tsx:41 | removing an id carried by exactly one line cuts out that line, the rest in order |
| Cart.UpdateLine | src/context/CartContext.tsx:45-62 | quantity < 1 is removal; an absent id is a no-op; otherwise same length and same products |
| Cart.UpdateExisting | src/context/CartContext.tsx:51-60 | for a present id the line's quantity becomes min(quantity, its stored stock), nothing else changes |
| Cart.AddPreservesWellFormed | src/context/CartContext.tsx:23-36 | adding keeps ids unique and quantities and stored stocks at least 1 |
| Cart.RemovePreservesWellFormed | src/context/CartContext.tsx:39-43 | removing keeps the invariant |
| Cart.UpdatePreservesWellFormed | src/context/CartContext.tsx:45-61 | updating keeps the invariant |
| Cart.RemovePreservesCapped | src/context/CartContext.tsx:39-43 | removing keeps every quantity within its stored stock |
| Cart.UpdatePreservesCapped | src/context/CartContext.tsx:45-61 | updating keeps every quantity within its stored stock |
| Cart.AddPreservesCapped | src/context/CartContext.tsx:26-33 | adding keeps quantities within stored stock when given the stock the line stored |
| Cart.AddMayExceedStoredStock | src/context/CartContext.tsx:30-32 | a product re-added with a larger stock leaves a quantity above the line's stored stock |
| Cart.ItemCount | src/context/CartContext.tsx:68-70 | the count of an empty cart is 0 |
| Cart.CountAtLeastLines | src/context/CartContext.tsx:68-70 | with positive quantities the count is at least the number of lines |
| Cart.EffectivePrice | src/context/CartContext.tsx:74-76 | a zero discount keeps the price; a discount in [0,100] gives a price between 0 and the list price |
| Cart.Total | src/context/CartContext.tsx:72-79 | the total of an empty cart is 0 |
| Cart.TotalNonNegative | src/context/CartContext.tsx:72-79 | non-negative prices, discounts in [0,100] and non-negative quantities give a non-negative total |
| Cart.CountAppend | src/context/CartContext.tsx:68-70 | the count distributes over concatenation |
| Cart.SumAppend | src/context/CartContext.tsx:72-79 | the left fold of line contributions (the total's shape) distributes over concatenation |
| Cart.SingleFolds | src/context/CartContext.tsx:68-79 | one line counts its quantity and totals its effective price times quantity |
| Cart.CutCount | src/context/CartContext.tsx:68-70 | cutting a line out subtracts its quantity from the count |
| Cart.SumCut | src/context/CartContext.tsx:72-79 | cutting a line out of the fold subtracts exactly its contribution, so the total loses its line total |
| Cart.ReplaceFolds | src/context/CartContext.tsx:68-79 | replacing one line changes count and total by exactly that line's contribution |
| Cart.AddNewFolds | src/context/CartContext.tsx:35 | adding a new product adds 1 to the count and its effective price to the total |
| Cart.ShiftLineTotal | src/context/CartContext.tsx:74-77 | changing a line's quantity changes its line total by the step times the effective price |
| Cart.AddExistingFolds | src/context/CartContext.tsx:28-33 | re-adding changes the count from q to min(q+1, stock) and the total by the difference of that line's totals |
| Cart.RemoveFolds | src/context/CartContext.tsx:39-43 | removing a line subtracts its quantity from the count and its line total from the total |
| Cart.UpdateExistingFolds | src/context/CartContext.tsx:56-60 | updating changes the count from q to min(quantity, stored stock) and the total by the difference of that line's totals |
| Cart.CountIsQuantitiesNotLines | src/context/CartContext.tsx:68-70 | lines of quantity 2 and 3 count 5 |
| Cart.DiscountedTotal | src/context/CartContext.tsx:72-79 | one line at 100 with 20% off, quantity 2, totals 160 |
| Cart.CartStore.constructor | src/context/CartContext.tsx:21 | the provider starts with an empty, well-formed cart with count 0 and total 0 |
| Cart.CartStore.AddToCart | src/context/CartContext.tsx:23-37 | the new list is AddLine of the old one and the invariant holds |
| Cart.CartStore.RemoveFromCart | src/context/CartContext.tsx:39-43 | the new list is RemoveLine of the old one and the invariant holds |
| Cart.CartStore.UpdateQuantity | src/context/CartContext.tsx:45-62 | the new list is UpdateLine of the old one and the invariant holds |
| Cart.CartStore.ClearCart | src/context/CartContext.tsx:64-66 | the list is empty, with count 0 and total 0 |
| Strings.NatToString | src/components/ProductFilters.tsx:68 | the decimal form is non-empty digits without a leading zero and denotes the number |
| Strings.IntToString | src/components/ProductFilters.tsx:68 | the decimal form starts with '-' iff the number is negative, has no leading zero and denotes the number |
| Strings.ToLower | src/services/api.ts:51 | same length, upper-case ASCII letters lowered, other characters kept |
| Strings.TrimStart | src/services/api.ts:117 | the result is a suffix, starts with a non-space, and only spaces were dropped |
| Strings.TrimEnd | src/services/api.ts:117 | the result is a prefix, ends with a non-space, and only spaces were dropped |
| Strings.Trim | src/services/api.ts:117 | `trim` gives the middle slice of the string; everything cut off either end is white space and the result neither starts nor ends with it |
| Strings.TrimEmptyIffBlank | src/services/api.ts:117 | `trim` gives "" exactly when every character is white space |
| Addresses.WithoutDefaults | src/services/userProfile.ts:166 | every address is kept with `isDefault` set to false |
| Addresses.Stored | src/services/userProfile.ts:164 | the stored list, or the empty list when there is none |
| Addresses.ClearDefaults | src/services/userProfile.ts:192 | the in-place `forEach` leaves the array equal to WithoutDefaults of its old contents |
| Addresses.AddedList | src/services/userProfile.ts:159-170 | one new address with the generated id is appended; a default one is the sole default; otherwise old addresses are unchanged |
| Addresses.AddShippingAddress | src/services/userProfile.ts:143-176 | no profile and no user fails "User not authenticated"; a failed re-read fails "Failed to create user profile"; otherwise AddedList of the stored list, a missing list read as empty |
| Addresses.AddedKeepsIdsUnique | src/services/userProfile.ts:159-170 | a fresh id keeps ids unique |
| Addresses.AddedKeepsOneDefault | src/services/userProfile.ts:165-170 | adding keeps at most one default |
| Addresses.IndexOfId | src/services/userProfile.ts:188 | `findIndex` gives the first index with the id, or -1 iff none has it |
| Addresses.ApplyPatch | src/services/userProfile.ts:195-198 | `{...address, ...patch}`: each field present in the patch wins, every absent one keeps the old value |
| Addresses.PatchedList | src/services/userProfile.ts:191-198 | same length; the target gets the patch merged in; the others are unchanged or, for a default patch, made non-default |
| Addresses.UpdateShippingAddress | src/services/userProfile.ts:178-207 | a missing profile fails "User profile not found"; an unknown id fails "Address not found"; otherwise PatchedList at the first matching index |
| Addresses.PatchedFields | src/services/userProfile.ts:195-198 | each field of the target is the patch's when present, else the old one; other ids keep their place |
| Addresses.PatchToDefaultIsSole | src/services/userProfile.ts:191-198 | a patch setting `isDefault` makes the target the only default |
| Addresses.PatchWithoutDefaultKeepsFlags | src/services/userProfile.ts:191-198 | a patch not setting `isDefault` to true changes no other address's flag and keeps at most one default |
| Addresses.PatchOffSoleDefaultLeavesNone | src/services/userProfile.ts:191-198 | patching `isDefault: false` onto the sole default leaves no default |
| Addresses.PatchKeepsIdsUnique | src/services/userProfile.ts:195-198 | a patch that leaves the id alone keeps ids unique |
| Filters.TextParam | src/components/ProductFilters.tsx:29 | an absent or empty value reads as the default, any other value as itself |
| Filters.PriceParam | src/components/ProductFilters.tsx:31-32 | an absent, zero or non-numeric value reads as the bound |
| Filters.ParseFilters | src/components/ProductFilters.tsx:28-35 | missing category is "all", missing sort "default", missing prices the bounds; category and sort are never empty |
| Filters.UpdateURL | src/components/ProductFilters.tsx:58-86 | sets category iff non-empty and not "all", each price end iff it differs from its bound, sort iff not "default"; deletes them otherwise; keeps every other parameter |
| Filters.EncodingIsUnique | src/components/ProductFilters.tsx:58-83 | the resulting query is determined by the starting query and the state |
| Filters.EncodingIsIdempotent | src/components/ProductFilters.tsx:58-83 | applying updateURL again with the same state changes nothing |
| Filters.RoundTrip | src/components/ProductFilters.tsx:28-35 | parsing what updateURL wrote gives back a non-empty category and sort, and each price end at its bound or non-zero, when `Number` reads decimal strings as their value |
| Filters.ZeroPriceReadsAsBound | src/components/ProductFilters.tsx:31-32 | a price end of 0 away from a non-zero bound is written as "0" but read back as the bound, at either end |
| Filters.FilterPanel.constructor | src/components/ProductFilters.tsx:26-38 | the filters are the parsed query and the slider starts at the parsed range |
| Filters.FilterPanel.HandleCategoryChange | src/components/ProductFilters.tsx:88-95 | only the category changes; the URL is rewritten from the new filters |
| Filters.FilterPanel.HandlePriceChange | src/components/ProductFilters.tsx:98-100 | only the slider value changes; filters and URL stay |
| Filters.FilterPanel.HandlePriceChangeCommitted | src/components/ProductFilters.tsx:103-113 | only the price range changes, the URL is rewritten, the slider follows the committed range |
| Filters.FilterPanel.HandleSortChange | src/components/ProductFilters.tsx:115-122 | only the sort changes; the URL is rewritten from the new filters |
| Api.Property | src/services/api.ts:25 | reading a property of null throws; an object's present key gives its value; a missing key or a non-object gives `undefined` (own-property lookup of a key no prototype defines, such as `products`) |
| Api.Body | src/services/api.ts:20-24 | no response, `!ok` with the given message and an unparsable body each throw; otherwise the parsed body is returned |
| Api.ProductsOf | src/services/api.ts:20-25 | `data.products` after the fetch: each failure rethrown as it arose, a null body throws, an object's `products` is returned, anything else gives `undefined` |
| Api.FetchProducts | src/services/api.ts:18-30 | requests `/products`; every failure (no response, `!ok`, bad JSON, a null body) is rethrown; otherwise returns `data.products`, `undefined` when missing |
| Api.FetchProduct | src/services/api.ts:32-43 | requests `/products/<id>`; no response, `!ok` and bad JSON are rethrown; otherwise returns the parsed body |
| Api.FetchProductsByCategory | src/services/api.ts:45-69 | requests the lower-cased category; failures and a null body are rethrown; a `products` array is returned as it is, anything else gives [] |
| Api.CategoryName | src/services/api.ts:82-88 | a string stays verbatim; an object gives its first truthy field among `name`, `value`, `id`, and "" iff none is truthy; anything else gives "" |
| Api.CategoryNames | src/services/api.ts:81-89 | every survivor is truthy, no more survive than came in, every non-empty string survives |
| Api.CategoryNamesSingle | src/services/api.ts:81-89 | one element passes as its name when that is truthy and is dropped otherwise |
| Api.CategoryNamesExact | src/services/api.ts:81-89 | every survivor is the name of some element, and every element with a truthy name has it among the survivors |
| Api.CategoryNamesAppend | src/services/api.ts:81-89 | the chain distributes over concatenation, so survivors keep their order |
| Api.StringNamesVerbatim | src/services/api.ts:83 | an array of non-empty strings is returned unchanged |
| Api.FetchCategories | src/services/api.ts:71-97 | requests `/products/categories`; an array body gives CategoryNames of its elements; any other body or any failure gives [] |
| Api.MixedCategories | src/services/api.ts:80-89 | strings, a named object, "", a number and an id-less object give the two names in order |
| Api.SearchProducts | src/services/api.ts:99-111 | requests the search URL; every failure (no response, `!ok`, bad JSON, a null body) is rethrown; otherwise returns `data.products`, `undefined` when missing |
| Api.GetSearchSuggestions | src/services/api.ts:113-131 | no request iff the trimmed query is empty; a blank query or any failure gives []; otherwise `data.products`, `undefined` when missing |
| Api.SuggestionsSkipBlank | src/services/api.ts:117 | no request is made exactly for queries made only of white space |
| Api.SuggestionsUrlExtendsSearch | src/services/api.ts:101 | the suggestions URL is the search URL plus `&limit=5`, the same as a search for the query with `&limit=5` appended |
| Api.CategoryUrlIsLowerCase | src/services/api.ts:51 | the category part of the request path has no upper-case ASCII letter |
| Api.ProductUrlNamesId | src/services/api.ts:34 | the product request path ends in a decimal string denoting the id |
| Signup.SignupCheck | src/pages/Signup.tsx:35-43 | rejects exactly the unacceptable pairs; short gives the length message before the match is checked |
| Signup.HandleSubmit | src/pages/Signup.tsx:31-52 | signUp is called iff both checks pass; a rejection sets the message; a failed signUp resets `isSubmitting` |
| Signup.DisplayedError | src/pages/Signup.tsx:61-64 | the provider's error wins; when it is empty a non-empty validation error shows; nothing shows when both are empty |
| Signup.ShortMismatchReportsLength | src/pages/Signup.tsx:35-43 | a short, mismatched pair reports the length message |
| Profile.PasswordCheck | src/pages/Profile.tsx:137-143 | an empty password skips both checks; mismatch is reported before length |
| Profile.CheckOrdersDiffer | src/pages/Profile.tsx:138-143 | a short, mismatched pair gets the length message at sign-up and the mismatch message here |
| Profile.ChecksAcceptAlike | src/pages/Profile.tsx:137-143 | for a non-empty password both forms accept the same pairs |
| Profile.HandleUpdateProfile | src/pages/Profile.tsx:123-164 | the email update is called iff the email differs, and its rejection stops the submit with its message and the form unchanged; the password update is called iff the email step passed and the new password is non-empty and acceptable, and its rejection stops before the profile write; a resolved password update clears both fields; the profile is written whenever the earlier steps pass, and its rejection becomes the error; without a password update the form comes back unchanged |
| Profile.EmailUpdateNotUndone | src/pages/Profile.tsx:133-143 | a changed email stays updated when the password check then rejects |
| Profile.HandleTabChange | src/pages/Profile.tsx:117-121 | switches the tab and clears both messages, nothing else |
| Profile.HandleAddNewAddress | src/pages/Profile.tsx:200-212 | not editing, an all-empty non-default form, dialog open, nothing else |

## Behaviour worth noting

The model follows the code in each of these cases.

- Stock cap: `addToCart` clamps a re-added line to the stock of the product passed in, but keeps the stock stored on the line, so the quantity can exceed the stored stock (`Cart.AddMayExceedStoredStock`).
- Network failures: `fetchProducts`, `fetchProduct`, `fetchProductsByCategory` and `searchProducts` rethrow every failure. Only `fetchCategories` and `getSearchSuggestions` fall back to `[]`.
- Category names: `fetchCategories` returns whatever truthy `name`, `value` or `id` it finds, which need not be a string, so `Api.FetchCategories` returns JSON values.
- Filtering and sorting: `ProductFilters.tsx` keeps the filter state and the URL in step; it neither filters nor sorts the product list, so neither is modelled.

## Left out

- Firebase calls are not modelled: the identity provider, the document reads and writes, `createUserProfile`, `getUserOrders` and `uploadProfileImage`. Their results are parameters (`profile`, `reread`, `currentUser`, `CallOutcomes`, `signUpSucceeds`).
- `fetch`, `response.json()` and the promise flow are not modelled. A response is the value `Api.Response`.
- `console` logging is not modelled.
- Api.Property: a property read is an own-property lookup of a key that no prototype defines, which holds for `products`, the only key read. Prototype properties such as `"abc".length` or `toString` are not modelled.
- `crypto.randomUUID()` is not modelled. The new id is the `newId` parameter, and `Addresses.AddedKeepsIdsUnique` requires it to be fresh.
- Floating point is not modelled. Prices, discounts and totals are exact `real`s, and `toFixed` display rounding is left out.
- Filters.PriceParam: price ends and bounds are integers. `Number(...)` is the parameter `toNumber`, with a non-numeric string read as 0 (NaN and 0 are both falsy). Fractional price parameters are not modelled. `Filters.RoundTrip` assumes only that `toNumber` reads a decimal integer string as the integer it denotes, which `Number` does.
- Filters.UpdateURL: the query is a map with one value per name. The parameter order, repeated parameters and percent-encoding of `URLSearchParams` are not modelled.
- Strings.ToLower: only ASCII letters are lowered. Unicode case mapping is not modelled.
- Signup.SignupCheck: lengths count Unicode scalar values, not UTF-16 code units. A password with characters outside the Basic Multilingual Plane is shorter here than in the browser.
- Profile.PasswordCheck: lengths count Unicode scalar values, not UTF-16 code units, as in `Signup.SignupCheck`; a password with characters outside the Basic Multilingual Plane can pass the browser's length check and fail this one.
- React scheduling is not modelled. State updates apply at once, and the `useEffect` hooks are left out, except the one that resyncs the slider after a committed price change.
- Cart.Product: only `id`, `title`, `price`, `category`, `stock`, `rating` and `discountPercentage` are kept. `description`, `brand`, `thumbnail`, `images` and `tags` are carried through unchanged in the source and are omitted. `stock` is a `nat` and quantities are integers, where the source has JS numbers: a negative stock, with which `Math.min(q + 1, stock)` would store a negative quantity, and a fractional quantity passed to `updateQuantity`, which the source stores as given, are not expressible.
- Cart.AddPreservesCapped: the stock cap is proved only when `addToCart` is given the stock the line stored. In general it does not hold (see above).
- Profile.HandleUpdateProfile: the `loading` flag and the re-read profile are not part of the outcome.
- `handleAddressSubmit`, `handleEditAddress` and `handleImageUpload` in `Profile.tsx` are not part of this model, nor is the profile-loading effect.
- Rendering is not modelled: all JSX, `Navbar.tsx`, `Home.tsx`, `Cart.tsx`, `Login.tsx`, `App.tsx` and `theme.ts`. The call sites in `Cart.tsx` that pass ±1 as a delta to `updateQuantity` are not followed; `Cart.UpdateLine` models the absolute quantity that `CartContext.tsx` implements.
