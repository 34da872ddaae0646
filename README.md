# Madma store client, modelled in Dafny

This project models the browser client of the Madma store program. The program is a Solana
program (written with Anchor) that keeps one store, its designs and the orders placed for those
designs. The model covers:

- **the program's interface description** (`src/idl/madma.ts`): the six instructions with
  their arguments and accounts, the three account layouts, the `OrderStatus` enum and the eight
  error codes (`Idl`);
- **the shared data context** (`src/contexts/ProgramProvider.tsx`): the designs and orders it
  caches, the loading flag, the 30-second staleness window that `refreshData(force)` respects,
  and the two byte filters it reads with (`ProgramProvider.DataCache`);
- **the order table** (`OrderList.tsx`): its fetch query per viewer, its search and sort, and
  the status-update call with its re-fetch (`OrderList`);
- **the design grid** (`DesignList.tsx`): its fetch, the visibility filter and the render
  decision (`DesignList`);
- **the owner page** (`src/pages/owner.tsx`): the store check, the design creation form that
  derives the new design's address from the store's design count, and the screen choice
  (`OwnerPage`);
- **the order form** (`PlaceOrderForm.tsx`): it reads the store's authority, derives the order
  address from store and buyer, and calls `createOrder` (`PlaceOrderForm`);
- **the stand-alone design form** (`CreateDesign.tsx`): its two guards, its call and its
  notices (`CreateDesign`).

The components are named relative to `src/components/MadmaStore/` above. Three support modules
hold shared definitions:

- `Wrappers` has `Option` and `Result`;
- `Seqs` models `Array.prototype.filter`, with its subsequence and count properties;
- `Bytes` has bytes, fixed-width integers, `BN.toArrayLike(Buffer, "le", 8)` and its inverse,
  and `Buffer.from` of an ASCII word.

`Pda` holds the seed lists. `PublicKey.findProgramAddressSync` is a hash that this model does not
compute, so every operation that needs it takes it as a parameter `derive: Seeds -> Key`. In the
same way, the base58 text of a key (`toString`) is a parameter `keyText`. The outcome of each
network read or transaction (`fetch`, `all`, `rpc`) is a `Result` value passed in.

React components are classes in the model. Their `useState` variables are fields, and each
handler is a method whose `modifies this` frame and `ensures` clauses state the whole new state.
Expressions computed during render (`filteredOrders`, `filteredDesigns`, the screen choice) are
functions.

A call to the program is modelled as a `Request`: the instruction, the argument values in order,
and the accounts in the order the client lists them. `Idl.Conforms` says a request matches the
interface description. It checks the declared argument count, the argument types (an enum value
must be a variant's key), and exactly the declared account names in declared order. Account
names are an enum whose spellings (`Idl.AccountNameText`) are the names in the description.

Observations the proofs make explicit:

- **The design filter does not look at a store.** `refreshData` reads designs with a 32-byte
  filter at offset 8, holding the store's address. But the design layout has no store field: it
  starts with `designId` and `price` (`Idl.DesignLeadingOffsets`). The filter therefore matches
  only a design whose id and price bytes equal the first sixteen bytes of the store's address
  (`Idl.DesignOffsetEightIsDesignId`, and for the filter the cache sends,
  `ProgramProvider.DesignFilterComparesIdAndPrice`). The `DesignAccount` interface in `DesignList.tsx` declares
  a `store` field that the layout does not have. `DesignList` reads all designs with no filter.
- **`CreateDesign.tsx` passes no accounts**, while `createDesign` declares four
  (`CreateDesign.DirectRequestOmitsAccounts`). The owner page's form passes all four
  (`OwnerPage.CreateDesignRequestSpec`).
- **The owner page computes `isOwner` but never reads it.** The forms and lists appear for any
  connected wallet once the store exists. A failed store check clears `storeInitialized` but
  leaves `isOwner` as it was (`OwnerPage.OwnerPageState.CheckStore`).
- **The status select lists its options in a different order from the enum**: Completed
  before Cancelled. Each option still encodes to its own variant
  (`OrderList.StatusOptionEncoding`). The select's default value is a problem; see Findings.
- In `refreshData` an elapsed time of exactly 30000 ms counts as stale, because the comparison
  is strict (`ProgramProvider.WindowBoundaryIsStale`).

## Model

| member | source | states |
|---|---|---|
| Seqs.Filter | src/components/MadmaStore/OrderList.tsx:112-116 | `Array.prototype.filter`: every kept element is an element of the input satisfying the test, and every element satisfying the test is kept |
| Seqs.FilterIsSubsequence | src/components/MadmaStore/DesignList.tsx:57-60 | the filter keeps input order: its result is a subsequence of the input |
| Seqs.FilterCount | src/components/MadmaStore/DesignList.tsx:57-60 | the filter keeps a passing element exactly as often as it occurs and drops every failing one (multiset count) |
| Seqs.FilterAllPass | src/components/MadmaStore/DesignList.tsx:57-60 | when every element passes, the filter returns its input unchanged |
| Seqs.FilterIdempotent | src/components/MadmaStore/DesignList.tsx:57-60 | filtering twice with one test equals filtering once |
| Bytes.LittleEndian | src/pages/owner.tsx:72 | `toArrayLike(Buffer, "le", 8)`: the encoding of a value below 256^k has exactly k bytes |
| Bytes.FromLittleEndian | src/pages/owner.tsx:72 | decoding k bytes gives a value below 256^k |
| Bytes.DecodeEncode | src/pages/owner.tsx:72 | decoding the k-byte encoding of n gives back n |
| Bytes.EncodeDecode | src/pages/owner.tsx:72 | encoding the decoded value of a byte string at its own length gives back that byte string |
| Bytes.U64LittleEndian | src/pages/owner.tsx:66-72 | a `u64` design id encodes to 8 bytes that decode back to it |
| Bytes.U64LittleEndianInjective | src/pages/owner.tsx:72 | different ids have different 8-byte encodings |
| Bytes.Ascii | src/pages/owner.tsx:70 | `Buffer.from` of an ASCII word: one byte per character, equal to its code |
| Idl.VariantIndex | src/idl/madma.ts:320-346 | each `OrderStatus` variant sits at its own position in the declared variant list |
| Idl.VariantAt | src/idl/madma.ts:320-346 | a position gives a variant exactly when it lies in 0..5, and that variant's position is the one asked for |
| Idl.VariantFromName | src/idl/madma.ts:320-346 | a name resolves only to the variant declared under that name |
| Idl.VariantFromKey | src/idl/madma.ts:320-346 | an object key resolves only to the variant carrying that key |
| Idl.OrderStatusClosed | src/idl/madma.ts:320-346 | there are exactly six distinct variants, and each is recovered from its position |
| Idl.VariantNameKeyRoundTrip | src/idl/madma.ts:320-346 | a variant's name and its key each map back to the variant |
| Idl.ErrorCode | src/idl/madma.ts:348-389 | each error's code lies in 6000..6007 and indexes that error in the declared table |
| Idl.ErrorFromCode | src/idl/madma.ts:348-389 | a code resolves exactly when it lies in 6000..6007, and only to the error with that code |
| Idl.ErrorFromName | src/idl/madma.ts:348-389 | a name resolves only to the error declared under it |
| Idl.ErrorCodesConsecutive | src/idl/madma.ts:348-389 | there are eight errors, numbered consecutively from 6000 in declared order |
| Idl.ErrorFromMessage | src/idl/madma.ts:348-389 | a message resolves only to the error whose table entry carries it |
| Idl.ErrorRoundTrips | src/idl/madma.ts:348-389 | code-to-error, name-to-error and message-to-error invert the forward maps |
| Idl.ErrorCodesAndNamesInjective | src/idl/madma.ts:348-389 | distinct errors have distinct codes, distinct names and distinct messages |
| Idl.PrefixWidth | src/idl/madma.ts:213-318 | a field list has a total width exactly when every field has a fixed width |
| Idl.FieldIndex | src/idl/madma.ts:213-318 | the index found is the first field carrying the name; no index means no field carries it |
| Idl.FieldOffset | src/idl/madma.ts:213-318 | every field offset lies past the 8-byte discriminator |
| Idl.PrefixWidthAppend | src/idl/madma.ts:213-318 | appending a field adds its fixed width to the total width, and an unfixed width makes the total unfixed |
| Idl.FieldsAreContiguous | src/idl/madma.ts:213-318 | fields lie in declared order with no gaps: the first starts at 8, each next one where the one before ends, and none has a fixed offset after a variable-width field |
| Idl.OrderKeyOffsets | src/idl/madma.ts:253-294 | in an order, `store` starts at byte 8 and `buyer` at byte 40 |
| Idl.OrderDesignIdOffset | src/idl/madma.ts:253-294 | in an order, `designId` starts at byte 72 |
| Idl.OrderStatusOffsetUnfixed | src/idl/madma.ts:253-294 | in an order, `status` follows the string `shippingInfo` and so has no fixed offset |
| Idl.DesignLeadingOffsets | src/idl/madma.ts:213-252 | a design starts with `designId` at byte 8 and `price` at byte 16 |
| Idl.DesignTextOffsets | src/idl/madma.ts:213-252 | `title` starts at byte 24; from `description` on, no field has a fixed offset |
| Idl.StoreSize | src/idl/madma.ts:295-318 | a store is 57 bytes, with `designsCount` at 40 and `bump` at 56 |
| Idl.BuyerFilterSelectsBuyer | src/components/MadmaStore/OrderList.tsx:60-67 | on an order laid out as declared, a key filter at offset 40 matches exactly when the buyer is that key |
| Idl.StoreFilterSelectsOrderStore | src/idl/madma.ts:253-294 | on an order laid out as declared, a key filter at offset 8 matches exactly when the order's store is that key |
| Idl.DesignOffsetEightIsDesignId | src/contexts/ProgramProvider.tsx:72-79 | on a design laid out as declared, a 32-byte filter at offset 8 matches only when the key's first 8 bytes decode to the design id and the next 8 to its price |
| Idl.AccountNameTextInjective | src/idl/madma.ts:4-211 | two account names are spelled alike exactly when they are the same name |
| Idl.NamesOf | src/idl/madma.ts:4-211 | the declared names of an instruction, one per declared account, in order |
| Idl.AccountNamesDistinct | src/idl/madma.ts:4-211 | no instruction declares an account name twice |
| Idl.ArgumentLists | src/idl/madma.ts:4-211 | `createDesign` takes four mandatory arguments, `updateDesign` five optional ones, `updateOrderStatus` one `OrderStatus`, and the other two none |
| Idl.PassedNames | src/components/MadmaStore/PlaceOrderForm.tsx:61-68 | the names of a call's accounts, one per account, in order |
| Pda.SeedWordsAreAscii | src/contexts/ProgramProvider.tsx:62-65 | the literal seeds are the `Buffer.from` bytes of "store", "design" and "order" |
| Pda.StoreSeeds | src/contexts/ProgramProvider.tsx:62-65 | the store's address comes from the single seed "store" |
| Pda.DesignSeeds | src/pages/owner.tsx:68-75 | a design's seeds are "design", the store's address, and 8 bytes that decode to the design id |
| Pda.OrderSeeds | src/components/MadmaStore/PlaceOrderForm.tsx:45-52 | an order's seeds are "order", the store's address and the buyer's key |
| Pda.DesignSeedsInjective | src/pages/owner.tsx:68-75 | equal design seed lists come from the same store and the same id |
| Pda.OrderSeedsInjective | src/components/MadmaStore/PlaceOrderForm.tsx:45-52 | equal order seed lists come from the same store and the same buyer |
| Pda.SeedKindsDistinct | src/components/MadmaStore/PlaceOrderForm.tsx:33-52 | store, design and order seed lists never coincide |
| ProgramProvider.ForcedRefreshFetches | src/contexts/ProgramProvider.tsx:54-60 | a forced refresh passes the staleness guard whatever the elapsed time |
| ProgramProvider.FirstRefreshFetches | src/contexts/ProgramProvider.tsx:27-28 | before any successful fetch (time 0), every refresh passes the guard |
| ProgramProvider.WindowBoundaryIsStale | src/contexts/ProgramProvider.tsx:57-59 | exactly 30000 ms after a fetch the cache is already stale |
| ProgramProvider.NonForcedSkipsExactlyInsideWindow | src/contexts/ProgramProvider.tsx:57-59 | a non-forced refresh is skipped if and only if a fetch succeeded less than 30000 ms ago |
| ProgramProvider.DesignFilter | src/contexts/ProgramProvider.tsx:72-79 | designs are read with the store's address at offset 8, which in the design layout is where `designId` starts |
| ProgramProvider.DesignFilterComparesIdAndPrice | src/contexts/ProgramProvider.tsx:72-79 | a design passes the filter the cache sends only when the first sixteen bytes of the store's address spell its `designId` and `price` |
| ProgramProvider.OrderFilter | src/contexts/ProgramProvider.tsx:80-87 | orders are read with the wallet key at the offset the layout gives `buyer` |
| ProgramProvider.DataCache.constructor | src/contexts/ProgramProvider.tsx:27-35 | the cache starts empty, not loading, with fetch time 0 |
| ProgramProvider.DataCache.BeginRefresh | src/contexts/ProgramProvider.tsx:54-88 | the reads go out exactly with program, wallet and a passed guard. They use both filters and the time read beforehand, and raise the loading flag. Nothing else changes |
| ProgramProvider.DataCache.EndRefresh | src/contexts/ProgramProvider.tsx:92-106 | success replaces both lists and stamps the fetch time; failure keeps lists and time; the loading flag drops either way |
| ProgramProvider.DataCache.Refresh | src/contexts/ProgramProvider.tsx:54-107 | one `refreshData(force)`: whether it fetches, and the resulting lists, fetch time and loading flag |
| ProgramProvider.RefreshTwice | src/contexts/ProgramProvider.tsx:54-107 | after a successful fetch, a second non-forced refresh inside the window fetches nothing and keeps the first results. After a failed fetch it fetches again |
| OrderList.Lower | src/components/MadmaStore/OrderList.tsx:115 | `toLowerCase` keeps the length and lower-cases each character |
| OrderList.LowerIdempotent | src/components/MadmaStore/OrderList.tsx:115 | lower-casing twice equals lower-casing once |
| OrderList.IncludesAt | src/components/MadmaStore/OrderList.tsx:114-115 | `includes` holds exactly when the term occurs at some position |
| OrderList.IncludesEmpty | src/components/MadmaStore/OrderList.tsx:114-115 | every string includes the empty term |
| OrderList.SearchSpec | src/components/MadmaStore/OrderList.tsx:112-116 | an order survives the search if and only if it was fetched and matches: its address text contains the term, or its lower-cased shipping text contains the lower-cased term. It survives as often as fetched, in fetched order |
| OrderList.EmptySearchKeepsAll | src/components/MadmaStore/OrderList.tsx:112-116 | an empty search term keeps every order, in order |
| OrderList.Toggle | src/components/MadmaStore/OrderList.tsx:138 | toggling always changes the direction |
| OrderList.ToggleInvolution | src/components/MadmaStore/OrderList.tsx:138 | toggling twice restores the direction |
| OrderList.Insert | src/components/MadmaStore/OrderList.tsx:117-121 | inserting adds exactly one occurrence of the order |
| OrderList.InsertSorted | src/components/MadmaStore/OrderList.tsx:117-121 | inserting into a list sorted by `createdAt` in the chosen direction keeps it sorted |
| OrderList.SortByCreatedAt | src/components/MadmaStore/OrderList.tsx:117-121 | the sort is a permutation of its input, ordered by `createdAt` in the chosen direction |
| OrderList.FilteredOrdersSpec | src/components/MadmaStore/OrderList.tsx:112-121 | the shown list is non-decreasing in `createdAt` for asc and non-increasing for desc. It is a permutation of the search result and holds an order if and only if it was fetched and matches. With an empty term it is a permutation of all fetched orders |
| OrderList.EncodeStatusOption | src/components/MadmaStore/OrderList.tsx:87-89 | the status argument is an enum value keyed by the option, length preserved |
| OrderList.LowerVariantName | src/components/MadmaStore/OrderList.tsx:87-89 | lower-casing a variant's name gives its object key |
| OrderList.StatusOptionEncoding | src/components/MadmaStore/OrderList.tsx:87-89 | every variant's name is an option, and it encodes to that variant's key, which decodes back to the variant |
| OrderList.StatusOptionsAreVariants | src/components/MadmaStore/OrderList.tsx:194-199 | there are six distinct options, one per variant, each naming a variant |
| OrderList.InitialOption | src/components/MadmaStore/OrderList.tsx:189-200 | the select starts at the option whose value is its default value, or at the first option when none matches |
| OrderList.StatusSelectIgnoresStatus | src/components/MadmaStore/OrderList.tsx:192 | as written, a lower-case status key matches no option, so every row's select starts at "Created" |
| OrderList.StatusSelectShowsStatus | src/components/MadmaStore/OrderList.tsx:192-199 | defaulting to the variant's name starts the select at the order's own status |
| OrderList.StatusUpdateRequestConforms | src/components/MadmaStore/OrderList.tsx:78-98 | for every option of the select, the status call matches the interface description |
| OrderList.StatusUpdateRequestConformsFor | src/components/MadmaStore/OrderList.tsx:87-98 | a status call matches the description if and only if its lower-cased option is a variant's key |
| OrderList.QueryFor | src/components/MadmaStore/OrderList.tsx:57-68 | owners read all orders; others read with their key at the `buyer` offset |
| OrderList.QuerySelectsOwnOrders | src/components/MadmaStore/OrderList.tsx:57-68 | a customer's query matches an order exactly when the customer is its buyer |
| OrderList.OrderListView.constructor | src/components/MadmaStore/OrderList.tsx:46-49 | the table starts empty, not loading, with an empty search and descending sort |
| OrderList.OrderListView.SetSearchTerm | src/components/MadmaStore/OrderList.tsx:134 | the search term is replaced and nothing else changes |
| OrderList.OrderListView.ToggleSort | src/components/MadmaStore/OrderList.tsx:138 | the direction flips and nothing else changes |
| OrderList.OrderListView.FetchOrders | src/components/MadmaStore/OrderList.tsx:51-76 | with program and wallet, the viewer's query is read: success replaces the list, failure keeps it, and the loading flag ends down. Without them nothing happens |
| OrderList.OrderListView.UpdateOrderStatus | src/components/MadmaStore/OrderList.tsx:78-106 | with program and wallet, the status call for the lower-cased option goes out signed by the wallet. Only a confirmed call re-fetches: the list is then replaced by a successful read and the loading flag ends down; otherwise the view is unchanged |
| DesignList.OwnerSeesAll | src/components/MadmaStore/DesignList.tsx:57-60 | the owner's view shows every fetched design, in order |
| DesignList.CustomerSeesExactlyAvailable | src/components/MadmaStore/DesignList.tsx:57-60 | a customer sees a design if and only if it was fetched and is available, as often as fetched and in fetched order |
| DesignList.FilterOrderPreservingIdempotent | src/components/MadmaStore/DesignList.tsx:57-60 | the visibility filter keeps order and is idempotent in both views |
| DesignList.ToggleLabel | src/components/MadmaStore/DesignList.tsx:105 | the owner's button reads "Disable" exactly for available designs and "Enable" exactly for the others |
| DesignList.CardFor | src/components/MadmaStore/DesignList.tsx:74-117 | a card is dimmed exactly in the owner's view of an unavailable design; its button is the toggle label for the owner and "Buy Now" otherwise |
| DesignList.Cards | src/components/MadmaStore/DesignList.tsx:74 | one card per shown design, in order |
| DesignList.RenderSpec | src/components/MadmaStore/DesignList.tsx:62-77 | loading comes first. With nothing visible the page shows the view's message, and the owner sees it only when nothing was fetched. Otherwise there is one card per visible design, and a customer's cards are undimmed, available and "Buy Now" |
| DesignList.DesignListView.constructor | src/components/MadmaStore/DesignList.tsx:26-27 | the grid starts empty and not loading |
| DesignList.DesignListView.FetchDesigns | src/components/MadmaStore/DesignList.tsx:29-51 | with a program, all designs are read with no filter: success replaces the list, failure keeps it, and the loading flag ends down |
| OwnerPage.PageScreen | src/pages/owner.tsx:115-127 | not connected shows the wallet message; connected without a store shows the initialise form; otherwise the dashboard |
| OwnerPage.OwnerTestIsKeyEquality | src/pages/owner.tsx:42 | with an injective key-to-text map, the text comparison is key equality |
| OwnerPage.CreateDesignRequestSpec | src/pages/owner.tsx:65-90 | the call matches the description, signs with the wallet as `authority`, and addresses the design from the store and its current `designsCount` |
| OwnerPage.DesignSeedsFollowCount | src/pages/owner.tsx:65-75 | different design counts give different design seed lists |
| OwnerPage.OwnerPageState.constructor | src/pages/owner.tsx:23-29 | empty fields, no loading, not owner, store not initialised |
| OwnerPage.OwnerPageState.CheckStore | src/pages/owner.tsx:32-47 | with program and wallet, a successful read sets `storeInitialized` and compares the authority's text with the wallet's. A failed read clears `storeInitialized` and keeps `isOwner`. Nothing else changes |
| OwnerPage.OwnerPageState.HandleSubmit | src/pages/owner.tsx:52-113 | with a program and a successful store read, the create call is built from the captured fields and the store's design count. The fields clear only on confirmation, and the loading flag ends down |
| PlaceOrderForm.OrderRequestSpec | src/components/MadmaStore/PlaceOrderForm.tsx:39-69 | the call matches the description, passes the record's authority as `storeAuthority` and the buyer key as `buyer`, and derives the order from store and buyer |
| PlaceOrderForm.OrderAddressIgnoresDesign | src/components/MadmaStore/PlaceOrderForm.tsx:45-52 | the order address depends on neither the design, the shipping text nor the store record |
| PlaceOrderForm.PlaceOrderFormState.constructor | src/components/MadmaStore/PlaceOrderForm.tsx:21-25 | the form starts empty, not loading, closed zero times |
| PlaceOrderForm.EnabledSubmitHasWallet | src/components/MadmaStore/PlaceOrderForm.tsx:133 | an enabled submit button implies a wallet, so the handler's guard then turns only on the program; while not loading the button is enabled exactly when there is a wallet |
| PlaceOrderForm.PlaceOrderFormState.HandleSubmit | src/components/MadmaStore/PlaceOrderForm.tsx:27-88 | with program, wallet and a successful store read the order call goes out. `onClose` runs once exactly when it is confirmed, and the loading flag ends down |
| CreateDesign.GuardNotice | src/components/MadmaStore/CreateDesign.tsx:15-23 | the call goes ahead exactly with a program and four non-empty fields. A missing program is reported first, then missing fields |
| CreateDesign.EnabledButtonPassesGuards | src/components/MadmaStore/CreateDesign.tsx:102 | an enabled button passes both guards; when not loading, the button is enabled exactly when the guards pass |
| CreateDesign.OutcomeNotice | src/components/MadmaStore/CreateDesign.tsx:36-53 | success reports the transaction id. A failure reports its message, or "Failed to create design" when the message is empty |
| CreateDesign.DirectRequestOmitsAccounts | src/components/MadmaStore/CreateDesign.tsx:27-34 | the call's arguments match the description, but it passes none of the four declared accounts and so does not conform |
| CreateDesign.CreateDesignForm.constructor | src/components/MadmaStore/CreateDesign.tsx:8-12 | empty fields, not loading |
| CreateDesign.CreateDesignForm.HandleCreateDesign | src/components/MadmaStore/CreateDesign.tsx:14-57 | a failed guard raises its notice and changes nothing. Otherwise the call goes out, the outcome notice is raised, the fields clear only on success, and the loading flag ends down |

## Findings

| source | as written | input that shows it | evidently intended | confidence | as-written member | corrected member |
|---|---|---|---|---|---|---|
| src/components/MadmaStore/OrderList.tsx:192 | each row's status select gets the decoded status's object key (`shipped`) as default value. The option values are capitalised (`Shipped`), so no option matches | an order whose status is `{ shipped: {} }`: its select starts at "Created" | the select starts at the order's current status | medium, not executed | OrderList.StatusSelectIgnoresStatus | OrderList.StatusSelectShowsStatus |

## Left out

- The SOL-to-lamport conversions (`parseFloat(price) * 1e9`, `Number(price) * 1e9` and `new BN`)
  are floating point. Each handler takes the converted `u64` lamport amount as a parameter. A
  `BN` built from a non-integer or out-of-range float is not modelled.
- `BN.toNumber` (design count, `createdAt`) is taken as exact. The model does not capture the
  loss of precision above 2^53.
- `OrderList.Lower` lower-cases ASCII letters only. Unicode case mapping is not modelled.
- `PublicKey.findProgramAddressSync` (a hash with bump search) is the parameter `derive`. Base58
  `toString`/`toBase58` is the parameter `keyText`, or is implicit in a filter's bytes. The
  model therefore proves nothing about distinct addresses beyond distinct seed lists.
- Network reads, transactions and their confirmation are `Result`/`bool` parameters. Their
  concurrency (`Promise.all`, interleaved handlers, React effect scheduling) is not modelled.
  Each handler runs to completion as one step, with the outcome of each await given.
- `ProgramProvider.DataCache`: `lastFetchTime` is a module-level variable shared by every
  provider instance in the page. The model keeps it as a field of the one cache.
- The on-chain program (what each instruction does to accounts, the fee transfer, the error
  conditions) is not part of this model. Only its interface description is.
- Notifications are modelled only in `CreateDesign`, where they are the only effect of the guard
  branches. The other handlers' `notify` calls, `console` logging and console text are left
  out.
- `OwnerPage.OwnerPageState.HandleSubmit`: the success and failure notices, including the
  `'Failed to create design'` fallback, are not in its contract.
- Rendering details are left out: styles, images and their fallback, price display in SOL, and
  date formatting of `createdAt`.
- The browser's `required` check on the order form's shipping field is left out.
  `PlaceOrderForm.PlaceOrderFormState.HandleSubmit` is modelled as called.
- `OrderList.SortByCreatedAt` is an insertion sort. It is proved sorted and a permutation, but
  it is not proved stable with respect to the original `Array.prototype.sort` order of
  equal timestamps.
- `Idl.FixedWidth` counts a user-defined enum field as having no fixed width. No offset the
  client uses lies after such a field, because `status` already follows a string.
- The duplicate copy of the interface description later in `src/idl/madma.ts` (the exported
  `IDL` constant) is identical to the type and is modelled once.
- The owner's Enable/Disable and the customer's Buy Now buttons only log to the console. Their
  labels are modelled; their handlers are not.
- The other pages and components (`InitializeStore`, `EditDesignForm`, `StoreInfo`, the home
  page, `_app`, the notification store) are not part of this model.
