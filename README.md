# TuniMode marketplace core, modelled in Dafny

TuniMode is a second-hand and small-shop fashion marketplace. An Express/PostgreSQL
backend serves accounts, listings, ads, orders, reviews, colours and a category
tree. A Next.js client normalises the API's answers, builds search URLs and drives
the listing form. This project models the decision logic of that core:

- the request guards;
- the SQL text and parameter lists the handlers build;
- the validation chains and the order in which their errors win;
- the normalisation functions of the client;
- the state the client keeps.

It then proves what those pieces promise.

Layout:

- Each source file is one module.
- `Js` holds the JavaScript semantics they share: truthiness, `Number(...)` coercion with the parser as a parameter, ASCII case mapping, `trim`, decimal rendering, `join`/`split`, `filter`, `Set` de-duplication.
- State the source updates in place is a class with `modifies` clauses. This covers the database tables a route writes, the module-level session of the API client and the listing form.
- The remaining pieces are functions and lemmas.
- Loops the source writes become methods with invariants, proved against a specification function:
  - the condition builders;
  - the colour normalisation loop;
  - the two passes of the category tree;
  - the category walk of both pages;
  - the `URLSearchParams` filling.

Things outside the program are parameters:

- the database, as the class state;
- `jwt.verify` and `jwt.sign`;
- `bcrypt`;
- `Number(string)`, `String(number)` and URL encoding;
- `fetch` results;
- the clock.

## Model

| member | source | states |
|---|---|---|
| Js.Lower | backend/src/services/colorService.js:21 | `toLowerCase` maps each character and keeps the length |
| Js.Upper | backend/src/services/listingReferenceService.js:13 | `toUpperCase` maps each character and keeps the length |
| Js.LowerIdempotent | backend/src/services/colorService.js:14 | lower-casing twice equals lower-casing once |
| Js.TrimStart | frontendnext/tunimode-web/src/utils/searchFilters.ts:13 | no white space is left at the start |
| Js.TrimEnd | frontendnext/tunimode-web/src/utils/searchFilters.ts:13 | no white space is left at the end |
| Js.Trim | frontendnext/tunimode-web/src/utils/searchFilters.ts:13 | `trim` leaves no white space at either end |
| Js.TrimOfTrimmed | frontendnext/tunimode-web/src/utils/searchFilters.ts:20 | trimming a string without surrounding space returns it unchanged |
| Js.TrimIdempotent | frontendnext/tunimode-web/src/utils/searchFilters.ts:62-63 | trimming twice equals trimming once |
| Js.DropFirstSpace | frontendnext/tunimode-web/src/utils/searchFilters.ts:13 | dropping one leading space extends the dropped all-space prefix by one |
| Js.DropLastSpace | frontendnext/tunimode-web/src/utils/searchFilters.ts:13 | dropping one trailing space extends the dropped all-space suffix by one |
| Js.TrimStartIsSuffix | frontendnext/tunimode-web/src/utils/searchFilters.ts:13 | `trimStart` returns a suffix of its input and drops only white space |
| Js.TrimEndIsPrefix | frontendnext/tunimode-web/src/utils/searchFilters.ts:13 | `trimEnd` returns a prefix of its input and drops only white space |
| Js.TrimIsSlice | frontendnext/tunimode-web/src/utils/searchFilters.ts:13 | `trim` returns a contiguous slice of its input with only white space before and after it |
| Js.SliceOfSuffix | frontendnext/tunimode-web/src/utils/searchFilters.ts:13 | the front of a suffix is a slice of the whole |
| Js.NatToString | backend/src/models/userModel.js:151 | the decimal rendering of a placeholder number is non-empty and all digits |
| Js.DigitsValueOfNatToString | backend/src/models/userModel.js:151-208 | reading back the decimal rendering of `n` gives `n` |
| Js.NatToStringInjective | backend/src/services/listingReferenceService.js:14-16 | distinct numbers render differently |
| Js.JoinStartsWithFirst | frontendnext/tunimode-web/src/utils/searchFilters.ts:25 | a join begins with its first piece |
| Js.JoinSnoc | frontendnext/tunimode-web/app/listing/new/page.tsx:105 | joining one more piece appends the separator and the piece |
| Js.Split | frontendnext/tunimode-web/src/utils/searchFilters.ts:12 | `split` always yields at least one piece |
| Js.SplitNoSeparator | frontendnext/tunimode-web/src/utils/searchFilters.ts:12 | a text without the separator splits into itself |
| Js.SplitAfterPiece | frontendnext/tunimode-web/src/utils/searchFilters.ts:12 | splitting `x,y` gives `x` followed by the pieces of `y` |
| Js.SplitJoin | frontendnext/tunimode-web/src/utils/searchFilters.ts:12-25 | splitting a join of separator-free pieces gives the pieces back |
| Js.RemoveAll | frontendnext/tunimode-web/src/components/QuickFiltersDialog.tsx:154 | `filter(s => s !== x)` drops `x` entirely and keeps every other element |
| Js.KeepIn | frontendnext/tunimode-web/src/components/QuickFiltersDialog.tsx:111 | `filter(s => list.includes(s))` keeps exactly the elements also in `list` |
| Js.Dedup | frontendnext/tunimode-web/src/services/api.ts:110-116 | `Array.from(new Set(xs))` has the same elements as `xs` and no duplicates |
| Js.DedupSnoc | frontendnext/tunimode-web/src/services/api.ts:110-116 | one more element is appended iff it was not already there, so first occurrences keep input order |
| Js.DedupAfter | backend/src/services/colorService.js:34-37 | skipping what the seen-set holds keeps the output free of duplicates and disjoint from it |
| Js.DedupAfterSnoc | backend/src/services/colorService.js:34-37 | de-duplicating one more element appends it iff it is neither seen nor earlier in the list |
| UserModel.TextOrNull | backend/src/models/userModel.js:156 | `v or null`: null iff the text is empty or missing; any other text is kept as that text |
| UserModel.CreatedRowFields | backend/src/models/userModel.js:91-131 | both tables get the same lower-cased e-mail; only the seller row has `store_name` and only the client row `profile_name`, which falls back to `name` when falsy; an empty address is stored as null |
| UserModel.Supplied | backend/src/models/userModel.js:150-200 | exactly the candidates whose field is not undefined, in order |
| UserModel.Columns | backend/src/models/userModel.js:150-200 | the column of each supplied assignment, in order |
| UserModel.BoundValues | backend/src/models/userModel.js:150-200 | the value of each supplied assignment, in order |
| UserModel.Placeholder | backend/src/models/userModel.js:151 | `$k` is a dollar sign followed by digits worth `k` |
| UserModel.NumberedClauses | backend/src/models/userModel.js:151-199 | clause `i` is `column = $(i+1)` |
| UserModel.BuildUpdate | backend/src/models/userModel.js:146-208 | no statement iff nothing is supplied; otherwise the table follows the role, clauses are numbered 1..n, and the id is the last value, bound as `$(n+1)` |
| UserModel.PushClauses | backend/src/models/userModel.js:146-200 | after the guarded pushes the clauses are `column = $k` for the supplied fields in order, the values are theirs, and `idx` is one past their count |
| UserModel.SuppliedPrefix | backend/src/models/userModel.js:150-199 | one more guarded push adds an assignment exactly when its field is defined |
| UserModel.NumberedSnoc | backend/src/models/userModel.js:151-197 | one more assignment adds one clause, numbered after the others |
| UserModel.BoundSnoc | backend/src/models/userModel.js:152-198 | one more assignment binds its value after the others |
| UserModel.PlaceholdersBindInOrder | backend/src/models/userModel.js:150-208 | placeholder `$k` of clause `k` binds `values[k-1]`, and `$(n+1)` binds the user id |
| UserModel.SetIffSupplied | backend/src/models/userModel.js:150-200 | a column is set iff its field is defined and belongs to the shared fields or to the caller's role |
| UserModel.CandidateColumns | backend/src/models/userModel.js:150-200 | the candidate columns of a role, in order |
| UserModel.ColumnsOf | backend/src/models/userModel.js:150-200 | the column of each candidate, in order |
| UserModel.FirstInputAt | backend/src/models/userModel.js:150-200 | with distinct columns, the first candidate naming column `i` is candidate `i` |
| UserModel.InputOfIndex | backend/src/models/userModel.js:150-200 | the field read for candidate `i`'s column is candidate `i`'s field |
| UserModel.CandidateColumnsDistinct | backend/src/models/userModel.js:150-200 | no column is pushed twice, whatever the role |
| UserModel.NothingSuppliedNoStatement | backend/src/models/userModel.js:202-204 | with every field undefined no UPDATE is built |
| UserModel.NoneDefinedNoneSupplied | backend/src/models/userModel.js:202-204 | candidates that are all undefined supply nothing |
| UserModel.RoleFieldsStayInTheirTable | backend/src/models/userModel.js:178-200 | a seller's `profile_name` and a client's `store_name` are never written |
| UserModel.ApplySet | backend/src/models/userModel.js:208 | the row after `SET` has the row's columns plus the assigned ones, and every column not assigned keeps its value |
| UserModel.ApplySetAssigns | backend/src/models/userModel.js:208 | with distinct columns every assigned column holds its assigned value |
| UserModel.SuppliedColumnsDistinct | backend/src/models/userModel.js:150-200 | filtering candidates keeps their columns distinct |
| UserModel.UpdateTouchesOnlySupplied | backend/src/models/userModel.js:150-211 | an update leaves unnamed columns as they were and sets each named column to its coerced value |
| UserModel.AccountStore.constructor | backend/src/models/userModel.js:3-20 | both tables start empty |
| UserModel.AccountStore.GetUserById | backend/src/models/userModel.js:15-69 | none iff neither table has the id; the seller wins when both do |
| UserModel.AccountStore.CreateUser | backend/src/models/userModel.js:91-131 | a seller row goes to `sellers` iff the role is "seller", otherwise a client row goes to `clients` under a fresh id; the other table is unchanged |
| UserModel.AccountStore.UpdateUser | backend/src/models/userModel.js:133-212 | the row of the role's table with that id gets the supplied assignments; the other table and missing ids are untouched |
| UserModel.AccountStore.DeleteUserById | backend/src/models/userModel.js:214-220 | an unknown id changes nothing; otherwise the id leaves the table of the account found |
| AuthMiddleware.AuthRequired | backend/src/middleware/auth.js:6-24 | 401 "Token manquant" iff the header is missing or not "Bearer "; 401 "Token invalide" iff verification fails; 403 iff the role is not seller or client; otherwise next with the payload |
| AuthMiddleware.RequireRole | backend/src/middleware/auth.js:26-35 | admits iff a user is present and its role is listed; otherwise 403 |
| AuthMiddleware.BearerRoundTrip | backend/src/middleware/auth.js:8-11 | `substring(7)` of "Bearer " + token is the token |
| AuthMiddleware.ProOrAdminUnreachable | backend/src/middleware/auth.js:15-32 | `requireRole("pro","admin")` behind `authRequired` rejects every request |
| AuthMiddleware.RegisteredRolesRefused | backend/src/middleware/auth.js:15-18 | a valid token for a buyer or pro gets 403 |
| AuthMiddleware.SellerOrClientAdmitted | backend/src/middleware/auth.js:13-20 | a valid bearer token for a seller or client passes with its payload |
| AuthRoutes.Public | backend/src/routes/authRoutes.js:86-87 | the user returned has the public columns of the record and never `password_hash`; register and `PUT /me` return the same shape |
| AuthRoutes.IndexWhere | backend/src/routes/authRoutes.js:70-74 | `rows[0]` of `WHERE column = $1`: the first record holding the value, none iff no record does |
| AuthRoutes.IndexOfId | backend/src/routes/authRoutes.js:100-104 | the first record with the id, none iff no record has it |
| AuthRoutes.RegisterOutcome | backend/src/routes/authRoutes.js:12-63 | 400 "Role invalide" iff the role is not buyer or pro; 500 iff the password is missing; 400 "Email déjà utilisé" iff the e-mail is taken; success (201) issues a token for the new id and role and returns no password hash |
| AuthRoutes.LoginOutcome | backend/src/routes/authRoutes.js:66-92 | the same 401 "Identifiants invalides" iff the e-mail is unknown or the password does not match; 500 iff the user exists but the password or stored hash is not a string; a known user with a matching password is always 200 with the public user and a token signed over the stored id and role |
| AuthRoutes.IndexWhereAfter | backend/src/routes/authRoutes.js:70-74 | a value held by no earlier record is found at the appended record |
| AuthRoutes.RegisterThenLogin | backend/src/routes/authRoutes.js:12-92 | logging in with the credentials just registered returns the registered user |
| AuthRoutes.RegisteredTokenRefusedByAuthRequired | backend/src/routes/authRoutes.js:25-53 | every token register issues is refused by `authRequired` with 403 |
| AuthRoutes.PlanMe | backend/src/routes/authRoutes.js:96-154 | 404 iff the id is unknown; 400 "current required" iff a new password comes without the current one; 500 iff both are given and the stored hash is not text; 400 "current wrong" iff both are given and `compare` rejects the current one; correct credentials (or no new password) are never refused, and then the plan writes exactly the supplied fields, or nothing when none is supplied |
| AuthRoutes.UnchangedIffNothingGiven | backend/src/routes/authRoutes.js:113-154 | nothing is written iff every field is undefined and no new password is given |
| AuthRoutes.AsWrittenIdIsNotAPlaceholder | backend/src/routes/authRoutes.js:158 | as written, the id placeholder begins with `$$` and is not a positional parameter |
| AuthRoutes.AsWrittenExample | backend/src/routes/authRoutes.js:158 | as written, `{ name: "x" }` from user 7 emits `WHERE id = $$2` |
| AuthRoutes.IdPlaceholderBindsUser | backend/src/routes/authRoutes.js:156-158 | corrected, `$n` with `n` the number of values binds the user id |
| AuthRoutes.MeUpdateAssigns | backend/src/routes/authRoutes.js:113-149 | every supplied column of `PUT /me` gets its value and the rest of the row is unchanged |
| AuthRoutes.UserTable.constructor | backend/src/routes/authRoutes.js:31-34 | the table starts empty |
| AuthRoutes.UserTable.Register | backend/src/routes/authRoutes.js:12-63 | the answer is `RegisterOutcome`, and the record is appended only on success |
| AuthRoutes.UserTable.UpdateMe | backend/src/routes/authRoutes.js:96-170 | as written: refusals (404, 401, 400) and a body with nothing to change answer as before and change nothing; every real update answers 500 and changes nothing, because its id placeholder is not a parameter |
| AuthRoutes.UserTable.UpdateMeCorrected | backend/src/routes/authRoutes.js:96-170 | with `$n` for the id: refusals change nothing; a taken e-mail is 400; an update assigns the supplied columns of that user only and returns the new public user |
| ListingRoutes.NumberedConditions | backend/src/routes/listingRoutes.js:18-42 | condition `i` is the filter's condition around `$(i+1)` |
| ListingRoutes.Params | backend/src/routes/listingRoutes.js:18-42 | parameter `i` is filter `i`'s parameter |
| ListingRoutes.PushFilter | backend/src/routes/listingRoutes.js:18-42 | one guarded push extends the filters by the field's filter when it is truthy |
| ListingRoutes.BuildSearch | backend/src/routes/listingRoutes.js:13-51 | the conditions are the active condition followed by one numbered condition per supplied filter, the parameters are theirs, and the statement joins the conditions with " AND " in its WHERE clause |
| ListingRoutes.FiltersForExactly | backend/src/routes/listingRoutes.js:18-42 | each filter comes from a truthy field, every truthy field gives one, and they appear in route order |
| ListingRoutes.SearchFiltersExactly | backend/src/routes/listingRoutes.js:18-42 | a filter kind appears iff its field is truthy, at most once; `q` is lower-cased and wrapped in `%`, city lower-cased |
| ListingRoutes.SearchPlaceholdersBind | backend/src/routes/listingRoutes.js:18-42 | placeholder `$k` of condition `k` binds `params[k-1]`; the text search uses it twice |
| ListingRoutes.NoFiltersOnlyActive | backend/src/routes/listingRoutes.js:14-49 | with no truthy filter the search asks only for active listings |
| ListingRoutes.ImageParams | backend/src/routes/listingRoutes.js:149-153 | three parameters per image |
| ListingRoutes.ImageParamsAt | backend/src/routes/listingRoutes.js:151 | image `i` contributes the listing id, its URL and `i` |
| ListingRoutes.ImageTuples | backend/src/routes/listingRoutes.js:150 | tuple `i` names `$(3i+1)`..`$(3i+3)` |
| ListingRoutes.BuildImageInsert | backend/src/routes/listingRoutes.js:144-159 | no insert iff `images` is not a non-empty array; otherwise n tuples and 3n parameters |
| ListingRoutes.ImageTupleBinds | backend/src/routes/listingRoutes.js:149-158 | the placeholders of tuple `i` bind the listing id, URL `i` and `i` |
| ListingRoutes.NewListing | backend/src/routes/listingRoutes.js:124-140 | the owner is the caller; a falsy category or city is stored as null |
| ListingRoutes.Patched | backend/src/routes/listingRoutes.js:194-208 | each of the nine columns takes the given text, or keeps its value when the field is absent or null (`COALESCE`); the owner never changes |
| ListingRoutes.PatchesCompose | backend/src/routes/listingRoutes.js:194-208 | two updates in a row equal one update whose body takes each field from the later body when given, else from the earlier |
| ListingRoutes.Gate | backend/src/routes/listingRoutes.js:175-180 | 404 iff the listing is missing; pass iff the caller is admin or the owner; otherwise 403 with the route's own message (the delete route repeats the check) |
| ListingRoutes.ImageRows | backend/src/routes/listingRoutes.js:149-158 | row `i` is (listing id, URL `i`, sort order `i`) |
| ListingRoutes.ImagesOf | backend/src/routes/listingRoutes.js:79 | exactly the image rows of that listing |
| ListingRoutes.ImagesOfAppend | backend/src/routes/listingRoutes.js:79 | rows of another listing do not change a listing's images |
| ListingRoutes.NewListingImagesInOrder | backend/src/routes/listingRoutes.js:144-159 | a new listing's images are its URLs in array order with sort order 0..n-1 |
| ListingRoutes.RowsOfOneListing | backend/src/routes/listingRoutes.js:151 | every inserted image row names the new listing |
| ListingRoutes.NoImagesOf | backend/src/routes/listingRoutes.js:79 | a listing no row names has no images |
| ListingRoutes.EmptyPatchKeepsListing | backend/src/routes/listingRoutes.js:194-208 | an update with no field given keeps every column |
| ListingRoutes.PatchIdempotent | backend/src/routes/listingRoutes.js:194-208 | applying an update twice equals applying it once; a given field replaces its column |
| ListingRoutes.ListingWritesUnreachable | backend/src/routes/listingRoutes.js:110 | the guards in front of the listing write routes (the same on the update and delete routes) reject every request |
| ListingRoutes.ListingStore.constructor | backend/src/routes/listingRoutes.js:124-128 | no listings and no images |
| ListingRoutes.ListingStore.Create | backend/src/routes/listingRoutes.js:110-166 | inserts the new listing under a fresh id, then its image rows in order when given |
| ListingRoutes.ListingStore.Update | backend/src/routes/listingRoutes.js:171-216 | after the gate, the listing becomes `Patched`; refused calls change nothing |
| ListingRoutes.ListingStore.Delete | backend/src/routes/listingRoutes.js:221-238 | after the gate the listing is removed; refused calls change nothing |
| AdModel.NumberedAdConditions | backend/src/models/adModel.js:19-29 | condition `i` is `column = $(i+1)` |
| AdModel.AdParams | backend/src/models/adModel.js:19-29 | parameter `i` is filter `i`'s value |
| AdModel.WhereClause | backend/src/models/adModel.js:31 | empty iff there are no conditions |
| AdModel.PushAdFilter | backend/src/models/adModel.js:19-29 | one guarded push appends the filter when its value is truthy |
| AdModel.FindAdsQuery | backend/src/models/adModel.js:14-45 | the statement and parameters follow the truthy filters, category first |
| AdModel.NoFiltersNoWhere | backend/src/models/adModel.js:31 | without filters there is no WHERE and no parameter |
| AdModel.FilterPlaceholders | backend/src/models/adModel.js:19-31 | category alone `$1`, size alone `$1`, both `$1` then `$2`; conditions are preceded by "WHERE " |
| AdController.CreateAd | backend/src/controllers/adController.js:3-45 | each 400 holds iff its check is the first to fail (required fields, category, size, price); once the checks pass with a text title, the service's insert gives 201 with the ad and its mismatch the 400 mismatch; 500 iff the checks pass and the title is not text or the service fails otherwise |
| AdController.ZeroOrNullPriceAccepted | backend/src/controllers/adController.js:7-25 | a price of 0 or null passes the checks |
| AdController.ListAds | backend/src/controllers/adController.js:47-72 | 400 iff a present filter is not a positive integer; an absent one is passed as null; once both pass, the service's list is the answer, and 500 iff the service fails |
| AdController.ListedFiltersBecomeConditions | backend/src/controllers/adController.js:51-65 | filters that pass `listAds` become one `findAds` condition each |
| Orders.EffectiveQuantity | backend/src/routes/orderRoutes.js:24-34 | `quantity or 1`: a missing or zero quantity is 1, and the result is never 0 |
| Orders.NewOrderFields | backend/src/routes/orderRoutes.js:13-39 | buyer from the token, seller and listing from the listing row, total = price × quantity, delivery "to_confirm" and a null note when falsy |
| Orders.StatusGateFor | backend/src/routes/orderRoutes.js:96-107 | 400 iff the status is not allowed; 404 iff the order is missing; 403 iff the caller is not the seller; otherwise write |
| Orders.GateIgnoresCurrentStatus | backend/src/routes/orderRoutes.js:96-116 | the decision does not depend on the current status |
| Orders.AnyAllowedStatusFromAnyState | backend/src/routes/orderRoutes.js:96-116 | the seller may write any allowed status from any state |
| Orders.BuyerCannotWriteStatus | backend/src/routes/orderRoutes.js:105-107 | a buyer who is not the seller can never write the status |
| Orders.ListDescendingExactly | backend/src/routes/orderRoutes.js:53-80 | the list holds exactly the caller's orders whose listing exists, with its title, newest first |
| Orders.ListDescendingMembers | backend/src/routes/orderRoutes.js:53-80 | a view is listed iff it is a matching order whose listing exists, with that listing's title |
| Orders.ListDescendingBelow | backend/src/routes/orderRoutes.js:58-78 | the listed ids are below the bound and strictly decrease |
| Orders.OrderStore.constructor | backend/src/routes/orderRoutes.js:26-29 | no orders; the given listings |
| Orders.OrderStore.Create | backend/src/routes/orderRoutes.js:11-46 | 404 and nothing inserted for a missing listing; otherwise the new order under a fresh id |
| Orders.OrderStore.UpdateStatus | backend/src/routes/orderRoutes.js:91-123 | the gate decides; only a write changes the order, and then only its status and update time |
| Orders.OrderStore.BuyerOrders | backend/src/routes/orderRoutes.js:51-66 | `GET /me/buyer`: exactly the stored orders bought by the caller whose listing exists, each with its listing's title, newest first (from `ListDescendingExactly`) |
| Orders.OrderStore.SellerOrders | backend/src/routes/orderRoutes.js:71-86 | `GET /me/seller`: exactly the stored orders sold by the caller whose listing exists, each with its listing's title, newest first (from `ListDescendingExactly`) |
| Reviews.FetchOrderForReview | backend/src/routes/reviewRoutes.js:9-25 | no order iff the id is unknown; forbidden iff the caller is neither buyer nor seller |
| Reviews.RatingOf | backend/src/routes/reviewRoutes.js:39-42 | accepted iff `Number(rating)` is an integer from 1 to 5 |
| Reviews.Decide | backend/src/routes/reviewRoutes.js:31-77 | the first failing check decides (400 order id, 400 rating, 404, 403, 400 duplicate); when every check passes it is an insert, which reviews the other party and stores a falsy comment as null |
| Reviews.BothPartiesMayReviewOnce | backend/src/routes/reviewRoutes.js:44-70 | buyer or seller may review whatever the order's status |
| Reviews.InsertKeepsOnePerReviewer | backend/src/routes/reviewRoutes.js:55-70 | an allowed insert keeps at most one review per order and reviewer |
| Reviews.ReviewsOf | backend/src/routes/reviewRoutes.js:94-101 | exactly the reviews of that order |
| Reviews.ListForOrder | backend/src/routes/reviewRoutes.js:83-108 | a list iff the order exists and the caller is its buyer or seller (else 404 or 403), and then exactly that order's reviews, each of that order |
| Reviews.ReviewStore.constructor | backend/src/routes/reviewRoutes.js:65-70 | no reviews; the given orders |
| Reviews.ReviewStore.Post | backend/src/routes/reviewRoutes.js:31-77 | a rejection changes nothing; an insert appends the decided review under the next id, which then advances by one |
| Colors.ByLower | backend/src/services/colorService.js:13-15 | every catalogue name is filed under its lower-case form, and every entry is a catalogue name |
| Colors.NormalizeAll | backend/src/services/colorService.js:20-38 | a success has no duplicates and only table entries |
| Colors.NormalizeColors | backend/src/services/colorService.js:7-41 | a success has no duplicates and only catalogue names |
| Colors.Normalize | backend/src/services/colorService.js:7-41 | the loop with its seen-set computes `NormalizeColors` |
| Colors.RejectedStays | backend/src/services/colorService.js:24-32 | once an entry is rejected the result is that rejection |
| Colors.RejectedIffUnmatched | backend/src/services/colorService.js:21-32 | the call fails iff some non-blank entry has no match, naming the first such entry |
| Colors.StepCases | backend/src/services/colorService.js:21-36 | one loop turn keeps a rejection, and turns a success into a rejection exactly at an unmatched entry, with its error |
| Colors.NormalizedIsFirstOccurrences | backend/src/services/colorService.js:17-38 | the result is the canonical names of the non-blank entries, first occurrences in order |
| Colors.ByLowerSelfKeyed | backend/src/services/colorService.js:13-15 | with trimmed catalogue names each entry is filed under its own key |
| Colors.NormalizeIdempotent | backend/src/services/colorService.js:13-37 | re-normalising an output returns it unchanged |
| Colors.OutputsAreKeys | backend/src/services/colorService.js:21-36 | each output is a table entry reached through its own key |
| Colors.RefoldKeys | backend/src/services/colorService.js:20-38 | folding over an output prefix returns that prefix |
| Colors.EmptyInputNeedsNoCatalogue | backend/src/services/colorService.js:8-10 | a non-array or empty argument gives [] whatever the catalogue |
| CategoryTree.ById | backend/src/routes/categoryRoutes.js:9-10 | each id maps to the last row carrying it, and every row's id is present |
| CategoryTree.BuildCategoryTree | backend/src/routes/categoryRoutes.js:7-27 | roots and children are what the two passes produce |
| CategoryTree.IndexById | backend/src/routes/categoryRoutes.js:9-10 | the first pass computes `ById` |
| CategoryTree.Attach | backend/src/routes/categoryRoutes.js:12-24 | the second pass gives each node's children and the roots |
| CategoryTree.RootsExactly | backend/src/routes/categoryRoutes.js:13-24 | the roots are exactly the rows without a parent node, in input order |
| CategoryTree.ChildrenExactly | backend/src/routes/categoryRoutes.js:15-17 | a node's children are exactly the rows attached to it, in input order |
| CategoryTree.EachRowExactlyOnce | backend/src/routes/categoryRoutes.js:13-24 | every row is a root or in exactly one children list, never both and never twice |
| CategoryTree.RootIff | backend/src/routes/categoryRoutes.js:14-23 | a row is a root iff its `parent_id` is falsy or no row has that id |
| CategoryTree.ChildrenOfNode | backend/src/routes/categoryRoutes.js:15-17 | the node kept for an id gets exactly the rows naming it as parent, in order; others get none |
| CategoryTree.ChildrenOfNodeWith | backend/src/routes/categoryRoutes.js:15-17 | the same for any `byId` map |
| CategoryTree.NoChildrenUnlessKept | backend/src/routes/categoryRoutes.js:10-15 | a node `byId` does not keep receives no children |
| CategoryTree.Ancestor | backend/src/routes/categoryRoutes.js:15 | the node `k` parent links up is a row index |
| CategoryTree.AncestorStep | backend/src/routes/categoryRoutes.js:15 | one more step up follows one parent link |
| CategoryTree.ParentOnCycle | backend/src/routes/categoryRoutes.js:14-17 | the parent of a row on a cycle exists and is on the cycle |
| CategoryTree.CycleNeverRooted | backend/src/routes/categoryRoutes.js:13-24 | a row on a cycle never reaches a root by parent links |
| CategoryTree.ReachableIffRooted | backend/src/routes/categoryRoutes.js:13-24 | reachable from a root iff its parent chain ends at a root |
| CategoryTree.ReachableIffRootedWith | backend/src/routes/categoryRoutes.js:13-24 | the same for any forest of `byId` |
| CategoryTree.CycleUnreachable | backend/src/routes/categoryRoutes.js:13-24 | rows on a parent cycle appear under no root |
| CategoryTree.AcyclicReachable | backend/src/routes/categoryRoutes.js:13-24 | without cycles every row hangs under a root |
| CategoryTree.ChainEndsOrRepeats | backend/src/routes/categoryRoutes.js:13-24 | with no row on a cycle, every parent chain reaches a root within the row count |
| CategoryTree.ChainRooted | backend/src/routes/categoryRoutes.js:13-24 | the inductive form of the previous row |
| CategoryTree.SubsetCard | backend/src/routes/categoryRoutes.js:8 | a set of indices below `n` has at most `n` elements |
| ListingReference.PadStart2 | backend/src/services/listingReferenceService.js:6-7 | `padStart(2,"0")` keeps longer texts and left-pads shorter ones with zeros |
| ListingReference.LastTwo | backend/src/services/listingReferenceService.js:8 | `slice(-2)` is the last two characters, or all of a shorter text |
| ListingReference.StorePart | backend/src/services/listingReferenceService.js:13 | empty for a falsy name; otherwise the first `min(3, length)` characters of the name, each upper-cased |
| ListingReference.NextIndex | backend/src/services/listingReferenceService.js:14 | a missing count gives 1, otherwise count + 1 |
| ListingReference.GenerateListingReference | backend/src/services/listingReferenceService.js:12-17 | an error, with the service's message, iff the date is invalid; otherwise the reference reads, at consecutive offsets, "TN", `StorePart(storeName)`, the seller id's digits, the MMDDYY date part, "_" and the digits of `NextIndex(listingCount)` |
| ListingReference.LayoutOfConcat | backend/src/services/listingReferenceService.js:16 | the template's five pieces are found back at their offsets in the reference |
| ListingReference.LastDigit | backend/src/services/listingReferenceService.js:8 | the last digit of a rendering is the number mod 10 |
| ListingReference.TwoDigitsValue | backend/src/services/listingReferenceService.js:6-8 | two digit characters read back as a two-digit number |
| ListingReference.TwoDigitField | backend/src/services/listingReferenceService.js:6-7 | a month or day renders as two digits with that value |
| ListingReference.TwoDigitYear | backend/src/services/listingReferenceService.js:8 | from year 10 on, the year part is two digits worth year mod 100 |
| ListingReference.LastTwoOfRendering | backend/src/services/listingReferenceService.js:8 | the last two characters of a rendering of 10 or more are its tens and units digits |
| ListingReference.LastTwoDigitsValue | backend/src/services/listingReferenceService.js:8 | the tens and units digits together are the number mod 100 |
| ListingReference.DatePartIsSixDigits | backend/src/services/listingReferenceService.js:6-9 | for a date from year 10 on the date part is six digits MMDDYY |
| ListingReference.ThreePairs | backend/src/services/listingReferenceService.js:9 | three two-digit parts put together are six digits that split back into them |
| ListingReference.ShortYearGivesFiveCharacters | backend/src/services/listingReferenceService.js:8 | year 5 gives the five-character date part "01025" |
| ListingReference.AfterLast | backend/src/services/listingReferenceService.js:16 | the text after the last separator holds no separator |
| ListingReference.AfterLastOf | backend/src/services/listingReferenceService.js:16 | after the last `_` of `x_y` with `y` free of `_` comes `y` |
| ListingReference.DigitsHaveNoUnderscore | backend/src/services/listingReferenceService.js:16 | a digit string holds no underscore |
| ListingReference.IndexRoundTrip | backend/src/services/listingReferenceService.js:14-16 | the digits after the last "_" read back as the index |
| ListingReference.CountInjective | backend/src/services/listingReferenceService.js:14-16 | different counts give different references |
| ListingReference.MissingCountIsZero | backend/src/services/listingReferenceService.js:14 | a missing count and a zero count give the same reference |
| ListingReference.StorePrefixAndSellerIdCanCollide | backend/src/services/listingReferenceService.js:13-16 | "AB1" with seller 2 and "AB" with seller 12 give the same reference |
| SearchFilters.ToNumber | frontendnext/tunimode-web/src/utils/searchFilters.ts:3-7 | a number iff the value is present, non-empty and parses finite, and then it is the parse |
| SearchFilters.TrimEach | frontendnext/tunimode-web/src/utils/searchFilters.ts:13 | each entry trimmed |
| SearchFilters.NonBlank | frontendnext/tunimode-web/src/utils/searchFilters.ts:14 | an entry is kept iff it is in the input and not empty |
| SearchFilters.NonBlankSnoc | frontendnext/tunimode-web/src/utils/searchFilters.ts:14 | one more entry is appended iff it is not empty, so the kept entries keep input order |
| SearchFilters.ToList | frontendnext/tunimode-web/src/utils/searchFilters.ts:9-15 | the fallback for a falsy value; otherwise exactly the non-empty ones of the trimmed comma pieces, in order (the filter of the trimmed split) |
| SearchFilters.NonBlankKeeps | frontendnext/tunimode-web/src/utils/searchFilters.ts:14 | a list without blanks passes the filter unchanged |
| SearchFilters.ToListOfJoin | frontendnext/tunimode-web/src/utils/searchFilters.ts:9-25 | `toList` of a comma join of safe entries gives the entries back |
| SearchFilters.Get | frontendnext/tunimode-web/src/utils/searchFilters.ts:38-45 | `params.get` finds a value iff some pair has the key |
| SearchFilters.RemoveKey | frontendnext/tunimode-web/src/utils/searchFilters.ts:20-28 | the key is gone, other keys unchanged |
| SearchFilters.SetEntry | frontendnext/tunimode-web/src/utils/searchFilters.ts:20-28 | `params.set` makes the key read its value, leaves other keys, and appends a new key |
| SearchFilters.Serialize | frontendnext/tunimode-web/src/utils/searchFilters.ts:30 | the query string is empty iff there are no pairs |
| SearchFilters.UrlParams.constructor | frontendnext/tunimode-web/src/utils/searchFilters.ts:18 | no pairs |
| SearchFilters.UrlParams.Set | frontendnext/tunimode-web/src/utils/searchFilters.ts:20-28 | the pairs become `SetEntry` of the old pairs |
| SearchFilters.SetIf | frontendnext/tunimode-web/src/utils/searchFilters.ts:20-28 | a guarded set on a new key appends the pair when the value is present |
| SearchFilters.BuildResultsUrl | frontendnext/tunimode-web/src/utils/searchFilters.ts:17-32 | the URL is the path plus the serialised pairs in route order |
| SearchFilters.BareUrlIffNothingSet | frontendnext/tunimode-web/src/utils/searchFilters.ts:20-31 | the bare path iff every filter is blank, empty or undefined |
| SearchFilters.ZeroAndFalseKept | frontendnext/tunimode-web/src/utils/searchFilters.ts:22-28 | a zero price and a false delivery flag are written |
| SearchFilters.FiltersFromParams | frontendnext/tunimode-web/src/utils/searchFilters.ts:34-59 | `query` wins over `q`, then the fallback; city, delivery (`value == "true"`, `delivery_available` before `delivery`) and the three numbers follow their keys or the fallback; sizes and colours are `toList` of their value with the fallback list |
| SearchFilters.NumberParam | frontendnext/tunimode-web/src/utils/searchFilters.ts:39-52 | a present snake-case key decides alone (a non-number falls back without reading the camel-case key); otherwise the camel-case key; the fallback when no number results |
| SearchFilters.GetAppend | frontendnext/tunimode-web/src/utils/searchFilters.ts:38-45 | `get` on two lists of pairs finds the first list's value first |
| SearchFilters.GetResultEntries | frontendnext/tunimode-web/src/utils/searchFilters.ts:20-28 | each key read back gives the value written for it |
| SearchFilters.GetSnoc | frontendnext/tunimode-web/src/utils/searchFilters.ts:20-28 | `get` after one more pair finds earlier pairs first |
| SearchFilters.RoundTripTexts | frontendnext/tunimode-web/src/utils/searchFilters.ts:17-59 | query and city read back from the built URL's pairs |
| SearchFilters.RoundTripNumbers | frontendnext/tunimode-web/src/utils/searchFilters.ts:17-59 | prices and category read back when `String` and `Number` agree |
| SearchFilters.RoundTripListsAndFlag | frontendnext/tunimode-web/src/utils/searchFilters.ts:17-59 | sizes, colours and the delivery flag read back |
| SearchFilters.ToApiFilterParams | frontendnext/tunimode-web/src/utils/searchFilters.ts:61-70 | blank texts and empty lists become undefined iff so; texts trimmed; numbers and flag pass through |
| SearchFilters.ApiParamsOfTrimmedQuery | frontendnext/tunimode-web/src/utils/searchFilters.ts:62 | pre-trimming the query changes nothing |
| ApiClient.ResolveImageUrl | frontendnext/tunimode-web/src/services/api.ts:35-40 | null iff the URL is falsy; absolute URLs kept; others prefixed with the base and one "/" |
| ApiClient.ResolveIdempotent | frontendnext/tunimode-web/src/services/api.ts:35-40 | with an absolute base, resolving twice equals resolving once |
| ApiClient.NormalizeUser | frontendnext/tunimode-web/src/services/api.ts:46-54 | id, name, email and role are passed through when given, else 0, "", "" and "client"; camel-case avatar wins over snake-case, resolved; phone and address passed through |
| ApiClient.NormalizeUserIdempotent | frontendnext/tunimode-web/src/services/api.ts:46-54 | normalising a normalised user changes nothing |
| ApiClient.Present | frontendnext/tunimode-web/src/services/api.ts:82 | only truthy URLs of the input |
| ApiClient.ItemUrls | frontendnext/tunimode-web/src/services/api.ts:81 | a string item is itself, an object its `url` |
| ApiClient.ExtractImageUrls | frontendnext/tunimode-web/src/services/api.ts:70-86 | camel-case array first, then snake-case, then the image items' truthy URLs, else [] |
| ApiClient.PresentExactly | frontendnext/tunimode-web/src/services/api.ts:82 | a URL is kept iff it is non-empty and present |
| ApiClient.ExtractListingImage | frontendnext/tunimode-web/src/services/api.ts:87-102 | the first non-nullish of `imageUrl`, `image`, `mainImage`, `thumbnailUrl`, `images[0]` (string or `.url`), `imageUrls[0]`, `image_urls[0]`, resolved; none when all seven are nullish; never "" |
| ApiClient.FirstNonNull | frontendnext/tunimode-web/src/services/api.ts:88-99 | the first present value of a list, none iff every entry is nullish |
| ApiClient.ExtractIsFirstNonNull | frontendnext/tunimode-web/src/services/api.ts:87-102 | the `??` chain equals the left-to-right scan of the seven-candidate list |
| ApiClient.EmptyImageUrlBlocks | frontendnext/tunimode-web/src/services/api.ts:88-101 | an empty `imageUrl` stops the `??` chain and gives null |
| ApiClient.ResolveAll | frontendnext/tunimode-web/src/services/api.ts:107 | each URL resolved |
| ApiClient.DedupKeepsHead | frontendnext/tunimode-web/src/services/api.ts:110-116 | de-duplication keeps the first element first |
| ApiClient.ListingImagesWellFormed | frontendnext/tunimode-web/src/services/api.ts:104-116 | the image list has no duplicates or blanks, and the primary image comes first |
| ApiClient.NormalizeListing | frontendnext/tunimode-web/src/services/api.ts:104-135 | `imageUrl` is "" iff the list is empty, else its first entry; deleted, owner and delivery follow their precedence; title, price, sizes, colours and stock are passed through when given, else "", 0, [], [] and 0; status is passed through; category and seller names take the camel-case value, else the snake-case one, else null |
| ApiClient.NormalizeOrder | frontendnext/tunimode-web/src/services/api.ts:149-168 | for each of the nine twin pairs the camel-case value when given, else the snake-case one, else the default (0, "Annonce supprimée", "retrait", now, or null); `id`, `quantity` and `status` passed through when given, else 0, 0 and "pending"; `color`, `size` and `phone` passed through |
| ApiClient.SnakeCaseLikeCamelCase | frontendnext/tunimode-web/src/services/api.ts:149-168 | an order given only in snake case normalises like the same values in camel case |
| ApiClient.NormalizeOrderIdempotent | frontendnext/tunimode-web/src/services/api.ts:149-168 | normalising a normalised order changes nothing, whatever the clock |
| ApiClient.ApiSession.constructor | frontendnext/tunimode-web/src/services/api.ts:8-11 | no token and no user |
| ApiClient.ApiSession.JsonHeaders | frontendnext/tunimode-web/src/services/api.ts:13-19 | content type first; the bearer header iff auth is requested and the token is truthy, and `authRequired` reads the token back from it |
| ApiClient.ApiSession.SetAuth | frontendnext/tunimode-web/src/services/api.ts:186-191 | the token is set; the user is kept if omitted, cleared if null, normalised if given |
| ApiClient.ApiSession.Login | frontendnext/tunimode-web/src/services/api.ts:209-221 | true iff accepted; then token and normalised user are stored; otherwise nothing changes |
| ApiClient.ApiSession.Logout | frontendnext/tunimode-web/src/services/api.ts:223-226 | token and user cleared |
| ApiClient.ApiSession.DeleteAccount | frontendnext/tunimode-web/src/services/api.ts:268-279 | success clears the session; failure keeps it and reports the message or "Suppression impossible" |
| EmailService.TextOr | backend/src/services/emailService.js:40-44 | `value or fallback` on a text |
| EmailService.AddressLine | backend/src/services/emailService.js:43 | empty iff the reception mode is not "livraison" |
| EmailService.PhoneLine | backend/src/services/emailService.js:44 | empty iff the reception mode is not "livraison" |
| EmailService.ColourLine | backend/src/services/emailService.js:40 | the colour line shows the colour, or "Non précisé" when it is missing or empty |
| EmailService.SizeLine | backend/src/services/emailService.js:41 | the size line shows the size, or "Non précisé" when it is missing or empty |
| EmailService.OrderSummaryHtml | backend/src/services/emailService.js:35-48 | the title sits verbatim between a head and a tail that depend on the order alone |
| EmailService.SummaryColourAndSize | backend/src/services/emailService.js:39-41 | the colour line and then the size line follow the quantity line of the summary, so a missing colour or size reads "Non précisé" there |
| EmailService.SummaryDeterminesTitle | backend/src/services/emailService.js:38 | two titles giving the same summary are equal |
| EmailService.DeliveryLinesOnlyForDelivery | backend/src/services/emailService.js:43-44 | address and phone lines appear iff the order is delivered; a missing phone shows empty |
| EmailService.NotifyBuyer | backend/src/services/emailService.js:50-56 | to the buyer, subject "Confirmation de commande - " + title, the summary as body |
| EmailService.NotifySeller | backend/src/services/emailService.js:58-64 | to the seller, subject "Nouvelle commande reçue - " + title, the summary as body |
| EmailService.BuyerAndSellerShareSummary | backend/src/services/emailService.js:50-64 | both mails carry the same summary under different subjects |
| QuickFilters.Toggle | frontendnext/tunimode-web/src/components/QuickFiltersDialog.tsx:152-164 | the element is in the result iff it was not before; others unchanged; an absent one is appended |
| QuickFilters.RemoveAllShrinks | frontendnext/tunimode-web/src/components/QuickFiltersDialog.tsx:154 | removing a present element shortens the list |
| QuickFilters.RemoveAllAbsent | frontendnext/tunimode-web/src/components/QuickFiltersDialog.tsx:154 | removing an absent element changes nothing |
| QuickFilters.RemoveAllAppend | frontendnext/tunimode-web/src/components/QuickFiltersDialog.tsx:154 | removal distributes over concatenation |
| QuickFilters.ToggleTwice | frontendnext/tunimode-web/src/components/QuickFiltersDialog.tsx:152-164 | toggling an absent element twice restores the list; a present one moves to the end |
| QuickFilters.SizesForCategory | frontendnext/tunimode-web/src/components/QuickFiltersDialog.tsx:98-117 | no category clears both lists; a fetch sets options and prunes the selection; a failure keeps them |
| QuickFilters.KeepInIdempotent | frontendnext/tunimode-web/src/components/QuickFiltersDialog.tsx:111 | pruning twice equals pruning once |
| QuickFilters.PruneTwiceSameAsOnce | frontendnext/tunimode-web/src/components/QuickFiltersDialog.tsx:107-112 | re-running the effect with the same list changes nothing |
| QuickFilters.DialogSizes | frontendnext/tunimode-web/src/components/QuickFiltersDialog.tsx:96-97 | a closed dialog keeps its lists |
| QuickFilters.DialogSizesError | frontendnext/tunimode-web/src/components/QuickFiltersDialog.tsx:96-117 | the error is kept while closed or without a category, cleared by a successful fetch, and set to the dialog's message by a failed one |
| QuickFilters.SizesErrorOnlyWhenListsKept | frontendnext/tunimode-web/src/components/QuickFiltersDialog.tsx:103-117 | with a category chosen, an error shows iff the fetch failed, and then the size lists are unchanged |
| QuickFilters.AsWrittenCategoriesNeverLoad | frontendnext/tunimode-web/src/components/QuickFiltersDialog.tsx:81-93 | as written, opening the dialog with no categories leaves them empty, sets the loading flag, keeps the error, and re-running the effect changes nothing more |
| QuickFilters.CategoryEffect | frontendnext/tunimode-web/src/components/QuickFiltersDialog.tsx:81-93 | corrected: a closed dialog or loaded categories change nothing; otherwise loading ends, a success stores the tree and clears the error, a failure keeps the list and records the message or "Erreur de chargement" |
| QuickFilters.CategoriesLoadOnce | frontendnext/tunimode-web/src/components/QuickFiltersDialog.tsx:81-93 | corrected: a non-empty tree is stored once and a later open keeps it whatever a new fetch would answer |
| QuickFilters.FlatOne | frontendnext/tunimode-web/src/components/QuickFiltersDialog.tsx:169-173 | one node flattens to its labelled copy followed by its subtree |
| QuickFilters.FlatAppend | frontendnext/tunimode-web/src/components/QuickFiltersDialog.tsx:168-175 | flattening distributes over concatenation |
| QuickFilters.Walk | frontendnext/tunimode-web/src/components/QuickFiltersDialog.tsx:168-175 | the loop appends `Flat` of the nodes to the result |
| QuickFilters.FlatCategories | frontendnext/tunimode-web/src/components/QuickFiltersDialog.tsx:166-178 | the result is `Flat` of the tree with parent-name labels |
| QuickFilters.Ids | frontendnext/tunimode-web/src/components/QuickFiltersDialog.tsx:170 | the id of each node |
| QuickFilters.IdsAppend | frontendnext/tunimode-web/src/components/QuickFiltersDialog.tsx:170 | ids distribute over concatenation |
| QuickFilters.FlatIsPreorder | frontendnext/tunimode-web/src/components/QuickFiltersDialog.tsx:166-178 | the flattened ids are the pre-order of the tree |
| QuickFilters.ParentNamingExample | frontendnext/tunimode-web/src/components/QuickFiltersDialog.tsx:172 | a grandchild is labelled with its parent's name only, "Robes › Longues" |
| QuickFilters.Apply | frontendnext/tunimode-web/src/components/QuickFiltersDialog.tsx:134-145 | blank city or prices become null iff blank; prices are the parse; the rest passes through |
| QuickFilters.ApplyCityIgnoresSpaces | frontendnext/tunimode-web/src/components/QuickFiltersDialog.tsx:136 | pre-trimming the city changes nothing |
| NewListingPage.FlatCategories | frontendnext/tunimode-web/app/listing/new/page.tsx:99-111 | the result is `Flat` of the tree with full-path labels |
| NewListingPage.Names | frontendnext/tunimode-web/app/listing/new/page.tsx:103 | the name of each node |
| NewListingPage.NamesAppend | frontendnext/tunimode-web/app/listing/new/page.tsx:103 | names distribute over concatenation |
| NewListingPage.LabelIsJoin | frontendnext/tunimode-web/app/listing/new/page.tsx:103-105 | the label of a name under a path is the path joined with the name |
| NewListingPage.FullPathLabels | frontendnext/tunimode-web/app/listing/new/page.tsx:99-111 | each label is the full path of names from the root |
| NewListingPage.FullPathExample | frontendnext/tunimode-web/app/listing/new/page.tsx:105 | the grandchild is "Femme › Robes › Longues" |
| NewListingPage.AddImage | frontendnext/tunimode-web/app/listing/new/page.tsx:174-185 | a full list is kept with the too-many message; otherwise the URL is appended and the limit message appears iff it reaches 10 |
| NewListingPage.UploadsRespectCap | frontendnext/tunimode-web/app/listing/new/page.tsx:164-185 | successive uploads never exceed 10 images and stop exactly at 10 |
| NewListingPage.ListingForm.constructor | frontendnext/tunimode-web/app/listing/new/page.tsx:42-65 | every field starts as declared: empty texts, condition "neuf", no delivery, no category, empty lists, no flag set and no message |
| NewListingPage.ListingForm.ToggleSize | frontendnext/tunimode-web/app/listing/new/page.tsx:113-117 | sizes toggled; every other form field keeps its value |
| NewListingPage.ListingForm.ToggleColor | frontendnext/tunimode-web/app/listing/new/page.tsx:119-123 | colours toggled; every other form field keeps its value |
| NewListingPage.ListingForm.CategoryChanged | frontendnext/tunimode-web/app/listing/new/page.tsx:80-97 | options and sizes follow `SizesForCategory`; a failed fetch sets the error; no other field changes |
| NewListingPage.ListingForm.StartUpload | frontendnext/tunimode-web/app/listing/new/page.tsx:164-171 | starts iff fewer than 10 images, else the too-many message; only the upload flag and error change |
| NewListingPage.ListingForm.FinishUpload | frontendnext/tunimode-web/app/listing/new/page.tsx:172-195 | a success applies `AddImage` and keeps the error when the image is accepted; a failure records the message; uploading ends; no other field changes |
| NewListingPage.ListingForm.RemoveImage | frontendnext/tunimode-web/app/listing/new/page.tsx:197-199 | every copy of the URL is removed, the others kept; no other field changes |
| NewListingPage.ListingForm.Payload | frontendnext/tunimode-web/app/listing/new/page.tsx:140-151 | trimmed texts; city absent iff blank; price, images, sizes and colours passed through |
| NewListingPage.ListingForm.HandleSubmit | frontendnext/tunimode-web/app/listing/new/page.tsx:125-162 | sends iff seller and the price is a positive number; a bad price sets its error; an answer sets success or error, never both, and clears submitting; a rejected request leaves submitting set and no message; only submitting, error and success change |

## Left out

- Database execution, schema constraints and column defaults are not modelled. Tables are maps or sequences; order and listing `status` default to "pending"/"active", and creation time follows the serial id.
- Orders.ListDescendingExactly: ORDER BY `created_at` is modelled as descending id. The listing search statement carries `LIMIT 50`, but the truncation of its rows to 50 is not modelled.
- `GET /:id` and `GET /me/mine` of the listing routes are not modelled beyond their guard; the image cascade on delete is not modelled.
- `bcrypt`, `jsonwebtoken`, `Number(string)`, `String(number)`, URL encoding, `fetch`, `nodemailer` and `Date` are parameters; their own behaviour is not modelled.
- Case mapping is ASCII only; `trim` removes ASCII white space and the no-break space.
- The parsing of a query string into `URLSearchParams` is not modelled: the search round trip goes from the written pairs to `filtersFromParams`.
- Orders.NewOrderFields: the listing price and the quantity are integers. The source multiplies `Number(price)` of a NUMERIC column by `quantity || 1` in floating point, and stores whatever JSON quantity is truthy (a string such as "0", a fraction). Decimal prices, rounding and non-integer or string quantities are not modelled; `Orders.EffectiveQuantity` likewise covers integer quantities only.
- SearchFilters.FiltersFromParams: the query is typed as a string, so the final `?? ""` never applies.
- ApiClient.NormalizeListing: the `...listing` spread of the other fields is not modelled.
- `handleResponse`, `updateProfile`, `uploadProfileImage` and the remaining fetch wrappers of the API client are not modelled.
- React rendering, the dialog's reset-on-open effect and the new-listing page's category fetch effect are not modelled.
- `Array.isArray` on values other than arrays is modelled as an absent list; absent `children` count as empty.
- `insertAd` and the ad service are not modelled: the service is a parameter of the controller.
- Query values given as arrays are not modelled.
- A `next()` that throws inside `authRequired`'s `try` is not modelled.
- The SQL texts of the listing routes and the ad model are written on one line with single spaces; the source spreads them over indented lines, which PostgreSQL reads the same.
- The loading flags of the sizes fetch in both forms are not modelled; the dialog's category loading flag is.
- UserModel.AccountStore.GetUserById: returns the account's stored row and role. The `accounts` projection of the source is not modelled: a client's `name` read as `COALESCE(profile_name, name)`, `store_name` renamed `business_name`, the other table's columns read as NULL, and `password_hash` left out unless `includePassword` is set.

## Findings

| source | as written | input that shows it | evidently intended | confidence | as-written member | corrected member |
|---|---|---|---|---|---|---|
| backend/src/routes/authRoutes.js:158 | the template `$$${index}` emits two dollar signs before the number, so the WHERE clause reads `id = $$2`, which PostgreSQL takes as the start of a dollar-quoted string | body `{ name: "x" }` from user 7 | `WHERE id = $2`, binding the user id appended last | not executed | AuthRoutes.AsWrittenExample | AuthRoutes.IdPlaceholderBindsUser |
| frontendnext/tunimode-web/src/components/QuickFiltersDialog.tsx:86 | the effect calls `ApiService.fetchCategoriesTree?.()`, a method the service does not have (its own is `fetchCategoryTree`), so the optional call short-circuits the whole `.then/.catch/.finally` chain | opening the dialog with no categories loaded | the tree is fetched, stored and the loading flag cleared | not executed | QuickFilters.AsWrittenCategoriesNeverLoad | QuickFilters.CategoriesLoadOnce |

The route `PUT /me` is modelled as written by `AuthRoutes.UserTable.UpdateMe` (every real update answers 500) and with the corrected placeholder by `AuthRoutes.UserTable.UpdateMeCorrected`.

Two further observations follow from the code as written and are proved, without a correction:

- `POST /register` accepts only the roles "buyer" and "pro", yet `authRequired` admits only "seller" and "client". Every token register issues is therefore refused (`AuthRoutes.RegisteredTokenRefusedByAuthRequired`).
- The listing write routes sit behind `requireRole("pro", "admin")` after `authRequired`, so they admit nobody (`ListingRoutes.ListingWritesUnreachable`).
