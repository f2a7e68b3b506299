/** The listing routes: the search condition builder of `GET /`, the image tuple
    builder of `POST /`, and the owner-or-admin gate and `COALESCE` update of
    `PUT /:id` and `DELETE /:id`, over a table of listings and one of images. */
module ListingRoutes {
  import opened Js
  import opened UserModel
  import AuthMiddleware

  // ---------------------------------------------------------------- GET / search

  /** The query string fields the search reads; each is text when present. */
  datatype SearchQuery = SearchQuery(
    q: Option<string>, categoryId: Option<string>, city: Option<string>,
    minPrice: Option<string>, maxPrice: Option<string>)

  datatype FilterKind = TextSearch | Category | City | MinPrice | MaxPrice

  /** A supplied filter and the parameter it binds. */
  datatype Filter = Filter(kind: FilterKind, param: string)

  const ActiveCondition := "l.status = 'active'"

  /** The condition a filter adds, around its placeholder `p`; the text search uses
      the same placeholder for the title and the description. */
  function ConditionFor(kind: FilterKind, p: string): string {
    match kind
    case TextSearch => "(LOWER(l.title) LIKE " + p + " OR LOWER(l.description) LIKE " + p + ")"
    case Category => "l.category_id = " + p
    case City => "LOWER(l.city) = " + p
    case MinPrice => "l.price >= " + p
    case MaxPrice => "l.price <= " + p
  }

  function FieldOf(query: SearchQuery, kind: FilterKind): Option<string> {
    match kind
    case TextSearch => query.q
    case Category => query.categoryId
    case City => query.city
    case MinPrice => query.minPrice
    case MaxPrice => query.maxPrice
  }

  /** The bound parameter for a field's text: the search text lower-cased and
      wrapped in `%`, the city lower-cased, the others as given. */
  function ParamFor(kind: FilterKind, s: string): string {
    match kind
    case TextSearch => "%" + Lower(s) + "%"
    case City => Lower(s)
    case _ => s
  }

  function FilterIf(query: SearchQuery, kind: FilterKind): seq<Filter> {
    if TruthyStr(FieldOf(query, kind)) then [Filter(kind, ParamFor(kind, FieldOf(query, kind).value))] else []
  }

  /** The order in which the route tests the fields. */
  const RouteOrder: seq<FilterKind> := [TextSearch, Category, City, MinPrice, MaxPrice]

  /** The filters of the truthy fields among `kinds`, in that order. */
  function FiltersFor(query: SearchQuery, kinds: seq<FilterKind>): seq<Filter> {
    if |kinds| == 0 then []
    else FiltersFor(query, kinds[..|kinds| - 1]) + FilterIf(query, kinds[|kinds| - 1])
  }

  function SuppliedFilters(query: SearchQuery): seq<Filter> {
    FiltersFor(query, RouteOrder)
  }

  function NumberedConditions(fs: seq<Filter>): (r: seq<string>)
    ensures |r| == |fs| && forall i :: 0 <= i < |fs| ==> r[i] == ConditionFor(fs[i].kind, Placeholder(i + 1))
  {
    seq(|fs|, i requires 0 <= i < |fs| => ConditionFor(fs[i].kind, Placeholder(i + 1)))
  }

  function Params(fs: seq<Filter>): (r: seq<string>)
    ensures |r| == |fs| && forall i :: 0 <= i < |fs| ==> r[i] == fs[i].param
  {
    seq(|fs|, i requires 0 <= i < |fs| => fs[i].param)
  }

  /** The search statement around the built conditions. */
  function SearchSql(conditions: seq<string>): string {
    "SELECT l.*, u.name AS seller_name, c.name AS category_name FROM listings l JOIN users u ON l.user_id = u.id"
      + " LEFT JOIN categories c ON l.category_id = c.id WHERE " + Join(conditions, " AND ")
      + " ORDER BY l.created_at DESC LIMIT 50"
  }

  /** One guarded push: if the field is truthy, the next condition and parameter. */
  method PushFilter(query: SearchQuery, kind: FilterKind, conditions: seq<string>, params: seq<string>, idx: nat,
                    ghost fs: seq<Filter>)
    returns (conditions': seq<string>, params': seq<string>, idx': nat, ghost fs': seq<Filter>)
    requires conditions == [ActiveCondition] + NumberedConditions(fs) && params == Params(fs) && idx == |fs| + 1
    ensures fs' == fs + FilterIf(query, kind)
    ensures conditions' == [ActiveCondition] + NumberedConditions(fs') && params' == Params(fs') && idx' == |fs'| + 1
  {
    conditions', params', idx', fs' := conditions, params, idx, fs;
    var field := FieldOf(query, kind);
    if TruthyStr(field) {
      conditions' := conditions + [ConditionFor(kind, Placeholder(idx))];
      params' := params + [ParamFor(kind, field.value)];
      idx' := idx + 1;
      fs' := fs + [Filter(kind, ParamFor(kind, field.value))];
      assert NumberedConditions(fs') == NumberedConditions(fs) + [ConditionFor(kind, Placeholder(idx))];
      assert Params(fs') == Params(fs) + [ParamFor(kind, field.value)];
    }
  }

  /** The builder of `GET /`: the active-listing condition first, then one numbered
      condition and one parameter per truthy filter, in route order. */
  method BuildSearch(query: SearchQuery) returns (sql: string, conditions: seq<string>, params: seq<string>)
    ensures conditions == [ActiveCondition] + NumberedConditions(SuppliedFilters(query))
    ensures params == Params(SuppliedFilters(query))
    ensures sql == SearchSql(conditions)
  {
    conditions := [ActiveCondition];
    params := [];
    var idx: nat := 1;
    ghost var fs: seq<Filter> := [];
    assert NumberedConditions([]) == [];
    assert RouteOrder[..1] == [TextSearch] && RouteOrder[..2] == [TextSearch, Category];
    assert RouteOrder[..3] == [TextSearch, Category, City];
    assert RouteOrder[..4] == [TextSearch, Category, City, MinPrice];
    conditions, params, idx, fs := PushFilter(query, TextSearch, conditions, params, idx, fs);
    assert fs == FiltersFor(query, RouteOrder[..1]);
    conditions, params, idx, fs := PushFilter(query, Category, conditions, params, idx, fs);
    assert fs == FiltersFor(query, RouteOrder[..2]);
    conditions, params, idx, fs := PushFilter(query, City, conditions, params, idx, fs);
    assert RouteOrder[..3][..2] == RouteOrder[..2];
    assert fs == FiltersFor(query, RouteOrder[..3]);
    conditions, params, idx, fs := PushFilter(query, MinPrice, conditions, params, idx, fs);
    assert RouteOrder[..4][..3] == RouteOrder[..3];
    assert fs == FiltersFor(query, RouteOrder[..4]);
    conditions, params, idx, fs := PushFilter(query, MaxPrice, conditions, params, idx, fs);
    assert RouteOrder[..5] == RouteOrder;
    assert RouteOrder[..5][..4] == RouteOrder[..4];
    assert fs == FiltersFor(query, RouteOrder[..5]);
    sql := SearchSql(conditions);
  }

  function KindIndex(kind: FilterKind): nat {
    match kind
    case TextSearch => 0
    case Category => 1
    case City => 2
    case MinPrice => 3
    case MaxPrice => 4
  }

  /** The filters for `kinds` come from truthy fields among `kinds`, every truthy
      one appears, and they keep the order of `kinds`. */
  lemma {:induction false} FiltersForExactly(query: SearchQuery, kinds: seq<FilterKind>)
    requires forall i, j :: 0 <= i < j < |kinds| ==> KindIndex(kinds[i]) < KindIndex(kinds[j])
    ensures forall f :: f in FiltersFor(query, kinds) ==>
      && f.kind in kinds && TruthyStr(FieldOf(query, f.kind))
      && f.param == ParamFor(f.kind, FieldOf(query, f.kind).value)
    ensures forall kind :: kind in kinds && TruthyStr(FieldOf(query, kind)) ==>
      Filter(kind, ParamFor(kind, FieldOf(query, kind).value)) in FiltersFor(query, kinds)
    ensures forall i, j :: 0 <= i < j < |FiltersFor(query, kinds)| ==>
      KindIndex(FiltersFor(query, kinds)[i].kind) < KindIndex(FiltersFor(query, kinds)[j].kind)
  {
    if |kinds| > 0 {
      var init := kinds[..|kinds| - 1];
      var last := kinds[|kinds| - 1];
      FiltersForExactly(query, init);
      var prev := FiltersFor(query, init);
      var fs := FiltersFor(query, kinds);
      assert fs == prev + FilterIf(query, last);
      forall i | 0 <= i < |prev|
        ensures prev[i].kind in kinds && KindIndex(prev[i].kind) < KindIndex(last)
      {
        assert prev[i] in prev;
        var k :| 0 <= k < |init| && init[k] == prev[i].kind;
        assert kinds[k] == prev[i].kind;
      }
      forall kind | kind in kinds && TruthyStr(FieldOf(query, kind))
        ensures Filter(kind, ParamFor(kind, FieldOf(query, kind).value)) in fs
      {
        if kind != last {
          var k :| 0 <= k < |kinds| && kinds[k] == kind;
          assert init[k] == kind;
        }
      }
      forall i, j | 0 <= i < j < |fs|
        ensures KindIndex(fs[i].kind) < KindIndex(fs[j].kind)
      {
        assert fs[i] == prev[i];
        if j < |prev| {
          assert fs[j] == prev[j];
          assert KindIndex(prev[i].kind) < KindIndex(prev[j].kind);
        } else {
          assert fs[j].kind == last;
        }
      }
    }
  }

  /** Each filter appears iff its field is truthy, at most once, in route order,
      with its parameter derived from the field; so the statement has one
      condition per truthy field after the active one. */
  lemma SearchFiltersExactly(query: SearchQuery)
    ensures var fs := SuppliedFilters(query);
      && (forall kind :: (exists i :: 0 <= i < |fs| && fs[i].kind == kind) <==> TruthyStr(FieldOf(query, kind)))
      && (forall i :: 0 <= i < |fs| ==>
            && TruthyStr(FieldOf(query, fs[i].kind))
            && fs[i].param == ParamFor(fs[i].kind, FieldOf(query, fs[i].kind).value))
      && (forall i, j :: 0 <= i < j < |fs| ==> KindIndex(fs[i].kind) < KindIndex(fs[j].kind))
  {
    FiltersForExactly(query, RouteOrder);
    var fs := SuppliedFilters(query);
    assert fs == FiltersFor(query, RouteOrder);
    forall kind
      ensures (exists i :: 0 <= i < |fs| && fs[i].kind == kind) <==> TruthyStr(FieldOf(query, kind))
    {
      assert kind in RouteOrder by {
        match kind
        case TextSearch => assert RouteOrder[0] == kind;
        case Category => assert RouteOrder[1] == kind;
        case City => assert RouteOrder[2] == kind;
        case MinPrice => assert RouteOrder[3] == kind;
        case MaxPrice => assert RouteOrder[4] == kind;
      }
      if TruthyStr(FieldOf(query, kind)) {
        var f := Filter(kind, ParamFor(kind, FieldOf(query, kind).value));
        assert f in fs;
        var i :| 0 <= i < |fs| && fs[i] == f;
        assert fs[i].kind == kind;
      }
    }
  }

  /** Placeholder `$k` binds `params[k-1]`: condition `k` (after the active one)
      is the k-th filter's condition around `$k`, and the k-th parameter is that
      filter's value. */
  lemma SearchPlaceholdersBind(query: SearchQuery, k: nat)
    requires 1 <= k <= |SuppliedFilters(query)|
    ensures var fs := SuppliedFilters(query);
      var conditions := [ActiveCondition] + NumberedConditions(fs);
      var params := Params(fs);
      && |conditions| == |params| + 1
      && conditions[k] == ConditionFor(fs[k - 1].kind, Placeholder(k))
      && DigitsValue(Placeholder(k)[1..]) == k
      && params[k - 1] == fs[k - 1].param
  {
  }

  /** With no truthy filter the search only asks for active listings. */
  lemma NoFiltersOnlyActive(query: SearchQuery)
    requires forall kind :: !TruthyStr(FieldOf(query, kind))
    ensures SuppliedFilters(query) == []
    ensures SearchSql([ActiveCondition] + NumberedConditions(SuppliedFilters(query))) ==
      SearchSql([ActiveCondition])
  {
    SearchFiltersExactly(query);
    var fs := SuppliedFilters(query);
    assert fs != [] ==> TruthyStr(FieldOf(query, fs[0].kind));
    assert NumberedConditions([]) == [];
  }

  // ---------------------------------------------------------------- POST / images

  /** The `images` field: something other than an array, or the array of URLs. */
  datatype ImagesInput = NotAnArray | AnArray(urls: seq<string>)

  datatype ImageInsert = ImageInsert(text: string, params: seq<SqlValue>)

  /** `($k, $k+1, $k+2)`. */
  function TupleText(k: nat): string {
    "(" + Placeholder(k) + ", " + Placeholder(k + 1) + ", " + Placeholder(k + 2) + ")"
  }

  /** The three parameters of each image in turn. */
  function ImageParams(listingId: nat, urls: seq<string>): (r: seq<SqlValue>)
    ensures |r| == 3 * |urls|
  {
    if |urls| == 0 then []
    else ImageParams(listingId, urls[..|urls| - 1]) + [SqlId(listingId), SqlText(urls[|urls| - 1]), SqlId(|urls| - 1)]
  }

  /** The parameters of image `i` are the listing id, the URL and the position `i`. */
  lemma {:induction false} ImageParamsAt(listingId: nat, urls: seq<string>, i: nat)
    requires i < |urls|
    ensures var r := ImageParams(listingId, urls);
      r[3 * i] == SqlId(listingId) && r[3 * i + 1] == SqlText(urls[i]) && r[3 * i + 2] == SqlId(i)
  {
    var n := |urls| - 1;
    if i < n {
      ImageParamsAt(listingId, urls[..n], i);
      assert urls[..n][i] == urls[i];
    }
  }

  function ImageTuples(n: nat): (r: seq<string>)
    ensures |r| == n && forall i :: 0 <= i < n ==> r[i] == TupleText(3 * i + 1)
  {
    seq(n, i requires 0 <= i < n => TupleText(3 * i + 1))
  }

  /** The image insert of `POST /`: none unless `images` is a non-empty array;
      otherwise tuple `i` uses placeholders `3i+1`, `3i+2`, `3i+3`, which bind the
      listing id, the i-th URL and the sort order `i`. */
  method BuildImageInsert(listingId: nat, images: ImagesInput) returns (insert: Option<ImageInsert>)
    ensures insert.None? <==> images.NotAnArray? || |images.urls| == 0
    ensures insert.Some? ==>
      && insert.value.text == "INSERT INTO listing_images (listing_id, url, sort_order) VALUES " + Join(ImageTuples(|images.urls|), ",")
      && insert.value.params == ImageParams(listingId, images.urls)
  {
    if images.NotAnArray? || |images.urls| == 0 {
      return None;
    }
    var urls := images.urls;
    var values: seq<string> := [];
    var params: seq<SqlValue> := [];
    var idx: nat := 1;
    for i := 0 to |urls|
      invariant values == ImageTuples(i) && params == ImageParams(listingId, urls[..i]) && idx == 3 * i + 1
    {
      values := values + [TupleText(idx)];
      params := params + [SqlId(listingId), SqlText(urls[i]), SqlId(i)];
      idx := idx + 3;
      assert urls[..i + 1][..i] == urls[..i];
      assert urls[..i + 1][i] == urls[i];
      assert ImageTuples(i + 1) == ImageTuples(i) + [TupleText(3 * i + 1)];
    }
    assert urls[..|urls|] == urls;
    insert := Some(ImageInsert("INSERT INTO listing_images (listing_id, url, sort_order) VALUES " + Join(values, ","), params));
  }

  /** Tuple `i` names placeholders `3i+1`..`3i+3`, and those bind the listing id, the
      i-th URL and `i`. */
  lemma ImageTupleBinds(listingId: nat, urls: seq<string>, i: nat)
    requires i < |urls|
    ensures var params := ImageParams(listingId, urls);
      && ImageTuples(|urls|)[i] == "(" + Placeholder(3 * i + 1) + ", " + Placeholder(3 * i + 2) + ", " + Placeholder(3 * i + 3) + ")"
      && DigitsValue(Placeholder(3 * i + 1)[1..]) == 3 * i + 1
      && params[3 * i + 1 - 1] == SqlId(listingId)
      && params[3 * i + 2 - 1] == SqlText(urls[i])
      && params[3 * i + 3 - 1] == SqlId(i)
  {
    ImageParamsAt(listingId, urls, i);
  }

  // ---------------------------------------------------------------- the listing tables

  /** The body fields of a create or an update (`status` is read by the update only). */
  datatype ListingBody = ListingBody(
    title: Input, description: Input, price: Input, size: Input, color: Input,
    condition: Input, categoryId: Input, city: Input, status: Input)

  datatype Listing = Listing(
    userId: nat, title: SqlValue, description: SqlValue, price: SqlValue, size: SqlValue,
    color: SqlValue, condition: SqlValue, categoryId: SqlValue, city: SqlValue, status: SqlValue)

  datatype ImageRow = ImageRow(listingId: nat, url: string, sortOrder: nat)

  datatype Response =
    | Created(id: nat, listing: Listing)
    | Updated(listing: Listing)
    | Removed(message: string)
    | Refused(code: int, message: string)

  const NotFound := "Annonce introuvable"
  const CannotUpdate := "Vous ne pouvez pas modifier cette annonce"
  const CannotDelete := "Vous ne pouvez pas supprimer cette annonce"
  const DeletedMessage := "Annonce supprimée"

  /** The column default for `status`, which the insert does not set. */
  const DefaultStatus := SqlText("active")

  /** The inserted listing: a falsy category or city is stored as null. */
  function NewListing(userId: nat, body: ListingBody): (l: Listing)
    ensures l.userId == userId && l.status == DefaultStatus
    ensures l.categoryId == (if body.categoryId.Text? && body.categoryId.s != "" then SqlText(body.categoryId.s) else SqlNull)
    ensures l.city == (if body.city.Text? && body.city.s != "" then SqlText(body.city.s) else SqlNull)
  {
    Listing(userId, AsGiven(body.title), AsGiven(body.description), AsGiven(body.price), AsGiven(body.size),
            AsGiven(body.color), AsGiven(body.condition), TextOrNull(body.categoryId), TextOrNull(body.city),
            DefaultStatus)
  }

  /** `COALESCE($k, column)`: a null or absent value keeps the column. */
  function Coalesce(v: Input, current: SqlValue): SqlValue {
    if v.Text? then SqlText(v.s) else current
  }

  /** One column after `COALESCE`: a given value replaces it, an absent or null
      one leaves it as it was. */
  predicate ColumnPatched(v: Input, before: SqlValue, after: SqlValue) {
    && (v.Text? ==> after == SqlText(v.s))
    && (!v.Text? ==> after == before)
  }

  /** The listing after `PUT /:id`: each of the nine columns is patched on its
      own, and the owner never changes. */
  function Patched(l: Listing, body: ListingBody): (r: Listing)
    ensures r.userId == l.userId
    ensures ColumnPatched(body.title, l.title, r.title)
    ensures ColumnPatched(body.description, l.description, r.description)
    ensures ColumnPatched(body.price, l.price, r.price)
    ensures ColumnPatched(body.size, l.size, r.size)
    ensures ColumnPatched(body.color, l.color, r.color)
    ensures ColumnPatched(body.condition, l.condition, r.condition)
    ensures ColumnPatched(body.categoryId, l.categoryId, r.categoryId)
    ensures ColumnPatched(body.city, l.city, r.city)
    ensures ColumnPatched(body.status, l.status, r.status)
  {
    Listing(l.userId, Coalesce(body.title, l.title), Coalesce(body.description, l.description),
            Coalesce(body.price, l.price), Coalesce(body.size, l.size), Coalesce(body.color, l.color),
            Coalesce(body.condition, l.condition), Coalesce(body.categoryId, l.categoryId),
            Coalesce(body.city, l.city), Coalesce(body.status, l.status))
  }

  /** The first two checks of update and delete: 404 for an unknown listing, then
      403 unless the caller is an admin or the owner. */
  function Gate(listings: map<nat, Listing>, caller: AuthMiddleware.Payload, listingId: nat, forbidden: string): (r: Option<Response>)
    ensures r == Some(Refused(404, NotFound)) <==> listingId !in listings
    ensures r.None? <==> listingId in listings && (caller.role == "admin" || listings[listingId].userId == caller.id)
    ensures r.Some? && listingId in listings ==> r == Some(Refused(403, forbidden))
  {
    if listingId !in listings then Some(Refused(404, NotFound))
    else if caller.role != "admin" && listings[listingId].userId != caller.id then Some(Refused(403, forbidden))
    else None
  }

  /** The rows the images of a new listing add, in array order. */
  function ImageRows(listingId: nat, urls: seq<string>): (r: seq<ImageRow>)
    ensures |r| == |urls| && forall i :: 0 <= i < |urls| ==> r[i] == ImageRow(listingId, urls[i], i)
  {
    seq(|urls|, i requires 0 <= i < |urls| => ImageRow(listingId, urls[i], i))
  }

  /** The images of one listing (`WHERE listing_id = $1`), in table order. */
  function ImagesOf(images: seq<ImageRow>, listingId: nat): (r: seq<ImageRow>)
    ensures forall x :: x in r <==> x in images && x.listingId == listingId
  {
    if |images| == 0 then []
    else
      var last := images[|images| - 1];
      ImagesOf(images[..|images| - 1], listingId) + (if last.listingId == listingId then [last] else [])
  }

  lemma {:induction false} ImagesOfAppend(images: seq<ImageRow>, more: seq<ImageRow>, listingId: nat)
    requires forall x :: x in more ==> x.listingId == listingId
    ensures ImagesOf(images + more, listingId) == ImagesOf(images, listingId) + more
  {
    if |more| > 0 {
      var n := |more| - 1;
      assert (images + more)[..|images + more| - 1] == images + more[..n];
      ImagesOfAppend(images, more[..n], listingId);
      assert more[..n] + [more[n]] == more;
    } else {
      assert images + more == images;
    }
  }

  /** The images of a listing no earlier row names are exactly the new rows: the
      URLs in array order, with sort orders 0, 1, 2, ... */
  lemma NewListingImagesInOrder(images: seq<ImageRow>, listingId: nat, urls: seq<string>)
    requires forall x :: x in images ==> x.listingId != listingId
    ensures var got := ImagesOf(images + ImageRows(listingId, urls), listingId);
      && |got| == |urls|
      && forall i :: 0 <= i < |urls| ==> got[i].url == urls[i] && got[i].sortOrder == i
  {
    var rows := ImageRows(listingId, urls);
    RowsOfOneListing(listingId, urls);
    ImagesOfAppend(images, rows, listingId);
    NoImagesOf(images, listingId);
    assert ImagesOf(images + rows, listingId) == rows;
  }

  lemma RowsOfOneListing(listingId: nat, urls: seq<string>)
    ensures forall x :: x in ImageRows(listingId, urls) ==> x.listingId == listingId
  {
  }

  lemma NoImagesOf(images: seq<ImageRow>, listingId: nat)
    requires forall x :: x in images ==> x.listingId != listingId
    ensures ImagesOf(images, listingId) == []
  {
  }

  /** A body with no field given (all absent or null) leaves a listing as it was. */
  lemma EmptyPatchKeepsListing(l: Listing, body: ListingBody)
    requires !body.title.Text? && !body.description.Text? && !body.price.Text? && !body.size.Text?
    requires !body.color.Text? && !body.condition.Text? && !body.categoryId.Text? && !body.city.Text? && !body.status.Text?
    ensures Patched(l, body) == l
  {
  }

  /** Applying the same update twice is the same as applying it once, and a given
      field always ends up with its given text. */
  lemma PatchIdempotent(l: Listing, body: ListingBody)
    ensures Patched(Patched(l, body), body) == Patched(l, body)
    ensures body.title.Text? ==> Patched(l, body).title == SqlText(body.title.s)
    ensures body.status.Text? ==> Patched(l, body).status == SqlText(body.status.s)
  {
  }

  /** One body over another: a field the later body gives wins, else the earlier one's. */
  function Over(later: Input, earlier: Input): Input {
    if later.Text? then later else earlier
  }

  /** Two updates in a row are one update with the later body laid over the
      earlier one, field by field. */
  lemma PatchesCompose(l: Listing, first: ListingBody, second: ListingBody)
    ensures Patched(Patched(l, first), second) == Patched(l, ListingBody(
      Over(second.title, first.title), Over(second.description, first.description),
      Over(second.price, first.price), Over(second.size, first.size), Over(second.color, first.color),
      Over(second.condition, first.condition), Over(second.categoryId, first.categoryId),
      Over(second.city, first.city), Over(second.status, first.status)))
  {
  }

  /** The guards in front of the write routes admit nobody: `authRequired` passes
      seller and client users only, and `requireRole("pro", "admin")` neither. */
  lemma ListingWritesUnreachable(header: Option<string>, verify: string -> Option<AuthMiddleware.Payload>)
    ensures AuthMiddleware.Then(AuthMiddleware.AuthRequired(header, verify), ["pro", "admin"]).Reject?
  {
    AuthMiddleware.ProOrAdminUnreachable(header, verify);
  }

  class ListingStore {
    var listings: map<nat, Listing>
    var images: seq<ImageRow>
    var nextId: nat

    ghost predicate Valid()
      reads this
    {
      && (forall id :: id in listings ==> id < nextId)
      && (forall x :: x in images ==> x.listingId < nextId)
    }

    constructor ()
      ensures Valid() && listings == map[] && images == []
    {
      listings := map[];
      images := [];
      nextId := 1;
    }

    /** `POST /`: inserts the listing for the caller, then its images when `images`
        is a non-empty array. */
    method Create(caller: AuthMiddleware.Payload, body: ListingBody, imagesInput: ImagesInput) returns (res: Response)
      requires Valid()
      modifies this
      ensures Valid()
      ensures res == Created(old(nextId), NewListing(caller.id, body))
      ensures old(nextId) !in old(listings) && listings == old(listings)[old(nextId) := NewListing(caller.id, body)]
      ensures images == old(images) + (if imagesInput.AnArray? then ImageRows(old(nextId), imagesInput.urls) else [])
      ensures nextId == old(nextId) + 1
    {
      var id := nextId;
      var listing := NewListing(caller.id, body);
      listings := listings[id := listing];
      nextId := nextId + 1;
      var insert := BuildImageInsert(id, imagesInput);
      if insert.Some? {
        var added := ImageRows(id, imagesInput.urls);
        forall x | x in added
          ensures x.listingId < nextId
        {
          var i :| 0 <= i < |added| && added[i] == x;
        }
        images := images + added;
      } else if imagesInput.AnArray? {
        assert ImageRows(id, imagesInput.urls) == [];
      }
      res := Created(id, listing);
    }

    /** `PUT /:id`: after the gate, each given field replaces its column. */
    method Update(caller: AuthMiddleware.Payload, listingId: nat, body: ListingBody) returns (res: Response)
      requires Valid()
      modifies this
      ensures Valid() && images == old(images) && nextId == old(nextId)
      ensures var gate := Gate(old(listings), caller, listingId, CannotUpdate);
        && (gate.Some? ==> res == gate.value && listings == old(listings))
        && (gate.None? ==>
              var l := Patched(old(listings)[listingId], body);
              res == Updated(l) && listings == old(listings)[listingId := l])
    {
      var gate := Gate(listings, caller, listingId, CannotUpdate);
      if gate.Some? {
        return gate.value;
      }
      var l := Patched(listings[listingId], body);
      listings := listings[listingId := l];
      res := Updated(l);
    }

    /** `DELETE /:id`: after the gate, removes the listing. */
    method Delete(caller: AuthMiddleware.Payload, listingId: nat) returns (res: Response)
      requires Valid()
      modifies this
      ensures Valid() && images == old(images) && nextId == old(nextId)
      ensures var gate := Gate(old(listings), caller, listingId, CannotDelete);
        && (gate.Some? ==> res == gate.value && listings == old(listings))
        && (gate.None? ==> res == Removed(DeletedMessage) && listings == old(listings) - {listingId})
    {
      var gate := Gate(listings, caller, listingId, CannotDelete);
      if gate.Some? {
        return gate.value;
      }
      listings := listings - {listingId};
      res := Removed(DeletedMessage);
    }
  }
}
