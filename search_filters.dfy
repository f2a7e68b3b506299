/** The search-filter helpers of the web client: reading filters back from URL
    query parameters (with a fallback for absent keys), writing them into the
    results URL through a `URLSearchParams` builder, and the parameters sent to
    the API. Numbers are finite reals; `Number(...)`, `String(n)` and the
    form-encoding of keys and values are parameters. */
module SearchFilters {
  import opened Js

  /** The client-side search state. */
  datatype Filters = Filters(
    query: string,
    gender: Option<string>,
    city: Option<string>,
    minPrice: Option<real>,
    maxPrice: Option<real>,
    categoryId: Option<real>,
    sizes: Option<seq<string>>,
    colors: Option<seq<string>>,
    deliveryAvailable: Option<bool>)

  /** One `name=value` pair of a query string. */
  type Entry = (string, string)

  // ---------------------------------------------------------------- toNumber / toList

  /** `toNumber`: null and "" are undefined, and so is any parse that is not finite. */
  function ToNumber(value: Option<string>, parse: string -> JsNumber): (r: Option<real>)
    ensures r.Some? <==> value.Some? && value.value != "" && parse(value.value).Finite?
    ensures r.Some? ==> parse(value.value) == Finite(r.value)
  {
    if value.None? || value.value == "" then None
    else match parse(value.value)
      case Finite(x) => Some(x)
      case _ => None
  }

  function TrimEach(xs: seq<string>): (r: seq<string>)
    ensures |r| == |xs| && forall i :: 0 <= i < |xs| ==> r[i] == Trim(xs[i])
  {
    seq(|xs|, i requires 0 <= i < |xs| => Trim(xs[i]))
  }

  /** `xs.filter(Boolean)` on strings. */
  function NonBlank(xs: seq<string>): (r: seq<string>)
    ensures forall i :: 0 <= i < |r| ==> r[i] != "" && r[i] in xs
    ensures forall s :: s in r <==> s in xs && s != ""
  {
    if |xs| == 0 then [] else (if xs[0] == "" then [] else [xs[0]]) + NonBlank(xs[1..])
  }

  /** Filtering a list extended by one entry keeps the earlier entries' result
      and appends the entry iff it is not empty: the order is the input's. */
  lemma {:induction false} NonBlankSnoc(xs: seq<string>, x: string)
    ensures NonBlank(xs + [x]) == NonBlank(xs) + (if x == "" then [] else [x])
  {
    if |xs| == 0 {
      assert xs + [x] == [x] && [x][1..] == [];
    } else {
      assert (xs + [x])[0] == xs[0] && (xs + [x])[1..] == xs[1..] + [x];
      NonBlankSnoc(xs[1..], x);
    }
  }

  /** `toList`: an empty or missing value gives the fallback; otherwise the
      comma-separated pieces, trimmed, without empty ones. */
  function ToList(value: Option<string>, fallback: seq<string>): (r: seq<string>)
    ensures !TruthyStr(value) ==> r == fallback
    ensures TruthyStr(value) ==> forall i :: 0 <= i < |r| ==> r[i] != "" && IsTrimmed(r[i])
    ensures TruthyStr(value) ==> r == NonBlank(TrimEach(Split(value.value, ',')))
    ensures TruthyStr(value) ==> forall s :: s in r <==> s != "" && s in TrimEach(Split(value.value, ','))
  {
    if !TruthyStr(value) then fallback else NonBlank(TrimEach(Split(value.value, ',')))
  }

  /** The entries a list may carry through a URL unchanged. */
  predicate ListSafe(xs: seq<string>) {
    forall i :: 0 <= i < |xs| ==> xs[i] != "" && IsTrimmed(xs[i]) && ',' !in xs[i]
  }

  lemma {:induction false} NonBlankKeeps(xs: seq<string>)
    requires forall i :: 0 <= i < |xs| ==> xs[i] != ""
    ensures NonBlank(xs) == xs
  {
    if |xs| > 0 {
      NonBlankKeeps(xs[1..]);
      assert [xs[0]] + xs[1..] == xs;
    }
  }

  /** Joining safe entries with "," and reading them back with `toList` gives
      the same list. */
  lemma ToListOfJoin(xs: seq<string>, fallback: seq<string>)
    requires |xs| >= 1 && ListSafe(xs)
    ensures ToList(Some(Join(xs, ",")), fallback) == xs
  {
    SplitJoin(xs, ',');
    assert Join(xs, ",") != "" by {
      JoinStartsWithFirst(xs, ",");
    }
    forall i | 0 <= i < |xs| ensures Trim(xs[i]) == xs[i] {
      TrimOfTrimmed(xs[i]);
    }
    assert TrimEach(xs) == xs;
    NonBlankKeeps(xs);
  }

  // ---------------------------------------------------------------- URLSearchParams

  /** `params.get(key)`: the first value under the key, null when none. */
  function Get(es: seq<Entry>, key: string): (r: Option<string>)
    ensures r.Some? <==> exists i :: 0 <= i < |es| && es[i].0 == key
  {
    if |es| == 0 then None else if es[0].0 == key then Some(es[0].1) else Get(es[1..], key)
  }

  function RemoveKey(es: seq<Entry>, key: string): (r: seq<Entry>)
    ensures Get(r, key).None?
    ensures forall k :: k != key ==> Get(r, k) == Get(es, k)
  {
    if |es| == 0 then [] else if es[0].0 == key then RemoveKey(es[1..], key) else [es[0]] + RemoveKey(es[1..], key)
  }

  /** `params.set(key, value)`: the first pair under the key takes the value and
      later ones go; a new key is appended. */
  function SetEntry(es: seq<Entry>, key: string, value: string): (r: seq<Entry>)
    ensures Get(r, key) == Some(value)
    ensures forall k :: k != key ==> Get(r, k) == Get(es, k)
    ensures Get(es, key).None? ==> r == es + [(key, value)]
  {
    if |es| == 0 then [(key, value)]
    else if es[0].0 == key then [(key, value)] + RemoveKey(es[1..], key)
    else
      var rest := SetEntry(es[1..], key, value);
      assert Get(es, key).None? ==> [es[0]] + rest == es + [(key, value)] by {
        if Get(es, key).None? {
          assert es == [es[0]] + es[1..];
        }
      }
      [es[0]] + rest
  }

  /** `params.toString()`: encoded pairs joined by "&". */
  function Serialize(es: seq<Entry>, encode: string -> string): (r: string)
    ensures r == "" <==> es == []
  {
    var pairs := seq(|es|, i requires 0 <= i < |es| => encode(es[i].0) + "=" + encode(es[i].1));
    if |es| == 0 then ""
    else
      assert pairs[0] != "";
      assert Join(pairs, "&")[..|pairs[0]|] == pairs[0] by {
        JoinStartsWithFirst(pairs, "&");
      }
      Join(pairs, "&")
  }

  /** A `URLSearchParams` being filled. */
  class UrlParams {
    var entries: seq<Entry>

    constructor ()
      ensures entries == []
    {
      entries := [];
    }

    method Set(key: string, value: string)
      modifies this
      ensures entries == SetEntry(old(entries), key, value)
    {
      entries := SetEntry(entries, key, value);
    }

    function ToString(encode: string -> string): string
      reads this
    {
      Serialize(entries, encode)
    }
  }

  // ---------------------------------------------------------------- buildResultsUrl

  const ResultsPath := "/search/results"

  function OptEntry(key: string, v: Option<string>): seq<Entry> {
    if v.Some? then [(key, v.value)] else []
  }

  /** `String(b)` for a boolean. */
  function BoolText(b: bool): string {
    if b then "true" else "false"
  }

  function MapOpt<A, B>(v: Option<A>, f: A -> B): Option<B> {
    if v.Some? then Some(f(v.value)) else None
  }

  /** The query value that is written: the trimmed query, when not blank. */
  function QueryValue(f: Filters): Option<string> {
    if Trim(f.query) != "" then Some(Trim(f.query)) else None
  }

  function CityValue(f: Filters): Option<string> {
    if TruthyStr(f.city) then f.city else None
  }

  function ListValue(xs: Option<seq<string>>): Option<string> {
    if xs.Some? && |xs.value| > 0 then Some(Join(xs.value, ",")) else None
  }

  /** The pairs `buildResultsUrl` sets, in order: a blank query, an empty city,
      empty lists and undefined numbers or flag are skipped. */
  function ResultEntries(f: Filters, show: real -> string): seq<Entry> {
    OptEntry("query", QueryValue(f))
      + OptEntry("city", CityValue(f))
      + OptEntry("min_price", MapOpt(f.minPrice, show))
      + OptEntry("max_price", MapOpt(f.maxPrice, show))
      + OptEntry("category_id", MapOpt(f.categoryId, show))
      + OptEntry("sizes", ListValue(f.sizes))
      + OptEntry("colors", ListValue(f.colors))
      + OptEntry("delivery_available", MapOpt(f.deliveryAvailable, BoolText))
  }

  /** The path, with "?" and the query string only when it is not empty. */
  function ResultsUrl(qs: string): string {
    if qs != "" then ResultsPath + "?" + qs else ResultsPath
  }

  /** One guarded `params.set` of `buildResultsUrl`, on a key not set before. */
  method SetIf(p: UrlParams, key: string, v: Option<string>, ghost keys: set<string>)
    requires forall i :: 0 <= i < |p.entries| ==> p.entries[i].0 in keys
    requires key !in keys
    modifies p
    ensures p.entries == old(p.entries) + OptEntry(key, v)
    ensures forall i :: 0 <= i < |p.entries| ==> p.entries[i].0 in keys + {key}
  {
    if v.Some? {
      assert Get(p.entries, key).None?;
      p.Set(key, v.value);
    }
  }

  /** `buildResultsUrl`. */
  method BuildResultsUrl(f: Filters, show: real -> string, encode: string -> string) returns (url: string)
    ensures url == ResultsUrl(Serialize(ResultEntries(f, show), encode))
  {
    var p := new UrlParams();
    SetIf(p, "query", QueryValue(f), {});
    SetIf(p, "city", CityValue(f), {"query"});
    SetIf(p, "min_price", MapOpt(f.minPrice, show), {"query", "city"});
    SetIf(p, "max_price", MapOpt(f.maxPrice, show), {"query", "city", "min_price"});
    SetIf(p, "category_id", MapOpt(f.categoryId, show), {"query", "city", "min_price", "max_price"});
    SetIf(p, "sizes", ListValue(f.sizes), {"query", "city", "min_price", "max_price", "category_id"});
    SetIf(p, "colors", ListValue(f.colors), {"query", "city", "min_price", "max_price", "category_id", "sizes"});
    SetIf(p, "delivery_available", MapOpt(f.deliveryAvailable, BoolText),
          {"query", "city", "min_price", "max_price", "category_id", "sizes", "colors"});
    assert [] + OptEntry("query", QueryValue(f)) == OptEntry("query", QueryValue(f));
    var qs := p.ToString(encode);
    url := if qs != "" then ResultsPath + "?" + qs else ResultsPath;
  }

  /** Nothing set: every filter blank, empty or undefined. */
  predicate NothingSet(f: Filters) {
    && Trim(f.query) == "" && !TruthyStr(f.city)
    && f.minPrice.None? && f.maxPrice.None? && f.categoryId.None?
    && (f.sizes.None? || f.sizes.value == []) && (f.colors.None? || f.colors.value == [])
    && f.deliveryAvailable.None?
  }

  /** The URL is the bare results path exactly when nothing is set. */
  lemma BareUrlIffNothingSet(f: Filters, show: real -> string, encode: string -> string)
    ensures ResultsUrl(Serialize(ResultEntries(f, show), encode)) == ResultsPath <==> NothingSet(f)
  {
    var es := ResultEntries(f, show);
    if NothingSet(f) {
      assert es == [];
    } else {
      assert es != [];
      assert Serialize(es, encode) != "";
      assert |ResultsUrl(Serialize(es, encode))| > |ResultsPath|;
    }
  }

  /** A price of 0 and a `false` delivery flag are written, not skipped. */
  lemma ZeroAndFalseKept(f: Filters, show: real -> string)
    requires f.minPrice == Some(0.0) && f.deliveryAvailable == Some(false)
    ensures ("min_price", show(0.0)) in ResultEntries(f, show)
    ensures ("delivery_available", "false") in ResultEntries(f, show)
  {
  }

  // ---------------------------------------------------------------- filtersFromParams

  /** A numeric filter: the snake-case key, when present, decides alone (a value
      that is not a number falls back, the camel-case key is not read); otherwise
      the camel-case key; the fallback when neither gives a number. */
  function NumberParam(params: seq<Entry>, snake: string, camel: string, parse: string -> JsNumber,
                       fallback: Option<real>): (r: Option<real>)
    ensures Get(params, snake).Some? ==> r == OrElse(ToNumber(Get(params, snake), parse), fallback)
    ensures Get(params, snake).None? ==> r == OrElse(ToNumber(Get(params, camel), parse), fallback)
    ensures r.Some? && r != fallback ==> parse(OrElse(Get(params, snake), Get(params, camel)).value) == Finite(r.value)
  {
    OrElse(ToNumber(OrElse(Get(params, snake), Get(params, camel)), parse), fallback)
  }

  /** `filtersFromParams`: snake-case keys before camel-case ones, `query` before
      `q`, and the fallback for whatever is absent. The gender is not carried. */
  function FiltersFromParams(params: seq<Entry>, fallback: Filters, parse: string -> JsNumber): (r: Filters)
    ensures r.query == (if Get(params, "query").Some? then Get(params, "query").value
                        else if Get(params, "q").Some? then Get(params, "q").value
                        else fallback.query)
    ensures Get(params, "city").Some? ==> r.city == Get(params, "city")
    ensures Get(params, "city").None? ==> r.city == fallback.city
    ensures r.gender.None? && r.sizes.Some? && r.colors.Some?
    ensures Get(params, "delivery_available").Some? ==>
              r.deliveryAvailable == Some(Get(params, "delivery_available").value == "true")
    ensures Get(params, "delivery_available").None? && Get(params, "delivery").Some? ==>
              r.deliveryAvailable == Some(Get(params, "delivery").value == "true")
    ensures Get(params, "delivery_available").None? && Get(params, "delivery").None? ==>
              r.deliveryAvailable == fallback.deliveryAvailable
    ensures Get(params, "min_price").Some? && ToNumber(Get(params, "min_price"), parse).None? ==>
              r.minPrice == fallback.minPrice
    ensures r.minPrice == NumberParam(params, "min_price", "minPrice", parse, fallback.minPrice)
    ensures r.maxPrice == NumberParam(params, "max_price", "maxPrice", parse, fallback.maxPrice)
    ensures r.categoryId == NumberParam(params, "category_id", "categoryId", parse, fallback.categoryId)
    ensures r.sizes == Some(ToList(Get(params, "sizes"), if fallback.sizes.Some? then fallback.sizes.value else []))
    ensures r.colors == Some(ToList(Get(params, "colors"), if fallback.colors.Some? then fallback.colors.value else []))
  {
    var queryParam := OrElse(OrElse(Get(params, "query"), Get(params, "q")), Some(fallback.query));
    var minPrice := NumberParam(params, "min_price", "minPrice", parse, fallback.minPrice);
    var maxPrice := NumberParam(params, "max_price", "maxPrice", parse, fallback.maxPrice);
    var categoryId := NumberParam(params, "category_id", "categoryId", parse, fallback.categoryId);
    var city := OrElse(Get(params, "city"), fallback.city);
    var sizes := ToList(Get(params, "sizes"), if fallback.sizes.Some? then fallback.sizes.value else []);
    var colors := ToList(Get(params, "colors"), if fallback.colors.Some? then fallback.colors.value else []);
    var deliveryParam := OrElse(Get(params, "delivery_available"), Get(params, "delivery"));
    var deliveryAvailable :=
      if deliveryParam.None? then fallback.deliveryAvailable else Some(deliveryParam.value == "true");
    Filters(queryParam.value, None, city, minPrice, maxPrice, categoryId, Some(sizes), Some(colors), deliveryAvailable)
  }

  lemma GetAppend(a: seq<Entry>, b: seq<Entry>, key: string)
    ensures Get(a + b, key) == if Get(a, key).Some? then Get(a, key) else Get(b, key)
  {
    if |a| == 0 {
      assert a + b == b;
    } else {
      GetAppend(a[1..], b, key);
      assert (a + b)[1..] == a[1..] + b;
    }
  }

  /** `String(n)` read back by `Number(...)`. */
  predicate ShowParses(show: real -> string, parse: string -> JsNumber, x: real) {
    show(x) != "" && parse(show(x)) == Finite(x)
  }

  /** The value a key has among the entries `buildResultsUrl` writes. */
  function ResultValue(f: Filters, show: real -> string, key: string): Option<string> {
    if key == "query" then QueryValue(f)
    else if key == "city" then CityValue(f)
    else if key == "min_price" then MapOpt(f.minPrice, show)
    else if key == "max_price" then MapOpt(f.maxPrice, show)
    else if key == "category_id" then MapOpt(f.categoryId, show)
    else if key == "sizes" then ListValue(f.sizes)
    else if key == "colors" then ListValue(f.colors)
    else if key == "delivery_available" then MapOpt(f.deliveryAvailable, BoolText)
    else None
  }

  /** Each key is written at most once, so reading it back gives what was written. */
  lemma GetResultEntries(f: Filters, show: real -> string, key: string)
    ensures Get(ResultEntries(f, show), key) == ResultValue(f, show, key)
  {
    var e1 := OptEntry("query", QueryValue(f));
    var e2 := OptEntry("city", CityValue(f));
    var e3 := OptEntry("min_price", MapOpt(f.minPrice, show));
    var e4 := OptEntry("max_price", MapOpt(f.maxPrice, show));
    var e5 := OptEntry("category_id", MapOpt(f.categoryId, show));
    var e6 := OptEntry("sizes", ListValue(f.sizes));
    var e7 := OptEntry("colors", ListValue(f.colors));
    var e8 := OptEntry("delivery_available", MapOpt(f.deliveryAvailable, BoolText));
    var s2 := e1 + e2;
    var s3 := s2 + e3;
    var s4 := s3 + e4;
    var s5 := s4 + e5;
    var s6 := s5 + e6;
    var s7 := s6 + e7;
    GetSnoc(e1, "city", CityValue(f), key);
    GetSnoc(s2, "min_price", MapOpt(f.minPrice, show), key);
    GetSnoc(s3, "max_price", MapOpt(f.maxPrice, show), key);
    GetSnoc(s4, "category_id", MapOpt(f.categoryId, show), key);
    GetSnoc(s5, "sizes", ListValue(f.sizes), key);
    GetSnoc(s6, "colors", ListValue(f.colors), key);
    GetSnoc(s7, "delivery_available", MapOpt(f.deliveryAvailable, BoolText), key);
  }

  lemma GetSnoc(es: seq<Entry>, k: string, v: Option<string>, key: string)
    ensures Get(es + OptEntry(k, v), key) == if Get(es, key).Some? then Get(es, key) else if key == k then v else None
  {
    GetAppend(es, OptEntry(k, v), key);
  }

  /** The query and city read back from the results URL's parameters. */
  lemma RoundTripTexts(f: Filters, fallback: Filters, show: real -> string, parse: string -> JsNumber)
    requires IsTrimmed(f.query)
    ensures var r := FiltersFromParams(ResultEntries(f, show), fallback, parse);
      && r.query == (if f.query != "" then f.query else fallback.query)
      && r.city == (if TruthyStr(f.city) then f.city else fallback.city)
  {
    GetResultEntries(f, show, "query");
    GetResultEntries(f, show, "q");
    GetResultEntries(f, show, "city");
    TrimOfTrimmed(f.query);
  }

  /** The numbers read back from the results URL's parameters. */
  lemma RoundTripNumbers(f: Filters, fallback: Filters, show: real -> string, parse: string -> JsNumber)
    requires f.minPrice.Some? ==> ShowParses(show, parse, f.minPrice.value)
    requires f.maxPrice.Some? ==> ShowParses(show, parse, f.maxPrice.value)
    requires f.categoryId.Some? ==> ShowParses(show, parse, f.categoryId.value)
    ensures var r := FiltersFromParams(ResultEntries(f, show), fallback, parse);
      && r.minPrice == OrElse(f.minPrice, fallback.minPrice)
      && r.maxPrice == OrElse(f.maxPrice, fallback.maxPrice)
      && r.categoryId == OrElse(f.categoryId, fallback.categoryId)
  {
    GetResultEntries(f, show, "min_price");
    GetResultEntries(f, show, "minPrice");
    GetResultEntries(f, show, "max_price");
    GetResultEntries(f, show, "maxPrice");
    GetResultEntries(f, show, "category_id");
    GetResultEntries(f, show, "categoryId");
  }

  /** The size and colour lists and the delivery flag read back from the results
      URL's parameters. */
  lemma RoundTripListsAndFlag(f: Filters, fallback: Filters, show: real -> string, parse: string -> JsNumber)
    requires f.sizes.Some? ==> ListSafe(f.sizes.value)
    requires f.colors.Some? ==> ListSafe(f.colors.value)
    ensures var r := FiltersFromParams(ResultEntries(f, show), fallback, parse);
      && (f.sizes.Some? && f.sizes.value != [] ==> r.sizes == f.sizes)
      && (f.colors.Some? && f.colors.value != [] ==> r.colors == f.colors)
      && r.deliveryAvailable == OrElse(f.deliveryAvailable, fallback.deliveryAvailable)
  {
    GetResultEntries(f, show, "sizes");
    GetResultEntries(f, show, "colors");
    GetResultEntries(f, show, "delivery_available");
    GetResultEntries(f, show, "delivery");
    if f.sizes.Some? && f.sizes.value != [] {
      ToListOfJoin(f.sizes.value, if fallback.sizes.Some? then fallback.sizes.value else []);
    }
    if f.colors.Some? && f.colors.value != [] {
      ToListOfJoin(f.colors.value, if fallback.colors.Some? then fallback.colors.value else []);
    }
  }

  // ---------------------------------------------------------------- toApiFilterParams

  datatype ApiFilterParams = ApiFilterParams(
    query: Option<string>,
    city: Option<string>,
    minPrice: Option<real>,
    maxPrice: Option<real>,
    categoryId: Option<real>,
    sizes: Option<seq<string>>,
    colors: Option<seq<string>>,
    deliveryAvailable: Option<bool>)

  function NonBlankTrim(s: Option<string>): Option<string> {
    if s.Some? && Trim(s.value) != "" then Some(Trim(s.value)) else None
  }

  function NonEmptyList(xs: Option<seq<string>>): Option<seq<string>> {
    if xs.Some? && |xs.value| > 0 then xs else None
  }

  /** `toApiFilterParams`: blank texts and empty lists become undefined, texts are
      trimmed, and numbers and the flag pass through. */
  function ToApiFilterParams(f: Filters): (r: ApiFilterParams)
    ensures r.query.None? <==> Trim(f.query) == ""
    ensures r.query.Some? ==> r.query.value == Trim(f.query) && IsTrimmed(r.query.value) && r.query.value != ""
    ensures r.city.None? <==> f.city.None? || Trim(f.city.value) == ""
    ensures r.city.Some? ==> r.city.value == Trim(f.city.value) && IsTrimmed(r.city.value) && r.city.value != ""
    ensures r.sizes.None? <==> f.sizes.None? || f.sizes.value == []
    ensures r.sizes.Some? ==> r.sizes == f.sizes
    ensures r.colors.None? <==> f.colors.None? || f.colors.value == []
    ensures r.colors.Some? ==> r.colors == f.colors
    ensures r.minPrice == f.minPrice && r.maxPrice == f.maxPrice && r.categoryId == f.categoryId
    ensures r.deliveryAvailable == f.deliveryAvailable
  {
    ApiFilterParams(NonBlankTrim(Some(f.query)), NonBlankTrim(f.city), f.minPrice, f.maxPrice, f.categoryId,
                    NonEmptyList(f.sizes), NonEmptyList(f.colors), f.deliveryAvailable)
  }

  /** The API parameters are unaffected by surrounding white space already trimmed away. */
  lemma ApiParamsOfTrimmedQuery(f: Filters)
    ensures ToApiFilterParams(f.(query := Trim(f.query))) == ToApiFilterParams(f)
  {
    TrimIdempotent(f.query);
  }
}
