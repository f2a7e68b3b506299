/** The ad controller: input checks of `createAd` and `listAds` in the order
    they run, the values handed to the ad service, and the mapping of service
    errors to responses. `Number(...)` on a string and the service are
    parameters. */
module AdController {
  import opened Js
  import AdModel

  datatype CreateBody = CreateBody(title: JsValue, categoryId: JsValue, sizeId: JsValue, price: JsValue)

  /** What the service receives. */
  datatype AdInput = AdInput(title: string, categoryId: int, sizeId: int, price: JsNumber)

  /** The service's answer: the inserted ad's id, the size-category mismatch it
      throws, or any other failure. */
  datatype CreateResult = Inserted(id: nat) | SizeCategoryMismatch | CreateFailed

  datatype Response = Reply(code: int, message: string) | CreatedAd(id: nat) | AdList(ids: seq<nat>)

  const Required := "Champs requis: title, category_id, size_id, price"
  const BadCategory := "category_id invalide"
  const BadSize := "size_id invalide"
  const BadPrice := "price invalide"
  const Mismatch := "Cette taille n'est pas autorisée pour cette catégorie"
  const ServerError := "Erreur serveur"

  /** `Number.isInteger(n) && n > 0`. */
  predicate PositiveInteger(n: JsNumber) {
    IsInteger(n) && n.r > 0.0
  }

  /** `n < 0`. */
  predicate Negative(n: JsNumber) {
    (n.Finite? && n.r < 0.0) || n == Infinity(false)
  }

  predicate MissingField(body: CreateBody) {
    !Truthy(body.title) || !Truthy(body.categoryId) || !Truthy(body.sizeId) || body.price.Undefined?
  }

  /** Every input check of `createAd` passes. */
  predicate CreateChecksPass(body: CreateBody, parse: string -> JsNumber) {
    && !MissingField(body)
    && PositiveInteger(ToNumber(body.categoryId, parse)) && PositiveInteger(ToNumber(body.sizeId, parse))
    && !ToNumber(body.price, parse).NaN? && !Negative(ToNumber(body.price, parse))
  }

  /** The object handed to the service once the checks pass. */
  function ServiceInput(body: CreateBody, parse: string -> JsNumber): AdInput
    requires CreateChecksPass(body, parse) && body.title.Str?
  {
    AdInput(Trim(body.title.s), ToNumber(body.categoryId, parse).r.Floor, ToNumber(body.sizeId, parse).r.Floor,
            ToNumber(body.price, parse))
  }

  /** `createAd`: the presence check, then category, size and price in that order;
      a non-text title cannot be trimmed and ends in the generic error; then the
      service's answer decides. */
  function CreateAd(body: CreateBody, parse: string -> JsNumber, service: AdInput -> CreateResult): (r: Response)
    ensures r == Reply(400, Required) <==> MissingField(body)
    ensures r == Reply(400, BadCategory) <==>
      !MissingField(body) && !PositiveInteger(ToNumber(body.categoryId, parse))
    ensures r == Reply(400, BadSize) <==>
      && !MissingField(body) && PositiveInteger(ToNumber(body.categoryId, parse))
      && !PositiveInteger(ToNumber(body.sizeId, parse))
    ensures r == Reply(400, BadPrice) <==>
      && !MissingField(body) && PositiveInteger(ToNumber(body.categoryId, parse))
      && PositiveInteger(ToNumber(body.sizeId, parse))
      && (ToNumber(body.price, parse).NaN? || Negative(ToNumber(body.price, parse)))
    ensures r.CreatedAd? || r == Reply(400, Mismatch) ==>
      && body.title.Str?
      && var c := ToNumber(body.categoryId, parse);
      && var s := ToNumber(body.sizeId, parse);
      && var p := ToNumber(body.price, parse);
      && PositiveInteger(c) && PositiveInteger(s) && !p.NaN? && !Negative(p)
      && var input := AdInput(Trim(body.title.s), c.r.Floor, s.r.Floor, p);
      && input.categoryId > 0 && input.sizeId > 0
      && (r.CreatedAd? ==> service(input) == Inserted(r.id))
      && (r == Reply(400, Mismatch) ==> service(input) == SizeCategoryMismatch)
    ensures CreateChecksPass(body, parse) && body.title.Str? ==>
      && (service(ServiceInput(body, parse)).Inserted? ==> r == CreatedAd(service(ServiceInput(body, parse)).id))
      && (service(ServiceInput(body, parse)) == SizeCategoryMismatch ==> r == Reply(400, Mismatch))
    ensures r == Reply(500, ServerError) <==>
      CreateChecksPass(body, parse) && (!body.title.Str? || service(ServiceInput(body, parse)) == CreateFailed)
  {
    if MissingField(body) then Reply(400, Required)
    else
      var c := ToNumber(body.categoryId, parse);
      var s := ToNumber(body.sizeId, parse);
      var p := ToNumber(body.price, parse);
      if !PositiveInteger(c) then Reply(400, BadCategory)
      else if !PositiveInteger(s) then Reply(400, BadSize)
      else if p.NaN? || Negative(p) then Reply(400, BadPrice)
      else if !body.title.Str? then Reply(500, ServerError)
      else
        match service(AdInput(Trim(body.title.s), c.r.Floor, s.r.Floor, p))
        case Inserted(id) => CreatedAd(id)
        case SizeCategoryMismatch => Reply(400, Mismatch)
        case CreateFailed => Reply(500, ServerError)
  }

  /** A price of 0, and a null price (which `Number` turns into 0), pass the
      checks: only an undefined price is missing. */
  lemma ZeroOrNullPriceAccepted(title: string, c: int, s: int, price: JsValue, parse: string -> JsNumber,
                                service: AdInput -> CreateResult)
    requires title != "" && c > 0 && s > 0
    requires price == Num(Finite(0.0)) || price == Null
    ensures var body := CreateBody(Str(title), Num(Finite(c as real)), Num(Finite(s as real)), price);
      && CreateAd(body, parse, service) != Reply(400, Required)
      && CreateAd(body, parse, service) != Reply(400, BadPrice)
      && (service(AdInput(Trim(title), c, s, Finite(0.0))).Inserted? ==>
            CreateAd(body, parse, service) == CreatedAd(service(AdInput(Trim(title), c, s, Finite(0.0))).id))
  {
    assert (c as real).Floor == c && (s as real).Floor == s;
  }

  // ---------------------------------------------------------------- listAds

  /** The `category_id` and `size_id` query strings. */
  datatype ListQuery = ListQuery(categoryId: Option<string>, sizeId: Option<string>)

  datatype ListResult = Listed(ids: seq<nat>) | ListFailed

  /** `x ? Number(x) : null`. */
  function ParsedOrNull(v: Option<string>, parse: string -> JsNumber): Option<JsNumber> {
    if TruthyStr(v) then Some(parse(v.value)) else None
  }

  /** A parsed filter as the integer passed on, null when absent. */
  function FilterValue(v: Option<JsNumber>): Option<int> {
    if v.Some? && IsInteger(v.value) then Some(v.value.r.Floor) else None
  }

  /** Neither supplied filter is rejected. */
  predicate ListChecksPass(query: ListQuery, parse: string -> JsNumber) {
    && !(TruthyStr(query.categoryId) && !PositiveInteger(parse(query.categoryId.value)))
    && !(TruthyStr(query.sizeId) && !PositiveInteger(parse(query.sizeId.value)))
  }

  /** `listAds`: an absent filter is null; a present one must be a positive
      integer (category checked first); the service lists with the two values. */
  function ListAds(query: ListQuery, parse: string -> JsNumber, list: (Option<int>, Option<int>) -> ListResult): (r: Response)
    ensures r == Reply(400, BadCategory) <==>
      TruthyStr(query.categoryId) && !PositiveInteger(parse(query.categoryId.value))
    ensures r == Reply(400, BadSize) <==>
      && !(TruthyStr(query.categoryId) && !PositiveInteger(parse(query.categoryId.value)))
      && TruthyStr(query.sizeId) && !PositiveInteger(parse(query.sizeId.value))
    ensures r.AdList? ==>
      && var c := FilterValue(ParsedOrNull(query.categoryId, parse));
      && var s := FilterValue(ParsedOrNull(query.sizeId, parse));
      && (c.Some? <==> TruthyStr(query.categoryId)) && (c.Some? ==> c.value > 0)
      && (s.Some? <==> TruthyStr(query.sizeId)) && (s.Some? ==> s.value > 0)
      && list(c, s) == Listed(r.ids)
    ensures r.Reply? && r.code == 500 ==> r.message == ServerError
    ensures ListChecksPass(query, parse) ==>
      var listed := list(FilterValue(ParsedOrNull(query.categoryId, parse)), FilterValue(ParsedOrNull(query.sizeId, parse)));
      listed.Listed? ==> r == AdList(listed.ids)
    ensures r == Reply(500, ServerError) <==>
      ListChecksPass(query, parse)
      && list(FilterValue(ParsedOrNull(query.categoryId, parse)), FilterValue(ParsedOrNull(query.sizeId, parse))).ListFailed?
  {
    var c := ParsedOrNull(query.categoryId, parse);
    var s := ParsedOrNull(query.sizeId, parse);
    if TruthyStr(query.categoryId) && !PositiveInteger(c.value) then Reply(400, BadCategory)
    else if TruthyStr(query.sizeId) && !PositiveInteger(s.value) then Reply(400, BadSize)
    else
      match list(FilterValue(c), FilterValue(s))
      case Listed(ids) => AdList(ids)
      case ListFailed => Reply(500, ServerError)
  }

  /** The filters that pass `listAds` reach `findAds` as one condition each: a
      supplied category or size adds its condition, an absent one adds none. */
  lemma ListedFiltersBecomeConditions(query: ListQuery, parse: string -> JsNumber,
                                      list: (Option<int>, Option<int>) -> ListResult)
    requires ListAds(query, parse, list).AdList?
    ensures var fs := AdModel.AdFilters(FilterValue(ParsedOrNull(query.categoryId, parse)),
                                         FilterValue(ParsedOrNull(query.sizeId, parse)));
      && |fs| == (if TruthyStr(query.categoryId) then 1 else 0) + (if TruthyStr(query.sizeId) then 1 else 0)
      && (TruthyStr(query.categoryId) ==> fs[0].column == AdModel.CategoryColumn)
      && (TruthyStr(query.sizeId) ==> fs[|fs| - 1].column == AdModel.SizeColumn)
  {
  }
}
