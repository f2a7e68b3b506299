/** The web client's API layer: image URL resolution, the `??` default chains
    that normalise users, listings and orders from either naming convention,
    and the session state (token and current user) with the request headers
    built from it. The base URL, the clock and every HTTP response are
    parameters. A field that is absent, `undefined` or `null` is `None`. */
module ApiClient {
  import opened Js
  import AuthMiddleware

  // ---------------------------------------------------------------- resolveImageUrl

  predicate StartsWith(s: string, prefix: string) {
    |prefix| <= |s| && s[..|prefix|] == prefix
  }

  predicate Absolute(url: string) {
    StartsWith(url, "http://") || StartsWith(url, "https://")
  }

  /** `resolveImageUrl`: no URL for a missing or empty one; absolute URLs as they
      are; any other path under the base URL, with exactly one "/" added when the
      path does not start with one. */
  function ResolveImageUrl(baseUrl: string, url: Option<string>): (r: Option<string>)
    ensures r.None? <==> !TruthyStr(url)
    ensures r.Some? && Absolute(url.value) ==> r.value == url.value
    ensures r.Some? && !Absolute(url.value) ==>
      && r.value == baseUrl + (if StartsWith(url.value, "/") then url.value else "/" + url.value)
      && r.value[|baseUrl|] == '/'
    ensures r.Some? ==> r.value != ""
  {
    if !TruthyStr(url) then None
    else if Absolute(url.value) then url
    else
      var normalized := if StartsWith(url.value, "/") then url.value else "/" + url.value;
      Some(baseUrl + normalized)
  }

  /** With an absolute base URL, resolving a resolved URL changes nothing. */
  lemma ResolveIdempotent(baseUrl: string, url: Option<string>)
    requires Absolute(baseUrl)
    ensures ResolveImageUrl(baseUrl, ResolveImageUrl(baseUrl, url)) == ResolveImageUrl(baseUrl, url)
  {
    var r := ResolveImageUrl(baseUrl, url);
    if r.Some? && !Absolute(url.value) {
      if StartsWith(baseUrl, "http://") {
        assert r.value[..7] == baseUrl[..7];
      } else {
        assert r.value[..8] == baseUrl[..8];
      }
    }
  }

  // ---------------------------------------------------------------- normalizeUser

  /** A user payload as the server may send it. */
  datatype UserLike = UserLike(
    id: Option<int>, name: Option<string>, email: Option<string>, role: Option<string>,
    phone: Option<string>, avatarUrl: Option<string>, avatar_url: Option<string>, address: Option<string>)

  datatype User = User(
    id: int, name: string, email: string, role: string,
    phone: Option<string>, avatarUrl: Option<string>, address: Option<string>)

  /** `normalizeUser`: id 0, empty name and email and role "client" by default;
      the camel-case avatar before the snake-case one, resolved. */
  function NormalizeUser(baseUrl: string, u: UserLike): (r: User)
    ensures ValueOr(u.id, 0, r.id) && ValueOr(u.name, "", r.name) && ValueOr(u.email, "", r.email)
    ensures ValueOr(u.role, "client", r.role)
    ensures u.avatarUrl.Some? ==> r.avatarUrl == ResolveImageUrl(baseUrl, u.avatarUrl)
    ensures u.avatarUrl.None? ==> r.avatarUrl == ResolveImageUrl(baseUrl, u.avatar_url)
    ensures r.avatarUrl.Some? ==> r.avatarUrl.value != ""
    ensures r.phone == u.phone && r.address == u.address
  {
    User(OrDefault(u.id, 0), OrDefault(u.name, ""), OrDefault(u.email, ""), OrDefault(u.role, "client"),
         u.phone, ResolveImageUrl(baseUrl, OrElse(u.avatarUrl, u.avatar_url)), u.address)
  }

  /** A normalised user, sent back as a payload. */
  function AsUserLike(u: User): UserLike {
    UserLike(Some(u.id), Some(u.name), Some(u.email), Some(u.role), u.phone, u.avatarUrl, None, u.address)
  }

  /** Normalising a normalised user gives it back (with an absolute base URL). */
  lemma NormalizeUserIdempotent(baseUrl: string, u: UserLike)
    requires Absolute(baseUrl)
    ensures NormalizeUser(baseUrl, AsUserLike(NormalizeUser(baseUrl, u))) == NormalizeUser(baseUrl, u)
  {
    ResolveIdempotent(baseUrl, OrElse(u.avatarUrl, u.avatar_url));
  }

  // ---------------------------------------------------------------- listings

  /** An entry of `images`: a URL, an object with an optional `url`, or null. */
  datatype ImageItem = ImageText(s: string) | ImageObject(url: Option<string>) | NoImage

  datatype ListingLike = ListingLike(
    id: Option<int>, userId: Option<int>, user_id: Option<int>,
    title: Option<string>, price: Option<real>, sizes: Option<seq<string>>, colors: Option<seq<string>>,
    deliveryAvailable: Option<bool>, delivery_available: Option<bool>,
    categoryName: Option<string>, category_name: Option<string>,
    sellerName: Option<string>, seller_name: Option<string>,
    stock: Option<int>, status: Option<string>, isDeleted: Option<bool>, is_deleted: Option<bool>,
    imageUrl: Option<string>, image: Option<string>, mainImage: Option<string>, thumbnailUrl: Option<string>,
    imageUrls: Option<seq<string>>, image_urls: Option<seq<string>>, images: Option<seq<ImageItem>>)

  datatype Listing = Listing(
    userId: int, title: string, price: real, sizes: seq<string>, colors: seq<string>,
    deliveryAvailable: bool, categoryName: Option<string>, sellerName: Option<string>,
    stock: int, status: Option<string>, isDeleted: bool, imageUrl: string, imageUrls: seq<string>)

  /** `typeof img === "string" ? img : img?.url ?? null`. */
  function ItemUrl(img: ImageItem): Option<string> {
    match img
    case ImageText(s) => Some(s)
    case ImageObject(url) => url
    case NoImage => None
  }

  /** `.filter(Boolean)` over possibly-null strings. */
  function Present(xs: seq<Option<string>>): (r: seq<string>)
    ensures forall i :: 0 <= i < |r| ==> r[i] != "" && Some(r[i]) in xs
  {
    if |xs| == 0 then []
    else (if TruthyStr(xs[0]) then [xs[0].value] else []) + Present(xs[1..])
  }

  function ItemUrls(images: seq<ImageItem>): (r: seq<Option<string>>)
    ensures |r| == |images| && forall i :: 0 <= i < |images| ==> r[i] == ItemUrl(images[i])
  {
    seq(|images|, i requires 0 <= i < |images| => ItemUrl(images[i]))
  }

  predicate NonEmptyArray<T>(xs: Option<seq<T>>) {
    xs.Some? && |xs.value| > 0
  }

  /** `extractImageUrls`: the first non-empty source among `imageUrls`,
      `image_urls` and `images`, the last one reduced to its non-empty URLs. */
  function ExtractImageUrls(l: ListingLike): (r: seq<string>)
    ensures NonEmptyArray(l.imageUrls) ==> r == l.imageUrls.value
    ensures !NonEmptyArray(l.imageUrls) && NonEmptyArray(l.image_urls) ==> r == l.image_urls.value
    ensures !NonEmptyArray(l.imageUrls) && !NonEmptyArray(l.image_urls) ==>
      && (forall i :: 0 <= i < |r| ==> r[i] != "")
      && (!NonEmptyArray(l.images) ==> r == [])
      && (NonEmptyArray(l.images) ==> forall u :: u in r <==> u != "" && exists i :: 0 <= i < |l.images.value| && ItemUrl(l.images.value[i]) == Some(u))
  {
    if NonEmptyArray(l.imageUrls) then l.imageUrls.value
    else if NonEmptyArray(l.image_urls) then l.image_urls.value
    else if NonEmptyArray(l.images) then
      var r := Present(ItemUrls(l.images.value));
      PresentExactly(ItemUrls(l.images.value));
      r
    else []
  }

  lemma {:induction false} PresentExactly(xs: seq<Option<string>>)
    ensures forall u :: u in Present(xs) <==> u != "" && Some(u) in xs
  {
    if |xs| > 0 {
      PresentExactly(xs[1..]);
      assert xs == [xs[0]] + xs[1..];
    }
  }

  /** `images[0]` as a string or its `url`, when `images` is a non-empty array. */
  function ImagesHead(l: ListingLike): Option<string> {
    if NonEmptyArray(l.images) then ItemUrl(l.images.value[0]) else None
  }

  /** `xs?.length ? xs[0] : null`. */
  function FirstUrl(xs: Option<seq<string>>): Option<string> {
    if NonEmptyArray(xs) then Some(xs.value[0]) else None
  }

  /** None of the four single-image fields is given. */
  predicate NoDirectImage(l: ListingLike) {
    l.imageUrl.None? && l.image.None? && l.mainImage.None? && l.thumbnailUrl.None?
  }

  /** `extractListingImage`: the first candidate that is not nullish, resolved.
      An empty candidate is not nullish: it stops the chain and resolves to none. */
  function ListingImageCandidate(l: ListingLike): Option<string> {
    OrElse(l.imageUrl, OrElse(l.image, OrElse(l.mainImage, OrElse(l.thumbnailUrl,
      OrElse(ImagesHead(l), OrElse(FirstUrl(l.imageUrls), FirstUrl(l.image_urls)))))))
  }

  function ExtractListingImage(baseUrl: string, l: ListingLike): (r: Option<string>)
    ensures l.imageUrl.Some? ==> r == ResolveImageUrl(baseUrl, l.imageUrl)
    ensures l.imageUrl.None? && l.image.Some? ==> r == ResolveImageUrl(baseUrl, l.image)
    ensures l.imageUrl.None? && l.image.None? && l.mainImage.Some? ==> r == ResolveImageUrl(baseUrl, l.mainImage)
    ensures l.imageUrl.None? && l.image.None? && l.mainImage.None? && l.thumbnailUrl.Some? ==>
      r == ResolveImageUrl(baseUrl, l.thumbnailUrl)
    ensures NoDirectImage(l) && ImagesHead(l).Some? ==> r == ResolveImageUrl(baseUrl, ImagesHead(l))
    ensures NoDirectImage(l) && ImagesHead(l).None? && FirstUrl(l.imageUrls).Some? ==>
      r == ResolveImageUrl(baseUrl, FirstUrl(l.imageUrls))
    ensures NoDirectImage(l) && ImagesHead(l).None? && FirstUrl(l.imageUrls).None? && FirstUrl(l.image_urls).Some? ==>
      r == ResolveImageUrl(baseUrl, FirstUrl(l.image_urls))
    ensures NoDirectImage(l) && ImagesHead(l).None? && FirstUrl(l.imageUrls).None? && FirstUrl(l.image_urls).None? ==>
      r.None?
    ensures r.Some? ==> r.value != ""
  {
    ResolveImageUrl(baseUrl, ListingImageCandidate(l))
  }

  /** The seven candidates of `extractListingImage`, in the order it tries them. */
  function ImageCandidates(l: ListingLike): seq<Option<string>> {
    [l.imageUrl, l.image, l.mainImage, l.thumbnailUrl, ImagesHead(l), FirstUrl(l.imageUrls), FirstUrl(l.image_urls)]
  }

  /** The first candidate that is not nullish, scanning left to right. */
  function FirstNonNull(xs: seq<Option<string>>): (r: Option<string>)
    ensures r.Some? ==> r in xs
    ensures r.None? <==> forall i :: 0 <= i < |xs| ==> xs[i].None?
  {
    if |xs| == 0 then None else if xs[0].Some? then xs[0] else FirstNonNull(xs[1..])
  }

  /** The `??` chain is the left-to-right scan of the candidate list. */
  lemma ExtractIsFirstNonNull(baseUrl: string, l: ListingLike)
    ensures ExtractListingImage(baseUrl, l) == ResolveImageUrl(baseUrl, FirstNonNull(ImageCandidates(l)))
  {
    var cs := ImageCandidates(l);
    var c1, c2, c3, c4, c5, c6 := cs[1..], cs[2..], cs[3..], cs[4..], cs[5..], cs[6..];
    assert c6 == [FirstUrl(l.image_urls)] && c6[1..] == [];
    assert FirstNonNull(c6) == FirstUrl(l.image_urls);
    assert c5[1..] == c6 && c4[1..] == c5 && c3[1..] == c4 && c2[1..] == c3 && c1[1..] == c2 && cs[1..] == c1;
    assert FirstNonNull(c5) == OrElse(FirstUrl(l.imageUrls), FirstNonNull(c6));
    assert FirstNonNull(c4) == OrElse(ImagesHead(l), FirstNonNull(c5));
    assert FirstNonNull(c3) == OrElse(l.thumbnailUrl, FirstNonNull(c4));
    assert FirstNonNull(c2) == OrElse(l.mainImage, FirstNonNull(c3));
    assert FirstNonNull(c1) == OrElse(l.image, FirstNonNull(c2));
    assert FirstNonNull(cs) == OrElse(l.imageUrl, FirstNonNull(c1));
  }

  /** An empty `imageUrl` blocks every later candidate: there is no primary image,
      whatever the other fields hold. */
  lemma EmptyImageUrlBlocks(baseUrl: string, l: ListingLike)
    requires l.imageUrl == Some("")
    ensures ExtractListingImage(baseUrl, l).None?
  {
  }

  function ResolveAll(baseUrl: string, xs: seq<string>): (r: seq<Option<string>>)
    ensures |r| == |xs| && forall i :: 0 <= i < |xs| ==> r[i] == ResolveImageUrl(baseUrl, Some(xs[i]))
  {
    seq(|xs|, i requires 0 <= i < |xs| => ResolveImageUrl(baseUrl, Some(xs[i])))
  }

  /** The distinct image URLs: the primary one first, then the resolved list. */
  function ListingImageUrls(baseUrl: string, l: ListingLike): seq<string> {
    var primary := ExtractListingImage(baseUrl, l);
    var resolved := Present(ResolveAll(baseUrl, ExtractImageUrls(l)));
    var candidates := if primary.Some? then [primary.value] + resolved else resolved;
    Dedup(Present(seq(|candidates|, i requires 0 <= i < |candidates| => Some(candidates[i]))))
  }

  lemma DedupKeepsHead<T(!new)>(xs: seq<T>)
    requires |xs| > 0
    ensures |Dedup(xs)| > 0 && Dedup(xs)[0] == xs[0]
  {
    assert xs[0] !in [];
  }

  /** The image list read back: no duplicates and no empty URL, the primary
      image first when there is one, and `imageUrl` the first of them (or ""). */
  lemma ListingImagesWellFormed(baseUrl: string, l: ListingLike)
    ensures var urls := ListingImageUrls(baseUrl, l);
      var primary := ExtractListingImage(baseUrl, l);
      && NoDuplicates(urls)
      && (forall i :: 0 <= i < |urls| ==> urls[i] != "")
      && (primary.Some? ==> |urls| > 0 && urls[0] == primary.value)
  {
    var primary := ExtractListingImage(baseUrl, l);
    var resolved := Present(ResolveAll(baseUrl, ExtractImageUrls(l)));
    var candidates := if primary.Some? then [primary.value] + resolved else resolved;
    var opts := seq(|candidates|, i requires 0 <= i < |candidates| => Some(candidates[i]));
    var kept := Present(opts);
    var urls := Dedup(kept);
    assert urls == ListingImageUrls(baseUrl, l);
    forall i | 0 <= i < |urls| ensures urls[i] != "" {
      assert urls[i] in kept;
    }
    if primary.Some? {
      assert opts[0] == Some(primary.value);
      assert kept == [primary.value] + Present(opts[1..]);
      DedupKeepsHead(kept);
    }
  }

  /** `normalizeListing`. */
  function NormalizeListing(baseUrl: string, l: ListingLike): (r: Listing)
    ensures r.imageUrls == ListingImageUrls(baseUrl, l)
    ensures r.imageUrl == "" <==> r.imageUrls == []
    ensures r.imageUrls != [] ==> r.imageUrl == r.imageUrls[0]
    ensures r.isDeleted == (if l.isDeleted.Some? then l.isDeleted.value
                            else if l.is_deleted.Some? then l.is_deleted.value
                            else l.status == Some("deleted"))
    ensures r.userId == (if l.userId.Some? then l.userId.value else if l.user_id.Some? then l.user_id.value
                         else if l.id.Some? then l.id.value else 0)
    ensures r.deliveryAvailable == (if l.deliveryAvailable.Some? then l.deliveryAvailable.value
                                    else l.delivery_available == Some(true))
    ensures ValueOr(l.title, "", r.title) && ValueOr(l.price, 0.0, r.price) && ValueOr(l.stock, 0, r.stock)
    ensures ValueOr(l.sizes, [], r.sizes) && ValueOr(l.colors, [], r.colors)
    ensures r.status == l.status
    ensures TwinOrNull(l.categoryName, l.category_name, r.categoryName)
    ensures TwinOrNull(l.sellerName, l.seller_name, r.sellerName)
  {
    var primary := ExtractListingImage(baseUrl, l);
    var imageUrls := ListingImageUrls(baseUrl, l);
    ListingImagesWellFormed(baseUrl, l);
    var imageUrl := if primary.Some? then primary.value else if |imageUrls| > 0 then imageUrls[0] else "";
    var deleted := OrElse(l.isDeleted, OrElse(l.is_deleted, Some(TruthyStr(l.status) && l.status.value == "deleted")));
    Listing(OrDefault(OrElse(l.userId, OrElse(l.user_id, l.id)), 0), OrDefault(l.title, ""), OrDefault(l.price, 0.0),
            OrDefault(l.sizes, []), OrDefault(l.colors, []),
            OrDefault(OrElse(l.deliveryAvailable, l.delivery_available), false),
            OrElse(l.categoryName, l.category_name), OrElse(l.sellerName, l.seller_name),
            OrDefault(l.stock, 0), l.status, deleted.value, imageUrl, imageUrls)
  }

  // ---------------------------------------------------------------- normalizeOrder

  datatype OrderLike = OrderLike(
    id: Option<int>, listingId: Option<int>, listing_id: Option<int>,
    listingTitle: Option<string>, listing_title: Option<string>, quantity: Option<int>,
    totalAmount: Option<real>, total_amount: Option<real>, status: Option<string>,
    receptionMode: Option<string>, reception_mode: Option<string>,
    createdAt: Option<string>, created_at: Option<string>,
    sellerId: Option<int>, seller_id: Option<int>, clientId: Option<int>, client_id: Option<int>,
    color: Option<string>, size: Option<string>,
    shippingAddress: Option<string>, shipping_address: Option<string>,
    phone: Option<string>, clientNote: Option<string>, client_note: Option<string>)

  datatype Order = Order(
    id: int, listingId: int, listingTitle: string, quantity: int, totalAmount: real,
    status: string, receptionMode: string, createdAt: string,
    sellerId: Option<int>, clientId: Option<int>, color: Option<string>, size: Option<string>,
    shippingAddress: Option<string>, phone: Option<string>, clientNote: Option<string>)

  const DeletedListingTitle := "Annonce supprimée"

  /** `out` is `camel ?? snake ?? d`: the camel-case value when given, else the
      snake-case one, else the default. */
  predicate TwinOr<T(==)>(camel: Option<T>, snake: Option<T>, d: T, out: T) {
    && (camel.Some? ==> out == camel.value)
    && (camel.None? && snake.Some? ==> out == snake.value)
    && (camel.None? && snake.None? ==> out == d)
  }

  /** `out` is `camel ?? snake ?? null`. */
  predicate TwinOrNull<T(==)>(camel: Option<T>, snake: Option<T>, out: Option<T>) {
    && (camel.Some? ==> out == camel)
    && (camel.None? ==> out == snake)
  }

  /** `out` is `v ?? d`. */
  predicate ValueOr<T(==)>(v: Option<T>, d: T, out: T) {
    && (v.Some? ==> out == v.value)
    && (v.None? ==> out == d)
  }

  /** `normalizeOrder`: each camel-case field before its snake-case twin, then the
      default; `now` is the current time as an ISO string. */
  function NormalizeOrder(o: OrderLike, now: string): (r: Order)
    ensures ValueOr(o.id, 0, r.id)
    ensures TwinOr(o.listingId, o.listing_id, 0, r.listingId)
    ensures TwinOr(o.listingTitle, o.listing_title, DeletedListingTitle, r.listingTitle)
    ensures ValueOr(o.quantity, 0, r.quantity)
    ensures TwinOr(o.totalAmount, o.total_amount, 0.0, r.totalAmount)
    ensures ValueOr(o.status, "pending", r.status)
    ensures TwinOr(o.receptionMode, o.reception_mode, "retrait", r.receptionMode)
    ensures TwinOr(o.createdAt, o.created_at, now, r.createdAt)
    ensures TwinOrNull(o.sellerId, o.seller_id, r.sellerId)
    ensures TwinOrNull(o.clientId, o.client_id, r.clientId)
    ensures r.color == o.color && r.size == o.size && r.phone == o.phone
    ensures TwinOrNull(o.shippingAddress, o.shipping_address, r.shippingAddress)
    ensures TwinOrNull(o.clientNote, o.client_note, r.clientNote)
  {
    Order(OrDefault(o.id, 0), OrDefault(OrElse(o.listingId, o.listing_id), 0),
          OrDefault(OrElse(o.listingTitle, o.listing_title), DeletedListingTitle), OrDefault(o.quantity, 0),
          OrDefault(OrElse(o.totalAmount, o.total_amount), 0.0), OrDefault(o.status, "pending"),
          OrDefault(OrElse(o.receptionMode, o.reception_mode), "retrait"),
          OrDefault(OrElse(o.createdAt, o.created_at), now),
          OrElse(o.sellerId, o.seller_id), OrElse(o.clientId, o.client_id), o.color, o.size,
          OrElse(o.shippingAddress, o.shipping_address), o.phone, OrElse(o.clientNote, o.client_note))
  }

  /** An order that carries only snake-case twins normalises like the same
      values given in camel case. */
  lemma SnakeCaseLikeCamelCase(o: OrderLike, now: string)
    requires o.listingId.None? && o.listingTitle.None? && o.totalAmount.None? && o.receptionMode.None?
    requires o.createdAt.None? && o.sellerId.None? && o.clientId.None? && o.shippingAddress.None? && o.clientNote.None?
    ensures NormalizeOrder(o, now) == NormalizeOrder(o.(listingId := o.listing_id, listing_id := None,
      listingTitle := o.listing_title, listing_title := None, totalAmount := o.total_amount, total_amount := None,
      receptionMode := o.reception_mode, reception_mode := None, createdAt := o.created_at, created_at := None,
      sellerId := o.seller_id, seller_id := None, clientId := o.client_id, client_id := None,
      shippingAddress := o.shipping_address, shipping_address := None, clientNote := o.client_note, client_note := None), now)
  {
  }

  /** A normalised order, sent back in camel case. */
  function AsOrderLike(o: Order): OrderLike {
    OrderLike(Some(o.id), Some(o.listingId), None, Some(o.listingTitle), None, Some(o.quantity),
              Some(o.totalAmount), None, Some(o.status), Some(o.receptionMode), None,
              Some(o.createdAt), None, o.sellerId, None, o.clientId, None, o.color, o.size,
              o.shippingAddress, None, o.phone, o.clientNote, None)
  }

  /** Normalising a normalised order gives it back, whatever the clock says. */
  lemma NormalizeOrderIdempotent(o: OrderLike, now: string, later: string)
    ensures NormalizeOrder(AsOrderLike(NormalizeOrder(o, now)), later) == NormalizeOrder(o, now)
  {
  }

  // ---------------------------------------------------------------- session state

  /** A request header. */
  type Header = (string, string)

  /** `setAuth`'s optional user: left out, null, or a payload. */
  datatype UserArg = Omitted | NullUser | GivenUser(u: UserLike)

  /** The answer of the login request: not ok, or the user and token. */
  datatype LoginResponse = LoginRefused | LoginAccepted(user: UserLike, token: string)

  const DeleteFailed := "Suppression impossible"

  /** The module-level `authToken` and `currentUser`. */
  class ApiSession {
    const baseUrl: string
    var authToken: Option<string>
    var currentUser: Option<User>

    constructor (baseUrl: string)
      ensures this.baseUrl == baseUrl && authToken.None? && currentUser.None?
    {
      this.baseUrl := baseUrl;
      authToken := None;
      currentUser := None;
    }

    /** `jsonHeaders(withAuth)`: the JSON content type, and a bearer header only
        when asked for and a non-empty token is held; that header carries the
        token back to the server's guard unchanged. */
    function JsonHeaders(withAuth: bool): (r: seq<Header>)
      reads this
      ensures |r| == 1 || |r| == 2
      ensures r[0] == ("Content-Type", "application/json")
      ensures |r| == 2 <==> withAuth && TruthyStr(authToken)
      ensures |r| == 2 ==>
        && r[1].0 == "Authorization"
        && AuthMiddleware.StartsWith(r[1].1, AuthMiddleware.BearerPrefix)
        && AuthMiddleware.TokenOf(r[1].1) == authToken.value
    {
      if withAuth && TruthyStr(authToken) then
        AuthMiddleware.BearerRoundTrip(authToken.value);
        [("Content-Type", "application/json"), ("Authorization", AuthMiddleware.BearerPrefix + authToken.value)]
      else [("Content-Type", "application/json")]
    }

    /** `setAuth`: the token is replaced; the user only when one is passed. */
    method SetAuth(token: Option<string>, user: UserArg)
      modifies this
      ensures authToken == token
      ensures user.Omitted? ==> currentUser == old(currentUser)
      ensures user.NullUser? ==> currentUser.None?
      ensures user.GivenUser? ==> currentUser == Some(NormalizeUser(baseUrl, user.u))
    {
      authToken := token;
      match user {
        case Omitted =>
        case NullUser => currentUser := None;
        case GivenUser(u) => currentUser := Some(NormalizeUser(baseUrl, u));
      }
    }

    /** `login`: a refused request leaves the session as it was. */
    method Login(response: LoginResponse) returns (ok: bool)
      modifies this
      ensures ok <==> response.LoginAccepted?
      ensures ok ==> authToken == Some(response.token) && currentUser == Some(NormalizeUser(baseUrl, response.user))
      ensures !ok ==> authToken == old(authToken) && currentUser == old(currentUser)
    {
      if response.LoginRefused? {
        return false;
      }
      currentUser := Some(NormalizeUser(baseUrl, response.user));
      authToken := Some(response.token);
      ok := true;
    }

    /** `logout`. */
    method Logout()
      modifies this
      ensures authToken.None? && currentUser.None?
    {
      authToken := None;
      currentUser := None;
    }

    /** `deleteAccount`: a success clears the session; a failure keeps it and
        reports the server's message, or a default one. */
    method DeleteAccount(ok: bool, message: Option<string>) returns (error: Option<string>)
      modifies this
      ensures error.None? <==> ok
      ensures ok ==> authToken.None? && currentUser.None?
      ensures !ok ==> authToken == old(authToken) && currentUser == old(currentUser)
      ensures !ok ==> error == Some(OrDefault(message, DeleteFailed))
    {
      if !ok {
        return Some(OrDefault(message, DeleteFailed));
      }
      authToken := None;
      currentUser := None;
      error := None;
    }
  }
}
