/** The new-listing page of the web client: its category menu (labelled with
    the full path), the size and colour toggles, the ten-image cap on uploads,
    image removal and the checks of the submit handler. The form's state is a
    class; the upload, size fetch and listing creation are parameters. */
module NewListingPage {
  import opened Js
  import opened QuickFilters

  // ---------------------------------------------------------------- flatCategories

  /** `flatCategories` of the page: a child's label extends its parent's label. */
  method FlatCategories(tree: seq<Category>) returns (res: seq<Category>)
    ensures res == Flat(tree, "", FullPath)
  {
    res := Walk(tree, "", FullPath, []);
  }

  function Names(cs: seq<Category>): (r: seq<string>)
    ensures |r| == |cs| && forall i :: 0 <= i < |cs| ==> r[i] == cs[i].name
  {
    seq(|cs|, i requires 0 <= i < |cs| => cs[i].name)
  }

  /** The labels a forest should get below the ancestor names `path`: each node's
      ancestors and itself, joined by the separator. */
  function PathLabels(nodes: seq<Category>, path: seq<string>): seq<string>
    decreases nodes
  {
    if |nodes| == 0 then []
    else
      var here := path + [nodes[0].name];
      [Join(here, Separator)] + PathLabels(nodes[0].children, here) + PathLabels(nodes[1..], path)
  }

  predicate AllNamed(nodes: seq<Category>)
    decreases nodes
  {
    forall i :: 0 <= i < |nodes| ==> nodes[i].name != "" && AllNamed(nodes[i].children)
  }

  lemma NamesAppend(a: seq<Category>, b: seq<Category>)
    ensures Names(a + b) == Names(a) + Names(b)
  {
  }

  lemma LabelIsJoin(path: seq<string>, name: string)
    requires forall i :: 0 <= i < |path| ==> path[i] != ""
    ensures Label(Join(path, Separator), name) == Join(path + [name], Separator)
  {
    if |path| == 0 {
      assert path + [name] == [name];
    } else {
      JoinStartsWithFirst(path, Separator);
      JoinSnoc(path, name, Separator);
    }
  }

  /** With named categories, every entry of the page's menu is labelled with the
      names of all its ancestors and its own, joined by " › ". */
  lemma {:induction false} FullPathLabels(nodes: seq<Category>, path: seq<string>)
    requires AllNamed(nodes)
    requires forall i :: 0 <= i < |path| ==> path[i] != ""
    ensures Names(Flat(nodes, Join(path, Separator), FullPath)) == PathLabels(nodes, path)
    decreases nodes
  {
    if |nodes| > 0 {
      var c := nodes[0];
      var prefix := Join(path, Separator);
      var here := path + [c.name];
      LabelIsJoin(path, c.name);
      var head := [c.(name := Label(prefix, c.name))];
      var sub := SubFlat(c, prefix, FullPath);
      var rest := Flat(nodes[1..], prefix, FullPath);
      assert forall i :: 0 <= i < |here| ==> here[i] != "";
      if |c.children| > 0 {
        assert ChildPrefix(FullPath, prefix, c) == Join(here, Separator);
        FullPathLabels(c.children, here);
      } else {
        assert PathLabels(c.children, here) == [];
      }
      assert AllNamed(nodes[1..]) by {
        forall i | 0 <= i < |nodes[1..]| ensures nodes[1..][i].name != "" && AllNamed(nodes[1..][i].children) {
          assert nodes[1..][i] == nodes[i + 1];
        }
      }
      FullPathLabels(nodes[1..], path);
      NamesAppend(head, sub);
      NamesAppend(head + sub, rest);
    }
  }

  /** Labels of a three-level branch on the page: the grandchild carries the
      whole path. */
  lemma FullPathExample()
    ensures var tree := [Category(1, "Femme", [Category(2, "Robes", [Category(3, "Longues", [])])])];
      var flat := Flat(tree, "", FullPath);
      |flat| == 3 && flat[0].name == "Femme" && flat[1].name == "Femme › Robes"
      && flat[2].name == "Femme › Robes › Longues"
  {
    var leaf := Category(3, "Longues", []);
    var mid := Category(2, "Robes", [leaf]);
    var root := Category(1, "Femme", [mid]);
    assert Label("Femme › Robes", "Longues") == "Femme › Robes › Longues";
    assert Label("Femme", "Robes") == "Femme › Robes";
    FlatOne(leaf, "Femme › Robes", FullPath);
    FlatOne(mid, "Femme", FullPath);
    FlatOne(root, "", FullPath);
  }

  // ---------------------------------------------------------------- images

  const MaxImages := 10
  const TooManyImages := "Vous pouvez ajouter jusqu'à 10 images maximum."
  const LimitReached := "Limite de 10 images atteinte."
  const UploadFailedMessage := "Impossible de téléverser l'image."

  /** The image-list updater run when an upload completes: at the cap the list is
      kept and an error given; otherwise the URL is appended, with a notice when
      that reaches the cap. */
  function AddImage(prev: seq<string>, url: string): (r: (seq<string>, Option<string>))
    ensures |prev| >= MaxImages ==> r == (prev, Some(TooManyImages))
    ensures |prev| < MaxImages ==> r.0 == prev + [url]
    ensures |prev| < MaxImages ==> (r.1.Some? <==> |r.0| == MaxImages)
    ensures |prev| <= MaxImages ==> |r.0| <= MaxImages
  {
    if |prev| >= MaxImages then (prev, Some(TooManyImages))
    else
      var updated := prev + [url];
      (updated, if |updated| >= MaxImages then Some(LimitReached) else None)
  }

  /** However many uploads complete, the list never grows past the cap. */
  lemma {:induction false} UploadsRespectCap(prev: seq<string>, urls: seq<string>)
    requires |prev| <= MaxImages
    ensures |AddAll(prev, urls)| <= MaxImages
    ensures |AddAll(prev, urls)| == if |prev| + |urls| <= MaxImages then |prev| + |urls| else MaxImages
    decreases |urls|
  {
    if |urls| > 0 {
      UploadsRespectCap(AddImage(prev, urls[0]).0, urls[1..]);
    }
  }

  /** The list after a series of completed uploads. */
  function AddAll(prev: seq<string>, urls: seq<string>): seq<string>
    decreases |urls|
  {
    if |urls| == 0 then prev else AddAll(AddImage(prev, urls[0]).0, urls[1..])
  }

  /** The result of uploading a file: its URL, or the error's message when it
      has one. */
  datatype UploadResult = Uploaded(url: string) | UploadFailed(message: Option<string>)

  // ---------------------------------------------------------------- submit

  const BadPrice := "Veuillez saisir un prix valide."
  /** What `createListing` gives back: whether the server answered 201, or the
      rejection of a `fetch` that did not get an answer. */
  datatype CreateAnswer = Answered(ok: bool) | FetchRejected

  const CreateFailed := "La création de l'annonce a échoué."
  const Created := "Annonce créée avec succès."
  const SizesUnavailable := "Impossible de charger les tailles."

  /** `parsedPrice` passes: not NaN and above 0. */
  predicate PriceAccepted(n: JsNumber) {
    !n.NaN? && !(n.Finite? && n.r <= 0.0) && n != Infinity(false)
  }

  /** What `createListing` receives. */
  datatype CreatePayload = CreatePayload(
    title: string, description: string, price: JsNumber, sizes: seq<string>, colors: seq<string>,
    condition: string, categoryId: Option<int>, city: Option<string>, images: seq<string>,
    deliveryAvailable: bool)

  /** A snapshot of every field of the form, to say what a handler leaves alone. */
  datatype FormState = FormState(
    title: string, description: string, price: string, city: string, condition: string,
    deliveryAvailable: bool, categoryId: Option<int>, sizeOptions: seq<string>, sizes: seq<string>,
    colors: seq<string>, imageUrls: seq<string>, uploading: bool, uploadError: Option<string>,
    sizesError: Option<string>, submitting: bool, error: Option<string>, success: Option<string>)

  /** The state of the page's form. */
  class ListingForm {
    var title: string
    var description: string
    var price: string
    var city: string
    var condition: string
    var deliveryAvailable: bool
    var categoryId: Option<int>
    var sizeOptions: seq<string>
    var sizes: seq<string>
    var colors: seq<string>
    var imageUrls: seq<string>
    var uploading: bool
    var uploadError: Option<string>
    var sizesError: Option<string>
    var submitting: bool
    var error: Option<string>
    var success: Option<string>

    function State(): FormState
      reads this
    {
      FormState(title, description, price, city, condition, deliveryAvailable, categoryId, sizeOptions,
                sizes, colors, imageUrls, uploading, uploadError, sizesError, submitting, error, success)
    }

    /** The image cap holds. */
    predicate Valid()
      reads this
    {
      |imageUrls| <= MaxImages
    }

    constructor ()
      ensures Valid()
      ensures State() == FormState("", "", "", "", "neuf", false, None, [], [], [], [], false, None, None, false, None, None)
    {
      title, description, price, city, condition := "", "", "", "", "neuf";
      deliveryAvailable := false;
      categoryId := None;
      sizeOptions, sizes, colors, imageUrls := [], [], [], [];
      uploading := false;
      uploadError, sizesError := None, None;
      submitting := false;
      error, success := None, None;
    }

    method ToggleSize(size: string)
      modifies this
      ensures sizes == Toggle(old(sizes), size)
      ensures State() == old(State()).(sizes := sizes)
    {
      sizes := Toggle(sizes, size);
    }

    method ToggleColor(color: string)
      modifies this
      ensures colors == Toggle(old(colors), color)
      ensures State() == old(State()).(colors := colors)
    {
      colors := Toggle(colors, color);
    }

    /** The size effect when the category changes. */
    method CategoryChanged(fetch: SizeFetch)
      modifies this
      ensures (sizeOptions, sizes) == SizesForCategory(old(categoryId), old(sizeOptions), old(sizes), fetch)
      ensures categoryId == old(categoryId) && imageUrls == old(imageUrls) && colors == old(colors)
      ensures sizesError == if (categoryId.Some? && categoryId.value != 0 && fetch.FetchFailed?) then Some(SizesUnavailable)
                            else if categoryId.Some? && categoryId.value != 0 then None else old(sizesError)
      ensures State() == old(State()).(sizeOptions := sizeOptions, sizes := sizes, sizesError := sizesError)
    {
      if categoryId.None? || categoryId.value == 0 {
        sizeOptions, sizes := [], [];
        return;
      }
      sizesError := None;
      match fetch {
        case Fetched(list) =>
          sizeOptions := list;
          sizes := KeepIn(sizes, list);
        case FetchFailed =>
          sizesError := Some(SizesUnavailable);
      }
    }

    /** The start of `handleImageUpload`: refused at the cap. */
    method StartUpload() returns (started: bool)
      modifies this
      requires Valid()
      ensures Valid() && imageUrls == old(imageUrls)
      ensures started <==> |old(imageUrls)| < MaxImages
      ensures !started ==> uploadError == Some(TooManyImages) && uploading == old(uploading)
      ensures started ==> uploading && uploadError.None?
      ensures State() == old(State()).(uploading := uploading, uploadError := uploadError)
    {
      if |imageUrls| >= MaxImages {
        uploadError := Some(TooManyImages);
        return false;
      }
      uploading := true;
      uploadError := None;
      started := true;
    }

    /** The end of an upload. Other uploads may have completed since it started,
        so the updater checks the cap again on the current list. */
    method FinishUpload(result: UploadResult)
      modifies this
      requires Valid()
      ensures Valid()
      ensures result.Uploaded? ==> imageUrls == AddImage(old(imageUrls), result.url).0
      ensures result.Uploaded? && AddImage(old(imageUrls), result.url).1.Some? ==>
                uploadError == AddImage(old(imageUrls), result.url).1
      ensures result.UploadFailed? ==>
                imageUrls == old(imageUrls) && uploadError == Some(OrDefault(result.message, UploadFailedMessage))
      ensures result.Uploaded? && AddImage(old(imageUrls), result.url).1.None? ==> uploadError == old(uploadError)
      ensures !uploading
      ensures State() == old(State()).(imageUrls := imageUrls, uploadError := uploadError, uploading := false)
    {
      match result {
        case Uploaded(url) =>
          var (updated, notice) := AddImage(imageUrls, url);
          imageUrls := updated;
          if notice.Some? {
            uploadError := notice;
          }
        case UploadFailed(message) =>
          uploadError := Some(OrDefault(message, UploadFailedMessage));
      }
      uploading := false;
    }

    /** `handleRemoveImage`: every copy of the URL goes, the rest keep their order. */
    method RemoveImage(url: string)
      modifies this
      requires Valid()
      ensures Valid()
      ensures imageUrls == RemoveAll(old(imageUrls), url)
      ensures url !in imageUrls && forall u :: u != url ==> (u in imageUrls <==> u in old(imageUrls))
      ensures State() == old(State()).(imageUrls := imageUrls)
    {
      imageUrls := RemoveAll(imageUrls, url);
    }

    /** The payload built from the form for a parsed price. */
    function Payload(parsed: JsNumber): (p: CreatePayload)
      reads this
      ensures IsTrimmed(p.title) && IsTrimmed(p.description) && IsTrimmed(p.condition)
      ensures p.city.None? <==> Trim(city) == ""
      ensures p.city.Some? ==> p.city.value == Trim(city)
      ensures p.price == parsed && p.images == imageUrls && p.sizes == sizes && p.colors == colors
    {
      CreatePayload(Trim(title), Trim(description), parsed, sizes, colors, Trim(condition), categoryId,
                    if Trim(city) != "" then Some(Trim(city)) else None, imageUrls, deliveryAvailable)
    }

    /** `handleSubmit`: nothing for a visitor who is not a seller; a price that is
        not a positive number is refused before anything is sent; otherwise the
        payload goes to `createListing`, whose answer sets the error or the
        success message. `createListing` does not catch a failed `fetch`, so a
        rejected request ends the handler with `submitting` still set and no
        message. `sent` is what was sent, if anything. */
    method HandleSubmit(isSeller: bool, parse: string -> JsNumber, create: CreatePayload -> CreateAnswer)
      returns (sent: Option<CreatePayload>)
      modifies this
      requires Valid()
      ensures Valid() && imageUrls == old(imageUrls)
      ensures sent.None? <==> !isSeller || !PriceAccepted(parse(old(price)))
      ensures !isSeller ==> error == old(error) && success == old(success) && submitting == old(submitting)
      ensures isSeller && !PriceAccepted(parse(old(price))) ==> error == Some(BadPrice) && !submitting
      ensures sent.Some? ==> sent.value == old(Payload(parse(price))) && PriceAccepted(sent.value.price)
      ensures sent.Some? && create(sent.value).Answered? ==>
        && !submitting
        && (create(sent.value).ok <==> success == Some(Created))
        && (!create(sent.value).ok <==> error == Some(CreateFailed))
      ensures sent.Some? && create(sent.value).FetchRejected? ==> submitting && error.None? && success.None?
      ensures isSeller && (sent.None? || create(sent.value).Answered?) ==> !submitting
      ensures isSeller ==> error.None? || success.None?
      ensures State() == old(State()).(submitting := submitting, error := error, success := success)
    {
      if !isSeller {
        return None;
      }
      submitting := true;
      error := None;
      success := None;
      var parsedPrice := parse(price);
      if !PriceAccepted(parsedPrice) {
        error := Some(BadPrice);
        submitting := false;
        return None;
      }
      var payload := Payload(parsedPrice);
      var answer := create(payload);
      if answer.FetchRejected? {
        return Some(payload);
      }
      if !answer.ok {
        error := Some(CreateFailed);
        submitting := false;
        return Some(payload);
      }
      success := Some(Created);
      submitting := false;
      sent := Some(payload);
    }
  }
}
