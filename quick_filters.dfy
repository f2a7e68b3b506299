/** The quick-filters dialog of the web client: toggling sizes and colours,
    pruning the selected sizes when the category changes, flattening the
    category tree into labelled menu entries, and the selection it applies.
    The size fetch's answer is a parameter; the category effect is modelled as
    written (it calls a method the API service lacks) and as intended. */
module QuickFilters {
  import opened Js

  /** A category of the fetched tree; absent children are an empty list. */
  datatype Category = Category(id: int, name: string, children: seq<Category>)

  // ---------------------------------------------------------------- toggles

  /** `toggleSize` / `toggleColor`: a selected item is removed everywhere, an
      unselected one is appended at the end. */
  function Toggle(xs: seq<string>, x: string): (r: seq<string>)
    ensures x in r <==> x !in xs
    ensures forall y :: y != x ==> (y in r <==> y in xs)
    ensures x !in xs ==> r == xs + [x]
    ensures x in xs ==> |r| < |xs|
  {
    if x in xs then
      RemoveAllShrinks(xs, x);
      RemoveAll(xs, x)
    else xs + [x]
  }

  lemma {:induction false} RemoveAllShrinks(xs: seq<string>, x: string)
    requires x in xs
    ensures |RemoveAll(xs, x)| < |xs|
  {
    if xs[0] != x {
      RemoveAllShrinks(xs[1..], x);
    } else {
      assert |RemoveAll(xs[1..], x)| <= |xs[1..]|;
    }
  }

  lemma {:induction false} RemoveAllAbsent(xs: seq<string>, x: string)
    requires x !in xs
    ensures RemoveAll(xs, x) == xs
  {
    if |xs| > 0 {
      RemoveAllAbsent(xs[1..], x);
      assert [xs[0]] + xs[1..] == xs;
    }
  }

  lemma {:induction false} RemoveAllAppend(xs: seq<string>, ys: seq<string>, x: string)
    ensures RemoveAll(xs + ys, x) == RemoveAll(xs, x) + RemoveAll(ys, x)
  {
    if |xs| == 0 {
      assert xs + ys == ys;
    } else {
      var zs := xs + ys;
      assert zs[0] == xs[0] && zs[1..] == xs[1..] + ys;
      RemoveAllAppend(xs[1..], ys, x);
      if xs[0] == x {
        assert RemoveAll(zs, x) == RemoveAll(xs[1..] + ys, x);
      } else {
        assert RemoveAll(zs, x) == [xs[0]] + RemoveAll(xs[1..] + ys, x);
        assert RemoveAll(xs, x) == [xs[0]] + RemoveAll(xs[1..], x);
      }
    }
  }

  /** Toggling an unselected item twice gives the list back; toggling a selected
      one twice moves it, once, to the end. */
  lemma ToggleTwice(xs: seq<string>, x: string)
    ensures x !in xs ==> Toggle(Toggle(xs, x), x) == xs
    ensures x in xs ==> Toggle(Toggle(xs, x), x) == RemoveAll(xs, x) + [x]
  {
    if x !in xs {
      RemoveAllAppend(xs, [x], x);
      RemoveAllAbsent(xs, x);
      assert RemoveAll([x], x) == [];
    }
  }

  // ---------------------------------------------------------------- sizes of a category

  /** The answer of the size fetch for a category. */
  datatype SizeFetch = Fetched(list: seq<string>) | FetchFailed

  /** The size options and the selected sizes once the category is set: no
      category clears both; fetched options keep only the selected sizes they
      list, in their order; a failed fetch changes neither. */
  function SizesForCategory(categoryId: Option<int>, options: seq<string>, sizes: seq<string>, fetch: SizeFetch)
    : (r: (seq<string>, seq<string>))
    ensures categoryId.None? || categoryId.value == 0 ==> r == ([], [])
    ensures categoryId.Some? && categoryId.value != 0 && fetch.Fetched? ==>
      && r.0 == fetch.list
      && (forall s :: s in r.1 <==> s in sizes && s in fetch.list)
      && r.1 == KeepIn(sizes, fetch.list)
    ensures categoryId.Some? && categoryId.value != 0 && fetch.FetchFailed? ==> r == (options, sizes)
  {
    if categoryId.None? || categoryId.value == 0 then ([], [])
    else match fetch
      case Fetched(list) => (list, KeepIn(sizes, list))
      case FetchFailed => (options, sizes)
  }

  lemma {:induction false} KeepInIdempotent(xs: seq<string>, keep: seq<string>)
    ensures KeepIn(KeepIn(xs, keep), keep) == KeepIn(xs, keep)
  {
    if |xs| > 0 {
      KeepInIdempotent(xs[1..], keep);
      var rest := KeepIn(xs[1..], keep);
      if xs[0] in keep {
        assert KeepIn(xs, keep) == [xs[0]] + rest;
        assert ([xs[0]] + rest)[0] == xs[0] && ([xs[0]] + rest)[1..] == rest;
        assert KeepIn([xs[0]] + rest, keep) == [xs[0]] + KeepIn(rest, keep);
      } else {
        assert KeepIn(xs, keep) == [] + rest;
        assert [] + rest == rest;
      }
    }
  }

  /** Fetching the same options again leaves the pruned selection as it is. */
  lemma PruneTwiceSameAsOnce(categoryId: int, options: seq<string>, sizes: seq<string>, list: seq<string>)
    requires categoryId != 0
    ensures var r := SizesForCategory(Some(categoryId), options, sizes, Fetched(list));
      SizesForCategory(Some(categoryId), r.0, r.1, Fetched(list)) == r
  {
    KeepInIdempotent(sizes, list);
  }

  /** The dialog's size effect: nothing happens while it is closed. */
  function DialogSizes(open: bool, categoryId: Option<int>, options: seq<string>, sizes: seq<string>, fetch: SizeFetch)
    : (r: (seq<string>, seq<string>))
    ensures !open ==> r == (options, sizes)
    ensures open ==> r == SizesForCategory(categoryId, options, sizes, fetch)
  {
    if !open then (options, sizes) else SizesForCategory(categoryId, options, sizes, fetch)
  }

  const DialogSizesUnavailable := "Impossible de charger les tailles pour cette catégorie."

  /** The dialog's size error after the effect: untouched while closed or without
      a category (the effect returns before clearing it), cleared before a fetch,
      and set again when the fetch fails. */
  function DialogSizesError(open: bool, categoryId: Option<int>, error: Option<string>, fetch: SizeFetch)
    : (r: Option<string>)
    ensures !open || categoryId.None? || categoryId.value == 0 ==> r == error
    ensures open && categoryId.Some? && categoryId.value != 0 && fetch.Fetched? ==> r.None?
    ensures open && categoryId.Some? && categoryId.value != 0 && fetch.FetchFailed? ==> r == Some(DialogSizesUnavailable)
  {
    if !open || categoryId.None? || categoryId.value == 0 then error
    else if fetch.FetchFailed? then Some(DialogSizesUnavailable)
    else None
  }

  /** After a fetch for a chosen category the dialog shows an error exactly when
      its size lists were left as they were for lack of an answer. */
  lemma SizesErrorOnlyWhenListsKept(categoryId: int, options: seq<string>, sizes: seq<string>,
                                     error: Option<string>, fetch: SizeFetch)
    requires categoryId != 0
    ensures DialogSizesError(true, Some(categoryId), error, fetch).Some? <==> fetch.FetchFailed?
    ensures DialogSizesError(true, Some(categoryId), error, fetch).Some? ==>
      DialogSizes(true, Some(categoryId), options, sizes, fetch) == (options, sizes)
  {
  }

  // ---------------------------------------------------------------- categories

  /** The answer of the category-tree fetch: the tree, or a failure with the
      error's message when it has one. */
  datatype TreeFetch = Tree(data: seq<Category>) | TreeFailed(message: Option<string>)

  /** The dialog's category state: the tree, the loading flag and the error. */
  datatype CategoryState = CategoryState(categories: seq<Category>, loading: bool, error: Option<string>)

  const CategoryLoadFailed := "Erreur de chargement"

  /** The category effect as written. It names `fetchCategoriesTree`, which the API
      service does not define (its method is `fetchCategoryTree`), so the optional
      call short-circuits the whole `.then/.catch/.finally` chain: the flag is set
      and nothing else happens, whatever the server would have answered. */
  function CategoryEffectAsWritten(open: bool, s: CategoryState): CategoryState {
    if !open || |s.categories| > 0 then s else s.(loading := true)
  }

  /** As written, opening the dialog never yields categories and the loading
      flag never clears, however often the effect runs. */
  lemma AsWrittenCategoriesNeverLoad(s: CategoryState)
    requires s.categories == []
    ensures var r := CategoryEffectAsWritten(true, s);
      && r.categories == [] && r.loading && r.error == s.error
      && CategoryEffectAsWritten(true, r) == r
  {
  }

  /** The category effect with the service's own method: on the first open with
      no categories yet, a success stores the tree and clears the error, a failure
      records the message (or a default), and the flag clears either way. */
  function CategoryEffect(open: bool, s: CategoryState, fetch: TreeFetch): (r: CategoryState)
    ensures !open || |s.categories| > 0 ==> r == s
    ensures open && s.categories == [] ==> !r.loading
    ensures open && s.categories == [] && fetch.Tree? ==> r.categories == fetch.data && r.error.None?
    ensures open && s.categories == [] && fetch.TreeFailed? ==>
      r.categories == [] && r.error == Some(if fetch.message.Some? then fetch.message.value else CategoryLoadFailed)
  {
    if !open || |s.categories| > 0 then s
    else match fetch
      case Tree(data) => CategoryState(data, false, None)
      case TreeFailed(m) => CategoryState(s.categories, false, Some(if m.Some? then m.value else CategoryLoadFailed))
  }

  /** Corrected, a fetched non-empty tree is loaded once: opening the dialog again
      keeps it and fetches nothing. */
  lemma CategoriesLoadOnce(s: CategoryState, data: seq<Category>, again: TreeFetch)
    requires s.categories == [] && data != []
    ensures var r := CategoryEffect(true, s, Tree(data));
      && r.categories == data && !r.loading
      && CategoryEffect(true, r, again) == r
  {
  }

  // ---------------------------------------------------------------- flatCategories

  const Separator := " › "

  /** How a child's prefix is formed: the parent's own name, or the parent's
      whole label. */
  datatype Naming = ParentName | FullPath

  function Label(prefix: string, name: string): string {
    if prefix != "" then prefix + Separator + name else name
  }

  function ChildPrefix(naming: Naming, prefix: string, c: Category): string {
    match naming
    case ParentName => c.name
    case FullPath => Label(prefix, c.name)
  }

  /** The menu entries of a forest: each node relabelled, then its subtree, then
      its next sibling. */
  function Flat(nodes: seq<Category>, prefix: string, naming: Naming): seq<Category>
    decreases nodes, 1
  {
    if |nodes| == 0 then []
    else [nodes[0].(name := Label(prefix, nodes[0].name))] + SubFlat(nodes[0], prefix, naming) + Flat(nodes[1..], prefix, naming)
  }

  /** The entries below a node, only when it has children. */
  function SubFlat(c: Category, prefix: string, naming: Naming): seq<Category>
    decreases c, 0
  {
    if |c.children| > 0 then Flat(c.children, ChildPrefix(naming, prefix, c), naming) else []
  }

  lemma FlatOne(c: Category, prefix: string, naming: Naming)
    ensures Flat([c], prefix, naming) == [c.(name := Label(prefix, c.name))] + SubFlat(c, prefix, naming)
  {
    assert [c][1..] == [];
  }

  lemma {:induction false} FlatAppend(a: seq<Category>, b: seq<Category>, prefix: string, naming: Naming)
    ensures Flat(a + b, prefix, naming) == Flat(a, prefix, naming) + Flat(b, prefix, naming)
  {
    if |a| == 0 {
      assert a + b == b;
    } else {
      var ab := a + b;
      assert ab[0] == a[0] && ab[1..] == a[1..] + b;
      FlatAppend(a[1..], b, prefix, naming);
      var head := [a[0].(name := Label(prefix, a[0].name))] + SubFlat(a[0], prefix, naming);
      var restA, restB := Flat(a[1..], prefix, naming), Flat(b, prefix, naming);
      assert Flat(ab, prefix, naming) == head + Flat(ab[1..], prefix, naming);
      assert Flat(a, prefix, naming) == head + restA;
      assert head + (restA + restB) == (head + restA) + restB;
    }
  }

  /** The walk: pushes each node and recurses into non-empty children. */
  method Walk(nodes: seq<Category>, prefix: string, naming: Naming, res: seq<Category>) returns (res': seq<Category>)
    ensures res' == res + Flat(nodes, prefix, naming)
    decreases nodes
  {
    res' := res;
    for i := 0 to |nodes|
      invariant res' == res + Flat(nodes[..i], prefix, naming)
    {
      var c := nodes[i];
      ghost var before := res';
      res' := res' + [c.(name := Label(prefix, c.name))];
      if |c.children| > 0 {
        res' := Walk(c.children, ChildPrefix(naming, prefix, c), naming, res');
      }
      assert res' == before + ([c.(name := Label(prefix, c.name))] + SubFlat(c, prefix, naming));
      FlatOne(c, prefix, naming);
      FlatAppend(nodes[..i], [c], prefix, naming);
      assert nodes[..i + 1] == nodes[..i] + [c];
    }
    assert nodes[..|nodes|] == nodes;
  }

  /** `flatCategories` of the dialog: a child's label is its parent's own name
      and its name. */
  method FlatCategories(tree: seq<Category>) returns (res: seq<Category>)
    ensures res == Flat(tree, "", ParentName)
  {
    res := Walk(tree, "", ParentName, []);
  }

  /** The ids of a forest in preorder: a node, its subtree, its next siblings. */
  function PreorderIds(nodes: seq<Category>): seq<int>
  {
    if |nodes| == 0 then [] else [nodes[0].id] + PreorderIds(nodes[0].children) + PreorderIds(nodes[1..])
  }

  function Ids(cs: seq<Category>): (r: seq<int>)
    ensures |r| == |cs| && forall i :: 0 <= i < |cs| ==> r[i] == cs[i].id
  {
    seq(|cs|, i requires 0 <= i < |cs| => cs[i].id)
  }

  lemma IdsAppend(a: seq<Category>, b: seq<Category>)
    ensures Ids(a + b) == Ids(a) + Ids(b)
  {
  }

  /** The menu lists every node exactly once, in preorder, whatever the labels:
      a parent before its children, siblings in their order. */
  lemma {:induction false} FlatIsPreorder(nodes: seq<Category>, prefix: string, naming: Naming)
    ensures Ids(Flat(nodes, prefix, naming)) == PreorderIds(nodes)
    decreases nodes
  {
    if |nodes| > 0 {
      var c := nodes[0];
      var head := [c.(name := Label(prefix, c.name))];
      var sub := SubFlat(c, prefix, naming);
      var rest := Flat(nodes[1..], prefix, naming);
      if |c.children| > 0 {
        FlatIsPreorder(c.children, ChildPrefix(naming, prefix, c), naming);
      } else {
        assert PreorderIds(c.children) == [];
      }
      FlatIsPreorder(nodes[1..], prefix, naming);
      IdsAppend(head, sub);
      IdsAppend(head + sub, rest);
      assert Ids(head) == [c.id];
    }
  }

  /** Labels of a three-level branch in the dialog: the grandchild is labelled
      with its parent's name only. */
  lemma ParentNamingExample()
    ensures var tree := [Category(1, "Femme", [Category(2, "Robes", [Category(3, "Longues", [])])])];
      var flat := Flat(tree, "", ParentName);
      |flat| == 3 && flat[0].name == "Femme" && flat[1].name == "Femme › Robes" && flat[2].name == "Robes › Longues"
  {
    var leaf := Category(3, "Longues", []);
    var mid := Category(2, "Robes", [leaf]);
    var root := Category(1, "Femme", [mid]);
    assert Label("Robes", "Longues") == "Robes › Longues";
    assert Label("Femme", "Robes") == "Femme › Robes";
    FlatOne(leaf, "Robes", ParentName);
    FlatOne(mid, "Femme", ParentName);
    FlatOne(root, "", ParentName);
  }

  // ---------------------------------------------------------------- handleApply

  /** The dialog's fields: the texts typed, and the choices made. */
  datatype DialogState = DialogState(
    city: string, minPrice: string, maxPrice: string, categoryId: Option<int>,
    sizes: seq<string>, colors: seq<string>, delivery: Option<bool>)

  /** The selection handed to `onApply`; None is null. */
  datatype Selection = Selection(
    city: Option<string>, minPrice: Option<JsNumber>, maxPrice: Option<JsNumber>, categoryId: Option<int>,
    sizes: seq<string>, colors: seq<string>, deliveryAvailable: Option<bool>)

  /** `handleApply`: the city trimmed, with blank as null; a blank price as null,
      any other converted by `Number`; the choices as they are. */
  function Apply(s: DialogState, parse: string -> JsNumber): (r: Selection)
    ensures r.city.None? <==> Trim(s.city) == ""
    ensures r.city.Some? ==> r.city.value == Trim(s.city) && r.city.value != ""
    ensures r.minPrice.None? <==> Trim(s.minPrice) == ""
    ensures r.minPrice.Some? ==> r.minPrice.value == parse(s.minPrice)
    ensures r.maxPrice.None? <==> Trim(s.maxPrice) == ""
    ensures r.maxPrice.Some? ==> r.maxPrice.value == parse(s.maxPrice)
    ensures r.categoryId == s.categoryId && r.sizes == s.sizes && r.colors == s.colors
    ensures r.deliveryAvailable == s.delivery
  {
    Selection(if Trim(s.city) != "" then Some(Trim(s.city)) else None,
              if Trim(s.minPrice) != "" then Some(parse(s.minPrice)) else None,
              if Trim(s.maxPrice) != "" then Some(parse(s.maxPrice)) else None,
              s.categoryId, s.sizes, s.colors, s.delivery)
  }

  /** A city typed with surrounding spaces is applied as the same city typed without. */
  lemma ApplyCityIgnoresSpaces(s: DialogState, parse: string -> JsNumber)
    ensures Apply(s.(city := Trim(s.city)), parse) == Apply(s, parse)
  {
    TrimIdempotent(s.city);
  }
}
