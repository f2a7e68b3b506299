/** The category forest built from flat `(id, parent_id)` rows. Node `i` of the
    result is the copy of `rows[i]`; a node's `children` list holds the indices of
    the nodes pushed onto it, so the forest is `roots` plus one list per node. */
module CategoryTree {
  import opened Js

  datatype CategoryRow = CategoryRow(id: int, name: string, slug: string, parentId: Option<int>)

  /** Every value of `byId` indexes a row. */
  predicate IndexMap(byId: map<int, nat>, n: nat) {
    forall k :: k in byId ==> byId[k] < n
  }

  /** The `byId` map: each id to the index of the last row carrying it. */
  function ById(rows: seq<CategoryRow>): (m: map<int, nat>)
    ensures IndexMap(m, |rows|)
    ensures forall k :: k in m ==> rows[m[k]].id == k
    ensures forall k :: k in m ==> forall j :: m[k] < j < |rows| ==> rows[j].id != k
    ensures forall i :: 0 <= i < |rows| ==> rows[i].id in m
  {
    if |rows| == 0 then map[]
    else
      var init := rows[..|rows| - 1];
      assert forall i :: 0 <= i < |init| ==> init[i] == rows[i];
      ById(init)[rows[|rows| - 1].id := |rows| - 1]
  }

  /** The node a row is pushed onto: none when `parent_id` is falsy (null or 0) or
      names no row. */
  function ParentIn(byId: map<int, nat>, row: CategoryRow): Option<nat> {
    if row.parentId.None? || row.parentId.value == 0 then None
    else if row.parentId.value in byId then Some(byId[row.parentId.value])
    else None
  }

  /** The roots pushed while visiting the first `k` rows. */
  function RootsBelow(rows: seq<CategoryRow>, byId: map<int, nat>, k: nat): seq<nat>
    requires k <= |rows|
  {
    if k == 0 then []
    else RootsBelow(rows, byId, k - 1) + (if ParentIn(byId, rows[k - 1]).None? then [k - 1] else [])
  }

  /** The children pushed onto node `p` while visiting the first `k` rows. */
  function ChildrenBelow(rows: seq<CategoryRow>, byId: map<int, nat>, p: nat, k: nat): seq<nat>
    requires k <= |rows|
  {
    if k == 0 then []
    else ChildrenBelow(rows, byId, p, k - 1) + (if ParentIn(byId, rows[k - 1]) == Some(p) then [k - 1] else [])
  }

  /** `roots` and `children` are what the two passes over `rows` produce. */
  predicate IsForestOf(rows: seq<CategoryRow>, roots: seq<nat>, children: seq<seq<nat>>) {
    && |children| == |rows|
    && roots == RootsBelow(rows, ById(rows), |rows|)
    && (forall p :: 0 <= p < |rows| ==> children[p] == ChildrenBelow(rows, ById(rows), p, |rows|))
  }

  /** `buildCategoryTree(rows)`: one pass fills `byId`, a second attaches each node
      to its parent or to the roots. */
  method BuildCategoryTree(rows: seq<CategoryRow>) returns (roots: seq<nat>, children: seq<seq<nat>>)
    ensures |children| == |rows|
    ensures roots == RootsBelow(rows, ById(rows), |rows|)
    ensures forall p :: 0 <= p < |rows| ==> children[p] == ChildrenBelow(rows, ById(rows), p, |rows|)
  {
    var byId := IndexById(rows);
    roots, children := Attach(rows, byId);
  }

  /** The first pass: `nodes.forEach((node) => byId.set(node.id, node))`. */
  method IndexById(rows: seq<CategoryRow>) returns (byId: map<int, nat>)
    ensures byId == ById(rows)
  {
    byId := map[];
    for i := 0 to |rows|
      invariant byId == ById(rows[..i])
    {
      assert rows[..i + 1][..i] == rows[..i];
      byId := byId[rows[i].id := i];
    }
    assert rows[..|rows|] == rows;
  }

  /** The second pass: each node goes onto its parent's `children` or onto `roots`. */
  method Attach(rows: seq<CategoryRow>, byId: map<int, nat>) returns (roots: seq<nat>, children: seq<seq<nat>>)
    requires IndexMap(byId, |rows|)
    ensures |children| == |rows|
    ensures roots == RootsBelow(rows, byId, |rows|)
    ensures forall p :: 0 <= p < |rows| ==> children[p] == ChildrenBelow(rows, byId, p, |rows|)
  {
    roots := [];
    children := seq(|rows|, _ => []);
    for i := 0 to |rows|
      invariant |children| == |rows|
      invariant roots == RootsBelow(rows, byId, i)
      invariant forall p :: 0 <= p < |rows| ==> children[p] == ChildrenBelow(rows, byId, p, i)
    {
      var parentId := rows[i].parentId;
      if parentId.Some? && parentId.value != 0 {
        if parentId.value in byId {
          var p := byId[parentId.value];
          children := children[p := children[p] + [i]];
        } else {
          roots := roots + [i];
        }
      } else {
        roots := roots + [i];
      }
    }
  }

  /** The roots are exactly the rows without a parent node, in input order. */
  lemma {:induction false} RootsExactly(rows: seq<CategoryRow>, byId: map<int, nat>, k: nat)
    requires k <= |rows|
    ensures var r := RootsBelow(rows, byId, k);
      && (forall i :: i in r <==> 0 <= i < k && ParentIn(byId, rows[i]).None?)
      && (forall a :: 0 <= a < |r| ==> r[a] < k)
      && (forall a, b :: 0 <= a < b < |r| ==> r[a] < r[b])
  {
    if k > 0 {
      RootsExactly(rows, byId, k - 1);
    }
  }

  /** A node's children are exactly the rows attached to it, in input order. */
  lemma {:induction false} ChildrenExactly(rows: seq<CategoryRow>, byId: map<int, nat>, p: nat, k: nat)
    requires k <= |rows|
    ensures var c := ChildrenBelow(rows, byId, p, k);
      && (forall i :: i in c <==> 0 <= i < k && ParentIn(byId, rows[i]) == Some(p))
      && (forall a :: 0 <= a < |c| ==> c[a] < k)
      && (forall a, b :: 0 <= a < b < |c| ==> c[a] < c[b])
  {
    if k > 0 {
      ChildrenExactly(rows, byId, p, k - 1);
    }
  }

  /** Every row appears exactly once in the forest: as a root or in the children of
      exactly one node, and no list holds it twice. */
  lemma EachRowExactlyOnce(rows: seq<CategoryRow>, roots: seq<nat>, children: seq<seq<nat>>, i: nat)
    requires IsForestOf(rows, roots, children)
    requires i < |rows|
    ensures i in roots <==> (forall p :: 0 <= p < |children| ==> i !in children[p])
    ensures forall p, q :: 0 <= p < |children| && 0 <= q < |children| && i in children[p] && i in children[q] ==> p == q
    ensures NoDuplicates(roots) && forall p :: 0 <= p < |children| ==> NoDuplicates(children[p])
  {
    var byId := ById(rows);
    RootsExactly(rows, byId, |rows|);
    forall p | 0 <= p < |rows|
      ensures (i in children[p] <==> ParentIn(byId, rows[i]) == Some(p)) && NoDuplicates(children[p])
    {
      ChildrenExactly(rows, byId, p, |rows|);
    }
    var parent := ParentIn(byId, rows[i]);
    if parent.Some? {
      assert i in children[parent.value];
    }
  }

  /** A row is a root iff its `parent_id` is falsy or no row has that id. */
  lemma RootIff(rows: seq<CategoryRow>, roots: seq<nat>, children: seq<seq<nat>>, i: nat)
    requires IsForestOf(rows, roots, children)
    requires i < |rows|
    ensures i in roots <==>
      (rows[i].parentId.None? || rows[i].parentId.value == 0
       || forall j :: 0 <= j < |rows| ==> rows[j].id != rows[i].parentId.value)
  {
    RootsExactly(rows, ById(rows), |rows|);
  }

  /** The node `byId` keeps for an id receives exactly the rows whose `parent_id` is
      that (non-zero) id, in input order; any other row with the same id receives none. */
  lemma ChildrenOfNode(rows: seq<CategoryRow>, roots: seq<nat>, children: seq<seq<nat>>, p: nat)
    requires IsForestOf(rows, roots, children)
    requires p < |rows|
    ensures ById(rows)[rows[p].id] == p ==>
      forall i :: i in children[p] <==>
        (0 <= i < |rows| && rows[i].parentId == Some(rows[p].id) && rows[p].id != 0)
    ensures ById(rows)[rows[p].id] != p ==> children[p] == []
    ensures forall a, b :: 0 <= a < b < |children[p]| ==> children[p][a] < children[p][b]
  {
    ChildrenOfNodeWith(rows, ById(rows), p);
  }

  lemma ChildrenOfNodeWith(rows: seq<CategoryRow>, byId: map<int, nat>, p: nat)
    requires p < |rows| && rows[p].id in byId
    requires forall k :: k in byId ==> byId[k] < |rows| && rows[byId[k]].id == k
    ensures var c := ChildrenBelow(rows, byId, p, |rows|);
      && (byId[rows[p].id] == p ==>
            forall i :: i in c <==> (0 <= i < |rows| && rows[i].parentId == Some(rows[p].id) && rows[p].id != 0))
      && (byId[rows[p].id] != p ==> c == [])
      && (forall a, b :: 0 <= a < b < |c| ==> c[a] < c[b])
  {
    ChildrenExactly(rows, byId, p, |rows|);
    var c := ChildrenBelow(rows, byId, p, |rows|);
    if byId[rows[p].id] != p {
      NoChildrenUnlessKept(rows, byId, p, |rows|);
    } else {
      forall i ensures i in c <==> (0 <= i < |rows| && rows[i].parentId == Some(rows[p].id) && rows[p].id != 0)
      {
        if 0 <= i < |rows| && ParentIn(byId, rows[i]) == Some(p) {
          assert rows[p].id == rows[i].parentId.value;
        }
      }
    }
  }

  /** A node `byId` does not keep receives no children: a row attached to node `p`
      names `p`'s id, and `byId` keeps `p` for that id. */
  lemma {:induction false} NoChildrenUnlessKept(rows: seq<CategoryRow>, byId: map<int, nat>, p: nat, k: nat)
    requires p < |rows| && k <= |rows| && rows[p].id in byId && byId[rows[p].id] != p
    requires forall k :: k in byId ==> byId[k] < |rows| && rows[byId[k]].id == k
    ensures ChildrenBelow(rows, byId, p, k) == []
  {
    if k > 0 {
      NoChildrenUnlessKept(rows, byId, p, k - 1);
      var parent := ParentIn(byId, rows[k - 1]);
      if parent.Some? {
        assert byId[rows[k - 1].parentId.value] == parent.value;
      }
    }
  }

  // ---------------------------------------------------------------- reachability

  /** Node `i` can be reached from a root by following at most `depth` children links. */
  ghost predicate ReachableIn(roots: seq<nat>, children: seq<seq<nat>>, i: nat, depth: nat)
    decreases depth
  {
    i in roots
    || (depth > 0 && exists p :: 0 <= p < |children| && i in children[p] && ReachableIn(roots, children, p, depth - 1))
  }

  /** Following parent links from row `i` ends at a root within `fuel` steps. */
  predicate Rooted(rows: seq<CategoryRow>, byId: map<int, nat>, i: nat, fuel: nat)
    requires IndexMap(byId, |rows|) && i < |rows|
    decreases fuel
  {
    match ParentIn(byId, rows[i])
    case None => true
    case Some(j) => fuel > 0 && Rooted(rows, byId, j, fuel - 1)
  }

  /** The node `k` parent links above row `i`, if the chain is that long. */
  function Ancestor(rows: seq<CategoryRow>, byId: map<int, nat>, i: nat, k: nat): (r: Option<nat>)
    requires IndexMap(byId, |rows|) && i < |rows|
    ensures r.Some? ==> r.value < |rows|
    decreases k
  {
    if k == 0 then Some(i)
    else match ParentIn(byId, rows[i])
      case None => None
      case Some(j) => Ancestor(rows, byId, j, k - 1)
  }

  /** One more step up is one parent link from the node reached. */
  lemma {:induction false} AncestorStep(rows: seq<CategoryRow>, byId: map<int, nat>, i: nat, k: nat)
    requires IndexMap(byId, |rows|) && i < |rows|
    ensures Ancestor(rows, byId, i, k + 1) ==
      match Ancestor(rows, byId, i, k)
      case None => None
      case Some(a) => ParentIn(byId, rows[a])
    decreases k
  {
    if k > 0 {
      match ParentIn(byId, rows[i])
      case None =>
      case Some(j) => AncestorStep(rows, byId, j, k - 1);
    }
  }

  /** Row `i` lies on a cycle of parent links. */
  ghost predicate OnCycle(rows: seq<CategoryRow>, byId: map<int, nat>, i: nat)
    requires IndexMap(byId, |rows|) && i < |rows|
  {
    exists k :: 1 <= k && Ancestor(rows, byId, i, k) == Some(i)
  }

  /** The parent of a row on a cycle is on the same cycle. */
  lemma ParentOnCycle(rows: seq<CategoryRow>, byId: map<int, nat>, i: nat)
    requires IndexMap(byId, |rows|) && i < |rows|
    requires OnCycle(rows, byId, i)
    ensures ParentIn(byId, rows[i]).Some?
    ensures OnCycle(rows, byId, ParentIn(byId, rows[i]).value)
  {
    var k :| 1 <= k && Ancestor(rows, byId, i, k) == Some(i);
    var j := ParentIn(byId, rows[i]).value;
    assert Ancestor(rows, byId, j, k - 1) == Some(i);
    AncestorStep(rows, byId, j, k - 1);
    assert Ancestor(rows, byId, j, k) == Some(j);
  }

  /** A row on a cycle never reaches a root by parent links. */
  lemma {:induction false} CycleNeverRooted(rows: seq<CategoryRow>, byId: map<int, nat>, i: nat, fuel: nat)
    requires IndexMap(byId, |rows|) && i < |rows|
    requires OnCycle(rows, byId, i)
    ensures !Rooted(rows, byId, i, fuel)
    decreases fuel
  {
    ParentOnCycle(rows, byId, i);
    if fuel > 0 {
      CycleNeverRooted(rows, byId, ParentIn(byId, rows[i]).value, fuel - 1);
    }
  }

  /** Reachability in the built forest is exactly a parent chain ending at a root. */
  lemma ReachableIffRooted(rows: seq<CategoryRow>, roots: seq<nat>, children: seq<seq<nat>>, i: nat, depth: nat)
    requires IsForestOf(rows, roots, children)
    requires i < |rows|
    ensures ReachableIn(roots, children, i, depth) <==> Rooted(rows, ById(rows), i, depth)
  {
    ReachableIffRootedWith(rows, ById(rows), roots, children, i, depth);
  }

  lemma {:induction false} ReachableIffRootedWith(rows: seq<CategoryRow>, byId: map<int, nat>, roots: seq<nat>,
                                                  children: seq<seq<nat>>, i: nat, depth: nat)
    requires IndexMap(byId, |rows|) && i < |rows|
    requires |children| == |rows| && roots == RootsBelow(rows, byId, |rows|)
    requires forall p :: 0 <= p < |rows| ==> children[p] == ChildrenBelow(rows, byId, p, |rows|)
    ensures ReachableIn(roots, children, i, depth) <==> Rooted(rows, byId, i, depth)
    decreases depth
  {
    RootsExactly(rows, byId, |rows|);
    match ParentIn(byId, rows[i])
    case None =>
      assert i in roots;
    case Some(j) =>
      assert i !in roots;
      if depth > 0 {
        ReachableIffRootedWith(rows, byId, roots, children, j, depth - 1);
        if ReachableIn(roots, children, i, depth) {
          var p :| 0 <= p < |children| && i in children[p] && ReachableIn(roots, children, p, depth - 1);
          ChildrenExactly(rows, byId, p, |rows|);
          assert p == j;
        }
        if Rooted(rows, byId, i, depth) {
          ChildrenExactly(rows, byId, j, |rows|);
          assert i in children[j];
        }
      }
  }

  /** Rows on a parent cycle appear nowhere under a root of the returned forest. */
  lemma CycleUnreachable(rows: seq<CategoryRow>, roots: seq<nat>, children: seq<seq<nat>>, i: nat, depth: nat)
    requires IsForestOf(rows, roots, children)
    requires i < |rows| && OnCycle(rows, ById(rows), i)
    ensures !ReachableIn(roots, children, i, depth)
  {
    ReachableIffRooted(rows, roots, children, i, depth);
    CycleNeverRooted(rows, ById(rows), i, depth);
  }

  /** Without cycles every row hangs under some root: a row that is on no cycle
      has a finite parent chain, which ends at a root within `|rows|` steps. */
  lemma AcyclicReachable(rows: seq<CategoryRow>, roots: seq<nat>, children: seq<seq<nat>>, i: nat)
    requires IsForestOf(rows, roots, children)
    requires i < |rows|
    requires forall j :: 0 <= j < |rows| ==> !OnCycle(rows, ById(rows), j)
    ensures ReachableIn(roots, children, i, |rows|)
  {
    ChainEndsOrRepeats(rows, ById(rows), i);
    ReachableIffRooted(rows, roots, children, i, |rows|);
  }

  /** Pigeonhole on the parent chain: within `|rows|` steps it ends at a root, or
      it revisits a row, which is then on a cycle. */
  lemma ChainEndsOrRepeats(rows: seq<CategoryRow>, byId: map<int, nat>, i: nat)
    requires IndexMap(byId, |rows|) && i < |rows|
    requires forall j :: 0 <= j < |rows| ==> !OnCycle(rows, byId, j)
    ensures Rooted(rows, byId, i, |rows|)
  {
    ChainRooted(rows, byId, i, |rows|, {});
  }

  /** Generalisation: walking up from `i`, having already visited the rows in `seen`
      (none of them on the remaining chain), the chain ends within `fuel` steps
      once `fuel` covers the rows not yet visited. */
  lemma {:induction false} ChainRooted(rows: seq<CategoryRow>, byId: map<int, nat>, i: nat, fuel: nat, seen: set<nat>)
    requires IndexMap(byId, |rows|) && i < |rows|
    requires forall j :: 0 <= j < |rows| ==> !OnCycle(rows, byId, j)
    requires forall s :: s in seen ==> s < |rows|
    requires i !in seen
    requires forall s, k: nat :: s in seen && Ancestor(rows, byId, i, k) == Some(s) ==> false
    requires fuel + |seen| >= |rows|
    ensures Rooted(rows, byId, i, fuel)
    decreases fuel
  {
    match ParentIn(byId, rows[i])
    case None =>
    case Some(j) =>
      var seen' := seen + {i};
      // every visited row and `i` itself are below |rows|, so fuel is positive
      SubsetCard(seen', |rows|);
      assert fuel > 0;
      forall s, k: nat | s in seen' && Ancestor(rows, byId, j, k) == Some(s)
        ensures false
      {
        assert Ancestor(rows, byId, i, k + 1) == Some(s);
        if s == i {
          assert OnCycle(rows, byId, i);
        }
      }
      assert j !in seen' by {
        assert Ancestor(rows, byId, j, 0) == Some(j);
      }
      ChainRooted(rows, byId, j, fuel - 1, seen');
  }

  /** A set of indices below `n` has at most `n` elements. */
  lemma {:induction false} SubsetCard(s: set<nat>, n: nat)
    requires forall x :: x in s ==> x < n
    ensures |s| <= n
  {
    if n > 0 {
      SubsetCard(s - {n - 1}, n - 1);
    }
  }
}
