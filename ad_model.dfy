/** The ad search of the ads model: an optional category and an optional size
    become numbered `WHERE` conditions joined by `AND`. */
module AdModel {
  import opened Js
  import opened UserModel

  /** A supplied filter: the column it tests and the value it binds. */
  datatype AdFilter = AdFilter(column: string, value: int)

  /** A filter value as the controller passes it: null, or a number (0 is falsy). */
  predicate Given(v: Option<int>) {
    v.Some? && v.value != 0
  }

  const CategoryColumn := "a.category_id"
  const SizeColumn := "a.size_id"

  /** The truthy filters, category first. */
  function AdFilters(categoryId: Option<int>, sizeId: Option<int>): seq<AdFilter> {
    FilterIf(CategoryColumn, categoryId) + FilterIf(SizeColumn, sizeId)
  }

  function NumberedAdConditions(fs: seq<AdFilter>): (r: seq<string>)
    ensures |r| == |fs| && forall i :: 0 <= i < |fs| ==> r[i] == fs[i].column + " = " + Placeholder(i + 1)
  {
    seq(|fs|, i requires 0 <= i < |fs| => fs[i].column + " = " + Placeholder(i + 1))
  }

  function AdParams(fs: seq<AdFilter>): (r: seq<int>)
    ensures |r| == |fs| && forall i :: 0 <= i < |fs| ==> r[i] == fs[i].value
  {
    seq(|fs|, i requires 0 <= i < |fs| => fs[i].value)
  }

  /** No clause at all without conditions, else `WHERE` and the conditions. */
  function WhereClause(conditions: seq<string>): (r: string)
    ensures r == "" <==> conditions == []
  {
    if |conditions| == 0 then "" else "WHERE " + Join(conditions, " AND ")
  }

  /** The statement, newest ads first. */
  function AdsSql(whereClause: string): string {
    "SELECT a.id, a.title, a.category_id, a.size_id, a.price, a.created_at, s.label AS size_label,"
      + " c.name AS category_name FROM ads a INNER JOIN sizes s ON s.id = a.size_id"
      + " INNER JOIN categories c ON c.id = a.category_id " + whereClause + " ORDER BY a.created_at DESC"
  }

  function FilterIf(column: string, v: Option<int>): seq<AdFilter> {
    if Given(v) then [AdFilter(column, v.value)] else []
  }

  /** One guarded push of `findAds`. */
  method PushAdFilter(column: string, v: Option<int>, conditions: seq<string>, params: seq<int>, idx: nat,
                      ghost fs: seq<AdFilter>)
    returns (conditions': seq<string>, params': seq<int>, idx': nat)
    requires conditions == NumberedAdConditions(fs) && params == AdParams(fs) && idx == |fs| + 1
    ensures conditions' == NumberedAdConditions(fs + FilterIf(column, v))
    ensures params' == AdParams(fs + FilterIf(column, v))
    ensures idx' == |fs + FilterIf(column, v)| + 1
  {
    conditions', params', idx' := conditions, params, idx;
    if Given(v) {
      conditions' := conditions + [column + " = " + Placeholder(idx)];
      params' := params + [v.value];
      idx' := idx + 1;
      ghost var fs' := fs + [AdFilter(column, v.value)];
      assert NumberedAdConditions(fs') == NumberedAdConditions(fs) + [column + " = " + Placeholder(idx)];
      assert AdParams(fs') == AdParams(fs) + [v.value];
    } else {
      assert fs + FilterIf(column, v) == fs;
    }
  }

  /** `findAds`: each truthy filter pushes its condition around the next
      placeholder and its value, then the conditions are joined. */
  method FindAdsQuery(categoryId: Option<int>, sizeId: Option<int>) returns (sql: string, params: seq<int>)
    ensures var fs := AdFilters(categoryId, sizeId);
      sql == AdsSql(WhereClause(NumberedAdConditions(fs))) && params == AdParams(fs)
  {
    var conditions: seq<string> := [];
    params := [];
    var idx: nat := 1;
    ghost var fs: seq<AdFilter> := [];
    assert NumberedAdConditions([]) == [] && AdParams([]) == [];
    conditions, params, idx := PushAdFilter(CategoryColumn, categoryId, conditions, params, idx, fs);
    fs := fs + FilterIf(CategoryColumn, categoryId);
    conditions, params, idx := PushAdFilter(SizeColumn, sizeId, conditions, params, idx, fs);
    fs := fs + FilterIf(SizeColumn, sizeId);
    assert [] + FilterIf(CategoryColumn, categoryId) == FilterIf(CategoryColumn, categoryId);
    assert fs == AdFilters(categoryId, sizeId);
    assert conditions == NumberedAdConditions(AdFilters(categoryId, sizeId));
    var whereClause := WhereClause(conditions);
    sql := AdsSql(whereClause);
  }

  /** Without filters there is no `WHERE` clause. */
  lemma NoFiltersNoWhere(categoryId: Option<int>, sizeId: Option<int>)
    requires !Given(categoryId) && !Given(sizeId)
    ensures WhereClause(NumberedAdConditions(AdFilters(categoryId, sizeId))) == ""
    ensures AdParams(AdFilters(categoryId, sizeId)) == []
  {
  }

  /** A category alone binds `$1` to the category, a size alone binds `$1` to the
      size, and both bind the category to `$1` and the size to `$2`. */
  lemma FilterPlaceholders(categoryId: Option<int>, sizeId: Option<int>)
    ensures var fs := AdFilters(categoryId, sizeId);
      var conditions := NumberedAdConditions(fs);
      var params := AdParams(fs);
      && (Given(categoryId) && !Given(sizeId) ==>
            conditions == ["a.category_id = $1"] && params == [categoryId.value])
      && (!Given(categoryId) && Given(sizeId) ==>
            conditions == ["a.size_id = $1"] && params == [sizeId.value])
      && (Given(categoryId) && Given(sizeId) ==>
            conditions == ["a.category_id = $1", "a.size_id = $2"] && params == [categoryId.value, sizeId.value])
      && (conditions != [] ==> WhereClause(conditions)[..6] == "WHERE ")
  {
    assert Placeholder(1) == "$1" by {
      assert NatToString(1) == "1";
    }
    assert Placeholder(2) == "$2" by {
      assert NatToString(2) == "2";
    }
    var fs := AdFilters(categoryId, sizeId);
    var conditions := NumberedAdConditions(fs);
    if Given(categoryId) && Given(sizeId) {
      assert fs == [AdFilter(CategoryColumn, categoryId.value), AdFilter(SizeColumn, sizeId.value)];
      assert conditions[0] == "a.category_id = $1" && conditions[1] == "a.size_id = $2";
    } else if Given(categoryId) {
      assert fs == [AdFilter(CategoryColumn, categoryId.value)];
      assert conditions[0] == "a.category_id = $1";
    } else if Given(sizeId) {
      assert fs == [AdFilter(SizeColumn, sizeId.value)];
      assert conditions[0] == "a.size_id = $1";
    }
  }
}
