/** Accounts kept in two tables, `sellers` and `clients`, each with its own id
    serial: creation picks the table by role, the update builds a numbered
    `SET` list over the supplied fields, and look-ups read sellers first. */
module UserModel {
  import opened Js

  /** A body field: left out (undefined), null, or text. */
  datatype Input = Undefined | Null | Text(s: string)

  /** A value bound to a query placeholder. */
  datatype SqlValue = SqlNull | SqlText(s: string) | SqlId(id: nat)

  /** A stored row: column name to value. */
  type Row = map<string, SqlValue>

  /** The value passed as is; the driver sends undefined as null. */
  function AsGiven(v: Input): SqlValue {
    match v
    case Text(s) => SqlText(s)
    case _ => SqlNull
  }

  /** `v || null`: the empty string is falsy too. */
  function TextOrNull(v: Input): (r: SqlValue)
    ensures r.SqlNull? <==> !(v.Text? && v.s != "")
    ensures v.Text? && v.s != "" ==> r == SqlText(v.s)
  {
    if v.Text? && v.s != "" then SqlText(v.s) else SqlNull
  }

  /** `String(v).toLowerCase()`. */
  function LowerText(v: Input): SqlValue {
    match v
    case Undefined => SqlText("undefined")
    case Null => SqlText("null")
    case Text(s) => SqlText(Lower(s))
  }

  // ---------------------------------------------------------------- createUser

  datatype NewUser = NewUser(
    name: Input, email: Input, passwordHash: Input, role: string,
    phone: Input, address: Input, avatarUrl: Input,
    storeName: Input, businessId: Input, description: Input,
    profileName: Input, dateOfBirth: Input)

  /** The row inserted into `sellers`. */
  function SellerRow(u: NewUser): Row {
    map["name" := AsGiven(u.name), "email" := LowerText(u.email), "password_hash" := AsGiven(u.passwordHash),
        "phone" := AsGiven(u.phone), "address" := TextOrNull(u.address), "avatar_url" := TextOrNull(u.avatarUrl),
        "store_name" := TextOrNull(u.storeName), "business_id" := TextOrNull(u.businessId),
        "description" := TextOrNull(u.description)]
  }

  /** The row inserted into `clients`; `profile_name` falls back to `name`. */
  function ClientRow(u: NewUser): Row {
    map["name" := AsGiven(u.name),
        "profile_name" := (if u.profileName.Text? && u.profileName.s != "" then SqlText(u.profileName.s) else AsGiven(u.name)),
        "email" := LowerText(u.email), "password_hash" := AsGiven(u.passwordHash),
        "phone" := AsGiven(u.phone), "address" := TextOrNull(u.address), "avatar_url" := TextOrNull(u.avatarUrl),
        "date_of_birth" := TextOrNull(u.dateOfBirth)]
  }

  /** What creation stores: the e-mail lower-cased, the table chosen by
      `role === "seller"`, and a client's profile name defaulting to the name. */
  lemma CreatedRowFields(u: NewUser)
    ensures SellerRow(u)["email"] == ClientRow(u)["email"]
    ensures u.email.Text? ==> SellerRow(u)["email"] == SqlText(Lower(u.email.s))
    ensures "store_name" in SellerRow(u) && "profile_name" !in SellerRow(u)
    ensures "profile_name" in ClientRow(u) && "store_name" !in ClientRow(u)
    ensures !(u.profileName.Text? && u.profileName.s != "") ==> ClientRow(u)["profile_name"] == ClientRow(u)["name"]
    ensures u.address == Text("") ==> SellerRow(u)["address"] == SqlNull && ClientRow(u)["address"] == SqlNull
  {
  }

  // ---------------------------------------------------------------- updateUser

  datatype UpdateFields = UpdateFields(
    name: Input, address: Input, email: Input, phone: Input, avatarUrl: Input, passwordHash: Input,
    businessName: Input, businessId: Input, description: Input,
    profileName: Input, dateOfBirth: Input)

  /** How a field's value is turned into the bound value. */
  datatype Coercion = AsIs | OrNull | ToLower

  function Coerce(c: Coercion, v: Input): SqlValue {
    match c
    case AsIs => AsGiven(v)
    case OrNull => TextOrNull(v)
    case ToLower => LowerText(v)
  }

  /** One guarded push of the update: the column, the field, its coercion. */
  datatype Candidate = Candidate(column: string, input: Input, coercion: Coercion)

  /** The guarded pushes in the order the update runs them: six shared fields, then
      the seller's or the client's own; any other role has none of its own. */
  function Candidates(role: string, f: UpdateFields): seq<Candidate> {
    [Candidate("name", f.name, AsIs), Candidate("address", f.address, OrNull),
     Candidate("email", f.email, ToLower), Candidate("phone", f.phone, OrNull),
     Candidate("avatar_url", f.avatarUrl, OrNull), Candidate("password_hash", f.passwordHash, AsIs)]
    + (if role == "seller" then
         [Candidate("store_name", f.businessName, OrNull), Candidate("business_id", f.businessId, OrNull),
          Candidate("description", f.description, OrNull)]
       else if role == "client" then
         [Candidate("profile_name", f.profileName, OrNull), Candidate("date_of_birth", f.dateOfBirth, OrNull)]
       else [])
  }

  datatype Assignment = Assignment(column: string, value: SqlValue)

  /** The assignments of the candidates whose field is not undefined, in order. */
  function Supplied(cs: seq<Candidate>): (r: seq<Assignment>)
    ensures |r| <= |cs|
    ensures forall a :: a in r <==>
      exists i :: 0 <= i < |cs| && !cs[i].input.Undefined? && a == Assignment(cs[i].column, Coerce(cs[i].coercion, cs[i].input))
  {
    if |cs| == 0 then []
    else
      var init := cs[..|cs| - 1];
      var c := cs[|cs| - 1];
      assert forall i :: 0 <= i < |init| ==> init[i] == cs[i];
      Supplied(init) + (if c.input.Undefined? then [] else [Assignment(c.column, Coerce(c.coercion, c.input))])
  }

  function Columns(as_: seq<Assignment>): (r: seq<string>)
    ensures |r| == |as_| && forall i :: 0 <= i < |as_| ==> r[i] == as_[i].column
  {
    seq(|as_|, i requires 0 <= i < |as_| => as_[i].column)
  }

  function BoundValues(as_: seq<Assignment>): (r: seq<SqlValue>)
    ensures |r| == |as_| && forall i :: 0 <= i < |as_| ==> r[i] == as_[i].value
  {
    seq(|as_|, i requires 0 <= i < |as_| => as_[i].value)
  }

  /** The positional parameter `$k`; its digits read back as `k`. */
  function Placeholder(k: nat): (r: string)
    ensures |r| >= 2 && r[0] == '$' && AllDigits(r[1..]) && DigitsValue(r[1..]) == k
  {
    var r := "$" + NatToString(k);
    assert r[1..] == NatToString(k);
    DigitsValueOfNatToString(k);
    r
  }

  /** `column = $k`. */
  function SetClause(column: string, k: nat): string {
    column + " = " + Placeholder(k)
  }

  /** The clauses for `columns`, numbered from 1. */
  function NumberedClauses(columns: seq<string>): (r: seq<string>)
    ensures |r| == |columns| && forall i :: 0 <= i < |columns| ==> r[i] == SetClause(columns[i], i + 1)
  {
    seq(|columns|, i requires 0 <= i < |columns| => SetClause(columns[i], i + 1))
  }

  function TableFor(role: string): string {
    if role == "seller" then "sellers" else "clients"
  }

  datatype UpdateStatement = UpdateStatement(table: string, text: string, values: seq<SqlValue>)

  /** The statement text around the joined clauses, with `$idx` for the id. */
  function StatementText(table: string, clauses: seq<string>, idx: nat): string {
    "UPDATE " + table + " SET " + Join(clauses, ", ")
      + ", updated_at = NOW() WHERE id = " + Placeholder(idx) + " RETURNING id"
  }

  /** The statement for a non-empty list of assignments; the id takes the next number. */
  function UpdateText(table: string, as_: seq<Assignment>): string {
    StatementText(table, NumberedClauses(Columns(as_)), |as_| + 1)
  }

  /** The clauses, the bound values and the next placeholder number for `as_`. */
  predicate Numbered(as_: seq<Assignment>, updates: seq<string>, values: seq<SqlValue>, idx: nat) {
    updates == NumberedClauses(Columns(as_)) && values == BoundValues(as_) && idx == |as_| + 1
  }

  /** The clause builder of `updateUser`: each defined field appends `column = $idx`
      and its value, and `idx` moves on; the id is bound last. No statement is
      issued when no field applies. */
  method BuildUpdate(userId: nat, role: string, f: UpdateFields) returns (stmt: Option<UpdateStatement>)
    ensures var as_ := Supplied(Candidates(role, f));
      && (stmt.None? <==> as_ == [])
      && (stmt.Some? ==>
            && stmt.value.table == TableFor(role)
            && stmt.value.text == UpdateText(TableFor(role), as_)
            && stmt.value.values == BoundValues(as_) + [SqlId(userId)])
  {
    var updates, values, idx := PushClauses(Candidates(role, f));
    assert |updates| == |Supplied(Candidates(role, f))|;
    if |updates| == 0 {
      return None;
    }
    var table := TableFor(role);
    values := values + [SqlId(userId)];
    var text := StatementText(table, updates, idx);
    stmt := Some(UpdateStatement(table, text, values));
  }

  /** The loop of the clause builder over the guarded pushes: each defined field
      appends `column = $idx` and its value, and `idx` moves on. */
  method PushClauses(cs: seq<Candidate>) returns (updates: seq<string>, values: seq<SqlValue>, idx: nat)
    ensures Numbered(Supplied(cs), updates, values, idx)
  {
    updates, values, idx := [], [], 1;
    for i := 0 to |cs|
      invariant Numbered(Supplied(cs[..i]), updates, values, idx)
    {
      var c := cs[i];
      ghost var before := Supplied(cs[..i]);
      SuppliedPrefix(cs, i);
      if !c.input.Undefined? {
        ghost var a := Assignment(c.column, Coerce(c.coercion, c.input));
        NumberedSnoc(before, a);
        BoundSnoc(before, a);
        updates := updates + [SetClause(c.column, idx)];
        idx := idx + 1;
        values := values + [Coerce(c.coercion, c.input)];
      }
    }
    assert cs[..|cs|] == cs;
  }

  /** The candidates up to `i` supply what those before `i` do, plus `i`'s own
      assignment when its field is defined. */
  lemma SuppliedPrefix(cs: seq<Candidate>, i: nat)
    requires i < |cs|
    ensures Supplied(cs[..i + 1]) == Supplied(cs[..i])
      + (if cs[i].input.Undefined? then [] else [Assignment(cs[i].column, Coerce(cs[i].coercion, cs[i].input))])
  {
    assert cs[..i + 1][..i] == cs[..i];
  }

  /** One more assignment adds one clause, numbered after the others. */
  lemma NumberedSnoc(as_: seq<Assignment>, a: Assignment)
    ensures NumberedClauses(Columns(as_ + [a])) == NumberedClauses(Columns(as_)) + [SetClause(a.column, |as_| + 1)]
  {
    var l, r := NumberedClauses(Columns(as_ + [a])), NumberedClauses(Columns(as_)) + [SetClause(a.column, |as_| + 1)];
    assert |l| == |r|;
    forall i | 0 <= i < |l|
      ensures l[i] == r[i]
    {
      if i < |as_| {
        assert (as_ + [a])[i] == as_[i];
      }
    }
  }

  /** One more assignment binds its value after the others. */
  lemma BoundSnoc(as_: seq<Assignment>, a: Assignment)
    ensures BoundValues(as_ + [a]) == BoundValues(as_) + [a.value]
  {
    var l, r := BoundValues(as_ + [a]), BoundValues(as_) + [a.value];
    assert |l| == |r|;
    forall i | 0 <= i < |l|
      ensures l[i] == r[i]
    {
      if i < |as_| {
        assert (as_ + [a])[i] == as_[i];
      }
    }
  }

  /** Placeholder `$k` binds `values[k-1]`: the k-th clause assigns the k-th supplied
      field's value, and the number after the last clause binds the user id. */
  lemma PlaceholdersBindInOrder(userId: nat, role: string, f: UpdateFields, k: nat)
    requires var as_ := Supplied(Candidates(role, f)); 1 <= k <= |as_|
    ensures var as_ := Supplied(Candidates(role, f));
      var values := BoundValues(as_) + [SqlId(userId)];
      && NumberedClauses(Columns(as_))[k - 1] == as_[k - 1].column + " = " + Placeholder(k)
      && values[k - 1] == as_[k - 1].value
      && values[|as_|] == SqlId(userId) && |values| == |as_| + 1
  {
  }

  /** A column is set iff its field is not undefined and belongs to the shared
      fields or to the role's own; it is then set to the coerced field value. */
  lemma SetIffSupplied(role: string, f: UpdateFields, column: string)
    ensures (exists v :: Assignment(column, v) in Supplied(Candidates(role, f))) <==>
      (column in CandidateColumns(role, f) && !InputOf(role, f, column).Undefined?)
  {
    var cs := Candidates(role, f);
    CandidateColumnsDistinct(role, f);
    if exists v :: Assignment(column, v) in Supplied(cs) {
      var v :| Assignment(column, v) in Supplied(cs);
      var i :| 0 <= i < |cs| && !cs[i].input.Undefined? && Assignment(column, v) == Assignment(cs[i].column, Coerce(cs[i].coercion, cs[i].input));
      InputOfIndex(role, f, i);
    }
    if column in CandidateColumns(role, f) && !InputOf(role, f, column).Undefined? {
      var i :| 0 <= i < |cs| && cs[i].column == column;
      InputOfIndex(role, f, i);
      assert Assignment(cs[i].column, Coerce(cs[i].coercion, cs[i].input)) in Supplied(cs);
    }
  }

  function CandidateColumns(role: string, f: UpdateFields): (r: seq<string>)
    ensures |r| == |Candidates(role, f)| && forall i :: 0 <= i < |r| ==> r[i] == Candidates(role, f)[i].column
  {
    ColumnsOf(Candidates(role, f))
  }

  function ColumnsOf(cs: seq<Candidate>): (r: seq<string>)
    ensures |r| == |cs| && forall i :: 0 <= i < |cs| ==> r[i] == cs[i].column
  {
    seq(|cs|, i requires 0 <= i < |cs| => cs[i].column)
  }

  /** The field read for a column (the first candidate naming it). */
  function InputOf(role: string, f: UpdateFields, column: string): Input {
    FirstInput(Candidates(role, f), column)
  }

  function FirstInput(cs: seq<Candidate>, column: string): Input {
    if |cs| == 0 then Input.Undefined
    else if cs[0].column == column then cs[0].input
    else FirstInput(cs[1..], column)
  }

  lemma {:induction false} FirstInputAt(cs: seq<Candidate>, i: nat)
    requires i < |cs|
    requires forall j :: 0 <= j < i ==> cs[j].column != cs[i].column
    ensures FirstInput(cs, cs[i].column) == cs[i].input
  {
    if i > 0 {
      FirstInputAt(cs[1..], i - 1);
    }
  }

  lemma InputOfIndex(role: string, f: UpdateFields, i: nat)
    requires i < |Candidates(role, f)|
    ensures InputOf(role, f, Candidates(role, f)[i].column) == Candidates(role, f)[i].input
  {
    CandidateColumnsDistinct(role, f);
    FirstInputAt(Candidates(role, f), i);
  }

  /** No column is pushed twice, whatever the role. */
  lemma CandidateColumnsDistinct(role: string, f: UpdateFields)
    ensures NoDuplicates(CandidateColumns(role, f))
  {
    var cols := CandidateColumns(role, f);
    var shared := ["name", "address", "email", "phone", "avatar_url", "password_hash"];
    if role == "seller" {
      assert cols == shared + ["store_name", "business_id", "description"];
    } else if role == "client" {
      assert cols == shared + ["profile_name", "date_of_birth"];
    } else {
      assert cols == shared;
    }
  }

  /** With every field undefined nothing is written. */
  lemma NothingSuppliedNoStatement(role: string)
    ensures var u := Input.Undefined;
      Supplied(Candidates(role, UpdateFields(u, u, u, u, u, u, u, u, u, u, u))) == []
  {
    var u := Input.Undefined;
    NoneDefinedNoneSupplied(Candidates(role, UpdateFields(u, u, u, u, u, u, u, u, u, u, u)));
  }

  lemma {:induction false} NoneDefinedNoneSupplied(cs: seq<Candidate>)
    requires forall i :: 0 <= i < |cs| ==> cs[i].input.Undefined?
    ensures Supplied(cs) == []
  {
    if |cs| > 0 {
      NoneDefinedNoneSupplied(cs[..|cs| - 1]);
    }
  }

  /** A seller's `profile_name` and a client's `store_name` are never written. */
  lemma RoleFieldsStayInTheirTable(f: UpdateFields)
    ensures forall v :: Assignment("profile_name", v) !in Supplied(Candidates("seller", f))
    ensures forall v :: Assignment("store_name", v) !in Supplied(Candidates("client", f))
  {
  }

  // ---------------------------------------------------------------- applying a SET list

  /** The row after `SET` with `as_`; a later assignment of a column wins. */
  function ApplySet(row: Row, as_: seq<Assignment>): (r: Row)
    ensures forall c :: c in r <==> c in row || c in Columns(as_)
    ensures forall c :: c in row && c !in Columns(as_) ==> r[c] == row[c]
  {
    if |as_| == 0 then row
    else
      var init := as_[..|as_| - 1];
      assert forall c :: c in Columns(init) ==> c in Columns(as_) by {
        assert forall i :: 0 <= i < |init| ==> init[i] == as_[i];
      }
      assert forall c :: c in Columns(as_) ==> c in Columns(init) || c == as_[|as_| - 1].column by {
        assert forall i :: 0 <= i < |init| ==> init[i] == as_[i];
      }
      ApplySet(row, init)[as_[|as_| - 1].column := as_[|as_| - 1].value]
  }

  /** With distinct columns every assigned column holds its assigned value. */
  lemma {:induction false} ApplySetAssigns(row: Row, as_: seq<Assignment>, i: nat)
    requires NoDuplicates(Columns(as_)) && i < |as_|
    ensures as_[i].column in ApplySet(row, as_) && ApplySet(row, as_)[as_[i].column] == as_[i].value
  {
    var n := |as_|;
    if i < n - 1 {
      var init := as_[..n - 1];
      assert Columns(init) == Columns(as_)[..n - 1];
      ApplySetAssigns(row, init, i);
      assert as_[n - 1].column != as_[i].column by {
        assert Columns(as_)[i] != Columns(as_)[n - 1];
      }
    }
  }

  /** Filtering keeps the columns distinct. */
  lemma {:induction false} SuppliedColumnsDistinct(cs: seq<Candidate>)
    requires NoDuplicates(ColumnsOf(cs))
    ensures NoDuplicates(Columns(Supplied(cs)))
    ensures forall c :: c in Columns(Supplied(cs)) ==> c in ColumnsOf(cs)
  {
    if |cs| > 0 {
      var init := cs[..|cs| - 1];
      var last := cs[|cs| - 1];
      assert ColumnsOf(init) == ColumnsOf(cs)[..|cs| - 1];
      SuppliedColumnsDistinct(init);
      var prev := Columns(Supplied(init));
      forall c | c in prev
        ensures c != last.column && c in ColumnsOf(cs)
      {
        var i :| 0 <= i < |init| && ColumnsOf(init)[i] == c;
        assert ColumnsOf(cs)[i] == c;
        assert ColumnsOf(cs)[|cs| - 1] == last.column;
      }
      var r := Supplied(cs);
      if last.input.Undefined? {
        assert r == Supplied(init);
      } else {
        assert Columns(r) == prev + [last.column];
        assert last.column in ColumnsOf(cs) by {
          assert ColumnsOf(cs)[|cs| - 1] == last.column;
        }
      }
    }
  }

  // ---------------------------------------------------------------- the account tables

  datatype Account = Account(role: string, row: Row)

  class AccountStore {
    var sellers: map<nat, Row>
    var clients: map<nat, Row>
    var nextSellerId: nat
    var nextClientId: nat

    ghost predicate Valid()
      reads this
    {
      (forall id :: id in sellers ==> id < nextSellerId) && (forall id :: id in clients ==> id < nextClientId)
    }

    constructor ()
      ensures Valid() && sellers == map[] && clients == map[]
    {
      sellers := map[];
      clients := map[];
      nextSellerId := 1;
      nextClientId := 1;
    }

    /** `getUserById`: the union lists sellers before clients, so when both tables
        hold the id the seller is returned. */
    function GetUserById(id: nat): (r: Option<Account>)
      reads this
      ensures r.None? <==> id !in sellers && id !in clients
      ensures id in sellers ==> r == Some(Account("seller", sellers[id]))
      ensures id !in sellers && id in clients ==> r == Some(Account("client", clients[id]))
    {
      if id in sellers then Some(Account("seller", sellers[id]))
      else if id in clients then Some(Account("client", clients[id]))
      else None
    }

    /** `createUser`: inserts into the table the role selects and reads the new id back. */
    method CreateUser(u: NewUser) returns (id: nat, user: Option<Account>)
      requires Valid()
      modifies this
      ensures Valid()
      ensures u.role == "seller" ==>
        && id == old(nextSellerId) && id !in old(sellers)
        && sellers == old(sellers)[id := SellerRow(u)] && clients == old(clients)
      ensures u.role != "seller" ==>
        && id == old(nextClientId) && id !in old(clients)
        && clients == old(clients)[id := ClientRow(u)] && sellers == old(sellers)
      ensures user == GetUserById(id)
    {
      if u.role == "seller" {
        id := nextSellerId;
        sellers := sellers[id := SellerRow(u)];
        nextSellerId := nextSellerId + 1;
      } else {
        id := nextClientId;
        clients := clients[id := ClientRow(u)];
        nextClientId := nextClientId + 1;
      }
      user := GetUserById(id);
    }

    /** `updateUser`: applies the built statement to the row with that id in the
        role's table (none when no row has it), then reads the account back. */
    method UpdateUser(userId: nat, role: string, f: UpdateFields) returns (user: Option<Account>)
      requires Valid()
      modifies this
      ensures Valid() && nextSellerId == old(nextSellerId) && nextClientId == old(nextClientId)
      ensures var as_ := Supplied(Candidates(role, f));
        && (role == "seller" ==>
              && clients == old(clients)
              && sellers == (if userId in old(sellers) then old(sellers)[userId := ApplySet(old(sellers)[userId], as_)] else old(sellers)))
        && (role != "seller" ==>
              && sellers == old(sellers)
              && clients == (if userId in old(clients) then old(clients)[userId := ApplySet(old(clients)[userId], as_)] else old(clients)))
      ensures user == GetUserById(userId)
    {
      var stmt := BuildUpdate(userId, role, f);
      var as_ := Supplied(Candidates(role, f));
      if stmt.Some? {
        if role == "seller" {
          if userId in sellers {
            sellers := sellers[userId := ApplySet(sellers[userId], as_)];
          }
        } else if userId in clients {
          clients := clients[userId := ApplySet(clients[userId], as_)];
        }
      }
      user := GetUserById(userId);
    }

    /** `deleteUserById`: removes the account `getUserById` finds, from its table. */
    method DeleteUserById(userId: nat)
      requires Valid()
      modifies this
      ensures Valid()
      ensures old(GetUserById(userId)).None? ==> sellers == old(sellers) && clients == old(clients)
      ensures userId in old(sellers) ==> sellers == old(sellers) - {userId} && clients == old(clients)
      ensures userId !in old(sellers) ==> sellers == old(sellers) && clients == old(clients) - {userId}
    {
      var user := GetUserById(userId);
      if user.None? {
        return;
      }
      if user.value.role == "seller" {
        sellers := sellers - {userId};
      } else {
        clients := clients - {userId};
      }
    }
  }

  /** An update leaves every column it does not name as it was, and sets every
      column it names to the coerced field value. */
  lemma UpdateTouchesOnlySupplied(row: Row, role: string, f: UpdateFields)
    ensures var as_ := Supplied(Candidates(role, f));
      var r := ApplySet(row, as_);
      && (forall c :: c in row && c !in Columns(as_) ==> r[c] == row[c])
      && (forall i :: 0 <= i < |as_| ==> r[as_[i].column] == as_[i].value)
  {
    var cs := Candidates(role, f);
    CandidateColumnsDistinct(role, f);
    SuppliedColumnsDistinct(cs);
    var as_ := Supplied(cs);
    forall i | 0 <= i < |as_|
      ensures ApplySet(row, as_)[as_[i].column] == as_[i].value
    {
      ApplySetAssigns(row, as_, i);
    }
  }
}
