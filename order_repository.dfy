/** src/order/repositories/order.repository.ts: reading, inserting and
    partially updating rows of `orders`. */
module OrderRepositories {
  import opened Models
  import opened Schema
  import opened SqlText

  // ---------------------------------------------------------------------
  // Columns of `orders` and how an UPDATE names them
  // ---------------------------------------------------------------------

  /** The columns of `orders` (db/seed.ts:49-60). */
  datatype Column =
    | IdColumn | UserIdColumn | CartIdColumn | PaymentColumn | DeliveryColumn
    | CommentsColumn | StatusColumn | TotalColumn | CreatedAtColumn | UpdatedAtColumn

  function ColumnName(c: Column): string {
    match c
    case IdColumn => "id"
    case UserIdColumn => "user_id"
    case CartIdColumn => "cart_id"
    case PaymentColumn => "payment"
    case DeliveryColumn => "delivery"
    case CommentsColumn => "comments"
    case StatusColumn => "status"
    case TotalColumn => "total"
    case CreatedAtColumn => "created_at"
    case UpdatedAtColumn => "updated_at"
  }

  function LowerChar(c: char): char {
    if 'A' <= c <= 'Z' then (c as int + 32) as char else c
  }

  /** An unquoted SQL identifier is folded to lower case before it is looked up. */
  function FoldCase(s: string): (r: string)
    ensures |r| == |s|
    ensures forall i :: 0 <= i < |s| ==> r[i] == LowerChar(s[i])
  {
    if s == [] then [] else [LowerChar(s[0])] + FoldCase(s[1..])
  }

  /** The columns in the order of the CREATE TABLE. */
  const Columns: seq<Column> := [IdColumn, UserIdColumn, CartIdColumn, PaymentColumn, DeliveryColumn,
                                 CommentsColumn, StatusColumn, TotalColumn, CreatedAtColumn, UpdatedAtColumn]

  /** Every column is among `Columns`. */
  lemma AllColumnsListed()
    ensures forall c: Column :: c in Columns
  {
    forall c: Column ensures c in Columns {
      match c
      case IdColumn => assert Columns[0] == c;
      case UserIdColumn => assert Columns[1] == c;
      case CartIdColumn => assert Columns[2] == c;
      case PaymentColumn => assert Columns[3] == c;
      case DeliveryColumn => assert Columns[4] == c;
      case CommentsColumn => assert Columns[5] == c;
      case StatusColumn => assert Columns[6] == c;
      case TotalColumn => assert Columns[7] == c;
      case CreatedAtColumn => assert Columns[8] == c;
      case UpdatedAtColumn => assert Columns[9] == c;
    }
  }

  /** The first of `cols` whose name is `name`. */
  function Lookup(name: string, cols: seq<Column>): (r: Option<Column>)
    ensures r.Some? ==> ColumnName(r.value) == name
    ensures r.None? ==> forall c :: c in cols ==> ColumnName(c) != name
  {
    if cols == [] then None
    else if ColumnName(cols[0]) == name then Some(cols[0])
    else Lookup(name, cols[1..])
  }

  /** The column a (folded) identifier names, if any. */
  function ResolveColumn(name: string): (r: Option<Column>)
    ensures r.Some? ==> ColumnName(r.value) == name
    ensures r.None? ==> forall c: Column :: ColumnName(c) != name
  {
    AllColumnsListed();
    Lookup(name, Columns)
  }

  /** The column that `${key} = ...` assigns: the key is spliced into the SQL
      text as an unquoted identifier. */
  function ColumnOf(key: string): (r: Option<Column>)
    ensures r.Some? <==> exists c: Column :: ColumnName(c) == FoldCase(key)
    ensures r.Some? ==> ColumnName(r.value) == FoldCase(key)
  {
    ResolveColumn(FoldCase(key))
  }

  // ---------------------------------------------------------------------
  // Parameters and the row they are written into
  // ---------------------------------------------------------------------

  /** A value bound to a `$n` placeholder, by the JavaScript type it has. */
  datatype Param =
    | UuidParam(uuid: Uuid)
    | JsonParam(json: Json)
    | TextParam(text: string)
    | NumberParam(cents: int)
    | TimeParam(time: Timestamp)
    | NullParam

  /** One `[key, value]` of `Object.entries(data)`. */
  datatype Entry = Entry(key: string, value: Param)

  /** A column of a row, as the parameter that would store it. */
  function Get(o: Order, c: Column): Param {
    match c
    case IdColumn => UuidParam(o.id)
    case UserIdColumn => UuidParam(o.userId)
    case CartIdColumn => UuidParam(o.cartId)
    case PaymentColumn => JsonParam(o.payment)
    case DeliveryColumn => JsonParam(o.delivery)
    case CommentsColumn => if o.comments.Some? then TextParam(o.comments.value) else NullParam
    case StatusColumn => TextParam(OrderStatusName(o.status))
    case TotalColumn => NumberParam(o.total)
    case CreatedAtColumn => TimeParam(o.createdAt)
    case UpdatedAtColumn => TimeParam(o.updatedAt)
  }

  /** The columns are the whole row: two rows that agree on every column are equal. */
  lemma {:induction false} GetDeterminesRow(a: Order, b: Order)
    requires forall c: Column :: Get(a, c) == Get(b, c)
    ensures a == b
  {
    assert Get(a, IdColumn) == Get(b, IdColumn);
    assert Get(a, UserIdColumn) == Get(b, UserIdColumn);
    assert Get(a, CartIdColumn) == Get(b, CartIdColumn);
    assert Get(a, PaymentColumn) == Get(b, PaymentColumn);
    assert Get(a, DeliveryColumn) == Get(b, DeliveryColumn);
    assert Get(a, CommentsColumn) == Get(b, CommentsColumn);
    assert Get(a, TotalColumn) == Get(b, TotalColumn);
    assert Get(a, CreatedAtColumn) == Get(b, CreatedAtColumn);
    assert Get(a, UpdatedAtColumn) == Get(b, UpdatedAtColumn);
    assert OrderStatusName(a.status) == OrderStatusName(b.status) by {
      assert Get(a, StatusColumn) == Get(b, StatusColumn);
    }
    assert ParseOrderStatus(OrderStatusName(a.status)) == Some(a.status);
    assert ParseOrderStatus(OrderStatusName(b.status)) == Some(b.status);
  }

  /** Whether Postgres can read the parameter as the column's type; NULL reads as any type. */
  predicate Bindable(c: Column, v: Param) {
    || v.NullParam?
    || match c
       case IdColumn => v.UuidParam?
       case UserIdColumn => v.UuidParam?
       case CartIdColumn => v.UuidParam?
       case PaymentColumn => v.JsonParam?
       case DeliveryColumn => v.JsonParam?
       case CommentsColumn => v.TextParam?
       case StatusColumn => v.TextParam?
       case TotalColumn => v.NumberParam?
       case CreatedAtColumn => v.TimeParam?
       case UpdatedAtColumn => v.TimeParam?
  }

  /** Whether the column constraints admit the value: only `comments` is
      nullable, `status` has its CHECK and `total` is NUMERIC(10, 2). */
  predicate Admissible(c: Column, v: Param) {
    && (v.NullParam? ==> c == CommentsColumn)
    && (c == StatusColumn && v.TextParam? ==> ParseOrderStatus(v.text).Some?)
    && (c == TotalColumn && v.NumberParam? ==> FitsNumeric10_2(v.cents))
  }

  /** Writes one column of a row. */
  function Assign(o: Order, c: Column, v: Param): (r: Result<Order>)
    requires Bindable(c, v)
    ensures r.Ok? <==> Admissible(c, v)
    ensures r.Ok? ==> Get(r.value, c) == v
    ensures r.Ok? ==> forall d: Column :: d != c ==> Get(r.value, d) == Get(o, d)
  {
    if v.NullParam? then
      if c == CommentsColumn then Ok(o.(comments := None)) else Err(NotNullViolation)
    else
      match c
      case IdColumn => Ok(o.(id := v.uuid))
      case UserIdColumn => Ok(o.(userId := v.uuid))
      case CartIdColumn => Ok(o.(cartId := v.uuid))
      case PaymentColumn => Ok(o.(payment := v.json))
      case DeliveryColumn => Ok(o.(delivery := v.json))
      case CommentsColumn => Ok(o.(comments := Some(v.text)))
      case StatusColumn =>
        var s := ParseOrderStatus(v.text);
        if s.None? then Err(CheckViolation)
        else
          ParseOrderStatusName(v.text);
          Ok(o.(status := s.value))
      case TotalColumn =>
        if FitsNumeric10_2(v.cents) then Ok(o.(total := v.cents)) else Err(OutOfRange)
      case CreatedAtColumn => Ok(o.(createdAt := v.time))
      case UpdatedAtColumn => Ok(o.(updatedAt := v.time))
  }

  // ---------------------------------------------------------------------
  // The SET clause
  // ---------------------------------------------------------------------

  /** `column = $n` after the keys have been resolved. */
  datatype Assignment = Assignment(column: Column, value: Param)

  /** The columns the entries name, or None when some key names no column. */
  function ResolveEntries(data: seq<Entry>): (r: Option<seq<Assignment>>)
    ensures r.Some? <==> forall i :: 0 <= i < |data| ==> ColumnOf(data[i].key).Some?
    ensures r.Some? ==> |r.value| == |data|
    ensures r.Some? ==> forall i :: 0 <= i < |data| ==>
      r.value[i] == Assignment(ColumnOf(data[i].key).value, data[i].value)
  {
    if data == [] then Some([])
    else
      var head := ColumnOf(data[0].key);
      var tail := ResolveEntries(data[1..]);
      assert forall i :: 1 <= i < |data| ==> data[i] == data[1..][i - 1];
      if head.None? || tail.None? then None
      else Some([Assignment(head.value, data[0].value)] + tail.value)
  }

  /** No column is assigned twice, counting the `updated_at = NOW()` the
      statement always appends. */
  predicate DistinctColumns(asg: seq<Assignment>) {
    && (forall i, j :: 0 <= i < j < |asg| ==> asg[i].column != asg[j].column)
    && (forall i :: 0 <= i < |asg| ==> asg[i].column != UpdatedAtColumn)
  }

  predicate AllBindable(asg: seq<Assignment>) {
    forall i :: 0 <= i < |asg| ==> Bindable(asg[i].column, asg[i].value)
  }

  /** The row with every assignment of the SET clause applied. */
  function ApplyAssignments(o: Order, asg: seq<Assignment>): (r: Result<Order>)
    requires AllBindable(asg)
    decreases |asg|
    ensures r.Ok? <==> forall i :: 0 <= i < |asg| ==> Admissible(asg[i].column, asg[i].value)
    ensures r.Ok? && FitsNumeric10_2(o.total) ==> FitsNumeric10_2(r.value.total)
  {
    if asg == [] then Ok(o)
    else
      var first := Assign(o, asg[0].column, asg[0].value);
      assert forall i :: 1 <= i < |asg| ==> asg[i] == asg[1..][i - 1];
      if first.Err? then first
      else
        assert Get(first.value, TotalColumn) == NumberParam(first.value.total);
        ApplyAssignments(first.value, asg[1..])
  }

  /** The SET clause writes exactly the columns it names, each with its value. */
  lemma {:induction false} ApplyAssignmentsColumns(o: Order, asg: seq<Assignment>)
    requires AllBindable(asg)
    requires DistinctColumns(asg)
    requires ApplyAssignments(o, asg).Ok?
    decreases |asg|
    ensures forall i :: 0 <= i < |asg| ==> Get(ApplyAssignments(o, asg).value, asg[i].column) == asg[i].value
    ensures forall c: Column :: (forall i :: 0 <= i < |asg| ==> asg[i].column != c) ==>
      Get(ApplyAssignments(o, asg).value, c) == Get(o, c)
  {
    if asg != [] {
      var first := Assign(o, asg[0].column, asg[0].value);
      assert forall i :: 1 <= i < |asg| ==> asg[i] == asg[1..][i - 1];
      ApplyAssignmentsColumns(first.value, asg[1..]);
    }
  }

  /** The effect of `UPDATE orders SET <data>, updated_at = NOW() WHERE id = $n`
      on the table, in the order analysis, binding and execution reject it. */
  function UpdateResult(orders: map<Uuid, Order>, carts: map<Uuid, CartRecord>, orderId: Uuid,
                        data: seq<Entry>, now: Timestamp): (r: Result<Order>)
    ensures data == [] ==> r == Err(SyntaxError)
    ensures data != [] && (exists i :: 0 <= i < |data| && ColumnOf(data[i].key).None?) ==> r == Err(UndefinedColumn)
    ensures r.Ok? ==> orderId in orders && r.value.updatedAt == now
    ensures r.Ok? ==> r.value.cartId in carts && (r.value.id == orderId || r.value.id !in orders)
    ensures r.Ok? && FitsNumeric10_2(orders[orderId].total) ==> FitsNumeric10_2(r.value.total)
  {
    if data == [] then Err(SyntaxError)
    else
      var asg := ResolveEntries(data);
      if asg.None? then Err(UndefinedColumn)
      else if !DistinctColumns(asg.value) then Err(DuplicateColumn)
      else if !AllBindable(asg.value) then Err(TypeMismatch)
      else if orderId !in orders then Err(RowNotFound)
      else
        var applied := ApplyAssignments(orders[orderId], asg.value);
        if applied.Err? then Err(applied.error)
        else
          var row := applied.value.(updatedAt := now);
          if row.id != orderId && row.id in orders then Err(UniqueViolation)
          else if row.cartId !in carts then Err(ForeignKeyViolation)
          else Ok(row)
  }

  /** A successful update is the SET clause applied to the row it selected. */
  lemma UpdateResultRow(orders: map<Uuid, Order>, carts: map<Uuid, CartRecord>,
                        orderId: Uuid, data: seq<Entry>, now: Timestamp)
    requires UpdateResult(orders, carts, orderId, data, now).Ok?
    ensures ResolveEntries(data).Some?
    ensures DistinctColumns(ResolveEntries(data).value) && AllBindable(ResolveEntries(data).value)
    ensures ApplyAssignments(orders[orderId], ResolveEntries(data).value).Ok?
    ensures UpdateResult(orders, carts, orderId, data, now).value
      == ApplyAssignments(orders[orderId], ResolveEntries(data).value).value.(updatedAt := now)
  {
    assert data != [];
    var asg := ResolveEntries(data);
    assert asg.Some?;
    assert DistinctColumns(asg.value) && AllBindable(asg.value);
    assert orderId in orders;
    var applied := ApplyAssignments(orders[orderId], asg.value);
    assert applied.Ok?;
    assert UpdateResult(orders, carts, orderId, data, now).value == applied.value.(updatedAt := now);
  }

  /** Setting updated_at changes no other column. */
  lemma SetUpdatedAtKeepsOthers(o: Order, now: Timestamp, c: Column)
    requires c != UpdatedAtColumn
    ensures Get(o.(updatedAt := now), c) == Get(o, c)
  {
  }

  /** After the SET clause and `updated_at = NOW()`, every entry's column
      holds that entry's value. */
  lemma {:induction false} SetClauseWritesEntries(o: Order, data: seq<Entry>, asg: seq<Assignment>,
                                                  now: Timestamp, row: Order)
    requires ResolveEntries(data) == Some(asg)
    requires DistinctColumns(asg) && AllBindable(asg)
    requires ApplyAssignments(o, asg).Ok?
    requires row == ApplyAssignments(o, asg).value.(updatedAt := now)
    ensures forall i :: 0 <= i < |data| ==>
      && ColumnOf(data[i].key).Some?
      && Get(row, ColumnOf(data[i].key).value) == data[i].value
  {
    var applied := ApplyAssignments(o, asg).value;
    ApplyAssignmentsColumns(o, asg);
    forall i | 0 <= i < |data|
      ensures ColumnOf(data[i].key).Some? && Get(row, ColumnOf(data[i].key).value) == data[i].value
    {
      assert asg[i] == Assignment(ColumnOf(data[i].key).value, data[i].value);
      SetUpdatedAtKeepsOthers(applied, now, asg[i].column);
    }
  }

  /** ... and every column no entry names, other than updated_at, is as it was. */
  lemma {:induction false} SetClauseKeepsOthers(o: Order, data: seq<Entry>, asg: seq<Assignment>,
                                                now: Timestamp, row: Order)
    requires ResolveEntries(data) == Some(asg)
    requires DistinctColumns(asg) && AllBindable(asg)
    requires ApplyAssignments(o, asg).Ok?
    requires row == ApplyAssignments(o, asg).value.(updatedAt := now)
    ensures forall c: Column ::
      c != UpdatedAtColumn && (forall i :: 0 <= i < |data| ==> ColumnOf(data[i].key) != Some(c)) ==>
      Get(row, c) == Get(o, c)
  {
    var applied := ApplyAssignments(o, asg).value;
    ApplyAssignmentsColumns(o, asg);
    forall c: Column | c != UpdatedAtColumn && (forall i :: 0 <= i < |data| ==> ColumnOf(data[i].key) != Some(c))
      ensures Get(row, c) == Get(o, c)
    {
      assert forall i :: 0 <= i < |asg| ==> asg[i].column != c;
      SetUpdatedAtKeepsOthers(applied, now, c);
    }
  }

  /** A successful update writes every supplied key's value into its column,
      sets updated_at, and leaves every other column as it was. */
  lemma UpdateWritesExactlySuppliedKeys(orders: map<Uuid, Order>, carts: map<Uuid, CartRecord>,
                                        orderId: Uuid, data: seq<Entry>, now: Timestamp)
    requires UpdateResult(orders, carts, orderId, data, now).Ok?
    ensures var row := UpdateResult(orders, carts, orderId, data, now).value;
      && (forall i :: 0 <= i < |data| ==>
            && ColumnOf(data[i].key).Some?
            && Get(row, ColumnOf(data[i].key).value) == data[i].value)
      && Get(row, UpdatedAtColumn) == TimeParam(now)
      && (forall c: Column ::
            c != UpdatedAtColumn && (forall i :: 0 <= i < |data| ==> ColumnOf(data[i].key) != Some(c)) ==>
            Get(row, c) == Get(orders[orderId], c))
  {
    UpdateResultRow(orders, carts, orderId, data, now);
    var asg := ResolveEntries(data).value;
    var row := UpdateResult(orders, carts, orderId, data, now).value;
    SetClauseWritesEntries(orders[orderId], data, asg, now, row);
    SetClauseKeepsOthers(orders[orderId], data, asg, now, row);
  }

  /** No column name has nine letters. */
  lemma NineLetterKeyNamesNoColumn(key: string)
    requires |key| == 9
    ensures ColumnOf(key) == None
  {
  }

  /** The only six-letter column name is `status`. */
  lemma SixLetterKeyNamesNoColumn(key: string)
    requires |key| == 6 && LowerChar(key[0]) != 's'
    ensures ColumnOf(key) == None
  {
    assert FoldCase(key)[0] != 's';
  }

  /** `userId`, `cartId`, `createdAt` or `updatedAt` among the keys makes the update fail. */
  lemma CamelCaseKeyFails(orders: map<Uuid, Order>, carts: map<Uuid, CartRecord>,
                          orderId: Uuid, data: seq<Entry>, now: Timestamp, i: nat)
    requires i < |data|
    requires data[i].key == "userId" || data[i].key == "cartId"
          || data[i].key == "createdAt" || data[i].key == "updatedAt"
    ensures UpdateResult(orders, carts, orderId, data, now) == Err(UndefinedColumn)
  {
    if data[i].key == "userId" || data[i].key == "cartId" {
      SixLetterKeyNamesNoColumn(data[i].key);
    } else {
      NineLetterKeyNamesNoColumn(data[i].key);
    }
  }

  /** `total` is already in lower case. */
  lemma TotalIsFolded()
    ensures FoldCase("total") == "total"
  {
  }

  lemma TotalKeyNamesTotal()
    ensures ColumnOf("total") == Some(TotalColumn)
  {
    TotalIsFolded();
    assert ResolveColumn("total") == Some(TotalColumn);
  }

  /** Nothing stops an update from rewriting the order's total. */
  lemma {:induction false} TotalIsUpdatable(orders: map<Uuid, Order>, carts: map<Uuid, CartRecord>,
                                            orderId: Uuid, cents: int, now: Timestamp)
    requires orderId in orders && orders[orderId].id == orderId && orders[orderId].cartId in carts
    requires FitsNumeric10_2(cents)
    ensures UpdateResult(orders, carts, orderId, [Entry("total", NumberParam(cents))], now)
      == Ok(orders[orderId].(total := cents, updatedAt := now))
  {
    TotalKeyNamesTotal();
    var data := [Entry("total", NumberParam(cents))];
    assert data[1..] == [];
    assert ColumnOf(data[0].key) == Some(TotalColumn);
    assert ResolveEntries(data[1..]) == Some([]);
    assert [Assignment(TotalColumn, NumberParam(cents))] + [] == [Assignment(TotalColumn, NumberParam(cents))];
    var asg := [Assignment(TotalColumn, NumberParam(cents))];
    assert ResolveEntries(data) == Some(asg);
    assert DistinctColumns(asg) && AllBindable(asg);
    assert asg[1..] == [];
    assert ApplyAssignments(orders[orderId], asg).Ok?;
    var expected := orders[orderId].(total := cents, updatedAt := now);
    var row := UpdateResult(orders, carts, orderId, data, now).value;
    UpdateWritesExactlySuppliedKeys(orders, carts, orderId, data, now);
    forall c: Column ensures Get(row, c) == Get(expected, c) {
      if c != TotalColumn && c != UpdatedAtColumn {
        assert ColumnOf(data[0].key) != Some(c);
      }
    }
    GetDeterminesRow(row, expected);
  }

  /** Folding case never produces an underscore, so a key without one cannot
      name `user_id`, `cart_id`, `created_at` or `updated_at`. */
  lemma UnderscoreFreeKeyColumn(key: string)
    requires forall j :: 0 <= j < |key| ==> key[j] != '_'
    requires ColumnOf(key).Some?
    ensures ColumnOf(key).value in {IdColumn, PaymentColumn, DeliveryColumn, CommentsColumn, StatusColumn, TotalColumn}
  {
    var c := ColumnOf(key).value;
    if c == UserIdColumn || c == CartIdColumn {
      FoldCaseAddsNoUnderscore(key, 4);
      assert false;
    } else if c == CreatedAtColumn || c == UpdatedAtColumn {
      FoldCaseAddsNoUnderscore(key, 7);
      assert false;
    }
  }

  lemma FoldCaseAddsNoUnderscore(key: string, j: nat)
    requires j < |key| && key[j] != '_'
    ensures FoldCase(key)[j] != '_'
  {
  }

  /** An update whose keys have no underscore, such as the property names of
      the Order interface, never changes the order's user, cart or creation time. */
  lemma UnderscoreFreeUpdateKeepsOwnership(orders: map<Uuid, Order>, carts: map<Uuid, CartRecord>,
                                           orderId: Uuid, data: seq<Entry>, now: Timestamp)
    requires forall i, j :: 0 <= i < |data| && 0 <= j < |data[i].key| ==> data[i].key[j] != '_'
    requires UpdateResult(orders, carts, orderId, data, now).Ok?
    ensures UpdateResult(orders, carts, orderId, data, now).value.userId == orders[orderId].userId
    ensures UpdateResult(orders, carts, orderId, data, now).value.cartId == orders[orderId].cartId
    ensures UpdateResult(orders, carts, orderId, data, now).value.createdAt == orders[orderId].createdAt
  {
    UpdateWritesExactlySuppliedKeys(orders, carts, orderId, data, now);
    forall i | 0 <= i < |data|
      ensures ColumnOf(data[i].key) != Some(UserIdColumn)
      ensures ColumnOf(data[i].key) != Some(CartIdColumn)
      ensures ColumnOf(data[i].key) != Some(CreatedAtColumn)
    {
      UnderscoreFreeKeyColumn(data[i].key);
    }
    var row := UpdateResult(orders, carts, orderId, data, now).value;
    assert Get(row, UserIdColumn) == Get(orders[orderId], UserIdColumn);
    assert Get(row, CartIdColumn) == Get(orders[orderId], CartIdColumn);
    assert Get(row, CreatedAtColumn) == Get(orders[orderId], CreatedAtColumn);
  }

  // ---------------------------------------------------------------------
  // The query text updateOrder builds
  // ---------------------------------------------------------------------

  /** `$n`. */
  function Placeholder(n: nat): string {
    "$" + Decimal(n)
  }

  /** The parameter a placeholder refers to: `$n` is the n-th value, counting from 1. */
  function BoundValue(values: seq<Param>, placeholder: string): Option<Param> {
    if |placeholder| < 2 || placeholder[0] != '$' then None
    else
      var n := ParseDecimal(placeholder[1..]);
      if 1 <= n <= |values| then Some(values[n - 1]) else None
  }

  lemma PlaceholderBinds(values: seq<Param>, i: nat)
    requires i < |values|
    ensures BoundValue(values, Placeholder(i + 1)) == Some(values[i])
  {
    assert Placeholder(i + 1)[1..] == Decimal(i + 1);
    DecimalRoundTrip(i + 1);
  }

  /** Each `$n` the loop numbers names a different parameter. */
  lemma PlaceholdersDistinct(i: nat, j: nat)
    requires i != j
    ensures Placeholder(i) != Placeholder(j)
  {
    if Placeholder(i) == Placeholder(j) {
      assert Placeholder(i)[1..] == Decimal(i) && Placeholder(j)[1..] == Decimal(j);
      DecimalInjective(i, j);
    }
  }

  /** The fields, values and query text of updateOrder
      (order.repository.ts:65-79); whitespace of the template is normalised. */
  method BuildUpdateQuery(orderId: Uuid, data: seq<Entry>) returns (fields: seq<string>, values: seq<Param>, query: string)
    ensures |fields| == |data| && |values| == |data| + 1
    ensures forall i :: 0 <= i < |data| ==> fields[i] == data[i].key + " = " + Placeholder(i + 1)
    ensures forall i :: 0 <= i < |data| ==> BoundValue(values, Placeholder(i + 1)) == Some(data[i].value)
    ensures BoundValue(values, Placeholder(|data| + 1)) == Some(UuidParam(orderId))
    ensures query == "UPDATE orders SET " + Join(fields, ", ") + ", updated_at = NOW() WHERE id = " + Placeholder(|data| + 1)
  {
    fields, values := [], [];
    var index := 1;
    for n := 0 to |data|
      invariant index == n + 1
      invariant |fields| == n && |values| == n
      invariant forall i :: 0 <= i < n ==> fields[i] == data[i].key + " = " + Placeholder(i + 1)
      invariant forall i :: 0 <= i < n ==> values[i] == data[i].value
    {
      fields := fields + [data[n].key + " = " + Placeholder(index)];
      values := values + [data[n].value];
      index := index + 1;
    }
    query := "UPDATE orders SET " + Join(fields, ", ") + ", updated_at = NOW() WHERE id = " + Placeholder(index);
    ParametersBind(data, values, orderId);
    values := values + [UuidParam(orderId)];
  }

  /** The collected values followed by the order id bind `$1` to `$n` to the
      entries and `$n+1` to the id. */
  lemma ParametersBind(data: seq<Entry>, values: seq<Param>, orderId: Uuid)
    requires |values| == |data|
    requires forall i :: 0 <= i < |data| ==> values[i] == data[i].value
    ensures forall i :: 0 <= i < |data| ==>
      BoundValue(values + [UuidParam(orderId)], Placeholder(i + 1)) == Some(data[i].value)
    ensures BoundValue(values + [UuidParam(orderId)], Placeholder(|data| + 1)) == Some(UuidParam(orderId))
  {
    var bound := values + [UuidParam(orderId)];
    forall i | 0 <= i < |data|
      ensures BoundValue(bound, Placeholder(i + 1)) == Some(data[i].value)
    {
      PlaceholderBinds(bound, i);
    }
    PlaceholderBinds(bound, |data|);
  }

  /** The effect of the statement is stated on the resolved entries; the
      parameter `$i` of the built statement carries the value of the i-th. */
  lemma QueryBindsAssignments(data: seq<Entry>, values: seq<Param>)
    requires forall i :: 0 <= i < |data| ==> BoundValue(values, Placeholder(i + 1)) == Some(data[i].value)
    ensures ResolveEntries(data).Some? ==> forall i :: 0 <= i < |data| ==>
      BoundValue(values, Placeholder(i + 1)) == Some(ResolveEntries(data).value[i].value)
  {
  }

  // ---------------------------------------------------------------------
  // The repository
  // ---------------------------------------------------------------------

  /** The fields createOrder destructures from its argument (order.repository.ts:38-39). */
  datatype OrderData = OrderData(
    id: Uuid,
    userId: Uuid,
    cartId: Uuid,
    total: int,
    delivery: Json,
    comments: Option<string>,
    status: OrderStatus,
    payment: Json)

  /** The table after a successful update: the row leaves its old key and is
      stored under its (possibly new) id. */
  function Replaced(orders: map<Uuid, Order>, orderId: Uuid, row: Order): (r: map<Uuid, Order>)
    ensures orderId in orders && row.id == orderId ==> r.Keys == orders.Keys
    ensures orderId in orders && row.id != orderId && row.id !in orders ==>
      r.Keys == orders.Keys - {orderId} + {row.id}
    ensures orderId in orders && (row.id == orderId || row.id !in orders) ==> |r| == |orders|
  {
    (orders - {orderId})[row.id := row]
  }

  /** A successful update keeps the constraints of the three tables. */
  lemma UpdateKeepsTablesValid(t: Tables, orderId: Uuid, data: seq<Entry>, now: Timestamp)
    requires TablesValid(t)
    requires UpdateResult(t.orders, t.carts, orderId, data, now).Ok?
    ensures TablesValid(t.(orders := Replaced(t.orders, orderId, UpdateResult(t.orders, t.carts, orderId, data, now).value)))
  {
    var row := UpdateResult(t.orders, t.carts, orderId, data, now).value;
    assert FitsNumeric10_2(t.orders[orderId].total);
    assert row.cartId in t.carts && FitsNumeric10_2(row.total);
  }

  class OrderRepository {
    const db: Database

    constructor (db: Database)
      ensures this.db == db
    {
      this.db := db;
    }

    /** SELECT * FROM orders WHERE id = $1 (order.repository.ts:13-32). */
    method FindById(orderId: Uuid) returns (order: Option<Order>)
      requires db.Valid()
      ensures order.Some? <==> orderId in db.orders
      ensures order.Some? ==> order.value == db.orders[orderId] && order.value.id == orderId
    {
      if orderId in db.orders {
        order := Some(db.orders[orderId]);
      } else {
        order := None;
      }
    }

    /** INSERT INTO orders (...) VALUES ($1, ..., $8, NOW(), NOW()) RETURNING *
        (order.repository.ts:34-62). */
    method CreateOrder(data: OrderData, now: Timestamp) returns (r: Result<Order>)
      requires db.Valid()
      modifies db
      ensures db.Valid()
      ensures r.Ok? <==> FitsNumeric10_2(data.total) && data.id !in old(db.orders) && data.cartId in old(db.carts)
      ensures !FitsNumeric10_2(data.total) ==> r == Err(OutOfRange)
      ensures FitsNumeric10_2(data.total) && data.id in old(db.orders) ==> r == Err(UniqueViolation)
      ensures FitsNumeric10_2(data.total) && data.id !in old(db.orders) && data.cartId !in old(db.carts)
        ==> r == Err(ForeignKeyViolation)
      ensures r.Ok? ==> r.value == Order(data.id, data.userId, data.cartId, data.payment, data.delivery,
                                         data.comments, data.status, data.total, now, now)
      ensures db.orders == if r.Ok? then old(db.orders)[data.id := r.value] else old(db.orders)
      ensures db.carts == old(db.carts) && db.cartItems == old(db.cartItems) && db.nextCartId == old(db.nextCartId)
    {
      if !FitsNumeric10_2(data.total) {
        r := Err(OutOfRange);
      } else if data.id in db.orders {
        r := Err(UniqueViolation);
      } else if data.cartId !in db.carts {
        r := Err(ForeignKeyViolation);
      } else {
        var row := Order(data.id, data.userId, data.cartId, data.payment, data.delivery,
                         data.comments, data.status, data.total, now, now);
        db.orders := db.orders[data.id := row];
        r := Ok(row);
      }
    }

    /** updateOrder (order.repository.ts:64-93): builds the statement, runs it,
        and treats "no row updated" as an error. */
    method UpdateOrder(orderId: Uuid, data: seq<Entry>, now: Timestamp) returns (r: Outcome)
      requires db.Valid()
      modifies db
      ensures db.Valid()
      ensures r.Success? <==> UpdateResult(old(db.orders), old(db.carts), orderId, data, now).Ok?
      ensures r.Failure? ==> r.error == UpdateResult(old(db.orders), old(db.carts), orderId, data, now).error
      ensures db.orders == if r.Success?
        then Replaced(old(db.orders), orderId, UpdateResult(old(db.orders), old(db.carts), orderId, data, now).value)
        else old(db.orders)
      ensures db.carts == old(db.carts) && db.cartItems == old(db.cartItems) && db.nextCartId == old(db.nextCartId)
    {
      var fields, values, query := BuildUpdateQuery(orderId, data);
      QueryBindsAssignments(data, values);
      r := Execute(orderId, data, now);
    }

    /** Running the built statement (order.repository.ts:82-85): the row the
        WHERE clause selects gets the SET clause, or nothing changes. */
    method Execute(orderId: Uuid, data: seq<Entry>, now: Timestamp) returns (r: Outcome)
      requires db.Valid()
      modifies db
      ensures db.Valid()
      ensures r.Success? <==> UpdateResult(old(db.orders), old(db.carts), orderId, data, now).Ok?
      ensures r.Failure? ==> r.error == UpdateResult(old(db.orders), old(db.carts), orderId, data, now).error
      ensures db.orders == if r.Success?
        then Replaced(old(db.orders), orderId, UpdateResult(old(db.orders), old(db.carts), orderId, data, now).value)
        else old(db.orders)
      ensures db.carts == old(db.carts) && db.cartItems == old(db.cartItems) && db.nextCartId == old(db.nextCartId)
    {
      var result := UpdateResult(db.orders, db.carts, orderId, data, now);
      if result.Err? {
        r := Failure(result.error);
      } else {
        UpdateKeepsTablesValid(db.Contents(), orderId, data, now);
        db.orders := Replaced(db.orders, orderId, result.value);
        r := Success;
      }
    }
  }
}
