/** The orders table of the order indexer (`data/postgres/order.go`). A row
    is a map from column name to value. `Insert` builds an INSERT statement
    with squirrel and `Update` an UPDATE of three columns by order id; the
    statements are modelled as values and executed against the table. */
module PostgresOrder {
  import opened Base
  import opened Eth

  /** A column value: a number (uint8 or big.Int), a text or an address. */
  datatype Cell = Int(n: int) | Text(text: string) | Addr(address: Address)

  /** The columns of the `orders` table, by their SQL names: `account`,
      `buy_amount`, `buy_tokens`, `dest_chain`, `executed_by`, `id`,
      `match_swapica`, `sell_amount`, `sell_tokens`, `state` and
      `src_chain`. */
  datatype Column = Account | BuyAmount | BuyTokens | DestChain | ExecutedBy | Id
                  | MatchSwapica | SellAmount | SellTokens | State | SrcChain

  type Row = map<Column, Cell>

  /** `gobind.SwapicaStatus`, as an OrderUpdated event carries it. */
  datatype Status = Status(state: Uint8, executedBy: nat, matchSwapica: Address)

  /** `data.Order`. */
  datatype Order = Order(
    id: nat,
    account: Address,
    tokensToSell: Address,
    tokensToBuy: Address,
    amountToSell: nat,
    amountToBuy: nat,
    destChain: nat,
    state: Uint8,
    executedBy: nat,
    matchSwapica: Address)

  /** The columns `structs.Map` gives an order (its `structs` tags), in the
      sorted order squirrel's `SetMap` lists them. */
  const OrderColumns: seq<Column> := [Account, BuyAmount, BuyTokens, DestChain, ExecutedBy,
                                      Id, MatchSwapica, SellAmount, SellTokens, State]

  /** The order's values, column by column of `OrderColumns`. */
  function OrderValues(o: Order): (vs: seq<Cell>)
    ensures |vs| == |OrderColumns|
  {
    [Addr(o.account), Int(o.amountToBuy), Addr(o.tokensToBuy), Int(o.destChain), Int(o.executedBy),
     Int(o.id), Addr(o.matchSwapica), Int(o.amountToSell), Addr(o.tokensToSell), Int(o.state)]
  }

  /** The row an order is meant to become in a chain's table. */
  function OrderRow(o: Order, srcChain: string): Row {
    map[Account := Addr(o.account), BuyAmount := Int(o.amountToBuy), BuyTokens := Addr(o.tokensToBuy),
        DestChain := Int(o.destChain), ExecutedBy := Int(o.executedBy), Id := Int(o.id),
        MatchSwapica := Addr(o.matchSwapica), SellAmount := Int(o.amountToSell),
        SellTokens := Addr(o.tokensToSell), State := Int(o.state), SrcChain := Text(srcChain)]
  }

  /** An INSERT statement: its columns and its VALUES rows. */
  datatype InsertStmt = InsertStmt(columns: seq<Column>, values: seq<seq<Cell>>)

  /** The row one VALUES tuple makes, column by column. */
  function RowOf(columns: seq<Column>, values: seq<Cell>): Row
    requires |columns| == |values|
    decreases |columns|
  {
    if columns == [] then map[]
    else RowOf(columns[..|columns| - 1], values[..|values| - 1])[columns[|columns| - 1] := values[|values| - 1]]
  }

  /** Executing an INSERT: the database rejects a statement with no VALUES
      row or a VALUES row whose length differs from the column list, and
      the table is unchanged; otherwise each row is appended. */
  function ExecInsert(rows: seq<Row>, stmt: InsertStmt): (r: (seq<Row>, Option<Error>))
    ensures r.1.None? ==> |r.0| == |rows| + |stmt.values| && r.0[..|rows|] == rows
    ensures r.1.Some? ==> r.0 == rows
  {
    if stmt.values == [] || exists i :: 0 <= i < |stmt.values| && |stmt.values[i]| != |stmt.columns| then (rows, Some(Db))
    else (rows + seq(|stmt.values|, i requires 0 <= i < |stmt.values| => RowOf(stmt.columns, stmt.values[i])), None)
  }

  /** The statement `Insert` builds as written: `SetMap` sets the order's
      columns and ONE values row, then `Columns` APPENDS `src_chain` to the
      columns and `Values` appends a SECOND values row holding only the
      chain. */
  function InsertAsWritten(o: Order, srcChain: string): InsertStmt {
    InsertStmt(OrderColumns + [SrcChain], [OrderValues(o), [Text(srcChain)]])
  }

  /** The evidently intended statement: the chain is one more value of the
      same row. */
  function InsertCorrected(o: Order, srcChain: string): InsertStmt {
    InsertStmt(OrderColumns + [SrcChain], [OrderValues(o) + [Text(srcChain)]])
  }

  /** The statement as written is rejected on every table, for every order:
      its second VALUES row has 1 value for 11 columns. */
  lemma InsertAsWrittenRejected(rows: seq<Row>, o: Order, srcChain: string)
    ensures ExecInsert(rows, InsertAsWritten(o, srcChain)) == (rows, Some(Db))
  {
    var stmt := InsertAsWritten(o, srcChain);
    assert |stmt.values[1]| != |stmt.columns|;
  }

  /** One more column of a VALUES tuple sets that column of the row. */
  lemma RowOfPrefix(columns: seq<Column>, values: seq<Cell>, n: nat)
    requires |columns| == |values| && n < |columns|
    ensures RowOf(columns[..n + 1], values[..n + 1]) == RowOf(columns[..n], values[..n])[columns[n] := values[n]]
  {
    assert columns[..n + 1][..n] == columns[..n];
    assert values[..n + 1][..n] == values[..n];
  }

  /** The row of the corrected VALUES tuple is the order's row: built one
      column at a time, it is the map `OrderRow` displays. */
  lemma CorrectedRow(o: Order, srcChain: string)
    ensures RowOf(OrderColumns + [SrcChain], OrderValues(o) + [Text(srcChain)]) == OrderRow(o, srcChain)
  {
    var columns := OrderColumns + [SrcChain];
    var values := OrderValues(o) + [Text(srcChain)];
    RowOfPrefix(columns, values, 0);
    RowOfPrefix(columns, values, 1);
    RowOfPrefix(columns, values, 2);
    RowOfPrefix(columns, values, 3);
    RowOfPrefix(columns, values, 4);
    RowOfPrefix(columns, values, 5);
    RowOfPrefix(columns, values, 6);
    RowOfPrefix(columns, values, 7);
    RowOfPrefix(columns, values, 8);
    RowOfPrefix(columns, values, 9);
    RowOfPrefix(columns, values, 10);
    assert columns[..11] == columns && values[..11] == values;
  }

  /** The corrected statement appends exactly one row, holding the order's
      fields and the store's chain, and leaves every existing row as it was. */
  lemma InsertCorrectedAppends(rows: seq<Row>, o: Order, srcChain: string)
    ensures ExecInsert(rows, InsertCorrected(o, srcChain)) == (rows + [OrderRow(o, srcChain)], None)
  {
    var stmt := InsertCorrected(o, srcChain);
    CorrectedRow(o, srcChain);
    assert seq(|stmt.values|, i requires 0 <= i < |stmt.values| => RowOf(stmt.columns, stmt.values[i])) == [OrderRow(o, srcChain)];
  }

  /** The three columns `Update` sets. */
  const StatusColumns: set<Column> := {State, ExecutedBy, MatchSwapica}

  /** The effect of `UPDATE orders SET state, executed_by, match_swapica
      WHERE id = id` on one row. */
  function Patch(r: Row, id: nat, st: Status): Row {
    if Id in r && r[Id] == Int(id) then
      r[State := Int(st.state)][ExecutedBy := Int(st.executedBy)][MatchSwapica := Addr(st.matchSwapica)]
    else r
  }

  /** The same statement on the whole table: every row of that id, of any
      source chain, is patched. */
  function ExecUpdate(rows: seq<Row>, id: nat, st: Status): (r: seq<Row>)
    ensures |r| == |rows|
    ensures forall i :: 0 <= i < |rows| ==> r[i] == Patch(rows[i], id, st)
  {
    seq(|rows|, i requires 0 <= i < |rows| => Patch(rows[i], id, st))
  }

  /** Update changes only the three status columns of the rows with that
      id, sets them to the status, leaves rows of other ids as they were,
      and changes nothing when no row has that id. */
  lemma UpdateProperties(rows: seq<Row>, id: nat, st: Status)
    ensures var r := ExecUpdate(rows, id, st);
      && (forall i, k :: 0 <= i < |rows| && k !in StatusColumns ==>
            (k in r[i] <==> k in rows[i]) && (k in rows[i] ==> r[i][k] == rows[i][k]))
      && (forall i :: 0 <= i < |rows| && !(Id in rows[i] && rows[i][Id] == Int(id)) ==> r[i] == rows[i])
      && (forall i :: 0 <= i < |rows| && Id in rows[i] && rows[i][Id] == Int(id) ==>
            r[i][State] == Int(st.state) && r[i][ExecutedBy] == Int(st.executedBy) && r[i][MatchSwapica] == Addr(st.matchSwapica))
      && ((forall i :: 0 <= i < |rows| ==> !(Id in rows[i] && rows[i][Id] == Int(id))) ==> r == rows)
  {
  }

  /** The orders table. A table that is not `healthy` fails every
      statement. */
  class OrdersTable {
    var rows: seq<Row>
    const healthy: bool

    constructor (rows: seq<Row>, healthy: bool)
      ensures this.rows == rows && this.healthy == healthy
    {
      this.rows := rows;
      this.healthy := healthy;
    }
  }

  /** `orders`: the table and the source chain the store writes. */
  datatype Orders = Orders(db: OrdersTable, srcChain: string)

  /** Executes an INSERT on the table; a table that is not healthy rejects
      it. */
  method Exec(db: OrdersTable, stmt: InsertStmt) returns (err: Option<Error>)
    modifies db
    ensures (db.rows, err) == (if db.healthy then ExecInsert(old(db.rows), stmt) else (old(db.rows), Some(Db)))
  {
    var (rows, e) := if db.healthy then ExecInsert(db.rows, stmt) else (db.rows, Some(Db));
    db.rows, err := rows, e;
  }

  /** `Insert` as written: the statement is rejected, and nothing changes. */
  method Insert(q: Orders, o: Order) returns (err: Option<Error>)
    modifies q.db
    ensures err == Some(Db) && q.db.rows == old(q.db.rows)
  {
    InsertAsWrittenRejected(q.db.rows, o, q.srcChain);
    err := Exec(q.db, InsertAsWritten(o, q.srcChain));
  }

  /** `Insert` with the corrected statement: one row is appended. */
  method InsertFixed(q: Orders, o: Order) returns (err: Option<Error>)
    modifies q.db
    ensures q.db.healthy ==> err == None && q.db.rows == old(q.db.rows) + [OrderRow(o, q.srcChain)]
    ensures !q.db.healthy ==> err == Some(Db) && q.db.rows == old(q.db.rows)
  {
    InsertCorrectedAppends(q.db.rows, o, q.srcChain);
    err := Exec(q.db, InsertCorrected(o, q.srcChain));
  }

  /** `Update`. */
  method Update(q: Orders, id: nat, st: Status) returns (err: Option<Error>)
    modifies q.db
    ensures q.db.healthy ==> err == None && q.db.rows == ExecUpdate(old(q.db.rows), id, st)
    ensures !q.db.healthy ==> err == Some(Db) && q.db.rows == old(q.db.rows)
  {
    if !q.db.healthy {
      return Some(Db);
    }
    q.db.rows := ExecUpdate(q.db.rows, id, st);
    err := None;
  }
}
