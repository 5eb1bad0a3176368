/** The inventory ledger behind the item and transaction routes: the items
    table, the append-only transactions table, and the rules by which a
    movement changes an item's stored amount. */
module Ledger {
  import opened Domain
  import opened Seqs

  datatype Failure =
    | BadRequest     // 400: the transaction type is not recognised
    | NotFound       // 404: no item with that id belongs to the caller
    | InternalError  // 500: a statement failed inside the handler

  datatype Result<T> = Ok(value: T) | Err(failure: Failure)

  /** What a successful transaction request answers: the new row's id and
      the amount now stored on the item. */
  datatype Posted = Posted(id: nat, newAmount: real)

  /** The transaction type named by a request, if it is one of the two. */
  function ParseKind(text: string): (k: Option<TxKind>)
    ensures k == Some(Inbound) <==> text == "inbound"
    ensures k == Some(Outbound) <==> text == "outbound"
  {
    if text == "inbound" then Some(Inbound)
    else if text == "outbound" then Some(Outbound)
    else None
  }

  /** `id` names an item of `items` whose owner is `userId`. */
  predicate Owns(items: map<nat, Item>, id: nat, userId: nat)
  {
    id in items && items[id].userId == userId
  }

  /** The amount a transaction starts from: `weight` when it is non-null,
      otherwise `quantity`. When both are null the value read is null, which
      JavaScript arithmetic treats as 0. */
  function CurrentAmount(it: Item): (r: real)
    ensures it.weight.Some? ==> r == it.weight.value
    ensures it.weight.None? && it.quantity.Some? ==> r == it.quantity.value
    ensures it.weight.None? && it.quantity.None? ==> r == 0.0
  {
    if it.weight.Some? then it.weight.value
    else if it.quantity.Some? then it.quantity.value
    else 0.0
  }

  /** The item after the UPDATE of its active column: `weight` if weight is
      non-null, otherwise `quantity`. */
  function WithAmount(it: Item, v: real): (r: Item)
    ensures CurrentAmount(r) == v
    ensures r.weight.Some? == it.weight.Some?
    ensures it.weight.Some? ==> r.quantity == it.quantity
    ensures it.weight.None? ==> r.quantity.Some?
    ensures r.(weight := it.weight, quantity := it.quantity) == it
  {
    if it.weight.Some? then it.(weight := Some(v)) else it.(quantity := Some(v))
  }

  /** The amount after one movement: inbound adds, outbound subtracts and
      never leaves less than zero. */
  function Apply(kind: TxKind, current: real, amount: real): (r: real)
    ensures kind == Inbound ==> r == current + amount
    ensures kind == Outbound ==> r >= 0.0 && r >= current - amount
    ensures kind == Outbound ==> (r == 0.0 || r == current - amount)
  {
    match kind
    case Inbound => current + amount
    case Outbound => if current - amount < 0.0 then 0.0 else current - amount
  }

  /** The amount a log leads to when folded from 0, one movement at a time. */
  function Replay(log: seq<Transaction>): real
  {
    if log == [] then 0.0
    else Apply(log[|log| - 1].kind, Replay(log[..|log| - 1]), log[|log| - 1].amount)
  }

  lemma ReplayAppend(log: seq<Transaction>, t: Transaction)
    ensures Replay(log + [t]) == Apply(t.kind, Replay(log), t.amount)
  {
    assert (log + [t])[..|log|] == log;
  }

  /** Sum of the inbound amounts minus the sum of the outbound amounts. */
  function Net(log: seq<Transaction>): real
  {
    if log == [] then 0.0
    else
      var t := log[|log| - 1];
      Net(log[..|log| - 1]) + (if t.kind == Inbound then t.amount else -t.amount)
  }

  /** Clamping only ever adds: the replayed amount is at least the net sum. */
  lemma {:induction false} ReplayAtLeastNet(log: seq<Transaction>)
    ensures Replay(log) >= Net(log)
  {
    if log != [] {
      ReplayAtLeastNet(log[..|log| - 1]);
    }
  }

  /** A log without negative amounts never replays to a negative amount. */
  lemma {:induction false} ReplayNonNegative(log: seq<Transaction>)
    requires forall i :: 0 <= i < |log| ==> log[i].amount >= 0.0
    ensures Replay(log) >= 0.0
  {
    if log != [] {
      ReplayNonNegative(log[..|log| - 1]);
    }
  }

  /** A log of inbound movements only replays to exactly its net sum. */
  lemma {:induction false} ReplayInboundOnly(log: seq<Transaction>)
    requires forall i :: 0 <= i < |log| ==> log[i].kind == Inbound
    ensures Replay(log) == Net(log)
  {
    if log != [] {
      ReplayInboundOnly(log[..|log| - 1]);
    }
  }

  function ForItem(itemId: nat): Transaction -> bool
  {
    (t: Transaction) => t.itemId == itemId
  }

  /** The transactions recorded against one item id, oldest first. */
  function TransactionsOf(log: seq<Transaction>, itemId: nat): seq<Transaction>
  {
    Filter(log, ForItem(itemId))
  }

  lemma TransactionsOfAppend(log: seq<Transaction>, t: Transaction, itemId: nat)
    ensures TransactionsOf(log + [t], itemId)
         == TransactionsOf(log, itemId) + (if t.itemId == itemId then [t] else [])
  {
    FilterAppend(log, [t], ForItem(itemId));
    assert Filter([t], ForItem(itemId)) == Filter([], ForItem(itemId)) + if t.itemId == itemId then [t] else [];
  }

  /** The row an insert or an update writes from a request body: a falsy
      weight or quantity (`x || null`) is stored as NULL. */
  function NewItem(userId: nat, body: ItemFields): (it: Item)
    ensures it.userId == userId && it.name == body.name && it.category == body.category
    ensures it.productionDate == body.productionDate && it.expirationDate == body.expirationDate
    ensures it.unit == body.unit
    ensures it.weight == (if Truthy(body.weight) then body.weight else None)
    ensures it.quantity == (if Truthy(body.quantity) then body.quantity else None)
  {
    Item(userId, body.name, body.category, body.productionDate, body.expirationDate,
         OrNull(body.weight), OrNull(body.quantity), body.unit)
  }

  /** The amount of the initial inbound transaction, `weight || quantity`,
      when it is non-null is the amount the new row starts from. */
  lemma InitialAmountIsStoredAmount(userId: nat, body: ItemFields)
    ensures Or(body.weight, body.quantity).Some? ==>
      Or(body.weight, body.quantity).value == CurrentAmount(NewItem(userId, body))
  {
  }

  /** SQLite's ordering of TEXT values: code point by code point, a proper
      prefix first. */
  predicate TextLe(a: string, b: string)
  {
    a == [] || (b != [] && (a[0] < b[0] || (a[0] == b[0] && TextLe(a[1..], b[1..]))))
  }

  lemma {:induction false} TextLeTotal(a: string, b: string)
    ensures TextLe(a, b) || TextLe(b, a)
  {
    if a != [] && b != [] && a[0] == b[0] {
      TextLeTotal(a[1..], b[1..]);
    }
  }

  lemma {:induction false} TextLeTransitive(a: string, b: string, c: string)
    requires TextLe(a, b) && TextLe(b, c)
    ensures TextLe(a, c)
  {
    if a != [] && b != [] && c != [] && a[0] == b[0] && b[0] == c[0] {
      TextLeTransitive(a[1..], b[1..], c[1..]);
    }
  }

  /** ORDER BY expiration_date ASC. */
  predicate ByExpiration(x: Row, y: Row)
  {
    TextLe(x.item.expirationDate, y.item.expirationDate)
  }

  lemma ByExpirationIsTotalPreorder()
    ensures TotalPreorder(ByExpiration)
  {
    forall x: Row, y: Row ensures ByExpiration(x, y) || ByExpiration(y, x) {
      TextLeTotal(x.item.expirationDate, y.item.expirationDate);
    }
    forall x: Row, y: Row, z: Row | ByExpiration(x, y) && ByExpiration(y, z)
      ensures ByExpiration(x, z)
    {
      TextLeTransitive(x.item.expirationDate, y.item.expirationDate, z.item.expirationDate);
    }
  }

  /** ORDER BY timestamp DESC. */
  predicate NewestFirst(s: Transaction, t: Transaction)
  {
    s.timestamp >= t.timestamp
  }

  /** Every item outside `edited` holds the amount its transactions replay to. */
  ghost predicate Accounted(items: map<nat, Item>, log: seq<Transaction>, edited: set<nat>)
  {
    forall id :: id in items && id !in edited ==>
      Replay(TransactionsOf(log, id)) == CurrentAmount(items[id])
  }

  /** A movement on an accounted item, stored as the ledger stores it, keeps
      every item accounted. */
  lemma {:induction false} AccountedAfterMovement(items: map<nat, Item>, log: seq<Transaction>,
                                                  edited: set<nat>, t: Transaction, after: Item)
    requires Accounted(items, log, edited) && t.itemId in items
    requires CurrentAmount(after) == Apply(t.kind, CurrentAmount(items[t.itemId]), t.amount)
    ensures Accounted(items[t.itemId := after], log + [t], edited)
  {
    var items' := items[t.itemId := after];
    forall id | id in items' && id !in edited
      ensures Replay(TransactionsOf(log + [t], id)) == CurrentAmount(items'[id])
    {
      TransactionsOfAppend(log, t, id);
      if id == t.itemId {
        assert TransactionsOf(log + [t], id) == TransactionsOf(log, id) + [t];
        ReplayAppend(TransactionsOf(log, id), t);
      } else {
        assert TransactionsOf(log + [t], id) == TransactionsOf(log, id);
        assert items'[id] == items[id];
      }
    }
  }

  /** A new id that no transaction mentions yet, stored with the amount of
      its first inbound transaction, keeps every item accounted. */
  lemma {:induction false} AccountedAfterInsert(items: map<nat, Item>, log: seq<Transaction>,
                                                edited: set<nat>, t: Transaction, it: Item)
    requires Accounted(items, log, edited)
    requires forall i :: 0 <= i < |log| ==> log[i].itemId != t.itemId
    requires t.kind == Inbound && CurrentAmount(it) == t.amount
    ensures Accounted(items[t.itemId := it], log + [t], edited)
  {
    NoneForUnusedId(log, t.itemId);
    var items' := items[t.itemId := it];
    forall id | id in items' && id !in edited
      ensures Replay(TransactionsOf(log + [t], id)) == CurrentAmount(items'[id])
    {
      TransactionsOfAppend(log, t, id);
      if id == t.itemId {
        assert TransactionsOf(log + [t], id) == TransactionsOf(log, id) + [t];
        ReplayAppend(TransactionsOf(log, id), t);
      } else {
        assert TransactionsOf(log + [t], id) == TransactionsOf(log, id);
        assert items'[id] == items[id];
      }
    }
  }

  /** A new id that no transaction mentions, stored with amount 0, keeps
      every item accounted without any transaction. */
  lemma {:induction false} AccountedAfterBareInsert(items: map<nat, Item>, log: seq<Transaction>,
                                                    edited: set<nat>, id: nat, it: Item)
    requires Accounted(items, log, edited)
    requires forall i :: 0 <= i < |log| ==> log[i].itemId != id
    requires CurrentAmount(it) == 0.0
    ensures Accounted(items[id := it], log, edited)
  {
    NoneForUnusedId(log, id);
  }

  /** An id that no transaction mentions has no history. */
  lemma NoneForUnusedId(log: seq<Transaction>, id: nat)
    requires forall i :: 0 <= i < |log| ==> log[i].itemId != id
    ensures TransactionsOf(log, id) == []
  {
    FilterSpec(log, ForItem(id));
  }

  /** An accounted item whose movements all carry non-negative amounts
      holds a non-negative amount. */
  lemma AccountedAmountNonNegative(items: map<nat, Item>, log: seq<Transaction>, edited: set<nat>, id: nat)
    requires Accounted(items, log, edited) && id in items && id !in edited
    requires forall i :: 0 <= i < |log| ==> log[i].amount >= 0.0
    ensures CurrentAmount(items[id]) >= 0.0
  {
    FilterSpec(log, ForItem(id));
    ReplayNonNegative(TransactionsOf(log, id));
  }

  /** The rows of `items` with id below `n` owned by `userId`, in id order:
      the order in which SQLite scans the table. */
  function OwnedRows(items: map<nat, Item>, userId: nat, n: nat): (r: seq<Row>)
    ensures forall row :: row in r <==>
      row.id < n && row.id in items && items[row.id] == row.item && row.item.userId == userId
    ensures forall i, j :: 0 <= i < j < |r| ==> r[i].id < r[j].id
  {
    if n == 0 then []
    else
      var k := n - 1;
      OwnedRows(items, userId, k)
        + if k in items && items[k].userId == userId then [Row(k, items[k])] else []
  }

  /** WHERE item_id = ? AND user_id = ? */
  function Matches(itemId: nat, userId: nat): Transaction -> bool
  {
    (t: Transaction) => t.itemId == itemId && t.userId == userId
  }

  /** The database: the items table keyed by id, the transactions table in
      insertion order, and the next AUTOINCREMENT ids (never reused). */
  class Store {
    var items: map<nat, Item>
    var transactions: seq<Transaction>
    var nextItemId: nat
    var nextTxId: nat
    /** Ids of items whose row an update request overwrote; for every other
        item the transaction log accounts for the stored amount. */
    ghost var edited: set<nat>
    /** Whether the connection enforces foreign keys (the schema declares
        them; enforcement is a setting of the SQLite connection). */
    const foreignKeys: bool

    ghost predicate Valid()
      reads this
    {
      && (forall id :: id in items ==> id < nextItemId)
      && (forall id :: id in edited ==> id < nextItemId)
      && (forall i :: 0 <= i < |transactions| ==>
            transactions[i].itemId < nextItemId && transactions[i].id < nextTxId)
      && (foreignKeys ==> forall i :: 0 <= i < |transactions| ==> transactions[i].itemId in items)
      && Accounted(items, transactions, edited)
    }

    /** An empty database. `foreignKeys` says whether SQLite enforces the
        REFERENCES clauses of the schema on this connection. */
    constructor (foreignKeys: bool)
      ensures Valid()
      ensures this.foreignKeys == foreignKeys
      ensures items == map[] && transactions == [] && edited == {}
    {
      this.foreignKeys := foreignKeys;
      items := map[];
      transactions := [];
      nextItemId := 1;
      nextTxId := 1;
      edited := {};
    }

    /** POST /transactions: record an inbound or outbound movement of an
        item the caller owns and update its active amount column. */
    method PostTransaction(userId: nat, itemId: nat, kindText: string, amount: real, now: int)
      returns (res: Result<Posted>)
      requires Valid()
      modifies this
      ensures Valid()
      ensures nextItemId == old(nextItemId) && edited == old(edited)
      ensures ParseKind(kindText).None? ==>
        && res == Err(BadRequest)
        && items == old(items) && transactions == old(transactions) && nextTxId == old(nextTxId)
      ensures ParseKind(kindText).Some? && !Owns(old(items), itemId, userId) ==>
        && res == Err(NotFound)
        && items == old(items) && transactions == old(transactions) && nextTxId == old(nextTxId)
      ensures ParseKind(kindText).Some? && Owns(old(items), itemId, userId) ==>
        var kind := ParseKind(kindText).value;
        var before := old(items)[itemId];
        var newAmount := Apply(kind, CurrentAmount(before), amount);
        && res == Ok(Posted(old(nextTxId), newAmount))
        && items == old(items)[itemId := WithAmount(before, newAmount)]
        && CurrentAmount(items[itemId]) == newAmount
        && transactions == old(transactions) + [Transaction(old(nextTxId), itemId, userId, kind, amount, now)]
        && nextTxId == old(nextTxId) + 1
    {
      var kind := ParseKind(kindText);
      if kind.None? {
        return Err(BadRequest);
      }
      if !(itemId in items && items[itemId].userId == userId) {
        return Err(NotFound);
      }
      var item := items[itemId];
      var newAmount := CurrentAmount(item);
      if kind.value == Inbound {
        newAmount := newAmount + amount;
      } else {
        newAmount := newAmount - amount;
        if newAmount < 0.0 {
          newAmount := 0.0;
        }
      }
      var t := Transaction(nextTxId, itemId, userId, kind.value, amount, now);
      AccountedAfterMovement(items, transactions, edited, t, WithAmount(item, newAmount));
      items := items[itemId := WithAmount(item, newAmount)];
      transactions := transactions + [t];
      res := Ok(Posted(nextTxId, newAmount));
      nextTxId := nextTxId + 1;
    }

    /** GET /transactions/:item_id: the caller's transactions on one item,
        newest first. */
    function ListTransactions(itemId: nat, userId: nat): (r: seq<Transaction>)
      reads this
      ensures forall t :: t in r <==> t in transactions && t.itemId == itemId && t.userId == userId
      ensures multiset(r) == multiset(Filter(transactions, Matches(itemId, userId)))
      ensures forall i, j :: 0 <= i < j < |r| ==> r[i].timestamp >= r[j].timestamp
    {
      var mine := Filter(transactions, Matches(itemId, userId));
      FilterSpec(transactions, Matches(itemId, userId));
      var r := Sort(mine, NewestFirst);
      assert forall t :: t in r <==> t in multiset(mine);
      r
    }

    /** GET /items: the caller's items, soonest expiration first. */
    function ListItems(userId: nat): (r: seq<Row>)
      reads this
      requires Valid()
      ensures forall row :: row in r <==>
        row.id in items && items[row.id] == row.item && row.item.userId == userId
      ensures multiset(r) == multiset(OwnedRows(items, userId, nextItemId))
      ensures forall i, j :: 0 <= i < j < |r| ==>
        TextLe(r[i].item.expirationDate, r[j].item.expirationDate)
    {
      ByExpirationIsTotalPreorder();
      var scan := OwnedRows(items, userId, nextItemId);
      var r := Sort(scan, ByExpiration);
      assert forall row :: row in r <==> row in multiset(scan);
      r
    }

    /** POST /items: insert the row, then record the initial inbound
        transaction of `weight || quantity`. When that amount is null the
        second insert violates NOT NULL: the answer is 500, and the row
        inserted first stays without a transaction. */
    method CreateItem(userId: nat, body: ItemFields, now: int) returns (res: Result<nat>)
      requires Valid()
      modifies this
      ensures Valid()
      ensures old(nextItemId) !in old(items)
      ensures items == old(items)[old(nextItemId) := NewItem(userId, body)]
      ensures nextItemId == old(nextItemId) + 1 && edited == old(edited)
      ensures old(nextItemId) !in edited
      ensures Replay(TransactionsOf(transactions, old(nextItemId)))
           == CurrentAmount(items[old(nextItemId)])
      ensures Or(body.weight, body.quantity).Some? ==>
        && res == Ok(old(nextItemId))
        && transactions == old(transactions)
             + [Transaction(old(nextTxId), old(nextItemId), userId, Inbound,
                            Or(body.weight, body.quantity).value, now)]
        && nextTxId == old(nextTxId) + 1
      ensures Or(body.weight, body.quantity).None? ==>
        && res == Err(InternalError)
        && transactions == old(transactions) && nextTxId == old(nextTxId)
    {
      var id := nextItemId;
      var it := NewItem(userId, body);
      var amount := Or(body.weight, body.quantity);
      InitialAmountIsStoredAmount(userId, body);
      if amount.None? {
        AccountedAfterBareInsert(items, transactions, edited, id, it);
        items := items[id := it];
        nextItemId := nextItemId + 1;
        return Err(InternalError);
      }
      var t := Transaction(nextTxId, id, userId, Inbound, amount.value, now);
      AccountedAfterInsert(items, transactions, edited, t, it);
      items := items[id := it];
      nextItemId := nextItemId + 1;
      transactions := transactions + [t];
      nextTxId := nextTxId + 1;
      res := Ok(id);
    }

    /** PUT /items/:id: overwrite the seven editable fields of an item the
        caller owns. No transaction is recorded, whatever the amounts. */
    method UpdateItem(userId: nat, itemId: nat, body: ItemFields) returns (res: Result<()>)
      requires Valid()
      modifies this
      ensures Valid()
      ensures transactions == old(transactions)
      ensures nextItemId == old(nextItemId) && nextTxId == old(nextTxId)
      ensures Owns(old(items), itemId, userId) ==>
        && res == Ok(())
        && items == old(items)[itemId := NewItem(userId, body)]
        && edited == old(edited) + {itemId}
      ensures !Owns(old(items), itemId, userId) ==>
        res == Err(NotFound) && items == old(items) && edited == old(edited)
    {
      if !(itemId in items && items[itemId].userId == userId) {
        return Err(NotFound);
      }
      items := items[itemId := NewItem(userId, body)];
      edited := edited + {itemId};
      res := Ok(());
    }

    /** DELETE /items/:id: remove an item the caller owns. Without foreign
        key enforcement its transactions stay in the log; with it, an item
        that has transactions cannot be deleted: the statement fails, the
        answer is 500 and the row stays. */
    method DeleteItem(userId: nat, itemId: nat) returns (res: Result<()>)
      requires Valid()
      modifies this
      ensures Valid()
      ensures transactions == old(transactions) && edited == old(edited)
      ensures nextItemId == old(nextItemId) && nextTxId == old(nextTxId)
      ensures Owns(old(items), itemId, userId) && foreignKeys && TransactionsOf(transactions, itemId) != [] ==>
        res == Err(InternalError) && items == old(items)
      ensures Owns(old(items), itemId, userId) && !(foreignKeys && TransactionsOf(transactions, itemId) != []) ==>
        res == Ok(()) && items == old(items) - {itemId}
      ensures !Owns(old(items), itemId, userId) ==>
        res == Err(NotFound) && items == old(items)
    {
      if !(itemId in items && items[itemId].userId == userId) {
        return Err(NotFound);
      }
      if foreignKeys && TransactionsOf(transactions, itemId) != [] {
        return Err(InternalError);
      }
      if foreignKeys {
        FilterSpec(transactions, ForItem(itemId));
        forall i | 0 <= i < |transactions|
          ensures transactions[i].itemId != itemId
        {
          assert transactions[i] !in TransactionsOf(transactions, itemId);
        }
      }
      items := items - {itemId};
      res := Ok(());
    }
  }
}
