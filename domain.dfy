/** Rows of the inventory database (users, items, transactions) and the few
    JavaScript value rules the route handlers rely on. */
module Domain {

  datatype Option<T> = None | Some(value: T)

  /** A row of the users table: the notification settings the reminder job reads. */
  datatype User = User(
    id: nat,
    username: string,
    email: Option<string>,
    webhook: Option<string>,
    reminderDays: int)

  /** A row of the items table without its id: the id is the key the row is
      stored under. `weight` and `quantity` are the two nullable REAL columns. */
  datatype Item = Item(
    userId: nat,
    name: string,
    category: string,
    productionDate: Option<string>,
    expirationDate: string,
    weight: Option<real>,
    quantity: Option<real>,
    unit: string)

  /** An item together with its id, as a SELECT returns it. */
  datatype Row = Row(id: nat, item: Item)

  datatype TxKind = Inbound | Outbound

  /** A row of the transactions table. `timestamp` stands for the
      CURRENT_TIMESTAMP the database fills in. */
  datatype Transaction = Transaction(
    id: nat,
    itemId: nat,
    userId: nat,
    kind: TxKind,
    amount: real,
    timestamp: int)

  /** The seven editable fields of an item in a create or update request body. */
  datatype ItemFields = ItemFields(
    name: string,
    category: string,
    productionDate: Option<string>,
    expirationDate: string,
    weight: Option<real>,
    quantity: Option<real>,
    unit: string)

  /** Vegetables (蔬菜) and fruit (水果) are tracked by weight; every other
      category by quantity. The form and the reminder job use the same list. */
  predicate IsWeightCategory(category: string)
  {
    category == "蔬菜" || category == "水果"
  }

  /** JavaScript truthiness of a nullable number: null and 0 are falsy. */
  predicate Truthy(x: Option<real>)
  {
    x.Some? && x.value != 0.0
  }

  /** JavaScript truthiness of a nullable text: null and "" are falsy. */
  predicate TruthyText(x: Option<string>)
  {
    x.Some? && x.value != ""
  }

  /** `a || b` on nullable numbers: `a` when it is truthy, otherwise `b`. */
  function Or(a: Option<real>, b: Option<real>): Option<real>
  {
    if Truthy(a) then a else b
  }

  /** `x || null`: a falsy number is stored as NULL. */
  function OrNull(x: Option<real>): Option<real>
  {
    Or(x, None)
  }
}
