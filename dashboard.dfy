/** The dashboard page: the status badge of an item, the category filter and
    the amount shown next to the unit. `days` is the whole number of days
    from now to the item's expiration date. */
module Dashboard {
  import opened Domain
  import opened Seqs
  import Ledger
  import Reminders

  /** The badge of an item: expired, near expiry with the days left, or
      normal with the days left. */
  datatype Status = Expired | NearExpiry(days: int) | Normal(days: int)

  /** The dashboard's near-expiry window, fixed at 30 days whatever the
      user's reminder setting. */
  const NearWindow: int := 30

  /** getStatus. */
  function GetStatus(days: int): (s: Status)
    ensures s.Expired? <==> days < 0
    ensures s.NearExpiry? <==> 0 <= days <= NearWindow
    ensures s.Normal? <==> NearWindow < days
    ensures !s.Expired? ==> s.days == days
  {
    if days < 0 then Expired
    else if days <= NearWindow then NearExpiry(days)
    else Normal(days)
  }

  /** The filter value that keeps every category. */
  const AllCategories: string := "all"

  /** filteredItems: every row for "all", otherwise the rows of that
      category, in the order the server returned them. */
  function FilterItems(rows: seq<Row>, filter: string): (r: seq<Row>)
    ensures filter == AllCategories ==> r == rows
    ensures filter != AllCategories ==>
      forall x :: x in r <==> x in rows && x.item.category == filter
    ensures forall x :: (multiset(r)[x] ==
      if filter == AllCategories || x.item.category == filter then multiset(rows)[x] else 0)
    ensures Subseq(r, rows)
  {
    var keep := (x: Row) => filter == AllCategories || x.item.category == filter;
    FilterSpec(rows, keep);
    if filter == AllCategories then
      FilterKeepsAll(rows, keep);
      Filter(rows, keep)
    else
      Filter(rows, keep)
  }

  /** The amount shown: `weight` when it is not null, otherwise `quantity`. */
  function DisplayAmount(it: Item): (r: Option<real>)
    ensures it.weight.Some? ==> r == it.weight
    ensures it.weight.None? ==> r == it.quantity
  {
    if it.weight.Some? then it.weight else it.quantity
  }

  /** The amount shown is the amount the server moves: a shown number is
      the current amount, and nothing is shown only for an item with
      neither column, whose current amount counts as 0. */
  lemma DisplayIsCurrentAmount(it: Item)
    ensures DisplayAmount(it).Some? ==> DisplayAmount(it).value == Ledger.CurrentAmount(it)
    ensures DisplayAmount(it).None? <==> it.weight.None? && it.quantity.None?
    ensures DisplayAmount(it).None? ==> Ledger.CurrentAmount(it) == 0.0
  {
  }

  /** After a movement the dashboard shows the new amount the server returned. */
  lemma DisplayAfterMovement(it: Item, newAmount: real)
    ensures DisplayAmount(Ledger.WithAmount(it, newAmount)) == Some(newAmount)
  {
  }

  /** A vegetable emptied to weight 0 with no quantity shows 0 on the
      dashboard, while the daily webhook report prints `weight || quantity`,
      which is null. */
  lemma EmptiedProduceDisplay(it: Item)
    requires it.weight == Some(0.0) && it.quantity == None
    ensures DisplayAmount(it) == Some(0.0)
    ensures Or(it.weight, it.quantity) == None
  {
  }

  /** The dashboard's expired badge and the reminder job's expired bucket
      agree item by item. */
  lemma ExpiredAgreesWithReminders(items: seq<Item>, daysLeft: string -> int, x: Item)
    ensures x in Reminders.Expired(items, daysLeft)
        <==> x in items && GetStatus(daysLeft(x.expirationDate)).Expired?
  {
  }

  /** With a reminder lead time of at most 30 days, every item the job
      reports as near expiry carries the near-expiry badge; with a longer
      lead time an item 31 days out is reported but badged normal. */
  lemma NearExpiryAgreesWithReminders(items: seq<Item>, reminderDays: int, daysLeft: string -> int, x: Item)
    ensures reminderDays <= NearWindow && x in Reminders.NearExpiry(items, reminderDays, daysLeft)
        ==> GetStatus(daysLeft(x.expirationDate)).NearExpiry?
    ensures NearWindow < reminderDays && x in items && daysLeft(x.expirationDate) == NearWindow + 1
        ==> x in Reminders.NearExpiry(items, reminderDays, daysLeft)
            && GetStatus(daysLeft(x.expirationDate)).Normal?
  {
  }
}
