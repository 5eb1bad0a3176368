/** The add-item page: the form's text fields, the change handler and the
    request body it posts to create an item. Text-to-number conversion
    (JavaScript's `Number`) enters as the parameter `toNumber`. */
module AddItem {
  import opened Domain
  import Ledger

  /** The form state: every input holds text. */
  datatype Form = Form(
    name: string,
    category: string,
    productionDate: string,
    expirationDate: string,
    weight: string,
    quantity: string,
    unit: string)

  /** The `name` attribute of an input, which selects the field it edits. */
  datatype Field = Name | Category | ProductionDate | ExpirationDate | Weight | Quantity | Unit

  function Get(f: Form, field: Field): string
  {
    match field
    case Name => f.name
    case Category => f.category
    case ProductionDate => f.productionDate
    case ExpirationDate => f.expirationDate
    case Weight => f.weight
    case Quantity => f.quantity
    case Unit => f.unit
  }

  /** A new form: category 食品 (food), unit 个 (pieces), everything else empty. */
  function InitialForm(): (f: Form)
    ensures f.category == "食品" && f.unit == "个"
    ensures forall field :: field != Category && field != Unit ==> Get(f, field) == ""
  {
    Form("", "食品", "", "", "", "", "个")
  }

  /** handleChange: the input named `field` now holds `value`. */
  function HandleChange(f: Form, field: Field, value: string): (r: Form)
    ensures Get(r, field) == value
    ensures forall other :: other != field ==> Get(r, other) == Get(f, other)
  {
    match field
    case Name => f.(name := value)
    case Category => f.(category := value)
    case ProductionDate => f.(productionDate := value)
    case ExpirationDate => f.(expirationDate := value)
    case Weight => f.(weight := value)
    case Quantity => f.(quantity := value)
    case Unit => f.(unit := value)
  }

  /** The amount input the page shows: weight for vegetables and fruit,
      quantity for everything else. */
  function ShownAmountField(f: Form): (field: Field)
    ensures field == Weight <==> IsWeightCategory(f.category)
    ensures field == Quantity <==> !IsWeightCategory(f.category)
  {
    if IsWeightCategory(f.category) then Weight else Quantity
  }

  /** handleSubmit's request body: the form copied, with the slot the
      category selects converted to a number and the other slot null. */
  function Payload(f: Form, toNumber: string -> real): (p: ItemFields)
    ensures p.weight.Some? != p.quantity.Some?
    ensures IsWeightCategory(f.category) ==> p.weight == Some(toNumber(f.weight)) && p.quantity == None
    ensures !IsWeightCategory(f.category) ==> p.weight == None && p.quantity == Some(toNumber(f.quantity))
    ensures p.name == f.name && p.category == f.category && p.unit == f.unit
    ensures p.productionDate == Some(f.productionDate) && p.expirationDate == f.expirationDate
  {
    ItemFields(
      f.name,
      f.category,
      Some(f.productionDate),
      f.expirationDate,
      if IsWeightCategory(f.category) then Some(toNumber(f.weight)) else None,
      if !IsWeightCategory(f.category) then Some(toNumber(f.quantity)) else None,
      f.unit)
  }

  /** The slot the body fills is the input the page shows, and it carries
      that input's number. */
  lemma ShownFieldIsSubmittedSlot(f: Form, toNumber: string -> real)
    ensures Payload(f, toNumber).weight.Some? <==> ShownAmountField(f) == Weight
    ensures Payload(f, toNumber).quantity.Some? <==> ShownAmountField(f) == Quantity
    ensures Ledger.CurrentAmount(Ledger.NewItem(0, Payload(f, toNumber)))
         == (var v := toNumber(Get(f, ShownAmountField(f))); if v == 0.0 then 0.0 else v)
  {
  }

  /** Editing any input but the category leaves the shown amount input as it was. */
  lemma ShownFieldFollowsCategory(f: Form, field: Field, value: string)
    requires field != Category
    ensures ShownAmountField(HandleChange(f, field, value)) == ShownAmountField(f)
  {
    assert Get(HandleChange(f, field, value), Category) == Get(f, Category);
  }

  /** A new form tracks its item by quantity. */
  lemma InitialFormTracksQuantity(toNumber: string -> real)
    ensures ShownAmountField(InitialForm()) == Quantity
    ensures Payload(InitialForm(), toNumber).weight == None
  {
  }

  /** A submission with a non-zero number is stored with exactly one amount
      column set, holding that number, and its first inbound movement
      carries the same number. */
  lemma NonZeroSubmissionStoresOneSlot(userId: nat, f: Form, toNumber: string -> real)
    requires toNumber(Get(f, ShownAmountField(f))) != 0.0
    ensures var it := Ledger.NewItem(userId, Payload(f, toNumber));
      && it.weight.Some? != it.quantity.Some?
      && it.weight.Some? == IsWeightCategory(f.category)
      && Ledger.CurrentAmount(it) == toNumber(Get(f, ShownAmountField(f)))
    ensures Or(Payload(f, toNumber).weight, Payload(f, toNumber).quantity)
         == Some(toNumber(Get(f, ShownAmountField(f))))
  {
  }

  /** A submission whose number is 0 leaves both amount columns null. For
      vegetables and fruit `weight || quantity` is then null, so the initial
      movement cannot be recorded and the create request fails after the
      row was inserted; for other categories it is 0, which is recorded. */
  lemma ZeroSubmissionStoresNoAmount(userId: nat, f: Form, toNumber: string -> real)
    requires toNumber(Get(f, ShownAmountField(f))) == 0.0
    ensures Ledger.NewItem(userId, Payload(f, toNumber)).weight == None
    ensures Ledger.NewItem(userId, Payload(f, toNumber)).quantity == None
    ensures Or(Payload(f, toNumber).weight, Payload(f, toNumber).quantity)
         == if IsWeightCategory(f.category) then None else Some(0.0)
  {
  }
}
