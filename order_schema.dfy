/** `createGuestOrderSchema`: the field bounds and defaults of a guest order
    payload, and the cross-field rules of its `superRefine`. Raw input is
    taken to be type-correct (strings where strings are expected, numbers
    where numbers are), so the remaining checks are the ones the schema
    states. */
module OrderSchema {
  import opened Wrappers
  import opened SchemaRules

  datatype OrderType = DineIn | Takeaway | Delivery
  datatype Channel = InPerson | Online

  function ParseOrderType(s: string): Option<OrderType> {
    if s == "DINE_IN" then Some(DineIn)
    else if s == "TAKEAWAY" then Some(Takeaway)
    else if s == "DELIVERY" then Some(Delivery)
    else None
  }

  function ParseChannel(s: string): Option<Channel> {
    if s == "IN_PERSON" then Some(InPerson)
    else if s == "ONLINE" then Some(Online)
    else None
  }

  // ---- the payload as received ----

  datatype RawModifier = RawModifier(modifierOptionId: string, quantity: Option<real>)

  datatype RawItem = RawItem(
    menuItemId: string,
    quantity: real,
    notes: Option<string>,
    modifiers: Option<seq<RawModifier>>)

  datatype RawCustomer = RawCustomer(name: string, phone: Option<string>, email: Option<string>)

  datatype RawAddress = RawAddress(
    line1: string,
    line2: Option<string>,
    city: string,
    state: Option<string>,
    postal: Option<string>,
    country: Option<string>)

  datatype RawOrder = RawOrder(
    restaurantId: string,
    orderType: string,
    channel: Option<string>,
    tableId: Option<string>,
    customer: Option<RawCustomer>,
    deliveryAddress: Option<RawAddress>,
    notes: Option<string>,
    items: seq<RawItem>)

  // ---- the parsed payload, defaults applied ----

  datatype ModifierInput = ModifierInput(modifierOptionId: string, quantity: int)

  datatype ItemInput = ItemInput(
    menuItemId: string,
    quantity: int,
    notes: Option<string>,
    modifiers: Option<seq<ModifierInput>>)

  datatype CustomerInput = CustomerInput(name: string, phone: Option<string>, email: Option<string>)

  datatype AddressInput = AddressInput(
    line1: string,
    line2: Option<string>,
    city: string,
    state: Option<string>,
    postal: Option<string>,
    country: string)

  datatype OrderInput = OrderInput(
    restaurantId: string,
    orderType: OrderType,
    channel: Channel,
    tableId: Option<string>,
    customer: Option<CustomerInput>,
    deliveryAddress: Option<AddressInput>,
    notes: Option<string>,
    items: seq<ItemInput>)

  const DineInMessage := "tableId is required for dine-in orders"
  const DeliveryMessage := "deliveryAddress is required for delivery orders"

  /** The channel after its default. */
  function ChannelName(raw: RawOrder): string {
    raw.channel.GetOr("ONLINE")
  }

  // ---- the issues each part raises ----

  function ModifierIssues(path: seq<Segment>, m: RawModifier): seq<Issue> {
    MinLen(path + [Key("modifierOptionId")], m.modifierOptionId, 1)
      + IntRange(path + [Key("quantity")], m.quantity.GetOr(1.0), 1.0, 10.0)
  }

  function ItemIssues(path: seq<Segment>, it: RawItem): seq<Issue> {
    MinLen(path + [Key("menuItemId")], it.menuItemId, 1)
      + IntRange(path + [Key("quantity")], it.quantity, 1.0, 50.0)
      + OptMaxLen(path + [Key("notes")], it.notes, 300)
      + (if it.modifiers.Some? then Each(path + [Key("modifiers")], it.modifiers.value, ModifierIssues) else [])
  }

  function CustomerIssues(path: seq<Segment>, c: RawCustomer, isEmail: string -> bool): seq<Issue> {
    LenRange(path + [Key("name")], c.name, 2, 120)
      + OptMaxLen(path + [Key("phone")], c.phone, 40)
      + (if c.email.Some? then Flag(!isEmail(c.email.value), path + [Key("email")], InvalidEmail) else [])
  }

  function AddressIssues(path: seq<Segment>, a: RawAddress): seq<Issue> {
    LenRange(path + [Key("line1")], a.line1, 2, 160)
      + OptMaxLen(path + [Key("line2")], a.line2, 160)
      + LenRange(path + [Key("city")], a.city, 2, 80)
      + OptMaxLen(path + [Key("state")], a.state, 80)
      + OptMaxLen(path + [Key("postal")], a.postal, 20)
      + LenRange(path + [Key("country")], a.country.GetOr("AR"), 2, 2)
  }

  /** The issues of the object's own fields, in the schema's field order. */
  function FieldIssues(raw: RawOrder, isEmail: string -> bool): seq<Issue> {
    MinLen([Key("restaurantId")], raw.restaurantId, 1)
      + Flag(ParseOrderType(raw.orderType).None?, [Key("type")], InvalidEnum)
      + Flag(ParseChannel(ChannelName(raw)).None?, [Key("channel")], InvalidEnum)
      + (if raw.tableId.Some? then MinLen([Key("tableId")], raw.tableId.value, 1) else [])
      + (if raw.customer.Some? then CustomerIssues([Key("customer")], raw.customer.value, isEmail) else [])
      + (if raw.deliveryAddress.Some? then AddressIssues([Key("deliveryAddress")], raw.deliveryAddress.value) else [])
      + OptMaxLen([Key("notes")], raw.notes, 500)
      + Each([Key("items")], raw.items, ItemIssues)
      + Flag(|raw.items| < 1, [Key("items")], TooSmall)
  }

  /** An unknown enum value aborts the object, and zod then skips the
      refinement; every other failed check lets it run. */
  predicate Aborted(raw: RawOrder) {
    ParseOrderType(raw.orderType).None? || ParseChannel(ChannelName(raw)).None?
  }

  /** `!data.tableId` holds for an absent and for an empty table id. */
  predicate MissingTable(raw: RawOrder) {
    raw.tableId.None? || raw.tableId.value == ""
  }

  /** The issues the `superRefine` callback adds. */
  function RefineIssues(raw: RawOrder): seq<Issue> {
    if Aborted(raw) then []
    else
      (if raw.orderType == "DINE_IN" && MissingTable(raw)
       then [CustomIssue([Key("tableId")], DineInMessage)] else [])
      + (if raw.orderType == "DELIVERY" && raw.deliveryAddress.None?
         then [CustomIssue([Key("deliveryAddress")], DeliveryMessage)] else [])
  }

  function Issues(raw: RawOrder, isEmail: string -> bool): seq<Issue> {
    FieldIssues(raw, isEmail) + RefineIssues(raw)
  }

  // ---- conversion of an accepted payload ----

  function ToModifier(m: RawModifier): ModifierInput {
    ModifierInput(m.modifierOptionId, m.quantity.GetOr(1.0).Floor)
  }

  function ToItem(it: RawItem): ItemInput {
    ItemInput(
      it.menuItemId, it.quantity.Floor, it.notes,
      if it.modifiers.Some? then Some(seq(|it.modifiers.value|, i requires 0 <= i < |it.modifiers.value| => ToModifier(it.modifiers.value[i])))
      else None)
  }

  function ToAddress(a: RawAddress): AddressInput {
    AddressInput(a.line1, a.line2, a.city, a.state, a.postal, a.country.GetOr("AR"))
  }

  function ToOrder(raw: RawOrder): OrderInput
    requires !Aborted(raw)
  {
    OrderInput(
      raw.restaurantId,
      ParseOrderType(raw.orderType).value,
      ParseChannel(ChannelName(raw)).value,
      raw.tableId,
      if raw.customer.Some? then Some(CustomerInput(raw.customer.value.name, raw.customer.value.phone, raw.customer.value.email)) else None,
      if raw.deliveryAddress.Some? then Some(ToAddress(raw.deliveryAddress.value)) else None,
      raw.notes,
      seq(|raw.items|, i requires 0 <= i < |raw.items| => ToItem(raw.items[i])))
  }

  /** `createGuestOrderSchema.safeParse(raw)`: the parsed payload, or every
      issue raised. A failure always names at least one issue. */
  function ParseOrder(raw: RawOrder, isEmail: string -> bool): (r: Result<OrderInput, seq<Issue>>)
    ensures r.Err? ==> r.error != []
    ensures r.Ok? ==> r.value.restaurantId == raw.restaurantId && |r.value.items| == |raw.items|
  {
    var issues := Issues(raw, isEmail);
    if issues == [] then
      assert !Aborted(raw) by {
        assert Flag(ParseOrderType(raw.orderType).None?, [Key("type")], InvalidEnum) == [];
        assert Flag(ParseChannel(ChannelName(raw)).None?, [Key("channel")], InvalidEnum) == [];
      }
      Ok(ToOrder(raw))
    else Err(issues)
  }

  // ---- the rules stated directly ----

  predicate ModifierAdmissible(m: RawModifier) {
    && |m.modifierOptionId| >= 1
    && var q := m.quantity.GetOr(1.0); IsInt(q) && 1.0 <= q <= 10.0
  }

  predicate ItemAdmissible(it: RawItem) {
    && |it.menuItemId| >= 1
    && IsInt(it.quantity) && 1.0 <= it.quantity <= 50.0
    && (it.notes.Some? ==> |it.notes.value| <= 300)
    && (it.modifiers.Some? ==> forall i :: 0 <= i < |it.modifiers.value| ==> ModifierAdmissible(it.modifiers.value[i]))
  }

  predicate CustomerAdmissible(c: RawCustomer, isEmail: string -> bool) {
    && 2 <= |c.name| <= 120
    && (c.phone.Some? ==> |c.phone.value| <= 40)
    && (c.email.Some? ==> isEmail(c.email.value))
  }

  predicate AddressAdmissible(a: RawAddress) {
    && 2 <= |a.line1| <= 160
    && (a.line2.Some? ==> |a.line2.value| <= 160)
    && 2 <= |a.city| <= 80
    && (a.state.Some? ==> |a.state.value| <= 80)
    && (a.postal.Some? ==> |a.postal.value| <= 20)
    && |a.country.GetOr("AR")| == 2
  }

  /** Everything the schema demands of a payload, field by field, then the
      two cross-field rules. */
  predicate OrderAdmissible(raw: RawOrder, isEmail: string -> bool) {
    && |raw.restaurantId| >= 1
    && ParseOrderType(raw.orderType).Some?
    && ParseChannel(ChannelName(raw)).Some?
    && (raw.tableId.Some? ==> |raw.tableId.value| >= 1)
    && (raw.customer.Some? ==> CustomerAdmissible(raw.customer.value, isEmail))
    && (raw.deliveryAddress.Some? ==> AddressAdmissible(raw.deliveryAddress.value))
    && (raw.notes.Some? ==> |raw.notes.value| <= 500)
    && |raw.items| >= 1
    && (forall i :: 0 <= i < |raw.items| ==> ItemAdmissible(raw.items[i]))
    && (raw.orderType == "DINE_IN" ==> !MissingTable(raw))
    && (raw.orderType == "DELIVERY" ==> raw.deliveryAddress.Some?)
  }

  lemma ItemIssuesEmpty(path: seq<Segment>, it: RawItem)
    ensures ItemIssues(path, it) == [] <==> ItemAdmissible(it)
  {
    if it.modifiers.Some? {
      EachEmpty(path + [Key("modifiers")], it.modifiers.value, ModifierIssues);
    }
  }

  lemma ItemsIssuesEmpty(raw: RawOrder)
    ensures Each([Key("items")], raw.items, ItemIssues) == [] <==> forall i :: 0 <= i < |raw.items| ==> ItemAdmissible(raw.items[i])
  {
    EachEmpty([Key("items")], raw.items, ItemIssues);
    forall i | 0 <= i < |raw.items| {
      ItemIssuesEmpty([Key("items")] + [At(i)], raw.items[i]);
    }
  }

  /** A payload is accepted exactly when it meets every rule of the schema. */
  lemma ParseAcceptsExactlyAdmissible(raw: RawOrder, isEmail: string -> bool)
    ensures ParseOrder(raw, isEmail).Ok? <==> OrderAdmissible(raw, isEmail)
  {
    ItemsIssuesEmpty(raw);
  }

  /** A dine-in order without a (non-empty) table id is rejected, and when the
      channel is valid the refinement says why. */
  lemma DineInNeedsTable(raw: RawOrder, isEmail: string -> bool)
    requires raw.orderType == "DINE_IN" && MissingTable(raw)
    ensures ParseOrder(raw, isEmail).Err?
    ensures ParseChannel(ChannelName(raw)).Some? ==>
      CustomIssue([Key("tableId")], DineInMessage) in ParseOrder(raw, isEmail).error
  {
    ParseAcceptsExactlyAdmissible(raw, isEmail);
    if !Aborted(raw) {
      assert RefineIssues(raw)[0] == CustomIssue([Key("tableId")], DineInMessage);
      assert Issues(raw, isEmail)[|FieldIssues(raw, isEmail)|] == CustomIssue([Key("tableId")], DineInMessage);
    }
  }

  /** A delivery order without an address is rejected, and when the channel is
      valid the refinement says why. */
  lemma DeliveryNeedsAddress(raw: RawOrder, isEmail: string -> bool)
    requires raw.orderType == "DELIVERY" && raw.deliveryAddress.None?
    ensures ParseOrder(raw, isEmail).Err?
    ensures ParseChannel(ChannelName(raw)).Some? ==>
      CustomIssue([Key("deliveryAddress")], DeliveryMessage) in ParseOrder(raw, isEmail).error
  {
    ParseAcceptsExactlyAdmissible(raw, isEmail);
    if !Aborted(raw) {
      var f := FieldIssues(raw, isEmail);
      assert RefineIssues(raw) == [CustomIssue([Key("deliveryAddress")], DeliveryMessage)];
      assert Issues(raw, isEmail)[|f|] == CustomIssue([Key("deliveryAddress")], DeliveryMessage);
    }
  }

  /** An admissible line converts to a quantity in 1..50 and modifier
      quantities in 1..10, each modifier quantity 1 when it was left out. */
  lemma ItemConverted(it: RawItem)
    requires ItemAdmissible(it)
    ensures var o := ToItem(it);
      && o.menuItemId == it.menuItemId
      && o.quantity as real == it.quantity
      && 1 <= o.quantity <= 50
      && (o.modifiers.Some? <==> it.modifiers.Some?)
      && (o.modifiers.Some? ==>
            && |o.modifiers.value| == |it.modifiers.value|
            && forall j :: 0 <= j < |o.modifiers.value| ==>
                 var m, rm := o.modifiers.value[j], it.modifiers.value[j];
                 && m.modifierOptionId == rm.modifierOptionId
                 && 1 <= m.quantity <= 10
                 && m.quantity as real == rm.quantity.GetOr(1.0))
  {
    if it.modifiers.Some? {
      var ms := it.modifiers.value;
      forall j | 0 <= j < |ms| ensures ModifierAdmissible(ms[j]) { }
    }
  }

  /** What an accepted payload holds: at least one line, and each line is
      its raw line with quantities checked and defaults applied. */
  lemma AcceptedItems(raw: RawOrder, isEmail: string -> bool, i: nat)
    requires ParseOrder(raw, isEmail).Ok? && i < |raw.items|
    ensures var o := ParseOrder(raw, isEmail).value;
      && |o.items| >= 1
      && o.items[i] == ToItem(raw.items[i])
      && 1 <= o.items[i].quantity <= 50
      && o.items[i].quantity as real == raw.items[i].quantity
  {
    ParseAcceptsExactlyAdmissible(raw, isEmail);
    ItemConverted(raw.items[i]);
  }

  /** An accepted payload keeps the scalar fields it was given, and an absent
      channel becomes ONLINE. */
  lemma AcceptedFields(raw: RawOrder, isEmail: string -> bool)
    requires ParseOrder(raw, isEmail).Ok?
    ensures var o := ParseOrder(raw, isEmail).value;
      && (raw.channel.None? ==> o.channel == Online)
      && ParseOrderType(raw.orderType) == Some(o.orderType)
      && o.tableId == raw.tableId && o.notes == raw.notes
      && (o.notes.Some? ==> |o.notes.value| <= 500)
      && (o.orderType == DineIn ==> o.tableId.Some? && o.tableId.value != "")
      && (o.orderType == Delivery ==> o.deliveryAddress.Some?)
      && (o.customer.Some? ==>
            && 2 <= |o.customer.value.name| <= 120
            && (o.customer.value.phone.Some? ==> |o.customer.value.phone.value| <= 40))
      && (raw.deliveryAddress.Some? && raw.deliveryAddress.value.country.None? ==>
            o.deliveryAddress.value.country == "AR")
  {
    ParseAcceptsExactlyAdmissible(raw, isEmail);
  }

  /** Line notes longer than 300 characters are refused. */
  lemma LongLineNotesRejected(raw: RawOrder, isEmail: string -> bool, i: nat)
    requires i < |raw.items| && raw.items[i].notes.Some? && |raw.items[i].notes.value| > 300
    ensures ParseOrder(raw, isEmail).Err?
  {
    ParseAcceptsExactlyAdmissible(raw, isEmail);
    assert !ItemAdmissible(raw.items[i]);
  }

  /** An order with no lines is refused. */
  lemma EmptyOrderRejected(raw: RawOrder, isEmail: string -> bool)
    requires raw.items == []
    ensures ParseOrder(raw, isEmail).Err?
    ensures FieldIssue([Key("items")], TooSmall) in ParseOrder(raw, isEmail).error
  {
    assert Each([Key("items")], raw.items, ItemIssues) == [];
    var f := FieldIssues(raw, isEmail);
    assert f[|f| - 1] == FieldIssue([Key("items")], TooSmall);
  }
}
