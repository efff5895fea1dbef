/** The pricing part of `createGuestOrder`: line totals under the three tax
    cases, the check that every requested menu item was found, modifier
    resolution and group bounds, unit prices, and the sums that become the
    order's and the invoice's totals. Amounts are exact (`real`). */
module Pricing {
  import opened Wrappers
  import opened Errors
  import opened OrderSchema
  import Security

  // ---- catalog rows, as the queries return them ----

  datatype TaxRate = TaxRate(rate: real, isInclusive: bool)

  datatype MenuItemRow = MenuItemRow(
    restaurantId: string,
    name: string,
    price: real,
    isActive: bool,
    taxRate: Option<TaxRate>)

  datatype OptionRow = OptionRow(modifierGroupId: string, name: string, price: real, isActive: bool)

  datatype GroupRow = GroupRow(minSelected: int, maxSelected: int)

  /** A row of the menu item / modifier group join table. */
  datatype Link = Link(menuItemId: string, modifierGroupId: string)

  /** The menu as stored: rows keyed by id, and the join table in its order. */
  datatype Catalog = Catalog(
    menuItems: map<string, MenuItemRow>,
    options: map<string, OptionRow>,
    groups: map<string, GroupRow>,
    links: seq<Link>)

  /** Tax rates are never validated by the code; the model takes them to be
      non-negative. */
  predicate RatesNonNegative(cat: Catalog) {
    forall id :: id in cat.menuItems && cat.menuItems[id].taxRate.Some? ==> cat.menuItems[id].taxRate.value.rate >= 0.0
  }

  // ---- computeTotals ----

  datatype Totals = Totals(subtotal: real, tax: real, total: real)

  /** `computeTotals`: no tax when the rate is absent or zero; an inclusive
      rate takes the tax out of the charged amount; an exclusive rate adds it. */
  function ComputeTotals(unitPrice: real, quantity: int, taxRate: Option<real>, isInclusive: Option<bool>): (t: Totals)
    requires taxRate.GetOr(0.0) >= 0.0
    ensures t.total == t.subtotal + t.tax
    ensures taxRate.GetOr(0.0) == 0.0 ==> t.tax == 0.0 && t.total == unitPrice * quantity as real
    ensures isInclusive == Some(true) ==>
      && t.total == unitPrice * quantity as real
      && t.tax * (taxRate.GetOr(0.0) + 1.0) == unitPrice * quantity as real * taxRate.GetOr(0.0)
    ensures isInclusive != Some(true) ==>
      t.subtotal == unitPrice * quantity as real && t.tax == unitPrice * taxRate.GetOr(0.0) * quantity as real
  {
    var rate := taxRate.GetOr(0.0);
    var qty := quantity as real;
    var unit := unitPrice;
    if rate == 0.0 then
      Totals(unit * qty, 0.0, unit * qty)
    else if isInclusive == Some(true) then
      var tax := (unit - unit / (rate + 1.0)) * qty;
      assert tax * (rate + 1.0) == unit * qty * rate by {
        assert (unit - unit / (rate + 1.0)) * (rate + 1.0) == unit * rate;
      }
      Totals(unit * qty - tax, tax, unit * qty)
    else
      var tax := unit * rate * qty;
      Totals(unit * qty, tax, unit * qty + tax)
  }

  /** With a positive rate, a non-negative price and quantity, the tax lies
      between 0 and the total in both modes. */
  lemma TaxWithinTotal(unitPrice: real, quantity: int, rate: real, isInclusive: Option<bool>)
    requires rate > 0.0 && unitPrice >= 0.0 && quantity >= 0
    ensures var t := ComputeTotals(unitPrice, quantity, Some(rate), isInclusive);
      0.0 <= t.tax <= t.total
  {
    var t := ComputeTotals(unitPrice, quantity, Some(rate), isInclusive);
    var gross := unitPrice * quantity as real;
    assert gross >= 0.0;
    if isInclusive == Some(true) {
      InclusiveShare(t.tax, gross, rate);
    } else {
      assert t.tax == gross * rate;
    }
  }

  /** The tax an inclusive rate takes out is a share of the gross amount. */
  lemma InclusiveShare(tax: real, gross: real, rate: real)
    requires rate > 0.0 && gross >= 0.0 && tax * (rate + 1.0) == gross * rate
    ensures 0.0 <= tax <= gross
  {
    var k := rate + 1.0;
    var f := rate / k;
    assert 0.0 <= f <= 1.0;
    assert tax == gross * f by {
      assert tax == (gross * rate) / k;
    }
    assert gross * f <= gross * 1.0;
  }

  // ---- the menu item count check ----

  function MenuItemIds(items: seq<ItemInput>): (ids: seq<string>)
    ensures |ids| == |items| && forall i :: 0 <= i < |items| ==> ids[i] == items[i].menuItemId
  {
    seq(|items|, i requires 0 <= i < |items| => items[i].menuItemId)
  }

  /** The menu item query's filter: the item exists, belongs to the
      restaurant and is active. */
  predicate Eligible(cat: Catalog, restaurantId: string, id: string) {
    id in cat.menuItems && cat.menuItems[id].restaurantId == restaurantId && cat.menuItems[id].isActive
  }

  /** The rows found by `id: { in: ids }`: each matching id once, however
      often it was asked for. */
  function FoundMenuItems(cat: Catalog, restaurantId: string, ids: seq<string>): set<string> {
    set id | id in ids && Eligible(cat, restaurantId, id)
  }

  predicate Distinct(ids: seq<string>) {
    forall i, j :: 0 <= i < j < |ids| ==> ids[i] != ids[j]
  }

  lemma {:induction false} ElementsCard(ids: seq<string>)
    ensures |set x | x in ids| <= |ids|
    ensures |set x | x in ids| == |ids| <==> Distinct(ids)
  {
    if ids != [] {
      var init, last := ids[..|ids| - 1], ids[|ids| - 1];
      ElementsCard(init);
      assert (set x | x in ids) == (set x | x in init) + {last};
      if last in init {
        var k :| 0 <= k < |init| && init[k] == last;
        assert ids[k] == ids[|ids| - 1];
      } else {
        assert Distinct(ids) <==> Distinct(init) by {
          if Distinct(init) {
            forall i, j | 0 <= i < j < |ids| ensures ids[i] != ids[j] {
              if j < |init| { assert ids[i] == init[i] && ids[j] == init[j]; }
              else { assert ids[i] == init[i]; }
            }
          }
          if Distinct(ids) {
            forall i, j | 0 <= i < j < |init| ensures init[i] != init[j] {
              assert ids[i] == init[i] && ids[j] == init[j];
            }
          }
        }
      }
    }
  }

  lemma ProperSubsetCard(a: set<string>, b: set<string>, x: string)
    requires a <= b && x in b && x !in a
    ensures |a| < |b|
  {
    assert a <= b - {x};
    assert |b - {x}| == |b| - 1;
    SubsetCard(a, b - {x});
  }

  lemma SubsetCard(a: set<string>, b: set<string>)
    requires a <= b
    ensures |a| <= |b|
  {
    assert b == a + (b - a);
  }

  /** The count check passes exactly when the requested ids are distinct and
      every one of them is an active item of this restaurant. */
  lemma CountCheckPasses(cat: Catalog, restaurantId: string, ids: seq<string>)
    ensures |FoundMenuItems(cat, restaurantId, ids)| == |ids| <==>
      Distinct(ids) && forall i :: 0 <= i < |ids| ==> Eligible(cat, restaurantId, ids[i])
  {
    var found, all := FoundMenuItems(cat, restaurantId, ids), set x | x in ids;
    ElementsCard(ids);
    if forall i :: 0 <= i < |ids| ==> Eligible(cat, restaurantId, ids[i]) {
      assert found == all;
    } else {
      var i :| 0 <= i < |ids| && !Eligible(cat, restaurantId, ids[i]);
      ProperSubsetCard(found, all, ids[i]);
    }
  }

  // ---- the allowed groups of each menu item ----

  /** The groups linked to `item`, each once, in the order of their first
      link: the `Set` that `allowedGroupsByItem` holds for it. */
  function GroupsOf(links: seq<Link>, item: string): seq<string> {
    if links == [] then []
    else
      var gs, last := GroupsOf(links[..|links| - 1], item), links[|links| - 1];
      if last.menuItemId == item && last.modifierGroupId !in gs then gs + [last.modifierGroupId] else gs
  }

  lemma {:induction false} GroupsOfLinked(links: seq<Link>, item: string)
    ensures Distinct(GroupsOf(links, item))
    ensures forall g :: g in GroupsOf(links, item) <==> Link(item, g) in links
  {
    if links != [] {
      var init := links[..|links| - 1];
      GroupsOfLinked(init, item);
      assert links == init + [links[|links| - 1]];
    }
  }

  /** The join-table query `menuItemId: { in: ids }`. */
  function LinksFor(links: seq<Link>, ids: seq<string>): (r: seq<Link>)
    ensures forall l :: l in r <==> l in links && l.menuItemId in ids
  {
    if links == [] then []
    else
      var init, last := links[..|links| - 1], links[|links| - 1];
      assert links == init + [last];
      LinksFor(init, ids) + (if last.menuItemId in ids then [last] else [])
  }

  /** Restricting the join table to the requested items does not change the
      groups of a requested item. */
  lemma {:induction false} GroupsOfLinksFor(links: seq<Link>, ids: seq<string>, item: string)
    requires item in ids
    ensures GroupsOf(LinksFor(links, ids), item) == GroupsOf(links, item)
  {
    if links != [] {
      var init, last := links[..|links| - 1], links[|links| - 1];
      GroupsOfLinksFor(init, ids, item);
      var r := LinksFor(init, ids);
      if last.menuItemId in ids {
        assert LinksFor(links, ids) == r + [last];
        assert (r + [last])[..|r|] == r;
      } else {
        assert LinksFor(links, ids) == r;
        assert last.menuItemId != item;
      }
    }
  }

  function Allowed(allowed: map<string, seq<string>>, item: string): seq<string> {
    if item in allowed then allowed[item] else []
  }

  /** The loop that fills `allowedGroupsByItem` (`?? new Set()` for an item
      without links is the empty sequence). */
  method BuildAllowedGroups(links: seq<Link>) returns (allowed: map<string, seq<string>>)
    ensures forall item :: Allowed(allowed, item) == GroupsOf(links, item)
  {
    allowed := map[];
    for i := 0 to |links|
      invariant forall item :: Allowed(allowed, item) == GroupsOf(links[..i], item)
    {
      var link := links[i];
      assert links[..i + 1][..i] == links[..i];
      if link.menuItemId !in allowed {
        allowed := allowed[link.menuItemId := []];
      }
      var gs := allowed[link.menuItemId];
      if link.modifierGroupId !in gs {
        allowed := allowed[link.menuItemId := gs + [link.modifierGroupId]];
      }
    }
    assert links[..|links|] == links;
  }

  // ---- modifiers of one line ----

  /** A requested modifier paired with the option row it names. */
  datatype Resolved = Resolved(optionId: string, option: OptionRow, quantity: int)

  /** The option query's filter: the option exists and is active. */
  predicate KnownOption(cat: Catalog, id: string) {
    id in cat.options && cat.options[id].isActive
  }

  /** The modifier is a known option of a group allowed for the item. */
  predicate Resolvable(cat: Catalog, allowed: seq<string>, m: ModifierInput) {
    KnownOption(cat, m.modifierOptionId) && cat.options[m.modifierOptionId].modifierGroupId in allowed
  }

  /** `item.modifiers?.map(...)`: the first modifier that fails decides the
      error. */
  function ResolveModifiers(cat: Catalog, allowed: seq<string>, mods: seq<ModifierInput>): (r: Result<seq<Resolved>, AppError>)
    ensures r.Ok? <==> forall i :: 0 <= i < |mods| ==> Resolvable(cat, allowed, mods[i])
    ensures r.Ok? ==> |r.value| == |mods| && forall i :: 0 <= i < |mods| ==>
      r.value[i] == Resolved(mods[i].modifierOptionId, cat.options[mods[i].modifierOptionId], mods[i].quantity)
  {
    if mods == [] then Ok([])
    else
      var m := mods[0];
      if !KnownOption(cat, m.modifierOptionId) then Err(BadRequest("Invalid modifier option"))
      else
        var option := cat.options[m.modifierOptionId];
        if option.modifierGroupId !in allowed then Err(BadRequest("Modifier not allowed for this item"))
        else
          match ResolveModifiers(cat, allowed, mods[1..])
          case Err(e) => Err(e)
          case Ok(rest) =>
            assert forall i :: 1 <= i < |mods| ==> mods[i] == mods[1..][i - 1];
            Ok([Resolved(m.modifierOptionId, option, m.quantity)] + rest)
  }

  /** The first modifier that cannot be resolved decides the message: an
      unknown or inactive option, or one whose group is not linked. */
  lemma {:induction false} FirstBadModifierDecides(cat: Catalog, allowed: seq<string>, mods: seq<ModifierInput>, k: nat)
    requires k < |mods| && !Resolvable(cat, allowed, mods[k])
    requires forall i :: 0 <= i < k ==> Resolvable(cat, allowed, mods[i])
    ensures ResolveModifiers(cat, allowed, mods) == Err(BadRequest(
      if KnownOption(cat, mods[k].modifierOptionId) then "Modifier not allowed for this item" else "Invalid modifier option"))
  {
    if k > 0 {
      assert forall i :: 0 <= i < k - 1 ==> mods[1..][i] == mods[i + 1];
      FirstBadModifierDecides(cat, allowed, mods[1..], k - 1);
    }
  }

  /** The quantities requested in group `g`. */
  function GroupQuantity(rs: seq<Resolved>, g: string): int {
    if rs == [] then 0
    else
      var last := rs[|rs| - 1];
      GroupQuantity(rs[..|rs| - 1], g) + (if last.option.modifierGroupId == g then last.quantity else 0)
  }

  function Count(counts: map<string, int>, g: string): int {
    if g in counts then counts[g] else 0
  }

  /** The loop that fills `countsByGroup`. */
  method CountByGroup(rs: seq<Resolved>) returns (counts: map<string, int>)
    ensures forall g :: Count(counts, g) == GroupQuantity(rs, g)
  {
    counts := map[];
    for i := 0 to |rs|
      invariant forall g :: Count(counts, g) == GroupQuantity(rs[..i], g)
    {
      var r := rs[i];
      assert rs[..i + 1][..i] == rs[..i];
      counts := counts[r.option.modifierGroupId := Count(counts, r.option.modifierGroupId) + r.quantity];
    }
    assert rs[..|rs|] == rs;
  }

  /** A group's bounds, where 0 means "no bound". */
  predicate WithinBounds(group: GroupRow, selected: int) {
    (group.minSelected > 0 ==> selected >= group.minSelected)
    && (group.maxSelected > 0 ==> selected <= group.maxSelected)
  }

  /** The checks over the item's groups, in order; a group without a loaded
      row is skipped. */
  function GroupsCheck(groups: map<string, GroupRow>, required: seq<string>, rs: seq<Resolved>): Outcome<AppError> {
    if required == [] then Pass
    else
      var g := required[0];
      if g !in groups then GroupsCheck(groups, required[1..], rs)
      else
        var selected := GroupQuantity(rs, g);
        if groups[g].minSelected > 0 && selected < groups[g].minSelected then Fail(BadRequest("Missing required modifiers"))
        else if groups[g].maxSelected > 0 && selected > groups[g].maxSelected then Fail(BadRequest("Too many modifiers selected"))
        else GroupsCheck(groups, required[1..], rs)
  }

  /** The group checks pass exactly when every loaded group among the
      required ones is within its bounds. */
  lemma {:induction false} GroupsCheckPasses(groups: map<string, GroupRow>, required: seq<string>, rs: seq<Resolved>)
    ensures GroupsCheck(groups, required, rs).Pass? <==>
      forall g :: g in required && g in groups ==> WithinBounds(groups[g], GroupQuantity(rs, g))
  {
    if required != [] {
      GroupsCheckPasses(groups, required[1..], rs);
      assert required == [required[0]] + required[1..];
    }
  }

  /** The `for (const groupId of requiredGroups)` loop. */
  method CheckRequiredGroups(groups: map<string, GroupRow>, required: seq<string>, counts: map<string, int>, ghost rs: seq<Resolved>)
    returns (outcome: Outcome<AppError>)
    requires forall g :: Count(counts, g) == GroupQuantity(rs, g)
    ensures outcome == GroupsCheck(groups, required, rs)
  {
    for i := 0 to |required|
      invariant GroupsCheck(groups, required, rs) == GroupsCheck(groups, required[i..], rs)
    {
      var g := required[i];
      assert required[i..][1..] == required[i + 1..];
      if g in groups {
        var selected := Count(counts, g);
        if groups[g].minSelected > 0 && selected < groups[g].minSelected {
          return Fail(BadRequest("Missing required modifiers"));
        }
        if groups[g].maxSelected > 0 && selected > groups[g].maxSelected {
          return Fail(BadRequest("Too many modifiers selected"));
        }
      }
    }
    outcome := Pass;
  }

  /** `modifiers.reduce(...)`: the price of each option times its quantity. */
  function ModifierTotal(rs: seq<Resolved>): real {
    if rs == [] then 0.0
    else ModifierTotal(rs[..|rs| - 1]) + rs[|rs| - 1].option.price * rs[|rs| - 1].quantity as real
  }

  // ---- one line ----

  datatype LineModifier = LineModifier(modifierOptionId: string, name: string, price: real)

  /** The order item written for one line. */
  datatype OrderLine = OrderLine(
    menuItemId: string,
    name: string,
    quantity: int,
    unitPrice: real,
    totalPrice: real,
    taxAmount: real,
    notes: Option<string>,
    modifiers: seq<LineModifier>)

  /** A priced line and the totals it adds to the order. */
  datatype LinePriced = LinePriced(line: OrderLine, totals: Totals)

  function LineModifiers(rs: seq<Resolved>): (ms: seq<LineModifier>)
    ensures |ms| == |rs| && forall i :: 0 <= i < |rs| ==> ms[i] == LineModifier(rs[i].optionId, rs[i].option.name, rs[i].option.price)
  {
    seq(|rs|, i requires 0 <= i < |rs| => LineModifier(rs[i].optionId, rs[i].option.name, rs[i].option.price))
  }

  /** `item.notes ? sanitizeText(item.notes) : null` */
  function LineNotes(notes: Option<string>): Option<string> {
    if notes.Some? && notes.value != "" then Some(Security.SanitizeText(notes.value)) else None
  }

  /** Line totals for one line, from the item's tax rate. */
  function LineTotals(menuItem: MenuItemRow, unitPrice: real, quantity: int): Totals
    requires menuItem.taxRate.Some? ==> menuItem.taxRate.value.rate >= 0.0
  {
    ComputeTotals(unitPrice, quantity,
      if menuItem.taxRate.Some? then Some(menuItem.taxRate.value.rate) else None,
      if menuItem.taxRate.Some? then Some(menuItem.taxRate.value.isInclusive) else None)
  }

  /** The callback of `input.items.map(...)` for one line. */
  function PriceLine(cat: Catalog, restaurantId: string, item: ItemInput): Result<LinePriced, AppError>
    requires RatesNonNegative(cat)
  {
    if !Eligible(cat, restaurantId, item.menuItemId) then Err(BadRequest("Menu item not found"))
    else
      var menuItem := cat.menuItems[item.menuItemId];
      var allowed := GroupsOf(cat.links, item.menuItemId);
      match ResolveModifiers(cat, allowed, item.modifiers.GetOr([]))
      case Err(e) => Err(e)
      case Ok(rs) =>
        match GroupsCheck(cat.groups, allowed, rs)
        case Fail(e) => Err(e)
        case Pass =>
          var unitPrice := menuItem.price + ModifierTotal(rs);
          var t := LineTotals(menuItem, unitPrice, item.quantity);
          Ok(LinePriced(
            OrderLine(item.menuItemId, menuItem.name, item.quantity, unitPrice, t.total, t.tax,
                      LineNotes(item.notes), LineModifiers(rs)),
            t))
  }

  /** The lines in order; the first line that fails decides the error. */
  function PriceLines(cat: Catalog, restaurantId: string, items: seq<ItemInput>): Result<seq<LinePriced>, AppError>
    requires RatesNonNegative(cat)
  {
    if items == [] then Ok([])
    else
      match PriceLines(cat, restaurantId, items[..|items| - 1])
      case Err(e) => Err(e)
      case Ok(ls) =>
        match PriceLine(cat, restaurantId, items[|items| - 1])
        case Err(e) => Err(e)
        case Ok(l) => Ok(ls + [l])
  }

  /** Once a prefix of the lines fails, the whole order fails the same way. */
  lemma {:induction false} PriceLinesFailureStays(cat: Catalog, restaurantId: string, items: seq<ItemInput>, k: nat)
    requires RatesNonNegative(cat)
    requires k <= |items| && PriceLines(cat, restaurantId, items[..k]).Err?
    ensures PriceLines(cat, restaurantId, items) == PriceLines(cat, restaurantId, items[..k])
    decreases |items| - k
  {
    if k == |items| {
      assert items[..k] == items;
    } else {
      var init := items[..|items| - 1];
      assert init[..k] == items[..k];
      PriceLinesFailureStays(cat, restaurantId, init, k);
    }
  }

  /** The running `subtotal`, `taxTotal` and `total`. */
  function SumTotals(ls: seq<LinePriced>): Totals {
    if ls == [] then Totals(0.0, 0.0, 0.0)
    else
      var s, t := SumTotals(ls[..|ls| - 1]), ls[|ls| - 1].totals;
      Totals(s.subtotal + t.subtotal, s.tax + t.tax, s.total + t.total)
  }

  function LinesOf(ls: seq<LinePriced>): (lines: seq<OrderLine>)
    ensures |lines| == |ls| && forall i :: 0 <= i < |ls| ==> lines[i] == ls[i].line
  {
    seq(|ls|, i requires 0 <= i < |ls| => ls[i].line)
  }

  /** The priced order: its lines and the three totals. */
  datatype Priced = Priced(lines: seq<OrderLine>, totals: Totals)

  const ItemsInvalid := "Some menu items are invalid or inactive"

  /** The validation and pricing of `createGuestOrder`, as one value. */
  function PriceOrderSpec(cat: Catalog, restaurantId: string, items: seq<ItemInput>): Result<Priced, AppError>
    requires RatesNonNegative(cat)
  {
    var ids := MenuItemIds(items);
    if |FoundMenuItems(cat, restaurantId, ids)| != |ids| then Err(BadRequest(ItemsInvalid))
    else
      match PriceLines(cat, restaurantId, items)
      case Err(e) => Err(e)
      case Ok(ls) => Ok(Priced(LinesOf(ls), SumTotals(ls)))
  }

  // ---- what the pricing rules guarantee ----

  /** An order listing the same menu item on two lines is refused by the
      count check, whatever those lines hold: the query finds the item once. */
  lemma RepeatedItemRejected(cat: Catalog, restaurantId: string, items: seq<ItemInput>, i: nat, j: nat)
    requires RatesNonNegative(cat)
    requires i < j < |items| && items[i].menuItemId == items[j].menuItemId
    ensures PriceOrderSpec(cat, restaurantId, items) == Err(BadRequest(ItemsInvalid))
  {
    var ids := MenuItemIds(items);
    CountCheckPasses(cat, restaurantId, ids);
    assert ids[i] == ids[j];
  }

  /** The messages a line can fail with. */
  predicate LineError(e: AppError) {
    e in {BadRequest("Menu item not found"), BadRequest("Invalid modifier option"),
          BadRequest("Modifier not allowed for this item"), BadRequest("Missing required modifiers"),
          BadRequest("Too many modifiers selected")}
  }

  lemma {:induction false} GroupsCheckErrors(groups: map<string, GroupRow>, required: seq<string>, rs: seq<Resolved>)
    ensures GroupsCheck(groups, required, rs).Fail? ==>
      GroupsCheck(groups, required, rs).error in {BadRequest("Missing required modifiers"), BadRequest("Too many modifiers selected")}
  {
    if required != [] {
      GroupsCheckErrors(groups, required[1..], rs);
    }
  }

  lemma {:induction false} ResolveErrors(cat: Catalog, allowed: seq<string>, mods: seq<ModifierInput>)
    ensures ResolveModifiers(cat, allowed, mods).Err? ==>
      ResolveModifiers(cat, allowed, mods).error in {BadRequest("Invalid modifier option"), BadRequest("Modifier not allowed for this item")}
  {
    if mods != [] {
      ResolveErrors(cat, allowed, mods[1..]);
    }
  }

  /** A line of an eligible item fails only with a modifier message. */
  lemma PriceLineErrors(cat: Catalog, restaurantId: string, item: ItemInput)
    requires RatesNonNegative(cat) && PriceLine(cat, restaurantId, item).Err?
    ensures LineError(PriceLine(cat, restaurantId, item).error)
    ensures Eligible(cat, restaurantId, item.menuItemId) ==>
      PriceLine(cat, restaurantId, item).error != BadRequest("Menu item not found")
  {
    if Eligible(cat, restaurantId, item.menuItemId) {
      var allowed := GroupsOf(cat.links, item.menuItemId);
      var mods := item.modifiers.GetOr([]);
      ResolveErrors(cat, allowed, mods);
      if ResolveModifiers(cat, allowed, mods).Ok? {
        GroupsCheckErrors(cat.groups, allowed, ResolveModifiers(cat, allowed, mods).value);
      }
    }
  }

  lemma {:induction false} PriceLinesErrors(cat: Catalog, restaurantId: string, items: seq<ItemInput>)
    requires RatesNonNegative(cat) && PriceLines(cat, restaurantId, items).Err?
    requires forall i :: 0 <= i < |items| ==> Eligible(cat, restaurantId, items[i].menuItemId)
    ensures LineError(PriceLines(cat, restaurantId, items).error)
    ensures PriceLines(cat, restaurantId, items).error != BadRequest("Menu item not found")
  {
    var init := items[..|items| - 1];
    if PriceLines(cat, restaurantId, init).Err? {
      PriceLinesErrors(cat, restaurantId, init);
    } else {
      PriceLineErrors(cat, restaurantId, items[|items| - 1]);
    }
  }

  /** The count check alone answers "Some menu items are invalid or
      inactive", exactly when a requested item is repeated, unknown, of
      another restaurant or inactive; and "Menu item not found" is never
      raised, since the count check has already found every item. */
  lemma CountCheckDecides(cat: Catalog, restaurantId: string, items: seq<ItemInput>)
    requires RatesNonNegative(cat)
    ensures var ids := MenuItemIds(items);
      PriceOrderSpec(cat, restaurantId, items) == Err(BadRequest(ItemsInvalid)) <==>
        !(Distinct(ids) && forall i :: 0 <= i < |ids| ==> Eligible(cat, restaurantId, ids[i]))
    ensures PriceOrderSpec(cat, restaurantId, items) != Err(BadRequest("Menu item not found"))
  {
    var ids := MenuItemIds(items);
    CountCheckPasses(cat, restaurantId, ids);
    if |FoundMenuItems(cat, restaurantId, ids)| == |ids| && PriceLines(cat, restaurantId, items).Err? {
      PriceLinesErrors(cat, restaurantId, items);
    }
  }

  /** The lines of an accepted order, one per requested line. */
  lemma {:induction false} PriceLinesEach(cat: Catalog, restaurantId: string, items: seq<ItemInput>)
    requires RatesNonNegative(cat) && PriceLines(cat, restaurantId, items).Ok?
    ensures var ls := PriceLines(cat, restaurantId, items).value;
      |ls| == |items| && forall i :: 0 <= i < |items| ==> PriceLine(cat, restaurantId, items[i]) == Ok(ls[i])
  {
    if items != [] {
      var init := items[..|items| - 1];
      PriceLinesEach(cat, restaurantId, init);
      var ls := PriceLines(cat, restaurantId, items).value;
      assert ls[..|init|] == PriceLines(cat, restaurantId, init).value;
      forall i | 0 <= i < |init| ensures PriceLine(cat, restaurantId, items[i]) == Ok(ls[i]) {
        assert items[i] == init[i] && ls[i] == ls[..|init|][i];
      }
    }
  }

  /** A line fails as soon as any line of the order fails. */
  lemma {:induction false} FailingLineRejects(cat: Catalog, restaurantId: string, items: seq<ItemInput>, i: nat)
    requires RatesNonNegative(cat)
    requires i < |items| && PriceLine(cat, restaurantId, items[i]).Err?
    ensures PriceOrderSpec(cat, restaurantId, items).Err?
  {
    if PriceLines(cat, restaurantId, items).Ok? {
      PriceLinesEach(cat, restaurantId, items);
    }
  }

  /** The quantities the request puts in group `g`, read from the option rows. */
  function RequestedInGroup(cat: Catalog, mods: seq<ModifierInput>, g: string): int
    requires forall j :: 0 <= j < |mods| ==> KnownOption(cat, mods[j].modifierOptionId)
  {
    if mods == [] then 0
    else
      var last := mods[|mods| - 1];
      assert KnownOption(cat, last.modifierOptionId);
      RequestedInGroup(cat, mods[..|mods| - 1], g)
        + (if cat.options[last.modifierOptionId].modifierGroupId == g then last.quantity else 0)
  }

  /** The price of the requested options, each times its quantity. */
  function RequestedPrice(cat: Catalog, mods: seq<ModifierInput>): real
    requires forall j :: 0 <= j < |mods| ==> KnownOption(cat, mods[j].modifierOptionId)
  {
    if mods == [] then 0.0
    else
      var last := mods[|mods| - 1];
      assert KnownOption(cat, last.modifierOptionId);
      RequestedPrice(cat, mods[..|mods| - 1]) + cat.options[last.modifierOptionId].price * last.quantity as real
  }

  lemma {:induction false} ResolvedSums(cat: Catalog, mods: seq<ModifierInput>, rs: seq<Resolved>, g: string)
    requires |rs| == |mods|
    requires forall j :: 0 <= j < |mods| ==>
      KnownOption(cat, mods[j].modifierOptionId) &&
      rs[j] == Resolved(mods[j].modifierOptionId, cat.options[mods[j].modifierOptionId], mods[j].quantity)
    ensures GroupQuantity(rs, g) == RequestedInGroup(cat, mods, g)
    ensures ModifierTotal(rs) == RequestedPrice(cat, mods)
  {
    if mods != [] {
      ResolvedSums(cat, mods[..|mods| - 1], rs[..|rs| - 1], g);
    }
  }

  /** What an accepted line holds: an eligible item; each requested option
      known, active and in a group linked to the item, recorded with its
      name and price; every linked, loaded group within its bounds; a unit
      price of the item price plus the options' prices times their
      quantities; and totals computed from that unit price, the line
      quantity and the item's tax rate. */
  lemma PriceLineAccepted(cat: Catalog, restaurantId: string, item: ItemInput)
    requires RatesNonNegative(cat) && PriceLine(cat, restaurantId, item).Ok?
    ensures Eligible(cat, restaurantId, item.menuItemId)
    ensures var mods := item.modifiers.GetOr([]);
      forall j :: 0 <= j < |mods| ==>
        && KnownOption(cat, mods[j].modifierOptionId)
        && Link(item.menuItemId, cat.options[mods[j].modifierOptionId].modifierGroupId) in cat.links
    ensures var mods := item.modifiers.GetOr([]);
      var l, menuItem := PriceLine(cat, restaurantId, item).value, cat.menuItems[item.menuItemId];
      && l.line.menuItemId == item.menuItemId && l.line.name == menuItem.name
      && l.line.quantity == item.quantity
      && |l.line.modifiers| == |mods|
      && (forall j :: 0 <= j < |mods| ==>
            var option := cat.options[mods[j].modifierOptionId];
            l.line.modifiers[j] == LineModifier(mods[j].modifierOptionId, option.name, option.price))
      && (forall g :: Link(item.menuItemId, g) in cat.links && g in cat.groups ==>
            WithinBounds(cat.groups[g], RequestedInGroup(cat, mods, g)))
      && l.line.unitPrice == menuItem.price + RequestedPrice(cat, mods)
      && l.totals == LineTotals(menuItem, l.line.unitPrice, item.quantity)
      && l.line.totalPrice == l.totals.total && l.line.taxAmount == l.totals.tax
  {
    var mods := item.modifiers.GetOr([]);
    var allowed := GroupsOf(cat.links, item.menuItemId);
    GroupsOfLinked(cat.links, item.menuItemId);
    var rs := ResolveModifiers(cat, allowed, mods).value;
    GroupsCheckPasses(cat.groups, allowed, rs);
    forall g ensures GroupQuantity(rs, g) == RequestedInGroup(cat, mods, g) {
      ResolvedSums(cat, mods, rs, g);
    }
    ResolvedSums(cat, mods, rs, "");
  }

  function LinesTotal(lines: seq<OrderLine>): real {
    if lines == [] then 0.0 else LinesTotal(lines[..|lines| - 1]) + lines[|lines| - 1].totalPrice
  }

  function LinesTax(lines: seq<OrderLine>): real {
    if lines == [] then 0.0 else LinesTax(lines[..|lines| - 1]) + lines[|lines| - 1].taxAmount
  }

  lemma {:induction false} SumTotalsOfLines(ls: seq<LinePriced>)
    requires forall k :: 0 <= k < |ls| ==>
      && ls[k].totals.total == ls[k].totals.subtotal + ls[k].totals.tax
      && ls[k].line.totalPrice == ls[k].totals.total && ls[k].line.taxAmount == ls[k].totals.tax
    ensures SumTotals(ls).total == SumTotals(ls).subtotal + SumTotals(ls).tax
    ensures SumTotals(ls).total == LinesTotal(LinesOf(ls))
    ensures SumTotals(ls).tax == LinesTax(LinesOf(ls))
  {
    if ls != [] {
      var init := ls[..|ls| - 1];
      SumTotalsOfLines(init);
      assert LinesOf(ls)[..|init|] == LinesOf(init);
    }
  }

  /** An accepted order has distinct, eligible items, one line per requested
      line, each the line's own pricing; its total is its subtotal plus its
      tax, and its total and tax are the sums over its lines. */
  lemma AcceptedOrder(cat: Catalog, restaurantId: string, items: seq<ItemInput>)
    requires RatesNonNegative(cat) && PriceOrderSpec(cat, restaurantId, items).Ok?
    ensures var p := PriceOrderSpec(cat, restaurantId, items).value;
      && Distinct(MenuItemIds(items))
      && |p.lines| == |items|
      && (forall i :: 0 <= i < |items| ==>
            PriceLine(cat, restaurantId, items[i]).Ok? && PriceLine(cat, restaurantId, items[i]).value.line == p.lines[i])
      && p.totals.total == p.totals.subtotal + p.totals.tax
      && p.totals.total == LinesTotal(p.lines)
      && p.totals.tax == LinesTax(p.lines)
  {
    CountCheckPasses(cat, restaurantId, MenuItemIds(items));
    PriceLinesEach(cat, restaurantId, items);
    var ls := PriceLines(cat, restaurantId, items).value;
    forall k | 0 <= k < |ls|
      ensures ls[k].totals.total == ls[k].totals.subtotal + ls[k].totals.tax
      ensures ls[k].line.totalPrice == ls[k].totals.total && ls[k].line.taxAmount == ls[k].totals.tax
    {
      PriceLineAccepted(cat, restaurantId, items[k]);
    }
    SumTotalsOfLines(ls);
  }

  /** One pass of the line loop: resolve, count, check, price. */
  method PriceLineStep(cat: Catalog, restaurantId: string, allowedByItem: map<string, seq<string>>, item: ItemInput)
    returns (r: Result<LinePriced, AppError>)
    requires RatesNonNegative(cat)
    requires Allowed(allowedByItem, item.menuItemId) == GroupsOf(cat.links, item.menuItemId)
    ensures r == PriceLine(cat, restaurantId, item)
  {
    if !Eligible(cat, restaurantId, item.menuItemId) {
      return Err(BadRequest("Menu item not found"));
    }
    var menuItem := cat.menuItems[item.menuItemId];
    var allowed := Allowed(allowedByItem, item.menuItemId);
    var resolved := ResolveModifiers(cat, allowed, item.modifiers.GetOr([]));
    if resolved.Err? {
      return Err(resolved.error);
    }
    var rs := resolved.value;
    var counts := CountByGroup(rs);
    var check := CheckRequiredGroups(cat.groups, allowed, counts, rs);
    if check.Fail? {
      return Err(check.error);
    }
    var unitPrice := menuItem.price + ModifierTotal(rs);
    var t := LineTotals(menuItem, unitPrice, item.quantity);
    var line := OrderLine(item.menuItemId, menuItem.name, item.quantity, unitPrice, t.total, t.tax,
                          LineNotes(item.notes), LineModifiers(rs));
    r := Ok(LinePriced(line, t));
  }

  /** The validation and pricing body of `createGuestOrder`: the count
      check, the allowed-groups loop, then the line loop with its running
      totals. */
  method PriceOrder(cat: Catalog, restaurantId: string, items: seq<ItemInput>) returns (r: Result<Priced, AppError>)
    requires RatesNonNegative(cat)
    ensures r == PriceOrderSpec(cat, restaurantId, items)
  {
    var ids := MenuItemIds(items);
    if |FoundMenuItems(cat, restaurantId, ids)| != |ids| {
      return Err(BadRequest(ItemsInvalid));
    }
    var allowedByItem := BuildAllowedGroups(LinksFor(cat.links, ids));
    var subtotal, taxTotal, total := 0.0, 0.0, 0.0;
    var lines: seq<OrderLine> := [];
    ghost var done: seq<LinePriced> := [];
    for i := 0 to |items|
      invariant PriceLines(cat, restaurantId, items[..i]) == Ok(done)
      invariant lines == LinesOf(done)
      invariant SumTotals(done) == Totals(subtotal, taxTotal, total)
    {
      assert items[..i + 1][..i] == items[..i];
      GroupsOfLinksFor(cat.links, ids, items[i].menuItemId);
      var step := PriceLineStep(cat, restaurantId, allowedByItem, items[i]);
      if step.Err? {
        PriceLinesFailureStays(cat, restaurantId, items, i + 1);
        return Err(step.error);
      }
      var l := step.value;
      assert PriceLines(cat, restaurantId, items[..i + 1]) == Ok(done + [l]);
      subtotal, taxTotal, total := subtotal + l.totals.subtotal, taxTotal + l.totals.tax, total + l.totals.total;
      lines := lines + [l.line];
      done := done + [l];
    }
    assert items[..|items|] == items;
    r := Ok(Priced(lines, Totals(subtotal, taxTotal, total)));
  }
}
