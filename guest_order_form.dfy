/** The guest ordering form: the menu grouped by category, the modifier
    checkboxes of each item, the cart they fill, its total, and the payload
    sent to `createGuestOrder` on checkout. The component's state is the
    `OrderForm` class; each `set...` updater is a function of the previous
    state. */
module GuestOrderForm {
  import opened Wrappers
  import opened JsText
  import OrderSchema
  import Pricing
  import Errors

  // ---- the menu as the page receives it (prices already numbers) ----

  datatype MenuOption = MenuOption(id: string, name: string, price: real)

  datatype MenuGroup = MenuGroup(id: string, name: string, minSelected: int, maxSelected: int, options: seq<MenuOption>)

  datatype MenuItem = MenuItem(id: string, name: string, price: real, categoryId: Option<string>, modifierGroups: seq<MenuGroup>)

  datatype Category = Category(id: string, name: string)

  // ---- the cart ----

  datatype CartModifier = CartModifier(modifierOptionId: string, name: string, price: real)

  datatype CartItem = CartItem(id: string, name: string, price: real, quantity: int, modifiers: seq<CartModifier>)

  /** One item's checked option ids, by group id. */
  type Selection = map<string, seq<string>>

  /** The banner under the form. */
  datatype Status = Failed(message: string) | Received(orderNumber: int, publicToken: string)

  const InvalidSelectionMessage := "Selecciona los modificadores obligatorios."
  const SubmitFailedMessage := "No pudimos crear el pedido. Intenta de nuevo."

  // ---- groupedItems ----

  /** `item.categoryId ?? "uncategorized"` */
  function CategoryKey(item: MenuItem): string {
    item.categoryId.GetOr("uncategorized")
  }

  /** The items filed under `key`, in menu order. */
  function ItemsUnder(items: seq<MenuItem>, key: string): seq<MenuItem> {
    if items == [] then []
    else
      var last := items[|items| - 1];
      ItemsUnder(items[..|items| - 1], key) + (if CategoryKey(last) == key then [last] else [])
  }

  function CategoryIds(categories: seq<Category>): set<string> {
    set i | 0 <= i < |categories| :: categories[i].id
  }

  function ItemKeys(items: seq<MenuItem>): set<string> {
    set i | 0 <= i < |items| :: CategoryKey(items[i])
  }

  /** An item is filed under exactly its own key. */
  lemma {:induction false} ItemsUnderMembership(items: seq<MenuItem>, key: string, x: MenuItem)
    ensures x in ItemsUnder(items, key) <==> x in items && CategoryKey(x) == key
  {
    if items != [] {
      var init := items[..|items| - 1];
      ItemsUnderMembership(init, key, x);
      assert items == init + [items[|items| - 1]];
    }
  }

  /** Pushing the next item extends its own key's list and no other. */
  lemma ItemsUnderStep(items: seq<MenuItem>, i: nat)
    requires i < |items|
    ensures ItemKeys(items[..i + 1]) == ItemKeys(items[..i]) + {CategoryKey(items[i])}
    ensures forall key ::
      ItemsUnder(items[..i + 1], key) == ItemsUnder(items[..i], key) + (if CategoryKey(items[i]) == key then [items[i]] else [])
  {
    assert items[..i + 1][..i] == items[..i];
  }

  /** The two loops of `groupedItems`: every category gets a (possibly
      empty) list, and every item is pushed onto the list of its key, which
      is created when no category has it. */
  method GroupedItems(categories: seq<Category>, items: seq<MenuItem>) returns (grouped: map<string, seq<MenuItem>>)
    ensures grouped.Keys == CategoryIds(categories) + ItemKeys(items)
    ensures forall key :: key in grouped ==> grouped[key] == ItemsUnder(items, key)
  {
    grouped := map[];
    for i := 0 to |categories|
      invariant grouped.Keys == CategoryIds(categories[..i])
      invariant forall key :: key in grouped ==> grouped[key] == []
    {
      assert categories[..i + 1] == categories[..i] + [categories[i]];
      assert CategoryIds(categories[..i + 1]) == CategoryIds(categories[..i]) + {categories[i].id};
      grouped := grouped[categories[i].id := []];
    }
    assert categories[..|categories|] == categories;
    for i := 0 to |items|
      invariant grouped.Keys == CategoryIds(categories) + ItemKeys(items[..i])
      invariant forall key :: key in grouped ==> grouped[key] == ItemsUnder(items[..i], key)
      invariant forall key :: key !in grouped ==> ItemsUnder(items[..i], key) == []
    {
      var item := items[i];
      var key := CategoryKey(item);
      ItemsUnderStep(items, i);
      if key !in grouped {
        grouped := grouped[key := []];
      }
      grouped := grouped[key := grouped[key] + [item]];
    }
    assert items[..|items|] == items;
  }

  // ---- validateSelection ----

  /** `selection[group.id] ?? []` */
  function SelectedIn(selection: Selection, groupId: string): seq<string> {
    if groupId in selection then selection[groupId] else []
  }

  /** The group's bounds in the server's terms. */
  function BoundsOf(group: MenuGroup): Pricing.GroupRow {
    Pricing.GroupRow(group.minSelected, group.maxSelected)
  }

  /** `groups.every(...)`: a group fails when it has a positive minimum and
      fewer ids checked, or a positive maximum and more. The rule is the
      same the server applies to the quantities it receives. */
  function GroupsValid(groups: seq<MenuGroup>, selection: Selection): (ok: bool)
    ensures ok <==> forall i :: 0 <= i < |groups| ==>
      Pricing.WithinBounds(BoundsOf(groups[i]), |SelectedIn(selection, groups[i].id)|)
  {
    if groups == [] then true
    else
      var group := groups[0];
      var selected := SelectedIn(selection, group.id);
      if group.minSelected > 0 && |selected| < group.minSelected then false
      else if group.maxSelected > 0 && |selected| > group.maxSelected then false
      else
        assert forall i :: 1 <= i < |groups| ==> groups[i] == groups[1..][i - 1];
        GroupsValid(groups[1..], selection)
  }

  function ValidateSelection(item: MenuItem, selection: Selection): bool {
    GroupsValid(item.modifierGroups, selection)
  }

  // ---- getSelectedModifiers ----

  function AsCartModifier(option: MenuOption): CartModifier {
    CartModifier(option.id, option.name, option.price)
  }

  /** `group.options.filter(option => selected.includes(option.id)).map(...)` */
  function PickOptions(options: seq<MenuOption>, selected: seq<string>): (ms: seq<CartModifier>)
    ensures |ms| <= |options|
  {
    if options == [] then []
    else (if options[0].id in selected then [AsCartModifier(options[0])] else []) + PickOptions(options[1..], selected)
  }

  /** `item.modifierGroups.flatMap(...)` */
  function SelectedModifiers(groups: seq<MenuGroup>, selection: Selection): seq<CartModifier> {
    if groups == [] then []
    else PickOptions(groups[0].options, SelectedIn(selection, groups[0].id)) + SelectedModifiers(groups[1..], selection)
  }

  function GetSelectedModifiers(item: MenuItem, selection: Selection): seq<CartModifier> {
    SelectedModifiers(item.modifierGroups, selection)
  }

  /** Two selections that check the same options of every group. */
  predicate SameChoices(groups: seq<MenuGroup>, s1: Selection, s2: Selection) {
    forall i, k :: 0 <= i < |groups| && 0 <= k < |groups[i].options| ==>
      (groups[i].options[k].id in SelectedIn(s1, groups[i].id) <==> groups[i].options[k].id in SelectedIn(s2, groups[i].id))
  }

  lemma {:induction false} PickOptionsSameChoices(options: seq<MenuOption>, sel1: seq<string>, sel2: seq<string>)
    requires forall k :: 0 <= k < |options| ==> (options[k].id in sel1 <==> options[k].id in sel2)
    ensures PickOptions(options, sel1) == PickOptions(options, sel2)
  {
    if options != [] {
      assert forall k :: 1 <= k < |options| ==> options[1..][k - 1] == options[k];
      PickOptionsSameChoices(options[1..], sel1, sel2);
    }
  }

  /** The modifiers depend only on which options are checked: not on the
      order they were clicked in, on repeated ids, or on ids that are not
      options of the group. */
  lemma {:induction false} ClickOrderIrrelevant(groups: seq<MenuGroup>, s1: Selection, s2: Selection)
    requires SameChoices(groups, s1, s2)
    ensures SelectedModifiers(groups, s1) == SelectedModifiers(groups, s2)
  {
    if groups != [] {
      assert forall k :: 0 <= k < |groups[0].options| ==>
        (groups[0].options[k].id in SelectedIn(s1, groups[0].id) <==> groups[0].options[k].id in SelectedIn(s2, groups[0].id));
      PickOptionsSameChoices(groups[0].options, SelectedIn(s1, groups[0].id), SelectedIn(s2, groups[0].id));
      assert forall i :: 1 <= i < |groups| ==> groups[1..][i - 1] == groups[i];
      ClickOrderIrrelevant(groups[1..], s1, s2);
    }
  }

  lemma {:induction false} PickOptionsMembership(options: seq<MenuOption>, selected: seq<string>, m: CartModifier)
    ensures m in PickOptions(options, selected) <==>
      exists k :: 0 <= k < |options| && options[k].id in selected && m == AsCartModifier(options[k])
  {
    if options != [] {
      PickOptionsMembership(options[1..], selected, m);
      if m in PickOptions(options[1..], selected) {
        var k :| 0 <= k < |options[1..]| && options[1..][k].id in selected && m == AsCartModifier(options[1..][k]);
        assert options[k + 1] == options[1..][k];
      }
      if exists k :: 0 <= k < |options| && options[k].id in selected && m == AsCartModifier(options[k]) {
        var k :| 0 <= k < |options| && options[k].id in selected && m == AsCartModifier(options[k]);
        if k > 0 {
          assert options[1..][k - 1] == options[k];
        }
      }
    }
  }

  /** A modifier is in the list exactly when it is a checked option of one
      of the item's groups. */
  lemma {:induction false} SelectedModifiersMembership(groups: seq<MenuGroup>, selection: Selection, m: CartModifier)
    ensures m in SelectedModifiers(groups, selection) <==>
      exists i, k :: && 0 <= i < |groups| && 0 <= k < |groups[i].options|
                     && groups[i].options[k].id in SelectedIn(selection, groups[i].id)
                     && m == AsCartModifier(groups[i].options[k])
  {
    if groups != [] {
      PickOptionsMembership(groups[0].options, SelectedIn(selection, groups[0].id), m);
      SelectedModifiersMembership(groups[1..], selection, m);
      if exists i, k :: && 0 <= i < |groups| && 0 <= k < |groups[i].options|
                        && groups[i].options[k].id in SelectedIn(selection, groups[i].id)
                        && m == AsCartModifier(groups[i].options[k]) {
        var i, k :| && 0 <= i < |groups| && 0 <= k < |groups[i].options|
                    && groups[i].options[k].id in SelectedIn(selection, groups[i].id)
                    && m == AsCartModifier(groups[i].options[k]);
        if i > 0 {
          assert groups[1..][i - 1] == groups[i];
        }
      }
      if m in SelectedModifiers(groups[1..], selection) {
        var i, k :| && 0 <= i < |groups[1..]| && 0 <= k < |groups[1..][i].options|
                    && groups[1..][i].options[k].id in SelectedIn(selection, groups[1..][i].id)
                    && m == AsCartModifier(groups[1..][i].options[k]);
        assert groups[i + 1] == groups[1..][i];
      }
    }
  }

  /** Options come out group by group, each group's in its menu order: with
      every option checked the list is the whole menu of options. */
  lemma {:induction false} AllCheckedGivesMenuOrder(options: seq<MenuOption>, selected: seq<string>)
    requires forall k :: 0 <= k < |options| ==> options[k].id in selected
    ensures PickOptions(options, selected) == seq(|options|, k requires 0 <= k < |options| => AsCartModifier(options[k]))
  {
    if options != [] {
      assert forall k :: 1 <= k < |options| ==> options[1..][k - 1] == options[k];
      AllCheckedGivesMenuOrder(options[1..], selected);
    }
  }

  /** The ids of a group's options. */
  function OptionIds(options: seq<MenuOption>): set<string> {
    set o | o in options :: o.id
  }

  /** No two options of the group share an id. */
  predicate DistinctIds(options: seq<MenuOption>) {
    forall a, b :: 0 <= a < b < |options| ==> options[a].id != options[b].id
  }

  function Elements(list: seq<string>): set<string> {
    set x | x in list
  }

  /** The first option's id is not among the other options' ids. */
  lemma HeadIdFresh(options: seq<MenuOption>)
    requires options != [] && DistinctIds(options)
    ensures OptionIds(options) == {options[0].id} + OptionIds(options[1..])
    ensures options[0].id !in OptionIds(options[1..])
    ensures DistinctIds(options[1..])
  {
    var rest := options[1..];
    assert options == [options[0]] + rest;
    forall b | 0 <= b < |rest| ensures rest[b].id != options[0].id {
      assert rest[b] == options[b + 1];
    }
    forall a, b | 0 <= a < b < |rest| ensures rest[a].id != rest[b].id {
      assert rest[a] == options[a + 1] && rest[b] == options[b + 1];
    }
  }

  lemma ConsInterCard(x: string, a: set<string>, e: set<string>)
    requires x !in a
    ensures |({x} + a) * e| == |a * e| + (if x in e then 1 else 0)
  {
    if x in e {
      assert ({x} + a) * e == {x} + a * e;
    } else {
      assert ({x} + a) * e == a * e;
    }
  }

  /** Each checked option picks one modifier once the ids are distinct. */
  lemma {:induction false} PickOptionsCountsIds(options: seq<MenuOption>, selected: seq<string>)
    requires DistinctIds(options)
    ensures |PickOptions(options, selected)| == |OptionIds(options) * Elements(selected)|
  {
    if options != [] {
      var rest := options[1..];
      HeadIdFresh(options);
      PickOptionsCountsIds(rest, selected);
      var x := options[0].id;
      assert |PickOptions(options, selected)| == (if x in selected then 1 else 0) + |PickOptions(rest, selected)|;
      assert x in selected <==> x in Elements(selected);
      ConsInterCard(x, OptionIds(rest), Elements(selected));
    }
  }

  /** A checked list without repeats, drawn from the group's own options,
      picks exactly one modifier per checked id: the form's
      `selected.length` is the number of modifiers the line gets. */
  lemma PickOptionsCount(options: seq<MenuOption>, selected: seq<string>)
    requires DistinctIds(options) && Pricing.Distinct(selected)
    requires forall x :: x in selected ==> x in OptionIds(options)
    ensures |PickOptions(options, selected)| == |selected|
  {
    PickOptionsCountsIds(options, selected);
    Pricing.ElementsCard(selected);
    assert OptionIds(options) * Elements(selected) == Elements(selected);
  }

  // ---- the cart total ----

  function ModifiersTotal(ms: seq<CartModifier>): real {
    if ms == [] then 0.0 else ModifiersTotal(ms[..|ms| - 1]) + ms[|ms| - 1].price
  }

  /** A line's price with its modifiers. */
  function UnitPrice(line: CartItem): real {
    line.price + ModifiersTotal(line.modifiers)
  }

  function LineTotal(line: CartItem): real {
    UnitPrice(line) * line.quantity as real
  }

  /** One more or one fewer unit changes a line's total by its unit price. */
  lemma LineTotalStep(line: CartItem)
    ensures LineTotal(line.(quantity := line.quantity + 1)) == LineTotal(line) + UnitPrice(line)
    ensures LineTotal(line.(quantity := line.quantity - 1)) == LineTotal(line) - UnitPrice(line)
  {
    var u, q := UnitPrice(line), line.quantity as real;
    assert u * (q + 1.0) == u * q + u;
    assert u * (q - 1.0) == u * q - u;
  }

  /** `cart.reduce((acc, item) => acc + (item.price + modifiersTotal) * item.quantity, 0)` */
  function Total(cart: seq<CartItem>): real {
    if cart == [] then 0.0 else Total(cart[..|cart| - 1]) + LineTotal(cart[|cart| - 1])
  }

  lemma {:induction false} TotalAppend(a: seq<CartItem>, b: seq<CartItem>)
    ensures Total(a + b) == Total(a) + Total(b)
  {
    if b != [] {
      assert (a + b)[..|a + b| - 1] == a + b[..|b| - 1];
      assert (a + b)[|a + b| - 1] == b[|b| - 1];
      TotalAppend(a, b[..|b| - 1]);
      assert Total(a + b) == Total(a + b[..|b| - 1]) + LineTotal(b[|b| - 1]);
      assert Total(b) == Total(b[..|b| - 1]) + LineTotal(b[|b| - 1]);
    } else {
      assert a + b == a;
    }
  }

  lemma TotalSplit(cart: seq<CartItem>, i: nat)
    requires i < |cart|
    ensures Total(cart) == Total(cart[..i]) + LineTotal(cart[i]) + Total(cart[i + 1..])
  {
    var before, line, after := cart[..i], cart[i], cart[i + 1..];
    assert cart == (before + [line]) + after;
    TotalAppend(before + [line], after);
    TotalAppend(before, [line]);
    assert Total([line]) == LineTotal(line) by { assert [line][..0] == []; }
  }

  /** Replacing one line changes the total by the difference of the two
      lines' totals. */
  lemma TotalReplace(cart: seq<CartItem>, i: nat, line: CartItem)
    requires i < |cart|
    ensures Total(cart[i := line]) == Total(cart) - LineTotal(cart[i]) + LineTotal(line)
  {
    TotalSplit(cart, i);
    TotalSplit(cart[i := line], i);
    assert cart[i := line][..i] == cart[..i];
    assert cart[i := line][i + 1..] == cart[i + 1..];
  }

  // ---- cart invariant ----

  predicate SameLine(entry: CartItem, id: string, modifiers: seq<CartModifier>) {
    entry.id == id && entry.modifiers == modifiers
  }

  /** No two lines hold the same item with the same modifiers. */
  predicate Distinct(cart: seq<CartItem>) {
    forall i, j :: 0 <= i < j < |cart| ==> !SameLine(cart[j], cart[i].id, cart[i].modifiers)
  }

  predicate Positive(cart: seq<CartItem>) {
    forall i :: 0 <= i < |cart| ==> cart[i].quantity >= 1
  }

  predicate WellFormed(cart: seq<CartItem>) {
    Distinct(cart) && Positive(cart)
  }

  // ---- addToCart ----

  function NewLine(item: MenuItem, modifiers: seq<CartModifier>): CartItem {
    CartItem(item.id, item.name, item.price, 1, modifiers)
  }

  /** The `setCart` updater of `addToCart`: when some line holds the item
      with an equal modifier list, every such line is incremented; otherwise
      a new line with quantity 1 is appended. */
  function AddLine(prev: seq<CartItem>, item: MenuItem, modifiers: seq<CartModifier>): seq<CartItem> {
    if exists k :: 0 <= k < |prev| && SameLine(prev[k], item.id, modifiers) then
      seq(|prev|, i requires 0 <= i < |prev| =>
        if SameLine(prev[i], item.id, modifiers) then prev[i].(quantity := prev[i].quantity + 1) else prev[i])
    else prev + [NewLine(item, modifiers)]
  }

  /** In a cart without repeated lines, adding either increments the one
      matching line, keeping every other line and the length, or appends a
      fresh line at the end; the cart stays free of repeated lines and of
      empty quantities. */
  lemma AddLineEffect(prev: seq<CartItem>, item: MenuItem, modifiers: seq<CartModifier>)
    requires WellFormed(prev)
    ensures WellFormed(AddLine(prev, item, modifiers))
    ensures forall k :: 0 <= k < |prev| && SameLine(prev[k], item.id, modifiers) ==>
      AddLine(prev, item, modifiers) == prev[k := prev[k].(quantity := prev[k].quantity + 1)]
    ensures (forall k :: 0 <= k < |prev| ==> !SameLine(prev[k], item.id, modifiers)) ==>
      AddLine(prev, item, modifiers) == prev + [NewLine(item, modifiers)]
  {
    var r := AddLine(prev, item, modifiers);
    if k :| 0 <= k < |prev| && SameLine(prev[k], item.id, modifiers) {
      assert forall i :: 0 <= i < |prev| && i != k ==> !SameLine(prev[i], item.id, modifiers);
      assert r == prev[k := prev[k].(quantity := prev[k].quantity + 1)];
    }
  }

  /** Adding raises the total by one unit of the line it lands on: the
      matching line's unit price, or the item's price with the modifiers'. */
  lemma AddLineTotal(prev: seq<CartItem>, item: MenuItem, modifiers: seq<CartModifier>)
    requires WellFormed(prev)
    ensures forall k :: 0 <= k < |prev| && SameLine(prev[k], item.id, modifiers) ==>
      Total(AddLine(prev, item, modifiers)) == Total(prev) + UnitPrice(prev[k])
    ensures (forall k :: 0 <= k < |prev| ==> !SameLine(prev[k], item.id, modifiers)) ==>
      Total(AddLine(prev, item, modifiers)) == Total(prev) + item.price + ModifiersTotal(modifiers)
  {
    AddLineEffect(prev, item, modifiers);
    forall k | 0 <= k < |prev| && SameLine(prev[k], item.id, modifiers)
      ensures Total(AddLine(prev, item, modifiers)) == Total(prev) + UnitPrice(prev[k])
    {
      TotalReplace(prev, k, prev[k].(quantity := prev[k].quantity + 1));
      LineTotalStep(prev[k]);
    }
    if forall k :: 0 <= k < |prev| ==> !SameLine(prev[k], item.id, modifiers) {
      var line := NewLine(item, modifiers);
      TotalAppend(prev, [line]);
      assert Total([line]) == Total([]) + LineTotal(line);
      assert LineTotal(line) == UnitPrice(line) * 1.0;
    }
  }

  /** Adding the same item twice with different modifier lists gives two
      lines for one menu item. */
  lemma TwoLinesForOneItem(item: MenuItem, m1: seq<CartModifier>, m2: seq<CartModifier>)
    requires m1 != m2
    ensures var cart := AddLine(AddLine([], item, m1), item, m2);
      |cart| == 2 && cart[0].id == item.id && cart[1].id == item.id
  {
    var c1 := AddLine([], item, m1);
    assert c1 == [NewLine(item, m1)];
    assert !SameLine(c1[0], item.id, m2);
  }

  // ---- incrementCartItem / decrementCartItem ----

  /** `prev.map((entry, idx) => idx === index ? { ...entry, quantity: entry.quantity + 1 } : entry)` */
  function IncrementAt(prev: seq<CartItem>, index: int): seq<CartItem> {
    seq(|prev|, i requires 0 <= i < |prev| => if i == index then prev[i].(quantity := prev[i].quantity + 1) else prev[i])
  }

  /** Only the indexed line changes, by one unit; an index outside the cart
      changes nothing. The total rises by that line's unit price. */
  lemma IncrementEffect(prev: seq<CartItem>, index: int)
    requires WellFormed(prev)
    ensures WellFormed(IncrementAt(prev, index))
    ensures 0 <= index < |prev| ==> IncrementAt(prev, index) == prev[index := prev[index].(quantity := prev[index].quantity + 1)]
    ensures !(0 <= index < |prev|) ==> IncrementAt(prev, index) == prev
  {
    var r := IncrementAt(prev, index);
    assert forall i :: 0 <= i < |prev| ==> r[i].id == prev[i].id && r[i].modifiers == prev[i].modifiers;
    if 0 <= index < |prev| {
      assert r == prev[index := prev[index].(quantity := prev[index].quantity + 1)];
    }
  }

  /** Incrementing raises the total by the line's unit price. */
  lemma IncrementTotal(prev: seq<CartItem>, index: int)
    requires WellFormed(prev) && 0 <= index < |prev|
    ensures Total(IncrementAt(prev, index)) == Total(prev) + UnitPrice(prev[index])
  {
    var line := prev[index].(quantity := prev[index].quantity + 1);
    IncrementEffect(prev, index);
    TotalReplace(prev, index, line);
    LineTotalStep(prev[index]);
  }

  /** `.filter((entry) => entry.quantity > 0)` */
  function KeepPositive(s: seq<CartItem>): seq<CartItem> {
    if s == [] then []
    else (if s[0].quantity > 0 then [s[0]] else []) + KeepPositive(s[1..])
  }

  /** The filter keeps exactly the lines of positive quantity, so the
      filtered cart has no empty line. */
  lemma {:induction false} KeepPositiveKeeps(s: seq<CartItem>)
    ensures forall x :: x in KeepPositive(s) <==> x in s && x.quantity > 0
    ensures Positive(KeepPositive(s))
  {
    if s != [] {
      KeepPositiveKeeps(s[1..]);
      assert s == [s[0]] + s[1..];
    }
  }

  lemma KeepPositiveCons(x: CartItem, s: seq<CartItem>)
    ensures KeepPositive([x] + s) == (if x.quantity > 0 then [x] else []) + KeepPositive(s)
  {
    assert ([x] + s)[0] == x && ([x] + s)[1..] == s;
  }

  lemma {:induction false} KeepPositiveAppend(a: seq<CartItem>, b: seq<CartItem>)
    ensures KeepPositive(a + b) == KeepPositive(a) + KeepPositive(b)
  {
    if a != [] {
      var x, rest := a[0], a[1..];
      var h: seq<CartItem> := if x.quantity > 0 then [x] else [];
      assert a == [x] + rest;
      assert a + b == [x] + (rest + b);
      KeepPositiveCons(x, rest + b);
      KeepPositiveCons(x, rest);
      KeepPositiveAppend(rest, b);
      var kr, kb := KeepPositive(rest), KeepPositive(b);
      assert h + (kr + kb) == (h + kr) + kb;
    } else {
      assert a + b == b;
    }
  }

  lemma {:induction false} KeepPositiveAll(s: seq<CartItem>)
    requires Positive(s)
    ensures KeepPositive(s) == s
  {
    if s != [] {
      KeepPositiveAll(s[1..]);
    }
  }

  /** `prev.map(... quantity - 1 ...).filter(entry => entry.quantity > 0)` */
  function DecrementAt(prev: seq<CartItem>, index: int): seq<CartItem> {
    KeepPositive(seq(|prev|, i requires 0 <= i < |prev| => if i == index then prev[i].(quantity := prev[i].quantity - 1) else prev[i]))
  }

  /** In a cart of positive quantities, the indexed line loses one unit, and
      is dropped when that was its last; the remaining lines keep their
      order and an index outside the cart changes nothing. */
  lemma DecrementEffect(prev: seq<CartItem>, index: int)
    requires Positive(prev)
    ensures !(0 <= index < |prev|) ==> DecrementAt(prev, index) == prev
    ensures 0 <= index < |prev| && prev[index].quantity > 1 ==>
      DecrementAt(prev, index) == prev[index := prev[index].(quantity := prev[index].quantity - 1)]
    ensures 0 <= index < |prev| && prev[index].quantity == 1 ==>
      DecrementAt(prev, index) == prev[..index] + prev[index + 1..]
  {
    var mapped := seq(|prev|, i requires 0 <= i < |prev| => if i == index then prev[i].(quantity := prev[i].quantity - 1) else prev[i]);
    if 0 <= index < |prev| {
      var line := prev[index].(quantity := prev[index].quantity - 1);
      var before, after := prev[..index], prev[index + 1..];
      assert mapped == before + [line] + after;
      assert KeepPositive(mapped) == before + KeepPositive([line]) + after by {
        KeepPositiveAppend(before + [line], after);
        KeepPositiveAppend(before, [line]);
        KeepPositiveAll(before);
        KeepPositiveAll(after);
      }
      if prev[index].quantity > 1 {
        assert KeepPositive([line]) == [line] by { KeepPositiveCons(line, []); }
        assert prev[index := line] == before + [line] + after;
      } else {
        assert KeepPositive([line]) == [] by { KeepPositiveCons(line, []); }
      }
    } else {
      assert mapped == prev;
      KeepPositiveAll(prev);
    }
  }

  /** Decrementing keeps the cart free of repeated lines and of empty
      quantities. */
  lemma DecrementKeepsWellFormed(prev: seq<CartItem>, index: int)
    requires WellFormed(prev)
    ensures WellFormed(DecrementAt(prev, index))
  {
    DecrementEffect(prev, index);
    if 0 <= index < |prev| {
      var r := DecrementAt(prev, index);
      if prev[index].quantity > 1 {
        assert forall i :: 0 <= i < |prev| ==> r[i].id == prev[i].id && r[i].modifiers == prev[i].modifiers;
      } else {
        assert forall i :: 0 <= i < |r| ==> r[i] == prev[if i < index then i else i + 1];
      }
    }
  }

  /** Decrementing lowers the total by the line's unit price, whether the
      line stays or goes. */
  lemma DecrementTotal(prev: seq<CartItem>, index: int)
    requires Positive(prev) && 0 <= index < |prev|
    ensures Total(DecrementAt(prev, index)) == Total(prev) - UnitPrice(prev[index])
  {
    if prev[index].quantity > 1 {
      var line := prev[index].(quantity := prev[index].quantity - 1);
      assert DecrementAt(prev, index) == prev[index := line] by { DecrementEffect(prev, index); }
      assert Total(prev[index := line]) == Total(prev) - UnitPrice(prev[index]) by {
        TotalReplace(prev, index, line);
        LineTotalStep(prev[index]);
      }
    } else {
      var before, after := prev[..index], prev[index + 1..];
      assert DecrementAt(prev, index) == before + after by { DecrementEffect(prev, index); }
      assert Total(before + after) == Total(prev) - UnitPrice(prev[index]) by {
        TotalAppend(before, after);
        TotalSplit(prev, index);
        assert prev[index].quantity as real == 1.0;
      }
    }
  }

  // ---- the checkbox updater ----

  /** `currentList.filter(value => value !== id)` */
  function Without(list: seq<string>, id: string): (r: seq<string>)
    ensures |r| <= |list|
  {
    if list == [] then [] else (if list[0] != id then [list[0]] else []) + Without(list[1..], id)
  }

  /** Unchecking removes every occurrence, keeps every other id, and leaves a
      list without the id as it was. */
  lemma {:induction false} WithoutEffect(list: seq<string>, id: string)
    ensures forall x :: x in Without(list, id) <==> x in list && x != id
    ensures id !in list ==> Without(list, id) == list
  {
    if list != [] {
      WithoutEffect(list[1..], id);
      assert list == [list[0]] + list[1..];
    }
  }

  /** `prev[itemId] ?? {}` */
  function ItemSelection(selections: map<string, Selection>, itemId: string): Selection {
    if itemId in selections then selections[itemId] else map[]
  }

  /** The `setModifierSelections` updater of an option's checkbox. */
  function Toggle(prev: map<string, Selection>, itemId: string, groupId: string, optionId: string, checked: bool)
    : map<string, Selection>
  {
    var current := ItemSelection(prev, itemId);
    var currentList := SelectedIn(current, groupId);
    var nextList := if checked then currentList + [optionId] else Without(currentList, optionId);
    prev[itemId := current[groupId := nextList]]
  }

  /** Checking appends the id to that item's list for that group, unchecking
      removes it; every other item's and group's list reads as before. */
  lemma ToggleEffect(prev: map<string, Selection>, itemId: string, groupId: string, optionId: string, checked: bool)
    ensures var next := Toggle(prev, itemId, groupId, optionId, checked);
      var before := SelectedIn(ItemSelection(prev, itemId), groupId);
      && (checked ==> SelectedIn(ItemSelection(next, itemId), groupId) == before + [optionId])
      && (!checked ==> SelectedIn(ItemSelection(next, itemId), groupId) == Without(before, optionId))
      && (forall it, g :: (it != itemId || g != groupId) ==>
            SelectedIn(ItemSelection(next, it), g) == SelectedIn(ItemSelection(prev, it), g))
  {
  }

  /** `maxReached`: the group has a maximum and it is met. */
  predicate MaxReached(group: MenuGroup, selected: seq<string>) {
    group.maxSelected > 0 && |selected| >= group.maxSelected
  }

  /** A checkbox is disabled when unchecked and the maximum is reached; so
      clicks on enabled boxes never take a group past its maximum. */
  lemma ToggleKeepsWithinMax(prev: map<string, Selection>, itemId: string, group: MenuGroup, optionId: string)
    requires var selected := SelectedIn(ItemSelection(prev, itemId), group.id);
      && (group.maxSelected > 0 ==> |selected| <= group.maxSelected)
      && !(optionId !in selected && MaxReached(group, selected))
    ensures var selected := SelectedIn(ItemSelection(prev, itemId), group.id);
      var next := Toggle(prev, itemId, group.id, optionId, optionId !in selected);
      group.maxSelected > 0 ==> |SelectedIn(ItemSelection(next, itemId), group.id)| <= group.maxSelected
  {
  }

  /** The list of one item's group is free of repeats and holds only ids of
      the group's options. */
  predicate CleanList(group: MenuGroup, list: seq<string>) {
    Pricing.Distinct(list) && forall x :: x in list ==> x in OptionIds(group.options)
  }

  lemma {:induction false} WithoutKeepsDistinct(list: seq<string>, id: string)
    requires Pricing.Distinct(list)
    ensures Pricing.Distinct(Without(list, id))
  {
    if list != [] {
      var rest := list[1..];
      assert Pricing.Distinct(rest) by {
        forall a, b | 0 <= a < b < |rest| ensures rest[a] != rest[b] {
          assert rest[a] == list[a + 1] && rest[b] == list[b + 1];
        }
      }
      WithoutKeepsDistinct(rest, id);
      WithoutEffect(rest, id);
      var w := Without(rest, id);
      if list[0] != id {
        forall b | 0 <= b < |rest| ensures rest[b] != list[0] {
          assert rest[b] == list[b + 1];
        }
        assert list[0] !in w;
        forall a, b | 0 <= a < b < |[list[0]] + w| ensures ([list[0]] + w)[a] != ([list[0]] + w)[b] {
          if a == 0 {
            assert ([list[0]] + w)[b] == w[b - 1];
          } else {
            assert ([list[0]] + w)[a] == w[a - 1] && ([list[0]] + w)[b] == w[b - 1];
          }
        }
      } else {
        assert Without(list, id) == w;
      }
    }
  }

  /** The checkbox of an option of the group checks it when it was unchecked
      and unchecks it otherwise (`checked` is the box's new state), so the
      list stays free of repeats and within the group's options. */
  lemma ToggleKeepsClean(prev: map<string, Selection>, itemId: string, group: MenuGroup, k: nat)
    requires k < |group.options|
    requires CleanList(group, SelectedIn(ItemSelection(prev, itemId), group.id))
    ensures var list := SelectedIn(ItemSelection(prev, itemId), group.id);
      var next := Toggle(prev, itemId, group.id, group.options[k].id, group.options[k].id !in list);
      CleanList(group, SelectedIn(ItemSelection(next, itemId), group.id))
  {
    var list := SelectedIn(ItemSelection(prev, itemId), group.id);
    var id := group.options[k].id;
    ToggleEffect(prev, itemId, group.id, id, id !in list);
    assert id in OptionIds(group.options) by { assert group.options[k] in group.options; }
    if id !in list {
      var l2 := list + [id];
      forall a, b | 0 <= a < b < |l2| ensures l2[a] != l2[b] {
        if b == |list| { assert l2[a] == list[a]; } else { assert l2[a] == list[a] && l2[b] == list[b]; }
      }
    } else {
      WithoutKeepsDistinct(list, id);
      WithoutEffect(list, id);
    }
  }

  // ---- checkout ----

  /** `isPending || cart.length === 0 || !customerName.trim()` */
  function IsCheckoutDisabled(isPending: bool, cart: seq<CartItem>, customerName: string): (disabled: bool)
    ensures !disabled <==> !isPending && cart != [] && !AllSpace(customerName)
  {
    TrimEmptyIffAllSpace(customerName);
    isPending || |cart| == 0 || Trim(customerName) == ""
  }

  /** `item.modifiers.map(modifier => ({ modifierOptionId, quantity: 1 }))` */
  function SentModifiers(ms: seq<CartModifier>): seq<OrderSchema.RawModifier> {
    seq(|ms|, j requires 0 <= j < |ms| => OrderSchema.RawModifier(ms[j].modifierOptionId, Some(1.0)))
  }

  /** A cart line as sent: its item, its quantity and its modifiers, no notes. */
  function SentLine(line: CartItem): OrderSchema.RawItem {
    OrderSchema.RawItem(line.id, line.quantity as real, None, Some(SentModifiers(line.modifiers)))
  }

  function SentItems(cart: seq<CartItem>): seq<OrderSchema.RawItem> {
    seq(|cart|, i requires 0 <= i < |cart| => SentLine(cart[i]))
  }

  /** The payload of `submitOrder`: a takeaway order on the online channel;
      an empty name sends no customer, and an empty phone or notes field is
      left out. */
  function Payload(restaurantId: string, cart: seq<CartItem>, customerName: string, customerPhone: string, notes: string)
    : OrderSchema.RawOrder
  {
    OrderSchema.RawOrder(
      restaurantId, "TAKEAWAY", Some("ONLINE"), None,
      if customerName != "" then Some(OrderSchema.RawCustomer(customerName, if customerPhone != "" then Some(customerPhone) else None, None))
      else None,
      None,
      if notes != "" then Some(notes) else None,
      SentItems(cart))
  }

  /** With checkout enabled the payload names a customer and has lines. */
  lemma CheckoutSendsCustomer(isPending: bool, restaurantId: string, cart: seq<CartItem>, customerName: string,
                              customerPhone: string, notes: string)
    requires !IsCheckoutDisabled(isPending, cart, customerName)
    ensures var raw := Payload(restaurantId, cart, customerName, customerPhone, notes);
      raw.customer.Some? && raw.customer.value.name == customerName && |raw.items| == |cart| >= 1
  {
  }

  /** The number of the line's modifiers whose option row is in group `g`. */
  function ClientCount(cat: Pricing.Catalog, ms: seq<CartModifier>, g: string): int
    requires forall j :: 0 <= j < |ms| ==> Pricing.KnownOption(cat, ms[j].modifierOptionId)
  {
    if ms == [] then 0
    else
      var last := ms[|ms| - 1];
      assert Pricing.KnownOption(cat, last.modifierOptionId);
      ClientCount(cat, ms[..|ms| - 1], g) + (if cat.options[last.modifierOptionId].modifierGroupId == g then 1 else 0)
  }

  lemma {:induction false} QuantityOneCounts(cat: Pricing.Catalog, ms: seq<CartModifier>, mods: seq<OrderSchema.ModifierInput>, g: string)
    requires |mods| == |ms|
    requires forall j :: 0 <= j < |ms| ==>
      Pricing.KnownOption(cat, ms[j].modifierOptionId) && mods[j] == OrderSchema.ModifierInput(ms[j].modifierOptionId, 1)
    ensures Pricing.RequestedInGroup(cat, mods, g) == ClientCount(cat, ms, g)
  {
    if ms != [] {
      QuantityOneCounts(cat, ms[..|ms| - 1], mods[..|mods| - 1], g);
    }
  }

  /** The parsed line the server receives for a cart line: its item and
      quantity, no notes, and each modifier with quantity 1. */
  function SentInput(line: CartItem): OrderSchema.ItemInput {
    OrderSchema.ItemInput(line.id, line.quantity, None,
      Some(seq(|line.modifiers|, j requires 0 <= j < |line.modifiers| =>
        OrderSchema.ModifierInput(line.modifiers[j].modifierOptionId, 1))))
  }

  /** Converting a sent line gives its parsed form. */
  lemma SentLineConverted(line: CartItem)
    ensures OrderSchema.ToItem(SentLine(line)) == SentInput(line)
  {
    var mods := OrderSchema.ToItem(SentLine(line)).modifiers.value;
    assert (line.quantity as real).Floor == line.quantity;
    assert (1.0).Floor == 1;
    assert |mods| == |SentInput(line).modifiers.value|;
    assert forall j :: 0 <= j < |mods| ==> mods[j] == SentInput(line).modifiers.value[j];
    assert mods == SentInput(line).modifiers.value;
    assert OrderSchema.ToItem(SentLine(line)).quantity == line.quantity;
    assert OrderSchema.ToItem(SentLine(line)).notes == None;
  }

  /** Once the payload is accepted, each parsed line is the cart line as sent. */
  lemma SubmittedLines(restaurantId: string, cart: seq<CartItem>, customerName: string,
                       customerPhone: string, notes: string, isEmail: string -> bool, i: nat)
    requires OrderSchema.ParseOrder(Payload(restaurantId, cart, customerName, customerPhone, notes), isEmail).Ok?
    requires i < |cart|
    ensures var o := OrderSchema.ParseOrder(Payload(restaurantId, cart, customerName, customerPhone, notes), isEmail).value;
      i < |o.items| && o.items[i] == SentInput(cart[i])
  {
    var raw := Payload(restaurantId, cart, customerName, customerPhone, notes);
    AcceptedLine(raw, isEmail, i, cart[i]);
  }

  lemma AcceptedLine(raw: OrderSchema.RawOrder, isEmail: string -> bool, i: nat, line: CartItem)
    requires OrderSchema.ParseOrder(raw, isEmail).Ok? && i < |raw.items| && raw.items[i] == SentLine(line)
    ensures i < |OrderSchema.ParseOrder(raw, isEmail).value.items|
    ensures OrderSchema.ParseOrder(raw, isEmail).value.items[i] == SentInput(line)
  {
    OrderSchema.AcceptedItems(raw, isEmail, i);
    SentLineConverted(line);
  }

  /** Every modifier is sent with quantity 1, so once the payload is
      accepted the server's quantity sum for a group is the number of the
      line's modifiers in that group. */
  lemma SubmittedCounts(cat: Pricing.Catalog, restaurantId: string, cart: seq<CartItem>, customerName: string,
                        customerPhone: string, notes: string, isEmail: string -> bool, i: nat, g: string)
    requires OrderSchema.ParseOrder(Payload(restaurantId, cart, customerName, customerPhone, notes), isEmail).Ok?
    requires i < |cart|
    requires forall j :: 0 <= j < |cart[i].modifiers| ==> Pricing.KnownOption(cat, cart[i].modifiers[j].modifierOptionId)
    ensures var o := OrderSchema.ParseOrder(Payload(restaurantId, cart, customerName, customerPhone, notes), isEmail).value;
      i < |o.items| && o.items[i] == SentInput(cart[i])
    ensures var mods := SentInput(cart[i]).modifiers.value;
      && (forall j :: 0 <= j < |mods| ==> Pricing.KnownOption(cat, mods[j].modifierOptionId))
      && Pricing.RequestedInGroup(cat, mods, g) == ClientCount(cat, cart[i].modifiers, g)
  {
    SubmittedLines(restaurantId, cart, customerName, customerPhone, notes, isEmail, i);
    QuantityOneCounts(cat, cart[i].modifiers, SentInput(cart[i]).modifiers.value, g);
  }

  lemma {:induction false} ClientCountAppend(cat: Pricing.Catalog, a: seq<CartModifier>, b: seq<CartModifier>, g: string)
    requires forall j :: 0 <= j < |a| ==> Pricing.KnownOption(cat, a[j].modifierOptionId)
    requires forall j :: 0 <= j < |b| ==> Pricing.KnownOption(cat, b[j].modifierOptionId)
    ensures forall j :: 0 <= j < |a + b| ==> Pricing.KnownOption(cat, (a + b)[j].modifierOptionId)
    ensures ClientCount(cat, a + b, g) == ClientCount(cat, a, g) + ClientCount(cat, b, g)
  {
    assert forall j :: 0 <= j < |a + b| ==> (a + b)[j] == if j < |a| then a[j] else b[j - |a|];
    if b != [] {
      var init := b[..|b| - 1];
      ClientCountAppend(cat, a, init, g);
      assert (a + b)[..|a + b| - 1] == a + init;
      assert (a + b)[|a + b| - 1] == b[|b| - 1];
    } else {
      assert a + b == a;
    }
  }

  /** The catalogue files every option of every group under that group, and
      holds it as an active option. */
  predicate Filed(cat: Pricing.Catalog, groups: seq<MenuGroup>) {
    forall i, k :: 0 <= i < |groups| && 0 <= k < |groups[i].options| ==>
      Pricing.KnownOption(cat, groups[i].options[k].id) && cat.options[groups[i].options[k].id].modifierGroupId == groups[i].id
  }

  predicate DistinctGroups(groups: seq<MenuGroup>) {
    forall a, b :: 0 <= a < b < |groups| ==> groups[a].id != groups[b].id
  }

  /** The options picked in one group all count towards that group only. */
  lemma {:induction false} ClientCountPick(cat: Pricing.Catalog, options: seq<MenuOption>, selected: seq<string>, gid: string, g: string)
    requires forall k :: 0 <= k < |options| ==>
      Pricing.KnownOption(cat, options[k].id) && cat.options[options[k].id].modifierGroupId == gid
    ensures forall j :: 0 <= j < |PickOptions(options, selected)| ==>
      Pricing.KnownOption(cat, PickOptions(options, selected)[j].modifierOptionId)
    ensures ClientCount(cat, PickOptions(options, selected), g) == if gid == g then |PickOptions(options, selected)| else 0
  {
    if options != [] {
      var rest := options[1..];
      assert forall k :: 0 <= k < |rest| ==> rest[k] == options[k + 1];
      ClientCountPick(cat, rest, selected, gid, g);
      var head: seq<CartModifier> := if options[0].id in selected then [AsCartModifier(options[0])] else [];
      ClientCountAppend(cat, head, PickOptions(rest, selected), g);
      if head != [] {
        assert head[..0] == [];
      }
    }
  }

  lemma {:induction false} ClientCountSelected(cat: Pricing.Catalog, groups: seq<MenuGroup>, selection: Selection, i: nat)
    requires Filed(cat, groups) && DistinctGroups(groups) && i < |groups|
    ensures forall j :: 0 <= j < |SelectedModifiers(groups, selection)| ==>
      Pricing.KnownOption(cat, SelectedModifiers(groups, selection)[j].modifierOptionId)
    ensures ClientCount(cat, SelectedModifiers(groups, selection), groups[i].id)
      == |PickOptions(groups[i].options, SelectedIn(selection, groups[i].id))|
  {
    var rest := groups[1..];
    assert forall a :: 0 <= a < |rest| ==> rest[a] == groups[a + 1];
    assert Filed(cat, rest) && DistinctGroups(rest);
    var g := groups[i].id;
    var head := PickOptions(groups[0].options, SelectedIn(selection, groups[0].id));
    ClientCountPick(cat, groups[0].options, SelectedIn(selection, groups[0].id), groups[0].id, g);
    if rest == [] {
      assert SelectedModifiers(rest, selection) == [];
      assert SelectedModifiers(groups, selection) == head + [];
      assert head + [] == head;
    } else {
      var k := if i == 0 then 0 else i - 1;
      ClientCountSelected(cat, rest, selection, k);
      ClientCountAppend(cat, head, SelectedModifiers(rest, selection), g);
      if i == 0 {
        assert ClientCount(cat, SelectedModifiers(rest, selection), g) == 0 by {
          ClientCountNone(cat, rest, selection, g);
        }
      }
    }
  }

  /** A group id none of the groups has gets no modifier. */
  lemma {:induction false} ClientCountNone(cat: Pricing.Catalog, groups: seq<MenuGroup>, selection: Selection, g: string)
    requires Filed(cat, groups)
    requires forall a :: 0 <= a < |groups| ==> groups[a].id != g
    ensures forall j :: 0 <= j < |SelectedModifiers(groups, selection)| ==>
      Pricing.KnownOption(cat, SelectedModifiers(groups, selection)[j].modifierOptionId)
    ensures ClientCount(cat, SelectedModifiers(groups, selection), g) == 0
  {
    if groups != [] {
      var rest := groups[1..];
      assert forall a :: 0 <= a < |rest| ==> rest[a] == groups[a + 1];
      assert Filed(cat, rest);
      ClientCountPick(cat, groups[0].options, SelectedIn(selection, groups[0].id), groups[0].id, g);
      ClientCountNone(cat, rest, selection, g);
      ClientCountAppend(cat, PickOptions(groups[0].options, SelectedIn(selection, groups[0].id)), SelectedModifiers(rest, selection), g);
    }
  }

  /** For a clean checked list and a catalogue that files each option under
      its group, the modifiers taken from the selection count, in each of the
      item's groups, exactly `selected.length`. */
  lemma SelectionCount(cat: Pricing.Catalog, item: MenuItem, selection: Selection, i: nat)
    requires Filed(cat, item.modifierGroups) && DistinctGroups(item.modifierGroups) && i < |item.modifierGroups|
    requires DistinctIds(item.modifierGroups[i].options)
    requires CleanList(item.modifierGroups[i], SelectedIn(selection, item.modifierGroups[i].id))
    ensures forall j :: 0 <= j < |GetSelectedModifiers(item, selection)| ==>
      Pricing.KnownOption(cat, GetSelectedModifiers(item, selection)[j].modifierOptionId)
    ensures ClientCount(cat, GetSelectedModifiers(item, selection), item.modifierGroups[i].id)
      == |SelectedIn(selection, item.modifierGroups[i].id)|
  {
    var group := item.modifierGroups[i];
    ClientCountSelected(cat, item.modifierGroups, selection, i);
    PickOptionsCount(group.options, SelectedIn(selection, group.id));
  }

  /** The modifiers a line sends, each with quantity 1, make the server
      count in each of the item's groups the form's `selected.length`; so a
      selection `validateSelection` accepts passes the server's bounds. */
  lemma LineCountIsSelection(cat: Pricing.Catalog, mods: seq<OrderSchema.ModifierInput>, ms: seq<CartModifier>,
                             item: MenuItem, selection: Selection, i: nat)
    requires ms == GetSelectedModifiers(item, selection)
    requires |mods| == |ms| && forall j :: 0 <= j < |ms| ==> mods[j] == OrderSchema.ModifierInput(ms[j].modifierOptionId, 1)
    requires Filed(cat, item.modifierGroups) && DistinctGroups(item.modifierGroups) && i < |item.modifierGroups|
    requires DistinctIds(item.modifierGroups[i].options)
    requires CleanList(item.modifierGroups[i], SelectedIn(selection, item.modifierGroups[i].id))
    ensures forall j :: 0 <= j < |mods| ==> Pricing.KnownOption(cat, mods[j].modifierOptionId)
    ensures Pricing.RequestedInGroup(cat, mods, item.modifierGroups[i].id) == |SelectedIn(selection, item.modifierGroups[i].id)|
    ensures ValidateSelection(item, selection) ==>
      Pricing.WithinBounds(BoundsOf(item.modifierGroups[i]), Pricing.RequestedInGroup(cat, mods, item.modifierGroups[i].id))
  {
    var group := item.modifierGroups[i];
    assert ValidateSelection(item, selection) ==> Pricing.WithinBounds(BoundsOf(group), |SelectedIn(selection, group.id)|);
    SelectionCount(cat, item, selection, i);
    QuantityOneCounts(cat, ms, mods, group.id);
  }

  /** The count the form checks and the count the server checks agree for a
      submitted cart: the line built from a clean selection reaches the
      server with, in each of the item's groups, `selected.length`
      options, and a selection the form accepts passes the server's bounds. */
  lemma FormCountIsServerCount(cat: Pricing.Catalog, restaurantId: string, cart: seq<CartItem>, customerName: string,
                               customerPhone: string, notes: string, isEmail: string -> bool, line: nat,
                               item: MenuItem, selection: Selection, i: nat)
    requires OrderSchema.ParseOrder(Payload(restaurantId, cart, customerName, customerPhone, notes), isEmail).Ok?
    requires line < |cart| && cart[line].modifiers == GetSelectedModifiers(item, selection)
    requires Filed(cat, item.modifierGroups) && DistinctGroups(item.modifierGroups) && i < |item.modifierGroups|
    requires DistinctIds(item.modifierGroups[i].options)
    requires CleanList(item.modifierGroups[i], SelectedIn(selection, item.modifierGroups[i].id))
    ensures var o := OrderSchema.ParseOrder(Payload(restaurantId, cart, customerName, customerPhone, notes), isEmail).value;
      && line < |o.items| && o.items[line] == SentInput(cart[line])
      && LineCounts(cat, o.items[line].modifiers.value, item, selection, i)
  {
    SubmittedLines(restaurantId, cart, customerName, customerPhone, notes, isEmail, line);
    var sent := SentInput(cart[line]);
    SentInputModifiers(cart[line]);
    LineCountIsSelection(cat, sent.modifiers.value, cart[line].modifiers, item, selection, i);
    assert LineCounts(cat, sent.modifiers.value, item, selection, i);
  }

  /** A sent line carries one quantity-1 modifier per cart modifier. */
  lemma SentInputModifiers(line: CartItem)
    ensures SentInput(line).modifiers.Some?
    ensures var mods := SentInput(line).modifiers.value;
      |mods| == |line.modifiers| &&
      forall j :: 0 <= j < |mods| ==> mods[j] == OrderSchema.ModifierInput(line.modifiers[j].modifierOptionId, 1)
  {
  }

  /** The server's count for the item's `i`-th group is the form's, and is
      within the group's bounds when the form accepted the selection. */
  predicate LineCounts(cat: Pricing.Catalog, mods: seq<OrderSchema.ModifierInput>, item: MenuItem, selection: Selection, i: nat)
    requires i < |item.modifierGroups|
  {
    && (forall j :: 0 <= j < |mods| ==> Pricing.KnownOption(cat, mods[j].modifierOptionId))
    && Pricing.RequestedInGroup(cat, mods, item.modifierGroups[i].id) == |SelectedIn(selection, item.modifierGroups[i].id)|
    && (ValidateSelection(item, selection) ==>
          Pricing.WithinBounds(BoundsOf(item.modifierGroups[i]), Pricing.RequestedInGroup(cat, mods, item.modifierGroups[i].id)))
  }

  /** A cart holding one menu item on two lines (the same item with two
      different modifier lists) is refused by the server's item count check
      once its payload is accepted. */
  lemma RepeatedCartItemRejected(cat: Pricing.Catalog, restaurantId: string, cart: seq<CartItem>, customerName: string,
                                 customerPhone: string, notes: string, isEmail: string -> bool, i: nat, j: nat)
    requires Pricing.RatesNonNegative(cat)
    requires OrderSchema.ParseOrder(Payload(restaurantId, cart, customerName, customerPhone, notes), isEmail).Ok?
    requires i < j < |cart| && cart[i].id == cart[j].id
    ensures var o := OrderSchema.ParseOrder(Payload(restaurantId, cart, customerName, customerPhone, notes), isEmail).value;
      Pricing.PriceOrderSpec(cat, o.restaurantId, o.items) == Err(Errors.BadRequest(Pricing.ItemsInvalid))
  {
    var raw := Payload(restaurantId, cart, customerName, customerPhone, notes);
    OrderSchema.AcceptedItems(raw, isEmail, i);
    OrderSchema.AcceptedItems(raw, isEmail, j);
    var o := OrderSchema.ParseOrder(raw, isEmail).value;
    Pricing.RepeatedItemRejected(cat, o.restaurantId, o.items, i, j);
  }

  // ---- the component state ----

  /** What the server action returns on success. */
  datatype Placed = Placed(orderNumber: int, publicToken: string)

  class OrderForm {
    var cart: seq<CartItem>
    var customerName: string
    var customerPhone: string
    var notes: string
    var modifierSelections: map<string, Selection>
    var status: Option<Status>
    /** `isPending` of `useTransition`: a submit is awaiting the server. */
    var pending: bool

    ghost predicate Valid()
      reads this
    {
      WellFormed(cart)
    }

    /** The initial `useState` values. */
    constructor ()
      ensures Valid()
      ensures cart == [] && customerName == "" && customerPhone == "" && notes == ""
      ensures modifierSelections == map[] && status == None && !pending
    {
      cart := [];
      customerName := "";
      customerPhone := "";
      notes := "";
      modifierSelections := map[];
      status := None;
      pending := false;
    }

    /** `addToCart(item)`: an invalid selection only sets the error banner;
        a valid one adds the checked modifiers' line to the cart. */
    method AddToCart(item: MenuItem)
      requires Valid()
      modifies this
      ensures Valid()
      ensures var selection := ItemSelection(old(modifierSelections), item.id);
        && (!ValidateSelection(item, selection) ==> cart == old(cart) && status == Some(Failed(InvalidSelectionMessage)))
        && (ValidateSelection(item, selection) ==>
              cart == AddLine(old(cart), item, GetSelectedModifiers(item, selection)) && status == old(status))
      ensures modifierSelections == old(modifierSelections)
      ensures customerName == old(customerName) && customerPhone == old(customerPhone) && notes == old(notes)
      ensures pending == old(pending)
    {
      var selection := ItemSelection(modifierSelections, item.id);
      if !ValidateSelection(item, selection) {
        status := Some(Failed(InvalidSelectionMessage));
        return;
      }
      var modifiers := GetSelectedModifiers(item, selection);
      AddLineEffect(cart, item, modifiers);
      cart := AddLine(cart, item, modifiers);
    }

    /** `incrementCartItem(index)` */
    method IncrementCartItem(index: int)
      requires Valid()
      modifies this
      ensures Valid()
      ensures cart == IncrementAt(old(cart), index)
      ensures modifierSelections == old(modifierSelections) && status == old(status)
      ensures customerName == old(customerName) && customerPhone == old(customerPhone) && notes == old(notes)
      ensures pending == old(pending)
    {
      IncrementEffect(cart, index);
      cart := IncrementAt(cart, index);
    }

    /** `decrementCartItem(index)` */
    method DecrementCartItem(index: int)
      requires Valid()
      modifies this
      ensures Valid()
      ensures cart == DecrementAt(old(cart), index)
      ensures modifierSelections == old(modifierSelections) && status == old(status)
      ensures customerName == old(customerName) && customerPhone == old(customerPhone) && notes == old(notes)
      ensures pending == old(pending)
    {
      DecrementKeepsWellFormed(cart, index);
      cart := DecrementAt(cart, index);
    }

    /** The `onChange` of an option's checkbox. */
    method ToggleModifier(itemId: string, groupId: string, optionId: string, checked: bool)
      requires Valid()
      modifies this
      ensures Valid()
      ensures modifierSelections == Toggle(old(modifierSelections), itemId, groupId, optionId, checked)
      ensures cart == old(cart) && status == old(status)
      ensures customerName == old(customerName) && customerPhone == old(customerPhone) && notes == old(notes)
      ensures pending == old(pending)
    {
      modifierSelections := Toggle(modifierSelections, itemId, groupId, optionId, checked);
    }

    /** The synchronous part of `submitOrder()`: the banner is cleared, the
        transition starts, and the payload is built from the current cart,
        customer and notes. */
    method BeginSubmit(restaurantId: string) returns (payload: OrderSchema.RawOrder)
      requires Valid()
      modifies this
      ensures Valid()
      ensures payload == Payload(restaurantId, cart, customerName, customerPhone, notes)
      ensures pending && status == None
      ensures cart == old(cart) && modifierSelections == old(modifierSelections)
      ensures customerName == old(customerName) && customerPhone == old(customerPhone) && notes == old(notes)
    {
      status := None;
      pending := true;
      payload := Payload(restaurantId, cart, customerName, customerPhone, notes);
    }

    /** The part of `submitOrder()` after `await createGuestOrder(...)`:
        `answer` is the server's reply, `None` when it throws. On success the
        banner shows the order and the cart, selections and notes are cleared,
        whatever they hold by now; on failure only the banner changes. */
    method CompleteSubmit(answer: Option<Placed>)
      requires Valid()
      modifies this
      ensures Valid()
      ensures !pending
      ensures answer.Some? ==>
        && status == Some(Received(answer.value.orderNumber, answer.value.publicToken))
        && cart == [] && modifierSelections == map[] && notes == ""
      ensures answer.None? ==>
        && status == Some(Failed(SubmitFailedMessage))
        && cart == old(cart) && modifierSelections == old(modifierSelections) && notes == old(notes)
      ensures customerName == old(customerName) && customerPhone == old(customerPhone)
    {
      if answer.Some? {
        status := Some(Received(answer.value.orderNumber, answer.value.publicToken));
        cart := [];
        modifierSelections := map[];
        notes := "";
      } else {
        status := Some(Failed(SubmitFailedMessage));
      }
      pending := false;
    }

    /** `submitOrder()` with no other handler run while the server answers:
        `place` is the server action, `None` when it throws. */
    method SubmitOrder(restaurantId: string, place: OrderSchema.RawOrder -> Option<Placed>)
      requires Valid()
      modifies this
      ensures Valid()
      ensures var answer := place(Payload(restaurantId, old(cart), old(customerName), old(customerPhone), old(notes)));
        && (answer.Some? ==>
              && status == Some(Received(answer.value.orderNumber, answer.value.publicToken))
              && cart == [] && modifierSelections == map[] && notes == "")
        && (answer.None? ==>
              && status == Some(Failed(SubmitFailedMessage))
              && cart == old(cart) && modifierSelections == old(modifierSelections) && notes == old(notes))
      ensures customerName == old(customerName) && customerPhone == old(customerPhone) && !pending
    {
      var payload := BeginSubmit(restaurantId);
      var answer := place(payload);
      CompleteSubmit(answer);
    }
  }
}
