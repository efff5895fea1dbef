/** The four menu schemas: category, menu item, modifier group and modifier
    option. Each is a plain record check; raw input is taken to be
    type-correct. */
module MenuSchema {
  import opened Wrappers
  import opened SchemaRules

  datatype RawCategory = RawCategory(restaurantId: string, name: string, description: Option<string>)

  datatype RawMenuItem = RawMenuItem(
    restaurantId: string,
    name: string,
    description: Option<string>,
    price: real,
    categoryId: Option<string>)

  datatype RawModifierGroup = RawModifierGroup(
    restaurantId: string,
    name: string,
    minSelected: Option<real>,
    maxSelected: Option<real>)

  datatype RawModifierOption = RawModifierOption(modifierGroupId: string, name: string, price: real)

  /** A modifier group after its defaults: both bounds are whole numbers. */
  datatype ModifierGroupInput = ModifierGroupInput(
    restaurantId: string,
    name: string,
    minSelected: int,
    maxSelected: int)

  /** Success carries no value for the three schemas whose output equals their input. */
  function Verdict(issues: seq<Issue>): (r: Outcome<seq<Issue>>)
    ensures r.Pass? <==> issues == []
  {
    if issues == [] then Pass else Fail(issues)
  }

  /** `createCategorySchema` */
  function CheckCategory(c: RawCategory): (r: Outcome<seq<Issue>>)
    ensures r.Pass? <==> |c.restaurantId| >= 1 && 2 <= |c.name| <= 80
                         && (c.description.Some? ==> |c.description.value| <= 200)
  {
    Verdict(MinLen([Key("restaurantId")], c.restaurantId, 1)
      + LenRange([Key("name")], c.name, 2, 80)
      + OptMaxLen([Key("description")], c.description, 200))
  }

  /** `createMenuItemSchema` */
  function CheckMenuItem(m: RawMenuItem): (r: Outcome<seq<Issue>>)
    ensures r.Pass? <==> && |m.restaurantId| >= 1 && 2 <= |m.name| <= 120
                         && (m.description.Some? ==> |m.description.value| <= 400)
                         && m.price >= 0.0
                         && (m.categoryId.Some? ==> |m.categoryId.value| >= 1)
  {
    Verdict(MinLen([Key("restaurantId")], m.restaurantId, 1)
      + LenRange([Key("name")], m.name, 2, 120)
      + OptMaxLen([Key("description")], m.description, 400)
      + AtLeast([Key("price")], m.price, 0.0)
      + (if m.categoryId.Some? then MinLen([Key("categoryId")], m.categoryId.value, 1) else []))
  }

  /** `createModifierGroupSchema`: absent bounds default to 0, and each bound
      must be a whole number in 0..10. */
  function ParseModifierGroup(g: RawModifierGroup): (r: Result<ModifierGroupInput, seq<Issue>>)
    ensures r.Err? ==> r.error != []
  {
    var lo, hi := g.minSelected.GetOr(0.0), g.maxSelected.GetOr(0.0);
    var issues := MinLen([Key("restaurantId")], g.restaurantId, 1)
      + LenRange([Key("name")], g.name, 2, 80)
      + IntRange([Key("minSelected")], lo, 0.0, 10.0)
      + IntRange([Key("maxSelected")], hi, 0.0, 10.0);
    if issues == [] then Ok(ModifierGroupInput(g.restaurantId, g.name, lo.Floor, hi.Floor))
    else Err(issues)
  }

  /** `createModifierOptionSchema` */
  function CheckModifierOption(o: RawModifierOption): (r: Outcome<seq<Issue>>)
    ensures r.Pass? <==> |o.modifierGroupId| >= 1 && 2 <= |o.name| <= 80 && o.price >= 0.0
  {
    Verdict(MinLen([Key("modifierGroupId")], o.modifierGroupId, 1)
      + LenRange([Key("name")], o.name, 2, 80)
      + AtLeast([Key("price")], o.price, 0.0))
  }

  /** A modifier group is accepted exactly when its name length is 2..80 and
      both bounds, after defaulting to 0, are whole numbers in 0..10; the
      parsed bounds are those numbers. */
  lemma ModifierGroupAccepted(g: RawModifierGroup)
    ensures var lo, hi := g.minSelected.GetOr(0.0), g.maxSelected.GetOr(0.0);
      ParseModifierGroup(g).Ok? <==>
        && |g.restaurantId| >= 1 && 2 <= |g.name| <= 80
        && IsInt(lo) && 0.0 <= lo <= 10.0 && IsInt(hi) && 0.0 <= hi <= 10.0
    ensures ParseModifierGroup(g).Ok? ==>
      var p := ParseModifierGroup(g).value;
      && p.minSelected as real == g.minSelected.GetOr(0.0)
      && p.maxSelected as real == g.maxSelected.GetOr(0.0)
      && 0 <= p.minSelected <= 10 && 0 <= p.maxSelected <= 10
  {
  }

  /** No rule relates the two bounds: a group whose minimum exceeds its
      maximum is accepted as it is. */
  lemma MinAboveMaxAccepted(restaurantId: string, name: string, lo: int, hi: int)
    requires |restaurantId| >= 1 && 2 <= |name| <= 80
    requires 0 <= hi < lo <= 10
    ensures ParseModifierGroup(RawModifierGroup(restaurantId, name, Some(lo as real), Some(hi as real)))
            == Ok(ModifierGroupInput(restaurantId, name, lo, hi))
  {
    assert IsInt(lo as real) && IsInt(hi as real);
  }

  /** Bounds left out become 0 and 0. */
  lemma ModifierGroupDefaults(restaurantId: string, name: string)
    requires |restaurantId| >= 1 && 2 <= |name| <= 80
    ensures ParseModifierGroup(RawModifierGroup(restaurantId, name, None, None))
            == Ok(ModifierGroupInput(restaurantId, name, 0, 0))
  {
    assert IsInt(0.0);
  }
}
