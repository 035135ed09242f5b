/** Editing a cart item: the dialog unwraps the item to its base, turns the
    base's display name into a factory key by removing its spaces, creates a
    fresh base of the chosen size and re-applies the chosen toppings in the
    fixed order cheese, bacon, mushroom. A failed `create` gives no pizza. */
module ItemEdit {
  import opened Sizes
  import opened Pizzas
  import opened Catalog
  import opened JavaText
  import opened Decorators
  import opened Factory
  import opened Wrappers

  /** `getBasePizza(currentPizza).getName().replace(" ", "")`. */
  function EditKey(current: Pizza): (k: string)
    ensures ' ' !in k
    ensures NormalizeKey(k) == NormalizeKey(Name(current))
  {
    UnwrapKeepsIdentity(current);
    NormalizeIgnoresCaseAndSpaces(Name(current));
    RemoveSpaces(Name(UnwrapToBase(current)))
  }

  /** The save action of the edit dialog, as written; `None` is the null
      result of a failed `create`, which leaves the cart item as it was. */
  function EditAsWritten(current: Pizza, size: Size, addCheese: bool, addBacon: bool, addMushroom: bool): (r: Option<Pizza>)
    ensures r.Some? <==> NormalizeKey(Name(current)) in Keys
    ensures r.Some? ==> UnwrapToBase(r.value) == Create(Some(EditKey(current)), Some(size)).value
    ensures r.Some? ==> SizeOf(r.value) == size
    ensures r.Some? ==> ToppingsOf(r.value) == SelectedToppings(addCheese, addBacon, addMushroom)
  {
    match Create(Some(EditKey(current)), Some(size))
    case Ok(b) =>
      UnwrapKeepsIdentity(RebuildFromOriginal(b, addCheese, addBacon, addMushroom));
      Some(RebuildFromOriginal(b, addCheese, addBacon, addMushroom))
    case Err(_) => None
  }

  /** No factory key contains the letter 'z'. */
  lemma KeysHaveNoZ(k: string)
    requires k in Keys
    ensures 'z' !in k
  {
  }

  /** A name with a 'z' in it keeps it through lower-casing and space
      removal, so it never normalises to a key and cannot be recreated. */
  lemma NoKeyWithZ(current: Pizza, size: Size, i: nat)
    requires i < |Name(current)| && Name(current)[i] == 'z'
    ensures 'z' in NormalizeKey(Name(current))
    ensures Create(Some(EditKey(current)), Some(size)).Err?
  {
    var name := Name(current);
    assert ToLower(name)[i] == 'z';
    assert 'z' in ToLower(name);
    if NormalizeKey(name) in Keys {
      KeysHaveNoZ(NormalizeKey(name));
    }
  }

  lemma MargheritaNameKey()
    ensures NormalizeKey(MargheritaName) == "margherita"
  {
    KeyOfWord(MargheritaName, "margherita");
  }

  lemma HawaiianNameKey()
    ensures NormalizeKey(HawaiianName) == "hawaiian"
  {
    KeyOfWord(HawaiianName, "hawaiian");
  }

  /** Every pizza the dialogs build, a factory pizza with any of the three
      toppings, has non-negative prices throughout and so costs at least 0. */
  lemma BuiltPizzasNonNegative(t: string, size: Size, addCheese: bool, addBacon: bool, addMushroom: bool)
    requires Create(Some(t), Some(size)).Ok?
    ensures NonNegativePrices(RebuildFromOriginal(Create(Some(t), Some(size)).value, addCheese, addBacon, addMushroom))
    ensures Price(RebuildFromOriginal(Create(Some(t), Some(size)).value, addCheese, addBacon, addMushroom)) >= 0
  {
    CreatedPizzaNonNegative(Some(t), Some(size));
  }

  /** When the name normalises to a key, the edit gives that key's pizza with the chosen toppings. */
  lemma EditViaKey(current: Pizza, size: Size, addCheese: bool, addBacon: bool, addMushroom: bool)
    requires NormalizeKey(Name(current)) in Keys
    ensures Create(Some(EditKey(current)), Some(size)) == Create(Some(NormalizeKey(Name(current))), Some(size))
    ensures EditAsWritten(current, size, addCheese, addBacon, addMushroom)
      == Some(RebuildFromOriginal(Create(Some(NormalizeKey(Name(current))), Some(size)).value, addCheese, addBacon, addMushroom))
  {
    var k := NormalizeKey(Name(current));
    NormalizeIgnoresCaseAndSpaces(Name(current));
    CreateDependsOnlyOnKey(EditKey(current), k, size);
  }

  /** Margherita and Hawaiian items, whatever their toppings, are recreated
      with the same kind, the new size and the chosen toppings. */
  lemma EditRoundTrips(current: Pizza, oldSize: Size, size: Size, addCheese: bool, addBacon: bool, addMushroom: bool)
    requires UnwrapToBase(current) == Margherita(oldSize) || UnwrapToBase(current) == Hawaiian(oldSize)
    ensures EditAsWritten(current, size, addCheese, addBacon, addMushroom)
      == Some(RebuildFromOriginal(Base(Name(current), size, BasePrice(current)), addCheese, addBacon, addMushroom))
  {
    UnwrapKeepsIdentity(current);
    if UnwrapToBase(current) == Margherita(oldSize) {
      MargheritaNameKey();
      CreateDispatch("margherita", size);
    } else {
      HawaiianNameKey();
      CreateDispatch("hawaiian", size);
    }
    EditViaKey(current, size, addCheese, addBacon, addMushroom);
  }

  /** Pepperoni, seafood and veggie items cannot be edited: their display
      names start with "Pizza ", whose 'z' survives normalisation and
      appears in no factory key. */
  lemma EditFailsForPrefixedNames(current: Pizza, oldSize: Size, size: Size, addCheese: bool, addBacon: bool, addMushroom: bool)
    requires UnwrapToBase(current) == Pepperoni(oldSize)
      || UnwrapToBase(current) == Seafood(oldSize)
      || UnwrapToBase(current) == VeggieSupreme(oldSize)
    ensures Create(Some(EditKey(current)), Some(size)).Err?
    ensures EditAsWritten(current, size, addCheese, addBacon, addMushroom) == None
  {
    var name := Name(current);
    assert name == UnwrapToBase(current).name;
    PrefixedNamesHaveZ(name);
    NoKeyWithZ(current, size, 2);
  }

  /** The three display names that start with "Pizza " have a 'z' at index 2. */
  lemma PrefixedNamesHaveZ(name: string)
    requires name == PepperoniName || name == SeafoodName || name == VeggieSupremeName
    ensures |name| > 2 && name[2] == 'z'
  {
  }

  /** The factory key each catalog name stands for; other names fall back
      to the name without spaces, as the dialog computes it. */
  function CatalogKey(name: string): (k: string)
    ensures name == PepperoniName ==> k == "pepperoni"
    ensures name == SeafoodName ==> k == "seafood"
    ensures name == VeggieSupremeName ==> k == "veggiesupreme"
    ensures name != PepperoniName && name != SeafoodName && name != VeggieSupremeName ==> k == RemoveSpaces(name)
  {
    if name == PepperoniName then "pepperoni"
    else if name == SeafoodName then "seafood"
    else if name == VeggieSupremeName then "veggiesupreme"
    else RemoveSpaces(name)
  }

  /** The save action with the name looked up in the catalog instead of
      having its spaces removed. */
  function EditCorrected(current: Pizza, size: Size, addCheese: bool, addBacon: bool, addMushroom: bool): (r: Option<Pizza>)
    ensures r.Some? ==> SizeOf(r.value) == size
    ensures r.Some? ==> ToppingsOf(r.value) == SelectedToppings(addCheese, addBacon, addMushroom)
  {
    match Create(Some(CatalogKey(Name(UnwrapToBase(current)))), Some(size))
    case Ok(b) =>
      UnwrapKeepsIdentity(RebuildFromOriginal(b, addCheese, addBacon, addMushroom));
      Some(RebuildFromOriginal(b, addCheese, addBacon, addMushroom))
    case Err(_) => None
  }

  /** The names without spaces keep their factory spelling. */
  lemma CatalogKeyOfPlainNames()
    ensures CatalogKey(MargheritaName) == "Margherita"
    ensures CatalogKey(HawaiianName) == "Hawaiian"
  {
    assert MargheritaName != PepperoniName && MargheritaName != SeafoodName && MargheritaName != VeggieSupremeName;
    assert HawaiianName != PepperoniName && HawaiianName != SeafoodName && HawaiianName != VeggieSupremeName;
    LowerAvailableWords();
    RemoveSpacesNoop(MargheritaName);
    RemoveSpacesNoop(HawaiianName);
  }

  /** When the catalog key creates a pizza, the corrected edit gives that pizza with the chosen toppings. */
  lemma EditCorrectedViaKey(current: Pizza, size: Size, addCheese: bool, addBacon: bool, addMushroom: bool, b: Pizza)
    requires Create(Some(CatalogKey(Name(current))), Some(size)) == Ok(b)
    ensures EditCorrected(current, size, addCheese, addBacon, addMushroom)
      == Some(RebuildFromOriginal(b, addCheese, addBacon, addMushroom))
  {
    UnwrapKeepsIdentity(current);
  }

  /** Every catalog item, with any toppings, is recreated with the same
      kind, the new size and the chosen toppings. */
  lemma EditCorrectedRoundTrips(current: Pizza, oldSize: Size, size: Size, addCheese: bool, addBacon: bool, addMushroom: bool)
    requires UnwrapToBase(current) == Margherita(oldSize)
      || UnwrapToBase(current) == Pepperoni(oldSize)
      || UnwrapToBase(current) == Hawaiian(oldSize)
      || UnwrapToBase(current) == Seafood(oldSize)
      || UnwrapToBase(current) == VeggieSupreme(oldSize)
    ensures EditCorrected(current, size, addCheese, addBacon, addMushroom)
      == Some(RebuildFromOriginal(Base(Name(current), size, BasePrice(current)), addCheese, addBacon, addMushroom))
  {
    UnwrapKeepsIdentity(current);
    var b;
    if UnwrapToBase(current) == Margherita(oldSize) {
      CatalogKeyOfPlainNames();
      AvailableTypesCreate(size);
      b := Margherita(size);
    } else if UnwrapToBase(current) == Hawaiian(oldSize) {
      CatalogKeyOfPlainNames();
      AvailableTypesCreate(size);
      b := Hawaiian(size);
    } else if UnwrapToBase(current) == Pepperoni(oldSize) {
      CreateDispatch("pepperoni", size);
      b := Pepperoni(size);
    } else if UnwrapToBase(current) == Seafood(oldSize) {
      CreateDispatch("seafood", size);
      b := Seafood(size);
    } else {
      CreateDispatch("veggiesupreme", size);
      b := VeggieSupreme(size);
    }
    EditCorrectedViaKey(current, size, addCheese, addBacon, addMushroom, b);
  }
}
