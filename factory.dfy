/** The pizza factory: a type key and a size give a plain catalog pizza.
    The key is matched after lower-casing it and removing its spaces. */
module Factory {
  import opened Sizes
  import opened Pizzas
  import opened Catalog
  import opened JavaText
  import opened Wrappers

  /** Both failures are an IllegalArgumentException; they differ in the message. */
  datatype Failure =
    | NullArgument
    | UnknownType(requested: string)
  {
    /** `getMessage()`: an unknown type's message ends with the type as given. */
    function Message(): (r: string)
      ensures UnknownType? ==> |r| == 20 + |requested| && r[20..] == requested
      ensures NullArgument? ==> r == "Pizza type and size cannot be null"
    {
      match this
      case NullArgument => "Pizza type and size cannot be null"
      case UnknownType(t) => "Unknown pizza type: " + t
    }
  }

  /** The message tells the failures apart, and an unknown type's requested text. */
  lemma MessagesDistinguish(a: Failure, b: Failure)
    ensures a.Message() == b.Message() <==> a == b
  {
    if a.UnknownType? {
      NullMessageIsNotUnknown(a.requested);
    }
    if b.UnknownType? {
      NullMessageIsNotUnknown(b.requested);
    }
  }

  /** The null-argument message starts with 'P', an unknown type's with 'U'. */
  lemma NullMessageIsNotUnknown(t: string)
    ensures NullArgument.Message() != UnknownType(t).Message()
  {
    assert UnknownType(t).Message()[0] == 'U';
  }

  datatype Result<T> = Ok(value: T) | Err(failure: Failure)

  /** The normalised keys the factory recognises. */
  const Keys: set<string> := {"margherita", "pepperoni", "hawaiian", "seafood", "veggiesupreme"}

  /** `type.toLowerCase().replace(" ", "")`. */
  function NormalizeKey(t: string): (k: string)
    ensures ' ' !in k
    ensures forall c :: c in k ==> !('A' <= c <= 'Z')
  {
    RemoveSpaces(ToLower(t))
  }

  lemma NormalizeAppend(a: string, b: string)
    ensures NormalizeKey(a + b) == NormalizeKey(a) + NormalizeKey(b)
  {
    ToLowerAppend(a, b);
    RemoveSpacesAppend(ToLower(a), ToLower(b));
  }

  /** A space separates words and disappears from the key. */
  lemma NormalizeSpace(a: string, b: string)
    ensures NormalizeKey(a + " " + b) == NormalizeKey(a) + NormalizeKey(b)
  {
    NormalizeAppend(a + " ", b);
    NormalizeAppend(a, " ");
    assert RemoveSpaces(ToLower(" ")) == [];
  }

  /** Without spaces, normalising is just lower-casing. */
  lemma NormalizeWord(w: string)
    requires ' ' !in w
    ensures NormalizeKey(w) == ToLower(w)
  {
    LowerRemoveCommute(w);
    RemoveSpacesNoop(w);
  }

  /** `PizzaFactory.create(type, size)`. */
  function Create(t: Option<string>, size: Option<Size>): (r: Result<Pizza>)
    ensures (t.None? || size.None?) <==> r == Err(NullArgument)
    ensures t.Some? && size.Some? ==> (r.Ok? <==> NormalizeKey(t.value) in Keys)
    ensures t.Some? && size.Some? && NormalizeKey(t.value) !in Keys ==> r == Err(UnknownType(t.value))
    ensures r.Ok? ==> r.value.Base? && SizeOf(r.value) == size.value
    ensures r.Ok? ==> Price(r.value) == BasePrice(r.value) + PriceModifier(size.value)
  {
    if t.None? || size.None? then Err(NullArgument)
    else
      var key := NormalizeKey(t.value);
      if key == "margherita" then Ok(Margherita(size.value))
      else if key == "pepperoni" then Ok(Pepperoni(size.value))
      else if key == "hawaiian" then Ok(Hawaiian(size.value))
      else if key == "seafood" then Ok(Seafood(size.value))
      else if key == "veggiesupreme" then Ok(VeggieSupreme(size.value))
      else Err(UnknownType(t.value))
  }

  /** Every pizza the factory creates has non-negative prices, so it costs at least 0. */
  lemma CreatedPizzaNonNegative(t: Option<string>, size: Option<Size>)
    requires Create(t, size).Ok?
    ensures NonNegativePrices(Create(t, size).value)
    ensures Price(Create(t, size).value) >= 0
  {
  }

  /** `getAvailableTypes()`. */
  function AvailableTypes(): (r: seq<string>)
    ensures |r| == 5
    ensures forall i, j :: 0 <= i < j < |r| ==> r[i] != r[j]
  {
    ["Margherita", "Pepperoni", "Hawaiian", "Seafood", "Veggie Supreme"]
  }

  /** Normalising first changes nothing: case and spaces in the key never matter. */
  lemma NormalizeIgnoresCaseAndSpaces(t: string)
    ensures NormalizeKey(ToLower(t)) == NormalizeKey(t)
    ensures NormalizeKey(RemoveSpaces(t)) == NormalizeKey(t)
    ensures NormalizeKey(NormalizeKey(t)) == NormalizeKey(t)
  {
    assert ToLower(ToLower(t)) == ToLower(t);
    LowerRemoveCommute(t);
    RemoveSpacesNoop(RemoveSpaces(ToLower(t)));
    var k := NormalizeKey(t);
    LowerRemoveCommute(k);
    RemoveSpacesNoop(k);
    assert ToLower(k) == k;
  }

  /** Two spellings with the same key give the same pizza, or both fail. */
  lemma CreateDependsOnlyOnKey(t1: string, t2: string, size: Size)
    requires NormalizeKey(t1) == NormalizeKey(t2)
    ensures Create(Some(t1), Some(size)).Ok? <==> Create(Some(t2), Some(size)).Ok?
    ensures Create(Some(t1), Some(size)).Ok? ==> Create(Some(t1), Some(size)) == Create(Some(t2), Some(size))
  {
  }

  /** A key that is already lower case and has no space normalises to itself. */
  lemma NormalizeFixesKey(k: string)
    requires ' ' !in k
    requires forall c :: c in k ==> !('A' <= c <= 'Z')
    ensures NormalizeKey(k) == k
  {
    NormalizeWord(k);
    assert forall i :: 0 <= i < |k| ==> k[i] in k;
  }

  /** Each recognised key gives its own catalog pizza with the requested size. */
  lemma CreateDispatch(key: string, size: Size)
    requires key in Keys
    ensures key == "margherita" ==> Create(Some(key), Some(size)) == Ok(Margherita(size))
    ensures key == "pepperoni" ==> Create(Some(key), Some(size)) == Ok(Pepperoni(size))
    ensures key == "hawaiian" ==> Create(Some(key), Some(size)) == Ok(Hawaiian(size))
    ensures key == "seafood" ==> Create(Some(key), Some(size)) == Ok(Seafood(size))
    ensures key == "veggiesupreme" ==> Create(Some(key), Some(size)) == Ok(VeggieSupreme(size))
  {
    NormalizeFixesKey(key);
  }

  /** A one-word spelling normalises to its lower case. */
  lemma KeyOfWord(t: string, k: string)
    requires ' ' !in t && ToLower(t) == k
    ensures NormalizeKey(t) == k
  {
    NormalizeWord(t);
  }

  /** A two-word spelling normalises to both words lower-cased, run together. */
  lemma KeyOfTwoWords(t: string, a: string, b: string)
    requires t == a + " " + b
    requires ' ' !in a && ' ' !in b
    ensures NormalizeKey(t) == ToLower(a) + ToLower(b)
  {
    NormalizeSpace(a, b);
    NormalizeWord(a);
    NormalizeWord(b);
  }

  /** A one-word spelling whose lower case is a key creates that key's pizza. */
  lemma CreateWord(t: string, key: string, size: Size)
    requires ' ' !in t && ToLower(t) == key && key in Keys
    ensures Create(Some(t), Some(size)) == Create(Some(key), Some(size))
  {
    KeyOfWord(t, key);
    NormalizeFixesKey(key);
  }

  /** The one-word names of `getAvailableTypes()`, lower-cased. */
  lemma LowerAvailableWords()
    ensures ' ' !in "Margherita" && ToLower("Margherita") == "margherita"
    ensures ' ' !in "Pepperoni" && ToLower("Pepperoni") == "pepperoni"
    ensures ' ' !in "Hawaiian" && ToLower("Hawaiian") == "hawaiian"
    ensures ' ' !in "Seafood" && ToLower("Seafood") == "seafood"
  {
  }

  /** Each name `getAvailableTypes()` lists creates its own catalog pizza. */
  lemma AvailableTypesCreate(size: Size)
    ensures Create(Some("Margherita"), Some(size)) == Ok(Margherita(size))
    ensures Create(Some("Pepperoni"), Some(size)) == Ok(Pepperoni(size))
    ensures Create(Some("Hawaiian"), Some(size)) == Ok(Hawaiian(size))
    ensures Create(Some("Seafood"), Some(size)) == Ok(Seafood(size))
    ensures Create(Some("Veggie Supreme"), Some(size)) == Ok(VeggieSupreme(size))
  {
    LowerAvailableWords();
    CreateDispatch("margherita", size);
    CreateWord("Margherita", "margherita", size);
    CreateDispatch("pepperoni", size);
    CreateWord("Pepperoni", "pepperoni", size);
    CreateDispatch("hawaiian", size);
    CreateWord("Hawaiian", "hawaiian", size);
    CreateDispatch("seafood", size);
    CreateWord("Seafood", "seafood", size);
    VeggieSupremeSpellings("Veggie Supreme", size);
  }

  /** Every name `getAvailableTypes()` lists is accepted by `create`. */
  lemma AvailableTypesAccepted(i: nat, size: Size)
    requires i < |AvailableTypes()|
    ensures Create(Some(AvailableTypes()[i]), Some(size)).Ok?
  {
    AvailableTypesCreate(size);
    var t := AvailableTypes()[i];
    if i == 0 {
      assert t == "Margherita";
    } else if i == 1 {
      assert t == "Pepperoni";
    } else if i == 2 {
      assert t == "Hawaiian";
    } else if i == 3 {
      assert t == "Seafood";
    } else {
      assert t == "Veggie Supreme";
    }
  }

  /** "Veggie Supreme", "veggiesupreme" and "VEGGIE SUPREME" all name the veggie pizza. */
  lemma VeggieSupremeSpellings(t: string, size: Size)
    requires t == "Veggie Supreme" || t == "veggiesupreme" || t == "VEGGIE SUPREME"
    ensures Create(Some(t), Some(size)) == Ok(VeggieSupreme(size))
  {
    assert NormalizeKey(t) == "veggiesupreme" by {
      if t == "veggiesupreme" {
        KeyOfWord(t, "veggiesupreme");
      } else if t == "Veggie Supreme" {
        KeyOfTwoWords(t, "Veggie", "Supreme");
        LowerVeggieSupreme();
      } else {
        KeyOfTwoWords(t, "VEGGIE", "SUPREME");
        LowerVeggieSupreme();
      }
    }
  }

  lemma LowerVeggieSupreme()
    ensures ToLower("Veggie") + ToLower("Supreme") == "veggiesupreme"
    ensures ToLower("VEGGIE") + ToLower("SUPREME") == "veggiesupreme"
  {
    assert ToLower("Veggie") == "veggie";
    assert ToLower("Supreme") == "supreme";
    assert ToLower("VEGGIE") == "veggie";
    assert ToLower("SUPREME") == "supreme";
  }
}
