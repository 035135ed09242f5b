/** The five catalog pizzas: each fixes a name and a base price (VND) and
    takes the size from its caller. */
module Catalog {
  import opened Sizes
  import opened Pizzas

  const MargheritaName: string := "Margherita"
  const MargheritaBasePrice: int := 60_000
  const PepperoniName: string := "Pizza Pepperoni"
  const PepperoniBasePrice: int := 90_000
  const HawaiianName: string := "Hawaiian"
  const HawaiianBasePrice: int := 80_000
  const SeafoodName: string := "Pizza H\U{1EA3}i S\U{1EA3}n"
  const SeafoodBasePrice: int := 120_000
  const VeggieSupremeName: string := "Pizza Chay Rau C\U{1EE7}"
  const VeggieSupremeBasePrice: int := 70_000

  function Margherita(size: Size): (p: Pizza)
    ensures p.Base? && Name(p) == "Margherita" && SizeOf(p) == size && BasePrice(p) == 60_000
    ensures Price(p) == 60_000 + PriceModifier(size)
    ensures Description(p) == "Margherita (" + DisplayName(size) + ")"
  {
    Base(MargheritaName, size, MargheritaBasePrice)
  }

  function Pepperoni(size: Size): (p: Pizza)
    ensures p.Base? && Name(p) == "Pizza Pepperoni" && SizeOf(p) == size && BasePrice(p) == 90_000
    ensures Price(p) == 90_000 + PriceModifier(size)
    ensures Description(p) == "Pizza Pepperoni (" + DisplayName(size) + ")"
  {
    Base(PepperoniName, size, PepperoniBasePrice)
  }

  function Hawaiian(size: Size): (p: Pizza)
    ensures p.Base? && Name(p) == "Hawaiian" && SizeOf(p) == size && BasePrice(p) == 80_000
    ensures Price(p) == 80_000 + PriceModifier(size)
    ensures Description(p) == "Hawaiian (" + DisplayName(size) + ")"
  {
    Base(HawaiianName, size, HawaiianBasePrice)
  }

  function Seafood(size: Size): (p: Pizza)
    ensures p.Base? && Name(p) == "Pizza H\U{1EA3}i S\U{1EA3}n" && SizeOf(p) == size && BasePrice(p) == 120_000
    ensures Price(p) == 120_000 + PriceModifier(size)
    ensures Description(p) == "Pizza H\U{1EA3}i S\U{1EA3}n (" + DisplayName(size) + ")"
  {
    Base(SeafoodName, size, SeafoodBasePrice)
  }

  function VeggieSupreme(size: Size): (p: Pizza)
    ensures p.Base? && Name(p) == "Pizza Chay Rau C\U{1EE7}" && SizeOf(p) == size && BasePrice(p) == 70_000
    ensures Price(p) == 70_000 + PriceModifier(size)
    ensures Description(p) == "Pizza Chay Rau C\U{1EE7} (" + DisplayName(size) + ")"
  {
    Base(VeggieSupremeName, size, VeggieSupremeBasePrice)
  }

  lemma MargheritaDescription()
    ensures Description(Margherita(M)) == "Margherita (Medium)"
  {
    var p := Margherita(M);
    assert Description(p) == MargheritaName + " (" + DisplayName(M) + ")";
  }

  lemma MargheritaPrices()
    ensures Price(Margherita(S)) == 60_000
    ensures Price(Margherita(M)) == 75_000
    ensures Price(Margherita(L)) == 90_000
  {
    SizeTable();
  }

  lemma PepperoniDescription()
    ensures Description(Pepperoni(L)) == "Pizza Pepperoni (Large)"
  {
    var p := Pepperoni(L);
    assert Description(p) == PepperoniName + " (" + DisplayName(L) + ")";
  }

  lemma PepperoniPrices()
    ensures Price(Pepperoni(S)) == 90_000
    ensures Price(Pepperoni(M)) == 105_000
    ensures Price(Pepperoni(L)) == 120_000
  {
    SizeTable();
  }

  lemma HawaiianDescription()
    ensures Description(Hawaiian(M)) == "Hawaiian (Medium)"
  {
    var p := Hawaiian(M);
    assert Description(p) == HawaiianName + " (" + DisplayName(M) + ")";
  }

  lemma HawaiianPrices()
    ensures Price(Hawaiian(S)) == 80_000
    ensures Price(Hawaiian(M)) == 95_000
    ensures Price(Hawaiian(L)) == 110_000
  {
    SizeTable();
  }

  lemma SeafoodPrices()
    ensures Price(Seafood(S)) == 120_000
    ensures Price(Seafood(M)) == 135_000
    ensures Price(Seafood(L)) == 150_000
  {
    SizeTable();
  }

  lemma VeggieSupremePrices()
    ensures Price(VeggieSupreme(S)) == 70_000
    ensures Price(VeggieSupreme(M)) == 85_000
    ensures Price(VeggieSupreme(L)) == 100_000
  {
    SizeTable();
  }
}
