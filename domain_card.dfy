/** The domain card's icon rule: the emoji of the first entry, in
    declaration order, whose key occurs in the domain name, compared in
    lower case. */
module DomainCard {
  import opened Base

  const DefaultIcon := "📊"

  /** The icon table in declaration order. */
  const IconTable: seq<(string, string)> := [
    ("Production", "🌾"), ("Population", "👥"), ("Trade", "🚢"), ("Prices", "💰"),
    ("Nutrition", "🍎"), ("Investment", "💼"), ("Food Security", "🛡️"), ("Climate Change", "🌍"),
    ("Forestry", "🌲"), ("Fisheries", "🐟"), ("Livestock", "🐄"), ("Land", "🌍"),
    ("Economic", "📈"), ("Primary Supply", "📦"), ("Macro Economic", "📊"), ("Market Prices", "💱")]

  /** Entry `k` is the first entry whose key occurs in the name. */
  predicate ChosenAt(name: string, k: int) {
    0 <= k < |IconTable| && ContainsIgnoreCase(name, IconTable[k].0)
    && forall j :: 0 <= j < k ==> !ContainsIgnoreCase(name, IconTable[j].0)
  }

  /** getIcon. */
  function GetIcon(name: string): (r: string)
    ensures forall k :: ChosenAt(name, k) ==> r == IconTable[k].1
    ensures (forall k :: 0 <= k < |IconTable| ==> !ContainsIgnoreCase(name, IconTable[k].0)) ==> r == DefaultIcon
    ensures r != DefaultIcon ==> exists k :: 0 <= k < |IconTable| && ContainsIgnoreCase(name, IconTable[k].0) && r == IconTable[k].1
  {
    FirstMatch(IconTable, key => ContainsIgnoreCase(name, key), DefaultIcon)
  }

  /** Whenever `long` contains `short`, a name containing `long` contains
      `short`, case-insensitively. */
  lemma KeyInTrans(name: string, long: string, short: string, at: nat)
    requires OccursAt(long, short, at)
    requires ContainsIgnoreCase(name, long)
    ensures ContainsIgnoreCase(name, short)
  {
    ContainsAt(long, short, at);
    LowerContains(long, short);
    ContainsTrans(Lower(name), Lower(long), Lower(short));
  }

  /** Earlier entries shadow later ones: a name holding both `Production`
      and `Livestock` gets the production icon. */
  lemma ProductionShadowsLivestock(name: string)
    requires ContainsIgnoreCase(name, "Production") && ContainsIgnoreCase(name, "Livestock")
    ensures GetIcon(name) == "🌾"
  {
    assert ChosenAt(name, 0);
  }

  /** `Macro Economic` is never the chosen entry: `Economic` comes first
      and is part of it. */
  lemma MacroEconomicShadowed(name: string)
    ensures !ChosenAt(name, 14)
  {
    if ContainsIgnoreCase(name, "Macro Economic") {
      assert OccursAt("Macro Economic", "Economic", 6);
      KeyInTrans(name, "Macro Economic", "Economic", 6);
      assert ContainsIgnoreCase(name, IconTable[12].0);
    }
  }

  /** Some entry up to `m` is chosen when entry `m`'s key occurs. */
  lemma {:induction false} SomeChosen(name: string, m: int)
    requires 0 <= m < |IconTable| && ContainsIgnoreCase(name, IconTable[m].0)
    ensures exists j :: 0 <= j <= m && ChosenAt(name, j)
    decreases m
  {
    if forall j :: 0 <= j < m ==> !ContainsIgnoreCase(name, IconTable[j].0) {
      assert ChosenAt(name, m);
    } else {
      var j :| 0 <= j < m && ContainsIgnoreCase(name, IconTable[j].0);
      SomeChosen(name, j);
    }
  }

  /** A name containing `Market Prices` contains `Prices`, entry 3. */
  lemma MarketPricesHasPrices(name: string)
    requires ContainsIgnoreCase(name, "Market Prices")
    ensures ContainsIgnoreCase(name, IconTable[3].0)
  {
    assert OccursAt("Market Prices", "Prices", 7);
    KeyInTrans(name, "Market Prices", "Prices", 7);
  }

  /** `Market Prices` is never the chosen entry: `Prices` comes first and
      is part of it. */
  lemma MarketPricesShadowed(name: string)
    ensures !ChosenAt(name, 15)
  {
    if ContainsIgnoreCase(name, "Market Prices") {
      MarketPricesHasPrices(name);
    }
  }

  /** Only the last entry carries the currency-exchange icon. */
  lemma ExchangeIconOnlyLast(k: int)
    requires 0 <= k < |IconTable| && IconTable[k].1 == "💱"
    ensures k == 15
  {
    assert forall j :: 0 <= j < 15 ==> IconTable[j].1 != "💱";
  }

  /** So the `Market Prices` icon is never returned. */
  lemma MarketPricesIconUnused(name: string)
    ensures GetIcon(name) != "💱"
  {
    var r := GetIcon(name);
    if r == "💱" {
      var k :| 0 <= k < |IconTable| && ContainsIgnoreCase(name, IconTable[k].0) && r == IconTable[k].1;
      ExchangeIconOnlyLast(k);
      MarketPricesHasPrices(name);
      SomeChosen(name, 3);
      var j :| 0 <= j <= 3 && ChosenAt(name, j);
      ExchangeIconOnlyLast(j);
    }
  }
}
