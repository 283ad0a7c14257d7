/** The reference lists the mock service is created with, and facts about
    them that the generator and the export rely on. */
module MockFixtures {
  import opened Base
  import opened ApiService
  import opened MockDataService

  // ---------------------------------------------------------------------
  // Fixtures

  const MockCounties: seq<County> := [
    County(1, "Nairobi", "47"),
    County(2, "Mombasa", "1"),
    County(3, "Kisumu", "42"),
    County(4, "Nakuru", "32"),
    County(5, "Eldoret", "27"),
    County(6, "Kiambu", "22"),
    County(7, "Meru", "12"),
    County(8, "Machakos", "16"),
    County(9, "Kakamega", "37"),
    County(10, "Nyeri", "19")
  ]

  const MockSubsectors: seq<Subsector> := [
    Subsector(1, "Crops", "CR", "Crop production and agriculture"),
    Subsector(2, "Livestock", "LV", "Livestock and animal husbandry"),
    Subsector(3, "Fisheries", "FS", "Fisheries and aquaculture"),
    Subsector(4, "Land", "LN", "Land use and management"),
    Subsector(5, "Economics", "EC", "Economic indicators and performance")
  ]

  const MockDomains: seq<Domain> := [
    Domain(1, "Crops Productivity", "CP", "Crop production statistics", 1),
    Domain(2, "Livestock Productivity", "LP", "Livestock production statistics", 2),
    Domain(3, "Fisheries Productivity", "FP", "Fisheries production statistics", 3),
    Domain(4, "Land", "LN", "Land use and management", 4),
    Domain(5, "Economic Performance", "EP", "Economic indicators", 5),
    Domain(6, "Trade (Primary Supply)", "TP", "Trade and supply chain", 5),
    Domain(7, "Market Prices (Commodities)", "MP", "Market prices for commodities", 5),
    Domain(8, "Nutrition", "NT", "Nutrition indicators", 5),
    Domain(9, "Population", "PP", "Population statistics", 5)
  ]

  const MockSubdomains: seq<SubDomain> := [
    SubDomain(1, "Crops Primary", "CP", "Primary crop production", 1),
    SubDomain(2, "Crops Processed", "CR", "Processed crop products", 1),
    SubDomain(3, "Livestock Primary", "LP", "Primary livestock production", 2),
    SubDomain(4, "Livestock Products", "LR", "Livestock products", 2),
    SubDomain(5, "Production Quantity (Fisheries)", "PQ", "Fish production quantities", 3),
    SubDomain(6, "Forest Area", "FA", "Forest coverage and management", 4),
    SubDomain(7, "Fertilizer", "FT", "Fertilizer usage and supply", 4),
    SubDomain(8, "Seeds and Seedlings", "SD", "Seeds and planting materials", 4),
    SubDomain(9, "Gross Domestic Product", "GD", "GDP indicators", 5),
    SubDomain(10, "Wholesale Prices", "WP", "Wholesale market prices", 7),
    SubDomain(11, "Export Quantity (Crops)", "EQ", "Crop export quantities", 6),
    SubDomain(12, "Stunting", "ST", "Child stunting indicators", 8),
    SubDomain(13, "Population Size", "PS", "Population statistics", 9)
  ]

  const MockElements: seq<Element> := [
    Element(1, "Crop Area", "CA", "Area under cultivation", 1),
    Element(2, "Production Quantity (Crops)", "PQ", "Crop production quantity", 1),
    Element(3, "Crop Yield", "YD", "Crop yield per hectare", 1),
    Element(4, "Production Quantity (Livestock)", "PQT", "Livestock production quantity", 3),
    Element(5, "Livestock Population", "PP", "Number of livestock", 3),
    Element(6, "Fresh Water Fish", "FW", "Fresh water fish production", 5),
    Element(7, "Marine Fish", "MF", "Marine fish production", 5),
    Element(8, "Fertilizer Apparent Consumption", "FA", "Fertilizer consumption", 7),
    Element(9, "Seed Primary", "SP", "Primary seed production", 8),
    Element(10, "GDP Agriculture", "GA", "Agricultural GDP", 9)
  ]

  const MockItemCategories: seq<ItemCategory> := [
    ItemCategory(1, "Cereals", "CER", "Cereal crops"),
    ItemCategory(2, "Legumes", "LEG", "Leguminous crops"),
    ItemCategory(3, "Vegetables", "VEG", "Vegetable crops"),
    ItemCategory(4, "Fruits", "FRT", "Fruit crops"),
    ItemCategory(5, "Livestock Primary", "LVP", "Primary livestock"),
    ItemCategory(6, "Fisheries", "FSH", "Fish and aquatic products"),
    ItemCategory(7, "Nutrition", "NUT", "Nutritional indicators")
  ]

  const MockItems: seq<Item> := [
    Item(1, "Maize (Crop Area)", "MCA", "Maize cultivation area", 1, 1, "Yearly"),
    Item(2, "Maize (Production Quantity)", "MPD", "Maize production quantity", 2, 1, "Yearly"),
    Item(3, "Maize (Yield)", "MYD", "Maize yield per hectare", 3, 1, "Yearly"),
    Item(4, "Wheat (Crop Area)", "WCA", "Wheat cultivation area", 1, 1, "Yearly"),
    Item(5, "Wheat (Production Quantity)", "WPD", "Wheat production quantity", 2, 1, "Yearly"),
    Item(6, "Rice (Crop Area)", "RCA", "Rice cultivation area", 1, 1, "Yearly"),
    Item(7, "Common Beans (Crop Area)", "BCA", "Common beans cultivation area", 1, 2, "Yearly"),
    Item(8, "Common Beans (Production Quantity)", "BPD", "Common beans production", 2, 2, "Yearly"),
    Item(9, "Green Grams (Crop Area)", "GCA", "Green grams cultivation area", 1, 2, "Yearly"),
    Item(10, "Tomato (Crop Area)", "TCA", "Tomato cultivation area", 1, 3, "Yearly"),
    Item(11, "Onion (Production Quantity)", "OPD", "Onion production quantity", 2, 3, "Yearly"),
    Item(12, "Cattle (Dairy)", "CDR", "Dairy cattle", 4, 5, "Yearly"),
    Item(13, "Cattle (Beef)", "CBF", "Beef cattle", 4, 5, "Yearly"),
    Item(14, "Goats (Meat)", "GOAM", "Meat goats", 4, 5, "Yearly"),
    Item(15, "Tilapia", "TIL", "Tilapia fish", 6, 6, "Yearly"),
    Item(16, "Sardines", "SAR", "Sardine fish", 7, 6, "Yearly")
  ]

  const MockUnits: seq<Unit> := [
    Unit(1, "Hectare", "Ha", "Unit of area measurement"),
    Unit(2, "Kilograms", "Kg", "Unit of weight"),
    Unit(3, "Kenya Shillings", "Ksh", "Currency unit"),
    Unit(4, "Litres", "L", "Unit of volume"),
    Unit(5, "Metric Tonnes", "MT", "Unit of weight (1000 kg)"),
    Unit(6, "Head", "Head", "Count of livestock"),
    Unit(7, "Tons per Hectare", "Ton/Ha", "Yield measurement"),
    Unit(8, "Tonnes", "T", "Unit of weight"),
    Unit(9, "Number", "No.", "Count"),
    Unit(10, "Percentage", "%", "Percentage")
  ]

  const Mock := Fixtures(MockCounties, MockSubsectors, MockDomains, MockSubdomains,
                         MockElements, MockItemCategories, MockItems, MockUnits)

  lemma CountiesSingleLine()
    ensures forall k :: 0 <= k < |MockCounties| ==> '\n' !in MockCounties[k].name
  {
    forall k | 0 <= k < |MockCounties|
      ensures '\n' !in MockCounties[k].name
    {
      var t := MockCounties[k].name;
      assert forall j :: 0 <= j < |t| ==> t[j] != '\n';
    }
  }

  lemma ElementsSingleLine0()
    ensures forall k :: 0 <= k < 3 ==> '\n' !in MockElements[k].name
  {
    forall k | 0 <= k < 3
      ensures '\n' !in MockElements[k].name
    {
      var t := MockElements[k].name;
      assert forall j :: 0 <= j < |t| ==> t[j] != '\n';
    }
  }

  lemma ElementsSingleLine1()
    ensures forall k :: 3 <= k < 6 ==> '\n' !in MockElements[k].name
  {
    forall k | 3 <= k < 6
      ensures '\n' !in MockElements[k].name
    {
      var t := MockElements[k].name;
      assert forall j :: 0 <= j < |t| ==> t[j] != '\n';
    }
  }

  lemma ElementsSingleLine2()
    ensures forall k :: 6 <= k < 9 ==> '\n' !in MockElements[k].name
  {
    forall k | 6 <= k < 9
      ensures '\n' !in MockElements[k].name
    {
      var t := MockElements[k].name;
      assert forall j :: 0 <= j < |t| ==> t[j] != '\n';
    }
  }

  lemma ElementsSingleLine3()
    ensures forall k :: 9 <= k < 10 ==> '\n' !in MockElements[k].name
  {
    forall k | 9 <= k < 10
      ensures '\n' !in MockElements[k].name
    {
      var t := MockElements[k].name;
      assert forall j :: 0 <= j < |t| ==> t[j] != '\n';
    }
  }

  lemma ElementsSingleLine()
    ensures forall k :: 0 <= k < |MockElements| ==> '\n' !in MockElements[k].name
  {
    ElementsSingleLine0();
    ElementsSingleLine1();
    ElementsSingleLine2();
    ElementsSingleLine3();
  }

  lemma ItemsSingleLine0()
    ensures forall k :: 0 <= k < 3 ==> '\n' !in MockItems[k].name
  {
    forall k | 0 <= k < 3
      ensures '\n' !in MockItems[k].name
    {
      var t := MockItems[k].name;
      assert forall j :: 0 <= j < |t| ==> t[j] != '\n';
    }
  }

  lemma ItemsSingleLine1()
    ensures forall k :: 3 <= k < 6 ==> '\n' !in MockItems[k].name
  {
    forall k | 3 <= k < 6
      ensures '\n' !in MockItems[k].name
    {
      var t := MockItems[k].name;
      assert forall j :: 0 <= j < |t| ==> t[j] != '\n';
    }
  }

  lemma ItemsSingleLine2()
    ensures forall k :: 6 <= k < 9 ==> '\n' !in MockItems[k].name
  {
    forall k | 6 <= k < 9
      ensures '\n' !in MockItems[k].name
    {
      var t := MockItems[k].name;
      assert forall j :: 0 <= j < |t| ==> t[j] != '\n';
    }
  }

  lemma ItemsSingleLine3()
    ensures forall k :: 9 <= k < 12 ==> '\n' !in MockItems[k].name
  {
    forall k | 9 <= k < 12
      ensures '\n' !in MockItems[k].name
    {
      var t := MockItems[k].name;
      assert forall j :: 0 <= j < |t| ==> t[j] != '\n';
    }
  }

  lemma ItemsSingleLine4()
    ensures forall k :: 12 <= k < 15 ==> '\n' !in MockItems[k].name
  {
    forall k | 12 <= k < 15
      ensures '\n' !in MockItems[k].name
    {
      var t := MockItems[k].name;
      assert forall j :: 0 <= j < |t| ==> t[j] != '\n';
    }
  }

  lemma ItemsSingleLine5()
    ensures forall k :: 15 <= k < 16 ==> '\n' !in MockItems[k].name
  {
    forall k | 15 <= k < 16
      ensures '\n' !in MockItems[k].name
    {
      var t := MockItems[k].name;
      assert forall j :: 0 <= j < |t| ==> t[j] != '\n';
    }
  }

  lemma ItemsSingleLine()
    ensures forall k :: 0 <= k < |MockItems| ==> '\n' !in MockItems[k].name
  {
    ItemsSingleLine0();
    ItemsSingleLine1();
    ItemsSingleLine2();
    ItemsSingleLine3();
    ItemsSingleLine4();
    ItemsSingleLine5();
  }

  lemma UnitsSingleLine()
    ensures forall k :: 0 <= k < |MockUnits| ==> '\n' !in MockUnits[k].abbreviation
  {
    forall k | 0 <= k < |MockUnits|
      ensures '\n' !in MockUnits[k].abbreviation
    {
      var t := MockUnits[k].abbreviation;
      assert forall j :: 0 <= j < |t| ==> t[j] != '\n';
    }
  }

  lemma MockSingleLine()
    ensures SingleLine(Mock)
  {
    CountiesSingleLine();
    ElementsSingleLine();
    ItemsSingleLine();
    UnitsSingleLine();
  }
}
