/** The beverage factory: a constant table from drink name to beverage class,
    with every other name falling back to the null beverage. */
module BeverageFactory {
  import opened Hardware
  import opened Beverages
  import Teas

  /** A drink name, as the caller's symbol. */
  type Symbol = string

  /** The classes the factory can instantiate. Coffee, Cocoa and NullBeverage
      are known here only by name. */
  datatype BeverageClass = Coffee | Tea | Cocoa | NullBeverage

  /** A freshly built beverage: its class and the constructor arguments it keeps. */
  datatype Instance = Instance(cls: BeverageClass, driver: Driver, options: Options)

  const BeverageTable: map<Symbol, BeverageClass> := map["coffee" := Coffee, "tea" := Tea, "cocoa" := Cocoa]

  /** The class to instantiate for `beverage`: the table's entry, or NullBeverage. */
  function Fetch(beverage: Symbol): (c: BeverageClass)
    ensures c == Coffee <==> beverage == "coffee"
    ensures c == Tea <==> beverage == "tea"
    ensures c == Cocoa <==> beverage == "cocoa"
    ensures c == NullBeverage <==> beverage !in {"coffee", "tea", "cocoa"}
  {
    if beverage in BeverageTable then BeverageTable[beverage] else NullBeverage
  }

  /** Instantiates the class for `beverage` with the given driver and options; no name is an error. */
  function Build(beverage: Symbol, driver: Driver, options: Options): (b: Instance)
    ensures b.cls == Fetch(beverage)
    ensures b.driver == driver && b.options == options
  {
    Instance(Fetch(beverage), driver, options)
  }

  /** The table knows exactly three names. */
  lemma TableKeys()
    ensures BeverageTable.Keys == {"coffee", "tea", "cocoa"}
    ensures |BeverageTable| == 3
  {
  }

  /** Builds the beverage for `beverage` and, when the factory picked the Tea
      class, instantiates and prepares a tea on the built driver and options;
      for a name that fetches Tea this records exactly the tea script. */
  method BuildAndPrepareTea(beverage: Symbol, driver: Driver, options: Options)
    requires Fetch(beverage) == Tea
    modifies driver
    ensures driver.trace == old(driver.trace) + Teas.TeaScript(options)
  {
    var built := Build(beverage, driver, options);
    if built.cls == Tea {
      var tea := new Teas.Tea(built.driver, built.options);
      tea.Prepare();
    }
  }
}
