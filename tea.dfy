/** Tea: cup, hot water, tea bag and water, then sweetener when the drink is
    sweet and cream when it is creamy. */
module Teas {
  import opened Hardware
  import opened Traces
  import opened Beverages

  /** The four calls every tea starts with. */
  const TeaBase: seq<Action> := [DispenseCup, HeatWater, DispenseTeaBag, DispenseWater]

  /** The calls one tea preparation makes, in order. */
  function TeaScript(options: Options): (s: seq<Action>)
  {
    TeaBase + Gate(Flag(options, Sweet), DispenseSweetener) + Gate(Flag(options, Creamy), DispenseCream)
  }

  class Tea {
    /** The `Beverage` part of the object: its driver and its options. */
    const base: Beverage

    constructor (driver: Driver, options: Options)
      ensures base.driver == driver && base.options == options
    {
      base := new Beverage(driver, options);
    }

    method Prepare()
      modifies base.driver
      ensures base.driver.trace == old(base.driver.trace) + TeaScript(base.options)
    {
      base.DispenseCup();
      base.HeatWater();
      DispenseTeaBag();
      base.DispenseWater();
      if base.IsSweet() {
        DispenseSweetener();
      }
      if base.IsCreamy() {
        DispenseCream();
      }
    }

    method DispenseTeaBag()
      modifies base.driver
      ensures base.driver.trace == old(base.driver.trace) + [Action.DispenseTeaBag]
    {
      base.driver.DispenseTeaBag();
    }

    method DispenseSweetener()
      modifies base.driver
      ensures base.driver.trace == old(base.driver.trace) + [Action.DispenseSweetener]
    {
      base.driver.DispenseSweetener();
    }

    method DispenseCream()
      modifies base.driver
      ensures base.driver.trace == old(base.driver.trace) + [Action.DispenseCream]
    {
      base.driver.DispenseCream();
    }
  }

  lemma TeaPrefix(options: Options)
    ensures |TeaScript(options)| >= 4 && TeaScript(options)[..4] == TeaBase
  {
  }

  lemma TeaLength(options: Options)
    ensures |TeaScript(options)| == 4 + (if Flag(options, Sweet) then 1 else 0) + (if Flag(options, Creamy) then 1 else 0)
  {
  }

  lemma TeaSweetener(options: Options)
    ensures Count(TeaScript(options), DispenseSweetener) == if Flag(options, Sweet) then 1 else 0
  {
    var sweet := Gate(Flag(options, Sweet), DispenseSweetener);
    var cream := Gate(Flag(options, Creamy), DispenseCream);
    CountAppend(TeaBase, sweet, DispenseSweetener);
    CountAppend(TeaBase + sweet, cream, DispenseSweetener);
  }

  lemma TeaCream(options: Options)
    ensures Count(TeaScript(options), DispenseCream) == if Flag(options, Creamy) then 1 else 0
  {
    var sweet := Gate(Flag(options, Sweet), DispenseSweetener);
    var cream := Gate(Flag(options, Creamy), DispenseCream);
    CountAppend(TeaBase, sweet, DispenseCream);
    CountAppend(TeaBase + sweet, cream, DispenseCream);
  }

  /** Sweetener comes before cream, and both come after the water. */
  lemma TeaOrder(options: Options)
    ensures Before(TeaScript(options), DispenseWater, DispenseSweetener)
    ensures Before(TeaScript(options), DispenseWater, DispenseCream)
    ensures Before(TeaScript(options), DispenseSweetener, DispenseCream)
  {
  }

  /** Tea never touches grounds or whipped cream, whatever the options. */
  lemma TeaNeverEmits(options: Options)
    ensures DispenseWhippedCream !in TeaScript(options)
    ensures PrepareGrounds !in TeaScript(options)
    ensures DisposeOfGrounds !in TeaScript(options)
  {
  }

  /** Only the sweet and creamy flags matter: changing any other (fluffy among them) changes nothing. */
  lemma TeaIgnoresOtherFlags(options: Options, k: OptionKey, v: bool)
    requires k != Sweet && k != Creamy
    ensures TeaScript(options[k := v]) == TeaScript(options)
  {
  }

  /** Two option sets give the same tea exactly when they agree on sweet and creamy. */
  lemma TeaDeterminedBySweetAndCreamy(o1: Options, o2: Options)
    ensures TeaScript(o1) == TeaScript(o2)
        <==> Flag(o1, Sweet) == Flag(o2, Sweet) && Flag(o1, Creamy) == Flag(o2, Creamy)
  {
    if TeaScript(o1) == TeaScript(o2) {
      TeaSweetener(o1);
      TeaSweetener(o2);
      TeaCream(o1);
      TeaCream(o2);
    }
  }

  /** Sweet and creamy tea, in full. */
  lemma TeaSweetAndCreamy(options: Options)
    requires Flag(options, Sweet) && Flag(options, Creamy)
    ensures TeaScript(options)
         == [DispenseCup, HeatWater, DispenseTeaBag, DispenseWater, DispenseSweetener, DispenseCream]
  {
  }
}
