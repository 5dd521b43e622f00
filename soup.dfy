/** Soup: cup, hot water, condensed soup and water, then croutons when the
    crunchy option is set and hot sauce when the spicy option is set. */
module Soups {
  import opened Hardware
  import opened Traces
  import opened Beverages

  /** The four calls every soup starts with. */
  const SoupBase: seq<Action> := [DispenseCup, HeatWater, DispenseCondensedSoup, DispenseWater]

  /** The calls one soup preparation makes, in order. */
  function SoupScript(options: Options): (s: seq<Action>)
  {
    SoupBase + Gate(Flag(options, Crunchy), DispenseCroutons) + Gate(Flag(options, Spicy), DispenseHotSauce)
  }

  class Soup {
    /** The `Beverage` part of the object: its driver and its options. */
    const base: Beverage

    constructor (driver: Driver, options: Options)
      ensures base.driver == driver && base.options == options
    {
      base := new Beverage(driver, options);
    }

    method Prepare()
      modifies base.driver
      ensures base.driver.trace == old(base.driver.trace) + SoupScript(base.options)
    {
      base.DispenseCup();
      base.HeatWater();
      DispenseCondensedSoup();
      base.DispenseWater();
      if Flag(base.options, Crunchy) {
        DispenseCroutons();
      }
      if Flag(base.options, Spicy) {
        DispenseHotSauce();
      }
    }

    method DispenseCondensedSoup()
      modifies base.driver
      ensures base.driver.trace == old(base.driver.trace) + [Action.DispenseCondensedSoup]
    {
      base.driver.DispenseCondensedSoup();
    }

    method DispenseCroutons()
      modifies base.driver
      ensures base.driver.trace == old(base.driver.trace) + [Action.DispenseCroutons]
    {
      base.driver.DispenseCroutons();
    }

    method DispenseHotSauce()
      modifies base.driver
      ensures base.driver.trace == old(base.driver.trace) + [Action.DispenseHotSauce]
    {
      base.driver.DispenseHotSauce();
    }
  }

  lemma SoupPrefix(options: Options)
    ensures |SoupScript(options)| >= 4 && SoupScript(options)[..4] == SoupBase
  {
  }

  lemma SoupLength(options: Options)
    ensures |SoupScript(options)| == 4 + (if Flag(options, Crunchy) then 1 else 0) + (if Flag(options, Spicy) then 1 else 0)
  {
  }

  lemma SoupCroutons(options: Options)
    ensures Count(SoupScript(options), DispenseCroutons) == if Flag(options, Crunchy) then 1 else 0
  {
    var croutons := Gate(Flag(options, Crunchy), DispenseCroutons);
    var sauce := Gate(Flag(options, Spicy), DispenseHotSauce);
    CountAppend(SoupBase, croutons, DispenseCroutons);
    CountAppend(SoupBase + croutons, sauce, DispenseCroutons);
  }

  lemma SoupHotSauce(options: Options)
    ensures Count(SoupScript(options), DispenseHotSauce) == if Flag(options, Spicy) then 1 else 0
  {
    var croutons := Gate(Flag(options, Crunchy), DispenseCroutons);
    var sauce := Gate(Flag(options, Spicy), DispenseHotSauce);
    CountAppend(SoupBase, croutons, DispenseHotSauce);
    CountAppend(SoupBase + croutons, sauce, DispenseHotSauce);
  }

  /** Croutons come before hot sauce, and both come after the water. */
  lemma SoupOrder(options: Options)
    ensures Before(SoupScript(options), DispenseWater, DispenseCroutons)
    ensures Before(SoupScript(options), DispenseWater, DispenseHotSauce)
    ensures Before(SoupScript(options), DispenseCroutons, DispenseHotSauce)
  {
  }

  /** Soup never dispenses sweetener, cream or whipped cream, whatever the options. */
  lemma SoupNeverEmits(options: Options)
    ensures DispenseSweetener !in SoupScript(options)
    ensures DispenseCream !in SoupScript(options)
    ensures DispenseWhippedCream !in SoupScript(options)
  {
  }

  /** Only the crunchy and spicy flags matter: sweet, creamy and fluffy change nothing. */
  lemma SoupIgnoresOtherFlags(options: Options, k: OptionKey, v: bool)
    requires k != Crunchy && k != Spicy
    ensures SoupScript(options[k := v]) == SoupScript(options)
  {
  }

  /** Two option sets give the same soup exactly when they agree on crunchy and spicy. */
  lemma SoupDeterminedByCrunchyAndSpicy(o1: Options, o2: Options)
    ensures SoupScript(o1) == SoupScript(o2)
        <==> Flag(o1, Crunchy) == Flag(o2, Crunchy) && Flag(o1, Spicy) == Flag(o2, Spicy)
  {
    if SoupScript(o1) == SoupScript(o2) {
      SoupCroutons(o1);
      SoupCroutons(o2);
      SoupHotSauce(o1);
      SoupHotSauce(o2);
    }
  }
}
