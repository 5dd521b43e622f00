/** Tomato soup: the soup recipe, reading the crunchy and spicy flags through
    its own `crunchy?` and `spicy?` predicates. */
module TomatoSoups {
  import opened Hardware
  import opened Traces
  import opened Beverages
  import Soups

  /** The calls one tomato soup preparation makes, in order: the soup's four
      base calls, then the extras gated by `crunchy?` and `spicy?`. */
  function TomatoSoupScript(options: Options): (s: seq<Action>)
  {
    Soups.SoupBase + Gate(Flag(options, Crunchy), DispenseCroutons) + Gate(Flag(options, Spicy), DispenseHotSauce)
  }

  class TomatoSoup {
    /** The `Beverage` part of the object: its driver and its options. */
    const base: Beverage

    constructor (driver: Driver, options: Options)
      ensures base.driver == driver && base.options == options
    {
      base := new Beverage(driver, options);
    }

    method Prepare()
      modifies base.driver
      ensures base.driver.trace == old(base.driver.trace) + TomatoSoupScript(base.options)
    {
      base.DispenseCup();
      base.HeatWater();
      DispenseCondensedSoup();
      base.DispenseWater();
      if IsCrunchy() {
        DispenseCroutons();
      }
      if IsSpicy() {
        DispenseHotSauce();
      }
    }

    method DispenseCondensedSoup()
      modifies base.driver
      ensures base.driver.trace == old(base.driver.trace) + [Action.DispenseCondensedSoup]
    {
      base.driver.DispenseCondensedSoup();
    }

    method DispenseCroutons()
      modifies base.driver
      ensures base.driver.trace == old(base.driver.trace) + [Action.DispenseCroutons]
    {
      base.driver.DispenseCroutons();
    }

    method DispenseHotSauce()
      modifies base.driver
      ensures base.driver.trace == old(base.driver.trace) + [Action.DispenseHotSauce]
    {
      base.driver.DispenseHotSauce();
    }

    function IsCrunchy(): (b: bool)
      ensures Crunchy !in base.options ==> !b
      ensures Crunchy in base.options ==> b == base.options[Crunchy]
    {
      Flag(base.options, Crunchy)
    }

    function IsSpicy(): (b: bool)
      ensures Spicy !in base.options ==> !b
      ensures Spicy in base.options ==> b == base.options[Spicy]
    {
      Flag(base.options, Spicy)
    }
  }

  /** For every option set, tomato soup is made exactly as soup is. */
  lemma TomatoSoupIsSoup(options: Options)
    ensures TomatoSoupScript(options) == Soups.SoupScript(options)
  {
  }

  /** The soup properties, carried over to tomato soup. */
  lemma TomatoSoupProperties(options: Options)
    ensures |TomatoSoupScript(options)| >= 4 && TomatoSoupScript(options)[..4] == Soups.SoupBase
    ensures Count(TomatoSoupScript(options), DispenseCroutons) == if Flag(options, Crunchy) then 1 else 0
    ensures Count(TomatoSoupScript(options), DispenseHotSauce) == if Flag(options, Spicy) then 1 else 0
    ensures Before(TomatoSoupScript(options), DispenseCroutons, DispenseHotSauce)
    ensures Before(TomatoSoupScript(options), DispenseWater, DispenseCroutons)
    ensures Before(TomatoSoupScript(options), DispenseWater, DispenseHotSauce)
  {
    TomatoSoupIsSoup(options);
    Soups.SoupPrefix(options);
    Soups.SoupCroutons(options);
    Soups.SoupHotSauce(options);
    Soups.SoupOrder(options);
  }
}
