/** The `Beverage` base class: it keeps the driver and the option flags it
    was built with, offers the driver calls every drink shares, and reads
    the sweet, creamy and fluffy flags. */
module Beverages {
  import opened Hardware

  /** The option flags a drink can be asked for. */
  datatype OptionKey = Sweet | Creamy | Fluffy | Crunchy | Spicy

  /** Option flags as given by the caller; a key that is absent reads as false. */
  type Options = map<OptionKey, bool>

  /** The value stored under `k`, and false when `k` is absent. */
  function Flag(options: Options, k: OptionKey): (b: bool)
    ensures k !in options ==> !b
    ensures k in options ==> b == options[k]
  {
    if k in options then options[k] else false
  }

  class Beverage {
    const driver: Driver
    const options: Options

    constructor (driver: Driver, options: Options)
      ensures this.driver == driver && this.options == options
    {
      this.driver := driver;
      this.options := options;
    }

    /** The plain beverage prepares nothing. */
    method Prepare()
      ensures driver.trace == old(driver.trace)
    {
    }

    method DispenseCup()
      modifies driver
      ensures driver.trace == old(driver.trace) + [Action.DispenseCup]
    {
      driver.DispenseCup();
    }

    method HeatWater()
      modifies driver
      ensures driver.trace == old(driver.trace) + [Action.HeatWater]
    {
      driver.HeatWater();
    }

    method DispenseWater()
      modifies driver
      ensures driver.trace == old(driver.trace) + [Action.DispenseWater]
    {
      driver.DispenseWater();
    }

    function IsSweet(): (b: bool)
      ensures Sweet !in options ==> !b
      ensures Sweet in options ==> b == options[Sweet]
    {
      Flag(options, Sweet)
    }

    function IsCreamy(): (b: bool)
      ensures Creamy !in options ==> !b
      ensures Creamy in options ==> b == options[Creamy]
    {
      Flag(options, Creamy)
    }

    function IsFluffy(): (b: bool)
      ensures Fluffy !in options ==> !b
      ensures Fluffy in options ==> b == options[Fluffy]
    {
      Flag(options, Fluffy)
    }
  }
}
