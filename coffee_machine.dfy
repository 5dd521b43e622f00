/** The coffee machine: it holds the driver it was built with and vends a
    fixed five-step coffee, taking no options. */
module CoffeeMachines {
  import opened Hardware
  import opened Traces

  /** The calls one vend makes, in order. */
  const CoffeeScript: seq<Action> := [DispenseCup, HeatWater, PrepareGrounds, DispenseWater, DisposeOfGrounds]

  class CoffeeMachine {
    const driver: Driver

    constructor (driver: Driver)
      ensures this.driver == driver
    {
      this.driver := driver;
    }

    method Vend()
      modifies driver
      ensures driver.trace == old(driver.trace) + CoffeeScript
    {
      DispenseCup();
      HeatWater();
      PrepareGrounds();
      DispenseWater();
      DisposeOfGrounds();
    }

    method DispenseCup()
      modifies driver
      ensures driver.trace == old(driver.trace) + [Action.DispenseCup]
    {
      driver.DispenseCup();
    }

    method HeatWater()
      modifies driver
      ensures driver.trace == old(driver.trace) + [Action.HeatWater]
    {
      driver.HeatWater();
    }

    method PrepareGrounds()
      modifies driver
      ensures driver.trace == old(driver.trace) + [Action.PrepareGrounds]
    {
      driver.PrepareGrounds();
    }

    method DispenseWater()
      modifies driver
      ensures driver.trace == old(driver.trace) + [Action.DispenseWater]
    {
      driver.DispenseWater();
    }

    method DisposeOfGrounds()
      modifies driver
      ensures driver.trace == old(driver.trace) + [Action.DisposeOfGrounds]
    {
      driver.DisposeOfGrounds();
    }
  }

  /** The machine keeps its driver, so two vends record the script twice. */
  method VendTwice(machine: CoffeeMachine)
    modifies machine.driver
    ensures machine.driver.trace == old(machine.driver.trace) + CoffeeScript + CoffeeScript
  {
    machine.Vend();
    machine.Vend();
  }

  /** Each action of a vend occurs exactly once; nothing for tea, soup or toppings occurs. */
  lemma CoffeeCounts(a: Action)
    ensures Count(CoffeeScript, a)
         == if a in {DispenseCup, HeatWater, PrepareGrounds, DispenseWater, DisposeOfGrounds} then 1 else 0
  {
  }

  /** Grounds are prepared after the water is heated and before it is dispensed,
      and disposing of the grounds is the last step. */
  lemma CoffeeOrder()
    ensures Before(CoffeeScript, HeatWater, PrepareGrounds)
    ensures Before(CoffeeScript, PrepareGrounds, DispenseWater)
    ensures CoffeeScript[|CoffeeScript| - 1] == DisposeOfGrounds
    ensures forall a :: a != DisposeOfGrounds ==> Before(CoffeeScript, a, DisposeOfGrounds)
  {
  }
}
