/** The hardware driver, modelled as a recorder: every driver operation
    appends exactly one action to `trace`, and does nothing else. */
module Hardware {

  /** One constructor per physical operation the driver offers. */
  datatype Action =
    | DispenseCup
    | HeatWater
    | PrepareGrounds
    | DispenseWater
    | DisposeOfGrounds
    | DispenseTeaBag
    | DispenseSweetener
    | DispenseCream
    | DispenseWhippedCream
    | DispenseCondensedSoup
    | DispenseCroutons
    | DispenseHotSauce

  class Driver {
    /** Every operation performed so far, oldest first. */
    var trace: seq<Action>

    constructor ()
      ensures trace == []
    {
      trace := [];
    }

    method DispenseCup()
      modifies this
      ensures trace == old(trace) + [Action.DispenseCup]
    {
      trace := trace + [Action.DispenseCup];
    }

    method HeatWater()
      modifies this
      ensures trace == old(trace) + [Action.HeatWater]
    {
      trace := trace + [Action.HeatWater];
    }

    method PrepareGrounds()
      modifies this
      ensures trace == old(trace) + [Action.PrepareGrounds]
    {
      trace := trace + [Action.PrepareGrounds];
    }

    method DispenseWater()
      modifies this
      ensures trace == old(trace) + [Action.DispenseWater]
    {
      trace := trace + [Action.DispenseWater];
    }

    method DisposeOfGrounds()
      modifies this
      ensures trace == old(trace) + [Action.DisposeOfGrounds]
    {
      trace := trace + [Action.DisposeOfGrounds];
    }

    method DispenseTeaBag()
      modifies this
      ensures trace == old(trace) + [Action.DispenseTeaBag]
    {
      trace := trace + [Action.DispenseTeaBag];
    }

    method DispenseSweetener()
      modifies this
      ensures trace == old(trace) + [Action.DispenseSweetener]
    {
      trace := trace + [Action.DispenseSweetener];
    }

    method DispenseCream()
      modifies this
      ensures trace == old(trace) + [Action.DispenseCream]
    {
      trace := trace + [Action.DispenseCream];
    }

    method DispenseWhippedCream()
      modifies this
      ensures trace == old(trace) + [Action.DispenseWhippedCream]
    {
      trace := trace + [Action.DispenseWhippedCream];
    }

    method DispenseCondensedSoup()
      modifies this
      ensures trace == old(trace) + [Action.DispenseCondensedSoup]
    {
      trace := trace + [Action.DispenseCondensedSoup];
    }

    method DispenseCroutons()
      modifies this
      ensures trace == old(trace) + [Action.DispenseCroutons]
    {
      trace := trace + [Action.DispenseCroutons];
    }

    method DispenseHotSauce()
      modifies this
      ensures trace == old(trace) + [Action.DispenseHotSauce]
    {
      trace := trace + [Action.DispenseHotSauce];
    }
  }
}
