# Beverage dispenser, modelled in Dafny

The system is a toy beverage dispenser. Its only logic decides which
operations to call on a hardware `driver`, and in which order, for a given
drink and a set of option flags. This project models that logic and proves
what each drink's call sequence is.

- The driver (`Hardware.Driver`) is a recorder. Each driver operation
  appends exactly one `Action` to its `trace`, so "which calls, in what
  order" becomes "what the trace is".
- Options are a `map<OptionKey, bool>` over the keys sweet, creamy, fluffy,
  crunchy and spicy. An absent key reads as false (`Beverages.Flag`), as
  Ruby's `options[:key]` returns `nil`.
- Every `prepare` and `vend` is a method that runs the source's driver calls
  one by one. Its postcondition says the trace grew by exactly
  `XScript(options)`, a pure function of the options. Lemmas then state the
  prefix, count, order, exclusion and independence properties of each script.
- Ruby's `Tea < Beverage`, `Soup < Beverage` and `TomatoSoup < Beverage` are
  modelled by composition. Each subclass holds a `base: Beverage` that keeps
  the driver and options and provides the shared helpers and flag readers.
- `Traces` defines the vocabulary for the lemmas: `Count` (occurrences of an
  action), `Before` (every `a` comes before every `b`) and `Gate` (what a
  flag-guarded call contributes).

Modules: `Hardware` (driver), `Traces`, `Beverages` (lib/beverage.rb),
`Teas` (lib/tea.rb), `Soups` (lib/soup.rb), `TomatoSoups`
(lib/tomato_soup.rb), `CoffeeMachines` (lib/coffee_machine.rb),
`BeverageFactory` (lib/beverage_factory.rb).

What the code fixes, and the model keeps:
- The coffee machine (lib/coffee_machine.rb) takes no options and no drink
  argument. Its `vend` always makes the same five calls, with no sweetener,
  cream or whipped-cream step.
- The factory (lib/beverage_factory.rb) maps an unknown drink name to the
  `NullBeverage` class and raises no error.
- The recipes of Cocoa and NullBeverage live in lib/cocoa.rb and
  lib/null_beverage.rb, which are not part of this model.

## Model

| member | source | states |
|---|---|---|
| Beverages.Flag | lib/beverage.rb:25-35 | reading an option gives the stored value; an absent key gives false |
| Beverages.Beverage.constructor | lib/beverage.rb:4-7 | the beverage keeps exactly the driver and options it was given |
| Beverages.Beverage.Prepare | lib/beverage.rb:9 | the base beverage adds nothing to the trace |
| Beverages.Beverage.DispenseCup | lib/beverage.rb:13-15 | appends exactly one `DispenseCup` to the driver trace |
| Beverages.Beverage.HeatWater | lib/beverage.rb:17-19 | appends exactly one `HeatWater` to the driver trace |
| Beverages.Beverage.DispenseWater | lib/beverage.rb:21-23 | appends exactly one `DispenseWater` to the driver trace |
| Beverages.Beverage.IsSweet | lib/beverage.rb:25-27 | `sweet?` is the stored sweet flag, false when absent; it is a function, so it changes neither options nor trace |
| Beverages.Beverage.IsCreamy | lib/beverage.rb:29-31 | `creamy?` is the stored creamy flag, false when absent; it changes nothing |
| Beverages.Beverage.IsFluffy | lib/beverage.rb:33-35 | `fluffy?` is the stored fluffy flag, false when absent; it changes nothing |
| Teas.Tea.constructor | lib/beverage.rb:4-7 | a tea keeps the driver and options it was given |
| Teas.Tea.Prepare | lib/tea.rb:4-11 | the trace grows by exactly `TeaScript(options)` |
| Teas.Tea.DispenseTeaBag | lib/tea.rb:15-17 | appends exactly one `DispenseTeaBag` |
| Teas.Tea.DispenseSweetener | lib/tea.rb:19-21 | appends exactly one `DispenseSweetener` |
| Teas.Tea.DispenseCream | lib/tea.rb:23-25 | appends exactly one `DispenseCream` |
| Teas.TeaPrefix | lib/tea.rb:5-8 | every tea starts with cup, heat water, tea bag, water |
| Teas.TeaLength | lib/tea.rb:4-11 | a tea has 4 + (sweet ? 1 : 0) + (creamy ? 1 : 0) steps |
| Teas.TeaSweetener | lib/tea.rb:9 | sweetener occurs exactly once when sweet, and never otherwise |
| Teas.TeaCream | lib/tea.rb:10 | cream occurs exactly once when creamy, and never otherwise |
| Teas.TeaOrder | lib/tea.rb:8-10 | sweetener and cream come after the water, and sweetener before cream |
| Teas.TeaNeverEmits | lib/tea.rb:4-11 | tea never dispenses whipped cream, prepares grounds or disposes of grounds |
| Teas.TeaIgnoresOtherFlags | lib/tea.rb:4-11 | changing any flag other than sweet and creamy (fluffy included) leaves the tea unchanged |
| Teas.TeaDeterminedBySweetAndCreamy | lib/tea.rb:4-11 | two option sets give the same tea if and only if they agree on sweet and creamy |
| Teas.TeaSweetAndCreamy | lib/tea.rb:5-10 | sweet and creamy tea is exactly cup, heat water, tea bag, water, sweetener, cream |
| Soups.Soup.constructor | lib/beverage.rb:4-7 | a soup keeps the driver and options it was given |
| Soups.Soup.Prepare | lib/soup.rb:4-11 | the trace grows by exactly `SoupScript(options)` |
| Soups.Soup.DispenseCondensedSoup | lib/soup.rb:15-17 | appends exactly one `DispenseCondensedSoup` |
| Soups.Soup.DispenseCroutons | lib/soup.rb:19-21 | appends exactly one `DispenseCroutons` |
| Soups.Soup.DispenseHotSauce | lib/soup.rb:23-25 | appends exactly one `DispenseHotSauce` |
| Soups.SoupPrefix | lib/soup.rb:5-8 | every soup starts with cup, heat water, condensed soup, water |
| Soups.SoupLength | lib/soup.rb:4-11 | a soup has 4 + (crunchy ? 1 : 0) + (spicy ? 1 : 0) steps |
| Soups.SoupCroutons | lib/soup.rb:9 | croutons occur exactly once if and only if the crunchy option is set |
| Soups.SoupHotSauce | lib/soup.rb:10 | hot sauce occurs exactly once if and only if the spicy option is set |
| Soups.SoupOrder | lib/soup.rb:8-10 | croutons and hot sauce come after the water, and croutons before hot sauce |
| Soups.SoupNeverEmits | lib/soup.rb:4-11 | soup never dispenses sweetener, cream or whipped cream |
| Soups.SoupIgnoresOtherFlags | lib/soup.rb:4-11 | sweet, creamy and fluffy flags never change the soup |
| Soups.SoupDeterminedByCrunchyAndSpicy | lib/soup.rb:4-11 | two option sets give the same soup if and only if they agree on crunchy and spicy |
| TomatoSoups.TomatoSoup.constructor | lib/beverage.rb:4-7 | a tomato soup keeps the driver and options it was given |
| TomatoSoups.TomatoSoup.Prepare | lib/tomato_soup.rb:4-11 | the trace grows by exactly `TomatoSoupScript(options)` |
| TomatoSoups.TomatoSoup.DispenseCondensedSoup | lib/tomato_soup.rb:15-17 | appends exactly one `DispenseCondensedSoup` |
| TomatoSoups.TomatoSoup.DispenseCroutons | lib/tomato_soup.rb:19-21 | appends exactly one `DispenseCroutons` |
| TomatoSoups.TomatoSoup.DispenseHotSauce | lib/tomato_soup.rb:23-25 | appends exactly one `DispenseHotSauce` |
| TomatoSoups.TomatoSoup.IsCrunchy | lib/tomato_soup.rb:27-29 | `crunchy?` is the stored crunchy flag, false when absent |
| TomatoSoups.TomatoSoup.IsSpicy | lib/tomato_soup.rb:31-33 | `spicy?` is the stored spicy flag, false when absent |
| TomatoSoups.TomatoSoupIsSoup | lib/tomato_soup.rb:4-11 | for every option set, tomato soup makes exactly the same calls as soup |
| TomatoSoups.TomatoSoupProperties | lib/tomato_soup.rb:5-10 | base prefix; croutons once if and only if `crunchy?`; hot sauce once if and only if `spicy?`; both after the water, croutons first |
| CoffeeMachines.CoffeeMachine.constructor | lib/coffee_machine.rb:6-8 | the machine keeps the driver it was given; the driver is constant, so no vend replaces it |
| CoffeeMachines.CoffeeMachine.Vend | lib/coffee_machine.rb:10-16 | the trace grows by exactly cup, heat water, prepare grounds, water, dispose of grounds |
| CoffeeMachines.CoffeeMachine.DispenseCup | lib/coffee_machine.rb:20-22 | appends exactly one `DispenseCup` |
| CoffeeMachines.CoffeeMachine.HeatWater | lib/coffee_machine.rb:24-26 | appends exactly one `HeatWater` |
| CoffeeMachines.CoffeeMachine.PrepareGrounds | lib/coffee_machine.rb:28-30 | appends exactly one `PrepareGrounds` |
| CoffeeMachines.CoffeeMachine.DispenseWater | lib/coffee_machine.rb:32-34 | appends exactly one `DispenseWater` |
| CoffeeMachines.CoffeeMachine.DisposeOfGrounds | lib/coffee_machine.rb:36-38 | appends exactly one `DisposeOfGrounds` |
| CoffeeMachines.VendTwice | lib/coffee_machine.rb:4-16 | vending twice on the same machine records the five-step script twice |
| CoffeeMachines.CoffeeCounts | lib/coffee_machine.rb:10-16 | each of the five coffee steps occurs exactly once; no other action (tea bag, sweetener, cream, ...) occurs |
| CoffeeMachines.CoffeeOrder | lib/coffee_machine.rb:11-15 | grounds are prepared after heating and before dispensing water; disposing of grounds is the last step |
| BeverageFactory.Fetch | lib/beverage_factory.rb:7-14 | "coffee", "tea" and "cocoa" get Coffee, Tea and Cocoa, and no other name does; every other name gets NullBeverage |
| BeverageFactory.Build | lib/beverage_factory.rb:13-15 | the built beverage has the fetched class and holds exactly the given driver and options; no name is an error |
| BeverageFactory.TableKeys | lib/beverage_factory.rb:7-11 | the table has exactly the three keys coffee, tea and cocoa |
| BeverageFactory.BuildAndPrepareTea | lib/beverage_factory.rb:9-14 | the factory's class tag decides what is prepared: a name whose fetched class is Tea builds a tea on the given driver and options, and preparing it appends exactly `TeaScript(options)` |

## Left out

- The driver's implementation (lib/driver.rb) and the hardware are not part of this model. The driver is only an action recorder.
- Coffee, Cocoa and NullBeverage (lib/coffee.rb, lib/cocoa.rb, lib/null_beverage.rb) are not part of this model. The factory knows them only as class tags, and no `prepare` sequence is given for them.
- BeverageFactory.Build: returns a value holding the class tag, driver and options. It does not allocate an object, since three of its classes have no model.
- The `vend(drink: ...)` calls in spec/coffee_macine_spec.rb are not modelled. lib/coffee_machine.rb:10 takes no argument and has no tea path.
- Option values are booleans only. Ruby truthiness of other values (strings, numbers) is not modelled.
- Ruby inheritance is modelled by composition (`base: Beverage`), since a Dafny class cannot extend another class. Method lookup and overriding are therefore not modelled; each subclass calls its own `Prepare`.
- Beverages.Beverage.constructor: keeps the options as an immutable map value. lib/beverage.rb:6 stores a reference to the caller's Hash, so a caller who changes that Hash between `new` and `prepare` changes what `sweet?`, `creamy?`, `fluffy?`, `crunchy?`, `spicy?` and `options[:crunchy]`/`options[:spicy]` read. The model cannot express that aliasing.
- BeverageFactory.Fetch: drink names are strings standing for Ruby symbols (`"tea"` for `:tea`). The table's keys are Symbols, so in Ruby a String `"tea"` or `nil` passed to `build` gets NullBeverage; such arguments cannot be expressed in the model.
- BeverageFactory.BuildAndPrepareTea: covers only names that fetch the Tea class, since Tea is the only class in the table whose `prepare` is modelled.
- `Fetch` and `Build` are functions, so lookup is deterministic by construction; no lemma states it.
