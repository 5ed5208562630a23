# Design-pattern examples in Dafny

This project models three small Python examples of object-oriented design
patterns and proves what each one promises.

- **Observer** (`observer.dfy`, module `ObserverPattern`). A weather `Subject`
  keeps an ordered list of observers with no duplicates. `registerObserver`
  appends an observer only when it is absent. `removeObserver` deletes it
  only when it is present. `setMeasurements` stores the three readings and
  then calls `update` on every registered observer, in list order. Each
  concrete observer (`CurrentObserver`, `AnotherObserver`, modelled as the
  class `Display` with a `kind`) registers itself in its constructor and
  copies the delivered readings into its own fields.
  - In the source the list is a class attribute, so every `Subject` shares
    one list. The model makes that list its own object, `ObserverList`, and
    each `Subject` holds it by reference. Subjects built on the same list
    share it, and nothing here claims that subjects are isolated. The two
    scenarios take that one list as a parameter and require it to be empty,
    which is its state at the script's only call.
  - Each subject records every `update` call it makes in a ghost delivery
    log, `deliveries`. That is how the model states order and exactly-once
    delivery.
  - The three readings are only stored and passed along, never computed on,
    so they are modelled as `real`.
- **Decorator** (`decorator.dfy`, module `DecoratorPattern`). A beverage is
  `Espresso`, `Latte`, or a condiment (`Mocha`, `Whip`) wrapping another
  beverage. `Description` is `getDescription`. `Undescribed` stands for a
  hypothetical concrete beverage class that never sets a description and so
  keeps the class default `"Unknown"`; the source defines no such class. Besides the concrete descriptions, the model
  proves that the description determines the beverage: distinct beverages
  never share a description.
- **Abstract factory** (`abstract_factory.dfy`, module
  `AbstractFactoryPattern`). Two ingredient factories each yield one fixed
  family of ingredients. Two stores map an item string to a named pizza
  built with their own factory, or to an error. The error is a `Result`
  failure carrying the exception's message. `setName` is folded into the
  constructed `Pizza` value. `Join` is Python's `str.join`, which builds
  the vegan topping line.
- `wrappers.dfy` (module `Wrappers`) holds the `Result` type.

The source shares one observer list across subjects, and so does the
model. The readings are never computed on, so `real` loses nothing.

## Model

| member | source | states |
|---|---|---|
| `ObserverPattern.Registered` | the-observer-pattern.py:45-47 | the new list contains `o`, holds only old entries and `o`, keeps the old list as a prefix, grows by at most one entry, and stays duplicate-free |
| `ObserverPattern.RegisterPresent` | the-observer-pattern.py:46 | registering an observer that is already present leaves the list unchanged |
| `ObserverPattern.RegisterAbsent` | the-observer-pattern.py:46-47 | registering a new observer appends it at the end, after all earlier entries |
| `ObserverPattern.RegisterIdempotent` | the-observer-pattern.py:45-47 | registering twice gives the same list as registering once |
| `ObserverPattern.Removed` | the-observer-pattern.py:53-55 | removing a present observer shortens the list by one; as a multiset, the result is the old list minus one copy of `o` |
| `ObserverPattern.RemoveAbsent` | the-observer-pattern.py:54 | removing an absent observer leaves the list unchanged |
| `ObserverPattern.RemoveSplits` | the-observer-pattern.py:55 | removing a present observer deletes exactly its first occurrence; every other entry keeps its order |
| `ObserverPattern.RemoveFromUnique` | the-observer-pattern.py:53-55 | on a duplicate-free list, removal keeps it duplicate-free, `o` is no longer a member, and every other member remains |
| `ObserverPattern.OpsKeepUnique` | the-observer-pattern.py:45-55 | after any sequence of register and remove calls, from any subject sharing the list, the list has no duplicates |
| `ObserverPattern.Fanout` | the-observer-pattern.py:49-51 | one notification makes one `update` call per list entry, the i-th to the i-th observer, each with the subject's three readings |
| `ObserverPattern.NotifiedExactlyOnce` | the-observer-pattern.py:49-51 | on a duplicate-free list, a notification reaches each registered observer exactly once and any unregistered or removed observer not at all |
| `ObserverPattern.DoubleRegistrationSameFanout` | the-observer-pattern.py:45-51 | registering an observer twice produces the same notifications as registering it once |
| `ObserverPattern.ObserverList.constructor` | the-observer-pattern.py:40 | the shared list starts empty |
| `ObserverPattern.Subject.constructor` | the-observer-pattern.py:39-43 | a new subject uses the given shared list, has no readings yet, and has made no deliveries |
| `ObserverPattern.Display.constructor` | the-observer-pattern.py:72-74 | a new observer appends itself to the end of the subject's list, and the list stays duplicate-free |
| `ObserverPattern.Display.Update` | the-observer-pattern.py:76-79 | an observer's stored temperature, humidity and pressure become exactly the delivered values |
| `ObserverPattern.Subject.RegisterObserver` | the-observer-pattern.py:45-47 | the shared list becomes `Registered(old list, o)` and stays duplicate-free |
| `ObserverPattern.Subject.RemoveObserver` | the-observer-pattern.py:53-55 | the shared list becomes `Removed(old list, o)`; it stays duplicate-free and `o` is no longer in it |
| `ObserverPattern.Subject.NotifyObservers` | the-observer-pattern.py:49-51 | the delivery log grows by exactly `Fanout(list, readings)`, and afterwards every registered observer holds the subject's readings; only the log and the registered observers change |
| `ObserverPattern.Subject.MeasurementsChanged` | the-observer-pattern.py:57-58 | the same effect as `NotifyObservers` |
| `ObserverPattern.Subject.SetMeasurements` | the-observer-pattern.py:60-64 | the readings become exactly `t`, `h`, `p`; the log then grows by one delivery of `(t, h, p)` per registered observer, in list order; and every registered observer holds `(t, h, p)` |
| `ObserverPattern.Testit` | the-observer-pattern.py:105-112 | starting from the shared list while it is still empty, A then B self-register; the deliveries are A(3,4,5), B(3,4,5), A(6,7,8), B(6,7,8), in that order, and both observers end with (6,7,8) |
| `ObserverPattern.RemovedObserverScenario` | the-observer-pattern.py:45-64 | starting from the shared list while it is empty, if A registers and is removed before B registers, then `setMeasurements(1,1,1)` delivers to B only |
| `DecoratorPattern.Description` | the-decorator-pattern.py:11-62 | every beverage's description is non-empty |
| `DecoratorPattern.BaseDescriptions` | the-decorator-pattern.py:8-38 | `Espresso` reads "Espresso", `Latte` reads "Latte", and the class default is "Unknown" |
| `DecoratorPattern.CondimentAppends` | the-decorator-pattern.py:44-62 | `Mocha(b)` reads `desc(b) + ", Mocha"` (7 more characters) and `Whip(b)` reads `desc(b) + ", Whip"` (6 more) |
| `DecoratorPattern.WrappedIsPrefix` | the-decorator-pattern.py:49-62 | the description of any beverage inside a chain of condiments is a prefix of the whole description |
| `DecoratorPattern.DescriptionLength` | the-decorator-pattern.py:49-62 | a description's length is its base's length plus 7 per Mocha and 6 per Whip |
| `DecoratorPattern.ScriptDescriptions` | the-decorator-pattern.py:71-78 | `Whip(Mocha(Espresso()))` reads "Espresso, Mocha, Whip" and `Whip(Latte())` reads "Latte, Whip" |
| `DecoratorPattern.DescriptionInjective` | the-decorator-pattern.py:11-62 | two beverages with the same description are the same beverage |
| `DecoratorPattern.OrderMatters` | the-decorator-pattern.py:49-62 | `Whip(Mocha(x))` and `Mocha(Whip(x))` have different descriptions |
| `AbstractFactoryPattern.FactoryProducts` | the-abstract-factory-pattern.py:46-75 | NY yields Thin crust dough, Reggiano cheese, Marinara sauce, and veggies Garlic, Onion, Mushroom; Chicago yields Thick crust dough, Mozzarella cheese, Plum tomato sauce, and veggies Eggplant, Spinach, both in that order |
| `AbstractFactoryPattern.DoughName` | the-abstract-factory-pattern.py:165-169 | each dough class's name ends in " dough" |
| `AbstractFactoryPattern.CheeseName` | the-abstract-factory-pattern.py:174-178 | each cheese class's name ends in " cheese" |
| `AbstractFactoryPattern.SauceName` | the-abstract-factory-pattern.py:183-187 | each sauce class's name ends in " sauce" |
| `AbstractFactoryPattern.VeggieName` | the-abstract-factory-pattern.py:192-205 | each veggie class's name ends in " toping" |
| `AbstractFactoryPattern.IngredientNamesDistinct` | the-abstract-factory-pattern.py:162-205 | two ingredient classes of one kind never share a name |
| `AbstractFactoryPattern.CreateDough` | the-abstract-factory-pattern.py:48-65 | a factory's dough belongs to that factory's family |
| `AbstractFactoryPattern.CreateCheese` | the-abstract-factory-pattern.py:51-68 | a factory's cheese belongs to that factory's family |
| `AbstractFactoryPattern.CreateSauce` | the-abstract-factory-pattern.py:54-71 | a factory's sauce belongs to that factory's family |
| `AbstractFactoryPattern.CreateVeggies` | the-abstract-factory-pattern.py:57-75 | a factory yields at least one veggie, and every one belongs to that factory's family |
| `AbstractFactoryPattern.NYCreatePizza` | the-abstract-factory-pattern.py:128-142 | success exactly for "cheese" and "veggie", otherwise the "Wrong type of pizza submitted" message; the NY factory; a cheese pizza exactly for "cheese"; named "NY <kind> Pizza" |
| `AbstractFactoryPattern.ChicagoCreatePizza` | the-abstract-factory-pattern.py:145-159 | success exactly for "cheese" and "veggie", otherwise the "Wrong type of pizza submitted" message; the Chicago factory; a cheese pizza exactly for "cheese"; named "Chicago <kind> Pizza" |
| `AbstractFactoryPattern.StoreFactory` | the-abstract-factory-pattern.py:132-149 | the factory each store's `createPizza` instantiates: the NY factory for the NY store, the Chicago factory for the Chicago store |
| `AbstractFactoryPattern.PizzaIngredients` | the-abstract-factory-pattern.py:83-107 | the dough, sauce and topping `prepare` fetches all belong to the pizza's factory's family; the topping is cheese exactly for a cheese pizza |
| `AbstractFactoryPattern.ToppingText` | the-abstract-factory-pattern.py:89-108 | the topping line names exactly the topping `prepare` fetched: the cheese's name, or the veggie names joined by ", " |
| `AbstractFactoryPattern.CheeseToppingLines` | the-abstract-factory-pattern.py:89-90 | the NY cheese pizza's topping line is "Reggiano cheese", the Chicago one's "Mozzarella cheese" |
| `AbstractFactoryPattern.VeganToppingHoldsEachVeggie` | the-abstract-factory-pattern.py:107-108 | each veggie the factory yields is named in the vegan topping line, at its place in the factory's order |
| `AbstractFactoryPattern.CreatePizza` | the-abstract-factory-pattern.py:128-159 | success exactly for "cheese" and "veggie"; any other item fails with the "Wrong type of pizza submitted" message; a made pizza uses the store's own factory, and it is a cheese pizza exactly when the item is "cheese" |
| `AbstractFactoryPattern.StoreMenus` | the-abstract-factory-pattern.py:130-157 | NY makes "NY Cheese Pizza" and "NY Vegan Pizza"; Chicago makes "Chicago Cheese Pizza" and "Chicago Vegan Pizza" |
| `AbstractFactoryPattern.PizzaNameShape` | the-abstract-factory-pattern.py:133-155 | every pizza a store makes is named "<store> <kind> Pizza" |
| `AbstractFactoryPattern.OrderPizza` | the-abstract-factory-pattern.py:116-121 | ordering returns exactly what `createPizza` produced, error included |
| `AbstractFactoryPattern.StorePizzaStaysInFamily` | the-abstract-factory-pattern.py:78-108 | the dough, sauce and topping of any pizza from a store all come from that store's factory family |
| `AbstractFactoryPattern.Join` | the-abstract-factory-pattern.py:108 | joining no parts gives ""; otherwise the length is the parts' total length plus one separator between each pair of neighbours |
| `AbstractFactoryPattern.JoinSnoc` | the-abstract-factory-pattern.py:108 | joining builds left to right: adding a part appends a separator and that part |
| `AbstractFactoryPattern.JoinHoldsEachPart` | the-abstract-factory-pattern.py:108 | each part appears in the joined text, in order, right after every earlier part and its separator |
| `AbstractFactoryPattern.VeggieNames` | the-abstract-factory-pattern.py:108 | the i-th name is the name of the i-th veggie |
| `AbstractFactoryPattern.VeganToppingJoinsNames` | the-abstract-factory-pattern.py:101-108 | a vegan pizza's topping line is its factory's veggie names, in order, joined by ", " |
| `AbstractFactoryPattern.NYVeganToppingLine` | the-abstract-factory-pattern.py:192-199 | the NY vegan topping line is "Garlic toping, Onion toping, Mushroom toping" |
| `AbstractFactoryPattern.ChicagoVeganToppingLine` | the-abstract-factory-pattern.py:201-205 | the Chicago vegan topping line is "Eggplant toping, Spinach toping" |
| `AbstractFactoryPattern.ScriptOrders` | the-abstract-factory-pattern.py:208-212 | the script's orders return a "NY Cheese Pizza" and a "Chicago Vegan Pizza" |

## Left out

- All console output is left out because it is I/O: `display`, the printing in `prepare` and `deliver`, and the module-level print scripts. Only the values they would show are modelled: the topping line (`ToppingText`) and the ingredients (`PizzaIngredients`).
- `cost()` for beverages is left out. It is binary floating-point addition (for example 1.99 + 0.2 + 0.5), and exact decimals would not behave the same.
- The `abc.ABCMeta` abstract classes and Python's dynamic dispatch are replaced by datatypes (`Beverage`, `PizzaFactory`, `PizzaStore`) and by one observer class, `Display`, with a `kind` field. The two concrete observer classes differ only in what `display` prints.
- An observer cannot re-enter the subject while a notification runs. `Display.Update` may change only the observer itself, so it cannot change the observer list. The source does nothing else, and Python's behaviour for a list changed during its own iteration is left unmodelled.
- `ObserverPattern.Subject.NotifyObservers`: reading the readings before the first `setMeasurements` raises an AttributeError in the source as soon as there is an observer to notify. The model states this as a precondition: either the readings are set or the list is empty.
- Nothing here proves that two subjects have separate observer lists. The source shares one list across subjects, and so does the model.
- The exact exception type for an unknown pizza item is left out. Only the failure and its message are modelled.
- `ObserverPattern.RemovedObserverScenario` has no counterpart in the source's own scenario. It exercises register, remove and set in that order.
- `ObserverPattern.Testit`: it requires the shared list to be empty when it starts. That is the class attribute's state only on its first use, as at the script's one call (the-observer-pattern.py:115-116). A second run would also notify the first run's observers, and the model says nothing about that case.
- `DecoratorPattern.DescriptionInjective`: it also covers `Undescribed`, a hypothetical class the source does not define.
- `DecoratorPattern.Description`: its own contract says only that a description is non-empty. The concrete descriptions, prefixes, lengths and injectivity are separate lemmas.
