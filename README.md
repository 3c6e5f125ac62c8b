# Design patterns in C++: Builder, Observer and Decorator, modelled in Dafny

The repository is one C++ file, `patterns.cpp`, that demonstrates six classic
design patterns. Three of them contain logic that can be stated exactly. This
project models those three.

- **Builder** (`builder.dfy`, module `BuilderPattern`). A `Pizza` is a mutable
  record of three strings. A `PizzaBuilder` has a single slot for the pizza it
  is building. `CreateNewPizzaProduct` fills the slot with a fresh, empty pizza.
  Each `Build*` step writes one field with a constant fixed by the variant. The
  director `Cook` holds one replaceable builder. Its `ConstructPizza` runs
  create, dough, sauce, topping in that order. The C++ variants
  `HawaiianPizzaBuilder` and `SpicyPizzaBuilder` are virtual subclasses. Here
  they are one class, `PizzaBuilder`, with a constant `style` tag (`Hawaiian`
  or `Spicy`). The tag's `Dough`, `Sauce` and `Topping` functions give the
  constants each subclass writes.
- **Observer** (`observer.dfy`, module `ObserverPattern`). A `Database` keeps
  its listeners in a sequence field of nullable `Observer?` references, as
  the C++ keeps raw pointers. Registering and unregistering reassign that
  field; `UpdateData` only reads it.
  `RegisterListener` appends. `UnregisterListener` models the erase–remove
  idiom: one left-to-right pass collects the entries that are not the given
  listener, in order, and that list replaces the old one. `UpdateData` visits
  the list in order and returns the entries it notified, in that order.
- **Decorator** (`decorator.dfy`, module `DecoratorPattern`). The wrapper chain
  is a recursive datatype `Burger`. `Describe` builds the description string
  and is proved equal to the base text followed by one suffix per layer.
  The bare `BurgerDecorator` forwards the description. `Bacon` and `Cheese`
  each append their own suffix.

`main` creates its builders with `new HawaiianPizzaBuilder()` and
`new SpicyPizzaBuilder()`, which value-initialises them, so `m_pizza` starts
as a null pointer. `Cook cook;` leaves `m_pizzaBuilder` indeterminate. In the
model both are nullable fields that start as `null`. Each operation that
dereferences one has a `requires` saying it is non-null: in the C++, a
`build*` step before `createNewPizzaProduct` dereferences null, and any cook
operation before `setPizzaBuilder` dereferences an indeterminate pointer.
`getPizza` dereferences nothing of the builder's: on a builder with no pizza
it returns null, and so does the model's `GetPizza`. The code has no error
result for the two dereferencing cases, and neither does the model.

`Pizza::describe` prints its text. `Pizza.Describe` returns it instead.

## Model

| member | source | states |
|---|---|---|
| BuilderPattern.Pizza.constructor | patterns.cpp:258-261 | a new pizza has all three fields empty |
| BuilderPattern.Pizza.SetDough | patterns.cpp:245-247 | sets the dough; sauce and topping are unchanged |
| BuilderPattern.Pizza.SetSauce | patterns.cpp:248-250 | sets the sauce; dough and topping are unchanged |
| BuilderPattern.Pizza.SetTopping | patterns.cpp:251-253 | sets the topping; dough and sauce are unchanged |
| BuilderPattern.PizzaStyle.Dough | patterns.cpp:285-314 | the dough a variant writes ("cross" for Hawaiian at 287, "pan baked" for Spicy at 305) is never empty |
| BuilderPattern.PizzaStyle.Sauce | patterns.cpp:285-314 | the sauce a variant writes ("mild" for Hawaiian at 291, "hot" for Spicy at 309) is never empty |
| BuilderPattern.PizzaStyle.Topping | patterns.cpp:285-314 | the topping a variant writes ("Ham and Pineapple" for Hawaiian at 295, "pepperoni+salami" for Spicy at 313) is never empty |
| BuilderPattern.Pizza.Describe | patterns.cpp:254-256 | the description is "Pizza with ", dough, " dough, ", sauce, " sauce and ", topping, " topping."; each field sits at a fixed offset, and the length is 39 plus the field lengths |
| BuilderPattern.HawaiianDescription | patterns.cpp:285-296 | a pizza with the Hawaiian values describes as "Pizza with cross dough, mild sauce and Ham and Pineapple topping." |
| BuilderPattern.SpicyDescription | patterns.cpp:303-314 | a pizza with the Spicy values describes as "Pizza with pan baked dough, hot sauce and pepperoni+salami topping." |
| BuilderPattern.PizzaBuilder.constructor | patterns.cpp:277-278 | a new builder has its variant and no bound pizza |
| BuilderPattern.PizzaBuilder.GetPizza | patterns.cpp:268-270 | returns exactly the slot, null when no pizza was ever created |
| BuilderPattern.GetPizzaBeforeCreate | patterns.cpp:268-278 | a new builder asked for its pizza before any construction returns null |
| BuilderPattern.PizzaBuilder.CreateNewPizzaProduct | patterns.cpp:271-273 | binds a freshly allocated pizza with all fields empty, distinct from the pizza bound before |
| BuilderPattern.PizzaBuilder.BuildDough | patterns.cpp:285-314 | sets the bound pizza's dough to the variant's dough ("cross" or "pan baked"); the other fields and the slot are unchanged |
| BuilderPattern.PizzaBuilder.BuildSauce | patterns.cpp:285-314 | sets the bound pizza's sauce to the variant's sauce ("mild" or "hot"); the other fields and the slot are unchanged |
| BuilderPattern.PizzaBuilder.BuildTopping | patterns.cpp:285-314 | sets the bound pizza's topping to the variant's topping ("Ham and Pineapple" or "pepperoni+salami"); the other fields and the slot are unchanged |
| BuilderPattern.Cook.constructor | patterns.cpp:334-335 | a new cook has no builder |
| BuilderPattern.Cook.SetPizzaBuilder | patterns.cpp:319-322 | replaces the active builder |
| BuilderPattern.Cook.GetPizza | patterns.cpp:323-326 | returns exactly the active builder's slot, null or not; requires a builder to be set |
| BuilderPattern.Cook.ConstructPizza | patterns.cpp:327-333 | only the active builder changes; it ends bound to a fresh pizza that holds its variant's dough, sauce and topping, none of them empty, so every field differs from a freshly created pizza's |
| BuilderPattern.BuilderDemo | patterns.cpp:343-357 | each pizza, described right after its build as in the C++, gives the expected sentence; the two pizzas are distinct, and after the Spicy build the Hawaiian pizza still describes as before |
| BuilderPattern.ConstructTwice | patterns.cpp:327-333 | two construction runs with the same builder give two distinct pizzas with the same field values |
| ObserverPattern.Database.constructor | patterns.cpp:225 | a new database has no listeners |
| ObserverPattern.Database.RegisterListener | patterns.cpp:211-213 | the listener list becomes the old list followed by the new listener |
| ObserverPattern.Removed | patterns.cpp:215 | the reference definition of erase–remove: the list with every occurrence of o dropped, the rest in order; o is no longer listed |
| ObserverPattern.Database.UnregisterListener | patterns.cpp:214-216 | the listener list becomes `Removed(old list, o)`, built in one left-to-right pass |
| ObserverPattern.Database.UpdateData | patterns.cpp:217-223 | notifies once per entry, in list order, so a listener registered twice is notified twice; requires no null entry |
| ObserverPattern.RemovedAppend | patterns.cpp:215 | removal distributes over concatenation |
| ObserverPattern.RemovedMembership | patterns.cpp:215 | after removal, x is listed if and only if it was listed before and is not o |
| ObserverPattern.RemovedCounts | patterns.cpp:215 | every other listener keeps its number of occurrences; o has none left |
| ObserverPattern.RemovedIsSubsequence | patterns.cpp:215 | the kept listeners keep their relative order |
| ObserverPattern.RemovedAbsent | patterns.cpp:215 | removing a listener that is not listed changes nothing |
| ObserverPattern.RemovedIdempotent | patterns.cpp:214-216 | unregistering twice is the same as unregistering once |
| ObserverPattern.RemovedCommute | patterns.cpp:214-216 | unregistering two listeners gives the same list in either order |
| ObserverPattern.RegisterThenUnregister | patterns.cpp:211-216 | registering o and then unregistering it gives the old list with o removed |
| DecoratorPattern.Describe | patterns.cpp:152-187 | a description is "I am a beef burger" followed by the layers' suffixes, innermost first; a bare BurgerDecorator adds nothing |
| DecoratorPattern.ExtrasOfWrap | patterns.cpp:171-187 | wrapping a burger in layers puts their additions after the burger's existing ones |
| DecoratorPattern.DescribeWrap | patterns.cpp:164-187 | wrapping in Bacon or Cheese layers appends ", with added bacon" or ", with added cheese" per layer, in wrapping order |
| DecoratorPattern.CheeseBaconBeef | patterns.cpp:384 | Cheese(Bacon(BeefBurger)) describes as "I am a beef burger, with added bacon, with added cheese" |

## Left out

- Console output (`std::cout` in `describe`, `draw`, `doQuack`, `update` and the destructors) and `getchar`. `Pizza.Describe` returns its text instead of printing it.
- `main` is demo glue. It returns at patterns.cpp:365, so nothing after that line runs. Its builder part is modelled as `BuilderDemo`, and the burger it builds at patterns.cpp:384 is stated by `CheeseBaconBeef`; the rest of it is not modelled.
- The Singleton (patterns.cpp:14-26). Its only logic is a lazily allocated hidden global.
- The Strategy pattern (`QuackBehaviour`, `Duck`) and the Factory pattern (`ShapeFactory`, `Circle`, `Square`). They only print, apart from an enum switch.
- ObserverPattern.Database.UpdateData: the observers' `update` callbacks are not modelled. The method records the order in which observers are visited.
- `new`/`delete` and destructors. Dafny is garbage-collected, so the model does not show the pizza dropped when `CreateNewPizzaProduct` is called again.
- Virtual dispatch. The two builder subclasses are one class with a variant tag, and the burger hierarchy is one datatype.
- There is no error result for running a `build*` step before a pizza is bound, or a cook operation before a builder is set. The C++ code has no such check: it dereferences a null or indeterminate pointer. The model states the need as a `requires` instead.
- DecoratorPattern.Burger: a decorator around a null `Burger*` is not modelled. `BurgerDecorator(nullptr)` is accepted by the C++ constructor (patterns.cpp:161-163), but describing it dereferences null; the datatype always wraps a real burger.
