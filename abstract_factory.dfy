/**
 * The abstract factory example (the-abstract-factory-pattern.py): each pizza
 * store owns one ingredient factory, and every pizza it makes takes its
 * dough, sauce, cheese and veggies from that factory alone.
 */
module AbstractFactoryPattern {
  import opened Wrappers

  // ---- Ingredients and their display names ----

  datatype Dough = ThinCrustDough | ThickCrustDough
  datatype Cheese = ReggianoCheese | Mozzarella
  datatype Sauce = MarinaraSauce | PlumTomatoSauce
  datatype Veggie = Garlic | Onion | Mushroom | Eggplant | Spinach

  /** Every ingredient class's `name` ends with the word for its kind of ingredient. */
  function DoughName(d: Dough): (r: string)
    ensures |r| > 6 && r[|r| - 6..] == " dough"
  {
    match d
    case ThinCrustDough => "Thin crust dough"
    case ThickCrustDough => "Thick crust dough"
  }

  function CheeseName(c: Cheese): (r: string)
    ensures |r| > 7 && r[|r| - 7..] == " cheese"
  {
    match c
    case ReggianoCheese => "Reggiano cheese"
    case Mozzarella => "Mozzarella cheese"
  }

  function SauceName(s: Sauce): (r: string)
    ensures |r| > 6 && r[|r| - 6..] == " sauce"
  {
    match s
    case MarinaraSauce => "Marinara sauce"
    case PlumTomatoSauce => "Plum tomato sauce"
  }

  function VeggieName(v: Veggie): (r: string)
    ensures |r| > 7 && r[|r| - 7..] == " toping"
  {
    match v
    case Garlic => "Garlic toping"
    case Onion => "Onion toping"
    case Mushroom => "Mushroom toping"
    case Eggplant => "Eggplant toping"
    case Spinach => "Spinach toping"
  }

  // ---- Factories ----

  datatype PizzaFactory = NYPizzaFactory | ChicagoPizzaFactory

  /** Each `create*` method yields an ingredient of the factory's own family. */
  function CreateDough(f: PizzaFactory): (d: Dough)
    ensures DoughFamily(d) == f
  {
    match f
    case NYPizzaFactory => ThinCrustDough
    case ChicagoPizzaFactory => ThickCrustDough
  }

  function CreateCheese(f: PizzaFactory): (c: Cheese)
    ensures CheeseFamily(c) == f
  {
    match f
    case NYPizzaFactory => ReggianoCheese
    case ChicagoPizzaFactory => Mozzarella
  }

  function CreateSauce(f: PizzaFactory): (s: Sauce)
    ensures SauceFamily(s) == f
  {
    match f
    case NYPizzaFactory => MarinaraSauce
    case ChicagoPizzaFactory => PlumTomatoSauce
  }

  function CreateVeggies(f: PizzaFactory): (vs: seq<Veggie>)
    ensures |vs| > 0
    ensures forall i :: 0 <= i < |vs| ==> VeggieFamily(vs[i]) == f
  {
    match f
    case NYPizzaFactory => [Garlic, Onion, Mushroom]
    case ChicagoPizzaFactory => [Eggplant, Spinach]
  }

  /** The one factory whose family each ingredient belongs to. */
  function DoughFamily(d: Dough): PizzaFactory {
    match d
    case ThinCrustDough => NYPizzaFactory
    case ThickCrustDough => ChicagoPizzaFactory
  }

  function CheeseFamily(c: Cheese): PizzaFactory {
    match c
    case ReggianoCheese => NYPizzaFactory
    case Mozzarella => ChicagoPizzaFactory
  }

  function SauceFamily(s: Sauce): PizzaFactory {
    match s
    case MarinaraSauce => NYPizzaFactory
    case PlumTomatoSauce => ChicagoPizzaFactory
  }

  function VeggieFamily(v: Veggie): PizzaFactory {
    match v
    case Garlic | Onion | Mushroom => NYPizzaFactory
    case Eggplant | Spinach => ChicagoPizzaFactory
  }

  /** What each factory yields, item by item and in order. */
  lemma FactoryProducts()
    ensures DoughName(CreateDough(NYPizzaFactory)) == "Thin crust dough"
    ensures CheeseName(CreateCheese(NYPizzaFactory)) == "Reggiano cheese"
    ensures SauceName(CreateSauce(NYPizzaFactory)) == "Marinara sauce"
    ensures CreateVeggies(NYPizzaFactory) == [Garlic, Onion, Mushroom]
    ensures DoughName(CreateDough(ChicagoPizzaFactory)) == "Thick crust dough"
    ensures CheeseName(CreateCheese(ChicagoPizzaFactory)) == "Mozzarella cheese"
    ensures SauceName(CreateSauce(ChicagoPizzaFactory)) == "Plum tomato sauce"
    ensures CreateVeggies(ChicagoPizzaFactory) == [Eggplant, Spinach]
  {
  }

  /** Distinct ingredients have distinct names. */
  lemma IngredientNamesDistinct(d1: Dough, d2: Dough, c1: Cheese, c2: Cheese, s1: Sauce, s2: Sauce, v1: Veggie, v2: Veggie)
    ensures DoughName(d1) == DoughName(d2) ==> d1 == d2
    ensures CheeseName(c1) == CheeseName(c2) ==> c1 == c2
    ensures SauceName(s1) == SauceName(s2) ==> s1 == s2
    ensures VeggieName(v1) == VeggieName(v2) ==> v1 == v2
  {
    if DoughName(d1) == DoughName(d2) { assert DoughName(d1)[1] == DoughName(d2)[1]; }
    if CheeseName(c1) == CheeseName(c2) { assert CheeseName(c1)[0] == CheeseName(c2)[0]; }
    if SauceName(s1) == SauceName(s2) { assert SauceName(s1)[0] == SauceName(s2)[0]; }
    if VeggieName(v1) == VeggieName(v2) { assert VeggieName(v1)[0] == VeggieName(v2)[0]; }
  }

  // ---- Pizzas and stores ----

  datatype PizzaKind = CheesePizza | VeganPizza

  /** A pizza object: its class, the factory it was built with, and the name `setName` gave it. */
  datatype Pizza = Pizza(kind: PizzaKind, factory: PizzaFactory, name: string)

  datatype PizzaStore = NYPizzaStore | ChicagoPizzaStore

  /** The message of the exception raised for an unknown item. */
  const WrongPizzaType: string := "Wrong type of pizza submitted"

  /** The factory each store's `createPizza` instantiates. */
  function StoreFactory(store: PizzaStore): PizzaFactory {
    match store
    case NYPizzaStore => NYPizzaFactory
    case ChicagoPizzaStore => ChicagoPizzaFactory
  }

  /** `NYPizzaStore.createPizza`. */
  function NYCreatePizza(item: string): (r: Result<Pizza, string>)
    ensures r.Success? <==> item == "cheese" || item == "veggie"
    ensures r.Failure? ==> r.error == WrongPizzaType
    ensures r.Success? ==> r.value.factory == NYPizzaFactory
    ensures r.Success? ==> (r.value.kind == CheesePizza <==> item == "cheese")
    ensures r.Success? ==> r.value.name == "NY " + KindLabel(r.value.kind) + " Pizza"
  {
    if item == "cheese" then Success(Pizza(CheesePizza, NYPizzaFactory, "NY Cheese Pizza"))
    else if item == "veggie" then Success(Pizza(VeganPizza, NYPizzaFactory, "NY Vegan Pizza"))
    else Failure(WrongPizzaType)
  }

  /** `ChicagoPizzaStore.createPizza`. */
  function ChicagoCreatePizza(item: string): (r: Result<Pizza, string>)
    ensures r.Success? <==> item == "cheese" || item == "veggie"
    ensures r.Failure? ==> r.error == WrongPizzaType
    ensures r.Success? ==> r.value.factory == ChicagoPizzaFactory
    ensures r.Success? ==> (r.value.kind == CheesePizza <==> item == "cheese")
    ensures r.Success? ==> r.value.name == "Chicago " + KindLabel(r.value.kind) + " Pizza"
  {
    if item == "cheese" then Success(Pizza(CheesePizza, ChicagoPizzaFactory, "Chicago Cheese Pizza"))
    else if item == "veggie" then Success(Pizza(VeganPizza, ChicagoPizzaFactory, "Chicago Vegan Pizza"))
    else Failure(WrongPizzaType)
  }

  /** `createPizza` as dispatched on the store's class. */
  function CreatePizza(store: PizzaStore, item: string): (r: Result<Pizza, string>)
    ensures r.Success? <==> item == "cheese" || item == "veggie"
    ensures r.Failure? ==> r.error == WrongPizzaType
    ensures r.Success? ==> r.value.factory == StoreFactory(store)
    ensures r.Success? ==> (r.value.kind == CheesePizza <==> item == "cheese")
  {
    match store
    case NYPizzaStore => NYCreatePizza(item)
    case ChicagoPizzaStore => ChicagoCreatePizza(item)
  }

  /** `orderPizza`'s return value; preparing and delivering only print. */
  function OrderPizza(store: PizzaStore, item: string): (r: Result<Pizza, string>)
    ensures r == CreatePizza(store, item)
  {
    var pizza :- CreatePizza(store, item);
    Success(pizza)
  }

  function StoreLabel(store: PizzaStore): string {
    match store
    case NYPizzaStore => "NY"
    case ChicagoPizzaStore => "Chicago"
  }

  function KindLabel(kind: PizzaKind): string {
    match kind
    case CheesePizza => "Cheese"
    case VeganPizza => "Vegan"
  }

  /** The two menus item by item. */
  lemma StoreMenus()
    ensures CreatePizza(NYPizzaStore, "cheese") == Success(Pizza(CheesePizza, NYPizzaFactory, "NY Cheese Pizza"))
    ensures CreatePizza(NYPizzaStore, "veggie") == Success(Pizza(VeganPizza, NYPizzaFactory, "NY Vegan Pizza"))
    ensures CreatePizza(ChicagoPizzaStore, "cheese") == Success(Pizza(CheesePizza, ChicagoPizzaFactory, "Chicago Cheese Pizza"))
    ensures CreatePizza(ChicagoPizzaStore, "veggie") == Success(Pizza(VeganPizza, ChicagoPizzaFactory, "Chicago Vegan Pizza"))
  {
  }

  /** Every pizza a store makes is named "<store> <kind> Pizza". */
  lemma PizzaNameShape(store: PizzaStore, item: string)
    requires CreatePizza(store, item).Success?
    ensures CreatePizza(store, item).value.name
         == StoreLabel(store) + " " + KindLabel(CreatePizza(store, item).value.kind) + " Pizza"
  {
  }

  // ---- What `prepare` shows ----

  /** Python's `sep.join(parts)`. */
  function Join(sep: string, parts: seq<string>): (r: string)
    ensures |parts| == 0 ==> r == ""
    ensures |parts| > 0 ==> |r| == TotalLength(parts) + |sep| * (|parts| - 1)
  {
    if |parts| == 0 then ""
    else if |parts| == 1 then parts[0]
    else parts[0] + sep + Join(sep, parts[1..])
  }

  function TotalLength(parts: seq<string>): nat {
    if |parts| == 0 then 0 else |parts[0]| + TotalLength(parts[1..])
  }

  /** Joining builds left to right: each further part follows a separator. */
  lemma {:induction false} JoinSnoc(sep: string, parts: seq<string>, last: string)
    requires |parts| > 0
    ensures Join(sep, parts + [last]) == Join(sep, parts) + sep + last
  {
    if |parts| == 1 {
      assert parts + [last] == [parts[0], last];
    } else {
      assert (parts + [last])[1..] == parts[1..] + [last];
      JoinSnoc(sep, parts[1..], last);
    }
  }

  function VeggieNames(vs: seq<Veggie>): (r: seq<string>)
    ensures |r| == |vs|
    ensures forall i :: 0 <= i < |vs| ==> r[i] == VeggieName(vs[i])
  {
    if |vs| == 0 then [] else [VeggieName(vs[0])] + VeggieNames(vs[1..])
  }

  /** The ingredients `prepare` asks the pizza's factory for. */
  datatype Topping = CheeseTopping(cheese: Cheese) | VeggieTopping(veggies: seq<Veggie>)
  datatype Ingredients = Ingredients(dough: Dough, sauce: Sauce, topping: Topping)

  /** What `prepare` fetches: dough, sauce, then the cheese or the veggies, all from one family. */
  function PizzaIngredients(p: Pizza): (ing: Ingredients)
    ensures DoughFamily(ing.dough) == p.factory && SauceFamily(ing.sauce) == p.factory
    ensures ing.topping.CheeseTopping? <==> p.kind == CheesePizza
    ensures ing.topping.CheeseTopping? ==> CheeseFamily(ing.topping.cheese) == p.factory
    ensures ing.topping.VeggieTopping? ==>
      forall i :: 0 <= i < |ing.topping.veggies| ==> VeggieFamily(ing.topping.veggies[i]) == p.factory
  {
    Ingredients(CreateDough(p.factory), CreateSauce(p.factory),
      match p.kind
      case CheesePizza => CheeseTopping(CreateCheese(p.factory))
      case VeganPizza => VeggieTopping(CreateVeggies(p.factory)))
  }

  /** The topping line `prepare` shows: the name of the topping it fetched, or the veggie names joined. */
  function ToppingText(p: Pizza): (r: string)
    ensures PizzaIngredients(p).topping.CheeseTopping? ==> r == CheeseName(PizzaIngredients(p).topping.cheese)
    ensures PizzaIngredients(p).topping.VeggieTopping? ==>
      r == Join(", ", VeggieNames(PizzaIngredients(p).topping.veggies))
  {
    match p.kind
    case CheesePizza => CheeseName(CreateCheese(p.factory))
    case VeganPizza => Join(", ", VeggieNames(CreateVeggies(p.factory)))
  }

  /** A cheese pizza's topping line is its factory's cheese name. */
  lemma CheeseToppingLines()
    ensures ToppingText(Pizza(CheesePizza, NYPizzaFactory, "NY Cheese Pizza")) == "Reggiano cheese"
    ensures ToppingText(Pizza(CheesePizza, ChicagoPizzaFactory, "Chicago Cheese Pizza")) == "Mozzarella cheese"
  {
  }

  /** A pizza from a store never mixes ingredient families: all come from the store's factory. */
  lemma StorePizzaStaysInFamily(store: PizzaStore, item: string)
    requires CreatePizza(store, item).Success?
    ensures var ing := PizzaIngredients(CreatePizza(store, item).value);
      && DoughFamily(ing.dough) == StoreFactory(store)
      && SauceFamily(ing.sauce) == StoreFactory(store)
      && (ing.topping.CheeseTopping? ==> CheeseFamily(ing.topping.cheese) == StoreFactory(store))
      && (ing.topping.VeggieTopping? ==>
            forall v :: v in ing.topping.veggies ==> VeggieFamily(v) == StoreFactory(store))
  {
  }

  /** Every veggie the factory yields is named in the vegan topping line, in the factory's order. */
  lemma {:induction false} VeganToppingHoldsEachVeggie(p: Pizza, i: nat)
    requires p.kind == VeganPizza && i < |CreateVeggies(p.factory)|
    ensures var names := VeggieNames(CreateVeggies(p.factory));
      var start := PartStart(", ", names, i);
      && start + |VeggieName(CreateVeggies(p.factory)[i])| <= |ToppingText(p)|
      && ToppingText(p)[start..start + |VeggieName(CreateVeggies(p.factory)[i])|]
         == VeggieName(CreateVeggies(p.factory)[i])
  {
    JoinHoldsEachPart(", ", VeggieNames(CreateVeggies(p.factory)), i);
  }

  lemma JoinTwo(sep: string, a: string, b: string)
    ensures Join(sep, [a, b]) == a + sep + b
  {
    assert [a, b][1..] == [b];
  }

  lemma JoinThree(sep: string, a: string, b: string, c: string)
    ensures Join(sep, [a, b, c]) == a + sep + (b + sep + c)
  {
    assert [a, b, c][1..] == [b, c];
    JoinTwo(sep, b, c);
  }

  /** The vegan topping line is the factory's veggie names, in order, separated by ", ". */
  lemma VeganToppingJoinsNames()
    ensures ToppingText(Pizza(VeganPizza, NYPizzaFactory, "NY Vegan Pizza"))
         == VeggieName(Garlic) + ", " + (VeggieName(Onion) + ", " + VeggieName(Mushroom))
    ensures ToppingText(Pizza(VeganPizza, ChicagoPizzaFactory, "Chicago Vegan Pizza"))
         == VeggieName(Eggplant) + ", " + VeggieName(Spinach)
  {
    assert VeggieNames([Garlic, Onion, Mushroom]) == [VeggieName(Garlic), VeggieName(Onion), VeggieName(Mushroom)];
    assert VeggieNames([Eggplant, Spinach]) == [VeggieName(Eggplant), VeggieName(Spinach)];
    JoinThree(", ", VeggieName(Garlic), VeggieName(Onion), VeggieName(Mushroom));
    JoinTwo(", ", VeggieName(Eggplant), VeggieName(Spinach));
  }

  lemma NYVeganNames()
    ensures VeggieName(Garlic) + ", " + (VeggieName(Onion) + ", " + VeggieName(Mushroom))
         == "Garlic toping, Onion toping, Mushroom toping"
  {
    var g, o, m := VeggieName(Garlic), VeggieName(Onion), VeggieName(Mushroom);
    assert g == "Garlic toping" && o == "Onion toping" && m == "Mushroom toping";
  }

  lemma ChicagoVeganNames()
    ensures VeggieName(Eggplant) + ", " + VeggieName(Spinach) == "Eggplant toping, Spinach toping"
  {
    var e, sp := VeggieName(Eggplant), VeggieName(Spinach);
    assert e == "Eggplant toping" && sp == "Spinach toping";
  }

  lemma NYVeganToppingLine()
    ensures ToppingText(Pizza(VeganPizza, NYPizzaFactory, "NY Vegan Pizza"))
         == "Garlic toping, Onion toping, Mushroom toping"
  {
    VeganToppingJoinsNames();
    NYVeganNames();
  }

  lemma ChicagoVeganToppingLine()
    ensures ToppingText(Pizza(VeganPizza, ChicagoPizzaFactory, "Chicago Vegan Pizza"))
         == "Eggplant toping, Spinach toping"
  {
    VeganToppingJoinsNames();
    ChicagoVeganNames();
  }

  /** Where part `i` starts in `Join(sep, parts)`: after every earlier part and its separator. */
  function PartStart(sep: string, parts: seq<string>, i: nat): nat
    requires i <= |parts|
  {
    if i == 0 then 0 else |parts[0]| + |sep| + PartStart(sep, parts[1..], i - 1)
  }

  /** The joined text holds each part, in order, at its start position. */
  lemma {:induction false} JoinHoldsEachPart(sep: string, parts: seq<string>, i: nat)
    requires i < |parts|
    ensures PartStart(sep, parts, i) + |parts[i]| <= |Join(sep, parts)|
    ensures Join(sep, parts)[PartStart(sep, parts, i)..PartStart(sep, parts, i) + |parts[i]|] == parts[i]
  {
    var r := Join(sep, parts);
    if i == 0 {
      assert r[0..|parts[0]|] == parts[0];
    } else {
      JoinHoldsEachPart(sep, parts[1..], i - 1);
      var rest := Join(sep, parts[1..]);
      var k := PartStart(sep, parts[1..], i - 1);
      var off := |parts[0]| + |sep|;
      assert r == parts[0] + sep + rest;
      assert r[off + k..off + k + |parts[i]|] == rest[k..k + |parts[i]|];
    }
  }

  /** The orders the example script places. */
  lemma ScriptOrders()
    ensures OrderPizza(NYPizzaStore, "cheese") == Success(Pizza(CheesePizza, NYPizzaFactory, "NY Cheese Pizza"))
    ensures OrderPizza(ChicagoPizzaStore, "veggie") == Success(Pizza(VeganPizza, ChicagoPizzaFactory, "Chicago Vegan Pizza"))
  {
  }
}
