/** The Builder pattern: a pizza assembled step by step by a builder,
    directed by a cook that runs the fixed construction sequence. */
module BuilderPattern {

  /** The two concrete builders; each fixes one value per build step.
      No step writes an empty value, so a built pizza differs in every
      field from a freshly created one (see Cook.ConstructPizza). */
  datatype PizzaStyle = Hawaiian | Spicy {
    function Dough(): (r: string)
      ensures r != ""
    {
      match this
      case Hawaiian => "cross"
      case Spicy => "pan baked"
    }
    function Sauce(): (r: string)
      ensures r != ""
    {
      match this
      case Hawaiian => "mild"
      case Spicy => "hot"
    }
    function Topping(): (r: string)
      ensures r != ""
    {
      match this
      case Hawaiian => "Ham and Pineapple"
      case Spicy => "pepperoni+salami"
    }
  }

  /** The product: a mutable record of three strings. */
  class Pizza {
    var dough: string
    var sauce: string
    var topping: string

    constructor ()
      ensures dough == "" && sauce == "" && topping == ""
    {
      dough, sauce, topping := "", "", "";
    }

    method SetDough(d: string)
      modifies this
      ensures dough == d
      ensures sauce == old(sauce) && topping == old(topping)
    {
      dough := d;
    }

    method SetSauce(s: string)
      modifies this
      ensures sauce == s
      ensures dough == old(dough) && topping == old(topping)
    {
      sauce := s;
    }

    method SetTopping(t: string)
      modifies this
      ensures topping == t
      ensures dough == old(dough) && sauce == old(sauce)
    {
      topping := t;
    }

    /** The description "Pizza with <dough> dough, <sauce> sauce and <topping> topping.",
        returned rather than printed. Each field sits at a fixed offset between
        the fixed phrases, so the three fields can be read back from the text
        given their lengths. */
    function Describe(): (r: string)
      reads this
      ensures |r| == 39 + |dough| + |sauce| + |topping|
      ensures r[..11] == "Pizza with "
      ensures r[11..11 + |dough|] == dough
      ensures r[11 + |dough|..19 + |dough|] == " dough, "
      ensures r[19 + |dough|..19 + |dough| + |sauce|] == sauce
      ensures r[19 + |dough| + |sauce|..30 + |dough| + |sauce|] == " sauce and "
      ensures r[30 + |dough| + |sauce|..30 + |dough| + |sauce| + |topping|] == topping
      ensures r[|r| - 9..] == " topping."
    {
      "Pizza with " + dough + " dough, " + sauce + " sauce and " + topping + " topping."
    }
  }

  /** What a pizza with the Hawaiian values prints. */
  lemma HawaiianDescription(p: Pizza)
    requires p.dough == Hawaiian.Dough() && p.sauce == Hawaiian.Sauce()
    requires p.topping == Hawaiian.Topping()
    ensures p.Describe() == "Pizza with cross dough, mild sauce and Ham and Pineapple topping."
  {
    assert "Pizza with " + "cross" == "Pizza with cross";
    assert "Pizza with cross" + " dough, " == "Pizza with cross dough, ";
    assert "Pizza with cross dough, " + "mild" == "Pizza with cross dough, mild";
    assert "Pizza with cross dough, mild" + " sauce and " == "Pizza with cross dough, mild sauce and ";
    assert "Pizza with cross dough, mild sauce and " + "Ham and Pineapple"
        == "Pizza with cross dough, mild sauce and Ham and Pineapple";
    assert "Pizza with cross dough, mild sauce and Ham and Pineapple" + " topping."
        == "Pizza with cross dough, mild sauce and Ham and Pineapple topping.";
  }

  /** What a pizza with the Spicy values prints. */
  lemma SpicyDescription(p: Pizza)
    requires p.dough == Spicy.Dough() && p.sauce == Spicy.Sauce()
    requires p.topping == Spicy.Topping()
    ensures p.Describe() == "Pizza with pan baked dough, hot sauce and pepperoni+salami topping."
  {
    assert "Pizza with " + "pan baked" == "Pizza with pan baked";
    assert "Pizza with pan baked" + " dough, " == "Pizza with pan baked dough, ";
    assert "Pizza with pan baked dough, " + "hot" == "Pizza with pan baked dough, hot";
    assert "Pizza with pan baked dough, hot" + " sauce and " == "Pizza with pan baked dough, hot sauce and ";
    assert "Pizza with pan baked dough, hot sauce and " + "pepperoni+salami"
        == "Pizza with pan baked dough, hot sauce and pepperoni+salami";
    assert "Pizza with pan baked dough, hot sauce and pepperoni+salami" + " topping."
        == "Pizza with pan baked dough, hot sauce and pepperoni+salami topping.";
  }

  /** A builder with a single slot for the pizza under construction.
      The slot is null until CreateNewPizzaProduct is first called. */
  class PizzaBuilder {
    const style: PizzaStyle
    var pizza: Pizza?

    constructor (style: PizzaStyle)
      ensures this.style == style && pizza == null
    {
      this.style := style;
      pizza := null;
    }

    /** Returns the slot as it is: null if no pizza was ever created. */
    method GetPizza() returns (p: Pizza?)
      ensures p == pizza
    {
      p := pizza;
    }

    /** Binds a freshly allocated, empty pizza; a previously bound one is dropped. */
    method CreateNewPizzaProduct()
      modifies this
      ensures pizza != null && fresh(pizza)
      ensures pizza != old(pizza)
      ensures pizza.dough == "" && pizza.sauce == "" && pizza.topping == ""
    {
      pizza := new Pizza();
    }

    method BuildDough()
      requires pizza != null
      modifies pizza
      ensures pizza.dough == style.Dough()
      ensures pizza.sauce == old(pizza.sauce) && pizza.topping == old(pizza.topping)
    {
      pizza.SetDough(style.Dough());
    }

    method BuildSauce()
      requires pizza != null
      modifies pizza
      ensures pizza.sauce == style.Sauce()
      ensures pizza.dough == old(pizza.dough) && pizza.topping == old(pizza.topping)
    {
      pizza.SetSauce(style.Sauce());
    }

    method BuildTopping()
      requires pizza != null
      modifies pizza
      ensures pizza.topping == style.Topping()
      ensures pizza.dough == old(pizza.dough) && pizza.sauce == old(pizza.sauce)
    {
      pizza.SetTopping(style.Topping());
    }
  }

  /** The director: holds one replaceable builder and runs the fixed sequence
      create, dough, sauce, topping. The builder is null until one is set. */
  class Cook {
    var builder: PizzaBuilder?

    constructor ()
      ensures builder == null
    {
      builder := null;
    }

    method SetPizzaBuilder(pb: PizzaBuilder?)
      modifies this
      ensures builder == pb
    {
      builder := pb;
    }

    method GetPizza() returns (p: Pizza?)
      requires builder != null
      ensures p == builder.pizza
    {
      p := builder.GetPizza();
    }

    /** Only the active builder changes: it ends up bound to a fresh pizza
        carrying its style's three values, and no pizza built earlier is touched. */
    method ConstructPizza()
      requires builder != null
      modifies builder
      ensures builder == old(builder)
      ensures builder.pizza != null && fresh(builder.pizza)
      ensures builder.pizza.dough == builder.style.Dough()
      ensures builder.pizza.sauce == builder.style.Sauce()
      ensures builder.pizza.topping == builder.style.Topping()
      ensures builder.pizza.dough != "" && builder.pizza.sauce != "" && builder.pizza.topping != ""
    {
      builder.CreateNewPizzaProduct();
      builder.BuildDough();
      builder.BuildSauce();
      builder.BuildTopping();
    }
  }

  /** The builder half of the demonstration driver: one cook, a Hawaiian
      and a Spicy builder, a pizza from each, each described right after it
      is built. The Spicy build leaves the Hawaiian pizza as it was. */
  method BuilderDemo() returns (hawaiianPizza: Pizza, hawaiian: string, spicyPizza: Pizza, spicy: string)
    ensures hawaiian == "Pizza with cross dough, mild sauce and Ham and Pineapple topping."
    ensures spicy == "Pizza with pan baked dough, hot sauce and pepperoni+salami topping."
    ensures hawaiianPizza != spicyPizza
    ensures hawaiianPizza.Describe() == hawaiian && spicyPizza.Describe() == spicy
  {
    var cook := new Cook();
    var hawaiianBuilder := new PizzaBuilder(Hawaiian);
    var spicyBuilder := new PizzaBuilder(Spicy);

    cook.SetPizzaBuilder(hawaiianBuilder);
    cook.ConstructPizza();
    hawaiianPizza := cook.GetPizza();
    HawaiianDescription(hawaiianPizza);
    hawaiian := hawaiianPizza.Describe();

    cook.SetPizzaBuilder(spicyBuilder);
    cook.ConstructPizza();
    spicyPizza := cook.GetPizza();
    SpicyDescription(spicyPizza);
    spicy := spicyPizza.Describe();
  }

  /** Asking a new builder for its pizza before any construction gives null. */
  method GetPizzaBeforeCreate(style: PizzaStyle) returns (p: Pizza?)
    ensures p == null
  {
    var pb := new PizzaBuilder(style);
    p := pb.GetPizza();
  }

  /** Two construction runs on the same builder give two distinct pizzas
      with the same three values: successive builds never share a pizza. */
  method ConstructTwice(style: PizzaStyle) returns (first: Pizza, second: Pizza)
    ensures first != second
    ensures first.dough == second.dough == style.Dough()
    ensures first.sauce == second.sauce == style.Sauce()
    ensures first.topping == second.topping == style.Topping()
  {
    var cook := new Cook();
    var pb := new PizzaBuilder(style);
    cook.SetPizzaBuilder(pb);
    cook.ConstructPizza();
    first := cook.GetPizza();
    cook.ConstructPizza();
    second := cook.GetPizza();
  }
}
