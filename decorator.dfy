/** The Decorator pattern: a beef burger wrapped in layers, each layer
    adding its own words to the description of what it wraps. */
module DecoratorPattern {

  const BaseDescription := "I am a beef burger"

  /** A burger: the plain beef burger, or one of the wrappers around another
      burger. A bare BurgerDecorator forwards the description unchanged. */
  datatype Burger =
    | BeefBurger
    | BurgerDecorator(inner: Burger)
    | Bacon(inner: Burger)
    | Cheese(inner: Burger)

  /** The additions a wrapper can make. */
  datatype Extra = AddedBacon | AddedCheese

  function Suffix(e: Extra): string {
    match e
    case AddedBacon => ", with added bacon"
    case AddedCheese => ", with added cheese"
  }

  /** The suffixes of a list of additions, in list order. */
  function Suffixes(es: seq<Extra>): string {
    if es == [] then "" else Suffix(es[0]) + Suffixes(es[1..])
  }

  /** The additions of a burger, innermost first. */
  function Extras(b: Burger): seq<Extra> {
    match b
    case BeefBurger => []
    case BurgerDecorator(inner) => Extras(inner)
    case Bacon(inner) => Extras(inner) + [AddedBacon]
    case Cheese(inner) => Extras(inner) + [AddedCheese]
  }

  /** `b` wrapped in one layer per addition, the first addition innermost. */
  function Wrap(b: Burger, es: seq<Extra>): Burger
    decreases es
  {
    if es == [] then b
    else Wrap(if es[0] == AddedBacon then Bacon(b) else Cheese(b), es[1..])
  }

  lemma {:induction false} SuffixesAppend(a: seq<Extra>, c: seq<Extra>)
    ensures Suffixes(a + c) == Suffixes(a) + Suffixes(c)
  {
    if a == [] {
      assert a + c == c;
    } else {
      assert (a + c)[1..] == a[1..] + c;
      SuffixesAppend(a[1..], c);
    }
  }

  /** The description: the beef burger's, followed by one suffix per
      addition, from the innermost layer outwards. */
  function Describe(b: Burger): (r: string)
    ensures r == BaseDescription + Suffixes(Extras(b))
  {
    match b
    case BeefBurger => BaseDescription
    case BurgerDecorator(inner) => Describe(inner)
    case Bacon(inner) =>
      SuffixesAppend(Extras(inner), [AddedBacon]);
      Describe(inner) + ", with added bacon"
    case Cheese(inner) =>
      SuffixesAppend(Extras(inner), [AddedCheese]);
      Describe(inner) + ", with added cheese"
  }

  /** Wrapping appends the new layers' additions after the existing ones. */
  lemma {:induction false} ExtrasOfWrap(b: Burger, es: seq<Extra>)
    ensures Extras(Wrap(b, es)) == Extras(b) + es
    decreases es
  {
    if es != [] {
      var b' := if es[0] == AddedBacon then Bacon(b) else Cheese(b);
      ExtrasOfWrap(b', es[1..]);
      assert Extras(b') == Extras(b) + [es[0]];
      assert es == [es[0]] + es[1..];
    }
  }

  /** Each layer put around a burger appends its suffix to what the burger
      already says, in the order the layers are put on. */
  lemma {:induction false} DescribeWrap(b: Burger, es: seq<Extra>)
    ensures Describe(Wrap(b, es)) == Describe(b) + Suffixes(es)
  {
    ExtrasOfWrap(b, es);
    SuffixesAppend(Extras(b), es);
  }

  /** The demonstration burger: cheese around bacon around beef. */
  lemma CheeseBaconBeef()
    ensures Describe(Cheese(Bacon(BeefBurger)))
         == "I am a beef burger, with added bacon, with added cheese"
  {
  }
}
