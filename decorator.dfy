/**
 * The decorator example (the-decorator-pattern.py): a beverage is a base
 * drink wrapped in any number of condiments, and its description is built
 * by each wrapper appending its own suffix to the description of the
 * beverage it wraps.
 */
module DecoratorPattern {

  /**
   * A beverage object. `Espresso` and `Latte` are the concrete base classes;
   * `Undescribed` stands for a concrete beverage class that never sets a
   * description of its own and so keeps the class-level default. `Mocha`
   * and `Whip` are the condiments, each holding the beverage it wraps.
   */
  datatype Beverage =
    | Espresso
    | Latte
    | Undescribed
    | Mocha(beverage: Beverage)
    | Whip(beverage: Beverage)

  /** The class-level default description of every beverage. */
  const DefaultDescription: string := "Unknown"
  const MochaSuffix: string := ", Mocha"
  const WhipSuffix: string := ", Whip"

  predicate IsCondiment(b: Beverage) {
    b.Mocha? || b.Whip?
  }

  /** The undecorated beverage at the bottom of the wrapping chain. */
  function Root(b: Beverage): (r: Beverage)
    ensures !IsCondiment(r)
  {
    match b
    case Mocha(inner) => Root(inner)
    case Whip(inner) => Root(inner)
    case _ => b
  }

  /** Number of `Mocha` layers, and of `Whip` layers, in the chain. */
  function Mochas(b: Beverage): nat {
    match b
    case Mocha(inner) => 1 + Mochas(inner)
    case Whip(inner) => Mochas(inner)
    case _ => 0
  }

  function Whips(b: Beverage): nat {
    match b
    case Mocha(inner) => Whips(inner)
    case Whip(inner) => 1 + Whips(inner)
    case _ => 0
  }

  /** `getDescription`: the base's own description, or the wrapped one plus a suffix. */
  function Description(b: Beverage): (r: string)
    ensures |r| > 0
  {
    match b
    case Espresso => "Espresso"
    case Latte => "Latte"
    case Undescribed => DefaultDescription
    case Mocha(inner) => Description(inner) + MochaSuffix
    case Whip(inner) => Description(inner) + WhipSuffix
  }

  /** `outer` is `inner` wrapped in zero or more condiments. */
  predicate Wraps(outer: Beverage, inner: Beverage) {
    outer == inner || (IsCondiment(outer) && Wraps(outer.beverage, inner))
  }

  /** The descriptions the base classes set in their constructors, and the default. */
  lemma BaseDescriptions()
    ensures Description(Espresso) == "Espresso"
    ensures Description(Latte) == "Latte"
    ensures Description(Undescribed) == "Unknown"
  {
  }

  /** Each condiment keeps the wrapped description as a prefix and adds its suffix. */
  lemma CondimentAppends(b: Beverage)
    ensures Description(Mocha(b)) == Description(b) + ", Mocha"
    ensures Description(Whip(b)) == Description(b) + ", Whip"
    ensures |Description(Mocha(b))| == |Description(b)| + 7
    ensures |Description(Whip(b))| == |Description(b)| + 6
  {
  }

  /** Every beverage inside a chain contributes a prefix of the whole description. */
  lemma {:induction false} WrappedIsPrefix(outer: Beverage, inner: Beverage)
    requires Wraps(outer, inner)
    ensures Description(inner) <= Description(outer)
  {
    if outer != inner {
      WrappedIsPrefix(outer.beverage, inner);
    }
  }

  /** The description is the root description plus 7 characters per Mocha and 6 per Whip. */
  lemma {:induction false} DescriptionLength(b: Beverage)
    ensures |Description(b)| == |Description(Root(b))| + 7 * Mochas(b) + 6 * Whips(b)
  {
    match b
    case Mocha(inner) => DescriptionLength(inner);
    case Whip(inner) => DescriptionLength(inner);
    case _ =>
  }

  /** The two decorated beverages the example script builds. */
  lemma ScriptDescriptions()
    ensures Description(Whip(Mocha(Espresso))) == "Espresso, Mocha, Whip"
    ensures Description(Whip(Latte)) == "Latte, Whip"
  {
  }

  /** The last character of a description tells which class built the outermost layer. */
  function LastLetter(b: Beverage): char {
    match b
    case Espresso => 'o'
    case Latte => 'e'
    case Undescribed => 'n'
    case Mocha(_) => 'a'
    case Whip(_) => 'p'
  }

  lemma LastLetterOfDescription(b: Beverage)
    ensures Description(b)[|Description(b)| - 1] == LastLetter(b)
  {
  }

  /** Distinct beverages always have distinct descriptions. */
  lemma {:induction false} DescriptionInjective(b1: Beverage, b2: Beverage)
    requires Description(b1) == Description(b2)
    ensures b1 == b2
  {
    LastLetterOfDescription(b1);
    LastLetterOfDescription(b2);
    assert LastLetter(b1) == LastLetter(b2);
    match b1
    case Mocha(x) =>
      var y := b2.beverage;
      assert Description(x) == Description(b1)[..|Description(b1)| - 7];
      assert Description(y) == Description(b2)[..|Description(b2)| - 7];
      DescriptionInjective(x, y);
    case Whip(x) =>
      var y := b2.beverage;
      assert Description(x) == Description(b1)[..|Description(b1)| - 6];
      assert Description(y) == Description(b2)[..|Description(b2)| - 6];
      DescriptionInjective(x, y);
    case _ =>
  }

  /** Decoration order matters: Mocha-then-Whip and Whip-then-Mocha read differently. */
  lemma OrderMatters(x: Beverage)
    ensures Description(Whip(Mocha(x))) != Description(Mocha(Whip(x)))
  {
    var d := Description(x);
    var n := |d|;
    assert Description(Whip(Mocha(x))) == d + MochaSuffix + WhipSuffix;
    assert Description(Mocha(Whip(x))) == d + WhipSuffix + MochaSuffix;
    assert (d + MochaSuffix + WhipSuffix)[n + 2] == 'M';
    assert (d + WhipSuffix + MochaSuffix)[n + 2] == 'W';
  }
}
