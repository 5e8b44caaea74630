/**
 * The frozen `Relationship` enumeration shared by the snail tests: twenty
 * kinship names, each mapped to its ordinal (the value the relationship
 * resolver returns), in declaration order.
 */
module SnailRelationship {
  import W = Wrappers

  datatype Relationship =
    | None | ExPartner | Oneself | Mother | Father | Child | FullSibling | HalfSibling
    | GrandmotherOnMumsSide | GrandmotherOnDadsSide | GrandfatherOnMumsSide | GrandfatherOnDadsSide
    | Grandchild | UncleAuntOnMumsSide | UncleAuntOnDadsSide | NephewNeice | GrandNephewNeice
    | FirstCousin | FirstCousinOnceRemoved | FirstCousinTwiceRemoved

  /** Number of names in the enumeration. */
  const Count: nat := 20

  /** The names in declaration order, i.e. the order of `Object.keys(Relationship)`. */
  const Keys: seq<Relationship> := [
    None, ExPartner, Oneself, Mother, Father, Child, FullSibling, HalfSibling,
    GrandmotherOnMumsSide, GrandmotherOnDadsSide, GrandfatherOnMumsSide, GrandfatherOnDadsSide,
    Grandchild, UncleAuntOnMumsSide, UncleAuntOnDadsSide, NephewNeice, GrandNephewNeice,
    FirstCousin, FirstCousinOnceRemoved, FirstCousinTwiceRemoved]

  /** The number a name stands for (`Relationship.Mother` is 3, and so on). */
  function Ordinal(r: Relationship): (n: nat)
    ensures n < Count
  {
    match r
    case None => 0
    case ExPartner => 1
    case Oneself => 2
    case Mother => 3
    case Father => 4
    case Child => 5
    case FullSibling => 6
    case HalfSibling => 7
    case GrandmotherOnMumsSide => 8
    case GrandmotherOnDadsSide => 9
    case GrandfatherOnMumsSide => 10
    case GrandfatherOnDadsSide => 11
    case Grandchild => 12
    case UncleAuntOnMumsSide => 13
    case UncleAuntOnDadsSide => 14
    case NephewNeice => 15
    case GrandNephewNeice => 16
    case FirstCousin => 17
    case FirstCousinOnceRemoved => 18
    case FirstCousinTwiceRemoved => 19
  }

  /** Every name sits at the position of its own ordinal in declaration order. */
  lemma KeysInDeclarationOrder()
    ensures |Keys| == Count
    ensures forall i :: 0 <= i < |Keys| ==> Ordinal(Keys[i]) == i
    ensures forall r :: Keys[Ordinal(r)] == r
  {
  }

  /**
   * Decoding a returned ordinal back to its name, as `Object.keys(Relationship)[value]`
   * does: a name for 0..19, nothing (`undefined`) for any other value.
   */
  function KeyAt(value: nat): (r: W.Option<Relationship>)
    ensures r.Some? <==> value < Count
    ensures r.Some? ==> Ordinal(r.value) == value
  {
    KeysInDeclarationOrder();
    if value < Count then W.Some(Keys[value]) else W.None
  }

  /** Decoding the ordinal of a name gives that name back. */
  lemma KeyAtOrdinal(r: Relationship)
    ensures KeyAt(Ordinal(r)) == W.Some(r)
  {
    KeysInDeclarationOrder();
  }

  /** Distinct names have distinct ordinals. */
  lemma OrdinalsDistinct(r1: Relationship, r2: Relationship)
    ensures Ordinal(r1) == Ordinal(r2) ==> r1 == r2
  {
    KeysInDeclarationOrder();
  }

  /** The ordinals the tests rely on by name. */
  lemma NamedOrdinals()
    ensures Ordinal(None) == 0 && Ordinal(ExPartner) == 1 && Ordinal(Oneself) == 2
    ensures Ordinal(Mother) == 3 && Ordinal(Father) == 4 && Ordinal(Child) == 5
    ensures Ordinal(FullSibling) == 6 && Ordinal(HalfSibling) == 7
    ensures Ordinal(FirstCousinTwiceRemoved) == Count - 1
  {
  }
}
