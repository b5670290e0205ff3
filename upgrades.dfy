/** Upgrades built from a table of trait modifications: each registered trait
    gets a factory that turns the upgrade's stack into an operator on the
    trait's value, and the upgrade is valid for the tiers of a range. */
module Upgrades {
  import opened Wrappers

  /** Java's `int`. */
  newtype int32 = x: int | -0x8000_0000 <= x < 0x8000_0000

  const TwoTo32: int := 0x1_0000_0000

  /** The `int` that Java's two's-complement arithmetic leaves of the exact
      result `x`: the value congruent to `x` modulo 2^32, which is `x` itself
      whenever `x` fits. */
  function Wrap32(x: int): (r: int32)
    ensures (r as int - x) % TwoTo32 == 0
    ensures -0x8000_0000 <= x < 0x8000_0000 ==> r as int == x
  {
    ((x + 0x8000_0000) % TwoTo32 - 0x8000_0000) as int32
  }

  /** Only one `int` is congruent to a given integer modulo 2^32, so the wrap
      is the one Java computes. */
  lemma Wrap32Unique(x: int, s: int32)
    requires (s as int - x) % TwoTo32 == 0
    ensures s == Wrap32(x)
  {
    var r := Wrap32(x);
    var d := s as int - r as int;
    assert d % TwoTo32 == 0 by {
      assert (s as int - x) - (r as int - x) == d;
    }
    assert -TwoTo32 < d < TwoTo32;
  }

  /** The stack of an upgrade, as handed to the modification factories. */
  datatype UpgradeStack = UpgradeStack(tier: int)

  /** A trait an upgrade can modify, by identity. */
  datatype Trait = Trait(id: nat)

  /** The operator a factory yields for one stack, on an `int` or a
      `boolean` trait value. */
  datatype Operator =
    | IntOperator(onInt: int32 -> int32)
    | BoolOperator(onBool: bool -> bool)

  /** A registered modification: the four shapes the builder offers, or any
      other factory. Only the factory itself must be non-null; what it yields
      for a stack may be null, written `None`. */
  datatype Modifier =
    | Sum(addition: UpgradeStack -> int32)
    | Product(factor: UpgradeStack -> int32)
    | Activation
    | Deactivation
    | Custom(factory: UpgradeStack -> Option<Operator>)

  /** The operator a modification yields for `stack`, or none when a custom
      factory yields null. */
  function Instantiate(m: Modifier, stack: UpgradeStack): (op: Option<Operator>)
    ensures !m.Custom? ==> op.Some?
    ensures m.Custom? ==> op == m.factory(stack)
    ensures m.Sum? || m.Product? ==> op.Some? && op.value.IntOperator?
    ensures m.Activation? || m.Deactivation? ==> op.Some? && op.value.BoolOperator?
    ensures m.Activation? ==> forall b :: op.value.onBool(b)
    ensures m.Deactivation? ==> forall b :: !op.value.onBool(b)
  {
    match m
    case Sum(addition) => Some(IntOperator(i => Wrap32(addition(stack) as int + i as int)))
    case Product(factor) => Some(IntOperator(i => Wrap32(factor(stack) as int * i as int)))
    case Activation => Some(BoolOperator(b => true))
    case Deactivation => Some(BoolOperator(b => false))
    case Custom(factory) => factory(stack)
  }

  /** A sum modification adds the stack's amount to the value, with Java's
      wrap-around when the sum leaves the `int` range. */
  lemma SumModifierAdds(addition: UpgradeStack -> int32, stack: UpgradeStack, i: int32)
    ensures Instantiate(Sum(addition), stack).Some? && Instantiate(Sum(addition), stack).value.IntOperator?
    ensures Instantiate(Sum(addition), stack).value.onInt(i) == Wrap32(addition(stack) as int + i as int)
    ensures -0x8000_0000 <= addition(stack) as int + i as int < 0x8000_0000 ==>
              Instantiate(Sum(addition), stack).value.onInt(i) as int == addition(stack) as int + i as int
  {
  }

  /** A multiplication modification multiplies the value by the stack's
      factor, with Java's wrap-around when the product leaves the `int` range. */
  lemma ProductModifierMultiplies(factor: UpgradeStack -> int32, stack: UpgradeStack, i: int32)
    ensures Instantiate(Product(factor), stack).Some? && Instantiate(Product(factor), stack).value.IntOperator?
    ensures Instantiate(Product(factor), stack).value.onInt(i) == Wrap32(factor(stack) as int * i as int)
    ensures -0x8000_0000 <= factor(stack) as int * i as int < 0x8000_0000 ==>
              Instantiate(Product(factor), stack).value.onInt(i) as int == factor(stack) as int * i as int
  {
  }

  /** One end of a range of tiers. */
  datatype Bound = Unbounded | Closed(endpoint: int) | Open(endpoint: int)

  /** A range of tiers, closed, open or unbounded at either end. */
  datatype TierRange = TierRange(lower: Bound, upper: Bound) {
    predicate Contains(level: int) {
      && (match lower
          case Unbounded => true
          case Closed(e) => e <= level
          case Open(e) => e < level)
      && (match upper
          case Unbounded => true
          case Closed(e) => level <= e
          case Open(e) => level < e)
    }
  }

  /** The upgrade produced by the builder. `traits` is the trait set the
      upgrade reports. */
  datatype BuiltUpgrade = BuiltUpgrade(traits: set<Trait>, modifications: map<Trait, Modifier>,
                                       validTiers: TierRange) {
    /** The reported traits are exactly the registered ones. */
    predicate Valid() {
      traits == modifications.Keys
    }

    /** Whether the upgrade applies at `level`: the range's membership test. */
    predicate IsValidLevel(level: int): (valid: bool)
      ensures validTiers.lower.Unbounded? && validTiers.upper.Unbounded? ==> valid
      ensures validTiers.lower.Closed? && validTiers.upper.Closed? ==>
                (valid <==> validTiers.lower.endpoint <= level <= validTiers.upper.endpoint)
      ensures validTiers.lower.Open? && validTiers.upper.Open? ==>
                (valid <==> validTiers.lower.endpoint < level < validTiers.upper.endpoint)
    {
      validTiers.Contains(level)
    }

    /** The operator for `target` at `tier`: none for a trait the upgrade does
        not modify, otherwise whatever the registered factory yields, which is
        none only when a custom factory yields null. */
    function GetModificatorFor(target: Trait, tier: UpgradeStack): (r: Option<Operator>)
      ensures target !in modifications ==> r.None?
      ensures target in modifications && !modifications[target].Custom? ==> r.Some?
      ensures target in modifications && modifications[target].Custom? ==>
                r == modifications[target].factory(tier)
    {
      if target in modifications then Instantiate(modifications[target], tier) else None
    }
  }

  /** The valid levels of an upgrade have no gaps: a level between two valid
      levels is valid. */
  lemma ValidLevelsHaveNoGaps(u: BuiltUpgrade, low: int, mid: int, high: int)
    requires low <= mid <= high
    requires u.IsValidLevel(low) && u.IsValidLevel(high)
    ensures u.IsValidLevel(mid)
  {
  }

  /** In a built upgrade, a lookup finds an operator only for a reported trait,
      and it finds none for a reported trait exactly when the trait's custom
      factory yields null for the stack. */
  lemma ReportedTraitsHaveOperators(u: BuiltUpgrade, target: Trait, tier: UpgradeStack)
    requires u.Valid()
    ensures u.GetModificatorFor(target, tier).Some? ==> target in u.traits
    ensures target in u.traits ==>
              (u.GetModificatorFor(target, tier).None? <==>
                 u.modifications[target].Custom? && u.modifications[target].factory(tier).None?)
  {
  }

  /** Accumulates the modification table of an upgrade. */
  class UpgradeBuilder {
    var modifications: map<Trait, Modifier>

    constructor ()
      ensures modifications == map[]
    {
      modifications := map[];
    }

    /** Registers `modifier` for `target`; a null trait or modifier is rejected
        before the table is touched. */
    method PutModification(target: Option<Trait>, modifier: Option<Modifier>) returns (r: Outcome)
      requires target.Some? && modifier.Some? ==> target.value !in modifications
      modifies this
      ensures r.Fail? <==> target.None? || modifier.None?
      ensures r.Fail? ==> r.error == NullPointer && modifications == old(modifications)
      ensures r.Pass? ==> modifications == old(modifications)[target.value := modifier.value]
    {
      if target.None? || modifier.None? {
        return Fail(NullPointer);
      }
      modifications := modifications[target.value := modifier.value];
      r := Pass;
    }

    /** Registers an operator adding the stack's amount to an `int` trait. */
    method SumModifier(target: Option<Trait>, addition: UpgradeStack -> int32) returns (r: Outcome)
      requires target.Some? ==> target.value !in modifications
      modifies this
      ensures r.Fail? <==> target.None?
      ensures r.Fail? ==> modifications == old(modifications)
      ensures r.Pass? ==> modifications == old(modifications)[target.value := Sum(addition)]
    {
      r := PutModification(target, Some(Sum(addition)));
    }

    /** Registers an operator multiplying an `int` trait by the stack's factor. */
    method MultiplicationModifier(target: Option<Trait>, factor: UpgradeStack -> int32) returns (r: Outcome)
      requires target.Some? ==> target.value !in modifications
      modifies this
      ensures r.Fail? <==> target.None?
      ensures r.Fail? ==> modifications == old(modifications)
      ensures r.Pass? ==> modifications == old(modifications)[target.value := Product(factor)]
    {
      r := PutModification(target, Some(Product(factor)));
    }

    /** Registers an operator forcing a `boolean` trait to true. */
    method ActivationModifier(target: Option<Trait>) returns (r: Outcome)
      requires target.Some? ==> target.value !in modifications
      modifies this
      ensures r.Fail? <==> target.None?
      ensures r.Fail? ==> modifications == old(modifications)
      ensures r.Pass? ==> modifications == old(modifications)[target.value := Activation]
    {
      r := PutModification(target, Some(Activation));
    }

    /** Registers an operator forcing a `boolean` trait to false. */
    method DeactivationModifier(target: Option<Trait>) returns (r: Outcome)
      requires target.Some? ==> target.value !in modifications
      modifies this
      ensures r.Fail? <==> target.None?
      ensures r.Fail? ==> modifications == old(modifications)
      ensures r.Pass? ==> modifications == old(modifications)[target.value := Deactivation]
    {
      r := PutModification(target, Some(Deactivation));
    }

    /** The upgrade over the table collected so far, valid for the tiers of
        `validTiers`; a null range is rejected. */
    method Build(validTiers: Option<TierRange>) returns (r: Result<BuiltUpgrade>)
      ensures r.Failure? <==> validTiers.None?
      ensures r.Failure? ==> r.error == NullPointer
      ensures r.Success? ==> r.value.Valid() && r.value.traits == modifications.Keys
      ensures r.Success? ==> r.value.modifications == modifications
      ensures r.Success? ==> forall level :: r.value.IsValidLevel(level) <==> validTiers.value.Contains(level)
    {
      if validTiers.None? {
        return Failure(NullPointer);
      }
      r := Success(BuiltUpgrade(modifications.Keys, modifications, validTiers.value));
    }
  }
}
