/**
 * What AndConjunction and OrConjunction compute from the outcomes of their
 * children, taken in insertion order, and the algebra of AND, OR and NOT.
 */
module Combinators {
  import opened PhpValues

  /**
   * A loop over the children that goes on while each child returns `goOn`
   * and otherwise stops with that child's outcome: AND goes on past `true`,
   * OR past `false`. A raising child stops the loop with its exception.
   */
  function ShortCircuit(goOn: bool, outcomes: seq<Outcome>): Outcome
  {
    if outcomes == [] then Returned(goOn)
    else if outcomes[0] != Returned(goOn) then outcomes[0]
    else ShortCircuit(goOn, outcomes[1..])
  }

  /** AndConjunction::isValid() over the children's outcomes. */
  function AndOf(outcomes: seq<Outcome>): Outcome
  {
    ShortCircuit(true, outcomes)
  }

  /** OrConjunction::isValid() over the children's outcomes. */
  function OrOf(outcomes: seq<Outcome>): Outcome
  {
    ShortCircuit(false, outcomes)
  }

  /**
   * The loop returns `goOn` exactly when every child returns it, and
   * otherwise the outcome of one of the children.
   */
  lemma {:induction false} ShortCircuitDecides(goOn: bool, outcomes: seq<Outcome>)
    ensures ShortCircuit(goOn, outcomes) == Returned(goOn)
            <==> forall i | 0 <= i < |outcomes| :: outcomes[i] == Returned(goOn)
    ensures ShortCircuit(goOn, outcomes) != Returned(goOn) ==> ShortCircuit(goOn, outcomes) in outcomes
  {
    if outcomes != [] {
      ShortCircuitDecides(goOn, outcomes[1..]);
      assert forall i | 0 < i < |outcomes| :: outcomes[i] == outcomes[1..][i - 1];
    }
  }

  /** AND of no children is true, and AND is true exactly when every child returns true. */
  lemma AndDecides(outcomes: seq<Outcome>)
    ensures outcomes == [] ==> AndOf(outcomes) == Returned(true)
    ensures AndOf(outcomes) == Returned(true) <==> forall i | 0 <= i < |outcomes| :: outcomes[i] == Returned(true)
  {
    ShortCircuitDecides(true, outcomes);
  }

  /** OR of no children is false, and OR is false exactly when every child returns false. */
  lemma OrDecides(outcomes: seq<Outcome>)
    ensures outcomes == [] ==> OrOf(outcomes) == Returned(false)
    ensures OrOf(outcomes) == Returned(false) <==> forall i | 0 <= i < |outcomes| :: outcomes[i] == Returned(false)
  {
    ShortCircuitDecides(false, outcomes);
  }

  /**
   * The loop stops at the first child that does not return `goOn`: the
   * result is that child's outcome, and the children after it play no part.
   */
  lemma {:induction false} ShortCircuitStopsAt(goOn: bool, outcomes: seq<Outcome>, k: nat)
    requires k < |outcomes| && outcomes[k] != Returned(goOn)
    requires forall j | 0 <= j < k :: outcomes[j] == Returned(goOn)
    ensures ShortCircuit(goOn, outcomes) == outcomes[k]
    ensures ShortCircuit(goOn, outcomes) == ShortCircuit(goOn, outcomes[..k + 1])
  {
    if k > 0 {
      assert outcomes[0] == Returned(goOn);
      ShortCircuitStopsAt(goOn, outcomes[1..], k - 1);
      assert outcomes[..k + 1][1..] == outcomes[1..][..k];
    }
  }

  /**
   * When no child raises, AND is true exactly when every child is valid and
   * OR is true exactly when some child is valid.
   */
  lemma BooleanConjunctions(outcomes: seq<Outcome>)
    requires forall i | 0 <= i < |outcomes| :: outcomes[i].Returned?
    ensures AndOf(outcomes) == Returned(forall i | 0 <= i < |outcomes| :: outcomes[i].valid)
    ensures OrOf(outcomes) == Returned(exists i | 0 <= i < |outcomes| :: outcomes[i].valid)
  {
    ShortCircuitDecides(true, outcomes);
    ShortCircuitDecides(false, outcomes);
    if AndOf(outcomes) != Returned(true) {
      assert AndOf(outcomes) in outcomes;
    }
    if OrOf(outcomes) != Returned(false) {
      assert OrOf(outcomes) in outcomes;
    }
  }

  /** A conjunction with a single child answers what that child answers. */
  lemma SingleChild(o: Outcome)
    ensures AndOf([o]) == o && OrOf([o]) == o
  {
    assert [o][1..] == [];
    assert ShortCircuit(true, [o][1..]) == Returned(true);
    assert ShortCircuit(false, [o][1..]) == Returned(false);
  }

  /** The outcomes of negating each of the given outcomes. */
  function NegateAll(outcomes: seq<Outcome>): (r: seq<Outcome>)
    ensures |r| == |outcomes|
    ensures forall i | 0 <= i < |outcomes| :: r[i] == Negate(outcomes[i])
  {
    if outcomes == [] then [] else [Negate(outcomes[0])] + NegateAll(outcomes[1..])
  }

  /** Negating twice gives back the outcome: NOT(NOT(p)) answers what p answers. */
  lemma DoubleNegation(o: Outcome)
    ensures Negate(Negate(o)) == o
  {
  }

  /**
   * De Morgan, exceptions included: NOT of an AND is the OR of the
   * negated children, and NOT of an OR is the AND of the negated children.
   */
  lemma {:induction false} DeMorgan(outcomes: seq<Outcome>)
    ensures Negate(AndOf(outcomes)) == OrOf(NegateAll(outcomes))
    ensures Negate(OrOf(outcomes)) == AndOf(NegateAll(outcomes))
  {
    if outcomes != [] {
      DeMorgan(outcomes[1..]);
      assert NegateAll(outcomes)[1..] == NegateAll(outcomes[1..]);
    }
  }

  /**
   * The conjunction tests with always-true and always-false children:
   * AND(t, t) and OR(t, f) hold, AND(t, f) and OR(f, f) do not, NOT inverts
   * each of them, and the nested AND(t, OR(f, t)) holds.
   */
  lemma ConjunctionTestTable()
    ensures AndOf([Returned(true), Returned(true)]) == Returned(true)
    ensures AndOf([Returned(true), Returned(false)]) == Returned(false)
    ensures OrOf([Returned(true), Returned(false)]) == Returned(true)
    ensures OrOf([Returned(false), Returned(false)]) == Returned(false)
    ensures Negate(AndOf([Returned(true), Returned(true)])) == Returned(false)
    ensures Negate(OrOf([Returned(false), Returned(false)])) == Returned(true)
    ensures AndOf([Returned(true), OrOf([Returned(false), Returned(true)])]) == Returned(true)
  {
  }
}
