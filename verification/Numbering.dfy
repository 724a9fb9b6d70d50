/** The identity, order and time that a journal gives its facts, and the identifiers it derives from positions. */
module Numbering {
  import opened Evidence

  // ---------------------------------------------------------------- identity and order of facts

  function IDs(facts: seq<Fact>): set<string> {
    if facts == [] then {} else IDs(facts[..|facts| - 1]) + {facts[|facts| - 1].id}
  }

  function LastSequence(facts: seq<Fact>): nat { if facts == [] then 0 else facts[|facts| - 1].sequence }

  /** The journal gave every fact an identity of its own, a later position than the fact before, and a time. */
  predicate Stamped(facts: seq<Fact>) {
    facts == [] ||
    var before, f := facts[..|facts| - 1], facts[|facts| - 1];
    Stamped(before) && f.id != "" && f.id !in IDs(before) && f.sequence > LastSequence(before) && f.timestamp != 0
  }

  // ---------------------------------------------------------------- identifiers

  const DIGITS := "0123456789"

  /** The decimal numeral of `n`, without leading zeros. */
  function Decimal(n: nat): (s: string)
    ensures s != ""
    ensures forall i | 0 <= i < |s| :: s[i] in DIGITS
  {
    if n < 10 then [DIGITS[n]] else Decimal(n / 10) + [DIGITS[n % 10]]
  }

  function FactID(sequence: nat): string { "fact:" + Decimal(sequence) }

  /** Different numbers have different numerals. */
  lemma {:induction false} DecimalInjective(a: nat, b: nat)
    requires Decimal(a) == Decimal(b)
    ensures a == b
    decreases a + b
  {
    var s, t := Decimal(a), Decimal(b);
    assert s[|s| - 1] == DIGITS[a % 10] && t[|t| - 1] == DIGITS[b % 10];
    if a >= 10 && b >= 10 {
      assert s[..|s| - 1] == Decimal(a / 10) && t[..|t| - 1] == Decimal(b / 10);
      DecimalInjective(a / 10, b / 10);
    }
  }

  lemma FactIDInjective(a: nat, b: nat)
    requires FactID(a) == FactID(b)
    ensures a == b
  {
    assert FactID(a)[5..] == Decimal(a) && FactID(b)[5..] == Decimal(b);
    DecimalInjective(a, b);
  }
}
