/** The income-tax table of the payroll system (class IR): six brackets with
    upper-exclusive bounds, scanned in ascending order, falling back to the
    top rate. Amounts are exact reals; the rates are table constants. */
module TaxTable {

  /** Lower bounds of the six brackets (IR._tranches). */
  const Tranches: seq<real> := [0.0, 28001.0, 40001.0, 50001.0, 60001.0, 150001.0]

  /** Rate applied inside each bracket (IR._tauxIR). */
  const TauxIR: seq<real> := [0.0, 0.12, 0.24, 0.34, 0.38, 0.40]

  /** The bracket k that `salaire` falls in: k is 0 or its lower bound is at
      most `salaire`, and k is the top bracket or `salaire` is below the next
      bound. Scans from bound `i` upwards, as getIR does. */
  function BracketFrom(salaire: real, i: nat): (k: nat)
    requires 1 <= i <= 6
    requires i == 1 || Tranches[i - 1] <= salaire
    ensures i - 1 <= k < 6
    ensures k == 0 || Tranches[k] <= salaire
    ensures k == 5 || salaire < Tranches[k + 1]
    decreases 6 - i
  {
    if i == 6 then 5
    else if salaire < Tranches[i] then i - 1
    else BracketFrom(salaire, i + 1)
  }

  /** The bracket of `salaire`, 0 through 5. */
  function Bracket(salaire: real): (k: nat)
    ensures k < 6
    ensures k == 0 || Tranches[k] <= salaire
    ensures k == 5 || salaire < Tranches[k + 1]
  {
    BracketFrom(salaire, 1)
  }

  /** The tax rate of an annual salary: the rate of its bracket. */
  function Rate(salaire: real): (r: real)
    ensures 0.0 <= r <= 0.40
  {
    TauxIR[Bracket(salaire)]
  }

  /** The rate is always one of the six table rates. */
  lemma RateInTable(salaire: real)
    ensures Rate(salaire) in TauxIR
  {
  }

  /** Only one bracket satisfies the two bounds, so the bracket of a salary
      is determined by where it lies in the table. */
  lemma BracketUnique(salaire: real, k: nat)
    requires k < 6
    requires k == 0 || Tranches[k] <= salaire
    requires k == 5 || salaire < Tranches[k + 1]
    ensures Bracket(salaire) == k
  {
  }

  /** A salary inside bracket k is taxed at that bracket's rate. */
  lemma RateInBracket(salaire: real, k: nat)
    requires k < 6
    requires k == 0 || Tranches[k] <= salaire
    requires k == 5 || salaire < Tranches[k + 1]
    ensures Rate(salaire) == TauxIR[k]
  {
    BracketUnique(salaire, k);
  }

  /** Every salary of at least 150001 is taxed at the top rate 0.40, and
      every salary below 28001 (negative ones included) is not taxed. */
  lemma RateEnds(salaire: real)
    ensures 150001.0 <= salaire ==> Rate(salaire) == 0.40
    ensures salaire < 28001.0 ==> Rate(salaire) == 0.0
  {
    if 150001.0 <= salaire {
      RateInBracket(salaire, 5);
    } else if salaire < 28001.0 {
      RateInBracket(salaire, 0);
    }
  }

  /** The rate never decreases as the salary grows. */
  lemma RateMonotone(s1: real, s2: real)
    requires s1 <= s2
    ensures Rate(s1) <= Rate(s2)
  {
  }

  /** Each bound belongs to the higher bracket. */
  lemma RateAtBounds()
    ensures Rate(28000.0) == 0.0 && Rate(28001.0) == 0.12
    ensures Rate(40000.0) == 0.12 && Rate(40001.0) == 0.24
    ensures Rate(150000.0) == 0.38 && Rate(150001.0) == 0.40
  {
    RateInBracket(28000.0, 0);
    RateInBracket(28001.0, 1);
    RateInBracket(40000.0, 1);
    RateInBracket(40001.0, 2);
    RateInBracket(150000.0, 4);
    RateInBracket(150001.0, 5);
  }

  /** IR.getIR: scan the bounds from the second one upwards and return the
      rate before the first bound above `salaire`, else the top rate. */
  method GetIR(salaire: real) returns (rate: real)
    ensures rate == Rate(salaire)
  {
    var i := 1;
    while i < 6
      invariant 1 <= i <= 6
      invariant i == 1 || Tranches[i - 1] <= salaire
    {
      if salaire < Tranches[i] {
        RateInBracket(salaire, i - 1);
        return TauxIR[i - 1];
      }
      i := i + 1;
    }
    RateInBracket(salaire, 5);
    return TauxIR[5];
  }
}
