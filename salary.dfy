/** The pay rules (SalaireAPayer of Agent and Formateur): gross pay net of
    the tax rate that the annualised base salary falls under. */
module Salary {
  import opened TaxTable
  import opened Employees

  /** Formateur._remunerationHSup: pay per overtime hour. */
  const RemunerationHSup: real := 70.0

  /** Overtime hours beyond this many are not paid. */
  const PlafondHSup: real := 30.0

  /** The overtime hours a trainer is paid for: all of them up to 30. */
  function HeuresPayees(heureSup: real): (h: real)
    ensures h <= heureSup && h <= PlafondHSup
    ensures h == heureSup || h == PlafondHSup
  {
    if heureSup >= PlafondHSup then PlafondHSup else heureSup
  }

  /** The amount the rate is deducted from: base plus bonus for an Agent,
      base plus paid overtime for a Formateur. */
  function Brut(e: Employee): real
  {
    match e.role
    case Agent(prime) => e.salaireBase + prime
    case Formateur(heures) => e.salaireBase + HeuresPayees(heures) * RemunerationHSup
  }

  /** SalaireAPayer of either variant: the gross amount net of the rate
      that twelve times the monthly base salary falls under. */
  function SalaireAPayer(e: Employee): real
  {
    Brut(e) * (1.0 - Rate(e.salaireBase * 12.0))
  }

  /** SalaireAPayer as the source computes it: cap the overtime hours,
      then look the rate up with the getIR scan. */
  method ComputeSalaireAPayer(e: Employee) returns (pay: real)
    ensures pay == SalaireAPayer(e)
  {
    var rate := GetIR(e.salaireBase * 12.0);
    var brut: real;
    match e.role {
      case Agent(prime) =>
        brut := e.salaireBase + prime;
      case Formateur(heures) =>
        var heuresSup := heures;
        if heuresSup >= PlafondHSup {
          heuresSup := PlafondHSup;
        }
        assert heuresSup == HeuresPayees(heures);
        brut := e.salaireBase + heuresSup * RemunerationHSup;
    }
    assert brut == Brut(e);
    pay := brut * (1.0 - rate);
  }

  /** Net pay keeps between 60% and 100% of the gross amount, whatever the
      bracket, when that amount is not negative. */
  lemma NetBetweenSixtyAndAllOfGross(e: Employee)
    requires Brut(e) >= 0.0
    ensures 0.60 * Brut(e) <= SalaireAPayer(e) <= Brut(e)
  {
    ScaleBetween(Brut(e), 1.0 - Rate(e.salaireBase * 12.0));
  }

  /** Multiplying a non-negative amount by a factor in [0.60, 1]. */
  lemma ScaleBetween(b: real, k: real)
    requires b >= 0.0 && 0.60 <= k <= 1.0
    ensures 0.60 * b <= b * k <= b
  {
    assert b * k - 0.60 * b == b * (k - 0.60);
    assert b - b * k == b * (1.0 - k);
  }

  lemma NonNegativeProduct(x: real, y: real)
    requires x >= 0.0 && y >= 0.0
    ensures x * y >= 0.0
  {
  }

  /** Distributing a common factor over a difference. */
  lemma FactorDifference(x: real, y: real, k: real, d: real)
    requires x - y == d
    ensures x * k - y * k == d * k
  {
    assert x * k - y * k == (x - y) * k;
  }

  /** An Agent's bracket depends on the base alone: two agents with the
      same base pay differ by exactly their bonus difference net of the
      rate of that base. */
  lemma AgentBonusTaxedAtBaseRate(e1: Employee, e2: Employee)
    requires e1.role.Agent? && e2.role.Agent? && e1.salaireBase == e2.salaireBase
    ensures SalaireAPayer(e1) - SalaireAPayer(e2)
         == (e1.role.primeResponsabilite - e2.role.primeResponsabilite) * (1.0 - Rate(e1.salaireBase * 12.0))
  {
    var k := 1.0 - Rate(e1.salaireBase * 12.0);
    FactorDifference(Brut(e1), Brut(e2), k, e1.role.primeResponsabilite - e2.role.primeResponsabilite);
  }

  /** With the same base, a larger bonus never lowers an Agent's pay. */
  lemma AgentPayMonotoneInBonus(e1: Employee, e2: Employee)
    requires e1.role.Agent? && e2.role.Agent? && e1.salaireBase == e2.salaireBase
    requires e1.role.primeResponsabilite >= e2.role.primeResponsabilite
    ensures SalaireAPayer(e1) >= SalaireAPayer(e2)
  {
    AgentBonusTaxedAtBaseRate(e1, e2);
    NonNegativeProduct(e1.role.primeResponsabilite - e2.role.primeResponsabilite, 1.0 - Rate(e1.salaireBase * 12.0));
  }

  /** Any number of overtime hours from 30 on pays the same as 30. */
  lemma OvertimeCapped(e: Employee)
    requires e.role.Formateur? && e.role.heureSup >= PlafondHSup
    ensures SalaireAPayer(e) == SalaireAPayer(e.(role := Formateur(PlafondHSup)))
  {
  }

  /** More overtime hours never lower a trainer's pay. */
  lemma OvertimeMonotone(e: Employee, heures: real)
    requires e.role.Formateur? && e.role.heureSup <= heures
    ensures SalaireAPayer(e) <= SalaireAPayer(e.(role := Formateur(heures)))
  {
    var k := 1.0 - Rate(e.salaireBase * 12.0);
    assert k >= 0.0;
    var h1, h2 := HeuresPayees(e.role.heureSup), HeuresPayees(heures);
    assert h1 <= h2;
    assert (e.salaireBase + h1 * RemunerationHSup) * k <= (e.salaireBase + h2 * RemunerationHSup) * k;
  }

  /** A trainer with base 1000 and 50 overtime hours is paid for 30 hours
      in the untaxed bracket: 1000 + 30 * 70 = 3100. */
  lemma TrainerExample(e: Employee)
    requires e.salaireBase == 1000.0 && e.role == Formateur(50.0)
    ensures SalaireAPayer(e) == 3100.0
  {
    RateEnds(12000.0);
  }
}
