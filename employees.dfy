/** The employee entity (class Employe and its two subclasses): the stored
    fields, the process-wide id counter, the hire-age check, the derived
    age, seniority and retirement date, and equality by id. */
module Employees {

  /** A calendar date as a day number (a proleptic Gregorian ordinal, as
      Python's date.toordinal counts them); time of day is not kept. */
  type Day = int

  /** datetime(2000, 1, 1), the default birth date of the constructors. */
  const DefaultNaissance: Day := 730120

  /** The age at hire below which construction fails, in years. */
  const AgeMinEmbauche: real := 16.0

  /** Exceptions the core raises. */
  datatype Error =
    | ValueError(reason: string)
    | TypeError(reason: string)
    | AttributeError(name: string)

  datatype Result<T> = Ok(value: T) | Err(error: Error)

  datatype Option<T> = None | Some(value: T)

  /** The variant-specific part: an Agent carries a responsibility bonus, a
      Formateur (trainer) a number of overtime hours. */
  datatype Role =
    | Agent(primeResponsabilite: real)
    | Formateur(heureSup: real)

  /** The stored fields of an employee; `mtle` is its id. */
  datatype Employee = Employee(
    nom: string,
    dateNaissance: Day,
    dateEmbauche: Day,
    salaireBase: real,
    mtle: int,
    role: Role)

  /** A value of a record field, as the file format carries them. */
  datatype Value = Text(s: string) | Number(x: real) | Date(d: Day) | Null

  /** A generic record: field name to value. */
  type Record = map<string, Value>

  /** An object handed around by the codec and compared by equality:
      an employee, or a plain record, which is not one. */
  datatype Object = Emp(emp: Employee) | Dict(record: Record)

  /** verifier_age_embauche: the age at hire, in days divided by 365 as a
      true division, is below 16. */
  predicate TooYoungAtHire(dateNaissance: Day, dateEmbauche: Day)
  {
    (dateEmbauche - dateNaissance) as real / 365.0 < AgeMinEmbauche
  }

  /** The check rejects exactly the hires made fewer than 16 * 365 = 5840
      days after birth. */
  lemma TooYoungAtHireDays(dateNaissance: Day, dateEmbauche: Day)
    ensures TooYoungAtHire(dateNaissance, dateEmbauche) <==> dateEmbauche - dateNaissance < 5840
  {
    var d := (dateEmbauche - dateNaissance) as real;
    assert d / 365.0 < 16.0 <==> d < 5840.0;
  }

  /** Born 2010-01-01 and hired 2020-01-01 (ten years old): rejected. */
  lemma HiredAtTenRejected()
    ensures TooYoungAtHire(733773, 737425)
  {
    TooYoungAtHireDays(733773, 737425);
  }

  /** int(days / 365): whole years in a number of days, truncated toward
      zero as Python's int() does, so a negative count rounds up. */
  function WholeYears(days: int): (y: int)
    ensures 0 <= days ==> 0 <= 365 * y <= days < 365 * (y + 1)
    ensures days < 0 ==> 365 * (y - 1) < days <= 365 * y <= 0
  {
    if days >= 0 then days / 365 else -((-days) / 365)
  }

  /** Employe.Age at the date `now`. */
  function Age(e: Employee, now: Day): int
  {
    WholeYears(now - e.dateNaissance)
  }

  /** Employe.Anciennete (seniority) at the date `now`. */
  function Anciennete(e: Employee, now: Day): int
  {
    WholeYears(now - e.dateEmbauche)
  }

  /** Employe.DateRetraite: the birth date plus ageRetraite * 365 days,
      not calendar years. */
  function DateRetraite(e: Employee, ageRetraite: int): Day
  {
    e.dateNaissance + ageRetraite * 365
  }

  /** On the retirement date for a given age, the employee has exactly that
      age: DateRetraite inverts Age. */
  lemma AgeAtRetirement(e: Employee, ageRetraite: int)
    ensures Age(e, DateRetraite(e, ageRetraite)) == ageRetraite
  {
    var y := WholeYears(ageRetraite * 365);
    if ageRetraite * 365 >= 0 {
      assert 365 * y <= 365 * ageRetraite < 365 * (y + 1);
    } else {
      assert 365 * (y - 1) < 365 * ageRetraite <= 365 * y;
    }
  }

  /** Whole years never decrease as the number of days grows. */
  lemma WholeYearsMonotone(d1: int, d2: int)
    requires d1 <= d2
    ensures WholeYears(d1) <= WholeYears(d2)
  {
  }

  /** An employee who passed the hire-age check is, at any date from the
      hire on, at least 16 years older than their seniority. */
  lemma AgeExceedsAnciennete(e: Employee, now: Day)
    requires !TooYoungAtHire(e.dateNaissance, e.dateEmbauche)
    requires e.dateEmbauche <= now
    ensures Age(e, now) >= Anciennete(e, now) + 16
  {
    TooYoungAtHireDays(e.dateNaissance, e.dateEmbauche);
    var a := WholeYears(now - e.dateEmbauche);
    assert 365 * (a + 16) <= now - e.dateNaissance;
  }

  /** Employe.__eq__: equal to another employee with the same id, never to
      anything that is not an employee. */
  predicate Equals(e: Employee, other: Object)
  {
    other.Emp? && other.emp.mtle == e.mtle
  }

  /** Equality looks at the id alone: name, dates, salary and role do not
      matter, and no record equals an employee. */
  lemma EqualsById(e1: Employee, e2: Employee, r: Record)
    ensures Equals(e1, Emp(e2)) <==> e1.mtle == e2.mtle
    ensures Equals(e1, Emp(e1.(nom := e2.nom, salaireBase := e2.salaireBase, role := e2.role)))
    ensures !Equals(e1, Dict(r))
  {
  }

  /** Equality between employees is an equivalence. */
  lemma EqualsEquivalence(a: Employee, b: Employee, c: Employee)
    ensures Equals(a, Emp(a))
    ensures Equals(a, Emp(b)) ==> Equals(b, Emp(a))
    ensures Equals(a, Emp(b)) && Equals(b, Emp(c)) ==> Equals(a, Emp(c))
  {
  }

  /** The arguments of an Agent or Formateur constructor call;
      `dateEmbauche` None means "hired now". */
  datatype Args = Args(
    nom: string,
    dateNaissance: Day,
    dateEmbauche: Option<Day>,
    salaireBase: real,
    role: Role)

  /** What a constructor call with counter value `cpt` before it produces:
      the employee with id cpt + 1, or the hire-age ValueError. */
  function Construct(args: Args, cpt: int, now: Day): (r: Result<Employee>)
    ensures r.Ok? <==> !TooYoungAtHire(args.dateNaissance, if args.dateEmbauche.Some? then args.dateEmbauche.value else now)
    ensures r.Ok? ==> r.value.mtle == cpt + 1 && r.value.nom == args.nom && r.value.role == args.role
    ensures r.Ok? ==> r.value.dateNaissance == args.dateNaissance && r.value.salaireBase == args.salaireBase
    ensures r.Ok? && args.dateEmbauche.None? ==> r.value.dateEmbauche == now
    ensures r.Ok? && args.dateEmbauche.Some? ==> r.value.dateEmbauche == args.dateEmbauche.value
  {
    var embauche := if args.dateEmbauche.Some? then args.dateEmbauche.value else now;
    if TooYoungAtHire(args.dateNaissance, embauche) then
      Err(ValueError("age at hire must be at least 16"))
    else
      Ok(Employee(args.nom, args.dateNaissance, embauche, args.salaireBase, cpt + 1, args.role))
  }

  /** The process-wide id counter Employe.cpt. */
  class Registry {
    var cpt: int
    /** Every id drawn so far, including those of rejected constructions. */
    ghost var issued: set<int>

    ghost predicate Valid()
      reads this
    {
      cpt >= 0 && forall id :: id in issued ==> 1 <= id <= cpt
    }

    /** The counter starts at 0 with the process. */
    constructor ()
      ensures Valid() && cpt == 0 && issued == {}
    {
      cpt := 0;
      issued := {};
    }

    /** `Employe.cpt += 1; self._mtle = Employe.cpt`: the next id. */
    method Draw() returns (mtle: int)
      requires Valid()
      modifies this
      ensures Valid()
      ensures cpt == old(cpt) + 1 && mtle == cpt
      ensures mtle !in old(issued) && issued == old(issued) + {mtle}
    {
      cpt := cpt + 1;
      issued := issued + {cpt};
      mtle := cpt;
    }

    /** Employe.__init__ followed by the subclass's own field: the counter
        is raised and the new value taken as id BEFORE the hire-age check,
        so a rejected construction still uses up an id. */
    method New(args: Args, now: Day) returns (r: Result<Employee>)
      requires Valid()
      modifies this
      ensures Valid()
      ensures cpt == old(cpt) + 1 && cpt !in old(issued) && issued == old(issued) + {cpt}
      ensures r == Construct(args, old(cpt), now)
      ensures r.Ok? ==> r.value.mtle == cpt
    {
      var mtle := Draw();
      var embauche := if args.dateEmbauche.Some? then args.dateEmbauche.value else now;
      if TooYoungAtHire(args.dateNaissance, embauche) {
        return Err(ValueError("age at hire must be at least 16"));
      }
      r := Ok(Employee(args.nom, args.dateNaissance, embauche, args.salaireBase, mtle, args.role));
    }
  }

  /** Two constructions in a row, the first one rejected: the second gets
      the id after the one the first burned, and differs from every
      employee built before either. */
  method HireAfterRejection(reg: Registry, rejected: Args, hired: Args, now: Day, earlier: Employee)
    returns (r1: Result<Employee>, r2: Result<Employee>)
    requires reg.Valid() && earlier.mtle in reg.issued
    requires TooYoungAtHire(rejected.dateNaissance, if rejected.dateEmbauche.Some? then rejected.dateEmbauche.value else now)
    modifies reg
    ensures reg.Valid() && reg.cpt == old(reg.cpt) + 2
    ensures reg.issued == old(reg.issued) + {old(reg.cpt) + 1, old(reg.cpt) + 2}
    ensures r1.Err?
    ensures r2.Ok? ==> r2.value.mtle == old(reg.cpt) + 2 && !Equals(earlier, Emp(r2.value))
  {
    r1 := reg.New(rejected, now);
    r2 := reg.New(hired, now);
  }
}
