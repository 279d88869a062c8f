/** The record codec (employe_encoder / employe_decoder): an employee is
    written out as its instance dictionary, and a record is sniffed for
    the keys `nom`, `heureSup` and `primeResponsabilite` and handed to the
    matching constructor as keyword arguments. The encoder writes the
    underscored attribute names, which the decoder does not look for. */
module Codec {
  import opened Employees

  /** The attribute names of an employee's instance dictionary. */
  const BaseKeys: set<string> := {"_nom", "_dateNaissance", "_salaireBase", "_mtle", "_dateEmbauche"}

  /** The attribute name a role adds to the instance dictionary. */
  function RoleKey(role: Role): string
  {
    match role
    case Agent(_) => "_primeResponsabilite"
    case Formateur(_) => "_heureSup"
  }

  /** The instance dictionary `obj.__dict__` of an employee. */
  function Fields(e: Employee): (r: Record)
    ensures r.Keys == BaseKeys + {RoleKey(e.role)}
  {
    var base := map[
      "_nom" := Text(e.nom),
      "_dateNaissance" := Date(e.dateNaissance),
      "_salaireBase" := Number(e.salaireBase),
      "_mtle" := Number(e.mtle as real),
      "_dateEmbauche" := Date(e.dateEmbauche)];
    match e.role
    case Agent(prime) => base["_primeResponsabilite" := Number(prime)]
    case Formateur(heures) => base["_heureSup" := Number(heures)]
  }

  /** employe_encoder: an employee becomes its instance dictionary; any
      other object is returned unchanged. */
  function Encode(o: Object): (r: Object)
    ensures r.Dict?
    ensures o.Dict? ==> r == o
    ensures o.Emp? ==> r.record.Keys == BaseKeys + {RoleKey(o.emp.role)}
  {
    match o
    case Emp(e) => Dict(Fields(e))
    case Dict(_) => o
  }

  /** Reads an employee back from its instance dictionary, when every
      attribute is there with a value of the right kind. */
  function FromFields(r: Record): Option<Employee>
  {
    if && "_nom" in r && r["_nom"].Text?
       && "_dateNaissance" in r && r["_dateNaissance"].Date?
       && "_salaireBase" in r && r["_salaireBase"].Number?
       && "_mtle" in r && r["_mtle"].Number? && r["_mtle"].x == r["_mtle"].x.Floor as real
       && "_dateEmbauche" in r && r["_dateEmbauche"].Date?
    then
      var mk := (role: Role) =>
        Employee(r["_nom"].s, r["_dateNaissance"].d, r["_dateEmbauche"].d,
                 r["_salaireBase"].x, r["_mtle"].x.Floor, role);
      if "_heureSup" in r && r["_heureSup"].Number? then Some(mk(Formateur(r["_heureSup"].x)))
      else if "_primeResponsabilite" in r && r["_primeResponsabilite"].Number? then Some(mk(Agent(r["_primeResponsabilite"].x)))
      else None
    else None
  }

  /** The instance dictionary loses nothing: every field, the id and the
      role can be read back from it. */
  lemma FieldsLoseNothing(e: Employee)
    ensures FromFields(Fields(e)) == Some(e)
  {
    var r := Fields(e);
    assert (e.mtle as real).Floor == e.mtle;
    match e.role
    case Agent(_) =>
      assert "_heureSup" !in r;
    case Formateur(_) =>
  }

  /** Which constructor the decoder calls. */
  datatype Branch = BuildFormateur | BuildAgent | PassThrough

  /** employe_decoder's sniffing: with `nom` present, `heureSup` selects
      Formateur, else `primeResponsabilite` selects Agent; anything else
      is left as it is. */
  function Dispatch(dct: Record): Branch
  {
    if "nom" in dct then
      if "heureSup" in dct then BuildFormateur
      else if "primeResponsabilite" in dct then BuildAgent
      else PassThrough
    else PassThrough
  }

  /** The three outcomes of the sniffing, Formateur checked first. */
  lemma DispatchOrder(dct: Record)
    ensures Dispatch(dct) == BuildFormateur <==> "nom" in dct && "heureSup" in dct
    ensures Dispatch(dct) == BuildAgent <==> "nom" in dct && "heureSup" !in dct && "primeResponsabilite" in dct
    ensures Dispatch(dct) == PassThrough <==> "nom" !in dct || ("heureSup" !in dct && "primeResponsabilite" !in dct)
  {
  }

  /** The keyword parameters of Formateur(...) and Agent(...). */
  const FormateurParams: set<string> := {"nom", "dateNaissance", "dateEmbauche", "salaireBase", "heureSup"}
  const AgentParams: set<string> := {"nom", "dateNaissance", "dateEmbauche", "salaireBase", "primeResponsabilite"}

  function Params(b: Branch): set<string>
  {
    if b == BuildFormateur then FormateurParams else AgentParams
  }

  /** What `(dateEmbauche - dateNaissance).days` does with the two date
      values the constructor holds (a missing hire date is already `now`):
      two dates subtract; two numbers subtract too, but the number has no
      `days`; any other pair cannot be subtracted. */
  function DateError(naissance: Value, embauche: Value): Option<Error>
  {
    if naissance.Date? && embauche.Date? then None
    else if naissance.Number? && embauche.Number? then Some(AttributeError("days"))
    else Some(TypeError("unsupported operand type(s) for -"))
  }

  /** The keyword arguments of a record as typed constructor arguments,
      with the constructors' defaults for those left out (birth date
      2000-01-01, hire date "now", base salary 0). The hire-age check fails
      first on dates it cannot subtract; a name, salary, bonus or hour
      count of the wrong kind is rejected after that. */
  function Bind(dct: Record, b: Branch, now: Day): Result<Args>
    requires b != PassThrough && "nom" in dct
    requires b == BuildFormateur ==> "heureSup" in dct
    requires b == BuildAgent ==> "primeResponsabilite" in dct
  {
    var naissance := if "dateNaissance" in dct then dct["dateNaissance"] else Date(DefaultNaissance);
    var given := if "dateEmbauche" in dct then dct["dateEmbauche"] else Null;
    var embauche := if given.Null? then Date(now) else given;
    var salaire := if "salaireBase" in dct then dct["salaireBase"] else Number(0.0);
    var extra := if b == BuildFormateur then dct["heureSup"] else dct["primeResponsabilite"];
    match DateError(naissance, embauche)
    case Some(err) => Err(err)
    case None =>
      if dct["nom"].Text? && salaire.Number? && extra.Number? then
        Ok(Args(dct["nom"].s, naissance.d,
                if given.Date? then Some(given.d) else None,
                salaire.x,
                if b == BuildFormateur then Formateur(extra.x) else Agent(extra.x)))
      else Err(TypeError("value of the wrong kind"))
  }

  /** What decoding a record produces, and the id counter after it. */
  datatype Decoded = Decoded(result: Result<Object>, cpt: int)

  /** employe_decoder with counter value `cpt` before the call. A keyword
      the constructor does not take fails the call before the constructor
      runs; otherwise the constructor draws an id first and may then fail. */
  function DecodeSpec(dct: Record, cpt: int, now: Day): Decoded
  {
    var b := Dispatch(dct);
    if b == PassThrough then Decoded(Ok(Dict(dct)), cpt)
    else if !(dct.Keys <= Params(b)) then
      Decoded(Err(TypeError("unexpected keyword argument")), cpt)
    else
      match Bind(dct, b, now)
      case Err(err) => Decoded(Err(err), cpt + 1)
      case Ok(args) =>
        match Construct(args, cpt, now)
        case Ok(e) => Decoded(Ok(Emp(e)), cpt + 1)
        case Err(err) => Decoded(Err(err), cpt + 1)
  }

  /** employe_decoder applied to one record, drawing ids from `reg`. */
  method Decode(reg: Registry, dct: Record, now: Day) returns (r: Result<Object>)
    requires reg.Valid()
    modifies reg
    ensures reg.Valid()
    ensures Decoded(r, reg.cpt) == DecodeSpec(dct, old(reg.cpt), now)
    ensures reg.issued == old(reg.issued) + (if reg.cpt == old(reg.cpt) then {} else {reg.cpt})
  {
    var b := Dispatch(dct);
    if b == PassThrough {
      return Ok(Dict(dct));
    }
    if !(dct.Keys <= Params(b)) {
      return Err(TypeError("unexpected keyword argument"));
    }
    var bound := Bind(dct, b, now);
    if bound.Err? {
      var _ := reg.Draw();
      return Err(bound.error);
    }
    var made := reg.New(bound.value, now);
    r := if made.Ok? then Ok(Emp(made.value)) else Err(made.error);
  }

  /** The sniffing order: a Formateur comes only from a record with `nom`
      and `heureSup`, an Agent only from one with `nom` and
      `primeResponsabilite` but no `heureSup`, and a record comes back
      unchanged, without using an id, exactly when it lacks `nom` or has
      neither of the two. */
  lemma DecodeFollowsSniffing(dct: Record, cpt: int, now: Day)
    ensures var d := DecodeSpec(dct, cpt, now);
      d.result.Ok? && d.result.value.Emp? && d.result.value.emp.role.Formateur? ==>
        "nom" in dct && "heureSup" in dct
    ensures var d := DecodeSpec(dct, cpt, now);
      d.result.Ok? && d.result.value.Emp? && d.result.value.emp.role.Agent? ==>
        "nom" in dct && "primeResponsabilite" in dct && "heureSup" !in dct
    ensures var d := DecodeSpec(dct, cpt, now);
      (d.result.Ok? && d.result.value.Dict?) <==> !("nom" in dct && ("heureSup" in dct || "primeResponsabilite" in dct))
    ensures var d := DecodeSpec(dct, cpt, now);
      d.result.Ok? && d.result.value.Dict? ==> d.result.value.record == dct && d.cpt == cpt
  {
    var b := Dispatch(dct);
    if b != PassThrough && dct.Keys <= Params(b) {
      match Bind(dct, b, now)
      case Err(_) =>
      case Ok(args) =>
        assert args.role.Formateur? <==> b == BuildFormateur;
    }
  }

  /** A decoded employee never keeps an id from the record: it gets the
      next value of the counter. */
  lemma DecodeDrawsFreshId(dct: Record, cpt: int, now: Day)
    requires DecodeSpec(dct, cpt, now).result.Ok?
    requires DecodeSpec(dct, cpt, now).result.value.Emp?
    ensures DecodeSpec(dct, cpt, now).result.value.emp.mtle == cpt + 1
    ensures DecodeSpec(dct, cpt, now).cpt == cpt + 1
  {
  }

  /** A record carrying `nom`, `heureSup` and `primeResponsabilite` takes
      the Formateur branch, whose constructor has no
      `primeResponsabilite` parameter: the call fails before any id is
      drawn. */
  lemma AmbiguousRecordRejected(dct: Record, cpt: int, now: Day)
    requires "nom" in dct && "heureSup" in dct && "primeResponsabilite" in dct
    ensures Dispatch(dct) == BuildFormateur
    ensures DecodeSpec(dct, cpt, now) == Decoded(Err(TypeError("unexpected keyword argument")), cpt)
  {
    assert "primeResponsabilite" !in FormateurParams;
  }

  /** The records the encoder writes have none of the keys the decoder
      looks for, so decoding one gives the same record back, not an
      employee: encode then decode is not a round trip. */
  lemma EncodedEmployeeDecodesAsRecord(e: Employee, cpt: int, now: Day)
    ensures DecodeSpec(Encode(Emp(e)).record, cpt, now) == Decoded(Ok(Encode(Emp(e))), cpt)
  {
    assert "nom" !in Fields(e);
  }

  /** A record whose two dates are numbers: the counter is raised, the
      numbers subtract, and reading `days` on the difference fails with an
      AttributeError. */
  lemma NumericDatesFailOnDays(cpt: int, now: Day)
    ensures DecodeSpec(map["nom" := Text("a"), "heureSup" := Number(1.0),
                           "dateNaissance" := Number(5.0), "dateEmbauche" := Number(10.0)], cpt, now)
         == Decoded(Err(AttributeError("days")), cpt + 1)
  {
    var dct := map["nom" := Text("a"), "heureSup" := Number(1.0),
                   "dateNaissance" := Number(5.0), "dateEmbauche" := Number(10.0)];
    assert dct.Keys <= FormateurParams;
  }

  /** A record whose birth date is text fails the subtraction with a
      TypeError once the counter is raised, whatever its hire date. */
  lemma TextBirthDateFailsOnSubtraction(dct: Record, cpt: int, now: Day)
    requires Dispatch(dct) != PassThrough && dct.Keys <= Params(Dispatch(dct))
    requires "dateNaissance" in dct && dct["dateNaissance"].Text?
    ensures DecodeSpec(dct, cpt, now) == Decoded(Err(TypeError("unsupported operand type(s) for -")), cpt + 1)
  {
  }

  /** A record with just a name and overtime hours builds a trainer born on
      2000-01-01, hired now, with base 0, under the next id. */
  lemma MinimalTrainerRecord(n: string, h: real, cpt: int, now: Day)
    requires !TooYoungAtHire(DefaultNaissance, now)
    ensures DecodeSpec(map["nom" := Text(n), "heureSup" := Number(h)], cpt, now)
         == Decoded(Ok(Emp(Employee(n, DefaultNaissance, now, 0.0, cpt + 1, Formateur(h)))), cpt + 1)
  {
    var dct := map["nom" := Text(n), "heureSup" := Number(h)];
    assert dct.Keys <= FormateurParams;
    assert "dateNaissance" !in dct && "dateEmbauche" !in dct && "salaireBase" !in dct;
  }
}
