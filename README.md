# Payroll core in Dafny

A model of the logic of a small payroll program (`payroll_system.py`): the
income-tax table `IR.getIR`, the employee entity `Employe` with its
process-wide id counter, hire-age check, age, seniority (`Anciennete`),
retirement date and equality by id, the pay rules `SalaireAPayer` of its two
variants `Agent` and `Formateur` (trainer), the record codec
`employe_encoder` / `employe_decoder`, and the search-and-delete loop of
`supprimer_compte`.

Modules, one per component:

- `TaxTable` (`tax_table.dfy`): the six-bracket table as two constant
  sequences, a specification function `Rate` (through `Bracket`, which scans
  the bounds the way `getIR` does), and the method `GetIR`, the source's
  early-return loop, proved equal to `Rate`.
- `Employees` (`employees.dfy`): the `Employee` datatype with a closed `Role`
  (`Agent(primeResponsabilite)` or `Formateur(heureSup)`), dates as day
  numbers (proleptic Gregorian ordinals, so 2000-01-01 is 730120), the class
  `Registry` holding the counter `cpt`, and the pure derived values.
- `Salary` (`salary.dfy`): `SalaireAPayer` for both variants over `Rate`.
- `Codec` (`codec.dfy`): the encoder as the instance dictionary it returns,
  and the decoder as written, including the keyword-argument call of the
  constructor, the id it draws and the errors of the hire-age check on
  dates of the wrong kind; the value kinds it treats differently are listed
  under "Left out".
- `Accounts` (`accounts.dfy`): the account list as a class with a `seq`
  field, and the removal loop.

Where the code does something surprising, the model follows it:

- A rejected construction still uses up an id: the counter is raised before
  the age check.
- The age check divides the day difference by 365 (a true division), and the
  retirement date adds `ageRetraite * 365` days, not calendar years.
- `Age` and `Anciennete` use `int(days / 365)`, which truncates toward zero,
  so a date before the birth date gives a negative age rounded up.
- The encoder writes the attribute names `_nom`, `_heureSup`,
  `_primeResponsabilite`, `_mtle`, …, while the decoder looks for `nom`,
  `heureSup` and `primeResponsabilite`. Encoding then decoding an employee
  gives the plain record back (`Codec.EncodedEmployeeDecodesAsRecord`), and
  any employee the decoder does build gets a fresh id from the counter. No
  round-trip law holds, and none is stated; `Codec.FieldsLoseNothing` only
  shows that the written record keeps every field.
- Missing base fields do not fail decoding: the constructor's defaults
  apply (birth date 2000-01-01, hire date now, base salary 0). A key the
  constructor does not take fails the call with a `TypeError` before any id
  is drawn; in particular a record with `nom`, `heureSup` and
  `primeResponsabilite` takes the `Formateur` branch and fails there.
- Dates a record carries are not checked before the id is drawn: two
  numbers subtract and then fail on `.days` with an `AttributeError`, any
  other pair that is not two dates fails the subtraction with a
  `TypeError`.
- Removal of an absent id leaves the list unchanged and only reports it
  (`found` is false); there is no error value.

The current date, which the source reads from the clock, is a parameter
`now` everywhere.

## Model

| member | source | states |
|---|---|---|
| TaxTable.BracketFrom | payroll_system.py:24-27 | scanning the bounds upwards from bound i ends in the one bracket whose lower bound is at most the salary and whose next bound is above it |
| TaxTable.Bracket | payroll_system.py:19-27 | every salary falls in one of the six brackets, bounded below by its bound and above by the next one |
| TaxTable.Rate | payroll_system.py:20-27 | the rate of any salary lies between 0 and 0.40 |
| TaxTable.RateInTable | payroll_system.py:20-27 | the rate is always one of the six table rates |
| TaxTable.BracketUnique | payroll_system.py:19-27 | a salary between bound k and bound k+1 is in bracket k and no other |
| TaxTable.RateInBracket | payroll_system.py:19-27 | a salary between bound k (inclusive) and bound k+1 (exclusive) is taxed at rate k |
| TaxTable.RateEnds | payroll_system.py:24-27 | any salary of 150001 or more gets 0.40 and any salary below 28001 gets 0 |
| TaxTable.RateMonotone | payroll_system.py:19-27 | the rate never decreases as the salary grows |
| TaxTable.RateAtBounds | payroll_system.py:24-26 | each bound belongs to the higher bracket: 28000 gets 0, 28001 gets 0.12, 40000 gets 0.12, 40001 gets 0.24, 150000 gets 0.38, 150001 gets 0.40 |
| TaxTable.GetIR | payroll_system.py:22-27 | the early-return scan returns exactly the rate of the salary's bracket |
| Employees.TooYoungAtHireDays | payroll_system.py:40-43 | the hire-age check rejects exactly the hires made fewer than 5840 days after birth |
| Employees.HiredAtTenRejected | payroll_system.py:40-43 | born 2010-01-01 and hired 2020-01-01 is rejected |
| Employees.WholeYears | payroll_system.py:49-53 | whole years of a day count truncated toward zero: 365·y ≤ d < 365·(y+1) for d ≥ 0, and 365·(y−1) < d ≤ 365·y ≤ 0 for d < 0 |
| Employees.AgeAtRetirement | payroll_system.py:49-56 | on DateRetraite(a) the employee's Age is exactly a, for every a (day numbers are unbounded; see Left out) |
| Employees.WholeYearsMonotone | payroll_system.py:49-53 | age and seniority never decrease as the date advances |
| Employees.AgeExceedsAnciennete | payroll_system.py:40-53 | an employee who passed the hire-age check is, from the hire on, at least 16 years older than their seniority |
| Employees.EqualsById | payroll_system.py:61-64 | two employees are equal iff their ids are equal, whatever their name, salary or role, and no record equals an employee |
| Employees.EqualsEquivalence | payroll_system.py:61-64 | equality between employees is reflexive, symmetric and transitive |
| Employees.Construct | payroll_system.py:31-43 | a construction succeeds iff the age check passes on the given hire date or on now, and then stores the arguments with id cpt+1 |
| Employees.Registry.constructor | payroll_system.py:30 | the counter starts at 0 and no id has been drawn |
| Employees.Registry.Draw | payroll_system.py:35-36 | the counter goes up by one and the new value is an id never drawn before |
| Employees.Registry.New | payroll_system.py:31-43 | the counter goes up by one whether or not the age check passes, and the result is Construct's with the new value as id |
| Employees.HireAfterRejection | payroll_system.py:35-43 | after a rejected construction the next employee gets the id after the burned one and equals no earlier employee; both ids are recorded as drawn |
| Salary.HeuresPayees | payroll_system.py:82-84 | paid overtime is the hours themselves or 30, whichever is smaller |
| Salary.ComputeSalaireAPayer | payroll_system.py:71-85 | pay computed with the capped hours and the getIR scan equals the gross amount net of the base salary's rate |
| Salary.NetBetweenSixtyAndAllOfGross | payroll_system.py:72 | net pay of either variant is between 60% and 100% of its gross amount |
| Salary.AgentBonusTaxedAtBaseRate | payroll_system.py:71-72 | two agents with the same base differ in pay by their bonus difference net of the rate of the base alone |
| Salary.AgentPayMonotoneInBonus | payroll_system.py:71-72 | with the same base a larger bonus never lowers an agent's pay |
| Salary.OvertimeCapped | payroll_system.py:75-85 | any number of overtime hours from 30 on pays the same as 30 |
| Salary.OvertimeMonotone | payroll_system.py:81-85 | more overtime hours never lower a trainer's pay |
| Salary.TrainerExample | payroll_system.py:75-85 | base 1000 with 50 overtime hours pays 3100 |
| Codec.Fields | payroll_system.py:90-92 | the instance dictionary has exactly the five underscored base keys and the key of the employee's role |
| Codec.Encode | payroll_system.py:90-93 | an employee becomes its instance dictionary and anything else is returned unchanged |
| Codec.FieldsLoseNothing | payroll_system.py:90-92 | every field, the id and the role can be read back from the instance dictionary |
| Codec.DispatchOrder | payroll_system.py:95-101 | Formateur iff nom and heureSup, Agent iff nom and primeResponsabilite without heureSup, otherwise unchanged |
| Codec.Decode | payroll_system.py:95-101 | decoding a record produces DecodeSpec's result and counter, and the ids recorded as drawn grow by the new counter value exactly when one was drawn, so every earlier id stays recorded |
| Codec.DecodeFollowsSniffing | payroll_system.py:95-101 | a decoded Formateur or Agent only comes from a record with the selecting keys, and a record comes back unchanged, with the counter untouched, exactly when it does not select a constructor |
| Codec.DecodeDrawsFreshId | payroll_system.py:35-36 | every decoded employee gets the next counter value as id |
| Codec.AmbiguousRecordRejected | payroll_system.py:77 | a record with nom, heureSup and primeResponsabilite takes the Formateur branch and fails with a TypeError without drawing an id |
| Codec.EncodedEmployeeDecodesAsRecord | payroll_system.py:90-101 | decoding what the encoder wrote gives the same record back and draws no id |
| Codec.NumericDatesFailOnDays | payroll_system.py:35-41 | a record whose two dates are numbers raises the counter and fails with AttributeError on `days` |
| Codec.TextBirthDateFailsOnSubtraction | payroll_system.py:35-41 | a record whose birth date is text raises the counter and fails the date subtraction with a TypeError |
| Codec.MinimalTrainerRecord | payroll_system.py:77-79 | a record with only nom and heureSup builds a trainer with the constructor's defaults and the next id |
| Accounts.IndexOf | payroll_system.py:144-145 | the first position whose id matches, every earlier one differing, or the length when none matches |
| Accounts.RemovedAtFirstMatch | payroll_system.py:144-149 | removal cuts out exactly the first match and keeps the rest in order, and leaves the list unchanged without a match |
| Accounts.RemovesOneOccurrence | payroll_system.py:144-149 | removal shortens the list by one and removes one occurrence of the id when it is present, and changes nothing otherwise |
| Accounts.Comptes.constructor | payroll_system.py:161 | the account list holds the given employees |
| Accounts.Comptes.Supprimer | payroll_system.py:137-149 | the list becomes the removal of the first match, and found says whether any employee has the id |
| Accounts.SupprimerAsWritten | payroll_system.py:137-145 | as written, the call succeeds only on an empty list |
| Accounts.MatriculeLookupFails | payroll_system.py:145 | a one-employee list asked for that employee's id fails as written and is emptied by removal on the id field |

## Left out

- Loading and saving the list (`charger_comptes`, `sauvegarder_comptes`): file access and the JSON library, including the missing-file fallback. Dates would not be serialisable by the JSON library as written in any case.
- The menu, prompts and messages (`ajouter_compte`, `afficher_comptes`, `menu_principal`, `input`, `print`) and the parsing of typed input with `float` and `fromisoformat`: interactive glue.
- `__str__` of both classes: display only.
- The clock: `now` is a parameter wherever the source calls `datetime.now()`.
- Time of day: dates are whole day numbers, so a hire or birth time within a day plays no part.
- Float rounding: amounts, rates and `days / 365` are exact reals, so `int(days / 365)` is an exact truncation.
- Codec.DecodeSpec: rejects, with a `TypeError` after the id is drawn, a record whose `nom`, `salaireBase`, `heureSup` or `primeResponsabilite` value is of the wrong kind, where Python would store it unchecked; dates of the wrong kind fail as in Python (`AttributeError` for two numbers, `TypeError` otherwise), and that check comes first.
- Employees.DateRetraite: day numbers are unbounded integers, while Python's `datetime` covers only the years 1 to 9999; a retirement date, hire date or `now` outside that range, which raises `OverflowError` in Python, is an ordinary day number here.
- Record values are text, numbers, dates or null; nested lists and objects inside a record are not modelled.
- Constructor calls with omitted arguments appear only through decoding; `Registry.New` takes every argument.
- `Employees.Registry` replaces the class attribute `Employe.cpt` by an object passed to the constructor calls.
- The abstract interface `IEmploye` and the abstract `SalaireAPayer` are replaced by the closed `Role` datatype.

## Findings

| source | as written | input that shows it | evidently intended | confidence | as-written member | corrected member |
|---|---|---|---|---|---|---|
| payroll_system.py:145 | the loop compares `compte.Matricule`, an attribute no employee has, so the first comparison raises `AttributeError` | a list holding one employee with id 1, asked to remove id 1 (`Accounts.MatriculeLookupFails`) | compare the id attribute `_mtle` | high; not executed | Accounts.SupprimerAsWritten | Accounts.Comptes.Supprimer |
