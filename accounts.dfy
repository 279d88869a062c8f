/** The in-memory list of employee accounts and removal by id
    (supprimer_compte), without its prompt and messages. */
module Accounts {
  import opened Employees

  /** Position of the first employee with id `mtle`, or the length of the
      list when there is none. */
  function IndexOf(comptes: seq<Employee>, mtle: int): (k: nat)
    ensures k <= |comptes|
    ensures forall j :: 0 <= j < k ==> comptes[j].mtle != mtle
    ensures k < |comptes| ==> comptes[k].mtle == mtle
  {
    if comptes == [] then 0
    else if comptes[0].mtle == mtle then 0
    else 1 + IndexOf(comptes[1..], mtle)
  }

  /** The list without its first employee of id `mtle`, if any. */
  function Removed(comptes: seq<Employee>, mtle: int): seq<Employee>
  {
    if comptes == [] then []
    else if comptes[0].mtle == mtle then comptes[1..]
    else [comptes[0]] + Removed(comptes[1..], mtle)
  }

  /** How many employees of the list carry id `mtle`. */
  function CountId(comptes: seq<Employee>, mtle: int): nat
  {
    if comptes == [] then 0
    else (if comptes[0].mtle == mtle then 1 else 0) + CountId(comptes[1..], mtle)
  }

  /** Removal cuts out exactly the element at the first match and keeps
      the others in their order; with no match the list is unchanged. */
  lemma {:induction false} RemovedAtFirstMatch(comptes: seq<Employee>, mtle: int)
    ensures var k := IndexOf(comptes, mtle);
      Removed(comptes, mtle) == if k < |comptes| then comptes[..k] + comptes[k + 1..] else comptes
  {
    if comptes != [] && comptes[0].mtle != mtle {
      var tail := comptes[1..];
      RemovedAtFirstMatch(tail, mtle);
      var k := IndexOf(tail, mtle);
      if k < |tail| {
        assert [comptes[0]] + tail[..k] == comptes[..k + 1];
        assert tail[k + 1..] == comptes[k + 2..];
      } else {
        assert [comptes[0]] + tail == comptes;
      }
    }
  }

  /** Only one employee goes: when the id occurs, the list loses one
      element and the id one occurrence; when it does not, nothing
      changes. */
  lemma {:induction false} RemovesOneOccurrence(comptes: seq<Employee>, mtle: int)
    ensures CountId(comptes, mtle) > 0 ==>
      |Removed(comptes, mtle)| == |comptes| - 1 &&
      CountId(Removed(comptes, mtle), mtle) == CountId(comptes, mtle) - 1
    ensures CountId(comptes, mtle) == 0 ==> Removed(comptes, mtle) == comptes
  {
    if comptes != [] && comptes[0].mtle != mtle {
      var tail := comptes[1..];
      RemovesOneOccurrence(tail, mtle);
      var rest := Removed(tail, mtle);
      assert ([comptes[0]] + rest)[1..] == rest;
      if CountId(tail, mtle) == 0 {
        assert [comptes[0]] + tail == comptes;
      }
    }
  }

  /** The account list the menu keeps for the session. */
  class Comptes {
    var items: seq<Employee>

    constructor (items: seq<Employee>)
      ensures this.items == items
    {
      this.items := items;
    }

    /** supprimer_compte's search-and-delete loop: walk the list, delete
        the first employee whose id is `mtle` in place and stop; report
        whether one was found. */
    method Supprimer(mtle: int) returns (found: bool)
      modifies this
      ensures items == Removed(old(items), mtle)
      ensures found <==> exists e :: e in old(items) && e.mtle == mtle
    {
      RemovedAtFirstMatch(items, mtle);
      if items == [] {
        return false;
      }
      var i := 0;
      while i < |items|
        invariant 0 <= i <= |items| && items == old(items)
        invariant forall j :: 0 <= j < i ==> items[j].mtle != mtle
      {
        if items[i].mtle == mtle {
          items := items[..i] + items[i + 1..];
          return true;
        }
        i := i + 1;
      }
      return false;
    }
  }

  /** supprimer_compte as written reads `compte.Matricule`, an attribute
      no employee has: on an empty list it returns before the loop, on any
      other list the first comparison fails. */
  function SupprimerAsWritten(comptes: seq<Employee>, mtle: int): (r: Result<seq<Employee>>)
    ensures r.Ok? <==> comptes == []
    ensures r.Ok? ==> r.value == comptes
  {
    if comptes == [] then Ok(comptes)
    else Err(AttributeError("Matricule"))
  }

  /** A list holding one employee whose id is asked for: as written the
      call fails, while removal on the id field empties the list. */
  lemma MatriculeLookupFails(e: Employee)
    ensures SupprimerAsWritten([e], e.mtle).Err?
    ensures Removed([e], e.mtle) == []
  {
  }
}
