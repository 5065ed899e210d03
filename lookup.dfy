/**
 Project lookup by identifier: a left-to-right scan of the project list
 for the first project whose name equals the identifier, whose id equals
 it, or whose id printed with `str` equals it. The comparison reads the
 attributes lazily, so a project without an `id` only fails the scan when
 its name did not already match.
 */
module Lookup {
  import opened Wrappers
  import opened Errors
  import opened Values
  import Decimal

  /** `p.name == name or p.id == name or str(p.id) == name`, evaluated left to right. */
  function Matches(attrs: map<string, Value>, name: Value): Result<bool> {
    var pname :- GetAttr(attrs, "name");
    if PyEq(pname, name) then Success(true)
    else
      var id :- GetAttr(attrs, "id");
      Success(PyEq(id, name) || (PyStr(id).Some? && name == VStr(PyStr(id).value)))
  }

  /** The scan from position `i` on: the index of the first match, None, or the first error. */
  function FindFrom(ps: seq<map<string, Value>>, name: Value, i: nat): (r: Result<Option<nat>>)
    requires i <= |ps|
    ensures r.Success? && r.value.Some? ==> i <= r.value.value < |ps|
    decreases |ps| - i
  {
    if i == |ps| then Success(None)
    else
      var m :- Matches(ps[i], name);
      if m then Success(Some(i)) else FindFrom(ps, name, i + 1)
  }

  /** `get_project` on the attributes of the projects, in list order. */
  function FindProject(ps: seq<map<string, Value>>, name: Value): (r: Result<Option<nat>>)
    ensures r.Success? && r.value.Some? ==> r.value.value < |ps|
  {
    FindFrom(ps, name, 0)
  }

  /** A match found by the scan from `i` is a match, and every project before it from `i` on did not match. */
  lemma {:induction false} FindFromFound(ps: seq<map<string, Value>>, name: Value, i: nat, k: nat)
    requires i <= |ps| && FindFrom(ps, name, i) == Success(Some(k))
    ensures Matches(ps[k], name) == Success(true) && forall j :: i <= j < k ==> Matches(ps[j], name) == Success(false)
    decreases |ps| - i
  {
    if Matches(ps[i], name) != Success(true) {
      FindFromFound(ps, name, i + 1, k);
    }
  }

  /** The scan from `i` finds nothing exactly when no project from `i` on matches and none fails. */
  lemma {:induction false} FindFromNone(ps: seq<map<string, Value>>, name: Value, i: nat)
    requires i <= |ps|
    ensures FindFrom(ps, name, i) == Success(None) <==> forall j :: i <= j < |ps| ==> Matches(ps[j], name) == Success(false)
    decreases |ps| - i
  {
    if i < |ps| {
      FindFromNone(ps, name, i + 1);
    }
  }

  /** A failing scan fails with the error of a project from `i` on, every project before it having not matched. */
  lemma {:induction false} FindFromFails(ps: seq<map<string, Value>>, name: Value, i: nat)
    requires i <= |ps| && FindFrom(ps, name, i).Failure?
    ensures exists k :: (i <= k < |ps| && Matches(ps[k], name) == Failure(FindFrom(ps, name, i).error)
      && forall j :: i <= j < k ==> Matches(ps[j], name) == Success(false))
    decreases |ps| - i
  {
    if Matches(ps[i], name).Failure? {
      assert Matches(ps[i], name) == Failure(FindFrom(ps, name, i).error);
    } else {
      FindFromFails(ps, name, i + 1);
      var k :| i + 1 <= k < |ps| && Matches(ps[k], name) == Failure(FindFrom(ps, name, i + 1).error)
        && forall j :: i + 1 <= j < k ==> Matches(ps[j], name) == Success(false);
      assert Matches(ps[k], name) == Failure(FindFrom(ps, name, i).error);
    }
  }

  /**
   The lookup returns the first project in list order that matches, and
   "not found" exactly when no project matches; it fails only with the
   error of the first project whose comparison raised, every earlier
   project having not matched.
   */
  lemma FindProjectFirst(ps: seq<map<string, Value>>, name: Value)
    ensures forall k :: FindProject(ps, name) == Success(Some(k)) ==>
      Matches(ps[k], name) == Success(true) && forall j :: 0 <= j < k ==> Matches(ps[j], name) == Success(false)
    ensures FindProject(ps, name) == Success(None) <==> forall j :: 0 <= j < |ps| ==> Matches(ps[j], name) == Success(false)
    ensures FindProject(ps, name).Failure? ==>
      exists k :: 0 <= k < |ps| && Matches(ps[k], name) == Failure(FindProject(ps, name).error)
        && forall j :: 0 <= j < k ==> Matches(ps[j], name) == Success(false)
  {
    forall k | FindProject(ps, name) == Success(Some(k))
      ensures Matches(ps[k], name) == Success(true) && forall j :: 0 <= j < k ==> Matches(ps[j], name) == Success(false)
    {
      FindFromFound(ps, name, 0, k);
    }
    FindFromNone(ps, name, 0);
    if FindProject(ps, name).Failure? {
      FindFromFails(ps, name, 0);
    }
  }

  /**
   A project whose id is an integer matches that integer, the integer
   written as a string (`get_project("42")` finds id 42) and, for id 1,
   `True`, which Python compares equal to 1.
   */
  lemma IdMatchesItsString(attrs: map<string, Value>, i: int)
    requires "name" in attrs && "id" in attrs && attrs["id"] == VInt(i)
    ensures Matches(attrs, VStr(Decimal.IntToString(i))) == Success(true)
    ensures Matches(attrs, VInt(i)) == Success(true)
    ensures i == 1 ==> Matches(attrs, VBool(true)) == Success(true)
  {
  }

  /** The string "42" finds the first project with integer id 42 when no earlier project matches. */
  lemma FindByNumericString(ps: seq<map<string, Value>>, k: nat)
    requires k < |ps| && "name" in ps[k] && "id" in ps[k] && ps[k]["id"] == VInt(42)
    requires forall j :: 0 <= j < k ==> Matches(ps[j], VStr("42")) == Success(false)
    ensures FindProject(ps, VStr("42")) == Success(Some(k))
  {
    assert Decimal.IntToString(42) == "42";
    IdMatchesItsString(ps[k], 42);
    FindFromAt(ps, VStr("42"), 0, k);
  }

  lemma {:induction false} FindFromAt(ps: seq<map<string, Value>>, name: Value, i: nat, k: nat)
    requires i <= k < |ps| && Matches(ps[k], name) == Success(true)
    requires forall j :: i <= j < k ==> Matches(ps[j], name) == Success(false)
    ensures FindFrom(ps, name, i) == Success(Some(k))
    decreases k - i
  {
    if i < k {
      FindFromAt(ps, name, i + 1, k);
    }
  }
}
