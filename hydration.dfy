/**
 Entity hydration: copying the child fields of a node onto an object's
 attributes, as the client does for projects, tickets, users and
 members. The objects themselves are in module Entities; here are the
 loops on values and the functions that specify them.
 */
module Hydration {
  import opened Wrappers
  import opened Errors
  import opened Xml
  import opened Values
  import opened Assoc
  import opened Coercion
  import opened CoercionFacts
  import opened Runs

  /** An object's attributes and its set of field names received from the server. */
  datatype Bag = Bag(attrs: map<string, Value>, fields: set<string>)

  /** A new Ticket has empty `versions` and `attachments` lists. */
  const TicketInit: map<string, Value> := map["versions" := VList([]), "attachments" := VList([])]

  /** A new Project has `name` set to None. */
  const ProjectInit: map<string, Value> := map["name" := VNone]

  /**
   Flat hydration: for each child of `node`, coerce it, write its value
   under its normalised name and, when `recordFields`, add that name to
   `fields`. A child that fails to coerce stops the loop with the writes
   made so far; a node with no children entry fails before any write.
   */
  method HydrateFlat(node: Node, attrs: map<string, Value>, fields: set<string>, recordFields: bool)
    returns (attrs': map<string, Value>, fields': set<string>, err: Option<Error>)
    ensures attrs' == Assign(attrs, Fields(node).pairs)
    ensures fields' == if recordFields then fields + Keys(Fields(node).pairs) else fields
    ensures err == Fields(node).err
  {
    // CoercedStep says all that is needed about each child.
    hide ParseField, Normalize;
    attrs', fields', err := attrs, fields, None;
    if node.children.Absent? {
      err := Some(KeyError("children"));
      return;
    }
    var fs := node.children.nodes;
    ghost var pairs: seq<(string, Value)> := [];
    var i := 0;
    while i < |fs|
      invariant 0 <= i <= |fs|
      invariant Coerced(node, i) == Scan(pairs, None)
      invariant attrs' == Assign(attrs, pairs)
      invariant recordFields ==> fields' == fields + Keys(pairs)
      invariant !recordFields ==> fields' == fields
    {
      var r := ParseField(fs[i]);
      CoercedStep(node, i, pairs, r);
      if r.Failure? {
        err := Some(r.error);
        CoercedSticks(node, i + 1, |fs|);
        return;
      }
      var name := Normalize(r.value.name);
      AssignSnoc(attrs, pairs, (name, r.value.value));
      attrs' := attrs'[name := r.value.value];
      if recordFields {
        fields' := fields' + {name};
      }
      pairs := pairs + [(name, r.value.value)];
      i := i + 1;
    }
  }

  /**
   One child of a member. A child that has children of its own becomes a
   dictionary of its coerced sub-fields (normalised names) stored under
   the child's own, un-normalised, name; any other child is stored under
   its normalised name. The child itself is coerced first in both cases,
   so its failure is raised even when its value is then not used.
   */
  function MemberChild(f: Node): Result<(string, Value)> {
    var field :- ParseField(f);
    if HasChildren(f) then
      var sub := Fields(f);
      if sub.err.Some? then Failure(sub.err.value)
      else Success((field.name, VDict(Assign(map[], sub.pairs))))
    else Success((Normalize(field.name), field.value))
  }

  /** The loop over the first `k` children of a member. */
  function MemberPairs(m: Node, k: nat): Scan<string, Value>
    requires m.children.Present? && k <= |m.children.nodes|
    decreases k
  {
    if k == 0 then Scan([], None)
    else
      var prev := MemberPairs(m, k - 1);
      if prev.err.Some? then prev
      else
        match MemberChild(m.children.nodes[k - 1])
        case Failure(e) => Scan(prev.pairs, Some(e))
        case Success(p) => Scan(prev.pairs + [p], None)
  }

  /** The whole member loop; `member['children']` fails when the entry is missing. */
  function MemberFields(m: Node): Scan<string, Value> {
    if m.children.Absent? then Scan([], Some(KeyError("children")))
    else MemberPairs(m, |m.children.nodes|)
  }

  /** The body of the member loop for one child, with the sub-block loop. */
  method HydrateMemberChild(f: Node) returns (r: Result<(string, Value)>)
    ensures r == MemberChild(f)
  {
    var parsed := ParseField(f);
    if parsed.Failure? {
      return Failure(parsed.error);
    }
    if HasChildren(f) {
      var sub, _, subErr := HydrateFlat(f, map[], {}, false);
      if subErr.Some? {
        return Failure(subErr.value);
      }
      r := Success((parsed.value.name, VDict(sub)));
    } else {
      r := Success((Normalize(parsed.value.name), parsed.value.value));
    }
  }

  /** Nested hydration of a member: its new attributes and field names, and the error if one was raised. */
  method HydrateMember(node: Node, attrs0: map<string, Value>, fields0: set<string>)
    returns (attrs: map<string, Value>, fields: set<string>, err: Option<Error>)
    ensures attrs == Assign(attrs0, MemberFields(node).pairs)
    ensures fields == fields0 + Keys(MemberFields(node).pairs)
    ensures err == MemberFields(node).err
  {
    // MemberPairsStep says all that is needed about each child.
    hide MemberChild, ParseField, Fields, Normalize;
    attrs, fields, err := attrs0, fields0, None;
    if node.children.Absent? {
      err := Some(KeyError("children"));
      return;
    }
    var fs := node.children.nodes;
    var i := 0;
    while i < |fs|
      invariant 0 <= i <= |fs|
      invariant MemberPairs(node, i).err.None?
      invariant attrs == Assign(attrs0, MemberPairs(node, i).pairs)
      invariant fields == fields0 + Keys(MemberPairs(node, i).pairs)
    {
      var r := HydrateMemberChild(fs[i]);
      ghost var prev := MemberPairs(node, i);
      MemberPairsStep(node, i, r);
      if r.Failure? {
        err := Some(r.error);
        MemberPairsSticks(node, i + 1, |fs|);
        return;
      }
      AssignSnoc(attrs0, prev.pairs, r.value);
      attrs := attrs[r.value.0 := r.value.1];
      fields := fields + {r.value.0};
      i := i + 1;
    }
  }

  lemma MemberPairsStep(m: Node, i: nat, r: Result<(string, Value)>)
    requires m.children.Present? && i < |m.children.nodes|
    requires MemberPairs(m, i).err.None? && r == MemberChild(m.children.nodes[i])
    ensures MemberPairs(m, i + 1) ==
      if r.Failure? then Scan(MemberPairs(m, i).pairs, Some(r.error))
      else Scan(MemberPairs(m, i).pairs + [r.value], None)
  {
  }

  lemma {:induction false} MemberPairsSticks(m: Node, i: nat, j: nat)
    requires m.children.Present? && i <= j <= |m.children.nodes|
    requires MemberPairs(m, i).err.Some?
    ensures MemberPairs(m, j) == MemberPairs(m, i)
    decreases j
  {
    if j > i {
      MemberPairsSticks(m, i, j - 1);
    }
  }

  /**
   When member hydration gets through the first `k` children it has
   written one entry per child, in order: a sub-block under the raw name
   as the dictionary of its normalised sub-fields, a leaf under the
   normalised name with its coerced value.
   */
  lemma {:induction false} MemberPairsAll(m: Node, k: nat)
    requires m.children.Present? && k <= |m.children.nodes|
    requires MemberPairs(m, k).err.None?
    ensures |MemberPairs(m, k).pairs| == k
    ensures forall i :: 0 <= i < k ==>
      var f := m.children.nodes[i];
      && ParseField(f).Success?
      && (HasChildren(f) ==>
            Fields(f).err.None? && MemberPairs(m, k).pairs[i] == (f.name, VDict(Assign(map[], Fields(f).pairs))))
      && (!HasChildren(f) ==>
            MemberPairs(m, k).pairs[i] == (Normalize(f.name), ParseField(f).value.value))
    decreases k
  {
    if k > 0 {
      MemberPairsAll(m, k - 1);
    }
  }

  /** `t_obj.number` as a dictionary key: it must exist and be hashable. */
  function TicketKey(attrs: map<string, Value>): (r: Result<Value>)
    ensures r.Success? <==> "number" in attrs && IsHashable(attrs["number"])
    ensures r.Success? ==> r.value == attrs["number"]
    ensures "number" !in attrs ==> r == Failure(AttributeError("number"))
    ensures "number" in attrs && !IsHashable(attrs["number"]) ==> r == Failure(Unhashable)
  {
    var n :- GetAttr(attrs, "number");
    if IsHashable(n) then Success(n) else Failure(Unhashable)
  }

  /** A fresh ticket hydrated from the entry's children, recording each field name. */
  function TicketBag(e: Node): Bag {
    Bag(Assign(TicketInit, Fields(e).pairs), Keys(Fields(e).pairs))
  }

  /**
   The ticket loop of one page: every entry with children is hydrated
   into a fresh ticket and paired with its number; entries without
   children are passed over. The first failure stops the loop.
   */
  function PagePairs(es: seq<Node>): Scan<Value, Bag>
    decreases |es|
  {
    if es == [] then Scan([], None)
    else
      var prev := PagePairs(es[..|es| - 1]);
      if prev.err.Some? then prev
      else
        match EntryPair(es[|es| - 1])
        case Failure(x) => Scan(prev.pairs, Some(x))
        case Success(None) => prev
        case Success(Some(kv)) => Scan(prev.pairs + [kv], None)
  }

  /** The entries with children, in order. */
  ghost function Hydratable(es: seq<Node>): (hs: seq<Node>)
    ensures |hs| <= |es|
    decreases |es|
  {
    if es == [] then []
    else Hydratable(es[..|es| - 1]) + (if HasChildren(es[|es| - 1]) then [es[|es| - 1]] else [])
  }

  /**
   A page that hydrates without error yields exactly one (number, ticket)
   pair per entry with children, in order, and nothing for the others.
   */
  lemma {:induction false} PagePairsAll(es: seq<Node>)
    requires PagePairs(es).err.None?
    ensures var ps := PagePairs(es).pairs; var hs := Hydratable(es);
      && |ps| == |hs|
      && forall i :: 0 <= i < |ps| ==>
           && TicketKey(TicketBag(hs[i]).attrs).Success?
           && ps[i] == (TicketKey(TicketBag(hs[i]).attrs).value, TicketBag(hs[i]))
    decreases |es|
  {
    if es != [] {
      var init, e := es[..|es| - 1], es[|es| - 1];
      PagePairsAll(init);
      if HasChildren(e) {
        assert EntryPair(e) == Success(Some((TicketKey(TicketBag(e).attrs).value, TicketBag(e))));
      }
    }
  }

  /** A new project hydrated from an entry: its attributes, or the error that stopped it. */
  function ProjectAttrs(e: Node): (r: Result<map<string, Value>>)
    ensures r.Success? <==> Fields(e).err.None?
    ensures r.Failure? ==> r.error == Fields(e).err.value
    ensures r.Success? ==> r.value == Assign(ProjectInit, Fields(e).pairs)
  {
    if Fields(e).err.Some? then Failure(Fields(e).err.value)
    else Success(Assign(ProjectInit, Fields(e).pairs))
  }

  /** The attributes of each project of a listing, or the first error: a failure discards the whole list. */
  function ProjectRun(es: seq<Node>): Result<seq<map<string, Value>>> {
    var run := RunTo(ProjectAttrs, es, |es|);
    if run.err.Some? then Failure(run.err.value) else Success(run.items)
  }

  /**
   A project listing converts exactly when every entry's fields do; then
   there is one project per entry, in order, each starting from a None
   name and carrying the entry's normalised fields.
   */
  lemma ProjectRunAll(es: seq<Node>)
    ensures ProjectRun(es).Success? <==> forall i :: 0 <= i < |es| ==> Fields(es[i]).err.None?
    ensures ProjectRun(es).Success? ==>
      var ps := ProjectRun(es).value;
      && |ps| == |es|
      && forall i :: 0 <= i < |es| ==> ps[i] == Assign(ProjectInit, Fields(es[i]).pairs) && "name" in ps[i]
  {
    RunAll(ProjectAttrs, es, |es|);
    forall i | 0 <= i < |es| ensures "name" in Assign(ProjectInit, Fields(es[i]).pairs) {
      AssignKeys(ProjectInit, Fields(es[i]).pairs);
    }
  }

  /** One entry of a page: passed over when it has no children, else its (number, ticket) pair or the error. */
  function EntryPair(e: Node): Result<Option<(Value, Bag)>> {
    if !HasChildren(e) then Success(None)
    else if Fields(e).err.Some? then Failure(Fields(e).err.value)
    else
      var key :- TicketKey(TicketBag(e).attrs);
      Success(Some((key, TicketBag(e))))
  }

  /** The ticket loop of a page takes one more entry by its EntryPair. */
  lemma PagePairsStep(es: seq<Node>, i: nat)
    requires i < |es| && PagePairs(es[..i]).err.None?
    ensures PagePairs(es[..i + 1]) ==
      match EntryPair(es[i])
      case Failure(x) => Scan(PagePairs(es[..i]).pairs, Some(x))
      case Success(None) => PagePairs(es[..i])
      case Success(Some(kv)) => Scan(PagePairs(es[..i]).pairs + [kv], None)
  {
    assert es[..i + 1][..i] == es[..i];
  }

  /** Once the ticket loop of a page has failed on a prefix, the rest of the page changes nothing. */
  lemma {:induction false} PagePairsSticks(es: seq<Node>, k: nat)
    requires k <= |es| && PagePairs(es[..k]).err.Some?
    ensures PagePairs(es) == PagePairs(es[..k])
    decreases |es|
  {
    if k == |es| {
      assert es[..k] == es;
    } else {
      assert es[..|es| - 1][..k] == es[..k];
      PagePairsSticks(es[..|es| - 1], k);
    }
  }

  /** A fresh member hydrated from an entry, or the error that stopped it. */
  function MemberBag(e: Node): (r: Result<Bag>)
    ensures r.Success? <==> MemberFields(e).err.None?
    ensures r.Failure? ==> r.error == MemberFields(e).err.value
    ensures r.Success? ==> r.value == Bag(Assign(map[], MemberFields(e).pairs), Keys(MemberFields(e).pairs))
  {
    var s := MemberFields(e);
    if s.err.Some? then Failure(s.err.value)
    else Success(Bag(Assign(map[], s.pairs), Keys(s.pairs)))
  }

  /**
   The member loop of a membership listing: each entry becomes a member
   that is appended once fully hydrated; the first failure stops the
   loop and keeps the members appended before it.
   */
  function MemberRun(es: seq<Node>): Run<Bag> {
    RunTo(MemberBag, es, |es|)
  }

  /** `to_json_obj`: each recorded field name with its attribute. */
  function JsonObj(b: Bag): (r: map<string, Value>)
    ensures b.fields <= b.attrs.Keys ==> r.Keys == b.fields
    ensures forall f :: f in r ==> f in b.attrs && r[f] == b.attrs[f]
  {
    map f | f in b.fields && f in b.attrs :: b.attrs[f]
  }

  /**
   Whatever an object started with, once hydrated with recorded field
   names its JSON object is exactly the fields the writes produced, last
   write winning: initial attributes such as `versions` do not leak in.
   */
  lemma {:induction false} JsonOfHydrated(init: map<string, Value>, ps: seq<(string, Value)>)
    ensures JsonObj(Bag(Assign(init, ps), Keys(ps))) == Assign(map[], ps)
    decreases |ps|
  {
    if ps != [] {
      var qs := ps[..|ps| - 1];
      var p := ps[|ps| - 1];
      JsonOfHydrated(init, qs);
      AssignKeys(init, qs);
      AssignKeys(map[], qs);
      var lhs := JsonObj(Bag(Assign(init, ps), Keys(ps)));
      var rhs := Assign(map[], ps);
      assert lhs.Keys == rhs.Keys;
      forall f | f in lhs ensures lhs[f] == rhs[f] {
        if f != p.0 {
          assert lhs[f] == JsonObj(Bag(Assign(init, qs), Keys(qs)))[f];
        }
      }
    }
  }
}
