/**
 The objects the client builds from server responses. Each is an
 attribute bag: `attrs` maps attribute names to values (Python's
 `setattr`), and Ticket, Member and User also record in `fields` the
 names that came from the server.
 */
module Entities {
  import opened Wrappers
  import opened Errors
  import opened Xml
  import opened Values
  import opened Assoc
  import opened Coercion
  import opened Hydration

  /** Tickets are individual issues or bugs. */
  class Ticket {
    var attrs: map<string, Value>
    var fields: set<string>

    /** Every recorded field name is an attribute. */
    ghost predicate Valid()
      reads this
    {
      fields <= attrs.Keys
    }

    constructor ()
      ensures attrs == TicketInit && fields == {}
      ensures Valid()
    {
      attrs := TicketInit;
      fields := {};
    }

    /** Flat hydration from the children of `node`, recording the field names when `recordFields`. */
    method Hydrate(node: Node, recordFields: bool) returns (err: Option<Error>)
      modifies this
      ensures attrs == Assign(old(attrs), Fields(node).pairs)
      ensures fields == if recordFields then old(fields) + Keys(Fields(node).pairs) else old(fields)
      ensures err == Fields(node).err
      ensures old(Valid()) ==> Valid()
    {
      AssignKeys(attrs, Fields(node).pairs);
      attrs, fields, err := HydrateFlat(node, attrs, fields, recordFields);
    }

    /** `to_json_obj`: the recorded fields with their values. */
    function ToJsonObj(): (r: map<string, Value>)
      reads this
      requires Valid()
      ensures r.Keys == fields
      ensures forall f :: f in r ==> r[f] == attrs[f]
    {
      JsonObj(Bag(attrs, fields))
    }
  }

  /** A member of a project; sub-blocks of its record become dictionaries. */
  class Member {
    var attrs: map<string, Value>
    var fields: set<string>

    constructor ()
      ensures attrs == map[] && fields == {}
    {
      attrs := map[];
      fields := {};
    }

    /** Nested hydration from the children of `node`. */
    method Hydrate(node: Node) returns (err: Option<Error>)
      modifies this
      ensures attrs == Assign(old(attrs), MemberFields(node).pairs)
      ensures fields == old(fields) + Keys(MemberFields(node).pairs)
      ensures err == MemberFields(node).err
    {
      attrs, fields, err := HydrateMember(node, attrs, fields);
    }

    /** The member as a value: its attributes and field names. */
    ghost function View(): Bag
      reads this
    {
      Bag(attrs, fields)
    }
  }

  /** The user the client's token belongs to. */
  class User {
    var attrs: map<string, Value>
    var fields: set<string>

    constructor ()
      ensures attrs == map[] && fields == {}
    {
      attrs := map[];
      fields := {};
    }

    /** Flat hydration from the children of `node`, recording the field names. */
    method Hydrate(node: Node) returns (err: Option<Error>)
      modifies this
      ensures attrs == Assign(old(attrs), Fields(node).pairs)
      ensures fields == old(fields) + Keys(Fields(node).pairs)
      ensures err == Fields(node).err
    {
      attrs, fields, err := HydrateFlat(node, attrs, fields, true);
    }
  }

  /** A project, with its tickets keyed by number and its members in fetch order. */
  class Project {
    var attrs: map<string, Value>
    var tickets: map<Value, Ticket>
    var members: seq<Member>

    constructor ()
      ensures attrs == ProjectInit && tickets == map[] && members == []
    {
      attrs := ProjectInit;
      tickets := map[];
      members := [];
    }

    /** Flat hydration from the children of `node`; no field names are recorded. */
    method Hydrate(node: Node) returns (err: Option<Error>)
      modifies this`attrs
      ensures attrs == Assign(old(attrs), Fields(node).pairs)
      ensures err == Fields(node).err
    {
      var fs;
      attrs, fs, err := HydrateFlat(node, attrs, {}, false);
    }

    /** The tickets as values: each number with its ticket's attributes and field names. */
    ghost function TicketView(): map<Value, Bag>
      reads this, tickets.Values
    {
      map k | k in tickets :: Bag(tickets[k].attrs, tickets[k].fields)
    }

  }

  /** The members from position `n` on are exactly `bags`, as values, in order. */
  ghost predicate Appended(ms: seq<Member>, n: nat, bags: seq<Bag>)
    reads ms
  {
    n + |bags| == |ms| && forall j :: 0 <= j < |bags| ==> ms[n + j].View() == bags[j]
  }

  lemma AppendedSnoc(ms: seq<Member>, n: nat, bags: seq<Bag>, m: Member)
    requires Appended(ms, n, bags)
    ensures Appended(ms + [m], n, bags + [m.View()])
  {
  }

  /** A new ticket hydrated from `node`, recording the field names when `recordFields`. */
  method NewTicket(node: Node, recordFields: bool) returns (t: Ticket, err: Option<Error>)
    ensures fresh(t)
    ensures t.attrs == Assign(TicketInit, Fields(node).pairs)
    ensures t.fields == if recordFields then Keys(Fields(node).pairs) else {}
    ensures err == Fields(node).err
  {
    t := new Ticket();
    err := t.Hydrate(node, recordFields);
  }

  /** A new member hydrated from `node`. */
  method NewMember(node: Node) returns (m: Member, err: Option<Error>)
    ensures fresh(m)
    ensures m.attrs == Assign(map[], MemberFields(node).pairs)
    ensures m.fields == Keys(MemberFields(node).pairs)
    ensures err == MemberFields(node).err
  {
    m := new Member();
    err := m.Hydrate(node);
  }

  /** A new project hydrated from `node`, with no tickets and no members. */
  method NewProject(node: Node) returns (p: Project, err: Option<Error>)
    ensures fresh(p)
    ensures p.attrs == Assign(ProjectInit, Fields(node).pairs)
    ensures p.tickets == map[] && p.members == []
    ensures err == Fields(node).err
  {
    p := new Project();
    err := p.Hydrate(node);
  }
}
