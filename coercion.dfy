/**
 Field coercion: one parsed node becomes a (name, value, declared type)
 triple. The value is chosen by the node's `type` attribute: `array`
 recurses into the items, `datetime` passes the text through, and any
 other declared type goes to the converter registered for it. The
 registry is a closed table standing in for the lookup of
 `parse_<type>` among the module's globals.
 */
module Coercion {
  import opened Wrappers
  import opened Errors
  import opened Xml
  import opened Values
  import opened Assoc
  import Decimal

  datatype Field = Field(name: string, value: Value, tag: Option<string>)

  /** The converters a `parse_<type>` lookup can find. */
  datatype Converter = StringConverter | BooleanConverter | IntegerConverter | NilConverter | FieldConverter

  /**
   `string` and `yaml` are `str`; `boolean`, `integer` and `nil` have
   their own; `field` finds `parse_field` itself. Nothing else is
   registered (`xml`, which would find the XML parser, is not part of
   this model).
   */
  function Registry(tag: string): Option<Converter> {
    if tag == "string" || tag == "yaml" then Some(StringConverter)
    else if tag == "boolean" then Some(BooleanConverter)
    else if tag == "integer" then Some(IntegerConverter)
    else if tag == "nil" then Some(NilConverter)
    else if tag == "field" then Some(FieldConverter)
    else None
  }

  /** `parse_boolean`: membership in the truthy tokens. */
  function ParseBoolean(d: string): bool {
    d == "true" || d == "True" || d == "1"
  }

  /** `parse_integer`: None for the empty text, otherwise `int(d, 10)`. */
  function ParseInteger(d: string): Result<Value> {
    if d == "" then Success(VNone)
    else
      match Decimal.ParseInt(d)
      case None => Failure(InvalidLiteral(d))
      case Some(i) => Success(VInt(i))
  }

  /**
   Calls the converter on the cdata. `parse_nil` accepts no argument, so
   it always fails here; `parse_field` given text fails on its first
   `.get`, which a string does not have.
   */
  function Convert(c: Converter, d: string): Result<Value> {
    match c
    case StringConverter => Success(VStr(d))
    case BooleanConverter => Success(VBool(ParseBoolean(d)))
    case IntegerConverter => ParseInteger(d)
    case NilConverter => Failure(NilTakesNoValue)
    case FieldConverter => Failure(AttributeError("get"))
  }

  /** `attributes.get('type')`, where an absent attribute map reads as empty. */
  function DeclaredType(f: Node): Option<string> {
    if "type" in f.attributes then Some(f.attributes["type"]) else None
  }

  /** The cdata as it stands, or None. */
  function RawValue(cdata: Option<string>): Value {
    if cdata.Some? then VStr(cdata.value) else VNone
  }

  /** Hyphens in a field name become underscores. */
  function Normalize(name: string): (r: string)
    ensures |r| == |name|
    ensures forall i :: 0 <= i < |name| ==> r[i] == (if name[i] == '-' then '_' else name[i])
  {
    if name == [] then []
    else [if name[0] == '-' then '_' else name[0]] + Normalize(name[1..])
  }

  /** `parse_field`. */
  function ParseField(f: Node): (r: Result<Field>)
    ensures r.Success? ==> r.value.name == f.name && r.value.tag == DeclaredType(f)
    decreases f, 3, 0
  {
    var tag := DeclaredType(f);
    if tag == Some("array") then
      var items :- ParseArray(f);
      Success(Field(f.name, VList(items), tag))
    else if tag.Some? && tag.value != "" && f.cdata.Some? then
      if tag.value == "datetime" then
        Success(Field(f.name, VStr(f.cdata.value), tag))
      else
        match Registry(tag.value)
        case None => Failure(NoConverter(tag.value))
        case Some(c) =>
          var v :- Convert(c, f.cdata.value);
          Success(Field(f.name, v, tag))
    else
      Success(Field(f.name, RawValue(f.cdata), tag))
  }

  /** `parse_array`: one dictionary per child item, built from the item's own fields. */
  function ParseArray(f: Node): Result<seq<map<string, Value>>>
    decreases f, 2, 0
  {
    if f.children.Absent? then Failure(KeyError("children"))
    else ArrayItems(f, |f.children.nodes|)
  }

  /** The dictionaries of the first `k` items of an array node. */
  function ArrayItems(f: Node, k: nat): Result<seq<map<string, Value>>>
    requires f.children.Present? && k <= |f.children.nodes|
    decreases f, 1, k
  {
    if k == 0 then Success([])
    else
      var prev :- ArrayItems(f, k - 1);
      var scan := Fields(f.children.nodes[k - 1]);
      if scan.err.Some? then Failure(scan.err.value)
      else Success(prev + [Assign(map[], scan.pairs)])
  }

  /**
   The loop `for field in node['children']` that coerces each child and
   writes it under its normalised name: the pairs it writes and the
   error that stops it.
   */
  function Fields(n: Node): Scan<string, Value>
    decreases n, 1, 0
  {
    if n.children.Absent? then Scan([], Some(KeyError("children")))
    else Coerced(n, |n.children.nodes|)
  }

  /** The same loop over the first `k` children only. */
  function Coerced(n: Node, k: nat): Scan<string, Value>
    requires n.children.Present? && k <= |n.children.nodes|
    decreases n, 0, k
  {
    if k == 0 then Scan([], None)
    else
      var prev := Coerced(n, k - 1);
      if prev.err.Some? then prev
      else
        match ParseField(n.children.nodes[k - 1])
        case Failure(e) => Scan(prev.pairs, Some(e))
        case Success(field) => Scan(prev.pairs + [(Normalize(field.name), field.value)], None)
  }
}
