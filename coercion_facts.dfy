/** What field coercion guarantees, stated over all nodes. */
module CoercionFacts {
  import opened Wrappers
  import opened Errors
  import opened Xml
  import opened Values
  import opened Assoc
  import opened Coercion
  import Decimal

  /** A node declaring `type` = `tag` with the given text body. */
  predicate Declares(f: Node, tag: string, cdata: Option<string>) {
    DeclaredType(f) == Some(tag) && f.cdata == cdata
  }

  /** A boolean field is true exactly for the tokens 'true', 'True' and '1', false for any other text, and never fails. */
  lemma BooleanField(f: Node, d: string)
    requires Declares(f, "boolean", Some(d))
    ensures ParseField(f).Success?
    ensures ParseField(f).value.value == VBool(d == "true" || d == "True" || d == "1")
  {
  }

  /**
   An integer field is None for empty text and otherwise the integer the
   literal denotes; it fails exactly on text that is not a literal, and
   reads back any integer `str` wrote.
   */
  lemma IntegerField(f: Node, d: string)
    requires Declares(f, "integer", Some(d))
    ensures ParseField(f).Success? <==> d == "" || Decimal.IsLiteral(d)
    ensures d == "" ==> ParseField(f).value.value == VNone
    ensures ParseField(f).Failure? ==> ParseField(f).error == InvalidLiteral(d)
    ensures forall i :: d == Decimal.IntToString(i) ==> ParseField(f) == Success(Field(f.name, VInt(i), Some("integer")))
  {
    Decimal.ParseIntAccepts(d);
    forall i | d == Decimal.IntToString(i)
      ensures ParseField(f) == Success(Field(f.name, VInt(i), Some("integer")))
    {
      Decimal.IntRoundTrip(i);
    }
  }

  /**
   An integer field whose text has leading zeros or a sign holds the
   integer the digits denote, negated under '-'.
   */
  lemma IntegerFieldPadded(f: Node, d: string)
    requires Declares(f, "integer", Some(d))
    ensures forall k: nat, n: nat :: d == Decimal.Zeros(k) + Decimal.Digits(n) ==>
      ParseField(f) == Success(Field(f.name, VInt(n), Some("integer")))
    ensures forall k: nat, n: nat :: d == "+" + Decimal.Zeros(k) + Decimal.Digits(n) ==>
      ParseField(f) == Success(Field(f.name, VInt(n), Some("integer")))
    ensures forall k: nat, n: nat :: d == "-" + Decimal.Zeros(k) + Decimal.Digits(n) ==>
      ParseField(f) == Success(Field(f.name, VInt(-(n as int)), Some("integer")))
  {
    forall k: nat, n: nat | d == Decimal.Zeros(k) + Decimal.Digits(n) || d == "+" + Decimal.Zeros(k) + Decimal.Digits(n) || d == "-" + Decimal.Zeros(k) + Decimal.Digits(n)
      ensures d == Decimal.Zeros(k) + Decimal.Digits(n) ==> ParseField(f) == Success(Field(f.name, VInt(n), Some("integer")))
      ensures d == "+" + Decimal.Zeros(k) + Decimal.Digits(n) ==> ParseField(f) == Success(Field(f.name, VInt(n), Some("integer")))
      ensures d == "-" + Decimal.Zeros(k) + Decimal.Digits(n) ==> ParseField(f) == Success(Field(f.name, VInt(-(n as int)), Some("integer")))
    {
      Decimal.PaddedLiteral(k, n);
    }
  }

  /** A nil field yields None when it has no text; with text present the argument-less `parse_nil` fails. */
  lemma NilField(f: Node)
    requires DeclaredType(f) == Some("nil")
    ensures f.cdata.None? ==> ParseField(f) == Success(Field(f.name, VNone, Some("nil")))
    ensures f.cdata.Some? ==> ParseField(f) == Failure(NilTakesNoValue)
  {
  }

  /** Whether converting `d` under a declared (non-array, non-datetime) `tag` fails. */
  ghost predicate ConversionFails(tag: string, d: string) {
    tag !in {"string", "yaml", "boolean", "integer", "nil", "field"}
    || tag == "nil" || tag == "field"
    || (tag == "integer" && d != "" && !Decimal.IsLiteral(d))
  }

  /**
   When parse_field fails: an array whose items cannot be parsed, or a
   declared type (not array, not datetime, not empty) with text present
   whose converter is missing or rejects the text. Without text no
   converter is ever called.
   */
  lemma ParseFieldFails(f: Node)
    ensures ParseField(f).Failure? <==>
      if DeclaredType(f) == Some("array") then ParseArray(f).Failure?
      else DeclaredType(f).Some? && DeclaredType(f).value !in {"", "datetime"} && f.cdata.Some?
           && ConversionFails(DeclaredType(f).value, f.cdata.value)
  {
    if f.cdata.Some? {
      Decimal.ParseIntAccepts(f.cdata.value);
    }
  }

  /** The value parse_field returns when it succeeds, by the declared type. */
  lemma ParseFieldValue(f: Node)
    requires ParseField(f).Success?
    ensures var v := ParseField(f).value.value;
      && (DeclaredType(f) == Some("array") ==> v == VList(ParseArray(f).value))
      && (DeclaredType(f) == Some("datetime") && f.cdata.Some? ==> v == VStr(f.cdata.value))
      && (DeclaredType(f) in {Some("string"), Some("yaml")} && f.cdata.Some? ==> v == VStr(f.cdata.value))
      && (DeclaredType(f) != Some("array") && f.cdata.None? ==> v == VNone)
      && (DeclaredType(f) in {None, Some("")} ==> v == RawValue(f.cdata))
  {
  }

  /** The coercion loop takes child `i` by what `parse_field` makes of it. */
  lemma CoercedStep(n: Node, i: nat, pairs: seq<(string, Value)>, r: Result<Field>)
    requires n.children.Present? && i < |n.children.nodes|
    requires Coerced(n, i) == Scan(pairs, None) && r == ParseField(n.children.nodes[i])
    ensures Coerced(n, i + 1) ==
      if r.Failure? then Scan(pairs, Some(r.error)) else Scan(pairs + [(Normalize(r.value.name), r.value.value)], None)
  {
  }

  /** Once the coercion loop has failed it stays failed: later children are never looked at. */
  lemma {:induction false} CoercedSticks(n: Node, i: nat, j: nat)
    requires n.children.Present? && i <= j <= |n.children.nodes|
    requires Coerced(n, i).err.Some?
    ensures Coerced(n, j) == Coerced(n, i)
    decreases j
  {
    if j > i {
      CoercedSticks(n, i, j - 1);
    }
  }

  /**
   The coercion loop over the first `k` children, when it does not fail,
   writes one pair per child, in order: the child's normalised name and
   its coerced value.
   */
  lemma {:induction false} CoercedAll(n: Node, k: nat)
    requires n.children.Present? && k <= |n.children.nodes|
    requires Coerced(n, k).err.None?
    ensures |Coerced(n, k).pairs| == k
    ensures forall i :: 0 <= i < k ==>
      ParseField(n.children.nodes[i]).Success? &&
      Coerced(n, k).pairs[i] == (Normalize(n.children.nodes[i].name), ParseField(n.children.nodes[i]).value.value)
    decreases k
  {
    if k > 0 {
      CoercedAll(n, k - 1);
    }
  }

  /** The coercion loop fails exactly when some child among the first `k` fails, and then with the first such child's error. */
  lemma {:induction false} CoercedFails(n: Node, k: nat)
    requires n.children.Present? && k <= |n.children.nodes|
    ensures Coerced(n, k).err.Some? <==> exists i :: 0 <= i < k && ParseField(n.children.nodes[i]).Failure?
    ensures Coerced(n, k).err.Some? ==>
      exists i :: (0 <= i < k
        && ParseField(n.children.nodes[i]) == Failure(Coerced(n, k).err.value)
        && forall j :: 0 <= j < i ==> ParseField(n.children.nodes[j]).Success?)
    decreases k
  {
    if k > 0 {
      CoercedFails(n, k - 1);
      var f := n.children.nodes[k - 1];
      if Coerced(n, k - 1).err.Some? {
        assert Coerced(n, k) == Coerced(n, k - 1);
      } else {
        CoercedAll(n, k - 1);
        if ParseField(f).Failure? {
          assert Coerced(n, k).err == Some(ParseField(f).error);
          assert forall j :: 0 <= j < k - 1 ==> ParseField(n.children.nodes[j]).Success?;
        } else {
          assert Coerced(n, k).err.None?;
          forall i | 0 <= i < k
            ensures ParseField(n.children.nodes[i]).Success?
          {
            if i == k - 1 {
              assert n.children.nodes[i] == f;
            }
          }
        }
      }
    }
  }

  /** No name the coercion loop writes contains a hyphen. */
  lemma {:induction false} CoercedNamesNormal(n: Node, k: nat)
    requires n.children.Present? && k <= |n.children.nodes|
    ensures forall p :: p in Coerced(n, k).pairs ==> '-' !in p.0
    decreases k
  {
    if k > 0 {
      CoercedNamesNormal(n, k - 1);
    }
  }

  /**
   parse_array succeeds exactly when the node has a children entry and
   every item's own fields coerce; then it returns one dictionary per
   item, in item order, built from that item's normalised field names.
   */
  lemma ParseArrayItems(f: Node)
    ensures ParseArray(f).Success? <==>
      f.children.Present? && forall i :: 0 <= i < |f.children.nodes| ==> Fields(f.children.nodes[i]).err.None?
    ensures ParseArray(f).Success? ==>
      var r := ParseArray(f).value;
      && |r| == |f.children.nodes|
      && forall i :: 0 <= i < |r| ==> r[i] == Assign(map[], Fields(f.children.nodes[i]).pairs)
  {
    if f.children.Present? {
      ArrayItemsSucceed(f, |f.children.nodes|);
      if ParseArray(f).Success? {
        ArrayItemsAll(f, |f.children.nodes|);
      }
    }
  }

  lemma {:induction false} ArrayItemsSucceed(f: Node, k: nat)
    requires f.children.Present? && k <= |f.children.nodes|
    ensures ArrayItems(f, k).Success? <==> forall i :: 0 <= i < k ==> Fields(f.children.nodes[i]).err.None?
    decreases k
  {
    if k > 0 {
      ArrayItemsSucceed(f, k - 1);
    }
  }

  lemma {:induction false} ArrayItemsAll(f: Node, k: nat)
    requires f.children.Present? && k <= |f.children.nodes| && ArrayItems(f, k).Success?
    ensures |ArrayItems(f, k).value| == k
    ensures forall i :: 0 <= i < k ==> ArrayItems(f, k).value[i] == Assign(map[], Fields(f.children.nodes[i]).pairs)
    decreases k
  {
    if k > 0 {
      ArrayItemsAll(f, k - 1);
    }
  }


  /** An array node with an empty item list is the empty list, whatever its text; one with no children entry fails. */
  lemma EmptyArray(f: Node)
    requires DeclaredType(f) == Some("array")
    ensures f.children == Present([]) ==> ParseField(f) == Success(Field(f.name, VList([]), Some("array")))
    ensures f.children.Absent? ==> ParseField(f) == Failure(KeyError("children"))
  {
    if f.children == Present([]) {
      assert ArrayItems(f, 0) == Success([]);
    }
  }
}
