/** The wire shapes the query-construction layer emits: values, selections and
    operations, as the engine's `prisma_models` and `query_core` crates define
    them, reduced to what the many-query translation needs. */
module QueryCore {

  datatype Option<T> = None | Some(value: T)

  /** A signed 64-bit integer, the width of Rust's `i64`. */
  newtype Int64 = x: int | -0x8000_0000_0000_0000 <= x < 0x8000_0000_0000_0000

  /** A queryable value. `PrismaValue` and `QueryValue` are both this type,
      and the model takes the conversion between them to be the identity; the
      conversion itself is not part of this model. `Other` stands for every
      leaf this layer never inspects (floats, dates, enums, bytes, ...). */
  datatype Value =
    | Null
    | Boolean(b: bool)
    | Int(i: Int64)
    | String(s: string)
    | List(items: seq<Value>)
    | Object(entries: seq<(string, Value)>)
    | Other(tag: nat)

  /** A named argument of a selection, or one entry of an object. */
  type Argument = (string, Value)

  /** A node of the query tree: a field name, an optional result alias, its
      arguments in the order they were pushed, and its child fields. */
  datatype Selection = Selection(
    name: string,
    alias: Option<string>,
    arguments: seq<Argument>,
    children: seq<Selection>)

  /** The unit handed to the engine. */
  datatype Operation = Read(selection: Selection) | Write(selection: Selection)

  /** `xs.into_iter().map(f).collect()`: one image per element, in order. */
  function MapSeq<A, B>(f: A -> B, xs: seq<A>): (r: seq<B>)
    ensures |r| == |xs|
    ensures forall i :: 0 <= i < |xs| ==> r[i] == f(xs[i])
  {
    if |xs| == 0 then [] else [f(xs[0])] + MapSeq(f, xs[1..])
  }

  /** The value of the first argument called `key`, if there is one. */
  function Lookup(args: seq<Argument>, key: string): (r: Option<Value>)
    ensures r.Some? <==> exists i :: 0 <= i < |args| && args[i].0 == key
    ensures r.Some? ==> exists i :: 0 <= i < |args| && args[i] == (key, r.value)
  {
    if |args| == 0 then None
    else if args[0].0 == key then Some(args[0].1)
    else
      var r := Lookup(args[1..], key);
      assert forall i :: 1 <= i < |args| ==> args[i] == args[1..][i - 1];
      r
  }

  /** Looking up in a concatenation finds the left part's argument first. */
  lemma {:induction false} LookupAppend(a: seq<Argument>, b: seq<Argument>, key: string)
    ensures Lookup(a + b, key) == if Lookup(a, key).Some? then Lookup(a, key) else Lookup(b, key)
  {
    if |a| == 0 {
      assert a + b == b;
    } else {
      assert (a + b)[0] == a[0];
      assert (a + b)[1..] == a[1..] + b;
      LookupAppend(a[1..], b, key);
    }
  }

  /** query_core's `SelectionBuilder`: a selection under construction, changed
      in place by `alias`, `push_argument` and `nested_selections` and frozen
      by `build`. */
  class SelectionBuilder {
    var name: string
    var alias: Option<string>
    var arguments: seq<Argument>
    var nestedSelections: seq<Selection>

    /** `Selection::builder(name)`: a bare node. */
    constructor (name: string)
      ensures this.name == name && alias == None
      ensures arguments == [] && nestedSelections == []
    {
      this.name := name;
      alias := None;
      arguments := [];
      nestedSelections := [];
    }

    method Alias(a: string)
      modifies this
      ensures alias == Some(a)
      ensures name == old(name) && arguments == old(arguments)
      ensures nestedSelections == old(nestedSelections)
    {
      alias := Some(a);
    }

    /** Appends one argument; an earlier argument of the same name stays. */
    method PushArgument(key: string, value: Value)
      modifies this
      ensures arguments == old(arguments) + [(key, value)]
      ensures name == old(name) && alias == old(alias)
      ensures nestedSelections == old(nestedSelections)
    {
      arguments := arguments + [(key, value)];
    }

    /** Appends child fields after the ones already there. */
    method NestedSelections(children: seq<Selection>)
      modifies this
      ensures nestedSelections == old(nestedSelections) + children
      ensures name == old(name) && alias == old(alias) && arguments == old(arguments)
    {
      nestedSelections := nestedSelections + children;
    }

    /** Freezes the builder into an immutable selection. */
    function Build(): (s: Selection)
      reads this
      ensures s.name == name && s.alias == alias
      ensures s.arguments == arguments && s.children == nestedSelections
    {
      Selection(name, alias, arguments, nestedSelections)
    }
  }
}
