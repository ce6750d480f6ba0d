/** The many-query builders of `src/queries/find_many.rs`: `FindMany`, which
    accumulates where, with, order-by, cursor, skip and take parameters and
    finalizes them into a `findMany<Model>` read operation, and `ManyArgs`,
    which accumulates the same parameters and yields an argument list and
    nested selections for a relation field. */
module Queries {
  import opened QueryCore

  /** A where-clause once the caller's type has serialized it. */
  datatype SerializedWhere = SerializedWhere(field: string, value: Value) {
    function ToPair(): Argument { (field, value) }
  }

  /** What the schema layer supplies for a model: its name and the scalar
      fields fetched by default. */
  datatype QueryInfo = QueryInfo(model: string, scalarSelections: seq<Selection>)

  /** The caller-defined `Into` conversions of the generic parameter types:
      `Where: Into<SerializedWhere>`, `With: Into<Selection>`, and
      `OrderBy`, `Cursor: Into<(String, PrismaValue)>`. */
  datatype Conversions<-W, -Wi, -O, -C> = Conversions(
    serializeWhere: W -> SerializedWhere,
    withSelection: Wi -> Selection,
    orderByPair: O -> Argument,
    cursorPair: C -> Argument)

  /** The arguments handed to `UpdateMany::new`, `DeleteMany::new` and
      `Count::new`, and to `Select::new`. */
  datatype UpdateManyQuery<Ctx, W, S> =
    UpdateManyQuery(ctx: Ctx, info: QueryInfo, whereParams: seq<W>, data: seq<S>)
  datatype DeleteManyQuery<Ctx, W> =
    DeleteManyQuery(ctx: Ctx, info: QueryInfo, whereParams: seq<W>)
  datatype CountQuery<Ctx, W> =
    CountQuery(ctx: Ctx, info: QueryInfo, whereParams: seq<W>)
  datatype SelectQuery<Ctx> = SelectQuery(ctx: Ctx, operation: Operation)

  /** The crate's result type, with the engine's error left abstract. */
  datatype Result<T, E> = Ok(value: T) | Err(error: E)

  /** The where-list as (field, value) pairs, in call order. */
  function WherePairs<W, Wi, O, C>(conv: Conversions<W, Wi, O, C>, wheres: seq<W>): (pairs: seq<Argument>)
    ensures |pairs| == |wheres|
    ensures forall i :: 0 <= i < |wheres| ==>
      pairs[i].0 == conv.serializeWhere(wheres[i]).field &&
      pairs[i].1 == conv.serializeWhere(wheres[i]).value
  {
    MapSeq((w: W) => conv.serializeWhere(w).ToPair(), wheres)
  }

  /** `PrismaValue::Object(pairs)`: the pairs as they are, no merging. */
  function PlainObject(pairs: seq<Argument>): Value
  {
    Object(pairs)
  }

  /** One argument when `present`, none otherwise. */
  function OptionalArgument(present: bool, key: string, value: Value): seq<Argument>
  {
    if present then [(key, value)] else []
  }

  /** The argument list both builders emit. `whereObject` turns the where
      pairs into one value: `merged_object` for `FindMany`, `PlainObject` for
      `ManyArgs`. */
  function QueryArguments<W, Wi, O, C>(
    conv: Conversions<W, Wi, O, C>, whereObject: seq<Argument> -> Value,
    wheres: seq<W>, orders: seq<O>, cursors: seq<C>,
    skip: Option<Int64>, take: Option<Int64>): seq<Argument>
  {
    OptionalArgument(|wheres| > 0, "where", whereObject(WherePairs(conv, wheres)))
    + OptionalArgument(|orders| > 0, "orderBy", Object(MapSeq(conv.orderByPair, orders)))
    + OptionalArgument(|cursors| > 0, "cursor", Object(MapSeq(conv.cursorPair, cursors)))
    + OptionalArgument(skip.Some?, "skip", if skip.Some? then Int(skip.value) else Null)
    + OptionalArgument(take.Some?, "take", if take.Some? then Int(take.value) else Null)
  }

  /** Position of each argument name in the order the builders push them;
      5 for any other name. */
  function ArgumentRank(key: string): nat
  {
    if key == "where" then 0
    else if key == "orderBy" then 1
    else if key == "cursor" then 2
    else if key == "skip" then 3
    else if key == "take" then 4
    else 5
  }

  /** Only the five known names, each at most once, in rank order. */
  ghost predicate InArgumentOrder(args: seq<Argument>)
  {
    && (forall i :: 0 <= i < |args| ==> ArgumentRank(args[i].0) < 5)
    && (forall i, j :: 0 <= i < j < |args| ==> ArgumentRank(args[i].0) < ArgumentRank(args[j].0))
  }

  /** The ranks of `args` start at `floor` or above, rise strictly, and stay
      below 5; the recursive form of `InArgumentOrder`. */
  ghost predicate RanksAscend(args: seq<Argument>, floor: nat)
    decreases |args|
  {
    |args| == 0 ||
    (floor <= ArgumentRank(args[0].0) < 5 && RanksAscend(args[1..], ArgumentRank(args[0].0) + 1))
  }

  lemma {:induction false} RanksAscendInOrder(args: seq<Argument>, floor: nat)
    requires RanksAscend(args, floor)
    ensures InArgumentOrder(args)
    ensures forall i :: 0 <= i < |args| ==> floor <= ArgumentRank(args[i].0)
    decreases |args|
  {
    if |args| > 0 {
      var rest := args[1..];
      RanksAscendInOrder(rest, ArgumentRank(args[0].0) + 1);
      assert forall i :: 1 <= i < |args| ==> args[i] == rest[i - 1];
    }
  }

  /** Putting an optional argument in front of arguments that rank above it. */
  lemma PrependOptional(present: bool, name: string, value: Value, rest: seq<Argument>, floor: nat)
    requires floor <= ArgumentRank(name) < 5
    requires RanksAscend(rest, ArgumentRank(name) + 1)
    ensures RanksAscend(OptionalArgument(present, name, value) + rest, floor)
  {
    var s := OptionalArgument(present, name, value) + rest;
    if present {
      assert s[0] == (name, value) && s[1..] == rest;
    } else {
      assert s == rest;
      RanksAscendWeaken(rest, ArgumentRank(name) + 1, floor);
    }
  }

  lemma RanksAscendWeaken(args: seq<Argument>, floor: nat, lower: nat)
    requires lower <= floor && RanksAscend(args, floor)
    ensures RanksAscend(args, lower)
  {
  }

  lemma OptionalArgumentLookup(present: bool, name: string, value: Value, key: string)
    ensures Lookup(OptionalArgument(present, name, value), key) ==
      if present && name == key then Some(value) else None
  {
  }

  /** Each argument is present exactly when its parameter is non-empty or set,
      with the value the builder computes from it; no other name occurs. */
  lemma ArgumentLookup<W, Wi, O, C>(
    conv: Conversions<W, Wi, O, C>, whereObject: seq<Argument> -> Value,
    wheres: seq<W>, orders: seq<O>, cursors: seq<C>,
    skip: Option<Int64>, take: Option<Int64>, key: string)
    ensures Lookup(QueryArguments(conv, whereObject, wheres, orders, cursors, skip, take), key) ==
      if key == "where" then
        (if |wheres| > 0 then Some(whereObject(WherePairs(conv, wheres))) else None)
      else if key == "orderBy" then
        (if |orders| > 0 then Some(Object(MapSeq(conv.orderByPair, orders))) else None)
      else if key == "cursor" then
        (if |cursors| > 0 then Some(Object(MapSeq(conv.cursorPair, cursors))) else None)
      else if key == "skip" then
        (if skip.Some? then Some(Int(skip.value)) else None)
      else if key == "take" then
        (if take.Some? then Some(Int(take.value)) else None)
      else None
  {
    var a := OptionalArgument(|wheres| > 0, "where", whereObject(WherePairs(conv, wheres)));
    var b := OptionalArgument(|orders| > 0, "orderBy", Object(MapSeq(conv.orderByPair, orders)));
    var c := OptionalArgument(|cursors| > 0, "cursor", Object(MapSeq(conv.cursorPair, cursors)));
    var d := OptionalArgument(skip.Some?, "skip", if skip.Some? then Int(skip.value) else Null);
    var e := OptionalArgument(take.Some?, "take", if take.Some? then Int(take.value) else Null);
    LookupAppend(a + b + c + d, e, key);
    LookupAppend(a + b + c, d, key);
    LookupAppend(a + b, c, key);
    LookupAppend(a, b, key);
    OptionalArgumentLookup(|wheres| > 0, "where", whereObject(WherePairs(conv, wheres)), key);
    OptionalArgumentLookup(|orders| > 0, "orderBy", Object(MapSeq(conv.orderByPair, orders)), key);
    OptionalArgumentLookup(|cursors| > 0, "cursor", Object(MapSeq(conv.cursorPair, cursors)), key);
    OptionalArgumentLookup(skip.Some?, "skip", if skip.Some? then Int(skip.value) else Null, key);
    OptionalArgumentLookup(take.Some?, "take", if take.Some? then Int(take.value) else Null, key);
  }

  /** The arguments come in the order where, orderBy, cursor, skip, take, so
      no name is pushed twice; there are as many as parameters that are set. */
  lemma ArgumentsInOrder<W, Wi, O, C>(
    conv: Conversions<W, Wi, O, C>, whereObject: seq<Argument> -> Value,
    wheres: seq<W>, orders: seq<O>, cursors: seq<C>,
    skip: Option<Int64>, take: Option<Int64>)
    ensures var args := QueryArguments(conv, whereObject, wheres, orders, cursors, skip, take);
      && InArgumentOrder(args)
      && (forall i, j :: 0 <= i < j < |args| ==> args[i].0 != args[j].0)
      && |args| == (if |wheres| > 0 then 1 else 0) + (if |orders| > 0 then 1 else 0)
                 + (if |cursors| > 0 then 1 else 0) + (if skip.Some? then 1 else 0)
                 + (if take.Some? then 1 else 0)
  {
    OptionalArgumentsInOrder(
      |wheres| > 0, whereObject(WherePairs(conv, wheres)),
      |orders| > 0, Object(MapSeq(conv.orderByPair, orders)),
      |cursors| > 0, Object(MapSeq(conv.cursorPair, cursors)),
      skip.Some?, if skip.Some? then Int(skip.value) else Null,
      take.Some?, if take.Some? then Int(take.value) else Null);
    DistinctNames(QueryArguments(conv, whereObject, wheres, orders, cursors, skip, take));
  }

  /** The five optional arguments, each present or not, in argument order. */
  lemma OptionalArgumentsInOrder(
    pw: bool, w: Value, po: bool, o: Value, pc: bool, c: Value,
    ps: bool, s: Value, pt: bool, t: Value)
    ensures var args := OptionalArgument(pw, "where", w) + OptionalArgument(po, "orderBy", o)
      + OptionalArgument(pc, "cursor", c) + OptionalArgument(ps, "skip", s) + OptionalArgument(pt, "take", t);
      && InArgumentOrder(args)
      && |args| == (if pw then 1 else 0) + (if po then 1 else 0) + (if pc then 1 else 0)
                 + (if ps then 1 else 0) + (if pt then 1 else 0)
  {
    var a5 := OptionalArgument(pt, "take", t);
    var a4 := OptionalArgument(ps, "skip", s) + a5;
    var a3 := OptionalArgument(pc, "cursor", c) + a4;
    var a2 := OptionalArgument(po, "orderBy", o) + a3;
    var a1 := OptionalArgument(pw, "where", w) + a2;
    assert RanksAscend([], 5);
    PrependOptional(pt, "take", t, [], 4);
    assert a5 + [] == a5;
    PrependOptional(ps, "skip", s, a5, 3);
    PrependOptional(pc, "cursor", c, a4, 2);
    PrependOptional(po, "orderBy", o, a3, 1);
    PrependOptional(pw, "where", w, a2, 0);
    RanksAscendInOrder(a1, 0);
    var w1, o1, c1, s1 := OptionalArgument(pw, "where", w), OptionalArgument(po, "orderBy", o),
      OptionalArgument(pc, "cursor", c), OptionalArgument(ps, "skip", s);
    // (((w + o) + c) + s) + t regrouped to w + (o + (c + (s + t)))
    AppendAssociative(w1 + o1 + c1, s1, a5);
    AppendAssociative(w1 + o1, c1, s1 + a5);
    AppendAssociative(w1, o1, c1 + (s1 + a5));
    assert w1 + o1 + c1 + s1 + a5 == a1;
  }

  lemma AppendAssociative<T>(x: seq<T>, y: seq<T>, z: seq<T>)
    ensures x + y + z == x + (y + z)
  {
  }

  /** Names in argument order are pairwise different. */
  lemma DistinctNames(args: seq<Argument>)
    requires InArgumentOrder(args)
    ensures forall i, j :: 0 <= i < j < |args| ==> args[i].0 != args[j].0
  {
  }

  /** The `FindMany` builder. Its accumulating methods change the builder in
      place (`mut self`); its finalizing methods read it and build values. */
  class FindMany<Ctx, W, Wi, O, C, S> {
    var ctx: Ctx
    var info: QueryInfo
    var whereParams: seq<W>
    var withParams: seq<Wi>
    var orderByParams: seq<O>
    var cursorParams: seq<C>
    var skip: Option<Int64>
    var take: Option<Int64>

    /** `FindMany::new`: stores the where-list; everything else starts empty. */
    constructor (ctx: Ctx, info: QueryInfo, whereParams: seq<W>)
      ensures this.ctx == ctx && this.info == info && this.whereParams == whereParams
      ensures withParams == [] && orderByParams == [] && cursorParams == []
      ensures skip == None && take == None
    {
      this.ctx := ctx;
      this.info := info;
      this.whereParams := whereParams;
      withParams := [];
      orderByParams := [];
      cursorParams := [];
      skip := None;
      take := None;
    }

    method With(param: Wi)
      modifies this
      ensures withParams == old(withParams) + [param]
      ensures ctx == old(ctx) && info == old(info) && whereParams == old(whereParams)
      ensures orderByParams == old(orderByParams) && cursorParams == old(cursorParams)
      ensures skip == old(skip) && take == old(take)
    {
      withParams := withParams + [param];
    }

    method OrderBy(param: O)
      modifies this
      ensures orderByParams == old(orderByParams) + [param]
      ensures ctx == old(ctx) && info == old(info) && whereParams == old(whereParams)
      ensures withParams == old(withParams) && cursorParams == old(cursorParams)
      ensures skip == old(skip) && take == old(take)
    {
      orderByParams := orderByParams + [param];
    }

    method Cursor(param: C)
      modifies this
      ensures cursorParams == old(cursorParams) + [param]
      ensures ctx == old(ctx) && info == old(info) && whereParams == old(whereParams)
      ensures withParams == old(withParams) && orderByParams == old(orderByParams)
      ensures skip == old(skip) && take == old(take)
    {
      cursorParams := cursorParams + [param];
    }

    /** Overwrites any earlier skip; `Skip(0)` is set, not unset. */
    method Skip(n: Int64)
      modifies this
      ensures skip == Some(n)
      ensures ctx == old(ctx) && info == old(info) && whereParams == old(whereParams)
      ensures withParams == old(withParams) && orderByParams == old(orderByParams)
      ensures cursorParams == old(cursorParams) && take == old(take)
    {
      skip := Some(n);
    }

    /** Overwrites any earlier take. */
    method Take(n: Int64)
      modifies this
      ensures take == Some(n)
      ensures ctx == old(ctx) && info == old(info) && whereParams == old(whereParams)
      ensures withParams == old(withParams) && orderByParams == old(orderByParams)
      ensures cursorParams == old(cursorParams) && skip == old(skip)
    {
      take := Some(n);
    }

    /** Only the context, the model information and the where-list move on. */
    function Update(data: seq<S>): (u: UpdateManyQuery<Ctx, W, S>)
      reads this
      ensures u.ctx == ctx && u.info == info && u.data == data
      ensures |u.whereParams| == |whereParams|
      ensures forall i :: 0 <= i < |whereParams| ==> u.whereParams[i] == whereParams[i]
    {
      UpdateManyQuery(ctx, info, whereParams, data)
    }

    function Delete(): (d: DeleteManyQuery<Ctx, W>)
      reads this
      ensures d.ctx == ctx && d.info == info
      ensures |d.whereParams| == |whereParams|
      ensures forall i :: 0 <= i < |whereParams| ==> d.whereParams[i] == whereParams[i]
    {
      DeleteManyQuery(ctx, info, whereParams)
    }

    function Count(): (c: CountQuery<Ctx, W>)
      reads this
      ensures c.ctx == ctx && c.info == info
      ensures |c.whereParams| == |whereParams|
      ensures forall i :: 0 <= i < |whereParams| ==> c.whereParams[i] == whereParams[i]
    {
      CountQuery(ctx, info, whereParams)
    }

    /** `to_selection`: a builder named `findMany<model>`, aliased to
        `result`, carrying the arguments of `QueryArguments` with the where
        pairs handed to `merge` (the crate's `merged_object`). */
    static method ToSelection(
      conv: Conversions<W, Wi, O, C>, merge: seq<Argument> -> Value, model: string,
      wheres: seq<W>, orders: seq<O>, cursors: seq<C>, skip: Option<Int64>, take: Option<Int64>)
      returns (selection: SelectionBuilder)
      ensures fresh(selection)
      ensures selection.name == "findMany" + model && selection.alias == Some("result")
      ensures selection.arguments == QueryArguments(conv, merge, wheres, orders, cursors, skip, take)
      ensures selection.nestedSelections == []
    {
      selection := new SelectionBuilder("findMany" + model);
      selection.Alias("result");
      ghost var done := OptionalArgument(|wheres| > 0, "where", merge(WherePairs(conv, wheres)));
      if |wheres| > 0 {
        selection.PushArgument("where", merge(WherePairs(conv, wheres)));
      }
      assert selection.arguments == done;
      done := done + OptionalArgument(|orders| > 0, "orderBy", Object(MapSeq(conv.orderByPair, orders)));
      if |orders| > 0 {
        selection.PushArgument("orderBy", Object(MapSeq(conv.orderByPair, orders)));
      }
      assert selection.arguments == done;
      done := done + OptionalArgument(|cursors| > 0, "cursor", Object(MapSeq(conv.cursorPair, cursors)));
      if |cursors| > 0 {
        selection.PushArgument("cursor", Object(MapSeq(conv.cursorPair, cursors)));
      }
      assert selection.arguments == done;
      done := done + OptionalArgument(skip.Some?, "skip", if skip.Some? then Int(skip.value) else Null);
      if skip.Some? {
        selection.PushArgument("skip", Int(skip.value));
      }
      assert selection.arguments == done;
      done := done + OptionalArgument(take.Some?, "take", if take.Some? then Int(take.value) else Null);
      if take.Some? {
        selection.PushArgument("take", Int(take.value));
      }
      assert selection.arguments == done;
    }

    /** `select`: the projection's selections are the only children. */
    method Select(conv: Conversions<W, Wi, O, C>, merge: seq<Argument> -> Value, projection: seq<Selection>)
      returns (s: SelectQuery<Ctx>)
      ensures s.ctx == ctx
      ensures s.operation == Read(Selection(
        "findMany" + info.model, Some("result"),
        QueryArguments(conv, merge, whereParams, orderByParams, cursorParams, skip, take),
        projection))
    {
      var selection := ToSelection(conv, merge, info.model, whereParams, orderByParams, cursorParams, skip, take);
      selection.NestedSelections(projection);
      var op := Read(selection.Build());
      s := SelectQuery(ctx, op);
    }

    /** `exec_operation`: a read whose children are the model's scalar
        fields followed by the converted with-params, in call order. */
    method ExecOperation(conv: Conversions<W, Wi, O, C>, merge: seq<Argument> -> Value)
      returns (op: Operation, ctx': Ctx)
      ensures ctx' == ctx
      ensures op == Read(Selection(
        "findMany" + info.model, Some("result"),
        QueryArguments(conv, merge, whereParams, orderByParams, cursorParams, skip, take),
        info.scalarSelections + MapSeq(conv.withSelection, withParams)))
    {
      var model, scalarSelections := info.model, info.scalarSelections;
      var selection := ToSelection(conv, merge, model, whereParams, orderByParams, cursorParams, skip, take);
      if |withParams| > 0 {
        scalarSelections := scalarSelections + MapSeq(conv.withSelection, withParams);
      }
      selection.NestedSelections(scalarSelections);
      op := Read(selection.Build());
      ctx' := ctx;
    }

    /** `BatchQuery::graphql`: the operation of `exec_operation`, not run. */
    method Graphql(conv: Conversions<W, Wi, O, C>, merge: seq<Argument> -> Value) returns (op: Operation)
      ensures op == Read(Selection(
        "findMany" + info.model, Some("result"),
        QueryArguments(conv, merge, whereParams, orderByParams, cursorParams, skip, take),
        info.scalarSelections + MapSeq(conv.withSelection, withParams)))
    {
      var ctx';
      op, ctx' := ExecOperation(conv, merge);
    }

    /** `BatchQuery::convert`: the raw result is already the return type. */
    static function Convert<D, E>(raw: Result<D, E>): (r: Result<D, E>)
      ensures r == raw
    {
      raw
    }
  }

  /** `ManyArgs`: the parameters of a nested many-relation read. */
  class ManyArgs<W, Wi, O, C> {
    var whereParams: seq<W>
    var withParams: seq<Wi>
    var orderByParams: seq<O>
    var cursorParams: seq<C>
    var skip: Option<Int64>
    var take: Option<Int64>

    /** `ManyArgs::new`: stores the where-list; everything else starts empty. */
    constructor (whereParams: seq<W>)
      ensures this.whereParams == whereParams
      ensures withParams == [] && orderByParams == [] && cursorParams == []
      ensures skip == None && take == None
    {
      this.whereParams := whereParams;
      withParams := [];
      orderByParams := [];
      cursorParams := [];
      skip := None;
      take := None;
    }

    /** `#[derive(Clone)]`: a new object with the same parameters. */
    method Clone() returns (c: ManyArgs<W, Wi, O, C>)
      ensures fresh(c)
      ensures c.whereParams == whereParams && c.withParams == withParams
      ensures c.orderByParams == orderByParams && c.cursorParams == cursorParams
      ensures c.skip == skip && c.take == take
    {
      c := new ManyArgs(whereParams);
      c.withParams, c.orderByParams, c.cursorParams := withParams, orderByParams, cursorParams;
      c.skip, c.take := skip, take;
    }

    method With(param: Wi)
      modifies this
      ensures withParams == old(withParams) + [param]
      ensures whereParams == old(whereParams)
      ensures orderByParams == old(orderByParams) && cursorParams == old(cursorParams)
      ensures skip == old(skip) && take == old(take)
    {
      withParams := withParams + [param];
    }

    method OrderBy(param: O)
      modifies this
      ensures orderByParams == old(orderByParams) + [param]
      ensures whereParams == old(whereParams)
      ensures withParams == old(withParams) && cursorParams == old(cursorParams)
      ensures skip == old(skip) && take == old(take)
    {
      orderByParams := orderByParams + [param];
    }

    method Cursor(param: C)
      modifies this
      ensures cursorParams == old(cursorParams) + [param]
      ensures whereParams == old(whereParams)
      ensures withParams == old(withParams) && orderByParams == old(orderByParams)
      ensures skip == old(skip) && take == old(take)
    {
      cursorParams := cursorParams + [param];
    }

    method Skip(n: Int64)
      modifies this
      ensures skip == Some(n)
      ensures whereParams == old(whereParams) && withParams == old(withParams)
      ensures orderByParams == old(orderByParams) && cursorParams == old(cursorParams)
      ensures take == old(take)
    {
      skip := Some(n);
    }

    method Take(n: Int64)
      modifies this
      ensures take == Some(n)
      ensures whereParams == old(whereParams) && withParams == old(withParams)
      ensures orderByParams == old(orderByParams) && cursorParams == old(cursorParams)
      ensures skip == old(skip)
    {
      take := Some(n);
    }

    /** `to_graphql`: the arguments of `QueryArguments` with the where pairs
        kept as a plain object, and the converted with-params as nested
        selections (none when there are none). */
    method ToGraphql(conv: Conversions<W, Wi, O, C>) returns (arguments: seq<Argument>, nestedSelections: seq<Selection>)
      ensures arguments == QueryArguments(conv, PlainObject, whereParams, orderByParams, cursorParams, skip, take)
      ensures nestedSelections == MapSeq(conv.withSelection, withParams)
    {
      arguments, nestedSelections := [], [];
      if |withParams| > 0 {
        nestedSelections := MapSeq(conv.withSelection, withParams);
      }
      if |whereParams| > 0 {
        arguments := arguments + [("where", PlainObject(WherePairs(conv, whereParams)))];
      }
      if |orderByParams| > 0 {
        arguments := arguments + [("orderBy", Object(MapSeq(conv.orderByPair, orderByParams)))];
      }
      if |cursorParams| > 0 {
        arguments := arguments + [("cursor", Object(MapSeq(conv.cursorPair, cursorParams)))];
      }
      if skip.Some? {
        arguments := arguments + [("skip", Int(skip.value))];
      }
      if take.Some? {
        arguments := arguments + [("take", Int(take.value))];
      }
    }
  }
}
