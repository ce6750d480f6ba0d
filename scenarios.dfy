/** Client code driving the builders through concrete call sequences (skip and
    take only, skip(0), derived queries, repeated where-fields): what callers
    can conclude from the builders' contracts alone. */
module QueryScenarios {
  import opened QueryCore
  import opened Queries

  /** `FindMany` for `User` with no where-clauses, `skip(5)` and `take(10)`:
      only the skip and take arguments, the default fields as children. */
  method SkipTakeOnly<Ctx, W, Wi, O, C, S>(
    ctx: Ctx, scalars: seq<Selection>, conv: Conversions<W, Wi, O, C>, merge: seq<Argument> -> Value)
    returns (op: Operation)
    ensures op == Read(Selection(
      "findManyUser", Some("result"), [("skip", Int(5)), ("take", Int(10))], scalars))
  {
    var query := new FindMany<Ctx, W, Wi, O, C, S>(ctx, QueryInfo("User", scalars), []);
    query.Skip(5);
    query.Take(10);
    op := query.Graphql(conv, merge);
  }

  /** `skip(0)` is an explicit `skip: 0`, and a later `skip` replaces it. */
  method SkipZeroIsSet<Ctx, W, Wi, O, C, S>(
    ctx: Ctx, info: QueryInfo, conv: Conversions<W, Wi, O, C>, merge: seq<Argument> -> Value)
    returns (first: Operation, second: Operation)
    ensures first.selection.arguments == [("skip", Int(0))]
    ensures second.selection.arguments == [("skip", Int(7))]
  {
    var query := new FindMany<Ctx, W, Wi, O, C, S>(ctx, info, []);
    query.Skip(0);
    first := query.Graphql(conv, merge);
    query.Skip(7);
    second := query.Graphql(conv, merge);
  }

  /** Whatever was accumulated besides the where-list, the derived delete,
      count and update queries see only the context, the model and the
      where-list. */
  method DerivedQueriesForgetAccumulators<Ctx, W, Wi, O, C, S>(
    ctx: Ctx, info: QueryInfo, wheres: seq<W>, with: Wi, order: O, cursor: C, data: seq<S>)
    returns (d: DeleteManyQuery<Ctx, W>, c: CountQuery<Ctx, W>, u: UpdateManyQuery<Ctx, W, S>)
    ensures d == DeleteManyQuery(ctx, info, wheres)
    ensures c == CountQuery(ctx, info, wheres)
    ensures u == UpdateManyQuery(ctx, info, wheres, data)
  {
    var query := new FindMany<Ctx, W, Wi, O, C, S>(ctx, info, wheres);
    query.With(with);
    query.OrderBy(order);
    query.Cursor(cursor);
    query.Skip(3);
    query.Take(4);
    d, c, u := query.Delete(), query.Count(), query.Update(data);
  }

  /** `ManyArgs::to_graphql` does not merge where-clauses: for two clauses on
      the same field, the `PrismaValue::Object` it builds holds both pairs, in
      call order. What the later conversion to `QueryValue` does with repeated
      keys is outside this model. */
  method DuplicateWhereFieldsKept<Wi, O, C>(
    withSelection: Wi -> Selection, orderByPair: O -> Argument, cursorPair: C -> Argument)
    returns (arguments: seq<Argument>)
    ensures arguments == [("where", Object([("age", Int(18)), ("age", Int(21))]))]
  {
    var conv := Conversions((w: SerializedWhere) => w, withSelection, orderByPair, cursorPair);
    var args := new ManyArgs<SerializedWhere, Wi, O, C>(
      [SerializedWhere("age", Int(18)), SerializedWhere("age", Int(21))]);
    var nested;
    arguments, nested := args.ToGraphql(conv);
    ghost var pairs := WherePairs(conv, [SerializedWhere("age", Int(18)), SerializedWhere("age", Int(21))]);
    assert pairs[0] == ("age", Int(18)) && pairs[1] == ("age", Int(21));
    assert pairs == [("age", Int(18)), ("age", Int(21))];
  }
}
