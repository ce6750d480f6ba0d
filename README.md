# Many-query builders of prisma-client-rust, in Dafny

This project models the query-construction layer in `src/queries/find_many.rs` of
prisma-client-rust. That layer turns fluent builder calls into a GraphQL-shaped
operation tree, which a separate query engine then runs.

- `FindMany` collects where, with, order-by, cursor, skip and take parameters.
  It can be finalized into a `findMany<Model>` read operation, aliased to
  `result`. It can also be turned into update-many, delete-many and count
  queries, which keep only the where-list.
- `ManyArgs` collects the same parameters. Its `to_graphql` gives an argument
  list and nested selections for a relation field.

Files:

- `query_core.dfy` (module `QueryCore`): the wire shapes. These are `Value`
  (standing for both `PrismaValue` and `QueryValue`), `Selection`, `Operation`
  and the 64-bit `Int64`. It also holds a small `SelectionBuilder` class that
  stands for query_core's builder, plus the helpers `MapSeq` and `Lookup`.
- `find_many.dfy` (module `Queries`): the `FindMany` and `ManyArgs` classes.
  Both builders emit their arguments through one pure function,
  `QueryArguments`. The lemmas about it say which arguments are present, what
  their values are, and in what order they come.
- `scenarios.dfy` (module `QueryScenarios`): client methods that run concrete
  call sequences through the classes: `skip(5)`/`take(10)` with no where-list,
  `skip(0)` followed by `skip(7)`, the derived queries after every
  accumulator, and two where-clauses on the same field.

The builders are classes. The accumulating methods change fields in place, as
`mut self` does in Rust, and their contracts give the whole new state. The
finalizing methods only read the builder. Their results are tied to
`QueryArguments` and `MapSeq`. The caller's `Into` conversions are arrows in a
`Conversions` record. The crate's `merged_object` is a function parameter
`merge` that the model never interprets.

No last-value-wins merge of repeated where-fields is assumed:

- `FindMany` hands the where pairs to `merged_object`, which stays
  uninterpreted.
- `ManyArgs::to_graphql` builds `PrismaValue::Object` from all the pairs
  (find_many.rs:311-317). For two clauses on `age`, that object holds both
  pairs in call order (`QueryScenarios.DuplicateWhereFieldsKept`). What the
  following `.into()` to `QueryValue` (find_many.rs:318) does with repeated
  keys is outside this model.

## Model

| member | source | states |
|---|---|---|
| `QueryCore.MapSeq` | src/queries/find_many.rs:147 | `into_iter().map(..).collect()` gives one converted element per input element, same length and same order |
| `QueryCore.SelectionBuilder.constructor` | src/queries/find_many.rs:127 | `Selection::builder(name)` starts a node with that name, no alias, no arguments and no children |
| `QueryCore.SelectionBuilder.Alias` | src/queries/find_many.rs:129 | sets the alias and changes nothing else |
| `QueryCore.SelectionBuilder.PushArgument` | src/queries/find_many.rs:132-159 | appends exactly one (name, value) argument at the end, with no de-duplication, and changes nothing else |
| `QueryCore.SelectionBuilder.NestedSelections` | src/queries/find_many.rs:174 | adds the given children after the existing ones and changes nothing else |
| `QueryCore.SelectionBuilder.Build` | src/queries/find_many.rs:176 | the frozen selection has exactly the builder's name, alias, arguments and children |
| `Queries.WherePairs` | src/queries/find_many.rs:134-139 | the where-list becomes one (field, value) pair per clause, taken from its serialized form, in call order |
| `Queries.ArgumentLookup` | src/queries/find_many.rs:131-159 | `where` is present iff the where-list is non-empty, and its value is the where object. `orderBy` and `cursor` are present iff their lists are non-empty, each as an `Object` with one entry per parameter in call order. `skip` and `take` are present iff set, as `Int` of the stored value. No other argument name occurs |
| `Queries.ArgumentsInOrder` | src/queries/find_many.rs:131-159 | the arguments come in the order where, orderBy, cursor, skip, take. No name appears twice, and the count equals the number of parameters present |
| `Queries.FindMany.constructor` | src/queries/find_many.rs:47-59 | `new` keeps ctx, info and the where-list unchanged. With, order-by and cursor start empty; skip and take start unset |
| `Queries.FindMany.With` | src/queries/find_many.rs:61-64 | appends one with-param at the end; every other field is unchanged |
| `Queries.FindMany.OrderBy` | src/queries/find_many.rs:66-69 | appends one order-by param at the end; every other field is unchanged |
| `Queries.FindMany.Cursor` | src/queries/find_many.rs:71-74 | appends one cursor param at the end; every other field is unchanged |
| `Queries.FindMany.Skip` | src/queries/find_many.rs:76-79 | sets skip to `Some(n)`, replacing any earlier value (`Some(0)` included); every other field is unchanged |
| `Queries.FindMany.Take` | src/queries/find_many.rs:81-84 | sets take to `Some(n)`, replacing any earlier value; every other field is unchanged |
| `Queries.FindMany.Update` | src/queries/find_many.rs:86-95 | the update-many query gets ctx, info and the where-list (same length and elements in order) plus the set data. Nothing else is carried |
| `Queries.FindMany.Delete` | src/queries/find_many.rs:97-106 | the delete-many query gets ctx, info and the where-list, element for element |
| `Queries.FindMany.Count` | src/queries/find_many.rs:108-117 | the count query gets ctx, info and the where-list, element for element |
| `Queries.FindMany.ToSelection` | src/queries/find_many.rs:119-162 | a fresh builder named `"findMany" + model`, aliased `"result"`, with the `QueryArguments` list (where value built by `merged_object`), and no children yet |
| `Queries.FindMany.Select` | src/queries/find_many.rs:164-179 | a read operation with the same name, alias and arguments as `to_selection`. Its children are exactly the projection's selections, with no scalar fields or with-params. The context is passed along |
| `Queries.FindMany.ExecOperation` | src/queries/find_many.rs:181-202 | a `Read` operation with the `to_selection` name, alias and arguments. Its children are the model's scalar selections followed by the converted with-params, in call order. The context is returned unchanged |
| `Queries.FindMany.Graphql` | src/queries/find_many.rs:224-226 | the batch adapter returns exactly the operation of `exec_operation` |
| `Queries.FindMany.Convert` | src/queries/find_many.rs:228-230 | the raw result is returned unchanged |
| `Queries.ManyArgs.constructor` | src/queries/find_many.rs:256-265 | `new` keeps the where-list unchanged. The other lists start empty; skip and take start unset |
| `Queries.ManyArgs.Clone` | src/queries/find_many.rs:233-247 | the derived clone is a new object with equal parameters |
| `Queries.ManyArgs.With` | src/queries/find_many.rs:267-270 | appends one with-param at the end; every other field is unchanged |
| `Queries.ManyArgs.OrderBy` | src/queries/find_many.rs:272-275 | appends one order-by param at the end; every other field is unchanged |
| `Queries.ManyArgs.Cursor` | src/queries/find_many.rs:277-280 | appends one cursor param at the end; every other field is unchanged |
| `Queries.ManyArgs.Skip` | src/queries/find_many.rs:282-285 | sets skip to `Some(n)`, replacing any earlier value; every other field is unchanged |
| `Queries.ManyArgs.Take` | src/queries/find_many.rs:287-290 | sets take to `Some(n)`, replacing any earlier value; every other field is unchanged |
| `Queries.ManyArgs.ToGraphql` | src/queries/find_many.rs:292-340 | the arguments follow the same presence and order rules as `to_selection` (the `QueryArguments` list), with `where` as a plain `Object` of the pairs in call order. The nested selections are the converted with-params in order, and empty when there are none |
| `QueryScenarios.SkipTakeOnly` | src/queries/find_many.rs:76-84 | `FindMany` for `User` with no where-clauses, `skip(5)` and `take(10)` gives `findManyUser`, aliased `result`. Its arguments are exactly `skip: 5, take: 10` and its children are the default fields |
| `QueryScenarios.SkipZeroIsSet` | src/queries/find_many.rs:76-79 | `skip(0)` yields an explicit `skip: 0` argument, and a later `skip(7)` replaces it |
| `QueryScenarios.DerivedQueriesForgetAccumulators` | src/queries/find_many.rs:86-117 | after any with, order-by, cursor, skip and take calls, the delete, count and update queries equal the ones built from ctx, info and the where-list alone |
| `QueryScenarios.DuplicateWhereFieldsKept` | src/queries/find_many.rs:308-320 | for two where-clauses on the same field, the `PrismaValue::Object` built for `where` holds both pairs, in call order; the later conversion to `QueryValue` is taken as the identity |

## Left out

- `exec` and `ctx.execute(op).await` are not modelled. They run the operation asynchronously on the engine, which is I/O. `QueryContext` is a type parameter `Ctx` that is only passed along.
- `merged_object` is not part of this model. It is the parameter `merge`, and no overwrite or de-duplication behaviour is assumed of it.
- `PrismaValue` and `QueryValue` are one `Value` type, and the conversion between them is taken as the identity. That conversion is defined outside the shown code. So the model does not capture how `QueryValue` stores an object, or what it does with repeated keys. The serialized where-value's own conversion (`s.value.into()`) is assumed to be done already: `SerializedWhere` holds the converted value.
- Floats, dates, enums and the other value leaves are one opaque `Other` case. This layer never looks inside them.
- The `impl Into<With>`, `impl Into<OrderBy>` and `impl Into<Cursor>` conversions at each accumulator call are not modelled. The methods take the parameter already converted.
- `Select`, `SelectType::to_selections`, `UpdateMany::new`, `DeleteMany::new`, `Count::new` and `Select::new` live in other files and are not part of this model. The projection is given as its list of selections. The other queries are records of the arguments passed to their constructors.
- `Data`, `DeserializeOwned`, `PhantomData` and the lifetime `'a` are not modelled. They carry no behaviour here.
- Move semantics are not modelled. Rust consumes the builder on finalization; in Dafny the finalizing methods only read the object, and nothing stops a caller from using it again. An extracted `Operation` is an immutable value either way.
- The builder's `nested_selections` appends in this model. Its definition in query_core is not part of this model. Both call sites (find_many.rs:174 and :199) call it once, on a builder with no children, so appending and replacing give the same result there.
