/**
 * Per-builder parameter binding. Each request block of a template gets its
 * own `Parameterizer` (a counter and an ordered map from identifier to
 * value) and its own `DataQueryBuilder`, which records `limit`/`offset`
 * operations and, when its value is asked for, binds them through its own
 * parameterizer and hands the statement to the data source.
 *
 * Identifiers are the positional placeholders `$1, $2, …` (`Canner.Prepare`).
 */
module QueryBuilding {
  import opened Wrappers
  import Canner

  /** A value bound into a query: the tests bind numbers and strings. */
  datatype Scalar = Num(n: int) | Text(s: string)

  /** A result row as a template sees it: column name to value. */
  type Row = map<string, Scalar>

  /** The deferred operations of a builder; `T` is the raw argument when recorded, the identifier when executed. */
  datatype Operations<T> = Operations(limit: Option<T>, offset: Option<T>)

  const NoOperations: Operations<Scalar> := Operations(None, None)

  /** What the data source's `execute` receives. */
  datatype ExecuteRequest = ExecuteRequest(
    statement: string,
    operations: Operations<string>,
    bindParams: seq<(string, Scalar)>,
    profileName: string)

  // ---------------------------------------------------------------------------
  // Parameter sequences
  // ---------------------------------------------------------------------------

  /** The identifiers are `$1 … $n` in binding order: consecutive, starting at 1, no gaps. */
  ghost predicate Gapless(params: seq<(string, Scalar)>) {
    forall k :: 0 <= k < |params| ==> params[k].0 == Canner.Prepare(k + 1)
  }

  /** The `bindParams` map as a lookup table (a later entry for a key wins, as with `Map.set`). */
  function ToMap(params: seq<(string, Scalar)>): map<string, Scalar> {
    if params == [] then map[]
    else ToMap(params[..|params| - 1])[params[|params| - 1].0 := params[|params| - 1].1]
  }

  /** Pairs `(identifier, value)` for `values` bound after `start` earlier ones. */
  function Bindings(values: seq<Scalar>, start: nat): (params: seq<(string, Scalar)>)
    ensures |params| == |values|
    ensures forall k :: 0 <= k < |values| ==> params[k] == (Canner.Prepare(start + k + 1), values[k])
  {
    seq(|values|, k requires 0 <= k < |values| => (Canner.Prepare(start + k + 1), values[k]))
  }

  /** Appending the bindings of further values keeps a gapless sequence gapless. */
  lemma GaplessAppend(params: seq<(string, Scalar)>, values: seq<Scalar>)
    requires Gapless(params)
    ensures Gapless(params + Bindings(values, |params|))
  {
  }

  lemma BindingsSnoc(values: seq<Scalar>, value: Scalar, start: nat)
    ensures Bindings(values + [value], start) == Bindings(values, start) + [(Canner.Prepare(start + |values| + 1), value)]
  {
  }

  /** Every key of the map is the identifier of some entry. */
  lemma {:induction false} ToMapKeys(params: seq<(string, Scalar)>)
    ensures forall key :: key in ToMap(params) ==> exists k :: 0 <= k < |params| && params[k].0 == key
  {
    if params != [] {
      var front := params[..|params| - 1];
      ToMapKeys(front);
      var last := params[|params| - 1];
      assert ToMap(params) == ToMap(front)[last.0 := last.1];
      forall key | key in ToMap(params) ensures exists k :: 0 <= k < |params| && params[k].0 == key {
        if key != last.0 {
          assert key in ToMap(front);
          var k :| 0 <= k < |front| && front[k].0 == key;
          assert params[k] == front[k];
        }
      }
    }
  }

  /** No two bound values share an identifier. */
  ghost predicate DistinctKeys(params: seq<(string, Scalar)>) {
    forall i, j :: 0 <= i < j < |params| ==> params[i].0 != params[j].0
  }

  /** With distinct identifiers the map keeps one entry per bound value and each identifier finds its own value. */
  lemma {:induction false} DistinctKeysMap(params: seq<(string, Scalar)>)
    requires DistinctKeys(params)
    ensures |ToMap(params)| == |params|
    ensures forall k :: 0 <= k < |params| ==> params[k].0 in ToMap(params) && ToMap(params)[params[k].0] == params[k].1
  {
    if params != [] {
      var n := |params|;
      var front := params[..n - 1];
      assert DistinctKeys(front) by {
        forall i, j | 0 <= i < j < |front| ensures front[i].0 != front[j].0 {
          assert front[i] == params[i] && front[j] == params[j];
        }
      }
      DistinctKeysMap(front);
      ToMapKeys(front);
      var key := params[n - 1].0;
      assert ToMap(params) == ToMap(front)[key := params[n - 1].1];
      assert key !in ToMap(front);
      forall k | 0 <= k < n ensures params[k].0 in ToMap(params) && ToMap(params)[params[k].0] == params[k].1 {
        if k < n - 1 {
          assert front[k] == params[k];
        }
      }
    }
  }

  /** Identifiers `$1`, `$2`, ... are pairwise distinct. */
  lemma GaplessDistinct(params: seq<(string, Scalar)>)
    requires Gapless(params)
    ensures DistinctKeys(params)
  {
    forall i, j | 0 <= i < j < |params| ensures params[i].0 != params[j].0 {
      if params[i].0 == params[j].0 {
        Canner.PrepareInjective(i + 1, j + 1);
      }
    }
  }

  /** In a gapless sequence every identifier is distinct, so the map has exactly one entry per bound value. */
  lemma GaplessMapSize(params: seq<(string, Scalar)>)
    requires Gapless(params)
    ensures |ToMap(params)| == |params|
  {
    GaplessDistinct(params);
    DistinctKeysMap(params);
  }

  /** In a gapless sequence `$k` looks up the k-th bound value. */
  lemma GaplessLookup(params: seq<(string, Scalar)>, k: nat)
    requires Gapless(params) && k < |params|
    ensures Canner.Prepare(k + 1) in ToMap(params) && ToMap(params)[Canner.Prepare(k + 1)] == params[k].1
  {
    GaplessDistinct(params);
    DistinctKeysMap(params);
    assert params[k].0 == Canner.Prepare(k + 1);
  }

  /** Each request block's own binding sequence. */
  class Parameterizer {
    var index: nat
    var bindParams: seq<(string, Scalar)>

    ghost predicate Valid()
      reads this
    {
      index == |bindParams| && Gapless(bindParams)
    }

    constructor ()
      ensures Valid() && index == 0 && bindParams == []
    {
      index := 0;
      bindParams := [];
    }

    /** Bind `value` at the next position and return its identifier. */
    method GenerateIdentifier(value: Scalar) returns (id: string)
      requires Valid()
      modifies this
      ensures Valid()
      ensures id == Canner.Prepare(old(index) + 1)
      ensures index == old(index) + 1
      ensures bindParams == old(bindParams) + [(id, value)]
    {
      index := index + 1;
      id := Canner.Prepare(index);
      bindParams := bindParams + [(id, value)];
    }
  }

  // ---------------------------------------------------------------------------
  // Rendering a request block's statement
  // ---------------------------------------------------------------------------

  /** A piece of a request block's body: literal SQL text, or an expression whose value is bound. */
  datatype Fragment = Sql(text: string) | Expr(value: Scalar)

  /** The values of the expressions of `fragments`, in order. */
  function Literals(fragments: seq<Fragment>): (values: seq<Scalar>)
    ensures |values| <= |fragments|
  {
    if fragments == [] then []
    else
      var last := fragments[|fragments| - 1];
      Literals(fragments[..|fragments| - 1]) + (if last.Expr? then [last.value] else [])
  }

  /** The statement text: SQL pieces verbatim, each expression replaced by its identifier. */
  function RenderedText(fragments: seq<Fragment>, start: nat): string {
    if fragments == [] then ""
    else
      var front := fragments[..|fragments| - 1];
      var last := fragments[|fragments| - 1];
      RenderedText(front, start) + (if last.Expr? then Canner.Prepare(start + |Literals(front)| + 1) else last.text)
  }

  /**
   * Render a request block: every expression is bound, in order, through the
   * block's own parameterizer and replaced by the identifier it receives.
   */
  method Render(parameterizer: Parameterizer, fragments: seq<Fragment>) returns (statement: string)
    requires parameterizer.Valid()
    modifies parameterizer
    ensures parameterizer.Valid()
    ensures statement == RenderedText(fragments, old(parameterizer.index))
    ensures parameterizer.bindParams == old(parameterizer.bindParams) + Bindings(Literals(fragments), old(parameterizer.index))
  {
    ghost var start := parameterizer.index;
    statement := "";
    for i := 0 to |fragments|
      invariant parameterizer.Valid()
      invariant statement == RenderedText(fragments[..i], start)
      invariant parameterizer.index == start + |Literals(fragments[..i])|
      invariant parameterizer.bindParams == old(parameterizer.bindParams) + Bindings(Literals(fragments[..i]), start)
    {
      assert fragments[..i + 1][..i] == fragments[..i];
      assert fragments[..i + 1][i] == fragments[i];
      match fragments[i]
      case Sql(text) =>
        statement := statement + text;
        assert Literals(fragments[..i + 1]) == Literals(fragments[..i]);
      case Expr(value) =>
        ghost var before := parameterizer.bindParams;
        var id := parameterizer.GenerateIdentifier(value);
        statement := statement + id;
        assert Literals(fragments[..i + 1]) == Literals(fragments[..i]) + [value];
        BindingsSnoc(Literals(fragments[..i]), value, start);
        assert parameterizer.bindParams == before + [(id, value)];
    }
    assert fragments[..|fragments|] == fragments;
  }

  // ---------------------------------------------------------------------------
  // Recording operations
  // ---------------------------------------------------------------------------

  /** A chainable call on a builder. */
  datatype OperationCall = Limit(size: Scalar) | Offset(size: Scalar) | Take(size: Scalar, offset: Scalar)

  /** The effect of one call on the recorded operations: it overwrites what it names. */
  function Record(ops: Operations<Scalar>, call: OperationCall): Operations<Scalar> {
    match call
    case Limit(size) => ops.(limit := Some(size))
    case Offset(size) => ops.(offset := Some(size))
    case Take(size, offset) => Operations(Some(size), Some(offset))
  }

  /** The operations after a chain of calls, applied left to right. */
  function RecordAll(ops: Operations<Scalar>, calls: seq<OperationCall>): Operations<Scalar>
    decreases |calls|
  {
    if calls == [] then ops else RecordAll(Record(ops, calls[0]), calls[1..])
  }

  /** The argument of the last call that sets the limit, if any. */
  function LastLimit(calls: seq<OperationCall>): Option<Scalar> {
    if calls == [] then None
    else match calls[|calls| - 1]
      case Limit(size) => Some(size)
      case Take(size, _) => Some(size)
      case Offset(_) => LastLimit(calls[..|calls| - 1])
  }

  /** The argument of the last call that sets the offset, if any. */
  function LastOffset(calls: seq<OperationCall>): Option<Scalar> {
    if calls == [] then None
    else match calls[|calls| - 1]
      case Offset(size) => Some(size)
      case Take(_, offset) => Some(offset)
      case Limit(_) => LastOffset(calls[..|calls| - 1])
  }

  lemma {:induction false} RecordAllSnoc(ops: Operations<Scalar>, calls: seq<OperationCall>, call: OperationCall)
    ensures RecordAll(ops, calls + [call]) == Record(RecordAll(ops, calls), call)
    decreases |calls|
  {
    if calls != [] {
      assert (calls + [call])[1..] == calls[1..] + [call];
      RecordAllSnoc(Record(ops, calls[0]), calls[1..], call);
    }
  }

  /**
   * Last write wins per operation, whatever the interleaving: each operation
   * ends up with the argument of the last call that sets it, and keeps its
   * earlier value when no call does.
   */
  lemma {:induction false} LastWriteWins(ops: Operations<Scalar>, calls: seq<OperationCall>)
    ensures RecordAll(ops, calls).limit == (if LastLimit(calls).Some? then LastLimit(calls) else ops.limit)
    ensures RecordAll(ops, calls).offset == (if LastOffset(calls).Some? then LastOffset(calls) else ops.offset)
    decreases |calls|
  {
    if calls != [] {
      var front := calls[..|calls| - 1];
      var last := calls[|calls| - 1];
      assert calls == front + [last];
      RecordAllSnoc(ops, front, last);
      LastWriteWins(ops, front);
    }
  }

  /** The recorded values bound at execution: the limit first, then the offset. */
  function OperationValues(ops: Operations<Scalar>): (values: seq<Scalar>)
    ensures |values| == (if ops.limit.Some? then 1 else 0) + (if ops.offset.Some? then 1 else 0)
  {
    (if ops.limit.Some? then [ops.limit.value] else []) + (if ops.offset.Some? then [ops.offset.value] else [])
  }

  /** The operations as executed: each recorded value replaced by the identifier it was bound to. */
  function BoundOperations(ops: Operations<Scalar>, start: nat): Operations<string> {
    var limitId := if ops.limit.Some? then Some(Canner.Prepare(start + 1)) else None;
    var offsetId := if ops.offset.Some? then Some(Canner.Prepare(start + |OperationValues(ops)|)) else None;
    Operations(limitId, offsetId)
  }

  /**
   * The data source of the tests: it records every request and answers the
   * first one with `firstCallRows` (later calls get no rows).
   */
  class StubDataSource {
    var calls: seq<ExecuteRequest>
    const firstCallRows: seq<Row>

    constructor (firstCallRows: seq<Row>)
      ensures calls == [] && this.firstCallRows == firstCallRows
    {
      calls := [];
      this.firstCallRows := firstCallRows;
    }

    method Execute(request: ExecuteRequest) returns (rows: seq<Row>)
      modifies this
      ensures calls == old(calls) + [request]
      ensures rows == if old(calls) == [] then firstCallRows else []
    {
      rows := if calls == [] then firstCallRows else [];
      calls := calls + [request];
    }
  }

  class DataQueryBuilder {
    const statement: string
    const profileName: string
    const parameterizer: Parameterizer
    var operations: Operations<Scalar>

    constructor (statement: string, parameterizer: Parameterizer, profileName: string)
      ensures this.statement == statement && this.parameterizer == parameterizer && this.profileName == profileName
      ensures operations == NoOperations
    {
      this.statement := statement;
      this.parameterizer := parameterizer;
      this.profileName := profileName;
      operations := NoOperations;
    }

    /** `limit(size)`: record the raw argument and return the same builder. */
    method Limit(size: Scalar) returns (self: DataQueryBuilder)
      modifies this`operations
      ensures self == this
      ensures operations == Record(old(operations), OperationCall.Limit(size))
    {
      operations := operations.(limit := Some(size));
      self := this;
    }

    /** `offset(size)`: record the raw argument and return the same builder. */
    method Offset(size: Scalar) returns (self: DataQueryBuilder)
      modifies this`operations
      ensures self == this
      ensures operations == Record(old(operations), OperationCall.Offset(size))
    {
      operations := operations.(offset := Some(size));
      self := this;
    }

    /** `take(size, offset)`: overwrite both in one call and return the same builder. */
    method Take(size: Scalar, offset: Scalar) returns (self: DataQueryBuilder)
      modifies this`operations
      ensures self == this
      ensures operations == Record(old(operations), OperationCall.Take(size, offset))
    {
      operations := Operations(Some(size), Some(offset));
      self := this;
    }

    /**
     * `value()`: bind the recorded operations through this builder's own
     * parameterizer, after everything bound so far, and execute the statement
     * with the whole binding sequence.
     */
    method Value(dataSource: StubDataSource) returns (rows: seq<Row>)
      requires parameterizer.Valid()
      modifies parameterizer, dataSource
      ensures parameterizer.Valid()
      ensures parameterizer.bindParams ==
        old(parameterizer.bindParams) + Bindings(OperationValues(operations), old(parameterizer.index))
      ensures dataSource.calls == old(dataSource.calls) + [ExecuteRequest(
        statement, BoundOperations(operations, old(parameterizer.index)), parameterizer.bindParams, profileName)]
      ensures rows == if old(dataSource.calls) == [] then dataSource.firstCallRows else []
    {
      ghost var start := parameterizer.index;
      var limitId: Option<string> := None;
      var offsetId: Option<string> := None;
      if operations.limit.Some? {
        var id := parameterizer.GenerateIdentifier(operations.limit.value);
        limitId := Some(id);
      }
      if operations.offset.Some? {
        var id := parameterizer.GenerateIdentifier(operations.offset.value);
        offsetId := Some(id);
      }
      assert Operations(limitId, offsetId) == BoundOperations(operations, start);
      rows := dataSource.Execute(ExecuteRequest(statement, Operations(limitId, offsetId), parameterizer.bindParams, profileName));
    }
  }

  // ---------------------------------------------------------------------------
  // The recorded scenarios
  // ---------------------------------------------------------------------------

  /** `select * from users where id = {{ context.params.id }}` */
  function UserBlock(id: Scalar): seq<Fragment> {
    [Sql("select * from users where id = "), Expr(id)]
  }

  lemma PlaceholdersOneTwo()
    ensures Canner.Prepare(1) == "$1" && Canner.Prepare(2) == "$2"
  {
  }

  lemma UserBlockRendered(id: Scalar)
    ensures Literals(UserBlock(id)) == [id]
    ensures RenderedText(UserBlock(id), 0) == "select * from users where id = $1"
  {
    var f := UserBlock(id);
    assert f[..1] == [Sql("select * from users where id = ")];
    assert f[..1][..0] == [];
    assert Literals(f[..1]) == [];
    assert RenderedText(f[..1], 0) == "select * from users where id = ";
    PlaceholdersOneTwo();
    assert RenderedText(f, 0) == "select * from users where id = " + "$1";
  }

  /** What `user.limit(2).value()` sends: the literal at `$1`, the limit at `$2`, no offset. */
  function UserRequest(id: Scalar): ExecuteRequest {
    ExecuteRequest("select * from users where id = $1", Operations(Some("$2"), None), [("$1", id), ("$2", Num(2))], "")
  }

  /** What the `group` block sends: its own literal at `$1` and nothing else. */
  function GroupRequest(userName: Scalar): ExecuteRequest {
    ExecuteRequest("select * from group where userName = $1", Operations(None, None), [("$1", userName)], "")
  }

  /** Renders `{% req user %}` on a fresh parameterizer and wraps it in a builder. */
  method OpenUserBlock(id: Scalar, userParams: Parameterizer) returns (user: DataQueryBuilder)
    requires userParams.Valid() && userParams.bindParams == []
    modifies userParams
    ensures fresh(user)
    ensures user.statement == "select * from users where id = $1" && user.profileName == ""
    ensures user.parameterizer == userParams && user.operations == NoOperations
    ensures userParams.Valid() && userParams.bindParams == [("$1", id)]
  {
    UserBlockRendered(id);
    PlaceholdersOneTwo();
    var userSql := Render(userParams, UserBlock(id));
    user := new DataQueryBuilder(userSql, userParams, "");
  }

  /** `user.limit(2).value()`: binds the limit after the literal and executes the user block. */
  method LimitAndRunUser(id: Scalar, user: DataQueryBuilder, dataSource: StubDataSource) returns (rows: seq<Row>)
    requires user.statement == "select * from users where id = $1" && user.profileName == ""
    requires user.operations == NoOperations
    requires user.parameterizer.Valid() && user.parameterizer.bindParams == [("$1", id)]
    modifies user, user.parameterizer, dataSource
    ensures dataSource.calls == old(dataSource.calls) + [UserRequest(id)]
    ensures rows == if old(dataSource.calls) == [] then dataSource.firstCallRows else []
  {
    PlaceholdersOneTwo();
    var limited := user.Limit(Num(2));
    assert user.operations == Operations(Some(Num(2)), None);
    assert OperationValues(user.operations) == [Num(2)];
    assert Bindings([Num(2)], 1) == [("$2", Num(2))];
    assert BoundOperations(user.operations, 1) == Operations(Some("$2"), None);
    assert user.parameterizer.index == 1;
    rows := limited.Value(dataSource);
    assert user.parameterizer.bindParams == [("$1", id), ("$2", Num(2))];
    assert dataSource.calls == old(dataSource.calls) + [ExecuteRequest(user.statement, Operations(Some("$2"), None), user.parameterizer.bindParams, user.profileName)];
  }

  /** The SQL text of `{% req group main %}` up to its expression: rendered, nothing bound yet. */
  method OpenGroupText(groupParams: Parameterizer) returns (text: string)
    requires groupParams.Valid() && groupParams.bindParams == []
    modifies groupParams
    ensures groupParams.Valid() && groupParams.bindParams == []
    ensures text == "select * from group where userName = "
  {
    var prefix := [Sql("select * from group where userName = ")];
    assert prefix[..0] == [];
    assert Literals(prefix) == [];
    assert Bindings([], 0) == [];
    text := Render(groupParams, prefix);
  }

  /**
   * The rest of the group block once its expression has produced `userName`:
   * the value is bound through the group's own parameterizer, and the group
   * executes when the template ends.
   */
  method FinishGroupBlock(text: string, userName: Scalar, groupParams: Parameterizer, dataSource: StubDataSource)
    requires text == "select * from group where userName = "
    requires groupParams.Valid() && groupParams.bindParams == []
    modifies groupParams, dataSource
    ensures dataSource.calls == old(dataSource.calls) + [GroupRequest(userName)]
  {
    PlaceholdersOneTwo();
    var expr := [Expr(userName)];
    assert expr[..0] == [];
    assert Literals(expr) == [userName];
    assert RenderedText(expr, 0) == "$1";
    assert Bindings([userName], 0) == [("$1", userName)];
    var id := Render(groupParams, expr);
    assert text + id == "select * from group where userName = $1";
    var group := new DataQueryBuilder(text + id, groupParams, "");
    assert OperationValues(NoOperations) == [];
    assert Bindings([], 1) == [];
    assert groupParams.bindParams + [] == groupParams.bindParams;
    assert groupParams.index == 1;
    assert BoundOperations(NoOperations, 1) == Operations(None, None);
    var _ := group.Value(dataSource);
    assert groupParams.bindParams == [("$1", userName)];
  }

  /**
   * `{% req user main %}` with one literal, then `user.limit(2)`; the main
   * builder is executed when the template ends. The literal gets `$1`, the
   * later limit `$2`, and the two identifiers are distinct map keys.
   */
  method SameScopeScenario(id: Scalar) returns (calls: seq<ExecuteRequest>)
    ensures calls == [UserRequest(id)]
    ensures |ToMap(calls[0].bindParams)| == 2
  {
    var dataSource := new StubDataSource([]);
    var userParams := new Parameterizer();
    var user := OpenUserBlock(id, userParams);
    var _ := LimitAndRunUser(id, user, dataSource);
    calls := dataSource.calls;
    PlaceholdersOneTwo();
    assert Gapless(calls[0].bindParams);
    GaplessMapSize(calls[0].bindParams);
  }

  /** The rows the first execution returns in the cross-scope tests. */
  function UserRows(userName: string): seq<Row> {
    [map["id" := Num(1), "name" := Text(userName)]]
  }

  /**
   * `{% req user %}` and then `{% req group main %}` whose body evaluates
   * `user.limit(2).value()[0].name`: the limit is bound in `user`'s sequence
   * and `user` executes first; `group` starts its own sequence at `$1` and
   * holds only its own value.
   */
  method SiblingScopeScenario(id: Scalar, userName: string) returns (calls: seq<ExecuteRequest>)
    ensures calls == [UserRequest(id), GroupRequest(Text(userName))]
  {
    var dataSource := new StubDataSource(UserRows(userName));
    var userParams := new Parameterizer();
    var user := OpenUserBlock(id, userParams);
    var groupParams := new Parameterizer();
    var text := OpenGroupText(groupParams);
    var rows := LimitAndRunUser(id, user, dataSource);
    FinishGroupBlock(text, rows[0]["name"], groupParams, dataSource);
    calls := dataSource.calls;
  }

  /**
   * `{% req group main %}` enclosing `{% req user %}`, with the same
   * expression after the inner block: the group's parameterizer exists before
   * the user block is even rendered and stays open while `user` renders and
   * executes, yet only the group's own expression lands in it.
   */
  method NestedScopeScenario(id: Scalar, userName: string) returns (calls: seq<ExecuteRequest>)
    ensures calls == [UserRequest(id), GroupRequest(Text(userName))]
  {
    var dataSource := new StubDataSource(UserRows(userName));
    var groupParams := new Parameterizer();
    var userParams := new Parameterizer();
    var user := OpenUserBlock(id, userParams);
    var text := OpenGroupText(groupParams);
    var rows := LimitAndRunUser(id, user, dataSource);
    FinishGroupBlock(text, rows[0]["name"], groupParams, dataSource);
    calls := dataSource.calls;
  }

  /** `limit(a).offset(b)` records both raw arguments and binds nothing yet. */
  method LimitThenOffsetScenario(limit: Scalar, offset: Scalar) returns (operations: Operations<Scalar>, bound: nat)
    ensures operations == Operations(Some(limit), Some(offset))
    ensures bound == 0
  {
    var parameterizer := new Parameterizer();
    var builder := new DataQueryBuilder("select * from orders", parameterizer, "");
    var chained := builder.Limit(limit);
    chained := chained.Offset(offset);
    operations, bound := builder.operations, parameterizer.index;
  }

  /** `limit(a1).offset(b1).offset(b2).limit(a2)` keeps the second value of each. */
  method RepeatedCallsScenario(first: (Scalar, Scalar), second: (Scalar, Scalar)) returns (operations: Operations<Scalar>)
    ensures operations == Operations(Some(second.0), Some(second.1))
  {
    var parameterizer := new Parameterizer();
    var builder := new DataQueryBuilder("select * from orders", parameterizer, "");
    var chained := builder.Limit(first.0);
    chained := chained.Offset(first.1);
    chained := chained.Offset(second.1);
    chained := chained.Limit(second.0);
    operations := builder.operations;
  }

  /** `limit(a1).offset(b1).take(a2, b2)` overwrites both in the one `take` call. */
  method TakeAfterLimitOffsetScenario(first: (Scalar, Scalar), second: (Scalar, Scalar)) returns (operations: Operations<Scalar>)
    ensures operations == Operations(Some(second.0), Some(second.1))
  {
    var parameterizer := new Parameterizer();
    var builder := new DataQueryBuilder("select * from orders", parameterizer, "");
    var chained := builder.Limit(first.0);
    chained := chained.Offset(first.1);
    chained := chained.Take(second.0, second.1);
    operations := builder.operations;
  }
}
