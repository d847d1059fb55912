/** The WHERE clause of the semantic query compiler: governed default filters, query filters and a
    freshness bound become conditions over numbered placeholders with a list of parameters.

    The conditions are syntax with a three-valued SQL meaning; a row is kept when their conjunction is
    true. What a filter asks of a row is defined on its own, in two-valued logic, and compilation is
    proved to preserve it for every row, every clock reading and every ordering of values. */
module SemanticCompiler {
  import opened SemanticLayer
  import opened Wrappers

  // ---------------------------------------------------------------------------------------------
  // Effective filters

  /** The governed default on a dimension; the source keeps them in a dictionary by field. */
  function DefaultOn(defaults: seq<Filter>, name: string): Option<Filter> {
    if defaults == [] then None
    else if defaults[|defaults| - 1].field == name then Some(defaults[|defaults| - 1])
    else DefaultOn(defaults[..|defaults| - 1], name)
  }

  /** Why a query filter is refused, if it is. */
  function Problem(resolve: Resolver, model: Model, f: Filter): Option<Error> {
    match resolve(f.field)
    case None => Some(NotFound(f.field))
    case Some((owner, d)) =>
      if owner != model.name then Some(OtherModel(f.field))
      else
        var protected := DefaultOn(model.defaults, d.name);
        if protected.Some? && (protected.value.operator != f.operator || protected.value.value != f.value)
        then Some(Override(d.name)) else None
  }

  /** What an accepted query filter adds to the governed defaults: nothing when it repeats one. */
  function AddedBy(resolve: Resolver, model: Model, f: Filter): seq<Filter> {
    var r := resolve(f.field);
    if r.None? || DefaultOn(model.defaults, r.value.1.name).Some? then [] else [f.(field := r.value.1.name)]
  }

  function Added(resolve: Resolver, model: Model, fs: seq<Filter>): seq<Filter> {
    if fs == [] then [] else Added(resolve, model, fs[..|fs| - 1]) + AddedBy(resolve, model, fs[|fs| - 1])
  }

  /** The filters that end up in the clause. */
  function Effective(resolve: Resolver, model: Model, fs: seq<Filter>): seq<Filter> {
    model.defaults + Added(resolve, model, fs)
  }

  ghost predicate Accepted(resolve: Resolver, model: Model, fs: seq<Filter>) {
    forall i :: 0 <= i < |fs| ==> Problem(resolve, model, fs[i]).None?
  }

  /** The first refused filter decides the error. */
  ghost predicate FirstProblem(resolve: Resolver, model: Model, fs: seq<Filter>, error: Error) {
    exists i :: 0 <= i < |fs| && Problem(resolve, model, fs[i]) == Some(error) && Accepted(resolve, model, fs[..i])
  }

  method EffectiveFilters(resolve: Resolver, model: Model, fs: seq<Filter>) returns (r: Result<seq<Filter>>)
    ensures r.Ok? <==> Accepted(resolve, model, fs)
    ensures r.Ok? ==> r.value == Effective(resolve, model, fs)
    ensures r.Err? ==> FirstProblem(resolve, model, fs, r.error)
  {
    var effective := model.defaults;
    for n := 0 to |fs|
      invariant Accepted(resolve, model, fs[..n])
      invariant effective == model.defaults + Added(resolve, model, fs[..n])
    {
      var item := fs[n];
      assert fs[..n + 1][..n] == fs[..n];
      var resolved := resolve(item.field);
      if resolved.None? {
        assert Problem(resolve, model, fs[n]) == Some(NotFound(item.field));
        return Err(NotFound(item.field));
      }
      var (owner, dimension) := resolved.value;
      if owner != model.name {
        assert Problem(resolve, model, fs[n]) == Some(OtherModel(item.field));
        return Err(OtherModel(item.field));
      }
      var protected := DefaultOn(model.defaults, dimension.name);
      if protected.Some? {
        if protected.value.operator != item.operator || protected.value.value != item.value {
          assert Problem(resolve, model, fs[n]) == Some(Override(dimension.name));
          return Err(Override(dimension.name));
        }
      } else {
        effective := effective + [item.(field := dimension.name)];
      }
      assert Problem(resolve, model, fs[n]).None?;
    }
    assert fs[..|fs|] == fs;
    return Ok(effective);
  }

  /** A governed default on the dimension. */
  ghost predicate Governs(f: Filter, name: string, defaults: seq<Filter>) {
    f in defaults && f.field == name
  }

  lemma {:induction false} DefaultOnGoverns(defaults: seq<Filter>, name: string)
    ensures DefaultOn(defaults, name).Some? ==> Governs(DefaultOn(defaults, name).value, name, defaults)
    ensures DefaultOn(defaults, name).None? ==> forall f :: !Governs(f, name, defaults)
  {
    if defaults == [] {
    } else {
      var init, last := defaults[..|defaults| - 1], defaults[|defaults| - 1];
      DefaultOnGoverns(init, name);
      forall f ensures Governs(f, name, defaults) <==> Governs(f, name, init) || (f == last && last.field == name) {
        assert defaults == init + [last];
      }
    }
  }

  lemma OneDefaultGoverns(model: Model, name: string, f: Filter, g: Filter)
    requires ValidModel(model) && Governs(f, name, model.defaults) && Governs(g, name, model.defaults)
    ensures f == g
  {
    var i :| 0 <= i < |model.defaults| && model.defaults[i] == f;
    var j :| 0 <= j < |model.defaults| && model.defaults[j] == g;
  }

  /** Why a filter is refused, and that it is accepted otherwise: on a dimension of the model without a governed
      default, and where it repeats the default. */
  lemma RefusedIff(resolve: Resolver, model: Model, f: Filter)
    requires ValidModel(model)
    ensures Problem(resolve, model, f) == Some(NotFound(f.field)) <==> resolve(f.field).None?
    ensures Problem(resolve, model, f) == Some(OtherModel(f.field)) <==>
            resolve(f.field).Some? && resolve(f.field).value.0 != model.name
    ensures Problem(resolve, model, f).None? <==>
            && resolve(f.field).Some? && resolve(f.field).value.0 == model.name
            && forall g :: Governs(g, resolve(f.field).value.1.name, model.defaults) ==>
                 g.operator == f.operator && g.value == f.value
    ensures Problem(resolve, model, f).Some? && resolve(f.field).Some? && resolve(f.field).value.0 == model.name ==>
              Problem(resolve, model, f) == Some(Override(resolve(f.field).value.1.name))
  {
    if resolve(f.field).Some? {
      var name := resolve(f.field).value.1.name;
      DefaultOnGoverns(model.defaults, name);
      forall g | Governs(g, name, model.defaults) ensures DefaultOn(model.defaults, name) == Some(g) {
        OneDefaultGoverns(model, name, g, DefaultOn(model.defaults, name).value);
      }
    }
  }

  /** The filter with the own name of its dimension. */
  function Renamed(resolve: Resolver, f: Filter): Filter
    requires resolve(f.field).Some?
  {
    f.(field := resolve(f.field).value.1.name)
  }

  ghost predicate Ungoverned(resolve: Resolver, model: Model, f: Filter) {
    resolve(f.field).Some? && forall g :: !Governs(g, resolve(f.field).value.1.name, model.defaults)
  }

  /** What a filter on a dimension without a governed default becomes. */
  ghost predicate Becomes(resolve: Resolver, model: Model, f: Filter, g: Filter) {
    Ungoverned(resolve, model, f) && g == Renamed(resolve, f)
  }

  ghost predicate BecomesOneOf(resolve: Resolver, model: Model, fs: seq<Filter>, g: Filter) {
    exists f :: f in fs && Becomes(resolve, model, f, g)
  }

  lemma AddedByIs(resolve: Resolver, model: Model, f: Filter, g: Filter)
    requires Problem(resolve, model, f).None?
    ensures g in AddedBy(resolve, model, f) <==> Becomes(resolve, model, f, g)
    ensures |AddedBy(resolve, model, f)| <= 1
  {
    DefaultOnGoverns(model.defaults, resolve(f.field).value.1.name);
  }

  lemma {:induction false} AddedAre(resolve: Resolver, model: Model, fs: seq<Filter>, g: Filter)
    requires Accepted(resolve, model, fs)
    ensures g in Added(resolve, model, fs) <==> BecomesOneOf(resolve, model, fs, g)
    ensures |Added(resolve, model, fs)| <= |fs|
  {
    if fs == [] {
    } else {
      var init, last := fs[..|fs| - 1], fs[|fs| - 1];
      AddedAre(resolve, model, init, g);
      assert Problem(resolve, model, last).None?;
      AddedByIs(resolve, model, last, g);
      assert BecomesOneOf(resolve, model, fs, g) <==>
          BecomesOneOf(resolve, model, init, g) || Becomes(resolve, model, last, g) by {
        assert fs == init + [last];
      }
    }
  }

  lemma ConcatParts<T>(a: seq<T>, b: seq<T>)
    ensures a <= a + b && (a + b)[|a|..] == b
  {
  }

  /** What ends up in the clause: the defaults, and after them exactly the query filters on dimensions without
      one, each under the own name of its dimension. */
  lemma EffectiveAre(resolve: Resolver, model: Model, fs: seq<Filter>, g: Filter)
    requires Accepted(resolve, model, fs)
    ensures model.defaults <= Effective(resolve, model, fs)
    ensures g in Effective(resolve, model, fs)[|model.defaults|..] <==> BecomesOneOf(resolve, model, fs, g)
    ensures |Effective(resolve, model, fs)| <= |model.defaults| + |fs|
  {
    AddedAre(resolve, model, fs, g);
    ConcatParts(model.defaults, Added(resolve, model, fs));
  }

  /** The filter is valid and names a dimension of the model by its own name. */
  ghost predicate InModel(resolve: Resolver, model: Model, f: Filter) {
    && ValidFilter(f) && resolve(f.field).Some?
    && resolve(f.field).value.0 == model.name && resolve(f.field).value.1.name == f.field
  }

  ghost predicate AllInModel(resolve: Resolver, model: Model, fs: seq<Filter>) {
    forall i :: 0 <= i < |fs| ==> InModel(resolve, model, fs[i])
  }

  predicate FreshnessInModel(resolve: Resolver, model: Model) {
    model.freshness.Some? ==>
      resolve(model.freshness.value.field).Some? && resolve(model.freshness.value.field).value.0 == model.name
  }

  lemma {:induction false} AddedAreInModel(resolve: Resolver, model: Model, fs: seq<Filter>)
    requires Faithful(resolve) && Accepted(resolve, model, fs)
    requires forall i :: 0 <= i < |fs| ==> ValidFilter(fs[i])
    ensures AllInModel(resolve, model, Added(resolve, model, fs))
  {
    if fs == [] {
    } else {
      AddedAreInModel(resolve, model, fs[..|fs| - 1]);
      assert Problem(resolve, model, fs[|fs| - 1]).None?;
    }
  }

  lemma DefaultsAreInModel(resolve: Resolver, model: Model)
    requires OwnNames(resolve, model) && ValidModel(model)
    ensures AllInModel(resolve, model, model.defaults)
    ensures FreshnessInModel(resolve, model)
  {
  }

  lemma EffectiveAreInModel(resolve: Resolver, model: Model, fs: seq<Filter>)
    requires Faithful(resolve) && OwnNames(resolve, model) && ValidModel(model) && Accepted(resolve, model, fs)
    requires forall i :: 0 <= i < |fs| ==> ValidFilter(fs[i])
    ensures AllInModel(resolve, model, Effective(resolve, model, fs))
  {
    AddedAreInModel(resolve, model, fs);
    DefaultsAreInModel(resolve, model);
  }

  // ---------------------------------------------------------------------------------------------
  // Conditions

  datatype Condition =
    | NullTest(expression: string, negated: bool)
    | Comparison(expression: string, symbol: Operator, placeholder: nat)
    | Membership(expression: string, negated: bool, placeholders: seq<nat>)
    | Recency(expression: string, placeholder: nat)

  datatype Compiled = Compiled(where: seq<Condition>, parameters: seq<Scalar>)

  /** A filter together with the expression of its dimension. */
  datatype Bound = Bound(expression: string, filter: Filter)

  function Arguments(f: Filter): seq<Scalar> {
    match f.value
    case Absent => []
    case One(x) => [x]
    case Many(xs) => xs
  }

  function Numbered(base: nat, n: nat): (s: seq<nat>)
    ensures |s| == n && forall i :: 0 <= i < n ==> s[i] == base + i + 1
  {
    if n == 0 then [] else Numbered(base, n - 1) + [base + n]
  }

  /** The condition of a filter whose arguments follow `base` parameters. */
  function ConditionOf(b: Bound, base: nat): Condition {
    var Bound(expression, f) := b;
    if NullOperator(f.operator) then NullTest(expression, f.operator == IsNotNull)
    else if SetOperator(f.operator) then Membership(expression, f.operator == NotIn, Numbered(base, |Arguments(f)|))
    else Comparison(expression, f.operator, base + 1)
  }

  method FilterCondition(expression: string, f: Filter, parameters: seq<Scalar>)
    returns (condition: Condition, extended: seq<Scalar>)
    requires ValidFilter(f)
    ensures condition == ConditionOf(Bound(expression, f), |parameters|)
    ensures extended == parameters + Arguments(f)
  {
    extended := parameters;
    if f.operator == IsNull { return NullTest(expression, false), extended; }
    if f.operator == IsNotNull { return NullTest(expression, true), extended; }
    var values := if f.value.Many? then f.value.scalars else [f.value.scalar];
    var placeholders: seq<nat> := [];
    for i := 0 to |values|
      invariant extended == parameters + values[..i]
      invariant placeholders == Numbered(|parameters|, i)
    {
      extended := extended + [values[i]];
      placeholders := placeholders + [|extended|];
    }
    if f.operator == In || f.operator == NotIn {
      return Membership(expression, f.operator == NotIn, placeholders), extended;
    }
    condition := Comparison(expression, f.operator, placeholders[0]);
  }

  function Parameters(bs: seq<Bound>): seq<Scalar> {
    if bs == [] then [] else Parameters(bs[..|bs| - 1]) + Arguments(bs[|bs| - 1].filter)
  }

  function Conditions(bs: seq<Bound>): (where: seq<Condition>)
    ensures |where| == |bs|
  {
    if bs == [] then []
    else Conditions(bs[..|bs| - 1]) + [ConditionOf(bs[|bs| - 1], |Parameters(bs[..|bs| - 1])|)]
  }

  function ExpressionOf(resolve: Resolver, field: string): string {
    if resolve(field).Some? then resolve(field).value.1.expression else ""
  }

  function Bind(resolve: Resolver, fs: seq<Filter>): (bs: seq<Bound>)
    ensures |bs| == |fs| && forall i :: 0 <= i < |fs| ==> bs[i] == Bound(ExpressionOf(resolve, fs[i].field), fs[i])
  {
    seq(|fs|, i requires 0 <= i < |fs| => Bound(ExpressionOf(resolve, fs[i].field), fs[i]))
  }

  /** A freshness policy with the expression it is measured on. */
  datatype AgeLimit = AgeLimit(expression: string, maximumAge: nat)

  function AgeLimitOf(resolve: Resolver, model: Model): Option<AgeLimit> {
    match model.freshness
    case None => None
    case Some(policy) => Some(AgeLimit(ExpressionOf(resolve, policy.field), policy.maximumAge))
  }

  /** The conditions and arguments of the filters, then those of the freshness bound. */
  function Emitted(bs: seq<Bound>, limit: Option<AgeLimit>): Compiled {
    if limit.None? then Compiled(Conditions(bs), Parameters(bs))
    else
      Compiled(Conditions(bs) + [Recency(limit.value.expression, |Parameters(bs)| + 1)],
               Parameters(bs) + [Number(limit.value.maximumAge as real)])
  }

  /** What compilation emits. */
  function Output(resolve: Resolver, model: Model, fs: seq<Filter>): Compiled {
    Emitted(Bind(resolve, Effective(resolve, model, fs)), AgeLimitOf(resolve, model))
  }

  lemma LayerFacts(layer: Layer, model: Model, fs: seq<Filter>)
    requires Built(layer) && model in layer.models && Accepted(ResolverOf(layer), model, fs)
    requires forall i :: 0 <= i < |fs| ==> ValidFilter(fs[i])
    ensures Faithful(ResolverOf(layer)) && AllInModel(ResolverOf(layer), model, Effective(ResolverOf(layer), model, fs))
    ensures FreshnessInModel(ResolverOf(layer), model)
  {
    BuiltLayersResolveNames(layer);
    EffectiveAreInModel(ResolverOf(layer), model, fs);
    DefaultsAreInModel(ResolverOf(layer), model);
  }

  /** The loop over the effective filters. */
  method CompileEach(resolve: Resolver, model: Model, filters: seq<Filter>) returns (r: Result<Compiled>)
    requires AllInModel(resolve, model, filters)
    ensures r == Ok(Emitted(Bind(resolve, filters), None))
  {
    ghost var bs := Bind(resolve, filters);
    var where: seq<Condition>, parameters: seq<Scalar> := [], [];
    for i := 0 to |filters|
      invariant where == Conditions(bs[..i]) && parameters == Parameters(bs[..i])
    {
      var field := filters[i].field;
      var resolved := resolve(field);
      assert InModel(resolve, model, filters[i]);
      if resolved.value.0 != model.name { return Err(OtherModel(field)); }
      var condition;
      condition, parameters := FilterCondition(resolved.value.1.expression, filters[i], parameters);
      where := where + [condition];
      assert bs[..i + 1][..i] == bs[..i] && bs[i] == Bound(resolved.value.1.expression, filters[i]);
    }
    assert bs[..|filters|] == bs;
    return Ok(Compiled(where, parameters));
  }

  method CompileFilters(resolve: Resolver, model: Model, filters: seq<Filter>) returns (r: Result<Compiled>)
    requires AllInModel(resolve, model, filters)
    requires FreshnessInModel(resolve, model)
    ensures r == Ok(Emitted(Bind(resolve, filters), AgeLimitOf(resolve, model)))
  {
    r := CompileEach(resolve, model, filters);
    if model.freshness.Some? {
      var Compiled(where, parameters) := r.value;
      var field := model.freshness.value.field;
      var resolved := resolve(field);
      if resolved.value.0 != model.name { return Err(OtherModel(field)); }
      parameters := parameters + [Number(model.freshness.value.maximumAge as real)];
      where := where + [Recency(resolved.value.1.expression, |parameters|)];
      r := Ok(Compiled(where, parameters));
    }
  }

  /** Fails exactly when a query filter is refused: the errors for a governed filter or a freshness
      field of another model cannot occur in a layer that was built. */
  method Compile(layer: Layer, model: Model, fs: seq<Filter>) returns (r: Result<Compiled>)
    requires Built(layer) && model in layer.models
    requires forall i :: 0 <= i < |fs| ==> ValidFilter(fs[i])
    ensures r.Ok? <==> Accepted(ResolverOf(layer), model, fs)
    ensures r.Ok? ==> r.value == Output(ResolverOf(layer), model, fs)
    ensures r.Err? ==> FirstProblem(ResolverOf(layer), model, fs, r.error)
  {
    var resolve := ResolverOf(layer);
    var effective := EffectiveFilters(resolve, model, fs);
    if effective.Err? { return Err(effective.error); }
    LayerFacts(layer, model, fs);
    r := CompileFilters(resolve, model, effective.value);
  }

  // ---------------------------------------------------------------------------------------------
  // Placeholders

  function PlaceholdersOf(c: Condition): seq<nat> {
    match c
    case NullTest(_, _) => []
    case Comparison(_, _, p) => [p]
    case Membership(_, _, ps) => ps
    case Recency(_, p) => [p]
  }

  function Placeholders(where: seq<Condition>): seq<nat> {
    if where == [] then [] else Placeholders(where[..|where| - 1]) + PlaceholdersOf(where[|where| - 1])
  }

  ghost predicate AllValid(bs: seq<Bound>) {
    forall i :: 0 <= i < |bs| ==> ValidFilter(bs[i].filter)
  }

  lemma NumberedAppends(m: nat, n: nat)
    ensures Numbered(0, m) + Numbered(m, n) == Numbered(0, m + n)
  {
  }

  lemma ConditionNumbers(b: Bound, base: nat)
    requires ValidFilter(b.filter)
    ensures PlaceholdersOf(ConditionOf(b, base)) == Numbered(base, |Arguments(b.filter)|)
  {
  }

  lemma PlaceholdersAppend(where: seq<Condition>, c: Condition)
    ensures Placeholders(where + [c]) == Placeholders(where) + PlaceholdersOf(c)
  {
    assert (where + [c])[..|where|] == where;
  }

  lemma NextConditionNumbers(where: seq<Condition>, n: nat, b: Bound)
    requires ValidFilter(b.filter) && Placeholders(where) == Numbered(0, n)
    ensures Placeholders(where + [ConditionOf(b, n)]) == Numbered(0, n + |Arguments(b.filter)|)
  {
    ConditionNumbers(b, n);
    NumberedAppends(n, |Arguments(b.filter)|);
    PlaceholdersAppend(where, ConditionOf(b, n));
  }

  lemma {:induction false} ConditionsNumber(bs: seq<Bound>)
    requires AllValid(bs)
    ensures Placeholders(Conditions(bs)) == Numbered(0, |Parameters(bs)|)
  {
    if bs == [] {
    } else {
      var init, last := bs[..|bs| - 1], bs[|bs| - 1];
      ConditionsNumber(init);
      NextConditionNumbers(Conditions(init), |Parameters(init)|, last);
    }
  }

  lemma LastPlaceholder(where: seq<Condition>, expression: string, n: nat)
    requires Placeholders(where) == Numbered(0, n)
    ensures Placeholders(where + [Recency(expression, n + 1)]) == Numbered(0, n + 1)
  {
    PlaceholdersAppend(where, Recency(expression, n + 1));
  }

  lemma OutputNumbers(resolve: Resolver, model: Model, fs: seq<Filter>)
    requires AllInModel(resolve, model, Effective(resolve, model, fs))
    ensures var output := Output(resolve, model, fs); Placeholders(output.where) == Numbered(0, |output.parameters|)
  {
    var bs := Bind(resolve, Effective(resolve, model, fs));
    forall i | 0 <= i < |bs| ensures ValidFilter(bs[i].filter) {
      assert InModel(resolve, model, Effective(resolve, model, fs)[i]);
    }
    ConditionsNumber(bs);
    if model.freshness.Some? {
      LastPlaceholder(Conditions(bs), AgeLimitOf(resolve, model).value.expression, |Parameters(bs)|);
    }
  }

  /** Read from left to right, the clause uses placeholders 1 to the number of parameters, each once and
      in order, also when repeated filters were dropped. */
  lemma PlaceholdersAreInOrder(layer: Layer, model: Model, fs: seq<Filter>)
    requires Built(layer) && model in layer.models && Accepted(ResolverOf(layer), model, fs)
    requires forall i :: 0 <= i < |fs| ==> ValidFilter(fs[i])
    ensures var output := Output(ResolverOf(layer), model, fs);
            && |Placeholders(output.where)| == |output.parameters|
            && forall i :: 0 <= i < |output.parameters| ==> Placeholders(output.where)[i] == i + 1
  {
    LayerFacts(layer, model, fs);
    OutputNumbers(ResolverOf(layer), model, fs);
  }

  // ---------------------------------------------------------------------------------------------
  // What filters ask of a row, and what SQL computes

  /** The values of the expressions on a row; an expression without one is NULL. */
  type Row = map<string, Scalar>

  /** The order SQL compares values by: the pairs in which the first is less. */
  type Order = iset<(Scalar, Scalar)>

  function Cell(row: Row, expression: string): Option<Scalar> {
    if expression in row then Some(row[expression]) else None
  }

  /** What a filter asks of the value of its dimension. */
  ghost predicate Admits(f: Filter, cell: Option<Scalar>, less: Order) {
    match f.operator
    case IsNull => cell.None?
    case IsNotNull => cell.Some?
    case Eq => cell.Some? && f.value == One(cell.value)
    case Ne => cell.Some? && f.value.One? && f.value.scalar != cell.value
    case Gt => cell.Some? && f.value.One? && (f.value.scalar, cell.value) in less
    case Gte => cell.Some? && f.value.One? && (cell.value, f.value.scalar) !in less
    case Lt => cell.Some? && f.value.One? && (cell.value, f.value.scalar) in less
    case Lte => cell.Some? && f.value.One? && (f.value.scalar, cell.value) !in less
    case In => cell.Some? && f.value.Many? && cell.value in f.value.scalars
    case NotIn => cell.Some? && f.value.Many? && cell.value !in f.value.scalars
  }

  /** The row satisfies the filter on the dimension its field resolves to. */
  ghost predicate Satisfies(resolve: Resolver, f: Filter, row: Row, less: Order) {
    resolve(f.field).Some? && Admits(f, Cell(row, resolve(f.field).value.1.expression), less)
  }

  ghost predicate SatisfiesAll(resolve: Resolver, fs: seq<Filter>, row: Row, less: Order) {
    forall i :: 0 <= i < |fs| ==> Satisfies(resolve, fs[i], row, less)
  }

  /** The row is no older than the freshness policy allows. */
  ghost predicate IsFresh(limit: Option<AgeLimit>, row: Row, now: real, less: Order) {
    limit.Some? ==>
      && Cell(row, limit.value.expression).Some?
      && (Cell(row, limit.value.expression).value, Time(now - limit.value.maximumAge as real)) !in less
  }

  datatype Truth = Yes | No | Unknown

  function And(a: Truth, b: Truth): Truth {
    if a == No || b == No then No else if a == Unknown || b == Unknown then Unknown else Yes
  }

  function Known(b: bool): Truth {
    if b then Yes else No
  }

  function Not(a: Truth): Truth {
    match a case Yes => No case No => Yes case Unknown => Unknown
  }

  ghost function Compare(cell: Option<Scalar>, symbol: Operator, x: Scalar, less: Order): Truth {
    if cell.None? then Unknown
    else
      var v := cell.value;
      match symbol
      case Eq => Known(v == x)
      case Ne => Known(v != x)
      case Gt => Known((x, v) in less)
      case Gte => Known((v, x) !in less)
      case Lt => Known((v, x) in less)
      case Lte => Known((x, v) !in less)
      case _ => Unknown
  }

  /** A placeholder stands for the parameter of that number, counted from 1. */
  function Argument(parameters: seq<Scalar>, placeholder: nat): Option<Scalar> {
    if 1 <= placeholder <= |parameters| then Some(parameters[placeholder - 1]) else None
  }

  ghost function CompareWith(cell: Option<Scalar>, symbol: Operator, x: Option<Scalar>, less: Order): Truth {
    if x.None? then Unknown else Compare(cell, symbol, x.value, less)
  }

  function Or(a: Truth, b: Truth): Truth {
    if a == Yes || b == Yes then Yes else if a == Unknown || b == Unknown then Unknown else No
  }

  /** `x IN (a, b, ...)` is `x = a OR x = b OR ...`. */
  ghost function IsMember(cell: Option<Scalar>, placeholders: seq<nat>, parameters: seq<Scalar>, less: Order): Truth {
    if placeholders == [] then No
    else
      Or(IsMember(cell, placeholders[..|placeholders| - 1], parameters, less),
         CompareWith(cell, Eq, Argument(parameters, placeholders[|placeholders| - 1]), less))
  }

  ghost function Evaluate(c: Condition, parameters: seq<Scalar>, row: Row, now: real, less: Order): Truth {
    match c
    case NullTest(e, negated) => Known(Cell(row, e).Some? == negated)
    case Comparison(e, symbol, p) => CompareWith(Cell(row, e), symbol, Argument(parameters, p), less)
    case Membership(e, negated, ps) =>
      var member := IsMember(Cell(row, e), ps, parameters, less);
      if negated then Not(member) else member
    case Recency(e, p) =>
      var age := Argument(parameters, p);
      if age.Some? && age.value.Number? then Compare(Cell(row, e), Gte, Time(now - age.value.number), less) else Unknown
  }

  ghost function EvaluateAll(where: seq<Condition>, parameters: seq<Scalar>, row: Row, now: real, less: Order): Truth {
    if where == [] then Yes
    else
      And(EvaluateAll(where[..|where| - 1], parameters, row, now, less),
          Evaluate(where[|where| - 1], parameters, row, now, less))
  }

  /** The SQL clause keeps the row. */
  ghost predicate Passes(output: Compiled, row: Row, now: real, less: Order) {
    EvaluateAll(output.where, output.parameters, row, now, less) == Yes
  }

  /** `scalars` are the parameters after the first `base`. */
  ghost predicate HoldsAt(parameters: seq<Scalar>, base: nat, scalars: seq<Scalar>) {
    && base + |scalars| <= |parameters|
    && forall i :: 0 <= i < |scalars| ==> parameters[base + i] == scalars[i]
  }

  /** The placeholders stand for the scalars, one each. */
  ghost predicate Stand(parameters: seq<Scalar>, ps: seq<nat>, scalars: seq<Scalar>) {
    |ps| == |scalars| && forall i :: 0 <= i < |ps| ==> Argument(parameters, ps[i]) == Some(scalars[i])
  }

  ghost function MemberTruth(cell: Option<Scalar>, scalars: seq<Scalar>): Truth {
    if scalars == [] then No else if cell.None? then Unknown else Known(cell.value in scalars)
  }

  lemma OneMoreTruth(cell: Option<Scalar>, scalars: seq<Scalar>, x: Scalar, less: Order)
    ensures MemberTruth(cell, scalars + [x]) == Or(MemberTruth(cell, scalars), Compare(cell, Eq, x, less))
  {
  }

  lemma {:induction false} MemberMeansIn(
      cell: Option<Scalar>, ps: seq<nat>, scalars: seq<Scalar>, parameters: seq<Scalar>, less: Order)
    requires Stand(parameters, ps, scalars)
    ensures IsMember(cell, ps, parameters, less) == MemberTruth(cell, scalars)
  {
    if ps == [] {
    } else {
      var n := |ps| - 1;
      MemberMeansIn(cell, ps[..n], scalars[..n], parameters, less);
      OneMoreTruth(cell, scalars[..n], scalars[n], less);
      assert scalars == scalars[..n] + [scalars[n]];
    }
  }

  lemma NumberedStand(parameters: seq<Scalar>, base: nat, scalars: seq<Scalar>)
    requires HoldsAt(parameters, base, scalars)
    ensures Stand(parameters, Numbered(base, |scalars|), scalars)
  {
    var ps := Numbered(base, |scalars|);
    forall i | 0 <= i < |ps| ensures Argument(parameters, ps[i]) == Some(scalars[i]) {
      assert parameters[base + i] == scalars[i];
    }
  }

  lemma MembershipMeans(
      expression: string, negated: bool, ps: seq<nat>, scalars: seq<Scalar>, parameters: seq<Scalar>, row: Row, now: real, less: Order)
    requires Stand(parameters, ps, scalars) && scalars != []
    ensures var cell := Cell(row, expression);
            Evaluate(Membership(expression, negated, ps), parameters, row, now, less) == Yes
            <==> cell.Some? && (cell.value in scalars <==> !negated)
  {
    MemberMeansIn(Cell(row, expression), ps, scalars, parameters, less);
  }

  lemma MembershipMeansFilter(b: Bound, base: nat, parameters: seq<Scalar>, row: Row, now: real, less: Order)
    requires ValidFilter(b.filter) && SetOperator(b.filter.operator) && HoldsAt(parameters, base, b.filter.value.scalars)
    ensures Evaluate(ConditionOf(b, base), parameters, row, now, less) == Yes <==> Admits(b.filter, Cell(row, b.expression), less)
  {
    var scalars, ps := b.filter.value.scalars, Numbered(base, |b.filter.value.scalars|);
    NumberedStand(parameters, base, scalars);
    MembershipMeans(b.expression, b.filter.operator == NotIn, ps, scalars, parameters, row, now, less);
    assert ConditionOf(b, base) == Membership(b.expression, b.filter.operator == NotIn, ps);
  }

  /** The condition of a filter is true on a row exactly when the row is what the filter asks for. */
  lemma ConditionMeansFilter(b: Bound, base: nat, parameters: seq<Scalar>, row: Row, now: real, less: Order)
    requires ValidFilter(b.filter) && HoldsAt(parameters, base, Arguments(b.filter))
    ensures Evaluate(ConditionOf(b, base), parameters, row, now, less) == Yes <==> Admits(b.filter, Cell(row, b.expression), less)
  {
    if SetOperator(b.filter.operator) {
      MembershipMeansFilter(b, base, parameters, row, now, less);
    } else if b.filter.value.One? {
      assert Argument(parameters, base + 1) == Some(b.filter.value.scalar) by {
        assert Arguments(b.filter)[0] == b.filter.value.scalar;
        assert parameters[base + 0] == Arguments(b.filter)[0];
      }
    }
  }

  ghost predicate AdmitAll(bs: seq<Bound>, row: Row, less: Order) {
    forall i :: 0 <= i < |bs| ==> Admits(bs[i].filter, Cell(row, bs[i].expression), less)
  }

  lemma OneMoreCondition(where: seq<Condition>, c: Condition, parameters: seq<Scalar>, row: Row, now: real, less: Order)
    ensures EvaluateAll(where + [c], parameters, row, now, less) == Yes
            <==> EvaluateAll(where, parameters, row, now, less) == Yes && Evaluate(c, parameters, row, now, less) == Yes
  {
    assert (where + [c])[..|where|] == where;
  }

  lemma PrefixHolds(before: seq<Scalar>, arguments: seq<Scalar>, parameters: seq<Scalar>)
    requires before + arguments <= parameters
    ensures before <= parameters && HoldsAt(parameters, |before|, arguments)
  {
    var both := before + arguments;
    assert forall i :: 0 <= i < |arguments| ==>
        both[|before| + i] == arguments[i] && parameters[|before| + i] == both[|before| + i];
  }

  /** Every condition is that of its own filter, with placeholders for its own arguments. */
  lemma {:induction false} ConditionAt(bs: seq<Bound>, i: nat)
    requires i < |bs|
    ensures Conditions(bs)[i] == ConditionOf(bs[i], |Parameters(bs[..i])|)
    ensures Parameters(bs[..i]) + Arguments(bs[i].filter) <= Parameters(bs)
  {
    if i < |bs| - 1 {
      var init := bs[..|bs| - 1];
      ConditionAt(init, i);
      assert init[..i] == bs[..i];
    }
  }

  /** A conjunction is true exactly when every condition is. */
  lemma {:induction false} AllTrue(where: seq<Condition>, parameters: seq<Scalar>, row: Row, now: real, less: Order)
    ensures EvaluateAll(where, parameters, row, now, less) == Yes
            <==> forall i :: 0 <= i < |where| ==> Evaluate(where[i], parameters, row, now, less) == Yes
  {
    if where == [] {
    } else {
      var init := where[..|where| - 1];
      AllTrue(init, parameters, row, now, less);
      assert forall i :: 0 <= i < |init| ==> init[i] == where[i];
    }
  }

  lemma ConditionsMeanFilters(bs: seq<Bound>, parameters: seq<Scalar>, row: Row, now: real, less: Order)
    requires AllValid(bs) && Parameters(bs) <= parameters
    ensures EvaluateAll(Conditions(bs), parameters, row, now, less) == Yes <==> AdmitAll(bs, row, less)
  {
    AllTrue(Conditions(bs), parameters, row, now, less);
    forall i | 0 <= i < |bs|
      ensures Evaluate(Conditions(bs)[i], parameters, row, now, less) == Yes
              <==> Admits(bs[i].filter, Cell(row, bs[i].expression), less)
    {
      ConditionAt(bs, i);
      PrefixHolds(Parameters(bs[..i]), Arguments(bs[i].filter), parameters);
      ConditionMeansFilter(bs[i], |Parameters(bs[..i])|, parameters, row, now, less);
    }
  }

  lemma RecencyMeansFresh(before: seq<Scalar>, limit: AgeLimit, row: Row, now: real, less: Order)
    ensures Evaluate(
              Recency(limit.expression, |before| + 1), before + [Number(limit.maximumAge as real)], row, now, less) == Yes
            <==> IsFresh(Some(limit), row, now, less)
  {
  }

  lemma LimitedMeaning(bs: seq<Bound>, limit: AgeLimit, row: Row, now: real, less: Order)
    requires AllValid(bs)
    ensures Passes(Emitted(bs, Some(limit)), row, now, less)
            <==> AdmitAll(bs, row, less) && IsFresh(Some(limit), row, now, less)
  {
    var parameters := Parameters(bs) + [Number(limit.maximumAge as real)];
    ConditionsMeanFilters(bs, parameters, row, now, less);
    OneMoreCondition(Conditions(bs), Recency(limit.expression, |Parameters(bs)| + 1), parameters, row, now, less);
    RecencyMeansFresh(Parameters(bs), limit, row, now, less);
  }

  lemma EmittedMeaning(bs: seq<Bound>, limit: Option<AgeLimit>, row: Row, now: real, less: Order)
    requires AllValid(bs)
    ensures Passes(Emitted(bs, limit), row, now, less) <==> AdmitAll(bs, row, less) && IsFresh(limit, row, now, less)
  {
    if limit.Some? {
      LimitedMeaning(bs, limit.value, row, now, less);
    } else {
      ConditionsMeanFilters(bs, Parameters(bs), row, now, less);
    }
  }

  // ---------------------------------------------------------------------------------------------
  // Meaning is preserved

  lemma SatisfiesEach(resolve: Resolver, fs: seq<Filter>, gs: seq<Filter>, row: Row, less: Order)
    ensures SatisfiesAll(resolve, fs + gs, row, less)
            <==> SatisfiesAll(resolve, fs, row, less) && SatisfiesAll(resolve, gs, row, less)
  {
    var all := fs + gs;
    if SatisfiesAll(resolve, all, row, less) {
      assert forall i :: 0 <= i < |fs| ==> all[i] == fs[i];
      assert forall i :: 0 <= i < |gs| ==> all[|fs| + i] == gs[i];
    }
  }

  /** An accepted filter that repeats a governed default asks what the default asks. */
  lemma RepeatedFilterMeansDefault(resolve: Resolver, model: Model, f: Filter, row: Row, less: Order)
    requires Faithful(resolve) && Problem(resolve, model, f).None?
    requires DefaultOn(model.defaults, resolve(f.field).value.1.name).Some?
    requires SatisfiesAll(resolve, model.defaults, row, less)
    ensures Satisfies(resolve, f, row, less)
  {
    var name := resolve(f.field).value.1.name;
    DefaultOnGoverns(model.defaults, name);
    var protected := DefaultOn(model.defaults, name).value;
    var i :| 0 <= i < |model.defaults| && model.defaults[i] == protected;
    assert Satisfies(resolve, model.defaults[i], row, less);
  }

  /** With the defaults in force, what an accepted filter adds asks what the filter asks. */
  lemma AddedByMeansFilter(resolve: Resolver, model: Model, f: Filter, row: Row, less: Order)
    requires Faithful(resolve) && Problem(resolve, model, f).None? && SatisfiesAll(resolve, model.defaults, row, less)
    ensures SatisfiesAll(resolve, AddedBy(resolve, model, f), row, less) <==> Satisfies(resolve, f, row, less)
  {
    var own := AddedBy(resolve, model, f);
    if own == [] {
      RepeatedFilterMeansDefault(resolve, model, f, row, less);
    } else {
      assert SatisfiesAll(resolve, own, row, less) <==> Satisfies(resolve, own[0], row, less);
    }
  }

  lemma {:induction false} AddedMeansQuery(resolve: Resolver, model: Model, fs: seq<Filter>, row: Row, less: Order)
    requires Faithful(resolve) && Accepted(resolve, model, fs) && SatisfiesAll(resolve, model.defaults, row, less)
    ensures SatisfiesAll(resolve, Added(resolve, model, fs), row, less) <==> SatisfiesAll(resolve, fs, row, less)
  {
    if fs == [] {
    } else {
      var init, last := fs[..|fs| - 1], fs[|fs| - 1];
      AddedMeansQuery(resolve, model, init, row, less);
      assert Problem(resolve, model, last).None?;
      AddedByMeansFilter(resolve, model, last, row, less);
      SatisfiesEach(resolve, Added(resolve, model, init), AddedBy(resolve, model, last), row, less);
      assert fs == init + [last];
      SatisfiesEach(resolve, init, [last], row, less);
      assert SatisfiesAll(resolve, [last], row, less) <==> Satisfies(resolve, [last][0], row, less);
    }
  }

  lemma EffectiveMeansAll(resolve: Resolver, model: Model, fs: seq<Filter>, row: Row, less: Order)
    requires Faithful(resolve) && Accepted(resolve, model, fs)
    ensures SatisfiesAll(resolve, Effective(resolve, model, fs), row, less)
            <==> SatisfiesAll(resolve, model.defaults, row, less) && SatisfiesAll(resolve, fs, row, less)
  {
    SatisfiesEach(resolve, model.defaults, Added(resolve, model, fs), row, less);
    if SatisfiesAll(resolve, model.defaults, row, less) {
      AddedMeansQuery(resolve, model, fs, row, less);
    }
  }

  /** The row has a value of the freshness field that is not older than the policy of the model allows. */
  ghost predicate FreshEnough(resolve: Resolver, model: Model, row: Row, now: real, less: Order) {
    match model.freshness
    case None => true
    case Some(policy) =>
      && resolve(policy.field).Some?
      && var cell := Cell(row, resolve(policy.field).value.1.expression);
         cell.Some? && (cell.value, Time(now - policy.maximumAge as real)) !in less
  }

  lemma FreshIsFreshEnough(resolve: Resolver, model: Model, row: Row, now: real, less: Order)
    requires FreshnessInModel(resolve, model)
    ensures IsFresh(AgeLimitOf(resolve, model), row, now, less) <==> FreshEnough(resolve, model, row, now, less)
  {
  }

  lemma BoundFiltersMeanFilters(resolve: Resolver, model: Model, fs: seq<Filter>, row: Row, less: Order)
    requires AllInModel(resolve, model, fs)
    ensures AllValid(Bind(resolve, fs))
    ensures AdmitAll(Bind(resolve, fs), row, less) <==> SatisfiesAll(resolve, fs, row, less)
  {
    var bs := Bind(resolve, fs);
    forall i | 0 <= i < |fs|
      ensures ValidFilter(bs[i].filter)
      ensures Admits(bs[i].filter, Cell(row, bs[i].expression), less) <==> Satisfies(resolve, fs[i], row, less)
    {
      assert InModel(resolve, model, fs[i]);
    }
  }

  /** A row passes the compiled clause under the emitted parameters exactly when it satisfies every
      governed default, every filter of the query and the freshness bound. */
  lemma MeaningIsPreserved(layer: Layer, model: Model, fs: seq<Filter>, row: Row, now: real, less: Order)
    requires Built(layer) && model in layer.models && Accepted(ResolverOf(layer), model, fs)
    requires forall i :: 0 <= i < |fs| ==> ValidFilter(fs[i])
    ensures var resolve := ResolverOf(layer);
            Passes(Output(resolve, model, fs), row, now, less)
            <==> && SatisfiesAll(resolve, model.defaults, row, less) && SatisfiesAll(resolve, fs, row, less)
                 && FreshEnough(resolve, model, row, now, less)
  {
    LayerFacts(layer, model, fs);
    var effective := Effective(ResolverOf(layer), model, fs);
    BoundFiltersMeanFilters(ResolverOf(layer), model, effective, row, less);
    EmittedMeaning(Bind(ResolverOf(layer), effective), AgeLimitOf(ResolverOf(layer), model), row, now, less);
    EffectiveMeansAll(ResolverOf(layer), model, fs, row, less);
    FreshIsFreshEnough(ResolverOf(layer), model, row, now, less);
  }
}
