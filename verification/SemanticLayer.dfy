/** The semantic layer: models with dimensions, governed default filters and freshness policies, and
    the index that resolves a field by name, synonym or `model.reference`. */
module SemanticLayer {
  import opened Wrappers

  datatype Result<+T> = Ok(value: T) | Err(error: Error)

  /** Whole numbers, fractions and truth values are equal when Python's `==` says so: all are numbers. */
  datatype Scalar = Text(text: string) | Number(number: real) | Time(at: real)

  datatype Operator = Eq | Ne | Gt | Gte | Lt | Lte | In | NotIn | IsNull | IsNotNull

  datatype FilterValue = Absent | One(scalar: Scalar) | Many(scalars: seq<Scalar>)

  datatype Filter = Filter(field: string, operator: Operator, value: FilterValue)

  /** A dimension or a metric, as far as the index sees it. */
  datatype Definition = Definition(name: string, expression: string, synonyms: seq<string>)

  type Dimension = Definition

  datatype Freshness = Freshness(field: string, maximumAge: nat)

  datatype Model = Model(
    name: string, dimensions: seq<Dimension>, metrics: seq<Definition>, defaults: seq<Filter>, freshness: Option<Freshness>)

  /** From a normalised alias to a definition and its model. */
  type Index = map<string, (string, Definition)>

  /** `key` normalises an alias; `index` finds dimensions and `metrics` finds metrics. */
  datatype Layer = Layer(key: string -> string, models: seq<Model>, index: Index, metrics: Index)

  datatype Error = AmbiguousAlias(alias: string) | NotFound(field: string) | OtherModel(field: string) | Override(name: string)

  // ---------------------------------------------------------------------------------------------
  // What the definitions guarantee

  predicate NullOperator(op: Operator) {
    op == IsNull || op == IsNotNull
  }

  predicate SetOperator(op: Operator) {
    op == In || op == NotIn
  }

  /** A null operator has no value, a set operator a non-empty tuple, any other one value. */
  predicate ValidFilter(f: Filter) {
    && (NullOperator(f.operator) <==> f.value.Absent?)
    && (SetOperator(f.operator) <==> f.value.Many?)
    && (f.value.Many? ==> f.value.scalars != [])
  }

  ghost predicate HasDimension(model: Model, name: string) {
    exists i :: 0 <= i < |model.dimensions| && model.dimensions[i].name == name
  }

  ghost predicate ValidModel(model: Model) {
    && (forall i :: 0 <= i < |model.defaults| ==> ValidFilter(model.defaults[i]) && HasDimension(model, model.defaults[i].field))
    && (forall i, j :: 0 <= i < j < |model.defaults| ==> model.defaults[i].field != model.defaults[j].field)
    && (model.freshness.Some? ==> HasDimension(model, model.freshness.value.field))
  }

  // ---------------------------------------------------------------------------------------------
  // The alias index

  datatype Alias = Alias(text: string, model: string, definition: Definition)

  datatype Kind = Metrics | Dimensions

  function Defined(model: Model, kind: Kind): seq<Definition> {
    match kind case Metrics => model.metrics case Dimensions => model.dimensions
  }

  function SynonymsOf(model: string, d: Definition, n: nat): seq<Alias>
    requires n <= |d.synonyms|
  {
    if n == 0 then [Alias(d.name, model, d)]
    else SynonymsOf(model, d, n - 1) + [Alias(d.synonyms[n - 1], model, d)]
  }

  function AliasesOf(model: string, defined: seq<Definition>, n: nat): seq<Alias>
    requires n <= |defined|
  {
    if n == 0 then []
    else AliasesOf(model, defined, n - 1) + SynonymsOf(model, defined[n - 1], |defined[n - 1].synonyms|)
  }

  /** Every name and synonym of every metric or every dimension, in the order they are indexed. */
  function Aliases(models: seq<Model>, kind: Kind): seq<Alias> {
    if models == [] then []
    else
      var last := models[|models| - 1];
      Aliases(models[..|models| - 1], kind) + AliasesOf(last.name, Defined(last, kind), |Defined(last, kind)|)
  }

  /** Aliases with the same key name the same definition of the same model. */
  ghost predicate Unambiguous(key: string -> string, aliases: seq<Alias>) {
    forall i, j :: 0 <= i < |aliases| && 0 <= j < |aliases| && key(aliases[i].text) == key(aliases[j].text) ==>
      aliases[i].model == aliases[j].model && aliases[i].definition == aliases[j].definition
  }

  ghost predicate IndexOf(key: string -> string, aliases: seq<Alias>, index: Index) {
    && (forall i :: 0 <= i < |aliases| ==>
          key(aliases[i].text) in index && index[key(aliases[i].text)] == (aliases[i].model, aliases[i].definition))
    && (forall k :: k in index ==> exists i :: 0 <= i < |aliases| && key(aliases[i].text) == k)
  }

  lemma Clash(key: string -> string, aliases: seq<Alias>, n: nat, index: Index)
    requires n < |aliases| && IndexOf(key, aliases[..n], index) && key(aliases[n].text) in index
    requires index[key(aliases[n].text)] != (aliases[n].model, aliases[n].definition)
    ensures !Unambiguous(key, aliases)
  {
    var i :| 0 <= i < n && key(aliases[..n][i].text) == key(aliases[n].text);
    assert key(aliases[i].text) == key(aliases[n].text);
  }

  lemma ExtendIndex(key: string -> string, aliases: seq<Alias>, alias: Alias, index: Index)
    requires IndexOf(key, aliases, index) && Unambiguous(key, aliases)
    requires key(alias.text) in index ==> index[key(alias.text)] == (alias.model, alias.definition)
    ensures var more := aliases + [alias];
            IndexOf(key, more, index[key(alias.text) := (alias.model, alias.definition)]) && Unambiguous(key, more)
  {
    var more, next := aliases + [alias], index[key(alias.text) := (alias.model, alias.definition)];
    forall k | k in next ensures exists i :: 0 <= i < |more| && key(more[i].text) == k {
      if k == key(alias.text) {
        assert key(more[|aliases|].text) == k;
      } else {
        var i :| 0 <= i < |aliases| && key(aliases[i].text) == k;
        assert key(more[i].text) == k;
      }
    }
    forall i | 0 <= i < |more|
      ensures key(more[i].text) in next && next[key(more[i].text)] == (more[i].model, more[i].definition)
    {
      if i < |aliases| { assert more[i] == aliases[i]; }
    }
  }

  method BuildIndex(key: string -> string, aliases: seq<Alias>) returns (r: Result<Index>)
    ensures r.Ok? <==> Unambiguous(key, aliases)
    ensures r.Ok? ==> IndexOf(key, aliases, r.value)
  {
    var index: Index := map[];
    for n := 0 to |aliases|
      invariant IndexOf(key, aliases[..n], index) && Unambiguous(key, aliases[..n])
    {
      var alias := aliases[n];
      var k := key(alias.text);
      if k in index && index[k] != (alias.model, alias.definition) {
        Clash(key, aliases, n, index);
        return Err(AmbiguousAlias(alias.text));
      }
      assert aliases[..n + 1] == aliases[..n] + [alias];
      ExtendIndex(key, aliases[..n], alias, index);
      index := index[k := (alias.model, alias.definition)];
    }
    assert aliases[..|aliases|] == aliases;
    return Ok(index);
  }

  /** The constructor of the layer. The source indexes the metrics and the dimensions of a model before
      the next model's; the two indexes are separate, so only which ambiguity is reported depends on it. */
  method BuildLayer(key: string -> string, models: seq<Model>) returns (r: Result<Layer>)
    ensures r.Ok? <==> Unambiguous(key, Aliases(models, Metrics)) && Unambiguous(key, Aliases(models, Dimensions))
    ensures r.Ok? ==>
              && r.value.key == key && r.value.models == models
              && IndexOf(key, Aliases(models, Metrics), r.value.metrics)
              && IndexOf(key, Aliases(models, Dimensions), r.value.index)
  {
    var metrics := BuildIndex(key, Aliases(models, Metrics));
    if metrics.Err? {
      return Err(metrics.error);
    }
    var dimensions := BuildIndex(key, Aliases(models, Dimensions));
    if dimensions.Err? {
      return Err(dimensions.error);
    }
    return Ok(Layer(key, models, dimensions.value, metrics.value));
  }

  lemma {:induction false} OwnNameIsAnAlias(model: string, d: Definition, n: nat)
    requires n <= |d.synonyms|
    ensures Alias(d.name, model, d) in SynonymsOf(model, d, n)
  {
    if n == 0 {
    } else {
      OwnNameIsAnAlias(model, d, n - 1);
    }
  }

  lemma {:induction false} ModelNamesAreAliases(model: string, defined: seq<Definition>, n: nat, i: nat)
    requires i < n <= |defined|
    ensures Alias(defined[i].name, model, defined[i]) in AliasesOf(model, defined, n)
  {
    var d := defined[n - 1];
    var before, own := AliasesOf(model, defined, n - 1), SynonymsOf(model, d, |d.synonyms|);
    assert AliasesOf(model, defined, n) == before + own;
    if i == n - 1 {
      OwnNameIsAnAlias(model, d, |d.synonyms|);
    } else {
      ModelNamesAreAliases(model, defined, n - 1, i);
    }
  }

  lemma {:induction false} NamesAreAliases(models: seq<Model>, kind: Kind, m: Model, d: Definition)
    requires m in models && d in Defined(m, kind)
    ensures Alias(d.name, m.name, d) in Aliases(models, kind)
  {
    var last := models[|models| - 1];
    if m == last {
      var i :| 0 <= i < |Defined(m, kind)| && Defined(m, kind)[i] == d;
      ModelNamesAreAliases(last.name, Defined(last, kind), |Defined(last, kind)|, i);
    } else {
      assert models == models[..|models| - 1] + [last];
      NamesAreAliases(models[..|models| - 1], kind, m, d);
    }
  }

  lemma {:induction false} SynonymsShareTheirDefinition(model: string, d: Definition, n: nat)
    requires n <= |d.synonyms|
    ensures forall a :: a in SynonymsOf(model, d, n) ==> a.model == model && a.definition == d
  {
    if n == 0 {
    } else {
      SynonymsShareTheirDefinition(model, d, n - 1);
    }
  }

  lemma {:induction false} ModelAliasHasItsName(model: string, defined: seq<Definition>, n: nat, a: Alias)
    requires n <= |defined| && a in AliasesOf(model, defined, n)
    ensures Alias(a.definition.name, a.model, a.definition) in AliasesOf(model, defined, n)
  {
    if a in AliasesOf(model, defined, n - 1) {
      ModelAliasHasItsName(model, defined, n - 1, a);
    } else {
      var d := defined[n - 1];
      SynonymsShareTheirDefinition(model, d, |d.synonyms|);
      OwnNameIsAnAlias(model, d, |d.synonyms|);
    }
  }

  lemma {:induction false} AliasHasItsName(models: seq<Model>, kind: Kind, a: Alias)
    requires a in Aliases(models, kind)
    ensures Alias(a.definition.name, a.model, a.definition) in Aliases(models, kind)
  {
    var last := models[|models| - 1];
    if a in Aliases(models[..|models| - 1], kind) {
      AliasHasItsName(models[..|models| - 1], kind, a);
    } else {
      ModelAliasHasItsName(last.name, Defined(last, kind), |Defined(last, kind)|, a);
    }
  }

  // ---------------------------------------------------------------------------------------------
  // What the aliases are

  ghost predicate Named(d: Definition, text: string) {
    text == d.name || text in d.synonyms
  }

  /** Some model of that name defines it. */
  ghost predicate Defines(models: seq<Model>, kind: Kind, model: string, d: Definition) {
    exists m :: m in models && m.name == model && d in Defined(m, kind)
  }

  lemma {:induction false} SynonymsAre(model: string, d: Definition, n: nat, a: Alias)
    requires n <= |d.synonyms|
    ensures a in SynonymsOf(model, d, n) <==>
            a.model == model && a.definition == d && (a.text == d.name || a.text in d.synonyms[..n])
  {
    if n == 0 {
    } else {
      SynonymsAre(model, d, n - 1, a);
      assert d.synonyms[..n] == d.synonyms[..n - 1] + [d.synonyms[n - 1]];
    }
  }

  lemma {:induction false} ModelAliasesAre(model: string, defined: seq<Definition>, n: nat, a: Alias)
    requires n <= |defined|
    ensures a in AliasesOf(model, defined, n) <==>
            a.model == model && a.definition in defined[..n] && Named(a.definition, a.text)
  {
    if n == 0 {
    } else {
      var d := defined[n - 1];
      ModelAliasesAre(model, defined, n - 1, a);
      SynonymsAre(model, d, |d.synonyms|, a);
      assert d.synonyms[..|d.synonyms|] == d.synonyms;
      assert defined[..n] == defined[..n - 1] + [d];
    }
  }

  /** The aliases are the names and synonyms of everything the models define, and nothing else. */
  lemma {:induction false} AliasesAre(models: seq<Model>, kind: Kind, a: Alias)
    ensures a in Aliases(models, kind) <==> Defines(models, kind, a.model, a.definition) && Named(a.definition, a.text)
  {
    if models == [] {
    } else {
      var init, last := models[..|models| - 1], models[|models| - 1];
      AliasesAre(init, kind, a);
      ModelAliasesAre(last.name, Defined(last, kind), |Defined(last, kind)|, a);
      assert Defined(last, kind)[..|Defined(last, kind)|] == Defined(last, kind);
      assert models == init + [last];
    }
  }

  lemma AliasIsIndexed(key: string -> string, aliases: seq<Alias>, index: Index, a: Alias)
    requires IndexOf(key, aliases, index) && a in aliases
    ensures key(a.text) in index && index[key(a.text)] == (a.model, a.definition)
  {
    var i :| 0 <= i < |aliases| && aliases[i] == a;
  }

  // ---------------------------------------------------------------------------------------------
  // Resolving fields

  /** The position of the last dot, or -1. */
  function LastDot(name: string): (i: int)
    ensures -1 <= i < |name|
    ensures i >= 0 ==> name[i] == '.'
    ensures forall j :: i < j < |name| ==> name[j] != '.'
  {
    if name == "" then -1
    else if name[|name| - 1] == '.' then |name| - 1
    else LastDot(name[..|name| - 1])
  }

  /** A dimension by name or synonym, or by `model.reference`. */
  function Resolve(layer: Layer, name: string): Option<(string, Dimension)> {
    if layer.key(name) in layer.index then Some(layer.index[layer.key(name)])
    else
      var dot := LastDot(name);
      if dot < 0 then None
      else
        var reference := layer.key(name[dot + 1..]);
        if reference in layer.index && layer.key(layer.index[reference].0) == layer.key(name[..dot])
        then Some(layer.index[reference]) else None
  }

  // ---------------------------------------------------------------------------------------------
  // What a built layer guarantees

  /** How a field resolves: to a model name and a dimension, or not at all. */
  type Resolver = string -> Option<(string, Dimension)>

  function ResolverOf(layer: Layer): Resolver {
    name => Resolve(layer, name)
  }

  /** The layer came out of its constructor. */
  ghost predicate Built(layer: Layer) {
    && IndexOf(layer.key, Aliases(layer.models, Dimensions), layer.index)
    && IndexOf(layer.key, Aliases(layer.models, Metrics), layer.metrics)
    && forall m :: m in layer.models ==> ValidModel(m)
  }

  /** Whatever a field resolves to is found again under its own name. */
  ghost predicate Faithful(resolve: Resolver) {
    forall field :: resolve(field).Some? ==> resolve(resolve(field).value.1.name) == resolve(field)
  }

  /** The dimensions of the model are found under their own names. */
  ghost predicate OwnNames(resolve: Resolver, model: Model) {
    forall i :: 0 <= i < |model.dimensions| ==> resolve(model.dimensions[i].name) == Some((model.name, model.dimensions[i]))
  }

  lemma IndexedUnderItsName(layer: Layer, k: string)
    requires Built(layer) && k in layer.index
    ensures var d := layer.index[k].1; layer.key(d.name) in layer.index && layer.index[layer.key(d.name)] == layer.index[k]
  {
    var aliases := Aliases(layer.models, Dimensions);
    var i :| 0 <= i < |aliases| && layer.key(aliases[i].text) == k;
    AliasHasItsName(layer.models, Dimensions, aliases[i]);
    var own := Alias(aliases[i].definition.name, aliases[i].model, aliases[i].definition);
    AliasIsIndexed(layer.key, aliases, layer.index, own);
  }

  /** Names resolve faithfully in every layer that could be built, whatever aliases the key function
      identifies. */
  lemma BuiltLayersResolveNames(layer: Layer)
    requires Built(layer)
    ensures Faithful(ResolverOf(layer))
    ensures forall m :: m in layer.models ==> OwnNames(ResolverOf(layer), m)
  {
    forall field | Resolve(layer, field).Some?
      ensures Resolve(layer, Resolve(layer, field).value.1.name) == Resolve(layer, field)
    {
      var own := layer.key(field);
      IndexedUnderItsName(layer, if own in layer.index then own else layer.key(field[LastDot(field) + 1..]));
    }
    forall m | m in layer.models ensures OwnNames(ResolverOf(layer), m) {
      forall i | 0 <= i < |m.dimensions| ensures Resolve(layer, m.dimensions[i].name) == Some((m.name, m.dimensions[i])) {
        NamesAreAliases(layer.models, Dimensions, m, m.dimensions[i]);
        var own := Alias(m.dimensions[i].name, m.name, m.dimensions[i]);
        AliasIsIndexed(layer.key, Aliases(layer.models, Dimensions), layer.index, own);
      }
    }
  }

  // ---------------------------------------------------------------------------------------------
  // What a name stands for

  /** A dimension of the models that has an alias with this key. */
  ghost predicate Called(layer: Layer, k: string, model: string, d: Dimension) {
    Defines(layer.models, Dimensions, model, d) && exists text :: Named(d, text) && layer.key(text) == k
  }

  ghost predicate Uncalled(layer: Layer, k: string) {
    forall model, d :: !Called(layer, k, model, d)
  }

  /** The name is the model, a dot, and an alias without a dot. */
  ghost predicate Qualifies(layer: Layer, name: string, model: string, d: Dimension) {
    exists prefix, reference ::
      && name == prefix + "." + reference && '.' !in reference
      && Called(layer, layer.key(reference), model, d) && layer.key(model) == layer.key(prefix)
  }

  lemma IndexedIffCalled(layer: Layer, k: string, model: string, d: Dimension)
    requires Built(layer)
    ensures k in layer.index && layer.index[k] == (model, d) <==> Called(layer, k, model, d)
  {
    var aliases := Aliases(layer.models, Dimensions);
    if k in layer.index && layer.index[k] == (model, d) {
      var i :| 0 <= i < |aliases| && layer.key(aliases[i].text) == k;
      AliasesAre(layer.models, Dimensions, aliases[i]);
    }
    if Called(layer, k, model, d) {
      var text :| Named(d, text) && layer.key(text) == k;
      AliasesAre(layer.models, Dimensions, Alias(text, model, d));
      AliasIsIndexed(layer.key, aliases, layer.index, Alias(text, model, d));
    }
  }

  lemma UnindexedIffUncalled(layer: Layer, k: string)
    requires Built(layer)
    ensures k !in layer.index <==> Uncalled(layer, k)
  {
    if k in layer.index {
      IndexedIffCalled(layer, k, layer.index[k].0, layer.index[k].1);
    } else {
      forall model, d ensures !Called(layer, k, model, d) {
        IndexedIffCalled(layer, k, model, d);
      }
    }
  }

  lemma SplitAtLastDot(name: string, prefix: string, reference: string)
    requires name == prefix + "." + reference && '.' !in reference
    ensures LastDot(name) == |prefix| && name[..|prefix|] == prefix && name[|prefix| + 1..] == reference
  {
    assert name[|prefix|] == '.';
    forall j | |prefix| < j < |name| ensures name[j] != '.' {
      assert name[j] == reference[j - |prefix| - 1];
    }
  }

  lemma QualifiedIff(layer: Layer, name: string, model: string, d: Dimension)
    requires Built(layer) && layer.key(name) !in layer.index
    ensures Resolve(layer, name) == Some((model, d)) <==> Qualifies(layer, name, model, d)
  {
    var dot := LastDot(name);
    if Resolve(layer, name) == Some((model, d)) {
      var prefix, reference := name[..dot], name[dot + 1..];
      IndexedIffCalled(layer, layer.key(reference), model, d);
      assert name == prefix + "." + reference;
    }
    if prefix, reference :|
        && name == prefix + "." + reference && '.' !in reference
        && Called(layer, layer.key(reference), model, d) && layer.key(model) == layer.key(prefix) {
      SplitAtLastDot(name, prefix, reference);
      IndexedIffCalled(layer, layer.key(reference), model, d);
    }
  }

  /** A field of a built layer resolves to a dimension exactly if the dimension has an alias with the key of
      the field; or no dimension has, and the field is the model of the dimension, a dot and an alias of it. */
  lemma ResolvesIff(layer: Layer, name: string, model: string, d: Dimension)
    requires Built(layer)
    ensures Resolve(layer, name) == Some((model, d)) <==>
            || Called(layer, layer.key(name), model, d)
            || (Uncalled(layer, layer.key(name)) && Qualifies(layer, name, model, d))
  {
    IndexedIffCalled(layer, layer.key(name), model, d);
    UnindexedIffUncalled(layer, layer.key(name));
    if layer.key(name) !in layer.index {
      QualifiedIff(layer, name, model, d);
    }
  }
}
