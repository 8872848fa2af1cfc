/**
 * Composition of routers: the main router and the rest are merged category
 * by category, their error formatters and transformers are reconciled, and
 * a new router is assembled from the results. The first failure aborts the
 * whole composition.
 */
module RouterMerge {
  import opened Wrappers
  import opened Routers
  import opened ProcedureMerge
  import opened SettingReconcile

  /** The routers a composition works on: the main router, then the rest in argument order. */
  function RouterList(main: Router, rest: seq<Router>): (routers: seq<Router>)
    ensures |routers| == |rest| + 1 && routers[0] == main && routers[1..] == rest
  {
    [main] + rest
  }

  /** Every category's maps are pairwise disjoint across the routers. */
  ghost predicate CategoriesDisjoint(routers: seq<Router>) {
    forall c :: PairwiseDisjoint(ProcedureMaps(routers, c))
  }

  /** The routers override the default error formatter with at most one formatter. */
  ghost predicate FormattersAgree(routers: seq<Router>) {
    AtMostOne(Overrides(ErrorFormatters(routers), DefaultFormatter))
  }

  /** The routers override the default transformer with at most one transformer. */
  ghost predicate TransformersAgree(routers: seq<Router>) {
    AtMostOne(Overrides(Transformers(routers), DefaultTransformer))
  }

  /** Every name in `names` is defined in category `c` of two different routers. */
  ghost predicate DefinedByTwoRouters(routers: seq<Router>, c: Category, names: set<string>) {
    forall name :: name in names ==>
      exists i, j :: 0 <= i < j < |routers| && name in routers[i].Procedures(c) && name in routers[j].Procedures(c)
  }

  /** A name a merge from the empty map reports twice is defined by two different routers. */
  lemma DefinedTwiceByRouters(routers: seq<Router>, c: Category, names: set<string>)
    requires forall name :: name in names ==> DefinedTwice(map[], ProcedureMaps(routers, c), name)
    ensures DefinedByTwoRouters(routers, c, names)
  {
  }

  /**
   * The merge of category `c` of all the routers, starting from an empty
   * map: it draws only on that category of each router, and succeeds with
   * their union exactly when no name is defined twice in it.
   */
  function MergeCategory(routers: seq<Router>, c: Category): (r: Result<ProcedureMap, MergeError>)
    ensures r.Success? <==> PairwiseDisjoint(ProcedureMaps(routers, c))
    ensures r.Success? ==> forall name :: name in r.value <==> DefinedIn(ProcedureMaps(routers, c), name)
    ensures r.Success? ==> forall i, name :: 0 <= i < |routers| && name in routers[i].Procedures(c) ==>
      name in r.value && r.value[name] == routers[i].Procedures(c)[name]
    ensures r.Failure? ==>
      r.error.DuplicateKey? && r.error.names != {} && DefinedByTwoRouters(routers, c, r.error.names)
  {
    var maps := ProcedureMaps(routers, c);
    var r := MergeWithoutOverrides(map[], maps);
    assert r.Success? ==> forall i, name :: 0 <= i < |routers| && name in routers[i].Procedures(c) ==>
      name in maps[i] && name in r.value && r.value[name] == maps[i][name];
    assert r.Failure? ==> DefinedByTwoRouters(routers, c, r.error.names) by {
      if r.Failure? {
        DefinedTwiceByRouters(routers, c, r.error.names);
      }
    }
    r
  }

  /**
   * The error-formatter fold over the routers, from the default formatter:
   * it fails exactly when two routers override the default with different
   * formatters, and otherwise yields the one override or the default.
   */
  function ReconcileFormatters(routers: seq<Router>): (r: Result<Formatter, MergeError>)
    ensures r.Success? <==> FormattersAgree(routers)
    ensures r.Success? ==> Held(r.value, DefaultFormatter) == Overrides(ErrorFormatters(routers), DefaultFormatter)
    ensures r.Failure? ==> r.error == SeveralErrorFormatters
  {
    Reconcile(DefaultFormatter, ErrorFormatters(routers), DefaultFormatter, SeveralErrorFormatters)
  }

  /**
   * The transformer fold over the routers, from the default transformer,
   * with the same contract as the formatter fold.
   */
  function ReconcileTransformers(routers: seq<Router>): (r: Result<Transformer, MergeError>)
    ensures r.Success? <==> TransformersAgree(routers)
    ensures r.Success? ==> Held(r.value, DefaultTransformer) == Overrides(Transformers(routers), DefaultTransformer)
    ensures r.Failure? ==> r.error == SeveralTransformers
  {
    Reconcile(DefaultTransformer, Transformers(routers), DefaultTransformer, SeveralTransformers)
  }

  /**
   * Composes `main` and `rest` into a new router: the three categories are
   * merged, then the error formatters and then the transformers are
   * reconciled, and the router is assembled from the results. The first step
   * that fails aborts the rest. The lemmas below state what it promises.
   */
  function MergeRouters(main: Router, rest: seq<Router>): (r: Result<Router, MergeError>)
    ensures r.Success? ==> r.value.errorFormatter.Some? && r.value.transformer.Some?
  {
    var routers := RouterList(main, rest);
    var queries :- MergeCategory(routers, Queries);
    var mutations :- MergeCategory(routers, Mutations);
    var subscriptions :- MergeCategory(routers, Subscriptions);
    var errorFormatter :- ReconcileFormatters(routers);
    var transformer :- ReconcileTransformers(routers);
    Success(CreateRouter(errorFormatter, transformer, queries, mutations, subscriptions))
  }

  /**
   * A composition succeeds exactly when all five steps do, and is then a new
   * router whose three maps are exactly the merged maps and whose settings
   * are exactly the reconciled ones.
   */
  lemma MergeRoutersAssembles(main: Router, rest: seq<Router>)
    ensures var routers, r := RouterList(main, rest), MergeRouters(main, rest);
      var q, m, s := MergeCategory(routers, Queries), MergeCategory(routers, Mutations), MergeCategory(routers, Subscriptions);
      var f, t := ReconcileFormatters(routers), ReconcileTransformers(routers);
      && (r.Success? <==> q.Success? && m.Success? && s.Success? && f.Success? && t.Success?)
      && (r.Success? ==> r.value == Router(q.value, m.value, s.value, Some(f.value), Some(t.value)))
  {
  }

  /**
   * A composition succeeds exactly when no name is defined twice within a
   * category and neither setting is overridden with two different values.
   */
  lemma MergeRoutersSucceeds(main: Router, rest: seq<Router>)
    ensures var routers := RouterList(main, rest);
      MergeRouters(main, rest).Success? <==>
        CategoriesDisjoint(routers) && FormattersAgree(routers) && TransformersAgree(routers)
  {
  }

  /**
   * A successful composition holds, in each category, exactly the names some
   * router defines in that category, each bound to that router's procedure.
   */
  lemma MergeRoutersProcedures(main: Router, rest: seq<Router>, c: Category)
    ensures var routers, r := RouterList(main, rest), MergeRouters(main, rest);
      r.Success? ==>
        && (forall name :: name in r.value.Procedures(c) <==> DefinedIn(ProcedureMaps(routers, c), name))
        && forall i, name :: 0 <= i < |routers| && name in routers[i].Procedures(c) ==>
          name in r.value.Procedures(c) && r.value.Procedures(c)[name] == routers[i].Procedures(c)[name]
  {
    var routers, r := RouterList(main, rest), MergeRouters(main, rest);
    MergeRoutersAssembles(main, rest);
    if r.Success? {
      assert MergeCategory(routers, c).Success? && r.value.Procedures(c) == MergeCategory(routers, c).value by {
        match c
        case Queries =>
        case Mutations =>
        case Subscriptions =>
      }
    }
  }

  /**
   * A successful composition carries both settings; each is the one value
   * the routers override the default with, or the default when no router
   * overrides it.
   */
  lemma MergeRoutersSettings(main: Router, rest: seq<Router>)
    ensures var routers, r := RouterList(main, rest), MergeRouters(main, rest);
      r.Success? ==>
        && r.value.errorFormatter.Some?
        && Held(r.value.errorFormatter.value, DefaultFormatter) == Overrides(ErrorFormatters(routers), DefaultFormatter)
        && r.value.transformer.Some?
        && Held(r.value.transformer.value, DefaultTransformer) == Overrides(Transformers(routers), DefaultTransformer)
  {
  }

  /**
   * Failures come in the order of the steps: a duplicate name first, then
   * conflicting error formatters, then conflicting transformers. A duplicate
   * name failure reports names that two different routers both define in
   * one category.
   */
  lemma MergeRoutersFailureOrder(main: Router, rest: seq<Router>)
    ensures var routers, r := RouterList(main, rest), MergeRouters(main, rest);
      && (r.Failure? ==> (r.error.DuplicateKey? <==> !CategoriesDisjoint(routers)))
      && (r == Failure(SeveralErrorFormatters) <==> CategoriesDisjoint(routers) && !FormattersAgree(routers))
      && (r == Failure(SeveralTransformers) <==>
            CategoriesDisjoint(routers) && FormattersAgree(routers) && !TransformersAgree(routers))
      && (r.Failure? && r.error.DuplicateKey? ==>
            r.error.names != {} && exists c :: DefinedByTwoRouters(routers, c, r.error.names))
  {
  }

  /**
   * A duplicate name failure reports the clash of the first clashing
   * category, in the order queries, mutations, subscriptions.
   */
  lemma MergeRoutersFirstClash(main: Router, rest: seq<Router>)
    ensures var routers, r := RouterList(main, rest), MergeRouters(main, rest);
      var q, m, s := ProcedureMaps(routers, Queries), ProcedureMaps(routers, Mutations), ProcedureMaps(routers, Subscriptions);
      && (!PairwiseDisjoint(q) ==> r == Failure(MergeCategory(routers, Queries).error))
      && (PairwiseDisjoint(q) && !PairwiseDisjoint(m) ==> r == Failure(MergeCategory(routers, Mutations).error))
      && (PairwiseDisjoint(q) && PairwiseDisjoint(m) && !PairwiseDisjoint(s) ==>
            r == Failure(MergeCategory(routers, Subscriptions).error))
  {
  }
}
