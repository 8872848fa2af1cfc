/**
 * Laws of router composition that relate several compositions or single out
 * small cases: a single router, names shared across categories, isolation
 * of categories, and the order of two routers.
 */
module CompositionLaws {
  import opened Wrappers
  import opened Routers
  import opened ProcedureMerge
  import opened SettingReconcile
  import opened RouterMerge

  /** Merging one category of a single router yields that router's map. */
  lemma MergeCategorySingle(main: Router, c: Category)
    ensures MergeCategory([main], c) == Success(main.Procedures(c))
  {
    var r := MergeCategory([main], c);
    assert PairwiseDisjoint(ProcedureMaps([main], c));
    forall name ensures name in r.value <==> name in main.Procedures(c) {
      if name in r.value {
        assert DefinedIn(ProcedureMaps([main], c), name);
      }
    }
    assert [main][0] == main;
    assert r.value == main.Procedures(c);
  }

  /**
   * Merging one category of two routers: the union of their maps when the
   * maps share no name, otherwise a failure naming the names they share.
   */
  lemma MergeCategoryPair(a: Router, b: Router, c: Category)
    ensures var x, y := a.Procedures(c), b.Procedures(c);
      MergeCategory([a, b], c) == if x.Keys !! y.Keys then Success(x + y) else Failure(DuplicateKey(x.Keys * y.Keys))
  {
    var x, y := a.Procedures(c), b.Procedures(c);
    assert ProcedureMaps([a, b], c) == [x, y];
    assert map[] + x == x;
    assert [x, y][1..] == [y];
    assert MergeWithoutOverrides(map[], [x, y]) == MergeWithoutOverrides(x, [y]);
    if x.Keys !! y.Keys {
      assert x.Keys * y.Keys == {};
      assert [y][1..] == [];
      assert MergeWithoutOverrides(x, [y]) == MergeWithoutOverrides(x + y, []);
    } else {
      var name :| name in x.Keys && name in y.Keys;
      assert name in x.Keys * y.Keys;
    }
  }

  /**
   * Composing a single router goes through the same steps and builds a new
   * router with the same procedures; its settings are the router's own, with
   * a missing one replaced by the default.
   */
  lemma MergeSingleRouter(main: Router)
    ensures MergeRouters(main, []) == Success(Router(
      main.queries, main.mutations, main.subscriptions,
      Some(SettingOrDefault(main.errorFormatter, DefaultFormatter)),
      Some(SettingOrDefault(main.transformer, DefaultTransformer))))
  {
    assert RouterList(main, []) == [main];
    MergeCategorySingle(main, Queries);
    MergeCategorySingle(main, Mutations);
    MergeCategorySingle(main, Subscriptions);
    assert ErrorFormatters([main]) == [main.errorFormatter];
    assert Transformers([main]) == [main.transformer];
    ReconcileSingle(main.errorFormatter, DefaultFormatter, SeveralErrorFormatters);
    ReconcileSingle(main.transformer, DefaultTransformer, SeveralTransformers);
  }

  /**
   * Categories never interact: when two compositions see the same maps in
   * category `c`, that category of their results is the same, whatever the
   * routers hold in the other categories.
   */
  lemma CategoryIsolation(main1: Router, rest1: seq<Router>, main2: Router, rest2: seq<Router>, c: Category)
    requires ProcedureMaps(RouterList(main1, rest1), c) == ProcedureMaps(RouterList(main2, rest2), c)
    ensures var r1, r2 := MergeRouters(main1, rest1), MergeRouters(main2, rest2);
      r1.Success? && r2.Success? ==> r1.value.Procedures(c) == r2.value.Procedures(c)
  {
    var routers1, routers2 := RouterList(main1, rest1), RouterList(main2, rest2);
    assert MergeCategory(routers1, c) == MergeCategory(routers2, c);
    var r1, r2 := MergeRouters(main1, rest1), MergeRouters(main2, rest2);
    if r1.Success? && r2.Success? {
      MergeRoutersProcedures(main1, rest1, c);
      MergeRoutersProcedures(main2, rest2, c);
      MergeRoutersSucceeds(main1, rest1);
      MergeRoutersSucceeds(main2, rest2);
      MergeRoutersAssembles(main1, rest1);
      MergeRoutersAssembles(main2, rest2);
      assert MergeCategory(routers1, Queries).Success?;
      assert MergeCategory(routers1, Mutations).Success?;
      assert MergeCategory(routers1, Subscriptions).Success?;
      assert MergeCategory(routers2, Queries).Success?;
      assert MergeCategory(routers2, Mutations).Success?;
      assert MergeCategory(routers2, Subscriptions).Success?;
      assert r1.value.Procedures(c) == MergeCategory(routers1, c).value;
      assert r2.value.Procedures(c) == MergeCategory(routers2, c).value;
    }
  }

  /**
   * The category steps of composing a router that only has queries with one
   * that only has mutations: all succeed, the queries are the first
   * router's and the mutations the second's.
   */
  lemma SameNameInDifferentCategoriesMaps(a: Router, b: Router)
    requires a.mutations == map[] && a.subscriptions == map[]
    requires b.queries == map[] && b.subscriptions == map[]
    ensures MergeCategory([a, b], Queries) == Success(a.queries)
    ensures MergeCategory([a, b], Mutations) == Success(b.mutations)
    ensures MergeCategory([a, b], Subscriptions).Success?
  {
    assert a.queries + map[] == a.queries;
    assert map[] + b.mutations == b.mutations;
    MergeCategoryPair(a, b, Queries);
    MergeCategoryPair(a, b, Mutations);
    MergeCategoryPair(a, b, Subscriptions);
  }

  /**
   * A name used as a query in one router and as a mutation in another is no
   * clash: composing a router that only has queries with one that only has
   * mutations and overrides no setting always succeeds, keeping both maps.
   */
  lemma SameNameInDifferentCategories(a: Router, b: Router)
    requires a.mutations == map[] && a.subscriptions == map[]
    requires b.queries == map[] && b.subscriptions == map[]
    requires !IsOverride(b.errorFormatter, DefaultFormatter) && !IsOverride(b.transformer, DefaultTransformer)
    ensures MergeRouters(a, [b]).Success?
    ensures MergeRouters(a, [b]).value.queries == a.queries
    ensures MergeRouters(a, [b]).value.mutations == b.mutations
  {
    assert RouterList(a, [b]) == [a, b];
    SameNameInDifferentCategoriesMaps(a, b);
    assert ErrorFormatters([a, b]) == [a.errorFormatter, b.errorFormatter];
    assert Transformers([a, b]) == [a.transformer, b.transformer];
    ReconcilePairSecondSkipped(a.errorFormatter, b.errorFormatter, DefaultFormatter, SeveralErrorFormatters);
    ReconcilePairSecondSkipped(a.transformer, b.transformer, DefaultTransformer, SeveralTransformers);
    MergeRoutersAssembles(a, [b]);
  }

  /**
   * Composing a router with itself fails with a duplicate name as soon as
   * one of its categories defines a procedure, whatever its settings are.
   */
  lemma SelfCompositionFails(r: Router, c: Category)
    requires r.Procedures(c) != map[]
    ensures MergeRouters(r, [r]).Failure? && MergeRouters(r, [r]).error.DuplicateKey?
  {
  }

  /**
   * The union of two maps with no name in common does not depend on their
   * order; kept apart so that the map extensionality it needs stays out of
   * the larger proof below.
   */
  lemma DisjointUnionCommutes(x: ProcedureMap, y: ProcedureMap)
    requires x.Keys !! y.Keys
    ensures x + y == y + x
  {
  }

  /** Merging one category of two routers does not depend on their order. */
  lemma MergeCategoryPairCommutes(a: Router, b: Router, c: Category)
    ensures MergeCategory([a, b], c) == MergeCategory([b, a], c)
  {
    MergeCategoryPair(a, b, c);
    MergeCategoryPair(b, a, c);
    var x, y := a.Procedures(c), b.Procedures(c);
    if x.Keys !! y.Keys {
      DisjointUnionCommutes(x, y);
    } else {
      assert x.Keys * y.Keys == y.Keys * x.Keys;
    }
  }

  /**
   * With two routers the order of the arguments does not matter: the
   * composition yields the same router, or fails with the same error.
   */
  lemma MergeTwoRoutersCommutes(a: Router, b: Router)
    ensures MergeRouters(a, [b]) == MergeRouters(b, [a])
  {
    assert RouterList(a, [b]) == [a, b];
    assert RouterList(b, [a]) == [b, a];
    forall c ensures MergeCategory([a, b], c) == MergeCategory([b, a], c) {
      MergeCategoryPairCommutes(a, b, c);
    }
    assert ErrorFormatters([a, b]) == [a.errorFormatter, b.errorFormatter];
    assert ErrorFormatters([b, a]) == [b.errorFormatter, a.errorFormatter];
    ReconcilePairCommutes(a.errorFormatter, b.errorFormatter, DefaultFormatter, SeveralErrorFormatters);
    assert Transformers([a, b]) == [a.transformer, b.transformer];
    assert Transformers([b, a]) == [b.transformer, a.transformer];
    ReconcilePairCommutes(a.transformer, b.transformer, DefaultTransformer, SeveralTransformers);
    MergeRoutersAssembles(a, [b]);
    MergeRoutersAssembles(b, [a]);
  }

  /**
   * Two routers with different non-default error formatters cannot be
   * composed: the composition fails, with the formatter conflict unless a
   * duplicate name already stopped it.
   */
  lemma DistinctFormattersConflict(a: Router, b: Router)
    requires IsOverride(a.errorFormatter, DefaultFormatter) && IsOverride(b.errorFormatter, DefaultFormatter)
    requires a.errorFormatter != b.errorFormatter
    ensures MergeRouters(a, [b]).Failure?
    ensures MergeRouters(a, [b]).error == SeveralErrorFormatters || MergeRouters(a, [b]).error.DuplicateKey?
  {
  }

  /**
   * Two routers carrying the same non-default error formatter do not
   * conflict: if nothing else fails, the composition carries that formatter.
   */
  lemma RepeatedFormatterAgrees(a: Router, b: Router)
    requires IsOverride(a.errorFormatter, DefaultFormatter) && b.errorFormatter == a.errorFormatter
    ensures FormattersAgree(RouterList(a, [b]))
    ensures MergeRouters(a, [b]).Success? ==> MergeRouters(a, [b]).value.errorFormatter == a.errorFormatter
  {
  }
}
