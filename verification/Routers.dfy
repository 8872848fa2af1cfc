/**
 * The data model of router composition: procedures, the procedure maps of a
 * router's three categories, the two cross-cutting settings and the errors a
 * composition can raise.
 */
module Routers {
  import opened Wrappers

  /** A procedure; only its identity matters to the merge. */
  datatype Procedure = Procedure(id: nat)

  /** An error formatter, compared by identity. */
  datatype Formatter = Formatter(id: nat)

  /** A data transformer, compared by identity. */
  datatype Transformer = Transformer(id: nat)

  /** The framework's sentinel formatter, standing for "not overridden". */
  const DefaultFormatter: Formatter := Formatter(0)

  /** The framework's sentinel transformer, standing for "not overridden". */
  const DefaultTransformer: Transformer := Transformer(0)

  /** Procedure name to procedure, within one category of one router. */
  type ProcedureMap = map<string, Procedure>

  /** The three kinds of procedure a router holds. */
  datatype Category = Queries | Mutations | Subscriptions

  /**
   * A router: one procedure map per category and the two settings. A router
   * may carry no formatter or no transformer at all (`None`).
   */
  datatype Router = Router(
    queries: ProcedureMap,
    mutations: ProcedureMap,
    subscriptions: ProcedureMap,
    errorFormatter: Option<Formatter>,
    transformer: Option<Transformer>)
  {
    /** The procedure map of category `c`. */
    function Procedures(c: Category): ProcedureMap {
      match c
      case Queries => queries
      case Mutations => mutations
      case Subscriptions => subscriptions
    }
  }

  /** Why a composition fails. */
  datatype MergeError =
    | DuplicateKey(names: set<string>)  // the names the first clashing map shares with the ones before it
    | SeveralErrorFormatters
    | SeveralTransformers

  /** The maps of category `c`, one per router, in router order. */
  function ProcedureMaps(routers: seq<Router>, c: Category): (maps: seq<ProcedureMap>)
    ensures |maps| == |routers|
    ensures forall i :: 0 <= i < |routers| ==> maps[i] == routers[i].Procedures(c)
  {
    seq(|routers|, i requires 0 <= i < |routers| => routers[i].Procedures(c))
  }

  /** The routers' error formatters, in router order. */
  function ErrorFormatters(routers: seq<Router>): (settings: seq<Option<Formatter>>)
    ensures |settings| == |routers|
    ensures forall i :: 0 <= i < |routers| ==> settings[i] == routers[i].errorFormatter
  {
    seq(|routers|, i requires 0 <= i < |routers| => routers[i].errorFormatter)
  }

  /** The routers' transformers, in router order. */
  function Transformers(routers: seq<Router>): (settings: seq<Option<Transformer>>)
    ensures |settings| == |routers|
    ensures forall i :: 0 <= i < |routers| ==> settings[i] == routers[i].transformer
  {
    seq(|routers|, i requires 0 <= i < |routers| => routers[i].transformer)
  }

  /**
   * The router factory: it only bundles its arguments into a new router,
   * whose settings are always present.
   */
  function CreateRouter(
    errorFormatter: Formatter, transformer: Transformer,
    queries: ProcedureMap, mutations: ProcedureMap, subscriptions: ProcedureMap): (r: Router)
    ensures r.Procedures(Queries) == queries && r.Procedures(Mutations) == mutations
    ensures r.Procedures(Subscriptions) == subscriptions
    ensures r.errorFormatter == Some(errorFormatter) && r.transformer == Some(transformer)
  {
    Router(queries, mutations, subscriptions, Some(errorFormatter), Some(transformer))
  }
}
