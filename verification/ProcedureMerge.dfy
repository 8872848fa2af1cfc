/**
 * Merging the procedure maps of one category across routers: a strict
 * disjoint union that refuses to let a later map override a name an earlier
 * one already defines.
 */
module ProcedureMerge {
  import opened Wrappers
  import opened Routers

  /** No name is defined by two different maps of the list. */
  ghost predicate PairwiseDisjoint(maps: seq<ProcedureMap>) {
    forall i, j :: 0 <= i < j < |maps| ==> maps[i].Keys !! maps[j].Keys
  }

  /** Some map of the list defines `name`. */
  ghost predicate DefinedIn(maps: seq<ProcedureMap>, name: string) {
    exists i :: 0 <= i < |maps| && name in maps[i]
  }

  /**
   * `name` is defined by map `j` of `sources` and already by `target` or by
   * an earlier map of `sources`: a clash.
   */
  ghost predicate DefinedTwice(target: ProcedureMap, sources: seq<ProcedureMap>, name: string) {
    exists j :: 0 <= j < |sources| && name in sources[j] &&
      (name in target || exists i :: 0 <= i < j && name in sources[i])
  }

  /** Neither two of `sources`, nor `target` and one of `sources`, share a name. */
  ghost predicate Mergeable(target: ProcedureMap, sources: seq<ProcedureMap>) {
    && PairwiseDisjoint(sources)
    && forall i :: 0 <= i < |sources| ==> target.Keys !! sources[i].Keys
  }

  /**
   * Folding the first source into the target keeps mergeability unchanged,
   * provided the two share no name.
   */
  lemma MergeableUnfold(target: ProcedureMap, sources: seq<ProcedureMap>)
    requires sources != [] && target.Keys !! sources[0].Keys
    ensures Mergeable(target, sources) <==> Mergeable(target + sources[0], sources[1..])
  {
  }

  /**
   * Copies `target` and then every map of `sources` in order into one map,
   * failing on the first map that defines a name already present. On
   * success the result is exactly the union of all the maps, each name
   * bound to the procedure of the one map that defines it.
   */
  function MergeWithoutOverrides(target: ProcedureMap, sources: seq<ProcedureMap>): (r: Result<ProcedureMap, MergeError>)
    ensures r.Success? <==> Mergeable(target, sources)
    ensures r.Success? ==> forall name :: name in r.value <==> name in target || DefinedIn(sources, name)
    ensures r.Success? ==> forall name :: name in target ==> name in r.value && r.value[name] == target[name]
    ensures r.Success? ==> forall i, name :: 0 <= i < |sources| && name in sources[i] ==>
      name in r.value && r.value[name] == sources[i][name]
    ensures r.Failure? ==> r.error.DuplicateKey? && r.error.names != {}
    ensures r.Failure? ==> forall name :: name in r.error.names ==> DefinedTwice(target, sources, name)
    decreases |sources|
  {
    if sources == [] then Success(target)
    else
      var clash := target.Keys * sources[0].Keys;
      if clash != {} then
        assert forall name :: name in clash ==> name in sources[0] && name in target;
        assert !Mergeable(target, sources) by {
          var name :| name in clash;
          assert name in target && name in sources[0];
        }
        Failure(DuplicateKey(clash))
      else
        assert target.Keys !! sources[0].Keys by {
          forall name | name in target ensures name !in sources[0] {
            assert name !in clash;
          }
        }
        var rest := MergeWithoutOverrides(target + sources[0], sources[1..]);
        MergeableUnfold(target, sources);
        assert forall i :: 0 < i < |sources| ==> sources[i] == sources[1..][i - 1];
        assert rest.Failure? ==> forall name :: name in rest.error.names ==> DefinedTwice(target, sources, name) by {
          if rest.Failure? {
            forall name | name in rest.error.names ensures DefinedTwice(target, sources, name) {
              var j :| 0 <= j < |sources[1..]| && name in sources[1..][j] &&
                (name in target + sources[0] || exists i :: 0 <= i < j && name in sources[1..][i]);
              assert name in sources[j + 1];
              if name !in target && name !in sources[0] {
                var i :| 0 <= i < j && name in sources[1..][i];
                assert name in sources[i + 1];
              }
            }
          }
        }
        rest
  }
}
