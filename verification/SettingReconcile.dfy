/**
 * Reconciling one cross-cutting setting (error formatter or transformer)
 * across routers: a left fold whose accumulator starts at the framework's
 * default and either keeps, adopts or conflicts at each router.
 */
module SettingReconcile {
  import opened Wrappers

  /** A setting that is present and differs from the default. */
  predicate IsOverride<S(==)>(setting: Option<S>, default: S) {
    setting.Some? && setting.value != default
  }

  /** The value a setting overrides the default with, as a set of zero or one element. */
  function OverrideOf<S(==)>(setting: Option<S>, default: S): set<S> {
    if IsOverride(setting, default) then {setting.value} else {}
  }

  /** The non-default value an accumulator holds: none while it is the default. */
  function Held<S(==)>(current: S, default: S): (h: set<S>)
    ensures default !in h
  {
    if current == default then {} else {current}
  }

  /** The distinct values a list of settings overrides the default with. */
  function Overrides<S(==)>(settings: seq<Option<S>>, default: S): (o: set<S>)
    ensures default !in o
    ensures forall i :: 0 <= i < |settings| && IsOverride(settings[i], default) ==> settings[i].value in o
    ensures forall x :: x in o ==>
      exists i :: 0 <= i < |settings| && IsOverride(settings[i], default) && settings[i].value == x
  {
    if settings == [] then {}
    else
      var o := OverrideOf(settings[0], default) + Overrides(settings[1..], default);
      assert forall i :: 0 < i < |settings| ==> settings[i] == settings[1..][i - 1];
      o
  }

  /** A set with no two different elements. */
  predicate AtMostOne<S(==)>(values: set<S>) {
    forall x, y :: x in values && y in values ==> x == y
  }

  /**
   * The fold's step for one router's setting `next`: skip it when it is
   * missing or the default; adopt it when the accumulator is still the
   * default or already equal to it; otherwise fail with `conflict`. The
   * accumulator afterwards holds exactly the overrides it held before plus
   * that of `next`, and the step fails exactly when those are two.
   */
  function ReconcileStep<S(==), E>(current: S, next: Option<S>, default: S, conflict: E): (r: Result<S, E>)
    ensures r.Success? <==> AtMostOne(Held(current, default) + OverrideOf(next, default))
    ensures r.Success? ==> Held(r.value, default) == Held(current, default) + OverrideOf(next, default)
    ensures r.Failure? ==> r.error == conflict
    ensures !IsOverride(next, default) ==> r == Success(current)
  {
    if next.Some? && next.value != default then
      if current != default && current != next.value then
        assert current in Held(current, default) && next.value in OverrideOf(next, default);
        Failure(conflict)
      else
        Success(next.value)
    else
      Success(current)
  }

  /**
   * The fold over the remaining settings from accumulator `current`. It
   * succeeds exactly when the accumulator and the settings override the
   * default with at most one distinct value, and then ends holding exactly
   * that value (or the default when there is none); it fails only with
   * `conflict`.
   */
  function Reconcile<S(==), E>(current: S, settings: seq<Option<S>>, default: S, conflict: E): (r: Result<S, E>)
    ensures r.Success? <==> AtMostOne(Held(current, default) + Overrides(settings, default))
    ensures r.Success? ==> Held(r.value, default) == Held(current, default) + Overrides(settings, default)
    ensures r.Failure? ==> r.error == conflict
    decreases |settings|
  {
    if settings == [] then Success(current)
    else
      match ReconcileStep(current, settings[0], default, conflict)
      case Failure(e) => Failure(e)
      case Success(next) => Reconcile(next, settings[1..], default, conflict)
  }

  /**
   * The first setting of the list that overrides the default, if any: the
   * one a fold from the default adopts.
   */
  function FirstOverride<S(==)>(settings: seq<Option<S>>, default: S): (first: Option<S>)
    ensures first.None? ==> forall i :: 0 <= i < |settings| ==> !IsOverride(settings[i], default)
    ensures first.Some? ==>
      exists k :: 0 <= k < |settings| && IsOverride(settings[k], default) &&
        settings[k].value == first.value && forall i :: 0 <= i < k ==> !IsOverride(settings[i], default)
  {
    if settings == [] then None
    else if IsOverride(settings[0], default) then settings[0]
    else
      var first := FirstOverride(settings[1..], default);
      assert forall i :: 0 < i < |settings| ==> settings[i] == settings[1..][i - 1];
      assert first.Some? ==>
        exists k :: 0 <= k < |settings| && IsOverride(settings[k], default) &&
          settings[k].value == first.value && forall i :: 0 <= i < k ==> !IsOverride(settings[i], default)
      by {
        if first.Some? {
          var k :| 0 <= k < |settings[1..]| && IsOverride(settings[1..][k], default) &&
            settings[1..][k].value == first.value && forall i :: 0 <= i < k ==> !IsOverride(settings[1..][i], default);
          assert settings[k + 1] == settings[1..][k];
        }
      }
      first
  }

  /** An accumulator is determined by the override it holds. */
  lemma HeldDetermines<S>(x: S, y: S, default: S)
    requires Held(x, default) == Held(y, default)
    ensures x == y
  {
  }

  /**
   * Fold invariant: a fold started at the default that gets through a list
   * of settings ends at the first override of the list, or at the default
   * when nothing in it overrides. Applied to every prefix of the router
   * list, this is the accumulator after each step.
   */
  lemma ReconcileAdoptsFirstOverride<S, E>(settings: seq<Option<S>>, default: S, conflict: E)
    ensures var r := Reconcile(default, settings, default, conflict);
      r.Success? ==> r.value == match FirstOverride(settings, default) case None => default case Some(x) => x
  {
  }

  /**
   * The fold does not depend on the order of the settings, nor on how often
   * one repeats: two lists with the same overrides reconcile alike.
   */
  lemma ReconcileDependsOnlyOnOverrides<S, E>(current: S, a: seq<Option<S>>, b: seq<Option<S>>, default: S, conflict: E)
    requires Overrides(a, default) == Overrides(b, default)
    ensures Reconcile(current, a, default, conflict) == Reconcile(current, b, default, conflict)
  {
  }

  /** The overrides of a concatenation are those of its two parts. */
  lemma {:induction false} OverridesAppend<S>(a: seq<Option<S>>, b: seq<Option<S>>, default: S)
    ensures Overrides(a + b, default) == Overrides(a, default) + Overrides(b, default)
    decreases |a|
  {
    if a == [] {
      assert a + b == b;
    } else {
      assert (a + b)[1..] == a[1..] + b;
      OverridesAppend(a[1..], b, default);
    }
  }

  /**
   * Folding over `a + b` is folding over `a` and then, unless that failed,
   * over `b` from where it stopped: the fold is a left fold.
   */
  lemma ReconcileAppend<S, E>(current: S, a: seq<Option<S>>, b: seq<Option<S>>, default: S, conflict: E)
    ensures Reconcile(current, a + b, default, conflict) ==
      match Reconcile(current, a, default, conflict)
      case Failure(e) => Failure(e)
      case Success(middle) => Reconcile(middle, b, default, conflict)
  {
    OverridesAppend(a, b, default);
    var whole := Reconcile(current, a + b, default, conflict);
    match Reconcile(current, a, default, conflict)
    case Failure(e) =>
      assert !AtMostOne(Held(current, default) + Overrides(a, default));
    case Success(middle) =>
      var rest := Reconcile(middle, b, default, conflict);
      assert Held(middle, default) + Overrides(b, default) == Held(current, default) + Overrides(a + b, default);
      if whole.Success? {
        HeldDetermines(whole.value, rest.value, default);
      }
  }

  /** Folding two settings from the default does not depend on their order. */
  lemma ReconcilePairCommutes<S, E>(s1: Option<S>, s2: Option<S>, default: S, conflict: E)
    ensures Reconcile(default, [s1, s2], default, conflict) == Reconcile(default, [s2, s1], default, conflict)
  {
  }

  /** A second setting that does not override the default never conflicts with the first. */
  lemma ReconcilePairSecondSkipped<S, E>(s1: Option<S>, s2: Option<S>, default: S, conflict: E)
    requires !IsOverride(s2, default)
    ensures Reconcile(default, [s1, s2], default, conflict).Success?
  {
  }

  /** A setting itself, or the default when it is missing. */
  function SettingOrDefault<S>(setting: Option<S>, default: S): S {
    match setting
    case None => default
    case Some(x) => x
  }

  /** Folding a single setting from the default yields it, or the default when it is missing. */
  lemma ReconcileSingle<S, E>(setting: Option<S>, default: S, conflict: E)
    ensures Reconcile(default, [setting], default, conflict) == Success(SettingOrDefault(setting, default))
  {
  }
}
