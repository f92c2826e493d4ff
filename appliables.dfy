/** The appliables mixin (lib/lino/builders/mixins/appliables.rb), generic
    over the builder it is mixed into. An appliable is anything with an
    `apply(builder)` that returns a builder; here it is a total function
    from builders to builders. */
module Appliables {
  import opened Wrappers
  import opened Validation

  /** `with_appliable`: nil leaves the builder as it is, otherwise the
      result is whatever the appliable makes of the builder. */
  function WithAppliable<B>(b: B, appliable: Maybe<B -> B>): (r: B)
    ensures appliable.None? ==> r == b
    ensures appliable.Some? ==> r == appliable.value(b)
  {
    match appliable
    case None => b
    case Some(apply) => apply(b)
  }

  /** The `inject` of `with_appliable` over the list, left to right. */
  function ApplyAll<B>(b: B, appliables: seq<Maybe<B -> B>>): B
  {
    if appliables == [] then b
    else ApplyAll(WithAppliable(b, appliables[0]), appliables[1..])
  }

  /** `with_appliables`: a nil or empty list leaves the builder as it is,
      otherwise the appliables are applied in list order. */
  function WithAppliables<B>(b: B, appliables: Maybe<seq<Maybe<B -> B>>>): (r: B)
    ensures appliables.None? || appliables == Some([]) ==> r == b
    ensures appliables.Some? ==> r == ApplyAll(b, appliables.value)
  {
    if IsNilOrEmpty(OfList(appliables)) then b
    else ApplyAll(b, appliables.value)
  }

  /** A one-element list is `with_appliable` of its element. */
  lemma WithAppliablesOfOne<B>(b: B, appliable: Maybe<B -> B>)
    ensures WithAppliables(b, Some([appliable])) == WithAppliable(b, appliable)
  {
    assert [appliable][1..] == [];
    assert ApplyAll(b, [appliable]) == ApplyAll(WithAppliable(b, appliable), []);
  }

  /** Applying a concatenation applies the first part, then the second. */
  lemma {:induction false} ApplyAllAppend<B>(b: B, first: seq<Maybe<B -> B>>, second: seq<Maybe<B -> B>>)
    ensures ApplyAll(b, first + second) == ApplyAll(ApplyAll(b, first), second)
  {
    if first == [] {
      assert first + second == second;
    } else {
      assert (first + second)[1..] == first[1..] + second;
      ApplyAllAppend(WithAppliable(b, first[0]), first[1..], second);
    }
  }

  /** Nil entries are skipped: a list of nils leaves the builder as it is. */
  lemma {:induction false} NilAppliablesSkipped<B>(b: B, appliables: seq<Maybe<B -> B>>)
    requires forall i :: 0 <= i < |appliables| ==> appliables[i].None?
    ensures ApplyAll(b, appliables) == b
  {
    if appliables != [] {
      NilAppliablesSkipped(b, appliables[1..]);
    }
  }

  /** The order of the list is the order of application. */
  lemma ApplyTwoInOrder<B>(b: B, f: B -> B, g: B -> B)
    ensures WithAppliables(b, Some([Some(f), Some(g)])) == g(f(b))
  {
    assert [Some(f), Some(g)][1..] == [Some(g)];
    assert [Some(g)][1..] == [];
    assert ApplyAll(b, [Some(f), Some(g)]) == ApplyAll(f(b), [Some(g)]);
    assert ApplyAll(f(b), [Some(g)]) == ApplyAll(g(f(b)), []);
  }
}
