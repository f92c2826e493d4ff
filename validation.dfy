/** The two predicates behind every no-op guard of the builder
    (lib/lino/builders/mixins/validation.rb). Inputs reach the builder as
    dynamically typed Ruby values; `Value` keeps only what the predicates
    can observe of them. */
module Validation {
  import opened Wrappers

  /** A Ruby value as seen by `empty?`: nil, a string, a number (which has
      no notion of emptiness) or a collection of some size. */
  datatype Value = Nil | Str(text: string) | Num(number: int) | Collection(size: nat)

  /** Ruby `value.respond_to?(:empty?) && value.empty?`. */
  predicate IsEmpty(v: Value)
  {
    match v
    case Str(s) => s == ""
    case Collection(n) => n == 0
    case _ => false
  }

  /** Ruby `value.nil? || empty?(value)`. */
  predicate IsNilOrEmpty(v: Value)
  {
    v.Nil? || IsEmpty(v)
  }

  /** A possibly-nil string as a Ruby value. */
  function OfText(m: Maybe<string>): (v: Value)
    ensures m.None? <==> v.Nil?
    ensures m.Some? ==> v == Str(m.value)
  {
    match m
    case None => Nil
    case Some(s) => Str(s)
  }

  /** A possibly-nil list as a Ruby value. */
  function OfList<X>(m: Maybe<seq<X>>): (v: Value)
    ensures m.None? <==> v.Nil?
    ensures m.Some? ==> v == Collection(|m.value|)
  {
    match m
    case None => Nil
    case Some(xs) => Collection(|xs|)
  }

  /** The guard used for option values, flags and arguments: the input is
      absent (nil) or the empty string. */
  predicate IsAbsent(m: Maybe<string>)
  {
    IsNilOrEmpty(OfText(m))
  }

  /** The present (non-nil, non-empty) strings of a list, in order. */
  function Present(xs: seq<Maybe<string>>): (r: seq<string>)
    ensures |r| <= |xs|
    ensures forall s :: s in r ==> s != ""
    ensures forall s :: s in r <==> s != "" && Some(s) in xs
  {
    if xs == [] then []
    else if IsAbsent(xs[0]) then Present(xs[1..])
    else [xs[0].value] + Present(xs[1..])
  }

  lemma {:induction false} PresentAppend(a: seq<Maybe<string>>, b: seq<Maybe<string>>)
    ensures Present(a + b) == Present(a) + Present(b)
  {
    if a == [] {
      assert a + b == b;
    } else {
      assert (a + b)[1..] == a[1..] + b;
      PresentAppend(a[1..], b);
    }
  }

  /** Emptiness is exactly the empty string or the empty collection. */
  lemma EmptyExactly(v: Value)
    ensures IsEmpty(v) <==> v == Str("") || v == Collection(0)
  {
  }

  /** A number has no notion of emptiness: it is never empty and never nil. */
  lemma NumberNeverEmpty(n: int)
    ensures !IsEmpty(Num(n)) && !IsNilOrEmpty(Num(n))
  {
  }

  /** `nil_or_empty?` holds of nil, and otherwise agrees with `empty?`. */
  lemma NilOrEmptyCases(v: Value)
    ensures IsNilOrEmpty(Nil)
    ensures !v.Nil? ==> (IsNilOrEmpty(v) <==> IsEmpty(v))
  {
  }

  /** The guard on a possibly-nil string: nil or "". */
  lemma AbsentExactly(m: Maybe<string>)
    ensures IsAbsent(m) <==> m == None || m == Some("")
  {
  }

  /** The guard on a possibly-nil list: nil or []. */
  lemma NilOrEmptyList<X>(m: Maybe<seq<X>>)
    ensures IsNilOrEmpty(OfList(m)) <==> m == None || m == Some([])
  {
  }
}
