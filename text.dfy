/** The two list operations the renderer is built from: Ruby's `flatten`
    and `join(' ')` over lists of strings. */
module Text {

  /** The concatenation of a list of token lists (Ruby `flatten` one level). */
  function Flatten(xss: seq<seq<string>>): (r: seq<string>)
    ensures xss == [] ==> r == []
    ensures |xss| == 1 ==> r == xss[0]
  {
    if xss == [] then [] else xss[0] + Flatten(xss[1..])
  }

  /** `f` applied to every element, in order (Ruby `map`). */
  function Map<T, U>(f: T -> U, xs: seq<T>): (r: seq<U>)
    ensures |r| == |xs|
    ensures forall i :: 0 <= i < |xs| ==> r[i] == f(xs[i])
  {
    if xs == [] then [] else [f(xs[0])] + Map(f, xs[1..])
  }

  /** The parts joined by single spaces (Ruby `join(' ')`). */
  function Join(parts: seq<string>): (r: string)
    ensures parts == [] ==> r == ""
    ensures |parts| == 1 ==> r == parts[0]
  {
    if parts == [] then ""
    else if |parts| == 1 then parts[0]
    else parts[0] + " " + Join(parts[1..])
  }

  /** Ruby `reject(&:empty?)` over a list of token lists. */
  function NonEmpty(xss: seq<seq<string>>): (r: seq<seq<string>>)
    ensures |r| <= |xss|
    ensures forall i :: 0 <= i < |r| ==> r[i] != []
    ensures forall xs :: xs in r <==> xs in xss && xs != []
  {
    if xss == [] then []
    else if xss[0] == [] then NonEmpty(xss[1..])
    else [xss[0]] + NonEmpty(xss[1..])
  }

  /** Each list joined on its own (Ruby `map { |xs| xs.join(' ') }`). */
  function JoinEach(xss: seq<seq<string>>): (r: seq<string>)
    ensures |r| == |xss|
    ensures forall i :: 0 <= i < |xss| ==> r[i] == Join(xss[i])
  {
    if xss == [] then [] else [Join(xss[0])] + JoinEach(xss[1..])
  }

  lemma {:induction false} FlattenAppend(a: seq<seq<string>>, b: seq<seq<string>>)
    ensures Flatten(a + b) == Flatten(a) + Flatten(b)
  {
    if a == [] {
      assert a + b == b;
    } else {
      assert (a + b)[1..] == a[1..] + b;
      FlattenAppend(a[1..], b);
    }
  }

  /** Dropping empty groups never changes the flattened result. */
  lemma {:induction false} FlattenNonEmpty(xss: seq<seq<string>>)
    ensures Flatten(NonEmpty(xss)) == Flatten(xss)
  {
    if xss != [] {
      FlattenNonEmpty(xss[1..]);
      if xss[0] != [] {
        FlattenAppend([xss[0]], NonEmpty(xss[1..]));
      }
    }
  }

  /** Joining two non-empty lists puts exactly one space between them. */
  lemma {:induction false} JoinAppend(a: seq<string>, b: seq<string>)
    requires a != [] && b != []
    ensures Join(a + b) == Join(a) + " " + Join(b)
  {
    if |a| == 1 {
      assert (a + b)[1..] == b;
    } else {
      assert (a + b)[1..] == a[1..] + b;
      JoinAppend(a[1..], b);
    }
  }

  /** Joining groups that were each joined first is the same as joining the
      flattened groups, provided no group is empty. */
  lemma {:induction false} JoinOfJoins(xss: seq<seq<string>>)
    requires forall i :: 0 <= i < |xss| ==> xss[i] != []
    ensures Join(JoinEach(xss)) == Join(Flatten(xss))
  {
    if |xss| > 1 {
      JoinOfJoins(xss[1..]);
      assert JoinEach(xss)[1..] == JoinEach(xss[1..]);
      assert Flatten(xss[1..]) != [] by {
        assert Flatten(xss[1..]) == xss[1] + Flatten(xss[2..]);
      }
      JoinAppend(xss[0], Flatten(xss[1..]));
    }
  }
}
