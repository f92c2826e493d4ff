/** The entries of an options list: an option with a value or a bare flag.
    The source keeps both kinds in one list and renders them by duck typing. */
module ModelOptions {
  import opened Wrappers
  import opened Text
  import opened ModelOption
  import opened ModelFlag

  datatype OptionOrFlag = OptionItem(option: Option) | FlagItem(flag: Flag)
  {
    /** The anchor the entry was given. */
    function PlacedAt(): Placement
    {
      match this
      case OptionItem(o) => o.placement
      case FlagItem(f) => f.placement
    }

    function String(): (r: string)
      ensures Unquoted() ==> r == Join(Array())
    {
      match this
      case OptionItem(o) => o.String()
      case FlagItem(f) => f.String()
    }

    /** The argv tokens of the entry: never empty. */
    function Array(): (r: seq<string>)
      ensures 1 <= |r| <= 2
    {
      match this
      case OptionItem(o) => o.Array()
      case FlagItem(f) => f.Array()
    }

    /** The entry carries no quoting: a flag, or an option without quoting. */
    predicate Unquoted()
    {
      FlagItem? || option.quoting.None?
    }

    /** The same entry moved to anchor `p`. */
    function MovedTo(p: Placement): (r: OptionOrFlag)
      ensures r.PlacedAt() == p
    {
      match this
      case OptionItem(o) => OptionItem(o.(placement := p))
      case FlagItem(f) => FlagItem(f.(placement := p))
    }

    /** The same entry with quoting `q` if it is an option. */
    function Requoted(q: Maybe<string>): (r: OptionOrFlag)
      ensures r.PlacedAt() == PlacedAt()
    {
      match this
      case OptionItem(o) => OptionItem(o.(quoting := q))
      case FlagItem(_) => this
    }
  }

  /** The display forms of the entries, in order. */
  function Strings(opts: seq<OptionOrFlag>): (r: seq<string>)
    ensures |r| == |opts|
    ensures forall i :: 0 <= i < |opts| ==> r[i] == opts[i].String()
  {
    if opts == [] then [] else [opts[0].String()] + Strings(opts[1..])
  }

  /** The argv forms of the entries, in order. */
  function Arrays(opts: seq<OptionOrFlag>): (r: seq<seq<string>>)
    ensures |r| == |opts|
    ensures forall i :: 0 <= i < |opts| ==> r[i] == opts[i].Array()
  {
    if opts == [] then [] else [opts[0].Array()] + Arrays(opts[1..])
  }

  /** Every entry moved to anchor `p`. */
  function MovedAll(opts: seq<OptionOrFlag>, p: Placement): (r: seq<OptionOrFlag>)
    ensures |r| == |opts|
    ensures forall i :: 0 <= i < |opts| ==> r[i] == opts[i].MovedTo(p)
  {
    if opts == [] then [] else [opts[0].MovedTo(p)] + MovedAll(opts[1..], p)
  }

  /** Every option entry given quoting `q`. */
  function RequotedAll(opts: seq<OptionOrFlag>, q: Maybe<string>): (r: seq<OptionOrFlag>)
    ensures |r| == |opts|
    ensures forall i :: 0 <= i < |opts| ==> r[i] == opts[i].Requoted(q)
  {
    if opts == [] then [] else [opts[0].Requoted(q)] + RequotedAll(opts[1..], q)
  }

  /** Rendering an entry does not look at its placement. */
  lemma RenderingIgnoresPlacement(opts: seq<OptionOrFlag>, p: Placement)
    ensures Strings(MovedAll(opts, p)) == Strings(opts)
    ensures Arrays(MovedAll(opts, p)) == Arrays(opts)
  {
  }

  /** The argv form of an entry does not look at its quoting. */
  lemma ArraysIgnoreQuoting(opts: seq<OptionOrFlag>, q: Maybe<string>)
    ensures Arrays(RequotedAll(opts, q)) == Arrays(opts)
  {
  }

  /** Without quoting, each entry's display form is its argv tokens joined,
      so the joined display forms equal the joined argv tokens. */
  lemma UnquotedStringsJoinArrays(opts: seq<OptionOrFlag>)
    requires forall i :: 0 <= i < |opts| ==> opts[i].Unquoted()
    ensures Join(Strings(opts)) == Join(Flatten(Arrays(opts)))
  {
    calc {
      Join(Strings(opts));
    == { StringsJoinEach(opts); }
      Join(JoinEach(Arrays(opts)));
    == { JoinOfJoins(Arrays(opts)); }
      Join(Flatten(Arrays(opts)));
    }
  }

  /** Without quoting, each display form is its own argv tokens joined. */
  lemma StringsJoinEach(opts: seq<OptionOrFlag>)
    requires forall i :: 0 <= i < |opts| ==> opts[i].Unquoted()
    ensures Strings(opts) == JoinEach(Arrays(opts))
  {
    var joined := JoinEach(Arrays(opts));
    forall i | 0 <= i < |opts|
      ensures Strings(opts)[i] == joined[i]
    {
      assert opts[i].String() == Join(opts[i].Array());
    }
  }
}
