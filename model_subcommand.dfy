/** A subcommand and the options that follow it
    (lib/lino/model/subcommand.rb). */
module ModelSubcommand {
  import opened Wrappers
  import opened Text
  import opened ModelOption
  import opened ModelOptions

  datatype Subcommand = Subcommand(subcommand: string, options: seq<OptionOrFlag>)
  {
    /** The name, dropped when empty, as a token list. */
    function NameTokens(): (r: seq<string>)
      ensures r == [] <==> subcommand == ""
    {
      if subcommand == "" then [] else [subcommand]
    }

    /** The display form: the name followed by the options' display forms in
        insertion order, space-joined (Ruby `reject(&:empty?).join(' ')`). */
    function String(): (r: string)
      ensures options == [] ==> r == subcommand
    {
      Join(NameTokens() + Strings(options))
    }

    /** The argv form: the name followed by every option's tokens in order. */
    function Array(): (r: seq<string>)
      ensures |r| >= 1 + |options| && r[0] == subcommand
    {
      ArrayLength(options);
      [subcommand] + Flatten(Arrays(options))
    }
  }

  /** Each entry contributes at least one token. */
  lemma {:induction false} ArrayLength(opts: seq<OptionOrFlag>)
    ensures |Flatten(Arrays(opts))| >= |opts|
  {
    if opts != [] {
      ArrayLength(opts[1..]);
      assert Arrays(opts)[1..] == Arrays(opts[1..]);
    }
  }

  /** `Subcommand.new(name, options:)`: absent options mean none. */
  function NewSubcommand(subcommand: string, options: Maybe<seq<OptionOrFlag>>): (s: Subcommand)
    ensures s.subcommand == subcommand
    ensures options.None? ==> s.options == []
    ensures options.Some? ==> s.options == options.value
  {
    Subcommand(subcommand, Or(options, []))
  }

  /** With a name and options, the display form is the name, one space and
      the options' display forms joined. */
  lemma StringLayout(s: Subcommand)
    requires s.subcommand != "" && s.options != []
    ensures s.String() == s.subcommand + " " + Join(Strings(s.options))
  {
    JoinAppend([s.subcommand], Strings(s.options));
  }

  /** A subcommand's options render right after its name, whatever anchor
      each of them names. */
  lemma IgnoresPlacement(s: Subcommand, p: Placement)
    ensures s.(options := MovedAll(s.options, p)).String() == s.String()
    ensures s.(options := MovedAll(s.options, p)).Array() == s.Array()
  {
    RenderingIgnoresPlacement(s.options, p);
  }

  /** The argv form carries no quoting of its options. */
  lemma ArrayIgnoresQuoting(s: Subcommand, q: Maybe<string>)
    ensures s.(options := RequotedAll(s.options, q)).Array() == s.Array()
  {
    ArraysIgnoreQuoting(s.options, q);
  }

  /** Without quoting and with a name, the display form is the argv form
      joined by spaces. */
  lemma StringJoinsArray(s: Subcommand)
    requires s.subcommand != ""
    requires forall i :: 0 <= i < |s.options| ==> s.options[i].Unquoted()
    ensures s.String() == Join(s.Array())
  {
    if s.options != [] {
      StringLayout(s);
      UnquotedStringsJoinArrays(s.options);
      ArrayLength(s.options);
      JoinAppend([s.subcommand], Flatten(Arrays(s.options)));
    }
  }
}
