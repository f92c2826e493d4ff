/** The subcommand builder (lib/lino/builders/subcommand.rb): a name and
    the option descriptors given to it. Every `with_*` returns a new builder
    with the same name; `build` resolves the descriptors against the
    defaults of the command-line builder that owns it. */
module BuilderSubcommand {
  import opened Wrappers
  import opened ModelOption
  import opened ModelOptions
  import opened ModelSubcommand
  import opened BuilderOptions
  import opened Validation

  datatype SubcommandBuilder = SubcommandBuilder(subcommand: string, options: seq<Descriptor>)
  {
    /** `with_option` from the options mixin. */
    function WithOption(option: string, value: Maybe<string>, separator: Maybe<string>,
                        quoting: Maybe<string>, placement: Maybe<Placement>): (b: SubcommandBuilder)
      ensures b.subcommand == subcommand
      ensures IsAbsent(value) ==> b == this
      ensures !IsAbsent(value) ==> b.options == options + [OptionDescriptor(option, value.value, separator, quoting, placement)]
    {
      this.(options := AddOption(options, option, value, separator, quoting, placement))
    }

    /** `with_options` from the options mixin. */
    function WithOptions(entries: Maybe<seq<OptionEntry>>): (b: SubcommandBuilder)
      ensures b.subcommand == subcommand
      ensures b.options == options + EntryDescriptors(Or(entries, []))
    {
      this.(options := BuilderOptions.WithOptions(options, entries))
    }

    /** `with_repeated_option` from the options mixin. */
    function WithRepeatedOption(option: string, values: seq<Maybe<string>>, separator: Maybe<string>,
                                quoting: Maybe<string>, placement: Maybe<Placement>): (b: SubcommandBuilder)
      ensures b.subcommand == subcommand
      ensures b.options == options + RepeatedDescriptors(option, Present(values), separator, quoting, placement)
    {
      this.(options := BuilderOptions.WithRepeatedOption(options, option, values, separator, quoting, placement))
    }

    /** `with_flag` from the options mixin. */
    function WithFlag(flag: Maybe<string>): (b: SubcommandBuilder)
      ensures b.subcommand == subcommand
      ensures IsAbsent(flag) ==> b == this
      ensures !IsAbsent(flag) ==> b.options == options + [FlagDescriptor(flag.value)]
    {
      this.(options := AddFlag(options, flag))
    }

    /** `with_flags` from the options mixin. */
    function WithFlags(flags: Maybe<seq<Maybe<string>>>): (b: SubcommandBuilder)
      ensures b.subcommand == subcommand
      ensures b.options == options + FlagDescriptors(Present(Or(flags, [])))
    {
      this.(options := BuilderOptions.WithFlags(options, flags))
    }

    /** `build(option_separator, option_quoting, option_placement)`: a model
        subcommand with the same name and the descriptors resolved in order. */
    function Build(separator: string, quoting: Maybe<string>, placement: Placement): (s: Subcommand)
      ensures s.subcommand == subcommand
      ensures |s.options| == |options|
      ensures forall i :: 0 <= i < |options| ==> s.options[i] == Resolve(options[i], separator, quoting, placement)
    {
      NewSubcommand(subcommand, Some(BuildOptions(options, separator, quoting, placement)))
    }
  }

  /** `for_subcommand`: a builder with the given name and no options. */
  function ForSubcommand(subcommand: string): (b: SubcommandBuilder)
    ensures b.subcommand == subcommand && b.options == []
  {
    SubcommandBuilder(subcommand, [])
  }

  /** A fresh subcommand builder builds to the bare name, whatever the
      defaults, and renders as just that name. */
  lemma FreshBuildsBare(name: string, separator: string, quoting: Maybe<string>, placement: Placement)
    ensures ForSubcommand(name).Build(separator, quoting, placement) == Subcommand(name, [])
    ensures ForSubcommand(name).Build(separator, quoting, placement).String() == name
  {
  }

  /** An option added to a subcommand keeps its own overrides against the
      defaults the subcommand is built with; the defaults fill the rest. */
  lemma OverridesBeatDefaults(b: SubcommandBuilder, option: string, value: string, separator: Maybe<string>,
                              quoting: Maybe<string>, placement: Maybe<Placement>,
                              defaultSeparator: string, defaultQuoting: Maybe<string>, defaultPlacement: Placement)
    requires value != ""
    ensures b.WithOption(option, Some(value), separator, quoting, placement)
              .Build(defaultSeparator, defaultQuoting, defaultPlacement).options
         == b.Build(defaultSeparator, defaultQuoting, defaultPlacement).options
            + [OptionItem(Option(option, value, Or(separator, defaultSeparator), OrElse(quoting, defaultQuoting),
                                 Or(placement, defaultPlacement)))]
  {
    BuildAfterAddOption(b.options, option, value, separator, quoting, placement,
                        defaultSeparator, defaultQuoting, defaultPlacement);
  }

  /** A subcommand with one option `o v` and default configuration renders
      as `name o v`. */
  lemma OneOptionRendering(name: string, option: string, value: string)
    requires name != "" && value != ""
    ensures ForSubcommand(name).WithOption(option, Some(value), None, None, None)
              .Build(Space, None, AfterCommand).String() == name + " " + option + " " + value
  {
    var s := ForSubcommand(name).WithOption(option, Some(value), None, None, None).Build(Space, None, AfterCommand);
    assert s.options == [OptionItem(Option(option, value, Space, None, AfterCommand))];
    StringLayout(s);
    assert Strings(s.options) == [option + " " + value];
  }
}
