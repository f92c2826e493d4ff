/** The immutable command-line builder (lib/lino/builders/command_line.rb
    and the mixins it includes). Every `with_*` returns a new builder that
    differs from the receiver in the fields the call names and nowhere else;
    `build` turns the builder into a model command line, resolving every
    option, top-level or inside a subcommand, against the builder's option
    separator, quoting and placement. */
module BuilderCommandLine {
  import opened Wrappers
  import opened Validation
  import opened ModelOption
  import opened ModelOptions
  import opened ModelArgument
  import opened ModelEnvironmentVariable
  import opened ModelSubcommand
  import opened ModelCommandLine
  import opened BuilderOptions
  import opened BuilderSubcommand

  /** The default executor of a fresh builder. */
  const DefaultExecutor: Executor := Childprocess

  /** One entry handed to `with_environment_variables`: a name and a value. */
  datatype VariableEntry = VariableEntry(name: string, value: string)

  datatype CommandLineBuilder = CommandLineBuilder(
    command: string,
    subcommands: seq<SubcommandBuilder>,
    options: seq<Descriptor>,
    arguments: seq<Argument>,
    environmentVariables: seq<EnvironmentVariable>,
    optionSeparator: string,
    optionQuoting: Maybe<string>,
    optionPlacement: Placement,
    executor: Executor,
    workingDirectory: Maybe<string>)
  {
    /** `with_option_separator`: only the separator default changes; nil
        restores the single space. */
    function WithOptionSeparator(separator: Maybe<string>): (b: CommandLineBuilder)
      ensures b == this.(optionSeparator := b.optionSeparator)
      ensures separator.Some? ==> b.optionSeparator == separator.value
      ensures separator.None? ==> b.optionSeparator == Space
    {
      this.(optionSeparator := Or(separator, Space))
    }

    /** `with_option_quoting`: only the quoting default changes; nil means
        no quoting. */
    function WithOptionQuoting(quoting: Maybe<string>): (b: CommandLineBuilder)
      ensures b == this.(optionQuoting := quoting)
    {
      this.(optionQuoting := quoting)
    }

    /** `with_option_placement`: only the placement default changes; nil
        restores AfterCommand. */
    function WithOptionPlacement(placement: Maybe<Placement>): (b: CommandLineBuilder)
      ensures b == this.(optionPlacement := b.optionPlacement)
      ensures placement.Some? ==> b.optionPlacement == placement.value
      ensures placement.None? ==> b.optionPlacement == AfterCommand
    {
      this.(optionPlacement := Or(placement, AfterCommand))
    }

    function WithOptionsAfterCommand(): (b: CommandLineBuilder)
      ensures b == this.(optionPlacement := AfterCommand)
    {
      WithOptionPlacement(Some(AfterCommand))
    }

    function WithOptionsAfterSubcommands(): (b: CommandLineBuilder)
      ensures b == this.(optionPlacement := AfterSubcommands)
    {
      WithOptionPlacement(Some(AfterSubcommands))
    }

    function WithOptionsAfterArguments(): (b: CommandLineBuilder)
      ensures b == this.(optionPlacement := AfterArguments)
    {
      WithOptionPlacement(Some(AfterArguments))
    }

    /** `with_option`: an absent value leaves the builder as it is, any
        other value appends one descriptor and changes nothing else. */
    function WithOption(option: string, value: Maybe<string>, separator: Maybe<string>,
                        quoting: Maybe<string>, placement: Maybe<Placement>): (b: CommandLineBuilder)
      ensures b == this.(options := b.options)
      ensures IsAbsent(value) ==> b == this
      ensures !IsAbsent(value) ==> b.options == options + [OptionDescriptor(option, value.value, separator, quoting, placement)]
    {
      this.(options := AddOption(options, option, value, separator, quoting, placement))
    }

    /** `with_options`: the present entries appended in order. */
    function WithOptions(entries: Maybe<seq<OptionEntry>>): (b: CommandLineBuilder)
      ensures b == this.(options := b.options)
      ensures b.options == options + EntryDescriptors(Or(entries, []))
    {
      this.(options := BuilderOptions.WithOptions(options, entries))
    }

    /** `with_repeated_option`: one descriptor per present value, all with
        the same name and overrides. */
    function WithRepeatedOption(option: string, values: seq<Maybe<string>>, separator: Maybe<string>,
                                quoting: Maybe<string>, placement: Maybe<Placement>): (b: CommandLineBuilder)
      ensures b == this.(options := b.options)
      ensures b.options == options + RepeatedDescriptors(option, Present(values), separator, quoting, placement)
    {
      this.(options := BuilderOptions.WithRepeatedOption(options, option, values, separator, quoting, placement))
    }

    /** `with_flag`: an absent flag leaves the builder as it is, any other
        appends one flag descriptor. */
    function WithFlag(flag: Maybe<string>): (b: CommandLineBuilder)
      ensures b == this.(options := b.options)
      ensures IsAbsent(flag) ==> b == this
      ensures !IsAbsent(flag) ==> b.options == options + [FlagDescriptor(flag.value)]
    {
      this.(options := AddFlag(options, flag))
    }

    /** `with_flags`: the present flags appended in order. */
    function WithFlags(flags: Maybe<seq<Maybe<string>>>): (b: CommandLineBuilder)
      ensures b == this.(options := b.options)
      ensures b.options == options + FlagDescriptors(Present(Or(flags, [])))
    {
      this.(options := BuilderOptions.WithFlags(options, flags))
    }

    /** `with_argument`: nil or an empty text leaves the builder as it is,
        any other text appends one argument. */
    function WithArgument(argument: Maybe<string>): (b: CommandLineBuilder)
      ensures b == this.(arguments := b.arguments)
      ensures IsAbsent(argument) ==> b == this
      ensures !IsAbsent(argument) ==> b.arguments == arguments + [Argument(argument.value)]
    {
      if IsAbsent(argument) then this
      else this.(arguments := arguments + [Argument(argument.value)])
    }

    /** `with_arguments`: a nil or empty list leaves the builder as it is;
        otherwise one argument per present entry, in order. */
    function WithArguments(args: Maybe<seq<Maybe<string>>>): (b: CommandLineBuilder)
      ensures b == this.(arguments := b.arguments)
      ensures b.arguments == arguments + ArgumentsOf(Present(Or(args, [])))
    {
      if IsNilOrEmpty(OfList(args)) then this
      else FoldArguments(this, args.value)
    }

    /** `with_environment_variable`: always appends one variable, quoted
        with the default double quote. */
    function WithEnvironmentVariable(name: string, value: string): (b: CommandLineBuilder)
      ensures b == this.(environmentVariables := b.environmentVariables)
      ensures b.environmentVariables == environmentVariables + [EnvironmentVariable(name, value, DefaultQuoting)]
    {
      this.(environmentVariables := environmentVariables + [NewEnvironmentVariable(name, value, None)])
    }

    /** `with_environment_variables`: a nil or empty collection leaves the
        builder as it is; otherwise one variable per entry, in order. */
    function WithEnvironmentVariables(entries: Maybe<seq<VariableEntry>>): (b: CommandLineBuilder)
      ensures b == this.(environmentVariables := b.environmentVariables)
      ensures b.environmentVariables == environmentVariables + VariablesOf(Or(entries, []))
    {
      if IsNilOrEmpty(OfList(entries)) then this
      else FoldVariables(this, entries.value)
    }

    /** `with_subcommand`: a nil or empty name leaves the builder as it is;
        otherwise one subcommand builder is appended, the block applied to a
        fresh builder for the name, or the fresh builder itself. */
    function WithSubcommand(name: Maybe<string>, block: Maybe<SubcommandBuilder -> SubcommandBuilder>): (b: CommandLineBuilder)
      ensures b == this.(subcommands := b.subcommands)
      ensures IsAbsent(name) ==> b == this
      ensures !IsAbsent(name) && block.None? ==> b.subcommands == subcommands + [ForSubcommand(name.value)]
      ensures !IsAbsent(name) && block.Some? ==> b.subcommands == subcommands + [block.value(ForSubcommand(name.value))]
    {
      if IsAbsent(name) then this
      else this.(subcommands := subcommands + [Or(block, s => s)(ForSubcommand(name.value))])
    }

    /** `with_subcommands`: a nil or empty list leaves the builder as it is;
        otherwise every name but the last is added without the block, then
        the last with it. */
    function WithSubcommands(names: Maybe<seq<Maybe<string>>>, block: Maybe<SubcommandBuilder -> SubcommandBuilder>): (b: CommandLineBuilder)
      ensures b == this.(subcommands := b.subcommands)
      ensures names.None? || names == Some([]) ==> b == this
      ensures names.Some? && names.value != [] ==>
        var init := names.value[..|names.value| - 1];
        var last := names.value[|names.value| - 1];
        b.subcommands == subcommands + FreshSubcommands(Present(init))
                         + (if IsAbsent(last) then [] else [Or(block, s => s)(ForSubcommand(last.value))])
    {
      if IsNilOrEmpty(OfList(names)) then this
      else
        var init := names.value[..|names.value| - 1];
        var last := names.value[|names.value| - 1];
        FoldSubcommands(this, init).WithSubcommand(last, block)
    }

    /** `with_working_directory`: only the working directory changes. */
    function WithWorkingDirectory(directory: Maybe<string>): (b: CommandLineBuilder)
      ensures b == this.(workingDirectory := directory)
    {
      this.(workingDirectory := directory)
    }

    /** `with_executor`: only the executor changes; nil restores the
        default. */
    function WithExecutor(e: Maybe<Executor>): (b: CommandLineBuilder)
      ensures b == this.(executor := b.executor)
      ensures e.Some? ==> b.executor == e.value
      ensures e.None? ==> b.executor == DefaultExecutor
    {
      this.(executor := Or(e, DefaultExecutor))
    }

    /** `build`: the command, arguments, environment variables, executor
        and working directory pass through; top-level options and every
        subcommand's options are resolved against this builder's option
        separator, quoting and placement. */
    function Build(): (cl: CommandLine)
      ensures cl.command == command
      ensures cl.arguments == arguments && cl.environmentVariables == environmentVariables
      ensures cl.executor == executor && cl.workingDirectory == workingDirectory
      ensures cl.options == BuildOptions(options, optionSeparator, optionQuoting, optionPlacement)
      ensures |cl.subcommands| == |subcommands|
      ensures forall i :: 0 <= i < |subcommands| ==>
                cl.subcommands[i] == subcommands[i].Build(optionSeparator, optionQuoting, optionPlacement)
    {
      NewCommandLine(command, Some(BuildSubcommands(subcommands, optionSeparator, optionQuoting, optionPlacement)),
                     Some(BuildOptions(options, optionSeparator, optionQuoting, optionPlacement)),
                     Some(arguments), Some(environmentVariables), executor, workingDirectory)
    }
  }

  /** `for_command`: a builder for the command with every field at its
      default: no components, a single-space separator, no quoting, options
      after the command, the default executor, no working directory. */
  function ForCommand(command: string): (b: CommandLineBuilder)
    ensures b.command == command
    ensures b.subcommands == [] && b.options == [] && b.arguments == [] && b.environmentVariables == []
    ensures b.optionSeparator == " " && b.optionQuoting == None && b.optionPlacement == AfterCommand
    ensures b.executor == DefaultExecutor && b.workingDirectory == None
  {
    CommandLineBuilder(command, [], [], [], [], Space, None, AfterCommand, DefaultExecutor, None)
  }

  /** One argument per text, in order. */
  function ArgumentsOf(texts: seq<string>): (r: seq<Argument>)
    ensures |r| == |texts|
    ensures forall i :: 0 <= i < |texts| ==> r[i] == Argument(texts[i])
  {
    if texts == [] then [] else [Argument(texts[0])] + ArgumentsOf(texts[1..])
  }

  /** The `inject` of `with_argument` over the list. */
  function FoldArguments(b: CommandLineBuilder, args: seq<Maybe<string>>): (r: CommandLineBuilder)
    ensures r == b.(arguments := b.arguments + ArgumentsOf(Present(args)))
    decreases args
  {
    if args == [] then b else FoldArguments(b.WithArgument(args[0]), args[1..])
  }

  /** One variable per entry, quoted with the default double quote. */
  function VariablesOf(entries: seq<VariableEntry>): (r: seq<EnvironmentVariable>)
    ensures |r| == |entries|
    ensures forall i :: 0 <= i < |entries| ==>
              r[i] == EnvironmentVariable(entries[i].name, entries[i].value, DefaultQuoting)
  {
    if entries == [] then []
    else [EnvironmentVariable(entries[0].name, entries[0].value, DefaultQuoting)] + VariablesOf(entries[1..])
  }

  /** The `inject` of `with_environment_variable` over the entries. */
  function FoldVariables(b: CommandLineBuilder, entries: seq<VariableEntry>): (r: CommandLineBuilder)
    ensures r == b.(environmentVariables := b.environmentVariables + VariablesOf(entries))
    decreases entries
  {
    if entries == [] then b
    else FoldVariables(b.WithEnvironmentVariable(entries[0].name, entries[0].value), entries[1..])
  }

  /** One fresh subcommand builder per name, in order. */
  function FreshSubcommands(names: seq<string>): (r: seq<SubcommandBuilder>)
    ensures |r| == |names|
    ensures forall i :: 0 <= i < |names| ==> r[i] == ForSubcommand(names[i])
  {
    if names == [] then [] else [ForSubcommand(names[0])] + FreshSubcommands(names[1..])
  }

  /** The `inject` of `with_subcommand` without a block over the names. */
  function FoldSubcommands(b: CommandLineBuilder, names: seq<Maybe<string>>): (r: CommandLineBuilder)
    ensures r == b.(subcommands := b.subcommands + FreshSubcommands(Present(names)))
    decreases names
  {
    if names == [] then b
    else
      FoldSubcommandsStep(b, names);
      FoldSubcommands(b.WithSubcommand(names[0], None), names[1..])
  }

  /** One step of the fold: adding the first name, then the fresh builders
      of the rest, adds the fresh builders of all present names. */
  lemma FoldSubcommandsStep(b: CommandLineBuilder, names: seq<Maybe<string>>)
    requires names != []
    ensures var next := b.WithSubcommand(names[0], None);
            (next.(subcommands := next.subcommands + FreshSubcommands(Present(names[1..])))
             == b.(subcommands := b.subcommands + FreshSubcommands(Present(names))))
  {
    var first := PresentFirst(names[0]);
    var rest := FreshSubcommands(Present(names[1..]));
    var next := b.WithSubcommand(names[0], None);
    calc {
      next.(subcommands := next.subcommands + rest);
    == { WithSubcommandUnblocked(b, names[0]); }
      b.(subcommands := b.subcommands + FreshSubcommands(first) + rest);
    == { assert b.subcommands + FreshSubcommands(first) + rest == b.subcommands + (FreshSubcommands(first) + rest); }
      b.(subcommands := b.subcommands + (FreshSubcommands(first) + rest));
    == { FreshSubcommandsAppend(first, Present(names[1..])); PresentPeel(names); }
      b.(subcommands := b.subcommands + FreshSubcommands(Present(names)));
    }
  }

  /** The first entry as `Present` keeps it: nothing when absent. */
  function PresentFirst(m: Maybe<string>): seq<string>
  {
    if IsAbsent(m) then [] else [m.value]
  }

  lemma PresentPeel(names: seq<Maybe<string>>)
    requires names != []
    ensures Present(names) == PresentFirst(names[0]) + Present(names[1..])
  {
  }

  /** `with_subcommand` without a block adds the fresh builders of the
      present name. */
  lemma WithSubcommandUnblocked(b: CommandLineBuilder, name: Maybe<string>)
    ensures b.WithSubcommand(name, None) == b.(subcommands := b.subcommands + FreshSubcommands(PresentFirst(name)))
  {
    if !IsAbsent(name) {
      assert FreshSubcommands([name.value]) == [ForSubcommand(name.value)];
    }
  }

  /** Fresh builders of a concatenation are the concatenated fresh builders. */
  lemma {:induction false} FreshSubcommandsAppend(a: seq<string>, c: seq<string>)
    ensures FreshSubcommands(a + c) == FreshSubcommands(a) + FreshSubcommands(c)
  {
    if a == [] {
      assert a + c == c;
    } else {
      assert (a + c)[1..] == a[1..] + c;
      FreshSubcommandsAppend(a[1..], c);
    }
  }

  /** `build_subcommands`: every subcommand built against the same
      defaults, order kept. */
  function BuildSubcommands(subs: seq<SubcommandBuilder>, separator: string, quoting: Maybe<string>,
                            placement: Placement): (r: seq<Subcommand>)
    ensures |r| == |subs|
    ensures forall i :: 0 <= i < |subs| ==> r[i] == subs[i].Build(separator, quoting, placement)
  {
    if subs == [] then [] else [subs[0].Build(separator, quoting, placement)]
                               + BuildSubcommands(subs[1..], separator, quoting, placement)
  }

  /** A later setter of the same kind overrides an earlier one. */
  lemma LastSetterWins(b: CommandLineBuilder, s1: Maybe<string>, s2: Maybe<string>,
                       q1: Maybe<string>, q2: Maybe<string>, p1: Maybe<Placement>, p2: Maybe<Placement>,
                       d1: Maybe<string>, d2: Maybe<string>, e1: Maybe<Executor>, e2: Maybe<Executor>)
    ensures b.WithOptionSeparator(s1).WithOptionSeparator(s2) == b.WithOptionSeparator(s2)
    ensures b.WithOptionQuoting(q1).WithOptionQuoting(q2) == b.WithOptionQuoting(q2)
    ensures b.WithOptionPlacement(p1).WithOptionPlacement(p2) == b.WithOptionPlacement(p2)
    ensures b.WithWorkingDirectory(d1).WithWorkingDirectory(d2) == b.WithWorkingDirectory(d2)
    ensures b.WithExecutor(e1).WithExecutor(e2) == b.WithExecutor(e2)
  {
  }

  /** Setting the separator or placement to nil restores the default of a
      fresh builder. */
  lemma NilRestoresDefaults(b: CommandLineBuilder)
    ensures b.WithOptionSeparator(None).optionSeparator == ForCommand(b.command).optionSeparator
    ensures b.WithOptionPlacement(None).optionPlacement == ForCommand(b.command).optionPlacement
    ensures b.WithExecutor(None).executor == ForCommand(b.command).executor
  {
  }

  /** After `with_option` with a present value, the built options are the
      previous ones plus the new option, its own overrides beating the
      builder defaults. */
  lemma BuildAfterWithOption(b: CommandLineBuilder, option: string, value: string, separator: Maybe<string>,
                             quoting: Maybe<string>, placement: Maybe<Placement>)
    requires value != ""
    ensures b.WithOption(option, Some(value), separator, quoting, placement).Build().options
         == b.Build().options
            + [OptionItem(Option(option, value, Or(separator, b.optionSeparator), OrElse(quoting, b.optionQuoting),
                                 Or(placement, b.optionPlacement)))]
  {
    BuildAfterAddOption(b.options, option, value, separator, quoting, placement,
                        b.optionSeparator, b.optionQuoting, b.optionPlacement);
  }

  /** The builder's option configuration reaches the options inside its
      subcommands: a subcommand option without overrides takes the
      builder's separator, quoting and placement. */
  lemma SubcommandsInheritDefaults(b: CommandLineBuilder, i: nat, j: nat)
    requires i < |b.subcommands| && j < |b.subcommands[i].options|
    requires b.subcommands[i].options[j].OptionDescriptor?
    requires b.subcommands[i].options[j].separator.None? && b.subcommands[i].options[j].quoting.None?
    requires b.subcommands[i].options[j].placement.None?
    ensures b.Build().subcommands[i].options[j].OptionItem?
    ensures b.Build().subcommands[i].options[j].option.separator == b.optionSeparator
    ensures b.Build().subcommands[i].options[j].option.quoting == b.optionQuoting
    ensures b.Build().subcommands[i].options[j].option.placement == b.optionPlacement
  {
  }

  /** The number of arguments added is the number of present entries. */
  lemma ArgumentsAddedCount(b: CommandLineBuilder, args: seq<Maybe<string>>)
    ensures |b.WithArguments(Some(args)).arguments| == |b.arguments| + |Present(args)|
    ensures (forall i :: 0 <= i < |args| ==> !IsAbsent(args[i])) ==>
              |b.WithArguments(Some(args)).arguments| == |b.arguments| + |args|
  {
    if forall i :: 0 <= i < |args| ==> !IsAbsent(args[i]) {
      AllPresent(args);
    }
  }

  lemma {:induction false} AllPresent(xs: seq<Maybe<string>>)
    requires forall i :: 0 <= i < |xs| ==> !IsAbsent(xs[i])
    ensures |Present(xs)| == |xs|
  {
    if xs != [] {
      AllPresent(xs[1..]);
    }
  }

  /** With n present names, `with_subcommands` appends n subcommands, the
      block shaping only the last of them. */
  lemma SubcommandsBlockOnLast(b: CommandLineBuilder, names: seq<string>,
                               block: SubcommandBuilder -> SubcommandBuilder)
    requires names != [] && forall i :: 0 <= i < |names| ==> names[i] != ""
    ensures var r := b.WithSubcommands(Some(MaybeAll(names)), Some(block)).subcommands;
            |r| == |b.subcommands| + |names|
            && (forall i :: |b.subcommands| <= i < |r| - 1 ==> r[i] == ForSubcommand(names[i - |b.subcommands|]))
            && r[|r| - 1] == block(ForSubcommand(names[|names| - 1]))
  {
    WithSubcommandsOfNames(b, names, block);
  }

  /** `with_subcommands` over present names: the fresh builders of all
      names but the last, then the block applied to the last. */
  lemma WithSubcommandsOfNames(b: CommandLineBuilder, names: seq<string>,
                               block: SubcommandBuilder -> SubcommandBuilder)
    requires names != [] && forall i :: 0 <= i < |names| ==> names[i] != ""
    ensures b.WithSubcommands(Some(MaybeAll(names)), Some(block)).subcommands
         == b.subcommands + FreshSubcommands(names[..|names| - 1]) + [block(ForSubcommand(names[|names| - 1]))]
  {
    var ms := MaybeAll(names);
    assert ms[..|ms| - 1] == MaybeAll(names[..|names| - 1]);
    PresentOfAll(names[..|names| - 1]);
  }

  /** Every text as a present value. */
  function MaybeAll(texts: seq<string>): (r: seq<Maybe<string>>)
    ensures |r| == |texts|
    ensures forall i :: 0 <= i < |texts| ==> r[i] == Some(texts[i])
  {
    seq(|texts|, i requires 0 <= i < |texts| => Some(texts[i]))
  }

  lemma {:induction false} PresentOfAll(texts: seq<string>)
    requires forall i :: 0 <= i < |texts| ==> texts[i] != ""
    ensures Present(MaybeAll(texts)) == texts
  {
    if texts != [] {
      assert MaybeAll(texts)[1..] == MaybeAll(texts[1..]);
      PresentOfAll(texts[1..]);
    }
  }

  /** `state` as the mixins define it: only the command, subcommands,
      environment variables, executor and working directory; the options,
      arguments and option configuration mixins contribute nothing to it.
      A builder rebuilt from it has those at their defaults. */
  function StateAsWritten(b: CommandLineBuilder): (r: CommandLineBuilder)
    ensures r.command == b.command && r.subcommands == b.subcommands
    ensures r.environmentVariables == b.environmentVariables
    ensures r.executor == b.executor && r.workingDirectory == b.workingDirectory
    ensures r.options == [] && r.arguments == []
    ensures r.optionSeparator == Space && r.optionQuoting == None && r.optionPlacement == AfterCommand
  {
    ForCommand(b.command).(subcommands := b.subcommands, environmentVariables := b.environmentVariables,
                           executor := b.executor, workingDirectory := b.workingDirectory)
  }

  /** `with_environment_variable` as written: `with` rebuilds the builder
      from `state` merged with the new variables. */
  function WithEnvironmentVariableAsWritten(b: CommandLineBuilder, name: string, value: string): (r: CommandLineBuilder)
    ensures r.environmentVariables == b.WithEnvironmentVariable(name, value).environmentVariables
  {
    StateAsWritten(b).(environmentVariables := b.environmentVariables + [NewEnvironmentVariable(name, value, None)])
  }

  /** As written, adding an environment variable forgets an option
      separator set earlier (and likewise options, arguments, quoting and
      placement); with every field carried the separator survives. */
  lemma AsWrittenStateForgetsSeparator()
    ensures WithEnvironmentVariableAsWritten(ForCommand("cmd").WithOptionSeparator(Some("=")), "X", "1").optionSeparator == " "
    ensures ForCommand("cmd").WithOptionSeparator(Some("=")).WithEnvironmentVariable("X", "1").optionSeparator == "="
  {
  }

  /** `build` as written: the `state` it merges the built options and
      subcommands into has no arguments, so the command line gets none. */
  function BuildAsWritten(b: CommandLineBuilder): (cl: CommandLine)
    ensures cl == b.Build().(arguments := [])
  {
    NewCommandLine(b.command, Some(BuildSubcommands(b.subcommands, b.optionSeparator, b.optionQuoting, b.optionPlacement)),
                   Some(BuildOptions(b.options, b.optionSeparator, b.optionQuoting, b.optionPlacement)),
                   None, Some(b.environmentVariables), b.executor, b.workingDirectory)
  }

  /** As written, `for_command('ls').with_argument('/home').build` has no
      arguments and renders as plain `ls`; built with every field carried,
      it keeps `/home`. */
  lemma AsWrittenBuildDropsArguments()
    ensures BuildAsWritten(ForCommand("ls").WithArgument(Some("/home"))).arguments == []
    ensures BuildAsWritten(ForCommand("ls").WithArgument(Some("/home"))).Array() == ["ls"]
    ensures ForCommand("ls").WithArgument(Some("/home")).Build().arguments == [Argument("/home")]
  {
    BareCommand(BuildAsWritten(ForCommand("ls").WithArgument(Some("/home"))));
  }

  /** Every `with_*` keeps the command. */
  lemma CommandPreserved(b: CommandLineBuilder, name: Maybe<string>, text: Maybe<string>, flag: Maybe<string>,
                         option: string, separator: Maybe<string>, quoting: Maybe<string>,
                         placement: Maybe<Placement>, values: seq<Maybe<string>>,
                         entries: Maybe<seq<OptionEntry>>, texts: Maybe<seq<Maybe<string>>>,
                         variable: string, value: string, variables: Maybe<seq<VariableEntry>>,
                         block: Maybe<SubcommandBuilder -> SubcommandBuilder>, e: Maybe<Executor>)
    ensures b.WithOption(option, text, separator, quoting, placement).command == b.command
    ensures b.WithOptions(entries).command == b.command
    ensures b.WithRepeatedOption(option, values, separator, quoting, placement).command == b.command
    ensures b.WithFlag(flag).command == b.command
    ensures b.WithFlags(texts).command == b.command
    ensures b.WithArgument(text).command == b.command
    ensures b.WithArguments(texts).command == b.command
    ensures b.WithEnvironmentVariable(variable, value).command == b.command
    ensures b.WithEnvironmentVariables(variables).command == b.command
    ensures b.WithSubcommand(name, block).command == b.command
    ensures b.WithSubcommands(texts, block).command == b.command
    ensures b.WithOptionSeparator(separator).command == b.command
    ensures b.WithOptionQuoting(quoting).command == b.command
    ensures b.WithOptionPlacement(placement).command == b.command
    ensures b.WithOptionsAfterCommand().command == b.command
    ensures b.WithOptionsAfterSubcommands().command == b.command
    ensures b.WithOptionsAfterArguments().command == b.command
    ensures b.WithWorkingDirectory(text).command == b.command
    ensures b.WithExecutor(e).command == b.command
  {
  }
}
