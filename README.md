# lino command-line model

A model of the core of lino, a Ruby library for building command lines.
The model has two layers.

The value model is in `model_*.dfy`:

- `Option`: `--name<separator><quoting>value<quoting>`.
- `Flag`: a bare switch such as `-v`.
- `Argument`: a positional argument.
- `EnvironmentVariable`: `NAME="value"`.
- `Subcommand`: a name followed by its own options.
- `CommandLine`: the aggregate. It lays its components out along a fixed list of anchors:
  1. environment variables;
  2. command;
  3. options after the command;
  4. subcommands;
  5. options after the subcommands;
  6. arguments;
  7. options after the arguments.

  It renders two ways. `Array` is the argument vector and leaves the environment variables out. `String` is the display string, joined by single spaces.

The immutable builders are in `builder_*.dfy`, `appliables.dfy` and `validation.dfy`:

- Every `with_*` call returns a new builder that differs only in the fields the call names.
- No-op guards skip nil or empty inputs.
- Options are kept as descriptors, each with its own optional separator, quoting and placement.
- `build` resolves every descriptor against the builder's defaults. This covers top-level options and the options inside every subcommand.

`executors.dfy` models the mock executor, which records calls and fails on a non-zero exit code. `scenarios.dfy` holds worked examples.

Ruby `nil` is `Wrappers.Maybe.None`. Ruby `a || b` is `Wrappers.Or` or `Wrappers.OrElse`: only nil falls through, so an empty string wins. Persistent vectors are `seq`.

## Where the sources disagree

The model follows the behaviour that the library's tests describe in the following places.

- **`nil?(value)` is called with one argument.** `lib/lino/builders/mixins/options.rb:26` and `:72`, and `lib/lino/builders/mixins/arguments.rb:18`, make this call. `lib/lino/builders/mixins/validation.rb` defines only `empty?` and `nil_or_empty?`; no module that `Builders::CommandLine` includes defines a one-argument `nil?`. The model reads it as "nil or the empty string" (`Validation.IsAbsent`), which is what the tests expect of `with_option('--opt', '')`.
- **`build_options` and `build_subcommands` are called with three arguments but declare none.** See `lib/lino/builders/command_line.rb:40-43` against `options.rb:91` and `subcommands.rb:46`. The model uses the three-argument form that `lib/lino/builders/subcommand.rb:26-35` declares. Every subcommand is therefore built against the parent builder's separator, quoting and placement.
- **`state` omits options, arguments and option configuration.** Those mixins define no `state` (`lib/lino/builders/mixins/arguments.rb:12-28`, for one). So, as written, every `with_*` rebuilds a builder that keeps, of these, only the field it names (`with` merges its replacements into `state`, `lib/lino/builders/command_line.rb:56-58`), and `build` (`lib/lino/builders/command_line.rb:39-44`) merges the built options and subcommands into a `state` without arguments, so no built command line has any arguments. The model carries every field through every `with_*` and through `build`. Both as-written behaviours are recorded under Findings.

## Model

| member | source | states |
|---|---|---|
| Wrappers.Or | lib/lino/model/option.rb:64-70 | Ruby `x \|\| default`: a present value wins (even an empty string), only nil takes the default |
| Wrappers.OrElse | lib/lino/builders/mixins/options.rb:97 | `a \|\| b` on two possibly-nil values: the first unless it is nil |
| Validation.EmptyExactly | lib/lino/builders/mixins/validation.rb:7-9 | `empty?` holds exactly for the empty string and the empty collection |
| Validation.NumberNeverEmpty | lib/lino/builders/mixins/validation.rb:7-9 | a value with no notion of emptiness (a number) is never empty, nor nil-or-empty |
| Validation.NilOrEmptyCases | lib/lino/builders/mixins/validation.rb:11-13 | `nil_or_empty?(nil)` holds; for non-nil values it coincides with `empty?` |
| Validation.AbsentExactly | lib/lino/builders/mixins/options.rb:26 | the one-argument guard holds exactly for nil and "" |
| Validation.NilOrEmptyList | lib/lino/builders/mixins/validation.rb:11-13 | on a possibly-nil list the guard holds exactly for nil and [] |
| Validation.OfText | lib/lino/builders/mixins/validation.rb:11-13 | a possibly-nil string seen as a Ruby value: nil exactly when absent |
| Validation.OfList | lib/lino/builders/mixins/validation.rb:11-13 | a possibly-nil list seen as a Ruby value: nil exactly when absent, otherwise a collection of its size |
| Validation.Present | lib/lino/builders/mixins/arguments.rb:24-28 | the entries an `inject` of a guarded `with_*` keeps: exactly the non-nil, non-empty ones, never longer than the input |
| Validation.PresentAppend | lib/lino/builders/mixins/arguments.rb:27 | filtering distributes over concatenation, so the fold keeps list order |
| Text.Map | lib/lino/model/command_line.rb:101-108 | Ruby `map(&format)`: one result per element, the `i`-th being `f` of the `i`-th element |
| ModelOption.Option.QuoteText | lib/lino/model/option.rb:21-23 | nil quoting interpolates as the empty string, otherwise as the quoting text |
| ModelOption.Option.QuotedValue | lib/lino/model/option.rb:21-23 | the value wrapped verbatim: quoting text, then the value unchanged, then the quoting text |
| ModelOption.Option.String | lib/lino/model/option.rb:25-27 | name, separator, then the quoted value; with no quoting, the space-join of `array` |
| ModelOption.Option.Array | lib/lino/model/option.rb:30-36 | two tokens when the separator is one space, else one; the tokens join back to name+separator+value; with a space separator the tokens are exactly the name and the whole value (a space inside the value does not split it), otherwise the one token is name+separator+value |
| ModelOption.NewOption | lib/lino/model/option.rb:12-19 | absent separator becomes " ", absent placement AfterCommand, absent quoting stays absent |
| ModelOption.DefaultRendering | lib/lino/model/option.rb:64-70 | with every default an option renders as `name value` and splits into [name, value] at AfterCommand |
| ModelOption.ArrayIgnoresQuoting | lib/lino/model/option.rb:30-36 | `array` is the same whatever the quoting |
| ModelOption.QuotingWrapsValue | lib/lino/model/option.rb:21-27 | quoting q inserts q on both sides of the value and changes nothing else |
| ModelFlag.Flag.String | lib/lino/model/flag.rb:15-17 | the flag text, equal to the join of `array` |
| ModelFlag.Flag.Array | lib/lino/model/flag.rb:20-22 | the single token [flag] |
| ModelFlag.NewFlag | lib/lino/model/flag.rb:9-13 | absent placement becomes AfterCommand |
| ModelArgument.Argument.String | lib/lino/model/argument.rb:12-14 | the argument text, equal to the join of `array` |
| ModelArgument.Argument.Array | lib/lino/model/argument.rb:17-19 | the single token holding the argument text |
| ModelEnvironmentVariable.Escape | lib/lino/model/environment_variable.rb:20 | never shorter than the value; a value without the quote is unchanged; a leading quote becomes backslash-quote, any other first character is kept |
| ModelEnvironmentVariable.EscapeRoundTrip | lib/lino/model/environment_variable.rb:20 | escaping loses nothing: unescaping gives the value back, for every quote character |
| ModelEnvironmentVariable.EscapedQuotesArePreceded | lib/lino/model/environment_variable.rb:20 | every quote character in the escaped value is preceded by a backslash |
| ModelEnvironmentVariable.EnvironmentVariable.QuotedValue | lib/lino/model/environment_variable.rb:19-21 | quote, escaped value, quote; a value without the quote is wrapped unchanged |
| ModelEnvironmentVariable.EnvironmentVariable.String | lib/lino/model/environment_variable.rb:23-25 | `NAME=` followed by the quoted value |
| ModelEnvironmentVariable.EnvironmentVariable.Array | lib/lino/model/environment_variable.rb:28-30 | the raw pair [name, value] |
| ModelEnvironmentVariable.NewEnvironmentVariable | lib/lino/model/environment_variable.rb:12-17 | absent quoting becomes the double quote |
| ModelEnvironmentVariable.ArrayIgnoresQuoting | lib/lino/model/environment_variable.rb:28-30 | the pair never depends on the quoting |
| ModelEnvironmentVariable.Replacement | lib/lino/model/environment_variable.rb:20 | the replacement template `\<q>` as Ruby expands it: backslash-q for ordinary characters, the post-match for `'` |
| ModelEnvironmentVariable.GsubAgreesWithEscape | lib/lino/model/environment_variable.rb:20 | for every quote the template does not interpret, the gsub as written equals the intended escaping |
| ModelEnvironmentVariable.AsWrittenAgreesForOrdinaryQuotes | lib/lino/model/environment_variable.rb:19-21 | for those quotes, including the default `"`, `quoted_value` as written is the intended one |
| ModelEnvironmentVariable.ApostropheQuotingLosesQuote | lib/lino/model/environment_variable.rb:20 | with quote `'` the code as written renders `it's` as `'itss'`, where the intended form is `'it\'s'` |
| ModelOptions.OptionOrFlag.String | lib/lino/model/subcommand.rb:15 | an unquoted entry's display form is the join of its argv form |
| ModelOptions.OptionOrFlag.Array | lib/lino/model/subcommand.rb:20 | every entry contributes one or two tokens |
| ModelOptions.OptionOrFlag.MovedTo | lib/lino/model/command_line.rb:104-106 | the moved entry is placed at the given anchor |
| ModelOptions.OptionOrFlag.Requoted | lib/lino/model/option.rb:17 | requoting keeps the entry's anchor |
| ModelOptions.Strings | lib/lino/model/subcommand.rb:15 | the display forms of the entries, one each, in order |
| ModelOptions.Arrays | lib/lino/model/subcommand.rb:20 | the argv forms of the entries, one each, in order |
| ModelOptions.RenderingIgnoresPlacement | lib/lino/model/subcommand.rb:14-21 | rendering an entry never looks at its placement |
| ModelOptions.ArraysIgnoreQuoting | lib/lino/model/option.rb:30-36 | argv forms never look at quoting |
| ModelOptions.UnquotedStringsJoinArrays | lib/lino/model/subcommand.rb:14-21 | without quoting, the joined display forms equal the joined argv tokens |
| ModelSubcommand.Subcommand.NameTokens | lib/lino/model/subcommand.rb:15 | the name is dropped exactly when it is empty |
| ModelSubcommand.Subcommand.String | lib/lino/model/subcommand.rb:14-16 | a subcommand with no options renders as its name |
| ModelSubcommand.Subcommand.Array | lib/lino/model/subcommand.rb:19-21 | the name comes first and each option adds at least one token |
| ModelSubcommand.ArrayLength | lib/lino/model/subcommand.rb:20 | the flattened option tokens are at least as many as the options |
| ModelSubcommand.NewSubcommand | lib/lino/model/subcommand.rb:8-12 | absent options mean none |
| ModelSubcommand.StringLayout | lib/lino/model/subcommand.rb:14-16 | the name, one space, and the options' display forms joined in insertion order |
| ModelSubcommand.IgnoresPlacement | lib/lino/model/subcommand.rb:14-21 | moving every option to any anchor changes neither rendering |
| ModelSubcommand.ArrayIgnoresQuoting | lib/lino/model/subcommand.rb:19-21 | requoting the options leaves the argv form unchanged |
| ModelSubcommand.StringJoinsArray | lib/lino/model/subcommand.rb:14-21 | with a name and unquoted options, the display form is the space-join of the argv form |
| ModelCommandLine.OptionsAt | lib/lino/model/command_line.rb:104-106 | one `group_by` group: never longer than the entries, and every member is placed at that anchor |
| ModelCommandLine.OptionsAtMembers | lib/lino/model/command_line.rb:104-106 | the group at an anchor holds exactly the entries placed there |
| ModelCommandLine.OptionsAtAppend | lib/lino/model/command_line.rb:104-106 | grouping distributes over concatenation, so entries keep their relative insertion order |
| ModelCommandLine.GroupsPartition | lib/lino/model/command_line.rb:104-106 | every entry lands in exactly one of the three groups |
| ModelCommandLine.CommandLine.CommandTokens | lib/lino/model/command_line.rb:93-98 | an empty command is rejected as an empty component |
| ModelCommandLine.CommandLine.FormatComponents | lib/lino/model/command_line.rb:93-98 | no empty component survives `reject(&:empty?)` |
| ModelCommandLine.ArrayLayout | lib/lino/model/command_line.rb:44-46 | `array` is the command, after-command entries, subcommands, after-subcommands entries, arguments, after-arguments entries, flattened in that order |
| ModelCommandLine.StringLayout | lib/lino/model/command_line.rb:50-52 | `string` puts the environment strings first, then the same anchor order, joined by single spaces |
| ModelCommandLine.ArrayIgnoresEnvironment | lib/lino/model/command_line.rb:44-46 | environment variables never reach the argv form |
| ModelCommandLine.BareCommand | lib/lino/model/command_line.rb:93-98 | with nothing but a command, `string` is the command and `array` its token |
| ModelCommandLine.TokensNonEmpty | lib/lino/model/command_line.rb:93-98 | an options group yields no tokens exactly when it is empty |
| ModelCommandLine.GroupJoinsAlike | lib/lino/model/command_line.rb:100-106 | an unquoted options group joins the same in both forms |
| ModelCommandLine.SubcommandsJoinAlike | lib/lino/model/command_line.rb:107 | named subcommands with unquoted options join the same in both forms |
| ModelCommandLine.ArgumentTokensAreStrings | lib/lino/model/command_line.rb:108 | a command line's arguments give the same list in both forms |
| ModelCommandLine.AnchorsJoinAlike | lib/lino/model/command_line.rb:100-110 | subcommands and arguments join the same in both forms |
| ModelCommandLine.StringJoinsArray | lib/lino/model/command_line.rb:44-52 | with no environment variables and no quoting, `string` is the space-join of `array` |
| ModelCommandLine.EnvOf | lib/lino/model/command_line.rb:40-42 | `env` has exactly the variables' names as keys |
| ModelCommandLine.EnvLastWins | lib/lino/model/command_line.rb:40-42 | a name given more than once maps to the raw value of its last occurrence |
| ModelCommandLine.RequotedVars | lib/lino/model/environment_variable.rb:12-17 | every variable with the given quoting, nothing else changed |
| ModelCommandLine.EnvIgnoresQuoting | lib/lino/model/command_line.rb:40-42 | the environment map never depends on quoting |
| ModelCommandLine.NewCommandLine | lib/lino/model/command_line.rb:24-34 | absent component lists mean empty ones; command, executor and working directory are kept |
| BuilderOptions.AddOption | lib/lino/builders/mixins/options.rb:19-37 | an absent value leaves the list unchanged (and only then); otherwise exactly one descriptor is appended, earlier entries kept |
| BuilderOptions.Describe | lib/lino/builders/mixins/options.rb:42-50 | an entry stands for no descriptor exactly when its value is absent, otherwise for one |
| BuilderOptions.EntryDescriptors | lib/lino/builders/mixins/options.rb:42-50 | never more descriptors than entries |
| BuilderOptions.EntryDescriptorsPresent | lib/lino/builders/mixins/options.rb:19-51 | every kept descriptor is an option with a present value; none is dropped exactly when every value is present |
| BuilderOptions.FoldOptions | lib/lino/builders/mixins/options.rb:42-50 | folding `with_option` appends the present entries in order |
| BuilderOptions.WithOptions | lib/lino/builders/mixins/options.rb:39-51 | nil or empty leaves the list unchanged; otherwise the present entries are appended in order |
| BuilderOptions.WithOptionsOfOne | lib/lino/builders/mixins/options.rb:39-51 | a one-entry `with_options` is `with_option` of the entry |
| BuilderOptions.RepeatedDescriptors | lib/lino/builders/mixins/options.rb:53-69 | one descriptor per value, same name and overrides |
| BuilderOptions.WithRepeatedOption | lib/lino/builders/mixins/options.rb:53-69 | one descriptor per present value, in order, all with the same name, separator, quoting and placement |
| BuilderOptions.AddFlag | lib/lino/builders/mixins/options.rb:71-80 | an absent flag leaves the list unchanged (and only then); otherwise one flag descriptor is appended |
| BuilderOptions.FlagDescriptors | lib/lino/builders/mixins/options.rb:76-77 | one flag descriptor per flag, in order |
| BuilderOptions.FoldFlags | lib/lino/builders/mixins/options.rb:85 | folding `with_flag` appends the present flags in order |
| BuilderOptions.WithFlags | lib/lino/builders/mixins/options.rb:82-86 | nil or empty leaves the list unchanged; otherwise the present flags are appended in order |
| BuilderOptions.Resolve | lib/lino/builders/mixins/options.rb:92-105 | kind is kept; each of the option's own separator, quoting and placement wins when present, the builder default otherwise; a flag gets only the default placement |
| BuilderOptions.BuildOptions | lib/lino/builders/mixins/options.rb:91-107 | count and order are kept, each descriptor resolved against the same defaults |
| BuilderOptions.BuildOptionsAppend | lib/lino/builders/mixins/options.rb:92 | building distributes over appending descriptors |
| BuilderOptions.BuildAfterAddOption | lib/lino/builders/mixins/options.rb:28-36 | after `with_option` the built list is the old one plus the new option with its overrides beating the defaults |
| BuilderOptions.BuiltFlagsUnquoted | lib/lino/builders/mixins/options.rb:100-104 | built flags carry no quoting; with no quoting anywhere every built entry is unquoted |
| Appliables.WithAppliable | lib/lino/builders/mixins/appliables.rb:11-15 | nil leaves the builder unchanged; otherwise the result is exactly `apply(builder)` |
| Appliables.WithAppliables | lib/lino/builders/mixins/appliables.rb:17-23 | nil or empty leaves the builder unchanged; otherwise the left fold over the list |
| Appliables.WithAppliablesOfOne | lib/lino/builders/mixins/appliables.rb:20-22 | a one-element list equals `with_appliable` of its element |
| Appliables.ApplyAllAppend | lib/lino/builders/mixins/appliables.rb:20-22 | applying a concatenation applies the first part, then the second |
| Appliables.NilAppliablesSkipped | lib/lino/builders/mixins/appliables.rb:12 | nil entries are skipped |
| Appliables.ApplyTwoInOrder | lib/lino/builders/mixins/appliables.rb:20-22 | list order is application order |
| BuilderSubcommand.SubcommandBuilder.WithOption | lib/lino/builders/subcommand.rb:39-48 | keeps the name; absent value is a no-op; otherwise one descriptor appended |
| BuilderSubcommand.SubcommandBuilder.WithOptions | lib/lino/builders/mixins/options.rb:39-51 | keeps the name; appends the present entries in order |
| BuilderSubcommand.SubcommandBuilder.WithRepeatedOption | lib/lino/builders/mixins/options.rb:53-69 | keeps the name; one descriptor per present value |
| BuilderSubcommand.SubcommandBuilder.WithFlag | lib/lino/builders/mixins/options.rb:71-80 | keeps the name; absent flag is a no-op; otherwise one flag descriptor appended |
| BuilderSubcommand.SubcommandBuilder.WithFlags | lib/lino/builders/mixins/options.rb:82-86 | keeps the name; appends the present flags in order |
| BuilderSubcommand.SubcommandBuilder.Build | lib/lino/builders/subcommand.rb:26-35 | same name; options resolved, in order, against the supplied separator, quoting and placement |
| BuilderSubcommand.ForSubcommand | lib/lino/builders/subcommand.rb:16-18 | the given name and no options |
| BuilderSubcommand.FreshBuildsBare | lib/lino/builders/subcommand.rb:26-35 | a fresh subcommand builds to the bare name and renders as it, whatever the defaults |
| BuilderSubcommand.OverridesBeatDefaults | lib/lino/builders/subcommand.rb:29-33 | inside a subcommand an option's own overrides beat the supplied defaults |
| BuilderSubcommand.OneOptionRendering | lib/lino/builders/subcommand.rb:26-35 | one option with default configuration renders as `name o v` |
| BuilderCommandLine.ForCommand | lib/lino.rb:10-12 | the command and every default: no components, separator " ", no quoting, AfterCommand, Childprocess executor, no working directory |
| BuilderCommandLine.CommandLineBuilder.WithOptionSeparator | lib/lino/builders/mixins/option_config.rb:14-16 | only the separator changes; nil restores " " |
| BuilderCommandLine.CommandLineBuilder.WithOptionQuoting | lib/lino/builders/mixins/option_config.rb:18-20 | only the quoting default changes |
| BuilderCommandLine.CommandLineBuilder.WithOptionPlacement | lib/lino/builders/mixins/option_config.rb:22-24 | only the placement changes; nil restores AfterCommand |
| BuilderCommandLine.CommandLineBuilder.WithOptionsAfterCommand | lib/lino/builders/mixins/option_config.rb:26-28 | sets the placement default to AfterCommand and nothing else |
| BuilderCommandLine.CommandLineBuilder.WithOptionsAfterSubcommands | lib/lino/builders/mixins/option_config.rb:30-32 | sets the placement default to AfterSubcommands and nothing else |
| BuilderCommandLine.CommandLineBuilder.WithOptionsAfterArguments | lib/lino/builders/mixins/option_config.rb:34-36 | sets the placement default to AfterArguments and nothing else |
| BuilderCommandLine.CommandLineBuilder.WithOption | lib/lino/builders/mixins/options.rb:19-37 | only the options change; absent value is a no-op; otherwise one descriptor appended at the end |
| BuilderCommandLine.CommandLineBuilder.WithOptions | lib/lino/builders/mixins/options.rb:39-51 | only the options change; the present entries are appended in order |
| BuilderCommandLine.CommandLineBuilder.WithRepeatedOption | lib/lino/builders/mixins/options.rb:53-69 | only the options change; one descriptor per present value with shared overrides |
| BuilderCommandLine.CommandLineBuilder.WithFlag | lib/lino/builders/mixins/options.rb:71-80 | only the options change; absent flag is a no-op; otherwise one flag descriptor appended |
| BuilderCommandLine.CommandLineBuilder.WithFlags | lib/lino/builders/mixins/options.rb:82-86 | only the options change; the present flags are appended in order |
| BuilderCommandLine.CommandLineBuilder.WithArgument | lib/lino/builders/mixins/arguments.rb:17-22 | only the arguments change; nil or empty text is a no-op; otherwise one argument appended at the end |
| BuilderCommandLine.CommandLineBuilder.WithArguments | lib/lino/builders/mixins/arguments.rb:24-28 | only the arguments change; one argument per present entry, in order |
| BuilderCommandLine.CommandLineBuilder.WithEnvironmentVariable | lib/lino/builders/mixins/environment_variables.rb:18-25 | only the variables change; exactly one variable appended, with `"` quoting, no guard |
| BuilderCommandLine.CommandLineBuilder.WithEnvironmentVariables | lib/lino/builders/mixins/environment_variables.rb:27-36 | only the variables change; one variable per entry, in order |
| BuilderCommandLine.CommandLineBuilder.WithSubcommand | lib/lino/builders/mixins/subcommands.rb:17-27 | only the subcommands change; nil or empty name is a no-op; otherwise one builder appended, the block applied to a fresh builder or the fresh builder itself |
| BuilderCommandLine.CommandLineBuilder.WithSubcommands | lib/lino/builders/mixins/subcommands.rb:29-38 | nil or empty is a no-op; the names but the last are added without the block, the last with it |
| BuilderCommandLine.CommandLineBuilder.WithWorkingDirectory | lib/lino/builders/mixins/working_directory.rb:12-14 | only the working directory changes |
| BuilderCommandLine.CommandLineBuilder.WithExecutor | lib/lino/builders/mixins/executor.rb:7-14 | only the executor changes; nil restores Childprocess |
| BuilderCommandLine.CommandLineBuilder.Build | lib/lino/builders/command_line.rb:36-46 | the corrected `build` (as written, arguments are dropped; see Findings): command, arguments, variables, executor and working directory pass through; top-level and every subcommand's options resolved against the builder's configuration, order kept |
| BuilderCommandLine.ArgumentsOf | lib/lino/builders/mixins/arguments.rb:21 | one argument per text, in order |
| BuilderCommandLine.FoldArguments | lib/lino/builders/mixins/arguments.rb:27 | folding `with_argument` appends the present entries and changes nothing else |
| BuilderCommandLine.VariablesOf | lib/lino/builders/mixins/environment_variables.rb:30-35 | one `"`-quoted variable per entry, in order |
| BuilderCommandLine.FoldVariables | lib/lino/builders/mixins/environment_variables.rb:30-35 | folding `with_environment_variable` appends the entries and changes nothing else |
| BuilderCommandLine.FreshSubcommands | lib/lino/builders/mixins/subcommands.rb:23 | one fresh subcommand builder per name, in order |
| BuilderCommandLine.FoldSubcommands | lib/lino/builders/mixins/subcommands.rb:35-36 | folding block-less `with_subcommand` appends a fresh builder per present name |
| BuilderCommandLine.BuildSubcommands | lib/lino/builders/mixins/subcommands.rb:46-48 | each subcommand built against the same defaults, order kept |
| BuilderCommandLine.LastSetterWins | lib/lino/builders/mixins/option_config.rb:14-24 | a later setter of the same kind overrides an earlier one (separator, quoting, placement, working directory, executor) |
| BuilderCommandLine.NilRestoresDefaults | lib/lino/builders/mixins/option_config.rb:8-10 | nil separator, placement or executor gives back a fresh builder's default |
| BuilderCommandLine.BuildAfterWithOption | lib/lino/builders/command_line.rb:36-46 | after `with_option` the built options gain exactly the new option, its overrides beating the builder defaults |
| BuilderCommandLine.SubcommandsInheritDefaults | lib/lino/builders/command_line.rb:40-44 | a subcommand option without overrides takes the builder's separator, quoting and placement |
| BuilderCommandLine.ArgumentsAddedCount | lib/lino/builders/mixins/arguments.rb:17-28 | the arguments added number the present entries; all of them when none is nil or empty |
| BuilderCommandLine.AllPresent | lib/lino/builders/mixins/arguments.rb:18-19 | when no entry is nil or empty, none is dropped |
| BuilderCommandLine.WithSubcommandsOfNames | lib/lino/builders/mixins/subcommands.rb:29-38 | over present names: the fresh builders of all names but the last, then the block applied to the last |
| BuilderCommandLine.SubcommandsBlockOnLast | lib/lino/builders/mixins/subcommands.rb:29-38 | n names append n subcommands in order; only the last is shaped by the block |
| BuilderCommandLine.MaybeAll | lib/lino/builders/mixins/subcommands.rb:29 | every name as a present value |
| BuilderCommandLine.PresentOfAll | lib/lino/builders/mixins/subcommands.rb:36 | non-empty names are all kept |
| BuilderCommandLine.CommandPreserved | lib/lino/builders/command_line.rb:50-58 | every `with_*` (options, flags, arguments, environment variables, subcommands, option configuration, working directory, executor), for all inputs, keeps the command |
| BuilderCommandLine.StateAsWritten | lib/lino/builders/command_line.rb:50-58 | as written, a builder rebuilt from `state` keeps command, subcommands, variables, executor and working directory, and resets options, arguments and option configuration |
| BuilderCommandLine.BuildAsWritten | lib/lino/builders/command_line.rb:36-46 | as written, `build` gives the intended command line with no arguments, because `state` carries none |
| BuilderCommandLine.AsWrittenBuildDropsArguments | lib/lino/builders/command_line.rb:39-44 | as written, `for_command('ls').with_argument('/home').build` has no arguments and renders as `ls`; the corrected `build` keeps `/home` |
| BuilderCommandLine.WithEnvironmentVariableAsWritten | lib/lino/builders/mixins/environment_variables.rb:18-25 | as written, the new variable list is the intended one |
| BuilderCommandLine.AsWrittenStateForgetsSeparator | lib/lino/builders/command_line.rb:56-58 | as written, adding a variable forgets an earlier separator `=`; the corrected builder keeps it |
| Executors.ExecutionOutcome | lib/lino/executors/mock.rb:16-21 | success exactly when the exit code is 0; otherwise an error carrying the command line's `string` and the code |
| Executors.Mock.constructor | lib/lino/executors/mock.rb:9-11 | a new mock has no calls and exit code 0 |
| Executors.Mock.Execute | lib/lino/executors/mock.rb:13-21 | appends exactly one record (command line, opts, current exit code), even when it then fails; the exit code is unchanged; fails exactly when it is non-zero |
| Executors.Mock.Reset | lib/lino/executors/mock.rb:23-26 | no calls and exit code 0 |
| Executors.Mock.SetExitCode | lib/lino/executors/mock.rb:7 | sets the exit code and keeps the calls |
| Executors.ExecuteCommandLine | lib/lino/model/command_line.rb:36-38 | a command line whose executor is the mock is recorded by it and fails as it does |
| Executors.RecordInOrder | lib/lino/executors/mock.rb:13-26 | calls are recorded in order with the exit code in force; a non-zero code fails with the command line's string |
| Scenarios.FlagOptionArgumentBuild | lib/lino/builders/command_line.rb:36-46 | flag, option, then argument build to the expected command line |
| Scenarios.FlagOptionArgumentString | lib/lino/model/command_line.rb:50-52 | that command line renders as `cmd -v --opt val file` |
| Scenarios.FlagOptionArgumentArray | lib/lino/model/command_line.rb:44-46 | and splits into `cmd`, `-v`, `--opt`, `val`, `file` |
| Scenarios.WithVariableBuild | lib/lino/builders/mixins/environment_variables.rb:18-25 | one `with_environment_variable` builds to the command with that `"`-quoted variable |
| Scenarios.VariableBeforeCommand | lib/lino/model/command_line.rb:40-52 | a variable renders as `X="1" cmd`, is absent from the argv form, and `env` is {X: 1} |
| Scenarios.QuoteInsideValueEscaped | lib/lino/model/environment_variable.rb:19-30 | a quote inside the value is escaped in the display form and raw in the pair |
| Scenarios.LateOptionBuild | lib/lino/builders/mixins/options.rb:19-37 | an option given an after-arguments placement keeps it through `build` |
| Scenarios.PlacementAfterArguments | lib/lino/model/command_line.rb:6-14 | an option placed after the arguments renders after them |

## Left out

- The process executors (`lib/lino/executors/childprocess.rb`, `lib/lino/executors/open4.rb`) spawn processes, wire standard streams and wait on exit codes through foreign gems. They are not part of this model. An executor is one of three kinds, compared by kind.
- Executors.ExecuteCommandLine: requires the mock executor, because running a command line under the other two executors is process I/O.
- The process-wide `Lino.configuration.executor` default (`lib/lino/model/command_line.rb:88`) is mutable global configuration. `NewCommandLine` takes the executor explicitly.
- `==`, `eql?` and `hash` are not modelled as members: Dafny datatype equality is the structural equality they implement, and datatypes have no subclasses.
- The receiver of a `with_*` is never changed, and `build` called twice gives equal command lines. Both hold because builders are immutable values and the operations are functions. No member states them.
- Ruby `to_s` of arbitrary objects is not modelled: names, values, arguments and flags are strings. `Flag#to_a` and `Argument#to_a` alias `string` rather than `array` (`flag.rb:23`, `argument.rb:20`); those aliases are not modelled.
- Environment-variable quoting is one character. Multi-character and empty quoting strings, and nil names or values, are not modelled.
- `with_options` and `with_environment_variables` accept either hashes or positional arrays, read through `or_nth`/`or_nil` and `include?`. The model takes a record per entry. Positional arrays that are too short, whose missing values Ruby reads as nil, are not modelled.
- `with_repeated_option` with a nil list raises in Ruby. The model takes a list, so that error path is not modelled.
- An appliable is modelled as a function from builders to builders. A subcommand block is likewise a function from subcommand builders to subcommand builders.
- Mock.Execute: a failure is returned as an outcome instead of being raised. The mock's `calls` reader returns the live array; aliasing through it is not modelled.
- The legacy top-level classes (`lib/lino/command_line.rb`, `lib/lino/command_line_builder.rb`, `lib/lino/subcommand.rb`, `lib/lino/subcommand_builder.rb`, `lib/lino/options.rb`, `lib/lino/switches.rb` and the `lib/lino/mixins` directory) are superseded by the model and builders and are not part of this model.

## Findings

| source | as written | input that shows it | evidently intended | confidence | as-written member | corrected member |
|---|---|---|---|---|---|---|
| lib/lino/model/environment_variable.rb:20 | `gsub(quoting, "\\#{quoting}")`: the replacement is a template, so `\'` inserts the post-match, `` \` `` the pre-match, `\&` and `\0` the match, `\1`-`\9` nothing | quoting `'`, value `it's` renders `'itss'` | a backslash before every quote character: `'it\'s'` | not executed; medium (follows Ruby's documented replacement templates) | ModelEnvironmentVariable.ApostropheQuotingLosesQuote | ModelEnvironmentVariable.EscapeRoundTrip |
| lib/lino/builders/command_line.rb:56-58 | `with` rebuilds from `state`, which the options, arguments and option configuration mixins do not extend | `for_command('cmd').with_option_separator('=').with_environment_variable('X', '1')` has separator `' '` | every field survives a later `with_*` | not executed; medium (`options.rb`, `arguments.rb` and `option_config.rb` define no `state`) | BuilderCommandLine.AsWrittenStateForgetsSeparator | BuilderCommandLine.CommandLineBuilder.WithEnvironmentVariable |
| lib/lino/builders/command_line.rb:39-44 | `build` passes `state.merge(options: ..., subcommands: ...)`, and `state` has no arguments, so `Model::CommandLine.new` reads no `:arguments` | `for_command('ls').with_argument('/home').build` has no arguments and renders as `ls` | the arguments reach the command line: `ls /home` | not executed; medium (no `state` in `arguments.rb`) | BuilderCommandLine.AsWrittenBuildDropsArguments | BuilderCommandLine.CommandLineBuilder.Build |
