/** The root aggregate and its two renderings (lib/lino/model/command_line.rb).
    Components are laid out along a fixed list of anchors; the argv form
    leaves out the environment variables, the display form puts them first. */
module ModelCommandLine {
  import opened Wrappers
  import opened Text
  import opened ModelOption
  import opened ModelOptions
  import opened ModelArgument
  import opened ModelEnvironmentVariable
  import opened ModelSubcommand

  /** The executor a command line is handed to. Executors carry no
      distinguishing state, so they compare equal exactly when they are of
      the same kind. */
  datatype Executor = Childprocess | Open4 | MockExecutor

  /** The places components can appear at. */
  datatype Anchor =
    | EnvironmentVariablesAnchor
    | CommandAnchor
    | OptionsAnchor(at: Placement)
    | SubcommandsAnchor
    | ArgumentsAnchor

  /** The layout order of the rendered command line. */
  const Components: seq<Anchor> := [
    EnvironmentVariablesAnchor,
    CommandAnchor,
    OptionsAnchor(AfterCommand),
    SubcommandsAnchor,
    OptionsAnchor(AfterSubcommands),
    ArgumentsAnchor,
    OptionsAnchor(AfterArguments)
  ]

  datatype Format = ArrayFormat | StringFormat

  /** The entries placed at anchor `p`, in insertion order (one group of
      Ruby's `group_by(&:placement)`; a missing group is the empty one). */
  function OptionsAt(opts: seq<OptionOrFlag>, p: Placement): (r: seq<OptionOrFlag>)
    ensures |r| <= |opts|
    ensures forall i :: 0 <= i < |r| ==> r[i].PlacedAt() == p
  {
    if opts == [] then []
    else (if opts[0].PlacedAt() == p then [opts[0]] else []) + OptionsAt(opts[1..], p)
  }

  /** The group at `p` holds exactly the entries placed at `p`. */
  lemma {:induction false} OptionsAtMembers(opts: seq<OptionOrFlag>, p: Placement)
    ensures forall o :: o in OptionsAt(opts, p) <==> o in opts && o.PlacedAt() == p
  {
    if opts != [] {
      OptionsAtMembers(opts[1..], p);
      assert opts == [opts[0]] + opts[1..];
    }
  }

  datatype CommandLine = CommandLine(
    command: string,
    subcommands: seq<Subcommand>,
    options: seq<OptionOrFlag>,
    arguments: seq<Argument>,
    environmentVariables: seq<EnvironmentVariable>,
    executor: Executor,
    workingDirectory: Maybe<string>)
  {
    /** The command as a token list: an empty command is dropped. */
    function CommandTokens(): (r: seq<string>)
      ensures r == [] <==> command == ""
    {
      if command == "" then [] else [command]
    }

    function EnvironmentStrings(): seq<string>
    {
      Map((v: EnvironmentVariable) => v.String(), environmentVariables)
    }

    function EnvironmentTokens(): seq<string>
    {
      Flatten(Map((v: EnvironmentVariable) => v.Array(), environmentVariables))
    }

    function SubcommandStrings(): seq<string>
    {
      Map((s: Subcommand) => s.String(), subcommands)
    }

    function SubcommandTokens(): seq<string>
    {
      Flatten(Map((s: Subcommand) => s.Array(), subcommands))
    }

    function ArgumentStrings(): seq<string>
    {
      Map((a: Argument) => a.String(), arguments)
    }

    function ArgumentTokens(): seq<string>
    {
      Flatten(Map((a: Argument) => a.Array(), arguments))
    }

    function OptionStrings(p: Placement): seq<string>
    {
      Strings(OptionsAt(options, p))
    }

    function OptionTokens(p: Placement): seq<string>
    {
      Flatten(Arrays(OptionsAt(options, p)))
    }

    /** What one anchor renders to: for the display form one string per
        component, for the argv form the components' tokens. */
    function ComponentsAt(format: Format, anchor: Anchor): seq<string>
    {
      match anchor
      case EnvironmentVariablesAnchor =>
        if format == StringFormat then EnvironmentStrings()
        else EnvironmentTokens()
      case CommandAnchor => CommandTokens()
      case OptionsAnchor(p) =>
        if format == StringFormat then OptionStrings(p) else OptionTokens(p)
      case SubcommandsAnchor =>
        if format == StringFormat then SubcommandStrings() else SubcommandTokens()
      case ArgumentsAnchor =>
        if format == StringFormat then ArgumentStrings() else ArgumentTokens()
    }

    /** The rendered anchors along `paths`, empty ones dropped. */
    function FormatComponents(format: Format, paths: seq<Anchor>): (r: seq<seq<string>>)
      ensures forall i :: 0 <= i < |r| ==> r[i] != []
    {
      NonEmpty(Collected(format, paths))
    }

    /** Every anchor along `paths` rendered, in order (Ruby `collect`). */
    function Collected(format: Format, paths: seq<Anchor>): (r: seq<seq<string>>)
      ensures |r| == |paths|
    {
      if paths == [] then [] else [ComponentsAt(format, paths[0])] + Collected(format, paths[1..])
    }

    /** The argument vector: every anchor except the environment variables. */
    function Array(): seq<string>
    {
      Flatten(FormatComponents(ArrayFormat, Components[1..]))
    }

    /** The display string: every anchor, joined by single spaces. */
    function String(): string
    {
      Join(Flatten(FormatComponents(StringFormat, Components)))
    }

    /** The process environment: each name mapped to its raw value. */
    function Env(): map<string, string>
    {
      EnvOf(environmentVariables)
    }
  }

  /** Ruby `to_h(&:array)`: one key per variable name. */
  function EnvOf(vars: seq<EnvironmentVariable>): (m: map<string, string>)
    ensures m.Keys == Names(vars)
  {
    if vars == [] then map[]
    else
      var last := vars[|vars| - 1];
      NamesSnoc(vars);
      EnvOf(vars[..|vars| - 1])[last.name := last.value]
  }

  /** The names the variables carry. */
  ghost function Names(vars: seq<EnvironmentVariable>): set<string>
  {
    set v | v in vars :: v.name
  }

  /** The names of `vars` are those of all but the last, plus the last. */
  lemma NamesSnoc(vars: seq<EnvironmentVariable>)
    requires vars != []
    ensures Names(vars) == Names(vars[..|vars| - 1]) + {vars[|vars| - 1].name}
  {
    assert vars == vars[..|vars| - 1] + [vars[|vars| - 1]];
  }

  /** A name given twice keeps its last value: the variable with no later
      namesake supplies the value. */
  lemma {:induction false} EnvLastWins(vars: seq<EnvironmentVariable>, i: nat)
    requires i < |vars| && LastWithName(vars, i)
    ensures vars[i].name in EnvOf(vars) && EnvOf(vars)[vars[i].name] == vars[i].value
  {
    var init := vars[..|vars| - 1];
    if i < |vars| - 1 {
      assert vars[|vars| - 1].name != vars[i].name;
      assert LastWithName(init, i) by {
        forall j | i < j < |init| ensures init[j].name != init[i].name {
          assert init[j] == vars[j];
        }
      }
      EnvLastWins(init, i);
      assert init[i] == vars[i];
    }
  }

  /** No later variable in `vars` has the name of `vars[i]`. */
  ghost predicate LastWithName(vars: seq<EnvironmentVariable>, i: nat)
    requires i < |vars|
  {
    forall j :: i < j < |vars| ==> vars[j].name != vars[i].name
  }

  /** `CommandLine.new(command, ...)`: absent lists mean none and an absent
      working directory stays absent. The executor is passed explicitly. */
  function NewCommandLine(
    command: string,
    subcommands: Maybe<seq<Subcommand>>,
    options: Maybe<seq<OptionOrFlag>>,
    arguments: Maybe<seq<Argument>>,
    environmentVariables: Maybe<seq<EnvironmentVariable>>,
    executor: Executor,
    workingDirectory: Maybe<string>): (cl: CommandLine)
    ensures cl.command == command && cl.executor == executor
    ensures cl.workingDirectory == workingDirectory
    ensures cl.subcommands == Or(subcommands, [])
    ensures cl.options == Or(options, [])
    ensures cl.arguments == Or(arguments, [])
    ensures cl.environmentVariables == Or(environmentVariables, [])
  {
    CommandLine(command, Or(subcommands, []), Or(options, []), Or(arguments, []),
                Or(environmentVariables, []), executor, workingDirectory)
  }

  lemma FlattenCons(x: seq<string>, rest: seq<seq<string>>)
    ensures Flatten([x] + rest) == x + Flatten(rest)
  {
    assert ([x] + rest)[1..] == rest;
  }

  lemma Flatten6(b: seq<string>, c: seq<string>, d: seq<string>,
                 e: seq<string>, f: seq<string>, g: seq<string>)
    ensures Flatten([b, c, d, e, f, g]) == b + c + d + e + f + g
  {
    FlattenCons(f, [g]);
    FlattenCons(e, [f, g]);
    FlattenCons(d, [e, f, g]);
    FlattenCons(c, [d, e, f, g]);
    FlattenCons(b, [c, d, e, f, g]);
  }

  lemma Flatten7(a: seq<string>, b: seq<string>, c: seq<string>, d: seq<string>,
                 e: seq<string>, f: seq<string>, g: seq<string>)
    ensures Flatten([a, b, c, d, e, f, g]) == a + b + c + d + e + f + g
  {
    Flatten6(b, c, d, e, f, g);
    FlattenCons(a, [b, c, d, e, f, g]);
  }

  /** The argv form is the command, the after-command entries, the
      subcommands, the after-subcommands entries, the arguments and the
      after-arguments entries, flattened in that order. */
  lemma ArrayLayout(cl: CommandLine)
    ensures cl.Array() ==
      cl.CommandTokens() + cl.OptionTokens(AfterCommand) + cl.SubcommandTokens()
      + cl.OptionTokens(AfterSubcommands) + cl.ArgumentTokens() + cl.OptionTokens(AfterArguments)
  {
    var parts := cl.Collected(ArrayFormat, Components[1..]);
    calc {
      cl.Array();
      Flatten(NonEmpty(parts));
    == { FlattenNonEmpty(parts); }
      Flatten(parts);
    == { ArgvParts(cl); }
      Flatten([cl.CommandTokens(), cl.OptionTokens(AfterCommand), cl.SubcommandTokens(),
               cl.OptionTokens(AfterSubcommands), cl.ArgumentTokens(), cl.OptionTokens(AfterArguments)]);
    == { Flatten6(cl.CommandTokens(), cl.OptionTokens(AfterCommand), cl.SubcommandTokens(),
                  cl.OptionTokens(AfterSubcommands), cl.ArgumentTokens(), cl.OptionTokens(AfterArguments)); }
      cl.CommandTokens() + cl.OptionTokens(AfterCommand) + cl.SubcommandTokens()
      + cl.OptionTokens(AfterSubcommands) + cl.ArgumentTokens() + cl.OptionTokens(AfterArguments);
    }
  }

  /** The argv anchors rendered one by one. */
  lemma ArgvParts(cl: CommandLine)
    ensures cl.Collected(ArrayFormat, Components[1..])
         == [cl.CommandTokens(), cl.OptionTokens(AfterCommand), cl.SubcommandTokens(),
             cl.OptionTokens(AfterSubcommands), cl.ArgumentTokens(), cl.OptionTokens(AfterArguments)]
  {
    var paths := Components[1..];
    CollectedAt(cl, ArrayFormat, paths, 0);
    CollectedAt(cl, ArrayFormat, paths, 1);
    CollectedAt(cl, ArrayFormat, paths, 2);
    CollectedAt(cl, ArrayFormat, paths, 3);
    CollectedAt(cl, ArrayFormat, paths, 4);
    CollectedAt(cl, ArrayFormat, paths, 5);
  }

  /** All seven anchors rendered one by one. */
  lemma DisplayParts(cl: CommandLine)
    ensures cl.Collected(StringFormat, Components)
         == [cl.EnvironmentStrings(), cl.CommandTokens(), cl.OptionStrings(AfterCommand), cl.SubcommandStrings(),
             cl.OptionStrings(AfterSubcommands), cl.ArgumentStrings(), cl.OptionStrings(AfterArguments)]
  {
    CollectedAt(cl, StringFormat, Components, 0);
    CollectedAt(cl, StringFormat, Components, 1);
    CollectedAt(cl, StringFormat, Components, 2);
    CollectedAt(cl, StringFormat, Components, 3);
    CollectedAt(cl, StringFormat, Components, 4);
    CollectedAt(cl, StringFormat, Components, 5);
    CollectedAt(cl, StringFormat, Components, 6);
  }

  /** The `i`-th collected component is the `i`-th anchor rendered. */
  lemma {:induction false} CollectedAt(cl: CommandLine, format: Format, paths: seq<Anchor>, i: nat)
    requires i < |paths|
    ensures cl.Collected(format, paths)[i] == cl.ComponentsAt(format, paths[i])
  {
    if i > 0 {
      CollectedAt(cl, format, paths[1..], i - 1);
    }
  }

  /** The display form is the environment variables, then the same anchors
      as the argv form, every component's display string joined by single
      spaces (empty anchors leave no stray space). */
  lemma StringLayout(cl: CommandLine)
    ensures cl.String() == Join(
      cl.EnvironmentStrings() + cl.CommandTokens() + cl.OptionStrings(AfterCommand) + cl.SubcommandStrings()
      + cl.OptionStrings(AfterSubcommands) + cl.ArgumentStrings() + cl.OptionStrings(AfterArguments))
  {
    var parts := cl.Collected(StringFormat, Components);
    calc {
      Flatten(cl.FormatComponents(StringFormat, Components));
      Flatten(NonEmpty(parts));
    == { FlattenNonEmpty(parts); }
      Flatten(parts);
    == { DisplayParts(cl); }
      Flatten([cl.EnvironmentStrings(), cl.CommandTokens(), cl.OptionStrings(AfterCommand), cl.SubcommandStrings(),
               cl.OptionStrings(AfterSubcommands), cl.ArgumentStrings(), cl.OptionStrings(AfterArguments)]);
    == { Flatten7(cl.EnvironmentStrings(), cl.CommandTokens(), cl.OptionStrings(AfterCommand), cl.SubcommandStrings(),
                  cl.OptionStrings(AfterSubcommands), cl.ArgumentStrings(), cl.OptionStrings(AfterArguments)); }
      cl.EnvironmentStrings() + cl.CommandTokens() + cl.OptionStrings(AfterCommand) + cl.SubcommandStrings()
      + cl.OptionStrings(AfterSubcommands) + cl.ArgumentStrings() + cl.OptionStrings(AfterArguments);
    }
  }

  /** Environment variables never reach the argv form. */
  lemma ArrayIgnoresEnvironment(cl: CommandLine, vars: seq<EnvironmentVariable>)
    ensures cl.(environmentVariables := vars).Array() == cl.Array()
  {
    ArrayLayout(cl);
    ArrayLayout(cl.(environmentVariables := vars));
  }

  /** A command line with nothing but a command renders as the command. */
  lemma BareCommand(cl: CommandLine)
    requires cl.subcommands == [] && cl.options == [] && cl.arguments == [] && cl.environmentVariables == []
    ensures cl.String() == cl.command
    ensures cl.Array() == cl.CommandTokens()
  {
    StringLayout(cl);
    ArrayLayout(cl);
    assert cl.SubcommandTokens() == [] && cl.ArgumentTokens() == [];
    assert cl.EnvironmentStrings() == [] && cl.SubcommandStrings() == [] && cl.ArgumentStrings() == [];
  }

  /** Appending entries appends to each group: entries keep their relative
      insertion order within their anchor. */
  lemma {:induction false} OptionsAtAppend(a: seq<OptionOrFlag>, b: seq<OptionOrFlag>, p: Placement)
    ensures OptionsAt(a + b, p) == OptionsAt(a, p) + OptionsAt(b, p)
  {
    if a == [] {
      assert a + b == b;
    } else {
      assert (a + b)[1..] == a[1..] + b;
      OptionsAtAppend(a[1..], b, p);
    }
  }

  /** Every entry lands in exactly one of the three groups. */
  lemma {:induction false} GroupsPartition(opts: seq<OptionOrFlag>)
    ensures |OptionsAt(opts, AfterCommand)| + |OptionsAt(opts, AfterSubcommands)|
            + |OptionsAt(opts, AfterArguments)| == |opts|
  {
    if opts != [] {
      GroupsPartition(opts[1..]);
    }
  }

  /** Two sides whose parts join alike join alike when concatenated. */
  lemma JoinConcat(a1: seq<string>, a2: seq<string>, b1: seq<string>, b2: seq<string>)
    requires Join(a1) == Join(b1) && (a1 == [] <==> b1 == [])
    requires Join(a2) == Join(b2) && (a2 == [] <==> b2 == [])
    ensures Join(a1 + a2) == Join(b1 + b2)
    ensures a1 + a2 == [] <==> b1 + b2 == []
  {
    if a1 == [] {
      assert a1 + a2 == a2 && b1 + b2 == b2;
    } else if a2 == [] {
      assert a1 + a2 == a1 && b1 + b2 == b1;
    } else {
      JoinAppend(a1, a2);
      JoinAppend(b1, b2);
    }
  }

  lemma {:induction false} TokensNonEmpty(opts: seq<OptionOrFlag>)
    ensures Flatten(Arrays(opts)) == [] <==> opts == []
  {
    if opts != [] {
      assert Flatten(Arrays(opts)) == opts[0].Array() + Flatten(Arrays(opts)[1..]);
    }
  }

  lemma GroupJoinsAlike(cl: CommandLine, p: Placement)
    requires forall o :: o in cl.options ==> o.Unquoted()
    ensures Join(cl.OptionStrings(p)) == Join(cl.OptionTokens(p))
    ensures cl.OptionStrings(p) == [] <==> cl.OptionTokens(p) == []
  {
    var group := OptionsAt(cl.options, p);
    OptionsAtMembers(cl.options, p);
    assert forall i :: 0 <= i < |group| ==> group[i] in cl.options;
    UnquotedStringsJoinArrays(group);
    TokensNonEmpty(group);
  }

  /** Named subcommands with unquoted options join alike in both forms. */
  lemma SubcommandsJoinAlike(cl: CommandLine)
    requires forall s :: s in cl.subcommands ==> s.subcommand != ""
    requires forall s, o :: s in cl.subcommands && o in s.options ==> o.Unquoted()
    ensures Join(cl.SubcommandStrings()) == Join(cl.SubcommandTokens())
    ensures cl.SubcommandStrings() == [] <==> cl.SubcommandTokens() == []
  {
    var subs := cl.subcommands;
    var arrays := Map((s: Subcommand) => s.Array(), subs);
    assert cl.SubcommandTokens() == Flatten(arrays);
    forall i | 0 <= i < |subs|
      ensures cl.SubcommandStrings()[i] == JoinEach(arrays)[i]
    {
      assert subs[i] in subs;
      ModelSubcommand.StringJoinsArray(subs[i]);
    }
    assert cl.SubcommandStrings() == JoinEach(arrays);
    JoinOfJoins(arrays);
    if subs != [] {
      assert Flatten(arrays) == arrays[0] + Flatten(arrays[1..]);
    }
  }

  /** An argument is its own single token, so both forms list the same
      texts. */
  lemma {:induction false} ArgumentTokensAreStrings(cl: CommandLine)
    ensures cl.ArgumentTokens() == cl.ArgumentStrings()
    decreases |cl.arguments|
  {
    var args := cl.arguments;
    if args != [] {
      var rest := cl.(arguments := args[1..]);
      ArgumentTokensAreStrings(rest);
      var arrays := Map((a: Argument) => a.Array(), args);
      assert arrays[1..] == Map((a: Argument) => a.Array(), args[1..]);
      assert cl.ArgumentTokens() == arrays[0] + rest.ArgumentTokens();
      assert cl.ArgumentStrings() == [args[0].String()] + rest.ArgumentStrings();
    }
  }

  /** Six pairs of parts that join alike join alike when concatenated. */
  lemma JoinSix(a1: seq<string>, a2: seq<string>, a3: seq<string>, a4: seq<string>, a5: seq<string>, a6: seq<string>,
                b1: seq<string>, b2: seq<string>, b3: seq<string>, b4: seq<string>, b5: seq<string>, b6: seq<string>)
    requires Join(a1) == Join(b1) && (a1 == [] <==> b1 == [])
    requires Join(a2) == Join(b2) && (a2 == [] <==> b2 == [])
    requires Join(a3) == Join(b3) && (a3 == [] <==> b3 == [])
    requires Join(a4) == Join(b4) && (a4 == [] <==> b4 == [])
    requires Join(a5) == Join(b5) && (a5 == [] <==> b5 == [])
    requires Join(a6) == Join(b6) && (a6 == [] <==> b6 == [])
    ensures Join(a1 + a2 + a3 + a4 + a5 + a6) == Join(b1 + b2 + b3 + b4 + b5 + b6)
  {
    JoinConcat(a1, a2, b1, b2);
    JoinConcat(a1 + a2, a3, b1 + b2, b3);
    JoinConcat(a1 + a2 + a3, a4, b1 + b2 + b3, b4);
    JoinConcat(a1 + a2 + a3 + a4, a5, b1 + b2 + b3 + b4, b5);
    JoinConcat(a1 + a2 + a3 + a4 + a5, a6, b1 + b2 + b3 + b4 + b5, b6);
  }

  /** Under the conditions of `StringJoinsArray`, every anchor's display
      strings join to the same text as its tokens. */
  lemma AnchorsJoinAlike(cl: CommandLine)
    requires forall o :: o in cl.options ==> o.Unquoted()
    requires forall s :: s in cl.subcommands ==> s.subcommand != ""
    requires forall s, o :: s in cl.subcommands && o in s.options ==> o.Unquoted()
    ensures Join(cl.SubcommandStrings()) == Join(cl.SubcommandTokens())
    ensures cl.SubcommandStrings() == [] <==> cl.SubcommandTokens() == []
    ensures cl.ArgumentStrings() == cl.ArgumentTokens()
  {
    SubcommandsJoinAlike(cl);
    ArgumentTokensAreStrings(cl);
  }

  lemma StringJoinsArray(cl: CommandLine)
    requires cl.environmentVariables == []
    requires forall o :: o in cl.options ==> o.Unquoted()
    requires forall s :: s in cl.subcommands ==> s.subcommand != ""
    requires forall s, o :: s in cl.subcommands && o in s.options ==> o.Unquoted()
    ensures cl.String() == Join(cl.Array())
  {
    StringLayout(cl);
    ArrayLayout(cl);
    GroupJoinsAlike(cl, AfterCommand);
    GroupJoinsAlike(cl, AfterSubcommands);
    GroupJoinsAlike(cl, AfterArguments);
    AnchorsJoinAlike(cl);
    var c := cl.CommandTokens();
    assert cl.EnvironmentStrings() + c == c;
    JoinSix(c, cl.OptionStrings(AfterCommand), cl.SubcommandStrings(),
            cl.OptionStrings(AfterSubcommands), cl.ArgumentStrings(), cl.OptionStrings(AfterArguments),
            c, cl.OptionTokens(AfterCommand), cl.SubcommandTokens(),
            cl.OptionTokens(AfterSubcommands), cl.ArgumentTokens(), cl.OptionTokens(AfterArguments));
  }

  /** Every variable given quoting `q`. */
  function RequotedVars(vars: seq<EnvironmentVariable>, q: char): (r: seq<EnvironmentVariable>)
    ensures |r| == |vars| && forall i :: 0 <= i < |vars| ==> r[i] == vars[i].(quoting := q)
  {
    seq(|vars|, i requires 0 <= i < |vars| => vars[i].(quoting := q))
  }

  /** The environment map holds raw values: quoting never reaches it. */
  lemma {:induction false} EnvIgnoresQuoting(vars: seq<EnvironmentVariable>, q: char)
    ensures EnvOf(RequotedVars(vars, q)) == EnvOf(vars)
  {
    if vars != [] {
      var n := |vars|;
      assert RequotedVars(vars, q)[..n - 1] == RequotedVars(vars[..n - 1], q);
      EnvIgnoresQuoting(vars[..n - 1], q);
    }
  }
}
