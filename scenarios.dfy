/** Worked examples: command lines assembled with the builder and rendered
    by the model. */
module Scenarios {
  import opened Wrappers
  import opened Text
  import opened ModelOption
  import opened ModelFlag
  import opened ModelOptions
  import opened ModelArgument
  import opened ModelEnvironmentVariable
  import opened ModelCommandLine
  import opened BuilderOptions
  import opened BuilderCommandLine

  /** `cmd -v --opt val file`: one flag and one option, both after the
      command, and one argument. */
  const Verbose := FlagItem(Flag("-v", AfterCommand))
  const Opt := OptionItem(Option("--opt", "val", " ", None, AfterCommand))
  const FlagOptionArgument := CommandLine("cmd", [], [Verbose, Opt], [Argument("file")], [], Childprocess, None)

  /** The builder calls for that command line. */
  lemma FlagOptionArgumentBuild()
    ensures ForCommand("cmd").WithFlag(Some("-v")).WithOption("--opt", Some("val"), None, None, None)
              .WithArgument(Some("file")).Build()
         == FlagOptionArgument
  {
  }

  /** Both entries sit in the after-command group; the others are empty. */
  lemma FlagOptionArgumentGroups()
    ensures OptionsAt([Verbose, Opt], AfterCommand) == [Verbose, Opt]
    ensures OptionsAt([Verbose, Opt], AfterSubcommands) == []
    ensures OptionsAt([Verbose, Opt], AfterArguments) == []
  {
  }

  /** Each entry's own forms. */
  lemma EntryForms()
    ensures Verbose.String() == "-v" && Verbose.Array() == ["-v"]
    ensures Opt.String() == "--opt val" && Opt.Array() == ["--opt", "val"]
  {
  }

  /** The two entries after the command, in display form. */
  lemma FlagOptionArgumentOptionStrings()
    ensures FlagOptionArgument.OptionStrings(AfterCommand) == ["-v", "--opt val"]
    ensures FlagOptionArgument.OptionStrings(AfterSubcommands) == [] && FlagOptionArgument.OptionStrings(AfterArguments) == []
  {
    FlagOptionArgumentGroups();
    EntryForms();
    var r := Strings([Verbose, Opt]);
    assert |r| == 2 && r[0] == "-v" && r[1] == "--opt val";
  }

  /** The two entries after the command, in argv form. */
  lemma FlagOptionArgumentOptionTokens()
    ensures FlagOptionArgument.OptionTokens(AfterCommand) == ["-v", "--opt", "val"]
  {
    calc {
      FlagOptionArgument.OptionTokens(AfterCommand);
    == { FlagOptionArgumentGroups(); }
      Flatten(Arrays([Verbose, Opt]));
    == { EntryForms(); assert Arrays([Verbose, Opt]) == [["-v"], ["--opt", "val"]]; }
      Flatten([["-v"], ["--opt", "val"]]);
    == { assert [["-v"], ["--opt", "val"]][1..] == [["--opt", "val"]]; }
      ["-v"] + ["--opt", "val"];
    }
  }

  /** No entry sits after the subcommands or after the arguments. */
  lemma FlagOptionArgumentNoLateTokens()
    ensures FlagOptionArgument.OptionTokens(AfterSubcommands) == [] && FlagOptionArgument.OptionTokens(AfterArguments) == []
  {
    FlagOptionArgumentGroups();
  }

  /** The remaining components: no variables or subcommands, one argument. */
  lemma FlagOptionArgumentOthers()
    ensures FlagOptionArgument.EnvironmentStrings() == [] && FlagOptionArgument.SubcommandStrings() == []
    ensures FlagOptionArgument.SubcommandTokens() == []
    ensures FlagOptionArgument.ArgumentStrings() == ["file"] && FlagOptionArgument.ArgumentTokens() == ["file"]
  {
  }

  /** The display components of the example, in anchor order. */
  lemma FlagOptionArgumentParts()
    ensures var cl := FlagOptionArgument;
            (cl.EnvironmentStrings() + cl.CommandTokens() + cl.OptionStrings(AfterCommand) + cl.SubcommandStrings()
             + cl.OptionStrings(AfterSubcommands) + cl.ArgumentStrings() + cl.OptionStrings(AfterArguments)
             == ["cmd", "-v", "--opt val", "file"])
  {
    FlagOptionArgumentOptionStrings();
    FlagOptionArgumentOthers();
  }

  /** That command line renders as `cmd -v --opt val file`. */
  lemma FlagOptionArgumentString()
    ensures FlagOptionArgument.String() == "cmd -v --opt val file"
  {
    var cl := FlagOptionArgument;
    calc {
      cl.String();
    == { StringLayout(cl); }
      Join(cl.EnvironmentStrings() + cl.CommandTokens() + cl.OptionStrings(AfterCommand) + cl.SubcommandStrings()
           + cl.OptionStrings(AfterSubcommands) + cl.ArgumentStrings() + cl.OptionStrings(AfterArguments));
    == { FlagOptionArgumentParts(); }
      Join(["cmd", "-v", "--opt val", "file"]);
    == { FourWords(); }
      "cmd -v --opt val file";
    }
  }

  lemma FourWords()
    ensures Join(["cmd", "-v", "--opt val", "file"]) == "cmd -v --opt val file"
  {
    assert ["cmd", "-v", "--opt val", "file"][1..] == ["-v", "--opt val", "file"];
    assert ["-v", "--opt val", "file"][1..] == ["--opt val", "file"];
    assert ["--opt val", "file"][1..] == ["file"];
  }

  /** ... and splits into five argv tokens. */
  lemma FlagOptionArgumentArray()
    ensures FlagOptionArgument.Array() == ["cmd", "-v", "--opt", "val", "file"]
  {
    var cl := FlagOptionArgument;
    calc {
      cl.Array();
    == { ArrayLayout(cl); }
      cl.CommandTokens() + cl.OptionTokens(AfterCommand) + cl.SubcommandTokens()
      + cl.OptionTokens(AfterSubcommands) + cl.ArgumentTokens() + cl.OptionTokens(AfterArguments);
    == { FlagOptionArgumentOptionTokens(); FlagOptionArgumentNoLateTokens(); FlagOptionArgumentOthers(); }
      ["cmd"] + ["-v", "--opt", "val"] + [] + [] + ["file"] + [];
    }
  }

  /** `cmd` with one environment variable `X=1`. */
  const WithVariable := CommandLine("cmd", [], [], [], [EnvironmentVariable("X", "1", '"')], Childprocess, None)

  /** The builder calls for that command line. */
  lemma WithVariableBuild()
    ensures ForCommand("cmd").WithEnvironmentVariable("X", "1").Build() == WithVariable
  {
  }

  /** An environment variable renders before the command with its value
      quoted, stays out of the argv form, and is the whole environment. */
  lemma VariableBeforeCommand()
    ensures WithVariable.String() == "X=\"1\" cmd"
    ensures WithVariable.Array() == ["cmd"]
    ensures WithVariable.Env() == map["X" := "1"]
  {
    VariableString();
    VariableArray();
    VariableEnv();
  }

  lemma VariableString()
    ensures WithVariable.String() == "X=\"1\" cmd"
  {
    var cl := WithVariable;
    calc {
      cl.String();
    == { StringLayout(cl); }
      Join(cl.EnvironmentStrings() + cl.CommandTokens() + cl.OptionStrings(AfterCommand) + cl.SubcommandStrings()
           + cl.OptionStrings(AfterSubcommands) + cl.ArgumentStrings() + cl.OptionStrings(AfterArguments));
    == { VariableParts(); }
      Join(["X=\"1\"", "cmd"]);
    == { assert ["X=\"1\"", "cmd"][1..] == ["cmd"]; }
      "X=\"1\" cmd";
    }
  }

  lemma VariableArray()
    ensures WithVariable.Array() == ["cmd"]
  {
    var cl := WithVariable;
    calc {
      cl.Array();
    == { ArrayLayout(cl); }
      cl.CommandTokens() + cl.OptionTokens(AfterCommand) + cl.SubcommandTokens()
      + cl.OptionTokens(AfterSubcommands) + cl.ArgumentTokens() + cl.OptionTokens(AfterArguments);
    == { VariableParts(); }
      ["cmd"];
    }
  }

  lemma VariableEnv()
    ensures WithVariable.Env() == map["X" := "1"]
  {
    assert WithVariable.environmentVariables[..0] == [];
  }

  /** The display components of the variable example, in anchor order. */
  lemma VariableParts()
    ensures var cl := WithVariable;
            (cl.EnvironmentStrings() + cl.CommandTokens() + cl.OptionStrings(AfterCommand) + cl.SubcommandStrings()
             + cl.OptionStrings(AfterSubcommands) + cl.ArgumentStrings() + cl.OptionStrings(AfterArguments)
             == ["X=\"1\"", "cmd"])
    ensures var cl := WithVariable;
            (cl.OptionTokens(AfterCommand) == [] && cl.SubcommandTokens() == [] && cl.OptionTokens(AfterSubcommands) == []
             && cl.ArgumentTokens() == [] && cl.OptionTokens(AfterArguments) == [])
  {
    var cl := WithVariable;
    assert OptionsAt([], AfterCommand) == [] && OptionsAt([], AfterSubcommands) == [] && OptionsAt([], AfterArguments) == [];
    assert Escape("1", '"') == "1";
    assert cl.environmentVariables[0].String() == "X=\"1\"";
    assert cl.EnvironmentStrings() == ["X=\"1\""];
    assert cl.SubcommandStrings() == [] && cl.ArgumentStrings() == [];
  }

  /** A value holding the quote character has it escaped in the display
      form, and kept raw in the environment. */
  lemma QuoteInsideValueEscaped()
    ensures EnvironmentVariable("A", "a\"", '"').String() == "A=\"a\\\"\""
    ensures EnvironmentVariable("A", "a\"", '"').Array() == ["A", "a\""]
  {
    assert Escape("\"", '"') == "\\\"";
    assert Escape("a\"", '"') == "a\\\"";
  }

  /** `cmd file` with an option `--o v` placed after the arguments. */
  const Late := OptionItem(Option("--o", "v", " ", None, AfterArguments))
  const LateOption := CommandLine("cmd", [], [Late], [Argument("file")], [], Childprocess, None)

  /** The builder calls for that command line: the option is added first. */
  lemma LateOptionBuild()
    ensures ForCommand("cmd").WithOption("--o", Some("v"), None, None, Some(AfterArguments))
              .WithArgument(Some("file")).Build() == LateOption
  {
  }

  /** An option placed after the arguments renders after them, whatever
      order it was added in. */
  lemma PlacementAfterArguments()
    ensures LateOption.Array() == ["cmd", "file", "--o", "v"]
  {
    var cl := LateOption;
    assert OptionsAt([Late], AfterCommand) == [] && OptionsAt([Late], AfterSubcommands) == [];
    assert OptionsAt([Late], AfterArguments) == [Late];
    ArrayLayout(cl);
    assert cl.SubcommandTokens() == [];
    assert cl.ArgumentTokens() == ["file"];
    assert cl.OptionTokens(AfterArguments) == ["--o", "v"];
  }
}
