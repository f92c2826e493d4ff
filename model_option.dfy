/** An option with a value: `--name<separator><quoting>value<quoting>`
    (lib/lino/model/option.rb). */
module ModelOption {
  import opened Wrappers
  import Text

  /** The three anchors at which a command-level option or flag can render. */
  datatype Placement = AfterCommand | AfterSubcommands | AfterArguments

  /** The separator that splits an option into two argv tokens. */
  const Space: string := " "

  datatype Option = Option(
    option: string,
    value: string,
    separator: string,
    quoting: Maybe<string>,
    placement: Placement)
  {
    /** Ruby's `"#{quoting}"`: nil interpolates as the empty string. */
    function QuoteText(): (q: string)
      ensures quoting.None? ==> q == ""
      ensures quoting.Some? ==> q == quoting.value
    {
      Or(quoting, "")
    }

    /** The value wrapped in the quoting text, verbatim: quote characters
        inside the value are not escaped. */
    function QuotedValue(): (r: string)
      ensures |r| == |value| + 2 * |QuoteText()|
      ensures r[..|QuoteText()|] == QuoteText()
      ensures r[|QuoteText()|..|QuoteText()| + |value|] == value
      ensures r[|QuoteText()| + |value|..] == QuoteText()
    {
      QuoteText() + value + QuoteText()
    }

    /** The display form: name, separator and quoted value run together. */
    function String(): (r: string)
      ensures |r| == |option| + |separator| + |QuotedValue()|
      ensures r[..|option| + |separator|] == option + separator
      ensures r[|option| + |separator|..] == QuotedValue()
      ensures quoting.None? ==> r == Text.Join(Array())
    {
      option + separator + QuotedValue()
    }

    /** The argv form: two tokens when the separator is a single space,
        otherwise one token; quoting never appears, and a space inside the
        value never splits it. */
    function Array(): (r: seq<string>)
      ensures |r| == (if separator == Space then 2 else 1)
      ensures Text.Join(r) == option + separator + value
      ensures |r[0]| >= |option| && r[0][..|option|] == option
      ensures separator == Space ==> r[0] == option && r[1] == value
      ensures separator != Space ==> r[0] == option + separator + value
    {
      if separator == Space then [option, value]
      else [option + separator + value]
    }
  }

  /** `Option.new(option, value, separator:, quoting:, placement:)`: an absent
      separator becomes a single space, an absent placement AfterCommand, and
      an absent quoting stays absent. */
  function NewOption(option: string, value: string, separator: Maybe<string>,
                     quoting: Maybe<string>, placement: Maybe<Placement>): (o: Option)
    ensures o.option == option && o.value == value && o.quoting == quoting
    ensures separator.Some? ==> o.separator == separator.value
    ensures separator.None? ==> o.separator == Space
    ensures placement.Some? ==> o.placement == placement.value
    ensures placement.None? ==> o.placement == AfterCommand
  {
    Option(option, value, Or(separator, Space), quoting, Or(placement, AfterCommand))
  }

  /** With every default, an option renders as `name value` and splits into
      the two tokens name and value. */
  lemma DefaultRendering(option: string, value: string)
    ensures NewOption(option, value, None, None, None).String() == option + " " + value
    ensures NewOption(option, value, None, None, None).Array() == [option, value]
    ensures NewOption(option, value, None, None, None).placement == AfterCommand
  {
  }

  /** Quoting changes the display form only: the argv form is the same
      whatever the quoting. */
  lemma ArrayIgnoresQuoting(o: Option, quoting: Maybe<string>)
    ensures o.(quoting := quoting).Array() == o.Array()
  {
  }

  /** Quoting wraps the value and nothing else: with quoting text q the
      display form is the unquoted one with q inserted on both sides of the
      value. */
  lemma QuotingWrapsValue(o: Option, q: string)
    ensures o.(quoting := Some(q)).String() == o.option + o.separator + q + o.value + q
    ensures o.(quoting := None).String() == o.option + o.separator + o.value
  {
  }
}
