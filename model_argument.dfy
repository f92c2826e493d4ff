/** A positional argument (lib/lino/model/argument.rb). The source accepts
    any object and renders it with `to_s`; the model holds that string. */
module ModelArgument {
  import Text

  datatype Argument = Argument(argument: string)
  {
    /** The display form is the argument text. */
    function String(): (r: string)
      ensures r == Text.Join(Array())
    {
      argument
    }

    /** The argv form is the single token holding the argument text. */
    function Array(): (r: seq<string>)
      ensures |r| == 1 && r[0] == argument
    {
      [argument]
    }
  }
}
