/** A bare switch such as `-v` (lib/lino/model/flag.rb). */
module ModelFlag {
  import opened Wrappers
  import Text
  import opened ModelOption

  datatype Flag = Flag(flag: string, placement: Placement)
  {
    /** The display form is the flag text itself. */
    function String(): (r: string)
      ensures r == Text.Join(Array())
    {
      flag
    }

    /** The argv form is the single token holding the flag text. */
    function Array(): (r: seq<string>)
      ensures |r| == 1 && r[0] == flag
    {
      [flag]
    }
  }

  /** `Flag.new(flag, placement:)`: an absent placement becomes AfterCommand. */
  function NewFlag(flag: string, placement: Maybe<Placement>): (f: Flag)
    ensures f.flag == flag
    ensures placement.Some? ==> f.placement == placement.value
    ensures placement.None? ==> f.placement == AfterCommand
  {
    Flag(flag, Or(placement, AfterCommand))
  }
}
