/** The options mixin shared by both builders
    (lib/lino/builders/mixins/options.rb). The builder keeps the options it
    is given as descriptors, each with its own optional overrides; the
    builder-wide defaults are applied only when the builder builds. */
module BuilderOptions {
  import opened Wrappers
  import opened Validation
  import opened ModelOption
  import opened ModelFlag
  import opened ModelOptions

  /** One entry of the builder's options vector: an option with its own
      (possibly absent) separator, quoting and placement, or a bare flag. */
  datatype Descriptor =
    | OptionDescriptor(option: string, value: string, separator: Maybe<string>,
                       quoting: Maybe<string>, placement: Maybe<Placement>)
    | FlagDescriptor(flag: string)

  /** One entry handed to `with_options`: name, possibly absent value and
      the three possibly absent overrides. */
  datatype OptionEntry = OptionEntry(option: string, value: Maybe<string>, separator: Maybe<string>,
                                     quoting: Maybe<string>, placement: Maybe<Placement>)

  /** `with_option` on the options vector: an absent value leaves the vector
      as it is, any other value appends exactly one descriptor at the end. */
  function AddOption(opts: seq<Descriptor>, option: string, value: Maybe<string>, separator: Maybe<string>,
                     quoting: Maybe<string>, placement: Maybe<Placement>): (r: seq<Descriptor>)
    ensures IsAbsent(value) <==> r == opts
    ensures !IsAbsent(value) ==> |r| == |opts| + 1 && r[..|opts|] == opts
    ensures !IsAbsent(value) ==> r[|opts|] == OptionDescriptor(option, value.value, separator, quoting, placement)
  {
    if IsAbsent(value) then opts
    else opts + [OptionDescriptor(option, value.value, separator, quoting, placement)]
  }

  /** The descriptors a list of entries stands for: one per entry whose
      value is present, in list order. */
  function EntryDescriptors(entries: seq<OptionEntry>): (r: seq<Descriptor>)
    ensures |r| <= |entries|
  {
    if entries == [] then []
    else Describe(entries[0]) + EntryDescriptors(entries[1..])
  }

  /** Every descriptor `with_options` keeps is an option with a present
      value, and every entry with a present value is kept. */
  lemma {:induction false} EntryDescriptorsPresent(entries: seq<OptionEntry>)
    ensures forall d :: d in EntryDescriptors(entries) ==> d.OptionDescriptor? && d.value != ""
    ensures |EntryDescriptors(entries)| == |entries| <==> forall i :: 0 <= i < |entries| ==> !IsAbsent(entries[i].value)
  {
    if entries != [] {
      EntryDescriptorsPresent(entries[1..]);
      if IsAbsent(entries[0].value) {
        assert |EntryDescriptors(entries)| < |entries|;
      } else {
        assert (forall i :: 0 <= i < |entries| ==> !IsAbsent(entries[i].value))
           <==> (forall i :: 0 <= i < |entries[1..]| ==> !IsAbsent(entries[1..][i].value));
      }
    }
  }

  /** The descriptor of one entry, or none when its value is absent. */
  function Describe(e: OptionEntry): (r: seq<Descriptor>)
    ensures IsAbsent(e.value) <==> r == []
    ensures |r| <= 1
  {
    if IsAbsent(e.value) then [] else [OptionDescriptor(e.option, e.value.value, e.separator, e.quoting, e.placement)]
  }

  /** The `inject` of `with_option` over the entries. */
  function FoldOptions(opts: seq<Descriptor>, entries: seq<OptionEntry>): (r: seq<Descriptor>)
    ensures r == opts + EntryDescriptors(entries)
    decreases entries
  {
    if entries == [] then opts
    else
      var e := entries[0];
      FoldOptionsStep(opts, entries);
      FoldOptions(AddOption(opts, e.option, e.value, e.separator, e.quoting, e.placement), entries[1..])
  }

  /** One step of the fold: `with_option` of the first entry, then the
      descriptors of the rest, gives the descriptors of all entries. */
  lemma FoldOptionsStep(opts: seq<Descriptor>, entries: seq<OptionEntry>)
    requires entries != []
    ensures var e := entries[0];
            (AddOption(opts, e.option, e.value, e.separator, e.quoting, e.placement) + EntryDescriptors(entries[1..])
             == opts + EntryDescriptors(entries))
  {
    var e := entries[0];
    var rest := EntryDescriptors(entries[1..]);
    calc {
      AddOption(opts, e.option, e.value, e.separator, e.quoting, e.placement) + rest;
    == { AddOptionDescribes(opts, e); }
      opts + Describe(e) + rest;
    == { AppendAssociates(opts, Describe(e), rest); }
      opts + (Describe(e) + rest);
    == { EntryDescriptorsPeel(entries); }
      opts + EntryDescriptors(entries);
    }
  }

  /** `with_option` of an entry appends the entry's descriptors. */
  lemma AddOptionDescribes(opts: seq<Descriptor>, e: OptionEntry)
    ensures AddOption(opts, e.option, e.value, e.separator, e.quoting, e.placement) == opts + Describe(e)
  {
  }

  lemma EntryDescriptorsPeel(entries: seq<OptionEntry>)
    requires entries != []
    ensures EntryDescriptors(entries) == Describe(entries[0]) + EntryDescriptors(entries[1..])
  {
  }

  lemma AppendAssociates(a: seq<Descriptor>, b: seq<Descriptor>, c: seq<Descriptor>)
    ensures a + b + c == a + (b + c)
  {
  }

  /** `with_options`: a nil or empty collection leaves the vector as it is;
      otherwise the present entries are appended in order. */
  function WithOptions(opts: seq<Descriptor>, entries: Maybe<seq<OptionEntry>>): (r: seq<Descriptor>)
    ensures r == opts + EntryDescriptors(Or(entries, []))
  {
    if IsNilOrEmpty(OfList(entries)) then opts
    else FoldOptions(opts, entries.value)
  }

  /** `with_options` of a one-entry list is `with_option` of that entry. */
  lemma WithOptionsOfOne(opts: seq<Descriptor>, e: OptionEntry)
    ensures WithOptions(opts, Some([e])) == AddOption(opts, e.option, e.value, e.separator, e.quoting, e.placement)
  {
    assert [e][1..] == [];
  }

  /** The descriptors of one option name repeated with each value, sharing
      the same overrides. */
  function RepeatedDescriptors(option: string, values: seq<string>, separator: Maybe<string>,
                               quoting: Maybe<string>, placement: Maybe<Placement>): (r: seq<Descriptor>)
    ensures |r| == |values|
    ensures forall i :: 0 <= i < |values| ==> r[i] == OptionDescriptor(option, values[i], separator, quoting, placement)
  {
    if values == [] then []
    else [OptionDescriptor(option, values[0], separator, quoting, placement)]
         + RepeatedDescriptors(option, values[1..], separator, quoting, placement)
  }

  /** `with_repeated_option`: `with_option` folded over the values with the
      same name and overrides; there is no guard on the list itself. */
  function WithRepeatedOption(opts: seq<Descriptor>, option: string, values: seq<Maybe<string>>,
                              separator: Maybe<string>, quoting: Maybe<string>,
                              placement: Maybe<Placement>): (r: seq<Descriptor>)
    ensures r == opts + RepeatedDescriptors(option, Present(values), separator, quoting, placement)
    decreases values
  {
    if values == [] then opts
    else WithRepeatedOption(AddOption(opts, option, values[0], separator, quoting, placement),
                            option, values[1..], separator, quoting, placement)
  }

  /** `with_flag`: an absent flag leaves the vector as it is, any other flag
      appends exactly one flag descriptor at the end. */
  function AddFlag(opts: seq<Descriptor>, flag: Maybe<string>): (r: seq<Descriptor>)
    ensures IsAbsent(flag) <==> r == opts
    ensures !IsAbsent(flag) ==> |r| == |opts| + 1 && r[..|opts|] == opts && r[|opts|] == FlagDescriptor(flag.value)
  {
    if IsAbsent(flag) then opts else opts + [FlagDescriptor(flag.value)]
  }

  /** One flag descriptor per flag, in order. */
  function FlagDescriptors(flags: seq<string>): (r: seq<Descriptor>)
    ensures |r| == |flags|
    ensures forall i :: 0 <= i < |flags| ==> r[i] == FlagDescriptor(flags[i])
  {
    if flags == [] then [] else [FlagDescriptor(flags[0])] + FlagDescriptors(flags[1..])
  }

  /** The `inject` of `with_flag` over the flags. */
  function FoldFlags(opts: seq<Descriptor>, flags: seq<Maybe<string>>): (r: seq<Descriptor>)
    ensures r == opts + FlagDescriptors(Present(flags))
    decreases flags
  {
    if flags == [] then opts else FoldFlags(AddFlag(opts, flags[0]), flags[1..])
  }

  /** `with_flags`: a nil or empty collection leaves the vector as it is;
      otherwise the present flags are appended in order. */
  function WithFlags(opts: seq<Descriptor>, flags: Maybe<seq<Maybe<string>>>): (r: seq<Descriptor>)
    ensures r == opts + FlagDescriptors(Present(Or(flags, [])))
  {
    if IsNilOrEmpty(OfList(flags)) then opts else FoldFlags(opts, flags.value)
  }

  /** One descriptor turned into a model entry against the builder defaults:
      the descriptor's own separator, quoting and placement win when present,
      the defaults fill the rest; a flag takes only the default placement. */
  function Resolve(d: Descriptor, separator: string, quoting: Maybe<string>, placement: Placement): (r: OptionOrFlag)
    ensures d.OptionDescriptor? <==> r.OptionItem?
    ensures d.OptionDescriptor? ==> r.option.option == d.option && r.option.value == d.value
    ensures d.OptionDescriptor? && d.separator.Some? ==> r.option.separator == d.separator.value
    ensures d.OptionDescriptor? && d.separator.None? ==> r.option.separator == separator
    ensures d.OptionDescriptor? && d.quoting.Some? ==> r.option.quoting == d.quoting
    ensures d.OptionDescriptor? && d.quoting.None? ==> r.option.quoting == quoting
    ensures d.OptionDescriptor? && d.placement.Some? ==> r.option.placement == d.placement.value
    ensures d.OptionDescriptor? && d.placement.None? ==> r.option.placement == placement
    ensures d.FlagDescriptor? ==> r.flag == Flag(d.flag, placement)
  {
    match d
    case OptionDescriptor(o, v, s, q, p) =>
      OptionItem(NewOption(o, v, Some(Or(s, separator)), OrElse(q, quoting), Some(Or(p, placement))))
    case FlagDescriptor(f) => FlagItem(NewFlag(f, Some(placement)))
  }

  /** `build_options`: every descriptor resolved against the defaults, count
      and order kept. */
  function BuildOptions(opts: seq<Descriptor>, separator: string, quoting: Maybe<string>,
                        placement: Placement): (r: seq<OptionOrFlag>)
    ensures |r| == |opts|
    ensures forall i :: 0 <= i < |opts| ==> r[i] == Resolve(opts[i], separator, quoting, placement)
  {
    if opts == [] then []
    else [Resolve(opts[0], separator, quoting, placement)] + BuildOptions(opts[1..], separator, quoting, placement)
  }

  /** Building distributes over appending descriptors. */
  lemma BuildOptionsAppend(a: seq<Descriptor>, b: seq<Descriptor>, separator: string,
                           quoting: Maybe<string>, placement: Placement)
    ensures BuildOptions(a + b, separator, quoting, placement)
         == BuildOptions(a, separator, quoting, placement) + BuildOptions(b, separator, quoting, placement)
  {
    var l := BuildOptions(a + b, separator, quoting, placement);
    var r := BuildOptions(a, separator, quoting, placement) + BuildOptions(b, separator, quoting, placement);
    assert |l| == |r|;
    forall i | 0 <= i < |l| ensures l[i] == r[i]
    {
      if i < |a| {
        assert (a + b)[i] == a[i];
      } else {
        assert (a + b)[i] == b[i - |a|];
      }
    }
  }

  /** After `with_option` with a present value the built list is the old
      one plus the new option, its own overrides beating the defaults. */
  lemma BuildAfterAddOption(opts: seq<Descriptor>, option: string, value: string, separator: Maybe<string>,
                            quoting: Maybe<string>, placement: Maybe<Placement>,
                            defaultSeparator: string, defaultQuoting: Maybe<string>, defaultPlacement: Placement)
    requires value != ""
    ensures BuildOptions(AddOption(opts, option, Some(value), separator, quoting, placement),
                         defaultSeparator, defaultQuoting, defaultPlacement)
         == BuildOptions(opts, defaultSeparator, defaultQuoting, defaultPlacement)
            + [OptionItem(Option(option, value, Or(separator, defaultSeparator), OrElse(quoting, defaultQuoting),
                                 Or(placement, defaultPlacement)))]
  {
    BuildOptionsAppend(opts, [OptionDescriptor(option, value, separator, quoting, placement)],
                       defaultSeparator, defaultQuoting, defaultPlacement);
  }

  /** Built flags carry no quoting: only option descriptors can bring one. */
  lemma BuiltFlagsUnquoted(opts: seq<Descriptor>, separator: string, quoting: Maybe<string>, placement: Placement)
    requires quoting.None?
    requires forall d :: d in opts && d.OptionDescriptor? ==> d.quoting.None?
    ensures forall o :: o in BuildOptions(opts, separator, quoting, placement) ==> o.Unquoted()
  {
    var r := BuildOptions(opts, separator, quoting, placement);
    forall o | o in r ensures o.Unquoted()
    {
      var i :| 0 <= i < |r| && r[i] == o;
      assert opts[i] in opts;
    }
  }
}
