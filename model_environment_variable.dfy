/** An environment variable assignment `NAME="value"`
    (lib/lino/model/environment_variable.rb). The quoting is one character,
    `"` unless given. */
module ModelEnvironmentVariable {
  import opened Wrappers

  const DefaultQuoting: char := '"'

  /** The value with a backslash inserted before every occurrence of `q`. */
  function Escape(value: string, q: char): (r: string)
    ensures |r| >= |value|
    ensures q !in value ==> r == value
    ensures value != [] && value[0] == q ==> |r| >= 2 && r[0] == '\\' && r[1] == q
    ensures value != [] && value[0] != q ==> r[0] == value[0]
  {
    if value == [] then []
    else (if value[0] == q then ['\\', q] else [value[0]]) + Escape(value[1..], q)
  }

  /** The inverse of `Escape`: a backslash directly before `q` is dropped. */
  function Unescape(s: string, q: char): string
  {
    if s == [] then []
    else if |s| >= 2 && s[0] == '\\' && s[1] == q then [q] + Unescape(s[2..], q)
    else [s[0]] + Unescape(s[1..], q)
  }

  datatype EnvironmentVariable = EnvironmentVariable(name: string, value: string, quoting: char)
  {
    /** The escaped value wrapped in the quoting character. */
    function QuotedValue(): (r: string)
      ensures |r| >= 2 && r[0] == quoting && r[|r| - 1] == quoting
      ensures r[1..|r| - 1] == Escape(value, quoting)
      ensures quoting !in value ==> r == [quoting] + value + [quoting]
    {
      [quoting] + Escape(value, quoting) + [quoting]
    }

    /** The display form `NAME=<quoted value>`. */
    function String(): (r: string)
      ensures |r| == |name| + 1 + |QuotedValue()|
      ensures r[..|name| + 1] == name + "="
      ensures r[|name| + 1..] == QuotedValue()
    {
      name + "=" + QuotedValue()
    }

    /** The raw pair used for the process environment: quoting never applies. */
    function Array(): (r: seq<string>)
      ensures |r| == 2 && r[0] == name && r[1] == value
    {
      [name, value]
    }
  }

  /** `EnvironmentVariable.new(name, value, quoting:)`: an absent quoting
      becomes the double quote. */
  function NewEnvironmentVariable(name: string, value: string, quoting: Maybe<char>): (e: EnvironmentVariable)
    ensures e.name == name && e.value == value
    ensures quoting.Some? ==> e.quoting == quoting.value
    ensures quoting.None? ==> e.quoting == DefaultQuoting
  {
    EnvironmentVariable(name, value, Or(quoting, DefaultQuoting))
  }

  /** Escaping loses nothing: removing the inserted backslashes gives the
      value back, for every quoting character. */
  lemma {:induction false} EscapeRoundTrip(value: string, q: char)
    ensures Unescape(Escape(value, q), q) == value
  {
    if value != [] {
      var rest := Escape(value[1..], q);
      EscapeRoundTrip(value[1..], q);
      if value[0] == q {
        assert (['\\', q] + rest)[2..] == rest;
      } else {
        assert ([value[0]] + rest)[1..] == rest;
        if value[0] == '\\' && rest != [] {
          assert rest[0] != q by {
            if value[1] == q {
              assert rest[0] == '\\';
            }
          }
        }
      }
    }
  }

  /** Every quoting character in the escaped value is preceded by a backslash
      (for any quoting character other than the backslash itself). */
  lemma {:induction false} EscapedQuotesArePreceded(value: string, q: char)
    requires q != '\\'
    ensures forall i :: 0 <= i < |Escape(value, q)| && Escape(value, q)[i] == q ==>
              i > 0 && Escape(value, q)[i - 1] == '\\'
  {
    if value != [] {
      EscapedQuotesArePreceded(value[1..], q);
      var rest := Escape(value[1..], q);
      var head: string := if value[0] == q then ['\\', q] else [value[0]];
      assert Escape(value, q) == head + rest;
      if rest != [] {
        assert rest[0] != q by {
          if value[1] == q { assert rest[0] == '\\'; }
        }
      }
      forall i | 0 <= i < |head + rest| && (head + rest)[i] == q
        ensures i > 0 && (head + rest)[i - 1] == '\\'
      {
        if i >= |head| {
          assert rest[i - |head|] == q;
        }
      }
    }
  }

  /** The argv form and the environment pair never depend on the quoting. */
  lemma ArrayIgnoresQuoting(e: EnvironmentVariable, q: char)
    ensures e.(quoting := q).Array() == e.Array()
  {
  }

  // The code as written: `value.gsub(quoting, "\\#{quoting}")`. Ruby reads
  // the replacement string as a template, so a backslash followed by a
  // template character does not produce a literal backslash-quote.

  /** What the replacement template `\<q>` expands to for one match, given
      the text before and after the match. */
  function Replacement(q: char, preMatch: string, postMatch: string): (r: string)
    ensures OrdinaryQuote(q) ==> r == ['\\', q]
    ensures q == '\'' ==> r == postMatch
  {
    if q == '\'' then postMatch
    else if q == '`' then preMatch
    else if q == '&' || q == '0' then [q]
    else if ('1' <= q <= '9') || q == '+' then ""
    else if q == '\\' then "\\"
    else ['\\', q]
  }

  /** A quoting character that the replacement template does not interpret. */
  predicate OrdinaryQuote(q: char)
  {
    q != '\'' && q != '`' && q != '&' && q != '0' && !('1' <= q <= '9') && q != '+' && q != '\\'
  }

  /** Ruby `gsub` of the one-character string `q` with template `\<q>`,
      from position `i` of `value` to its end. */
  function GsubAt(value: string, q: char, i: nat): string
    requires i <= |value|
    decreases |value| - i
  {
    if i == |value| then []
    else (if value[i] == q then Replacement(q, value[..i], value[i + 1..]) else [value[i]])
         + GsubAt(value, q, i + 1)
  }

  /** `quoted_value` as the source computes it. */
  function QuotedValueAsWritten(e: EnvironmentVariable): string
  {
    [e.quoting] + GsubAt(e.value, e.quoting, 0) + [e.quoting]
  }

  /** For every quoting character the template does not interpret, the
      source's computation is exactly the intended escaping. */
  lemma {:induction false} GsubAgreesWithEscape(value: string, q: char, i: nat)
    requires OrdinaryQuote(q) && i <= |value|
    ensures GsubAt(value, q, i) == Escape(value[i..], q)
    decreases |value| - i
  {
    if i < |value| {
      GsubAgreesWithEscape(value, q, i + 1);
      assert value[i..][1..] == value[i + 1..];
    }
  }

  /** In particular the default double quote is escaped as intended. */
  lemma AsWrittenAgreesForOrdinaryQuotes(e: EnvironmentVariable)
    requires OrdinaryQuote(e.quoting)
    ensures QuotedValueAsWritten(e) == e.QuotedValue()
  {
    GsubAgreesWithEscape(e.value, e.quoting, 0);
    assert e.value[0..] == e.value;
  }

  /** With single-quote quoting, the source substitutes the text after each
      quote for the quote: `it's` renders as `'itss'` instead of `'it\'s'`. */
  lemma ApostropheQuotingLosesQuote()
    ensures QuotedValueAsWritten(EnvironmentVariable("X", "it's", '\'')) == "'itss'"
    ensures EnvironmentVariable("X", "it's", '\'').QuotedValue() == "'it\\'s'"
  {
    var e := EnvironmentVariable("X", "it's", '\'');
    calc {
      QuotedValueAsWritten(e);
      ['\''] + GsubAt("it's", '\'', 0) + ['\''];
    == { ApostropheAsWritten(); }
      ['\''] + "itss" + ['\''];
    == { assert ['\''] + "itss" + ['\''] == "'itss'"; }
      "'itss'";
    }
    calc {
      e.QuotedValue();
      ['\''] + Escape("it's", '\'') + ['\''];
    == { ApostropheEscaped(); }
      ['\''] + "it\\'s" + ['\''];
    == { assert ['\''] + "it\\'s" + ['\''] == "'it\\'s'"; }
      "'it\\'s'";
    }
  }

  /** The source's gsub on `it's` with quote `'`, one match position at a
      time. */
  lemma ApostropheAsWritten()
    ensures GsubAt("it's", '\'', 0) == "itss"
  {
    var v := "it's";
    assert v[..2] == "it" && v[3..] == "s";
    assert GsubAt(v, '\'', 3) == "s";
    assert GsubAt(v, '\'', 2) == "ss";
    assert GsubAt(v, '\'', 1) == "tss";
  }

  /** The intended escaping of `it's` with quote `'`. */
  lemma ApostropheEscaped()
    ensures Escape("it's", '\'') == "it\\'s"
  {
    var v := "it's";
    assert v[1..] == "t's" && v[1..][1..] == "'s" && v[1..][1..][1..] == "s";
  }
}
