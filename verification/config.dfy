/** `Settings.assemble_cors_origins`: the allowed CORS origins given either
    as a list or as one comma-separated string. */
module Config {
  import opened Common

  /** The raw setting before validation; any value that is neither a
      string nor a list is kept as its text `str(v)`. */
  datatype RawSetting = Text(s: string) | List(items: seq<string>) | Other(text: string)

  /** `s.split(c)`: the pieces between occurrences of c, in order. */
  function Split(s: string, c: char): (parts: seq<string>)
    ensures |parts| == CountChar(s, c) + 1
    ensures forall i :: 0 <= i < |parts| ==> c !in parts[i]
  {
    if s == [] then [""]
    else
      var rest := Split(s[1..], c);
      if s[0] == c then [""] + rest
      else [[s[0]] + rest[0]] + rest[1..]
  }

  /** Joining the pieces with the separator gives the text back. */
  lemma {:induction false} SplitJoin(s: string, c: char)
    ensures Join(Split(s, c), [c]) == s
  {
    if s != [] {
      SplitJoin(s[1..], c);
      var rest := Split(s[1..], c);
      if s[0] == c {
        assert Split(s, c) == [""] + rest;
      } else {
        var parts := [[s[0]] + rest[0]] + rest[1..];
        assert Split(s, c) == parts;
        if |rest| == 1 {
          assert Join(rest, [c]) == rest[0];
        } else {
          assert Join(rest, [c]) == rest[0] + [c] + Join(rest[1..], [c]);
          assert parts[1..] == rest[1..];
        }
      }
    }
  }

  /** Every piece stripped of surrounding whitespace, in order. */
  function StripEach(pieces: seq<string>): (r: seq<string>)
    ensures |r| == |pieces|
    ensures forall i :: 0 <= i < |r| ==> r[i] == Strip(pieces[i])
  {
    seq(|pieces|, i requires 0 <= i < |pieces| => Strip(pieces[i]))
  }

  /** The validated setting: a string not starting with "[" becomes the
      list of its comma-separated pieces, each stripped of surrounding
      whitespace; a list, or a string starting with "[", is passed on
      unchanged; any other value is rejected with `ValueError(v)`, whose
      text is that of the value. */
  function AssembleCorsOrigins(v: RawSetting): (r: Result<RawSetting>)
    ensures v.Other? <==> r.Err?
    ensures v.Other? ==> r == Err(v.text)
    ensures v.List? ==> r == Ok(v)
    ensures v.Text? && StartsWith(v.s, "[") ==> r == Ok(v)
  {
    match v
    case Text(s) =>
      if !StartsWith(s, "[") then
        Ok(List(StripEach(Split(s, ','))))
      else Ok(v)
    case List(_) => Ok(v)
    case Other(text) => Err(text)
  }

  /** A comma-separated string yields one origin per comma plus one (so the
      empty string yields one empty origin), each the stripped text between
      the commas. */
  lemma CommaSeparatedOrigins(s: string)
    requires !StartsWith(s, "[")
    ensures var r := AssembleCorsOrigins(Text(s));
      r.Ok? && r.value.List? &&
      |r.value.items| == CountChar(s, ',') + 1 &&
      forall i :: 0 <= i < |r.value.items| ==> r.value.items[i] == Strip(Split(s, ',')[i])
  {
  }

  /** Two origins separated by a comma and padding come out trimmed. */
  lemma TwoOrigins(a: string, b: string)
    requires ',' !in a && ',' !in b && !StartsWith(a, "[")
    requires Strip(a) == a && Strip(b) == b
    ensures AssembleCorsOrigins(Text(a + ", " + b)) == Ok(List([a, b]))
  {
    TwoPieces(a, b);
    NoBracketBefore(a, b);
    TextOrigins(a + ", " + b, [a, b]);
  }

  lemma TwoPieces(a: string, b: string)
    requires ',' !in a && ',' !in b
    requires Strip(b) == b
    ensures StripEach(Split(a + ", " + b, ',')) == [Strip(a), b]
  {
    calc {
      StripEach(Split(a + ", " + b, ','));
      { SplitTwo(a, b); }
      StripEach([a, " " + b]);
      { StripEachTwo(a, " " + b); }
      [Strip(a), Strip(" " + b)];
      { StripLeadingSpace(b); }
      [Strip(a), b];
    }
  }

  lemma StripEachTwo(x: string, y: string)
    ensures StripEach([x, y]) == [Strip(x), Strip(y)]
  {
    var r := StripEach([x, y]);
    assert |r| == 2 && r[0] == Strip(x) && r[1] == Strip(y);
  }

  lemma NoBracketBefore(a: string, b: string)
    requires !StartsWith(a, "[")
    ensures !StartsWith(a + ", " + b, "[")
  {
    var s := a + ", " + b;
    assert a != [] ==> s[0] == a[0];
    assert a == [] ==> s[0] == ',';
  }

  lemma TextOrigins(s: string, origins: seq<string>)
    requires !StartsWith(s, "[") && StripEach(Split(s, ',')) == origins
    ensures AssembleCorsOrigins(Text(s)) == Ok(List(origins))
  {
  }

  lemma SplitTwo(a: string, b: string)
    requires ',' !in a && ',' !in b
    ensures Split(a + ", " + b, ',') == [a, " " + b]
  {
    assert a + ", " + b == a + [','] + (" " + b);
    SplitAround(a, " " + b, ',');
    NoSeparator(" " + b, ',');
  }

  lemma {:induction false} SplitAround(a: string, b: string, c: char)
    requires c !in a
    ensures Split(a + [c] + b, c) == [a] + Split(b, c)
  {
    if a == [] {
      assert a + [c] + b == [c] + b;
      assert ([c] + b)[1..] == b;
    } else {
      assert (a + [c] + b)[1..] == a[1..] + [c] + b;
      SplitAround(a[1..], b, c);
      assert [a[0]] + a[1..] == a;
    }
  }

  lemma {:induction false} NoSeparator(s: string, c: char)
    requires c !in s
    ensures Split(s, c) == [s]
  {
    if s != [] {
      NoSeparator(s[1..], c);
      assert [s[0]] + s[1..] == s;
    }
  }

  lemma StripLeadingSpace(b: string)
    requires Strip(b) == b
    ensures Strip(" " + b) == b
  {
    var s := " " + b;
    assert |Strip(b)| <= |TrimStart(b)| == |b| - LeadingSpaces(b);
    assert s[1..] == b;
    assert LeadingSpaces(s) == 1 + LeadingSpaces(b);
    assert TrimStart(s) == b == TrimStart(b);
  }
}
