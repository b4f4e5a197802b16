/** The `key=value` configuration reader of the log_helper/ draft (`read_configuration_file` and its
    `split`, `ltrim` and `rtrim` helpers), and the map subscript the sessions use to look values up. */
module ConfigFile {
  import opened Basics
  import opened Text

  type ConfigMap = map<string, string>

  datatype ConfigError =
    | CouldNotOpen(path: string)
      /** A non-comment line that does not split into at least two `=`-separated pieces. */
    | MalformedLine(line: string)

  /** Default path of the configuration file. */
  const ConfigFilePath: string := "/etc/radiation-benchmarks.conf"

  /** `ltrim`: drops leading whitespace, but returns a string made only of whitespace unchanged. */
  function LTrim(s: string): (r: string)
    ensures AllWhitespace(s) ==> r == s
    ensures !AllWhitespace(s) ==>
      |r| <= |s| && r == s[|s| - |r|..] && AllWhitespace(s[..|s| - |r|]) && !IsWhitespace(r[0])
  {
    var i := LeadingWhitespace(s);
    if i == |s| then s else s[i..]
  }

  /** `rtrim`: drops trailing whitespace, but returns a string made only of whitespace unchanged. */
  function RTrim(s: string): (r: string)
    ensures AllWhitespace(s) ==> r == s
    ensures !AllWhitespace(s) ==>
      |r| <= |s| && r == s[..|r|] && AllWhitespace(s[|r|..]) && r != [] && !IsWhitespace(r[|r| - 1])
  {
    var e := ContentEnd(s);
    if e == 0 then s else s[..e]
  }

  /** `ltrim` followed by `rtrim`, as the reader applies them to lines, keys and values. */
  function Trim(s: string): (r: string)
    ensures |r| <= |s| && (s != [] ==> r != [])
  {
    RTrim(LTrim(s))
  }

  /** Trimming either leaves a whitespace-only string alone or cuts out exactly the text between the
      first and the last non-whitespace characters. */
  lemma TrimCutsWhitespace(s: string)
    ensures AllWhitespace(s) ==> Trim(s) == s
    ensures !AllWhitespace(s) ==>
      (exists i, j :: 0 <= i < j <= |s| &&
        Trim(s) == s[i..j] && AllWhitespace(s[..i]) && AllWhitespace(s[j..]) &&
        !IsWhitespace(s[i]) && !IsWhitespace(s[j - 1]))
  {
    if !AllWhitespace(s) {
      var i, j := TrimBounds(s);
    }
  }

  /** The bounds of the text `Trim` keeps when there is some non-whitespace. */
  lemma TrimBounds(s: string) returns (i: nat, j: nat)
    requires !AllWhitespace(s)
    ensures i < j <= |s| && Trim(s) == s[i..j]
    ensures AllWhitespace(s[..i]) && AllWhitespace(s[j..])
    ensures !IsWhitespace(s[i]) && !IsWhitespace(s[j - 1])
  {
    var l := LTrim(s);
    i := |s| - |l|;
    assert !IsWhitespace(l[0]);
    var r := RTrim(l);
    j := i + |r|;
    assert s[i..] == l;
    assert l[..|r|] == r;
    assert s[i..j] == r;
    assert s[j..] == l[|r|..];
    assert s[i] == r[0] && s[j - 1] == r[|r| - 1];
  }

  /** Trimming twice is trimming once. */
  lemma TrimIdempotent(s: string)
    ensures Trim(Trim(s)) == Trim(s)
  {
    var t := Trim(s);
    if !AllWhitespace(s) {
      assert !AllWhitespace(LTrim(s)) by {
        assert !IsWhitespace(LTrim(s)[0]);
      }
      assert !AllWhitespace(t) by {
        assert !IsWhitespace(t[|t| - 1]);
      }
      assert LTrim(t) == t by {
        assert LeadingWhitespace(t) == 0;
      }
      assert RTrim(t) == t by {
        assert ContentEnd(t) == |t|;
      }
    }
  }

  /** The pieces that successive `std::getline(stream, piece, d)` calls deliver from a stream holding
      `s`, until the stream is exhausted. A trailing `d` does not start another piece. */
  function Tokens(s: string, d: char): (r: seq<string>)
    ensures s == [] <==> r == []
    decreases |s|
  {
    if s == [] then []
    else
      var i := IndexOf(s, d);
      if i == |s| then [s] else [s[..i]] + Tokens(s[i + 1..], d)
  }

  /** No piece holds the delimiter. */
  lemma {:induction false} TokensLackDelimiter(s: string, d: char)
    ensures forall k :: 0 <= k < |Tokens(s, d)| ==> d !in Tokens(s, d)[k]
    decreases |s|
  {
    if s != [] {
      var i := IndexOf(s, d);
      Text.IndexOfFirst(s, d);
      if i < |s| {
        TokensLackDelimiter(s[i + 1..], d);
        assert d !in s[..i];
      } else {
        assert d !in s;
      }
    }
  }

  /** Glues pieces back together with `d` between them. */
  function Join(pieces: seq<string>, d: char): string
  {
    if pieces == [] then [] else if |pieces| == 1 then pieces[0] else pieces[0] + [d] + Join(pieces[1..], d)
  }

  /** Joining the pieces gives back the text, minus a final delimiter if it had one. */
  lemma {:induction false} JoinTokens(s: string, d: char)
    ensures Join(Tokens(s, d), d) == if s != [] && s[|s| - 1] == d then s[..|s| - 1] else s
    decreases |s|
  {
    if s != [] {
      var i := IndexOf(s, d);
      Text.IndexOfFirst(s, d);
      if i == |s| {
        assert Tokens(s, d) == [s];
      } else {
        var rest := s[i + 1..];
        assert Tokens(s, d) == [s[..i]] + Tokens(rest, d);
        if rest == [] {
          assert Tokens(s, d) == [s[..i]];
        } else {
          JoinTokens(rest, d);
          JoinCons(s[..i], Tokens(rest, d), d);
          assert s[|s| - 1] == rest[|rest| - 1];
          JoinParts(s, i, d);
        }
      }
    }
  }

  /** Joining a piece in front of at least one more. */
  lemma JoinCons(p: string, pieces: seq<string>, d: char)
    requires pieces != []
    ensures Join([p] + pieces, d) == p + [d] + Join(pieces, d)
  {
    assert ([p] + pieces)[1..] == pieces;
  }

  /** Cutting `s` around the delimiter at `i`, with or without its last character. */
  lemma JoinParts(s: string, i: nat, d: char)
    requires i + 1 < |s| && s[i] == d
    ensures s == s[..i] + [d] + s[i + 1..]
    ensures s[..|s| - 1] == s[..i] + [d] + s[i + 1..][..|s| - i - 2]
  {
  }

  /** Splitting a join gives back the pieces, provided none holds the delimiter and the last one is
      not empty (an empty last piece is not delivered by `getline`). */
  lemma {:induction false} TokensOfJoin(pieces: seq<string>, d: char)
    requires forall k :: 0 <= k < |pieces| ==> d !in pieces[k]
    requires pieces != [] ==> pieces[|pieces| - 1] != []
    ensures Tokens(Join(pieces, d), d) == pieces
    decreases |pieces|
  {
    if |pieces| == 1 {
      Text.IndexOfIs(pieces[0], d, |pieces[0]|);
    } else if |pieces| > 1 {
      var p := pieces[0];
      var rest := Join(pieces[1..], d);
      var s := p + [d] + rest;
      assert IndexOf(s, d) == |p| by {
        assert s[|p|] == d;
        assert forall k :: 0 <= k < |p| ==> s[k] == p[k];
        Text.IndexOfIs(s, d, |p|);
      }
      assert s[..|p|] == p && s[|p| + 1..] == rest;
      TokensOfJoin(pieces[1..], d);
      JoinNonEmpty(pieces[1..], d);
    }
  }

  lemma {:induction false} JoinNonEmpty(pieces: seq<string>, d: char)
    requires pieces != [] && pieces[|pieces| - 1] != []
    ensures Join(pieces, d) != []
    decreases |pieces|
  {
    if |pieces| > 1 {
      JoinNonEmpty(pieces[1..], d);
    }
  }

  /** One `std::getline(stream, piece, d)` call on a stream whose unread text is `rest`: `None` when
      the stream is exhausted, otherwise the piece and the text left unread. */
  method Getline(rest: string, d: char) returns (r: Option<(string, string)>)
    ensures r.None? <==> rest == []
    ensures r.Some? ==> [r.value.0] + Tokens(r.value.1, d) == Tokens(rest, d) && |r.value.1| < |rest|
  {
    if rest == [] {
      return None;
    }
    var i := 0;
    while i < |rest| && rest[i] != d
      invariant 0 <= i <= |rest|
      invariant forall k :: 0 <= k < i ==> rest[k] != d
    {
      i := i + 1;
    }
    Text.IndexOfIs(rest, d, i);
    var remaining := if i < |rest| then rest[i + 1..] else [];
    assert i == |rest| ==> rest[..i] == rest;
    return Some((rest[..i], remaining));
  }

  /** The `split` helper: every piece `getline(..., '=')` delivers from the string, in order. */
  method Split(s: string) returns (tokens: seq<string>)
    ensures tokens == Tokens(s, '=')
  {
    tokens := [];
    var rest := s;
    var next := Getline(rest, '=');
    while next.Some?
      invariant tokens + Tokens(rest, '=') == Tokens(s, '=')
      invariant next.None? <==> rest == []
      invariant next.Some? ==> [next.value.0] + Tokens(next.value.1, '=') == Tokens(rest, '=') && |next.value.1| < |rest|
      decreases |rest|
    {
      tokens := tokens + [next.value.0];
      rest := next.value.1;
      next := Getline(rest, '=');
    }
  }

  /** What the reader makes of one line of the file. */
  datatype LineKind = Skip | Entry(key: string, value: string) | Malformed(line: string)

  /** Empty lines and lines whose very first character is `#` are skipped (the test comes before any
      trimming); otherwise the trimmed line is split on `=` and the first two pieces, trimmed, are
      the key and the value. */
  function ParseLine(line: string): (k: LineKind)
    ensures k == Skip <==> line == [] || line[0] == '#'
    ensures k.Malformed? ==> k.line == line
  {
    if line == [] || line[0] == '#' then Skip
    else
      var pieces := Tokens(Trim(line), '=');
      if |pieces| < 2 then Malformed(line) else Entry(Trim(pieces[0]), Trim(pieces[1]))
  }

  /** The key is the trimmed text before the first `=`, the value the trimmed text between the first
      and the second `=` (or the end); a line with nothing after its first `=` is malformed. */
  lemma LineFields(line: string)
    requires line != [] && line[0] != '#'
    ensures var t := Trim(line);
            var i := IndexOf(t, '=');
            if i + 1 >= |t| then ParseLine(line) == Malformed(line)
            else
              var u := t[i + 1..];
              ParseLine(line) == Entry(Trim(t[..i]), Trim(u[..IndexOf(u, '=')]))
  {
    var t := Trim(line);
    var pieces := Tokens(t, '=');
    assert ParseLine(line) == if |pieces| < 2 then Malformed(line) else Entry(Trim(pieces[0]), Trim(pieces[1]));
    FirstTwoPieces(t, '=');
  }

  /** The first two pieces of a non-empty text, located by the delimiter's first two occurrences. */
  lemma FirstTwoPieces(t: string, d: char)
    requires t != []
    ensures var i := IndexOf(t, d);
            if i + 1 >= |t| then |Tokens(t, d)| == 1
            else
              var u := t[i + 1..];
              |Tokens(t, d)| >= 2 && Tokens(t, d)[0] == t[..i] && Tokens(t, d)[1] == u[..IndexOf(u, d)]
  {
    var i := IndexOf(t, d);
    if i == |t| {
      TokensWhole(t, d);
    } else {
      TokensCons(t, d);
      var u := t[i + 1..];
      if u != [] {
        if IndexOf(u, d) == |u| {
          TokensWhole(u, d);
          assert u[..IndexOf(u, d)] == u;
        } else {
          TokensCons(u, d);
        }
      }
    }
  }

  lemma TrimNonEmpty(s: string)
    requires s != []
    ensures Trim(s) != []
  {
  }

  /** `Tokens` on a non-empty text without the delimiter: the text itself. */
  lemma TokensWhole(s: string, d: char)
    requires s != [] && IndexOf(s, d) == |s|
    ensures Tokens(s, d) == [s]
  {
  }

  /** `Tokens` on a text with the delimiter: the text before it, then the pieces after it. */
  lemma TokensCons(s: string, d: char)
    requires IndexOf(s, d) < |s|
    ensures Tokens(s, d) == [s[..IndexOf(s, d)]] + Tokens(s[IndexOf(s, d) + 1..], d)
  {
  }

  /** Every line of the file, classified. */
  function Classify(lines: seq<string>): (kinds: seq<LineKind>)
    ensures |kinds| == |lines|
    ensures forall i :: 0 <= i < |lines| ==> kinds[i] == ParseLine(lines[i])
  {
    seq(|lines|, i requires 0 <= i < |lines| => ParseLine(lines[i]))
  }

  lemma ClassifyStep(line: string, rest: seq<string>)
    ensures Classify([line] + rest) == [ParseLine(line)] + Classify(rest)
  {
  }

  /** Storing classified lines into a map that already holds `m`, first line first; a later entry
      overwrites an earlier one, the first malformed line aborts the read. */
  function Apply(m: ConfigMap, kinds: seq<LineKind>): (r: Result<ConfigMap, ConfigError>)
    ensures r.Failure? ==> r.error.MalformedLine?
    ensures kinds == [] ==> r == Success(m)
    decreases |kinds|
  {
    if kinds == [] then Success(m)
    else
      match kinds[0]
      case Skip => Apply(m, kinds[1..])
      case Entry(k, v) => Apply(m[k := v], kinds[1..])
      case Malformed(line) => Failure(MalformedLine(line))
  }

  /** The value the last entry for `k` gives it, if any entry sets `k`. */
  function LastValue(kinds: seq<LineKind>, k: string): Option<string>
    decreases |kinds|
  {
    if kinds == [] then None
    else
      var later := LastValue(kinds[1..], k);
      if later.Some? then later
      else if kinds[0].Entry? && kinds[0].key == k then Some(kinds[0].value)
      else None
  }

  /** The whole file: `None` stands for a file that cannot be opened. */
  function ParseConfiguration(file: Option<string>): (r: Result<ConfigMap, ConfigError>)
    ensures r == Failure(CouldNotOpen(ConfigFilePath)) <==> file.None?
    ensures file.Some? && r.Failure? ==> r.error.MalformedLine?
  {
    match file
    case None => Failure(CouldNotOpen(ConfigFilePath))
    case Some(text) => Apply(map[], Classify(Tokens(text, '\n')))
  }

  /** Reading succeeds exactly when no line is malformed. */
  lemma {:induction false} ApplySucceeds(m: ConfigMap, kinds: seq<LineKind>)
    ensures Apply(m, kinds).Success? <==> forall i :: 0 <= i < |kinds| ==> !kinds[i].Malformed?
    decreases |kinds|
  {
    if kinds != [] {
      match kinds[0]
      case Skip => ApplySucceeds(m, kinds[1..]);
      case Entry(k, v) => ApplySucceeds(m[k := v], kinds[1..]);
      case Malformed(_) =>
    }
  }

  /** After a successful read, each key holds the value of its last entry, and a key no entry sets
      keeps what it had (so, starting from the empty map, only keys of entry lines appear). */
  lemma {:induction false} ApplyLookup(m: ConfigMap, kinds: seq<LineKind>, k: string)
    requires Apply(m, kinds).Success?
    ensures var r := Apply(m, kinds).value;
            match LastValue(kinds, k)
            case Some(v) => k in r && r[k] == v
            case None => (k in r <==> k in m) && (k in m ==> r[k] == m[k])
    decreases |kinds|
  {
    if kinds != [] {
      match kinds[0]
      case Skip => ApplyLookup(m, kinds[1..], k);
      case Entry(k', v) => ApplyLookup(m[k' := v], kinds[1..], k);
      case Malformed(_) =>
    }
  }

  /** Skipped lines (empty or comment) can be dropped anywhere without changing the outcome. */
  lemma {:induction false} SkippedLineIgnored(m: ConfigMap, before: seq<LineKind>, after: seq<LineKind>)
    ensures Apply(m, before + [Skip] + after) == Apply(m, before + after)
    decreases |before|
  {
    if before == [] {
      assert before + [Skip] + after == [Skip] + after && ([Skip] + after)[1..] == after;
      assert before + after == after;
    } else {
      assert (before + [Skip] + after)[1..] == before[1..] + [Skip] + after;
      assert (before + after)[1..] == before[1..] + after;
      match before[0]
      case Skip => SkippedLineIgnored(m, before[1..], after);
      case Entry(k, v) => SkippedLineIgnored(m[k := v], before[1..], after);
      case Malformed(_) =>
    }
  }

  /** A key set in a later part of the file overrides whatever an earlier part set. */
  lemma {:induction false} LaterLinesWin(before: seq<LineKind>, after: seq<LineKind>, k: string)
    ensures LastValue(before + after, k) == if LastValue(after, k).Some? then LastValue(after, k) else LastValue(before, k)
    decreases |before|
  {
    if before != [] {
      assert (before + after)[1..] == before[1..] + after;
      LaterLinesWin(before[1..], after, k);
    } else {
      assert before + after == after;
    }
  }

  /** The reader: opens the file (or reports it cannot), then consumes it line by line, storing
      each entry in the map; a later line with the same key overwrites the value. */
  method ReadConfigurationFile(file: Option<string>) returns (r: Result<ConfigMap, ConfigError>)
    ensures r == ParseConfiguration(file)
  {
    if file.None? {
      return Failure(CouldNotOpen(ConfigFilePath));
    }
    var parameters: ConfigMap := map[];
    var rest := file.value;
    var next := Getline(rest, '\n');
    while next.Some?
      invariant Apply(parameters, Classify(Tokens(rest, '\n'))) == ParseConfiguration(file)
      invariant next.None? <==> rest == []
      invariant next.Some? ==> [next.value.0] + Tokens(next.value.1, '\n') == Tokens(rest, '\n') && |next.value.1| < |rest|
      decreases |rest|
    {
      var line := next.value.0;
      ghost var later := Classify(Tokens(next.value.1, '\n'));
      ClassifyStep(line, Tokens(next.value.1, '\n'));
      assert Classify(Tokens(rest, '\n')) == [ParseLine(line)] + later;
      if line != [] && line[0] != '#' {
        var trimmed := RTrim(LTrim(line));
        var splitLine := Split(trimmed);
        if |splitLine| < 2 {
          assert ParseLine(line) == Malformed(line);
          return Failure(MalformedLine(line));
        }
        var key := RTrim(LTrim(splitLine[0]));
        var value := RTrim(LTrim(splitLine[1]));
        assert ParseLine(line) == Entry(key, value);
        parameters := parameters[key := value];
      } else {
        assert ParseLine(line) == Skip;
      }
      rest := next.value.1;
      next := Getline(rest, '\n');
    }
    return Success(parameters);
  }

  /** `map[key]` on a C++ `unordered_map`: yields the stored value, first inserting an empty value
      when the key is absent. Returns the map afterwards and the value read. */
  function Subscript(m: ConfigMap, key: string): (r: (ConfigMap, string))
    ensures key in r.0 && r.1 == r.0[key]
    ensures key in m ==> r.0 == m
    ensures key !in m ==> r.0 == m[key := ""]
  {
    if key in m then (m, m[key]) else (m[key := ""], "")
  }
}
