/** FormatEnv, ParseEnv and parseValue as internal/systemd/envfile.go runs them,
    proved to compute the functions of EnvFile.dfy. */
module EnvFileCode {
  import opened Ordering
  import opened Schema
  import opened Text
  import opened EnvFile
  import opened EnvFileRoundTrip

  /** Comment lines, then the settings sorted, one per line; the first one that cannot be held is named. */
  method FormatEnv(header: seq<string>, env: Env) returns (printed: Printed)
    ensures printed == Print(Header(header), env)
  {
    hide SortedKeys, Header, Assignment, ValidName, ValidValue;
    var keys := SortedListing(env.Keys);
    var data: string := [];
    for i := 0 to |keys|
      invariant PrintLines(env, keys) == Prefixed(data, PrintLines(env, keys[i..]))
    {
      var k := keys[i];
      assert keys[i..][0] == k && keys[i..][1..] == keys[i + 1..];
      if !ValidName(k) {
        return Fault(BadName(k));
      }
      if !ValidValue(env[k]) {
        return Fault(BadValue(k));
      }
      data := data + Assignment(k, env[k]) + ['\n'];
      PrefixedFurther(data, PrintLines(env, keys[i + 1..]));
    }
    assert PrintLines(env, keys[|keys|..]) == Text([]) && data + [] == data;
    printed := Text(Header(header) + data);
  }

  function Prefixed(data: string, rest: Printed): Printed {
    if rest.Fault? then rest else Text(data + rest.data)
  }

  lemma PrefixedFurther(data: string, rest: Printed)
    ensures rest.Text? ==> forall a, b :: data == a + b ==> a + (b + rest.data) == data + rest.data
  {}

  /** What reading the value from i on comes to, by its first character. */
  lemma ValueStep(s: string, i: nat, out: string, keep: nat, quotes: bool)
    requires i < |s| && keep <= |out|
    ensures var c := s[i];
            ValueFrom(s[i..], out, keep, quotes) ==
              if quotes && Blank(c) then ValueFrom(s[i + 1..], out, keep, quotes)
              else if quotes && c == '\'' then
                var end := IndexOf(s[i + 1..], '\'');
                if end == |s| - i - 1 then None
                else ValueFrom(s[i + end + 2..], out + s[i + 1..i + 1 + end], |out| + end, true)
              else if quotes && c == '"' then
                var part := DoubleQuoted(s[i + 1..]);
                if part.None? then None
                else ValueFrom(part.value.1, out + part.value.0, |out| + |part.value.0|, true)
              else if c == '\\' then
                if i + 1 == |s| then None else ValueFrom(s[i + 2..], out + [s[i + 1]], |out| + 1, false)
              else ValueFrom(s[i + 1..], out + [c], if Blank(c) then keep else |out| + 1, false)
  {
    hide DoubleQuoted, IndexOf;
    var rest := s[i..];
    assert rest[0] == s[i] && rest[1..] == s[i + 1..];
    var end := IndexOf(s[i + 1..], '\'');
    if end < |s| - i - 1 {
      assert rest[end + 2..] == s[i + end + 2..] && rest[1..end + 1] == s[i + 1..i + 1 + end];
    }
    if i + 1 < |s| {
      assert rest[2..] == s[i + 2..] && rest[1] == s[i + 1];
    }
  }

  /** A value of the file, as systemd reads it. */
  method ParseValue(s: string) returns (value: Option<string>)
    ensures value == ValueOf(s)
  {
    hide DoubleQuoted, IndexOf, ValueFrom;
    var out: string, keep: nat, quotes, i := [], 0, true, 0;
    assert s[0..] == s;
    while i < |s|
      invariant i <= |s| && keep <= |out|
      invariant ValueOf(s) == ValueFrom(s[i..], out, keep, quotes)
    {
      var c := s[i];
      ValueStep(s, i, out, keep, quotes);
      if quotes && Blank(c) {
        i := i + 1;
        continue;
      } else if quotes && c == '\'' {
        var end := IndexOf(s[i + 1..], '\'');
        if end == |s| - i - 1 {
          return None;
        }
        out := out + s[i + 1..i + 1 + end];
        i := i + end + 2;
      } else if quotes && c == '"' {
        var part, after := ParseDoubleQuoted(s, i + 1);
        if part.None? {
          return None;
        }
        out := out + part.value;
        i := after;
      } else if c == '\\' {
        if i + 1 >= |s| {
          return None;
        }
        out := out + [s[i + 1]];
        quotes := false;
        i := i + 2;
      } else {
        out := out + [c];
        quotes := false;
        i := i + 1;
        if Blank(c) {
          continue;
        }
      }
      keep := |out|;
    }
    ValueEnds(s, out, keep, quotes);
    value := Some(out[..keep]);
  }

  lemma ValueEnds(s: string, out: string, keep: nat, quotes: bool)
    requires keep <= |out|
    ensures ValueFrom(s[|s|..], out, keep, quotes) == Some(out[..keep])
  {}

  /** How the part from j on reads: two characters for an escape, else one. */
  lemma QuotedStep(s: string, j: nat)
    requires j < |s| && s[j] != '"'
    ensures var escape := s[j] == '\\' && j + 1 < |s|;
            var next, text := if escape then j + 2 else j + 1,
                              if !escape then [s[j]] else if Escapable(s[j + 1]) then [s[j + 1]] else ['\\', s[j + 1]];
            && (DoubleQuoted(s[j..]).None? <==> DoubleQuoted(s[next..]).None?)
            && (DoubleQuoted(s[j..]).Some? ==>
                  DoubleQuoted(s[j..]).value.0 == text + DoubleQuoted(s[next..]).value.0 &&
                  DoubleQuoted(s[j..]).value.1 == DoubleQuoted(s[next..]).value.1)
  {
    var rest := s[j..];
    assert rest[0] == s[j] && rest[1..] == s[j + 1..];
    if s[j] == '\\' && j + 1 < |s| {
      assert rest[1] == s[j + 1] && rest[2..] == s[j + 2..];
    }
  }

  /** The part from i on is out and then what the rest from j on reads. */
  predicate PartSoFar(s: string, i: nat, j: nat, out: string)
    requires i <= |s| && j <= |s|
  {
    && (DoubleQuoted(s[j..]).None? <==> DoubleQuoted(s[i..]).None?)
    && (DoubleQuoted(s[j..]).Some? ==>
          DoubleQuoted(s[i..]).value.0 == out + DoubleQuoted(s[j..]).value.0 &&
          DoubleQuoted(s[i..]).value.1 == DoubleQuoted(s[j..]).value.1)
  }

  lemma PartGrows(s: string, i: nat, j: nat, out: string)
    requires i <= |s| && j < |s| && s[j] != '"' && PartSoFar(s, i, j, out)
    ensures s[j] == '\\' && j + 1 < |s| ==>
              PartSoFar(s, i, j + 2, (if Escapable(s[j + 1]) then out else out + ['\\']) + [s[j + 1]])
    ensures !(s[j] == '\\' && j + 1 < |s|) ==> PartSoFar(s, i, j + 1, out + [s[j]])
  {
    hide DoubleQuoted, Escapable;
    QuotedStep(s, j);
  }

  lemma PartEnds(s: string, i: nat, j: nat, out: string)
    requires i <= j <= |s| && PartSoFar(s, i, j, out) && (j < |s| ==> s[j] == '"')
    ensures if j == |s| then DoubleQuoted(s[i..]).None? else DoubleQuoted(s[i..]) == Some((out, s[j + 1..]))
  {
    if j < |s| {
      assert s[j..][1..] == s[j + 1..] && out + [] == out;
    }
  }

  /** Reads a double-quoted part from i on; after is behind its closing quote. */
  method ParseDoubleQuoted(s: string, i: nat) returns (part: Option<string>, after: nat)
    requires i <= |s|
    ensures part.None? <==> DoubleQuoted(s[i..]).None?
    ensures part.Some? ==> i < after <= |s| && DoubleQuoted(s[i..]) == Some((part.value, s[after..]))
  {
    hide DoubleQuoted, Escapable, PartSoFar;
    var j, out: string := i, [];
    NothingRead(s, i);
    while j < |s| && s[j] != '"'
      invariant i <= j <= |s| && PartSoFar(s, i, j, out)
    {
      PartGrows(s, i, j, out);
      if s[j] == '\\' && j + 1 < |s| {
        if !Escapable(s[j + 1]) {
          out := out + ['\\'];
        }
        j := j + 1;
      }
      out := out + [s[j]];
      j := j + 1;
    }
    PartEnds(s, i, j, out);
    if j >= |s| {
      return None, j;
    }
    part, after := Some(out), j + 1;
  }

  lemma NothingRead(s: string, i: nat)
    requires i <= |s|
    ensures PartSoFar(s, i, i, [])
  {
    assert DoubleQuoted(s[i..]).Some? ==> [] + DoubleQuoted(s[i..]).value.0 == DoubleQuoted(s[i..]).value.0;
  }

  method ParseAssignment(line: string) returns (a: Read<(string, string)>)
    ensures a == AssignmentOf(line)
  {
    hide ValueOf, TrimSpace;
    var cut := IndexOf(line, '=');
    if cut == |line| {
      return Unreadable(NotAssignment);
    }
    var k := TrimSpace(line[..cut]);
    if !ValidName(k) {
      return Unreadable(NotName);
    }
    var v := ParseValue(TrimBlanks(line[cut + 1..]));
    a := if v.None? then Unreadable(NotValue) else Got((k, v.value));
  }

  /** Reads the file line by line; the first unreadable one is an error naming its number. */
  method ParseEnv(data: string) returns (parsed: Parsed)
    ensures parsed == Parse(data)
  {
    hide Lines, AssignmentOf, TrimBlanks, TrimReturn;
    var lines := Lines(data);
    var env: Env := map[];
    for i := 0 to |lines|
      invariant Parse(data) == ReadLines(lines[i..], env, i + 1)
    {
      assert lines[i..][0] == lines[i] && lines[i..][1..] == lines[i + 1..];
      var line := TrimBlanks(TrimReturn(lines[i]));
      if line == [] || line[0] == '#' || line[0] == ';' {
        continue;
      }
      var a := ParseAssignment(line);
      if a.Unreadable? {
        return BadLine(i + 1, a.fault);
      }
      env := env[a.value.0 := a.value.1];
    }
    parsed := Settings(env);
  }

  /** For every map of settings: it is printed and read back as it was, or it holds
      an invalid name or value and is refused. */
  method StoreAndLoad(header: seq<string>, env: Env) returns (stored: Printed, loaded: Option<Parsed>)
    requires IsHeader(header)
    ensures stored.Text? <==> forall k :: k in env ==> ValidName(k) && ValidValue(env[k])
    ensures stored.Text? ==> loaded == Some(Settings(env))
  {
    stored := FormatEnv(header, env);
    PrintedExactlyWhenValid(header, env);
    loaded := None;
    if stored.Text? {
      var parsed := ParseEnv(stored.data);
      loaded := Some(parsed);
    }
  }
}
