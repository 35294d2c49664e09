/** The systemd environment file as values: what FormatEnv prints and what
    ParseEnv reads (internal/systemd/envfile.go). */
module EnvFile {
  import opened Ordering
  import opened Schema
  import opened Text

  type Env = map<string, string>

  // -------------------------------------------------------- characters

  predicate NameStart(c: char) { 'A' <= c <= 'Z' || 'a' <= c <= 'z' || c == '_' }

  predicate NameChar(c: char) { NameStart(c) || '0' <= c <= '9' }

  predicate ValidName(k: string) {
    k != "" && NameStart(k[0]) && forall i :: 0 <= i < |k| ==> NameChar(k[i])
  }

  /** What systemd can hold on one line. */
  predicate ValidValue(v: string) { '\n' !in v && '\r' !in v && '\0' !in v }

  predicate Blank(c: char) { c == ' ' || c == '\t' }

  /** The characters a backslash escapes in double quotes. */
  predicate Escapable(c: char) { c == '"' || c == '\\' || c == '`' || c == '$' }

  /** The first index of c, or the length. */
  function IndexOf(s: string, c: char): (i: nat)
    ensures i <= |s| && (forall j :: 0 <= j < i ==> s[j] != c) && (i < |s| ==> s[i] == c)
  {
    if s == [] || s[0] == c then 0 else 1 + IndexOf(s[1..], c)
  }

  // ----------------------------------------------------------- printing

  function Escape(v: string): string {
    if v == [] then [] else (if Escapable(v[0]) then ['\\', v[0]] else [v[0]]) + Escape(v[1..])
  }

  function Quoted(v: string): string {
    if '\'' !in v then ['\''] + v + ['\''] else ['"'] + Escape(v) + ['"']
  }

  function Assignment(k: string, v: string): string { k + ['='] + Quoted(v) }

  datatype EnvFault = BadName(key: string) | BadValue(key: string)

  datatype Printed = Text(data: string) | Fault(fault: EnvFault)

  /** The lines of the keys, in order, up to the first setting that cannot be held. */
  function PrintLines(env: Env, keys: seq<string>): Printed
    requires forall k :: k in keys ==> k in env
  {
    if keys == [] then Text([])
    else if !ValidName(keys[0]) then Fault(BadName(keys[0]))
    else if !ValidValue(env[keys[0]]) then Fault(BadValue(keys[0]))
    else
      var rest := PrintLines(env, keys[1..]);
      if rest.Fault? then rest else Text(Assignment(keys[0], env[keys[0]]) + ['\n'] + rest.data)
  }

  ghost function Print(header: string, env: Env): Printed {
    var lines := PrintLines(env, SortedKeys(env.Keys));
    if lines.Fault? then lines else Text(header + lines.data)
  }

  // ------------------------------------------------------------ reading

  /** A double-quoted part up to its closing quote, and what follows it. */
  function DoubleQuoted(s: string): Option<(string, string)> {
    if s == [] then None
    else if s[0] == '"' then Some(([], s[1..]))
    else if s[0] == '\\' && |s| > 1 then
      var r := DoubleQuoted(s[2..]);
      if r.None? then None
      else Some(((if Escapable(s[1]) then [s[1]] else ['\\', s[1]]) + r.value.0, r.value.1))
    else
      var r := DoubleQuoted(s[1..]);
      if r.None? then None else Some(([s[0]] + r.value.0, r.value.1))
  }

  lemma {:induction false} DoubleQuotedShrinks(s: string)
    ensures DoubleQuoted(s).Some? ==> |DoubleQuoted(s).value.1| < |s|
    decreases |s|
  {
    if s == [] || s[0] == '"' {
    } else if s[0] == '\\' && |s| > 1 {
      DoubleQuotedShrinks(s[2..]);
    } else {
      DoubleQuotedShrinks(s[1..]);
    }
  }

  /** The value that the rest of a line completes. out is the value so far, keep how
      much of it trailing blanks cannot cut, quotes whether a quote opens a part. */
  function ValueFrom(rest: string, out: string, keep: nat, quotes: bool): Option<string>
    requires keep <= |out|
    decreases |rest|
  {
    if rest == [] then Some(out[..keep])
    else
      var c := rest[0];
      if quotes && Blank(c) then ValueFrom(rest[1..], out, keep, quotes)
      else if quotes && c == '\'' then
        var end := IndexOf(rest[1..], '\'');
        if end == |rest| - 1 then None
        else ValueFrom(rest[end + 2..], out + rest[1..end + 1], |out| + end, true)
      else if quotes && c == '"' then
        var part := DoubleQuoted(rest[1..]);
        DoubleQuotedShrinks(rest[1..]);
        if part.None? then None
        else ValueFrom(part.value.1, out + part.value.0, |out| + |part.value.0|, true)
      else if c == '\\' then
        if |rest| == 1 then None else ValueFrom(rest[2..], out + [rest[1]], |out| + 1, false)
      else ValueFrom(rest[1..], out + [c], if Blank(c) then keep else |out| + 1, false)
  }

  function ValueOf(s: string): Option<string> { ValueFrom(s, [], 0, true) }

  function TrimBlanks(s: string): string {
    if s != [] && Blank(s[0]) then TrimBlanks(s[1..]) else s
  }

  function TrimReturn(s: string): string {
    if s != [] && s[|s| - 1] == '\r' then s[..|s| - 1] else s
  }

  datatype LineFault = NotAssignment | NotName | NotValue

  datatype Read<T> = Got(value: T) | Unreadable(fault: LineFault)

  function AssignmentOf(line: string): Read<(string, string)> {
    var cut := IndexOf(line, '=');
    if cut == |line| then Unreadable(NotAssignment)
    else
      var k := TrimSpace(line[..cut]);
      if !ValidName(k) then Unreadable(NotName)
      else
        var v := ValueOf(TrimBlanks(line[cut + 1..]));
        if v.None? then Unreadable(NotValue) else Got((k, v.value))
  }

  function Lines(data: string): seq<string> {
    var end := IndexOf(data, '\n');
    if end == |data| then [data] else [data[..end]] + Lines(data[end + 1..])
  }

  predicate Ignored(line: string) { line == [] || line[0] == '#' || line[0] == ';' }

  datatype Parsed = Settings(env: Env) | BadLine(number: nat, fault: LineFault)

  /** Reads the lines in order on top of env; number is the first line's. */
  function ReadLines(lines: seq<string>, env: Env, number: nat): Parsed {
    if lines == [] then Settings(env)
    else
      var line := TrimBlanks(TrimReturn(lines[0]));
      if Ignored(line) then ReadLines(lines[1..], env, number + 1)
      else
        var a := AssignmentOf(line);
        if a.Unreadable? then BadLine(number, a.fault)
        else ReadLines(lines[1..], env[a.value.0 := a.value.1], number + 1)
  }

  function Parse(data: string): Parsed { ReadLines(Lines(data), map[], 1) }
}
