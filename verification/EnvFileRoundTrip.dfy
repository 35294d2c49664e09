/** Printing and reading an environment file are inverse, on exactly the settings
    that can be printed. */
module EnvFileRoundTrip {
  import opened Ordering
  import opened Schema
  import opened Text
  import opened EnvFile

  lemma IndexOfAfter(pre: string, c: char, post: string)
    requires c !in pre
    ensures IndexOf(pre + [c] + post, c) == |pre|
  {
    var s := pre + [c] + post;
    forall j | 0 <= j < |pre| ensures s[j] != c { assert pre[j] in pre; }
    assert s[|pre|] == c;
  }

  // ---------------------------------------------------------- one value

  lemma EscapedCharReads(c: char, tail: string)
    requires DoubleQuoted(tail).Some?
    ensures var r := DoubleQuoted(tail).value;
            DoubleQuoted((if Escapable(c) then ['\\', c] else [c]) + tail) == Some(([c] + r.0, r.1))
  {
    hide Escapable;
    assert (['\\', c] + tail)[2..] == tail && ([c] + tail)[1..] == tail;
    PlainChar(c);
  }

  lemma PlainChar(c: char)
    ensures !Escapable(c) ==> c != '"' && c != '\\'
  {}

  lemma {:induction false} EscapedReadsBack(v: string, after: string)
    ensures DoubleQuoted(Escape(v) + ['"'] + after) == Some((v, after))
  {
    hide DoubleQuoted, Escapable;
    if v == [] {
      assert Escape(v) + ['"'] + after == ['"'] + after;
      ClosingQuote(after);
    } else {
      EscapedReadsBack(v[1..], after);
      var tail := Escape(v[1..]) + ['"'] + after;
      var first := if Escapable(v[0]) then ['\\', v[0]] else [v[0]];
      assert Escape(v) + ['"'] + after == first + tail;
      EscapedCharReads(v[0], tail);
      assert v == [v[0]] + v[1..];
    }
  }

  lemma ClosingQuote(after: string)
    ensures DoubleQuoted(['"'] + after) == Some(([], after))
  {
    assert (['"'] + after)[1..] == after;
  }

  /** Where a quote may open a part, a printed value is read back whole, whatever
      it holds and whatever follows it. */
  lemma QuotedPart(v: string, after: string, out: string, keep: nat)
    requires keep <= |out|
    ensures ValueFrom(Quoted(v) + after, out, keep, true) == ValueFrom(after, out + v, |out| + |v|, true)
  {
    hide ValueFrom, Escape;
    if '\'' !in v {
      SinglePart(v, after, out, keep);
    } else {
      DoublePart(v, after, out, keep);
    }
  }

  lemma SinglePart(v: string, after: string, out: string, keep: nat)
    requires keep <= |out| && '\'' !in v
    ensures ValueFrom(['\''] + v + ['\''] + after, out, keep, true) == ValueFrom(after, out + v, |out| + |v|, true)
  {
    hide IndexOf;
    var s := ['\''] + v + ['\''] + after;
    assert s[1..] == v + ['\''] + after;
    IndexOfAfter(v, '\'', after);
    assert s[|v| + 2..] == after && s[1..|v| + 1] == v;
  }

  lemma DoublePart(v: string, after: string, out: string, keep: nat)
    requires keep <= |out|
    ensures ValueFrom(['"'] + Escape(v) + ['"'] + after, out, keep, true) ==
        ValueFrom(after, out + v, |out| + |v|, true)
  {
    hide DoubleQuoted, Escape;
    var s := ['"'] + Escape(v) + ['"'] + after;
    assert s[1..] == Escape(v) + ['"'] + after;
    EscapedReadsBack(v, after);
  }

  lemma {:induction false} BlanksSkipped(blanks: string, after: string, out: string, keep: nat)
    requires keep <= |out| && forall i :: 0 <= i < |blanks| ==> Blank(blanks[i])
    ensures ValueFrom(blanks + after, out, keep, true) == ValueFrom(after, out, keep, true)
  {
    if blanks == [] {
      assert blanks + after == after;
    } else {
      BlanksSkipped(blanks[1..], after, out, keep);
      assert (blanks + after)[1..] == blanks[1..] + after;
    }
  }

  /** A printed value reads back as itself. */
  lemma ValueReadsBack(v: string)
    ensures ValueOf(Quoted(v)) == Some(v)
  {
    QuotedPart(v, [], [], 0);
    assert Quoted(v) + [] == Quoted(v) && [] + v == v && v[..|v|] == v;
  }

  /** Quoted parts concatenate, and blanks between and behind them are skipped. */
  lemma PartsConcatenate(a: string, b: string, between: string, behind: string)
    requires forall i :: 0 <= i < |between| ==> Blank(between[i])
    requires forall i :: 0 <= i < |behind| ==> Blank(behind[i])
    ensures ValueOf(Quoted(a) + between + Quoted(b) + behind) == Some(a + b)
  {
    hide ValueFrom, Quoted;
    var tail := Quoted(b) + behind;
    assert Quoted(a) + between + Quoted(b) + behind == Quoted(a) + (between + tail);
    QuotedPart(a, between + tail, [], 0);
    BlanksSkipped(between, tail, [] + a, |a|);
    QuotedPart(b, behind, [] + a, |a|);
    var out := [] + a + b;
    BlanksSkipped(behind, [], out, |out|);
    ValueDone(out);
    assert behind + [] == behind && out == a + b;
  }

  lemma ValueDone(out: string)
    ensures ValueFrom([], out, |out|, true) == Some(out)
  {
    assert out[..|out|] == out;
  }

  /** A value that begins with neither blank, quote nor backslash and holds no
      backslash reads as itself without its trailing blanks: quotes inside are literal. */
  lemma {:induction false} BareValue(s: string, rest: string, out: string, keep: nat)
    requires '\\' !in rest && keep <= |out|
    requires forall i :: keep <= i < |out| ==> Blank(out[i])
    requires keep > 0 ==> !Blank(out[keep - 1])
    requires s == out + rest
    ensures ValueFrom(rest, out, keep, false) == Some(TrimEnd(s))
    decreases |rest|
  {
    if rest == [] {
      assert s == out;
      TrimEndAt(s, keep);
    } else {
      assert rest == [rest[0]] + rest[1..] && rest[0] in rest;
      assert s == (out + [rest[0]]) + rest[1..];
      BareValue(s, rest[1..], out + [rest[0]], if Blank(rest[0]) then keep else |out| + 1);
    }
  }

  function TrimEnd(s: string): string {
    if s != [] && Blank(s[|s| - 1]) then TrimEnd(s[..|s| - 1]) else s
  }

  lemma {:induction false} TrimEndAt(s: string, keep: nat)
    requires keep <= |s| && (forall i :: keep <= i < |s| ==> Blank(s[i])) && (keep > 0 ==> !Blank(s[keep - 1]))
    ensures TrimEnd(s) == s[..keep]
  {
    if keep < |s| {
      TrimEndAt(s[..|s| - 1], keep);
      assert s[..|s| - 1][..keep] == s[..keep];
    } else {
      assert s[..keep] == s;
    }
  }

  lemma UnquotedReadsBare(s: string)
    requires s != [] && !Blank(s[0]) && s[0] != '\'' && s[0] != '"' && '\\' !in s
    ensures ValueOf(s) == Some(TrimEnd(s))
  {
    assert s[0] in s && s == [s[0]] + s[1..] && [] + [s[0]] == [s[0]];
    assert ValueOf(s) == ValueFrom(s[1..], [s[0]], 1, false);
    BareValue(s, s[1..], [s[0]], 1);
  }

  // ----------------------------------------------------------- one line

  lemma NameIsPlain(k: string)
    requires ValidName(k)
    ensures '=' !in k && '\n' !in k && TrimSpace(k) == k && !Blank(k[0]) && !Ignored(k)
  {
    TrimmedExactly(k);
    assert NameChar(k[0]) && NameChar(k[|k| - 1]);
  }

  lemma QuotedEnds(v: string)
    ensures |Quoted(v)| >= 2 && Quoted(v)[0] in {'\'', '"'} && Quoted(v)[|Quoted(v)| - 1] in {'\'', '"'}
  {}

  lemma {:induction false} EscapeHasNoNewline(v: string)
    requires '\n' !in v
    ensures '\n' !in Escape(v)
  {
    if v != [] {
      assert v[0] in v;
      assert forall c :: c in v[1..] ==> c in v;
      EscapeHasNoNewline(v[1..]);
    }
  }

  lemma LineIsPlain(k: string, v: string)
    requires ValidName(k) && ValidValue(v)
    ensures var line := Assignment(k, v);
            '\n' !in line && TrimBlanks(TrimReturn(line)) == line && !Ignored(line)
  {
    hide TrimSpace, Escape, NameStart, NameChar;
    var line := Assignment(k, v);
    NameIsPlain(k);
    QuotedEnds(v);
    EscapeHasNoNewline(v);
    assert line == k + ['='] + Quoted(v);
    assert line[0] == k[0] && line[|line| - 1] == Quoted(v)[|Quoted(v)| - 1];
  }

  lemma NoBlankFirst(s: string)
    requires s != [] && !Blank(s[0])
    ensures TrimBlanks(s) == s
  {}

  /** A printed assignment is one line, and reads back as the setting. */
  lemma AssignmentReadsBack(k: string, v: string)
    requires ValidName(k) && ValidValue(v)
    ensures AssignmentOf(Assignment(k, v)) == Got((k, v))
  {
    hide ValueFrom, Escape, TrimSpace, ValidName, ValueOf, Quoted, TrimBlanks, IndexOf, Ignored;
    var line := Assignment(k, v);
    NameIsPlain(k);
    QuotedEnds(v);
    assert line == k + ['='] + Quoted(v);
    IndexOfAfter(k, '=', Quoted(v));
    assert line[..|k|] == k && line[|k| + 1..] == Quoted(v);
    NoBlankFirst(Quoted(v));
    ValueReadsBack(v);
  }

  // ------------------------------------------------------- the whole file

  lemma LinesStep(line: string, rest: string)
    requires '\n' !in line
    ensures Lines(line + ['\n'] + rest) == [line] + Lines(rest)
  {
    var data := line + ['\n'] + rest;
    IndexOfAfter(line, '\n', rest);
    assert data[..|line|] == line && data[|line| + 1..] == rest;
  }

  function Restrict(env: Env, keys: seq<string>): Env {
    map k | k in env && k in keys :: env[k]
  }

  lemma {:induction false} LinesReadBack(env: Env, keys: seq<string>, before: Env, number: nat)
    requires forall k :: k in keys ==> k in env
    requires PrintLines(env, keys).Text?
    ensures ReadLines(Lines(PrintLines(env, keys).data), before, number) == Settings(before + Restrict(env, keys))
  {
    hide Assignment, AssignmentOf, Lines, ValidName, ValidValue, ReadLines;
    if keys == [] {
      NoLines(before, number);
      assert before + Restrict(env, keys) == before;
    } else {
      var k, rest := keys[0], PrintLines(env, keys[1..]);
      var line := Assignment(k, env[k]);
      LineReads(k, env[k], Lines(rest.data), before, number);
      LineIsPlain(k, env[k]);
      LinesStep(line, rest.data);
      LinesReadBack(env, keys[1..], before[k := env[k]], number + 1);
      assert before[k := env[k]] + Restrict(env, keys[1..]) == before + Restrict(env, keys);
    }
  }

  lemma NoLines(before: Env, number: nat)
    ensures ReadLines(Lines([]), before, number) == Settings(before)
  {
    var lines := Lines([]);
    assert lines == [""] && lines[1..] == [];
  }

  lemma LineReads(k: string, v: string, rest: seq<string>, before: Env, number: nat)
    requires ValidName(k) && ValidValue(v)
    ensures ReadLines([Assignment(k, v)] + rest, before, number) == ReadLines(rest, before[k := v], number + 1)
  {
    hide Assignment, AssignmentOf, ValidName, ValidValue, TrimBlanks, TrimReturn;
    LineIsPlain(k, v);
    AssignmentReadsBack(k, v);
    assert ([Assignment(k, v)] + rest)[1..] == rest;
  }

  /** A header of comment lines. */
  predicate IsHeader(lines: seq<string>) {
    forall l :: l in lines ==> l != [] && l[0] == '#' && '\n' !in l
  }

  function Header(lines: seq<string>): string {
    if lines == [] then [] else lines[0] + ['\n'] + Header(lines[1..])
  }

  lemma {:induction false} HeaderIgnored(lines: seq<string>, rest: string, number: nat)
    requires IsHeader(lines)
    ensures ReadLines(Lines(Header(lines) + rest), map[], number) == ReadLines(Lines(rest), map[], number + |lines|)
  {
    hide ReadLines, Lines, Header;
    if lines == [] {
      NoHeader(rest);
    } else {
      var l := lines[0];
      assert l in lines;
      TailIsHeader(lines);
      HeaderStep(lines, rest);
      LinesStep(l, Header(lines[1..]) + rest);
      CommentIgnored(l, Lines(Header(lines[1..]) + rest), number);
      HeaderIgnored(lines[1..], rest, number + 1);
    }
  }

  lemma TailIsHeader(lines: seq<string>)
    requires IsHeader(lines) && lines != []
    ensures IsHeader(lines[1..])
  {
    forall l | l in lines[1..] ensures l in lines {
      var i :| 0 <= i < |lines| - 1 && lines[1..][i] == l;
      assert lines[i + 1] == l;
    }
  }

  lemma HeaderStep(lines: seq<string>, rest: string)
    requires lines != []
    ensures Header(lines) + rest == lines[0] + ['\n'] + (Header(lines[1..]) + rest)
  {}

  lemma NoHeader(rest: string)
    ensures Header([]) + rest == rest
  {}

  lemma CommentIgnored(l: string, rest: seq<string>, number: nat)
    requires l != [] && l[0] == '#'
    ensures ReadLines([l] + rest, map[], number) == ReadLines(rest, map[], number + 1)
  {
    assert TrimReturn(l)[0] == '#';
    assert ([l] + rest)[1..] == rest;
  }

  /** Reading what was printed gives the settings back. */
  lemma RoundTrip(lines: seq<string>, env: Env)
    requires IsHeader(lines) && Print(Header(lines), env).Text?
    ensures Parse(Print(Header(lines), env).data) == Settings(env)
  {
    hide Lines, ReadLines, PrintLines, SortedKeys;
    var keys := SortedKeys(env.Keys);
    HeaderIgnored(lines, PrintLines(env, keys).data, 1);
    LinesReadBack(env, keys, map[], 1 + |lines|);
    assert map[] + Restrict(env, keys) == env;
  }

  predicate Printable(env: Env, k: string)
    requires k in env
  {
    ValidName(k) && ValidValue(env[k])
  }

  /** f is about the first setting, in the order of keys, that cannot be printed. */
  ghost predicate FirstFault(env: Env, keys: seq<string>, f: EnvFault, i: nat)
    requires forall k :: k in keys ==> k in env
  {
    && i < |keys| && f.key == keys[i] && !Printable(env, f.key)
    && (f.BadName? <==> !ValidName(f.key))
    && forall j :: 0 <= j < i ==> Printable(env, keys[j])
  }

  lemma {:induction false} PrintsExactly(env: Env, keys: seq<string>)
    requires forall k :: k in keys ==> k in env
    ensures PrintLines(env, keys).Text? <==> forall k :: k in keys ==> Printable(env, k)
    ensures PrintLines(env, keys).Fault? ==> exists i: nat :: FirstFault(env, keys, PrintLines(env, keys).fault, i)
  {
    hide ValidName, ValidValue, Assignment;
    if keys != [] {
      PrintsExactly(env, keys[1..]);
      assert keys == [keys[0]] + keys[1..];
      if !Printable(env, keys[0]) {
        assert FirstFault(env, keys, PrintLines(env, keys).fault, 0);
      } else if PrintLines(env, keys[1..]).Fault? {
        var i: nat :| FirstFault(env, keys[1..], PrintLines(env, keys[1..]).fault, i);
        forall j | 0 <= j < i + 1 ensures Printable(env, keys[j]) {
          if j > 0 { assert Printable(env, keys[1..][j - 1]); }
        }
        assert keys[1..][i] == keys[i + 1];
        assert FirstFault(env, keys, PrintLines(env, keys).fault, i + 1);
      }
    }
  }

  /** FormatEnv fails on exactly the other maps: an invalid name, or a value with a
      line break or NUL. What it prints always reads back. */
  lemma PrintedExactlyWhenValid(lines: seq<string>, env: Env)
    requires IsHeader(lines)
    ensures Print(Header(lines), env).Text? <==> forall k :: k in env ==> ValidName(k) && ValidValue(env[k])
    ensures Print(Header(lines), env).Fault? ==>
              exists i: nat :: FirstFault(env, SortedKeys(env.Keys), Print(Header(lines), env).fault, i)
    ensures (forall k :: k in env ==> ValidName(k) && ValidValue(env[k])) <==>
              Print(Header(lines), env).Text? && Parse(Print(Header(lines), env).data) == Settings(env)
  {
    hide Parse, SortedKeys, PrintLines, ValidName, ValidValue;
    PrintsExactly(env, SortedKeys(env.Keys));
    if Print(Header(lines), env).Text? { RoundTrip(lines, env); }
  }
}
