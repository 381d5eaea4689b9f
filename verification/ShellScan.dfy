/**
 The two scanners of the shell command policy (internal/agent/policy.go): the one that cuts
 a command into segments and the one that looks for constructs the policy cannot judge.
 */
module ShellScan {
  import opened Text

  datatype Quote = Quote(inSingle: bool, inDouble: bool, escaped: bool)

  const PLAIN: Quote := Quote(false, false, false)

  /** The quote state after one character. */
  function Step(q: Quote, ch: char): Quote {
    if q.escaped then q.(escaped := false)
    else if ch == '\\' && !q.inSingle then q.(escaped := true)
    else if ch == '\'' && !q.inDouble then q.(inSingle := !q.inSingle)
    else if ch == '"' && !q.inSingle then q.(inDouble := !q.inDouble)
    else q
  }

  function After(q: Quote, s: string): Quote
    decreases |s|
  {
    if s == [] then q else After(Step(q, s[0]), s[1..])
  }

  predicate Separates(ch: char) { ch == ';' || ch == '\n' || ch == '|' || ch == '&' }

  /** An unquoted, unescaped separator. */
  predicate Active(q: Quote, ch: char) { q == PLAIN && Separates(ch) }

  /** `||` and `&&` count as one separator. */
  function SeparatorLength(s: string): (n: nat)
    requires s != []
    ensures 1 <= n <= |s| && n <= 2
  {
    if |s| > 1 && (s[0] == '|' || s[0] == '&') && s[1] == s[0] then 2 else 1
  }

  /** The text cut at its active separators. */
  function Pieces(s: string, q: Quote): (r: seq<string>)
    ensures r != []
    decreases |s|
  {
    if s == [] then [[]]
    else if Active(q, s[0]) then [[]] + Pieces(s[SeparatorLength(s)..], PLAIN)
    else
      var r := Pieces(s[1..], Step(q, s[0]));
      [[s[0]] + r[0]] + r[1..]
  }

  /** The separators between the pieces. */
  function Cuts(s: string, q: Quote): seq<string>
    decreases |s|
  {
    if s == [] then []
    else if Active(q, s[0]) then [s[..SeparatorLength(s)]] + Cuts(s[SeparatorLength(s)..], PLAIN)
    else Cuts(s[1..], Step(q, s[0]))
  }

  /** The trimmed pieces that are not empty. */
  function Kept(pieces: seq<string>): seq<string> {
    if pieces == [] then []
    else (if Trim(pieces[0]) != "" then [Trim(pieces[0])] else []) + Kept(pieces[1..])
  }

  /** Go's `strings.ReplaceAll(s, "\r\n", "\n")`. */
  function Normalize(s: string): string {
    if s == [] then []
    else if |s| > 1 && s[0] == '\r' && s[1] == '\n' then ['\n'] + Normalize(s[2..])
    else [s[0]] + Normalize(s[1..])
  }

  function Segments(command: string): seq<string> {
    Kept(Pieces(Trim(Normalize(command)), PLAIN))
  }

  /** A construct that starts at the first character. */
  predicate Construct(s: string, q: Quote)
    requires s != []
  {
    !q.escaped && !q.inSingle && s[0] != '\\' &&
    (s[0] == '`' ||
     (|s| > 1 && ((s[0] == '$' && s[1] == '(') || (!q.inDouble && s[0] == '<' && s[1] == '<') ||
                  (s[0] == '<' && s[1] == '(') || (s[0] == '>' && s[1] == '('))))
  }

  /** A backtick, `$(`, `<(`, `>(` outside single quotes, or `<<` outside all quotes, none of it escaped. */
  predicate Unsupported(s: string, q: Quote)
    decreases |s|
  {
    s != [] && (Construct(s, q) || Unsupported(s[1..], Step(q, s[0])))
  }

  // ----- the loops

  method SplitShellCommandSegments(command: string) returns (segments: seq<string>)
    ensures segments == Segments(command)
  {
    var text := Trim(Normalize(command));
    segments := [];
    var current, inSingle, inDouble, escaped := "", false, false, false;
    var i := 0;
    assert text[0..] == text;
    NothingYet(Pieces(text, PLAIN));
    while i < |text|
      invariant i <= |text|
      invariant Quote(inSingle, inDouble, escaped) == After(PLAIN, text[..i])
      invariant Scanned(segments, current, text[i..], Quote(inSingle, inDouble, escaped)) == Segments(command)
    {
      var ch := text[i];
      ghost var q, rest := Quote(inSingle, inDouble, escaped), text[i..];
      AfterSnoc(text, i);
      if Active(q, ch) { FlushStep(segments, current, rest); } else { ScanStep(segments, current, rest, q); }
      if escaped {
        current := current + [ch];
        escaped := false;
      } else if ch == '\\' && !inSingle {
        current := current + [ch];
        escaped := true;
      } else if ch == '\'' && !inDouble {
        inSingle := !inSingle;
        current := current + [ch];
      } else if ch == '"' && !inSingle {
        inDouble := !inDouble;
        current := current + [ch];
      } else if !inSingle && !inDouble && Separates(ch) {
        segments := Flushed(segments, current);
        current := "";
        if (ch == '|' || ch == '&') && i + 1 < |text| && text[i + 1] == ch {
          AfterSnoc(text, i + 1);
          i := i + 1;
        }
      } else {
        current := current + [ch];
      }
      i := i + 1;
      assert text[i..] == if Active(q, ch) then rest[SeparatorLength(rest)..] else rest[1..];
    }
    LastFlush(segments, current, text[i..], Quote(inSingle, inDouble, escaped));
    segments := Flushed(segments, current);
  }

  /** The segments found so far and those still to come, the text collected since the last cut included. */
  function Scanned(segments: seq<string>, current: string, rest: string, q: Quote): seq<string> {
    segments + Kept(Continued(current, Pieces(rest, q)))
  }

  function Continued(current: string, pieces: seq<string>): seq<string>
    requires pieces != []
  {
    [current + pieces[0]] + pieces[1..]
  }

  function Flushed(segments: seq<string>, current: string): seq<string> {
    if Trim(current) != "" then segments + [Trim(current)] else segments
  }

  method HasUnsupportedShellConstructs(command: string) returns (found: bool)
    ensures found <==> Unsupported(command, PLAIN)
  {
    var inSingle, inDouble, escaped := false, false, false;
    for i := 0 to |command|
      invariant Quote(inSingle, inDouble, escaped) == After(PLAIN, command[..i])
      invariant Unsupported(command, PLAIN) <==> Unsupported(command[i..], Quote(inSingle, inDouble, escaped))
    {
      var ch := command[i];
      ghost var rest := command[i..];
      AfterSnoc(command, i);
      assert rest[0] == ch && rest[1..] == command[i + 1..] && (|rest| > 1 ==> rest[1] == command[i + 1]);
      if escaped {
        escaped := false;
      } else if ch == '\\' && !inSingle {
        escaped := true;
      } else if ch == '\'' && !inDouble {
        inSingle := !inSingle;
      } else if ch == '"' && !inSingle {
        inDouble := !inDouble;
      } else if !inSingle {
        if ch == '`' { return true; }
        if ch == '$' && i + 1 < |command| && command[i + 1] == '(' { return true; }
        if !inDouble && ch == '<' && i + 1 < |command| && command[i + 1] == '<' { return true; }
        if ch == '<' && i + 1 < |command| && command[i + 1] == '(' { return true; }
        if ch == '>' && i + 1 < |command| && command[i + 1] == '(' { return true; }
      }
    }
    assert command[|command|..] == [];
    return false;
  }

  lemma {:induction false} AfterConcat(q: Quote, a: string, b: string)
    ensures After(q, a + b) == After(After(q, a), b)
    decreases |a|
  {
    if a == [] {
      assert a + b == b;
    } else {
      assert (a + b)[1..] == a[1..] + b;
      AfterConcat(Step(q, a[0]), a[1..], b);
    }
  }

  lemma AfterSnoc(s: string, i: nat)
    requires i < |s|
    ensures After(PLAIN, s[..i + 1]) == Step(After(PLAIN, s[..i]), s[i])
  {
    assert s[..i + 1] == s[..i] + [s[i]];
    AfterConcat(PLAIN, s[..i], [s[i]]);
    assert [s[i]][1..] == [];
  }

  lemma NothingYet(pieces: seq<string>)
    requires pieces != []
    ensures Continued("", pieces) == pieces && [] + Kept(pieces) == Kept(pieces)
  {
    assert "" + pieces[0] == pieces[0];
  }

  lemma ScanStep(segments: seq<string>, current: string, rest: string, q: Quote)
    requires rest != [] && !Active(q, rest[0])
    ensures Scanned(segments, current, rest, q) == Scanned(segments, current + [rest[0]], rest[1..], Step(q, rest[0]))
  {
    var r := Pieces(rest[1..], Step(q, rest[0]));
    assert current + ([rest[0]] + r[0]) == current + [rest[0]] + r[0];
    assert ([[rest[0]] + r[0]] + r[1..])[1..] == r[1..];
  }

  lemma FlushStep(segments: seq<string>, current: string, rest: string)
    requires rest != [] && Active(PLAIN, rest[0])
    ensures Scanned(segments, current, rest, PLAIN) ==
            Scanned(Flushed(segments, current), "", rest[SeparatorLength(rest)..], PLAIN)
  {
    var more := Pieces(rest[SeparatorLength(rest)..], PLAIN);
    assert ([[]] + more)[1..] == more && current + [] == current;
    NothingYet(more);
    assert ([current] + more)[1..] == more;
  }

  lemma LastFlush(segments: seq<string>, current: string, rest: string, q: Quote)
    requires rest == []
    ensures Scanned(segments, current, rest, q) == Flushed(segments, current)
  {
    var none: seq<string> := [[]];
    assert Pieces(rest, q) == none && none[1..] == [] && current + none[0] == current;
    assert Continued(current, none) == [current] && [current][1..] == [];
    assert Kept([current]) == if Trim(current) != "" then [Trim(current)] else [];
    assert segments + [] == segments;
  }
}
