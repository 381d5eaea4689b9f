/** Installing a marked block into a text file (internal/cmd/ai.go). */
module CopilotBlock {
  import opened Text

  const BEGIN := "<!-- BEGIN AYATSURI -->"
  const END := "<!-- END AYATSURI -->"

  /** The mark stands at position i. */
  predicate At(s: string, m: string, i: nat) { i + |m| <= |s| && s[i..i + |m|] == m }

  predicate Free(s: string, m: string) { forall i :: 0 <= i <= |s| ==> !At(s, m, i) }

  /** Go's `strings.Count` for a non-empty text. */
  function Count(s: string, m: string): nat
    requires m != []
  {
    if |s| < |m| then 0
    else if m <= s then 1 + Count(s[|m|..], m)
    else Count(s[1..], m)
  }

  /** A mark opens with `<`, has none further on, no line feed, and room for what tells the two marks apart. */
  predicate Mark(m: string) {
    |m| > 6 && m[0] == '<' && (forall i :: 0 < i < |m| ==> m[i] != '<') && '\n' !in m
  }

  lemma Marks()
    ensures Mark(BEGIN) && Mark(END) && BEGIN[5] != END[5]
  {
  }

  // ----- counting

  lemma {:induction false} CountZeroIff(s: string, m: string)
    requires m != []
    ensures Count(s, m) == 0 <==> Free(s, m)
    decreases |s|
  {
    if |s| >= |m| {
      if m <= s {
        assert At(s, m, 0);
      } else {
        CountZeroIff(s[1..], m);
        Shift(s, m, 1);
      }
    }
  }

  /** Occurrences behind a front part are those of the rest. */
  lemma Shift(s: string, m: string, n: nat)
    requires n <= |s|
    ensures forall i :: n <= i <= |s| ==> (At(s, m, i) <==> At(s[n..], m, i - n))
    ensures forall i :: 0 <= i <= |s[n..]| ==> (At(s[n..], m, i) <==> At(s, m, i + n))
  {
    forall i | n <= i <= |s| ensures At(s, m, i) <==> At(s[n..], m, i - n) {
      if i + |m| <= |s| { assert s[i..i + |m|] == s[n..][i - n..i - n + |m|]; }
    }
    forall i | 0 <= i <= |s[n..]| ensures At(s[n..], m, i) <==> At(s, m, i + n) {
      if i + n + |m| <= |s| { assert s[i + n..i + n + |m|] == s[n..][i..i + |m|]; }
    }
  }

  predicate OnlyAt(s: string, m: string, i: nat) {
    i <= |s| && At(s, m, i) && forall j :: 0 <= j <= |s| && At(s, m, j) ==> j == i
  }

  /** A mark cannot overlap itself, so it is counted once exactly if it stands at one place only. */
  lemma {:induction false} CountOneIff(s: string, m: string)
    requires Mark(m)
    ensures Count(s, m) == 1 <==> exists i: nat :: OnlyAt(s, m, i)
    decreases |s|
  {
    if |s| >= |m| {
      if m <= s {
        assert At(s, m, 0);
        CountZeroIff(s[|m|..], m);
        Shift(s, m, |m|);
        forall j | 0 < j < |m| && j <= |s| ensures !At(s, m, j) { NoOverlap(s, m, j); }
        if Free(s[|m|..], m) { assert OnlyAt(s, m, 0); }
      } else {
        CountOneIff(s[1..], m);
        Shift(s, m, 1);
        if i: nat :| OnlyAt(s, m, i) { assert OnlyAt(s[1..], m, i - 1); }
        if i: nat :| OnlyAt(s[1..], m, i) { assert OnlyAt(s, m, i + 1); }
      }
    }
  }

  lemma NoOverlap(s: string, m: string, j: nat)
    requires Mark(m) && m <= s && 0 < j < |m|
    ensures !At(s, m, j)
  {
    assert s[j] == m[j] != '<';
  }

  lemma AtChar(s: string, m: string, i: nat, k: nat)
    requires At(s, m, i) && k < |m|
    ensures s[i + k] == m[k]
  {
    assert s[i + k] == s[i..i + |m|][k];
  }

  // ----- marks in a text put together from parts

  /** No occurrence starts in the front part. */
  predicate Lead(x: string, y: string, m: string) { forall i :: 0 <= i < |x| ==> !At(x + y, m, i) }

  lemma BehindLead(x: string, y: string, m: string)
    requires Lead(x, y, m)
    ensures Free(y, m) ==> Free(x + y, m)
    ensures forall i: nat :: OnlyAt(y, m, i) ==> OnlyAt(x + y, m, |x| + i)
  {
    assert (x + y)[|x|..] == y;
    Shift(x + y, m, |x|);
  }

  /** A part without the mark, before something no mark can run into. */
  lemma LeadFree(x: string, y: string, m: string)
    requires Mark(m) && Free(x, m) && y != [] && (y[0] == '<' || y[0] == '\n')
    ensures Lead(x, y, m)
  {
    forall i | 0 <= i < |x| ensures !At(x + y, m, i) {
      if At(x + y, m, i) {
        if i + |m| <= |x| {
          assert (x + y)[i..i + |m|] == x[i..i + |m|];
          assert At(x, m, i);
        } else {
          AtChar(x + y, m, i, |x| - i);
        }
      }
    }
  }

  lemma LeadNewline(y: string, m: string)
    requires Mark(m)
    ensures Lead(['\n'], y, m)
  {
    assert (['\n'] + y)[0] == '\n';
  }

  /** One mark before a text: the other does not start in it, and it starts only at its own front. */
  lemma LeadMark(x: string, y: string, m: string)
    requires Mark(x) && Mark(m) && x[5] != m[5]
    ensures Lead(x, y, m)
  {
    forall i | 0 <= i < |x| ensures !At(x + y, m, i) {
      if At(x + y, m, i) {
        AtChar(x + y, m, i, 0);
        AtChar(x + y, m, i, 5);
      }
    }
  }

  lemma MarkFirst(m: string, y: string)
    requires Mark(m) && Free(y, m)
    ensures OnlyAt(m + y, m, 0)
  {
    assert (m + y)[0..|m|] == m && (m + y)[|m|..] == y;
    Shift(m + y, m, |m|);
    forall j | 0 <= j <= |m + y| && At(m + y, m, j) ensures j == 0 {
      if 0 < j < |m| { NoOverlap(m + y, m, j); }
    }
  }

  // ----- the block

  function Tail(content: string, post: string): string { ['\n'] + (content + (['\n'] + (END + post))) }

  function Wrapped(content: string): string { BEGIN + ['\n'] + content + ['\n'] + END }

  function EndOffset(content: string): nat { |BEGIN| + |content| + 2 }

  lemma WrappedSplits(pre: string, content: string, post: string)
    ensures pre + Wrapped(content) + post == pre + (BEGIN + Tail(content, post))
  {
    assert Wrapped(content) + post == BEGIN + Tail(content, post);
  }

  predicate MarkFree(s: string) { Free(s, BEGIN) && Free(s, END) }

  lemma TailMarks(content: string, post: string)
    requires MarkFree(content) && MarkFree(post)
    ensures Free(Tail(content, post), BEGIN) && OnlyAt(Tail(content, post), END, |content| + 2)
  {
    Marks();
    var t5 := END + post;
    var t4 := ['\n'] + t5;
    var t3 := content + t4;
    MarkFirst(END, post);
    LeadMark(END, post, BEGIN);
    BehindLead(END, post, BEGIN);
    LeadNewline(t5, BEGIN);
    BehindLead(['\n'], t5, BEGIN);
    LeadNewline(t5, END);
    BehindLead(['\n'], t5, END);
    LeadFree(content, t4, BEGIN);
    BehindLead(content, t4, BEGIN);
    LeadFree(content, t4, END);
    BehindLead(content, t4, END);
    LeadNewline(t3, BEGIN);
    BehindLead(['\n'], t3, BEGIN);
    LeadNewline(t3, END);
    BehindLead(['\n'], t3, END);
  }

  /** A block in a text without marks: one pair of marks, where it was put. */
  lemma BlockMarks(pre: string, content: string, post: string)
    requires MarkFree(pre) && MarkFree(content) && MarkFree(post)
    ensures var s := pre + Wrapped(content) + post;
      OnlyAt(s, BEGIN, |pre|) && OnlyAt(s, END, |pre| + EndOffset(content))
  {
    Marks();
    var tail := Tail(content, post);
    TailMarks(content, post);
    MarkFirst(BEGIN, tail);
    LeadMark(BEGIN, tail, END);
    BehindLead(BEGIN, tail, END);
    LeadFree(pre, BEGIN + tail, BEGIN);
    BehindLead(pre, BEGIN + tail, BEGIN);
    LeadFree(pre, BEGIN + tail, END);
    BehindLead(pre, BEGIN + tail, END);
    WrappedSplits(pre, content, post);
  }

  // ----- inspection and installation

  /** Go's `strings.Index`, for a text that is there. */
  function Index(s: string, m: string): int {
    if |s| < |m| then -1
    else if m <= s then 0
    else
      var r := if s == [] then -1 else Index(s[1..], m);
      if r < 0 then -1 else r + 1
  }

  lemma {:induction false} IndexOfOnly(s: string, m: string, i: nat)
    requires m != [] && OnlyAt(s, m, i)
    ensures Index(s, m) == i
    decreases |s|
  {
    if m <= s {
      assert At(s, m, 0);
    } else {
      Shift(s, m, 1);
      assert i > 0;
      assert OnlyAt(s[1..], m, i - 1);
      IndexOfOnly(s[1..], m, i - 1);
    }
  }

  datatype Inspection = Malformed | Fresh | Update(begin: int, end: int)

  function Inspect(content: string): Inspection {
    var begins, ends := Count(content, BEGIN), Count(content, END);
    if begins == 0 && ends == 0 then Fresh
    else if begins == 1 && ends == 1 then
      var b, e := Index(content, BEGIN), Index(content, END);
      if e <= b then Malformed else Update(b, e)
    else Malformed
  }

  /** One pair of marks, in order. */
  ghost predicate OnePair(s: string, b: nat, e: nat) { OnlyAt(s, BEGIN, b) && OnlyAt(s, END, e) && b < e }

  /** The inspection says what is there: no marks, or one ordered pair, or anything else. */
  lemma InspectMeans(s: string)
    ensures Inspect(s).Fresh? <==> MarkFree(s)
    ensures forall b: nat, e: nat :: Inspect(s) == Update(b, e) <==> OnePair(s, b, e)
    ensures Inspect(s).Update? ==> Inspect(s).begin >= 0 && Inspect(s).end >= 0
  {
    Marks();
    CountZeroIff(s, BEGIN);
    CountZeroIff(s, END);
    CountOneIff(s, BEGIN);
    CountOneIff(s, END);
    forall b: nat | OnlyAt(s, BEGIN, b) ensures Index(s, BEGIN) == b { IndexOfOnly(s, BEGIN, b); }
    forall e: nat | OnlyAt(s, END, e) ensures Index(s, END) == e { IndexOfOnly(s, END, e); }
  }

  /** The marks of a pair do not overlap. */
  lemma PairApart(s: string, b: nat, e: nat)
    requires OnePair(s, b, e)
    ensures b + |BEGIN| <= e <= e + |END| <= |s|
  {
    Marks();
    if e < b + |BEGIN| {
      AtChar(s, END, e, 0);
      AtChar(s, BEGIN, b, e - b);
      assert false;
    }
  }

  function WithNewline(s: string): string {
    if s != [] && s[|s| - 1] != '\n' then s + ['\n'] else s
  }

  /** Builds the new file; none if the marks are not as they should be. No file is different from an empty one. */
  method InstallCopilot(existing: Option<string>, content: string) returns (r: Option<string>)
    ensures r == Install(existing, content)
  {
    var wrapped := BEGIN + ['\n'] + content + ['\n'] + END;
    var result := "";
    if existing.Some? {
      var text := existing.value;
      var inspection := Inspect(text);
      if inspection.Malformed? { return None; }
      if inspection.Update? {
        InspectMeans(text);
        PairApart(text, inspection.begin, inspection.end);
        result := text[..inspection.begin] + wrapped + text[inspection.end + |END|..];
      } else {
        result := text;
        if |result| > 0 && result[|result| - 1] != '\n' { result := result + ['\n']; }
        result := result + (['\n'] + wrapped + ['\n']);
      }
    } else {
      result := wrapped + ['\n'];
    }
    return Some(result);
  }

  /** The file after an installation. The positions of an inspection always lie in the text. */
  function Install(existing: Option<string>, content: string): Option<string> {
    if existing.None? then Some(Wrapped(content) + ['\n'])
    else
      var text := existing.value;
      var i := Inspect(text);
      if i.Malformed? then None
      else if i.Fresh? then Some(WithNewline(text) + (['\n'] + Wrapped(content) + ['\n']))
      else if 0 <= i.begin <= |text| && 0 <= i.end && i.end + |END| <= |text|
      then Some(text[..i.begin] + Wrapped(content) + text[i.end + |END|..])
      else None
  }

  /** An installation works exactly on a file that is missing, has no marks, or has one ordered pair of them. */
  lemma InstallWorksIff(existing: Option<string>, content: string)
    ensures Install(existing, content).Some? <==>
      existing.None? || MarkFree(existing.value) || exists b: nat, e: nat :: OnePair(existing.value, b, e)
  {
    if existing.Some? {
      InspectMeans(existing.value);
      var i := Inspect(existing.value);
      if i.Update? {
        assert OnePair(existing.value, i.begin, i.end);
        PairApart(existing.value, i.begin, i.end);
      }
    }
  }

  lemma FreeNewlines(s: string)
    requires MarkFree(s)
    ensures MarkFree(s + ['\n'])
  {
    Marks();
    NewlineFree();
    LeadFree(s, ['\n'], BEGIN);
    LeadFree(s, ['\n'], END);
    BehindLead(s, ['\n'], BEGIN);
    BehindLead(s, ['\n'], END);
  }

  lemma NewlineFree()
    ensures MarkFree(['\n']) && MarkFree([])
  {
    Marks();
  }

  /** What surrounds the block after an installation: the text outside the old block, or the text that was there. */
  lemma InstalledParts(existing: Option<string>, content: string) returns (pre: string, post: string)
    requires Install(existing, content).Some?
    ensures Install(existing, content).value == pre + Wrapped(content) + post && MarkFree(pre) && MarkFree(post)
    ensures existing.None? ==> pre == [] && post == ['\n']
    ensures existing.Some? && MarkFree(existing.value) ==> pre == WithNewline(existing.value) + ['\n'] && post == ['\n']
    ensures existing.Some? && !MarkFree(existing.value) ==>
      exists b: nat, e: nat :: OnePair(existing.value, b, e) && e + |END| <= |existing.value| &&
        pre == existing.value[..b] && post == existing.value[e + |END|..]
  {
    NewlineFree();
    if existing.None? {
      pre, post := [], ['\n'];
      assert [] + Wrapped(content) + ['\n'] == Wrapped(content) + ['\n'];
    } else {
      var text := existing.value;
      InspectMeans(text);
      if MarkFree(text) {
        pre, post := WithNewline(text) + ['\n'], ['\n'];
        FreeNewlines(text);
        FreeNewlines(WithNewline(text));
        Regroup(WithNewline(text), Wrapped(content));
      } else {
        var i := Inspect(text);
        assert i.Update?;
        assert OnePair(text, i.begin, i.end);
        OutsideFree(text, i.begin, i.end);
        pre, post := text[..i.begin], text[i.end + |END|..];
      }
    }
  }

  lemma Regroup(text: string, wrapped: string)
    ensures text + (['\n'] + wrapped + ['\n']) == text + ['\n'] + wrapped + ['\n']
  {
  }

  lemma OutsideFree(s: string, b: nat, e: nat)
    requires OnePair(s, b, e)
    ensures e + |END| <= |s| && MarkFree(s[..b]) && MarkFree(s[e + |END|..])
  {
    PairApart(s, b, e);
    OutsideFreeOf(s, BEGIN, b, b, e + |END|);
    OutsideFreeOf(s, END, e, b, e + |END|);
  }

  lemma OutsideFreeOf(s: string, m: string, i: nat, b: nat, after: nat)
    requires OnlyAt(s, m, i) && b <= i < after <= |s| && m != []
    ensures Free(s[..b], m) && Free(s[after..], m)
  {
    forall k | 0 <= k <= b ensures !At(s[..b], m, k) {
      if At(s[..b], m, k) {
        assert s[k..k + |m|] == s[..b][k..k + |m|];
        assert At(s, m, k);
      }
    }
    Shift(s, m, after);
  }

  /** Installing content without marks leaves exactly one ordered pair of marks, and installing it again changes nothing. */
  lemma InstallIsIdempotent(existing: Option<string>, content: string)
    requires Install(existing, content).Some? && MarkFree(content)
    ensures var r := Install(existing, content).value;
      && (exists b: nat, e: nat :: OnePair(r, b, e))
      && Install(Some(r), content) == Some(r)
  {
    var pre, post := InstalledParts(existing, content);
    var r := Install(existing, content).value;
    BlockMarks(pre, content, post);
    var b, e := |pre|, |pre| + EndOffset(content);
    assert OnePair(r, b, e);
    InspectMeans(r);
    assert Inspect(r) == Update(b, e);
    Outside(pre, content, post);
  }

  lemma Outside(pre: string, content: string, post: string)
    ensures var s, e := pre + Wrapped(content) + post, |pre| + EndOffset(content);
      s[..|pre|] == pre && e + |END| <= |s| && s[e + |END|..] == post
  {
  }

  /** A mark at two places. */
  lemma TwiceIsMalformed(s: string, m: string, i: nat, j: nat)
    requires (m == BEGIN || m == END) && At(s, m, i) && At(s, m, j) && i != j
    ensures Inspect(s).Malformed?
  {
    Marks();
    InspectMeans(s);
    CountZeroIff(s, m);
    CountOneIff(s, m);
  }

  lemma BlockHas(pre: string, content: string, post: string, m: string, k: nat)
    requires At(content, m, k)
    ensures var s := pre + Wrapped(content) + post;
      && At(s, BEGIN, |pre|) && At(s, END, |pre| + EndOffset(content)) && At(s, m, |pre| + |BEGIN| + 1 + k)
  {
    Parts(pre, BEGIN, content, END, post);
    var x := pre + BEGIN + ['\n'];
    Inside(x, content, ['\n'] + END + post, m, k);
    Inside(pre, BEGIN, ['\n'] + content + ['\n'] + END + post, BEGIN, 0);
    Inside(x + content + ['\n'], END, post, END, 0);
  }

  lemma Parts(pre: string, b: string, content: string, e: string, post: string)
    ensures pre + (b + ['\n'] + content + ['\n'] + e) + post == pre + b + ['\n'] + content + (['\n'] + e + post)
    ensures pre + (b + ['\n'] + content + ['\n'] + e) + post == pre + b + (['\n'] + content + ['\n'] + e + post)
    ensures pre + (b + ['\n'] + content + ['\n'] + e) + post == pre + b + ['\n'] + content + ['\n'] + e + post
  {
  }

  lemma MarkedBlockIsMalformed(pre: string, content: string, post: string)
    requires !MarkFree(content)
    ensures Inspect(pre + Wrapped(content) + post).Malformed?
  {
    var r := pre + Wrapped(content) + post;
    if Free(content, BEGIN) {
      var k := Somewhere(content, END);
      BlockHas(pre, content, post, END, k);
      assert k + |END| <= |content|;
      TwiceIsMalformed(r, END, |pre| + EndOffset(content), |pre| + |BEGIN| + 1 + k);
    } else {
      var k := Somewhere(content, BEGIN);
      BlockHas(pre, content, post, BEGIN, k);
      TwiceIsMalformed(r, BEGIN, |pre|, |pre| + |BEGIN| + 1 + k);
    }
  }

  /** Content that holds a mark makes the next installation fail. */
  lemma MarkedContentBreaks(existing: Option<string>, content: string)
    requires Install(existing, content).Some? && !MarkFree(content)
    ensures Install(Some(Install(existing, content).value), content).None?
  {
    var pre, post := InstalledParts(existing, content);
    MarkedBlockIsMalformed(pre, content, post);
  }

  lemma Somewhere(s: string, m: string) returns (k: nat)
    requires !Free(s, m)
    ensures At(s, m, k)
  {
    k :| 0 <= k <= |s| && At(s, m, k);
  }

  lemma Inside(x: string, s: string, y: string, m: string, k: nat)
    requires At(s, m, k)
    ensures At(x + s + y, m, |x| + k)
  {
    assert (x + s + y)[|x| + k..|x| + k + |m|] == s[k..k + |m|];
  }

  /** A second installation leaves the file alone exactly if the content holds no marks. */
  lemma SecondInstallIff(existing: Option<string>, content: string)
    requires Install(existing, content).Some?
    ensures Install(Install(existing, content), content) == Install(existing, content) <==> MarkFree(content)
  {
    if MarkFree(content) { InstallIsIdempotent(existing, content); } else { MarkedContentBreaks(existing, content); }
  }
}
