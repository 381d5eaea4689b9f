/** Slug identifiers and unique slugs of bounded length (internal/agent/slug.go). */
module SlugId {
  import opened Text
  import opened Decimal

  const MAX_SLUG_LENGTH: nat := 128
  const MAX_SUFFIX_LENGTH: nat := 10

  predicate Plain(c: char) { 'a' <= c <= 'z' || '0' <= c <= '9' }

  predicate SlugChars(s: string) { forall i :: 0 <= i < |s| ==> Plain(s[i]) || s[i] == '-' }

  predicate NoDouble(s: string) { forall i :: 0 <= i < |s| - 1 ==> s[i] != '-' || s[i + 1] != '-' }

  /** Non-empty, no hyphen at either end and no two in a row. */
  predicate ValidSlug(s: string) {
    s != [] && SlugChars(s) && NoDouble(s) && s[0] != '-' && s[|s| - 1] != '-'
  }

  // ----- the pattern

  predicate PlainPart(p: string) { p != [] && forall i :: 0 <= i < |p| ==> Plain(p[i]) }

  /** What the pattern says: parts of lower-case letters and digits with single hyphens between them. */
  predicate MatchesPattern(s: string, parts: seq<string>) {
    parts != [] && (forall i :: 0 <= i < |parts| ==> PlainPart(parts[i])) && s == Join(parts, "-")
  }

  lemma {:induction false} PatternIsValid(s: string, parts: seq<string>)
    requires MatchesPattern(s, parts)
    ensures ValidSlug(s)
    decreases |parts|
  {
    assert PlainPart(parts[0]);
    if |parts| > 1 {
      var rest := Join(parts[1..], "-");
      PatternIsValid(rest, parts[1..]);
      GluedValid(parts[0], rest);
    }
  }

  lemma GluedValid(p: string, rest: string)
    requires PlainPart(p) && ValidSlug(rest)
    ensures ValidSlug(p + "-" + rest)
  {
    var s := p + "-" + rest;
    assert forall i :: 0 <= i < |s| ==> s[i] == if i < |p| then p[i] else if i == |p| then '-' else rest[i - |p| - 1];
  }

  lemma {:induction false} ValidHasPattern(s: string) returns (parts: seq<string>)
    requires ValidSlug(s)
    ensures MatchesPattern(s, parts)
    decreases |s|
  {
    var n := FirstHyphen(s);
    if n == |s| {
      parts := [s];
    } else {
      var rest := s[n + 1..];
      assert s[n - 1] != '-' && s[n + 1] != '-';
      assert forall i :: 0 <= i < |rest| ==> rest[i] == s[i + n + 1];
      parts := ValidHasPattern(rest);
      assert s == s[..n] + "-" + rest;
      assert ([s[..n]] + parts)[1..] == parts;
      parts := [s[..n]] + parts;
    }
  }

  lemma {:induction false} FirstHyphen(s: string) returns (n: nat)
    ensures n <= |s| && (forall i :: 0 <= i < n ==> s[i] != '-') && (n < |s| ==> s[n] == '-')
  {
    n := 0;
    while n < |s| && s[n] != '-'
      invariant n <= |s| && forall i :: 0 <= i < n ==> s[i] != '-'
    {
      n := n + 1;
    }
  }

  // ----- making a slug

  function Lower(c: char): char {
    if 'A' <= c <= 'Z' then c - 'A' + 'a' else c
  }

  function LowerAll(s: string): string { seq(|s|, i requires 0 <= i < |s| => Lower(s[i])) }

  /** Every run of other characters becomes one hyphen. */
  function Squash(s: string, inRun: bool): string
    decreases |s|
  {
    if s == [] then []
    else if Plain(s[0]) then [s[0]] + Squash(s[1..], false)
    else if inRun then Squash(s[1..], true)
    else ['-'] + Squash(s[1..], true)
  }

  function DropLeft(s: string): string {
    if s != [] && s[0] == '-' then DropLeft(s[1..]) else s
  }

  function DropRight(s: string): string {
    if s != [] && s[|s| - 1] == '-' then DropRight(s[..|s| - 1]) else s
  }

  function GenerateSlugId(name: string): string {
    DropRight(DropLeft(Squash(LowerAll(Trim(name)), false)))
  }

  lemma {:induction false} SquashClean(s: string, inRun: bool)
    ensures SlugChars(Squash(s, inRun)) && NoDouble(Squash(s, inRun))
    ensures inRun && Squash(s, inRun) != [] ==> Squash(s, inRun)[0] != '-'
    decreases |s|
  {
    if s != [] {
      if Plain(s[0]) {
        SquashClean(s[1..], false);
        PrependClean(s[0], Squash(s[1..], false));
      } else {
        SquashClean(s[1..], true);
        if !inRun { PrependClean('-', Squash(s[1..], true)); }
      }
    }
  }

  lemma PrependClean(c: char, s: string)
    requires SlugChars(s) && NoDouble(s) && (Plain(c) || c == '-') && (c == '-' && s != [] ==> s[0] != '-')
    ensures SlugChars([c] + s) && NoDouble([c] + s)
  {
    var t := [c] + s;
    assert forall i :: 0 < i < |t| ==> t[i] == s[i - 1];
  }

  lemma {:induction false} DropLeftClean(s: string)
    requires SlugChars(s) && NoDouble(s)
    ensures var r := DropLeft(s); SlugChars(r) && NoDouble(r) && (r != [] ==> r[0] != '-')
  {
    if s != [] && s[0] == '-' {
      assert forall i :: 0 <= i < |s| - 1 ==> s[1..][i] == s[i + 1];
      DropLeftClean(s[1..]);
    }
  }

  lemma {:induction false} DropRightClean(s: string)
    requires SlugChars(s) && NoDouble(s) && (s != [] ==> s[0] != '-')
    ensures var r := DropRight(s); r == [] || ValidSlug(r)
  {
    if s != [] && s[|s| - 1] == '-' { DropRightClean(s[..|s| - 1]); }
  }

  /** A generated slug is empty or valid. */
  lemma GeneratedIsValid(name: string)
    ensures GenerateSlugId(name) == "" || ValidSlug(GenerateSlugId(name))
  {
    var s := Squash(LowerAll(Trim(name)), false);
    SquashClean(LowerAll(Trim(name)), false);
    DropLeftClean(s);
    DropRightClean(DropLeft(s));
  }

  lemma {:induction false} SquashFixed(s: string, inRun: bool)
    requires SlugChars(s) && NoDouble(s) && (inRun && s != [] ==> s[0] != '-')
    ensures Squash(s, inRun) == s
    decreases |s|
  {
    if s != [] {
      assert forall i :: 0 <= i < |s| - 1 ==> s[1..][i] == s[i + 1];
      SquashFixed(s[1..], !Plain(s[0]));
    }
  }

  /** A valid slug is its own slug. */
  lemma ValidIsFixed(s: string)
    requires ValidSlug(s)
    ensures GenerateSlugId(s) == s
  {
    assert !IsSpace(s[0]) && !IsSpace(s[|s| - 1]);
    TrimFixed(s);
    assert LowerAll(s) == s;
    SquashFixed(s, false);
  }

  // ----- a unique one

  function Base(name: string, fallback: string): string {
    var slug := GenerateSlugId(name);
    var base := if slug == "" then fallback else slug;
    if |base| > MAX_SLUG_LENGTH - MAX_SUFFIX_LENGTH then base[..MAX_SLUG_LENGTH - MAX_SUFFIX_LENGTH] else base
  }

  function Candidate(base: string, i: nat): string { base + ['-'] + Dec(i) }

  /** The base and its candidates numbered below i. */
  function Tried(base: string, i: nat): set<string> {
    if i <= 2 then {base} else Tried(base, i - 1) + {Candidate(base, i - 1)}
  }

  lemma {:induction false} TriedHolds(base: string, i: nat, id: string)
    requires id in Tried(base, i)
    ensures id == base || exists k :: 2 <= k < i && id == Candidate(base, k)
  {
    if i > 2 {
      if id == Candidate(base, i - 1) { assert 2 <= i - 1 < i; } else { TriedHolds(base, i - 1, id); }
    }
  }

  lemma CandidatesDiffer(base: string, i: nat, k: nat)
    ensures Candidate(base, i) != base && (Candidate(base, i) == Candidate(base, k) ==> i == k)
  {
    assert |Candidate(base, i)| > |base|;
    if Candidate(base, i) == Candidate(base, k) {
      assert Dec(i) == Candidate(base, i)[|base| + 1..] && Dec(k) == Candidate(base, k)[|base| + 1..];
      DecInjective(i, k);
    }
  }

  lemma {:induction false} TriedSize(base: string, i: nat)
    requires i >= 2
    ensures |Tried(base, i)| == i - 1
  {
    if i > 2 {
      TriedSize(base, i - 1);
      var next := Candidate(base, i - 1);
      CandidatesDiffer(base, i - 1, 0);
      if next in Tried(base, i - 1) {
        TriedHolds(base, i - 1, next);
        var k :| 2 <= k < i - 1 && next == Candidate(base, k);
        CandidatesDiffer(base, i - 1, k);
        assert false;
      }
    }
  }

  lemma {:induction false} SubsetSize<T>(a: set<T>, b: set<T>)
    requires a <= b
    ensures |a| <= |b|
  {
    if a != {} {
      var x :| x in a;
      SubsetSize(a - {x}, b - {x});
    }
  }

  /** A suffix makes a valid slug out of the base exactly if the base is one. */
  lemma CandidateValidIff(base: string, i: nat)
    ensures ValidSlug(Candidate(base, i)) <==> ValidSlug(base)
  {
    DecReads(i);
    var s, d := Candidate(base, i), Dec(i);
    assert forall k :: 0 <= k < |s| ==> s[k] == if k < |base| then base[k] else if k == |base| then '-' else d[k - |base| - 1];
    if base != [] {
      assert s[|base| - 1] == base[|base| - 1] && s[|base|] == '-';
    }
  }

  lemma CandidateLength(base: string, i: nat)
    requires |base| <= 118 && i < Power10(9)
    ensures |Candidate(base, i)| <= 128
  {
    DecLength(i, 9);
  }

  /** The last resort, tried by nobody, can be one character too long. */
  lemma LastResortLength(base: string)
    ensures |Candidate(base, Power10(9))| == |base| + 11
  {
    DecLength(Power10(9), 9);
    DecLength(Power10(9), 10);
  }

  /** Cutting a long slug leaves a slug unless the cut comes right behind a hyphen. */
  lemma TruncatedValidIff(s: string)
    requires ValidSlug(s) && |s| > 118
    ensures ValidSlug(s[..118]) <==> s[117] != '-'
  {
  }

  lemma {:induction false} TriedHas(base: string, i: nat, n: nat)
    requires 2 <= i < n
    ensures Candidate(base, i) in Tried(base, n)
  {
    if i < n - 1 { TriedHas(base, i, n - 1); }
  }

  /** The base and all its candidates with up to nine digits are taken. */
  predicate AllTaken(base: string, existing: set<string>) { Tried(base, Power10(9)) <= existing }

  /** The first of the base and its candidates that is not taken, or else the candidate with ten digits. */
  ghost predicate FirstFree(base: string, existing: set<string>, id: string) {
    || (id == base && id !in existing)
    || (exists i :: 2 <= i < Power10(9) && id == Candidate(base, i) && id !in existing && Tried(base, i) <= existing)
    || (id == Candidate(base, Power10(9)) && AllTaken(base, existing))
  }

  lemma {:induction false} TriedGrows(base: string, i: nat, n: nat)
    requires i <= n
    ensures Tried(base, i) <= Tried(base, n) && base in Tried(base, n)
  {
    if i < n { TriedGrows(base, i, n - 1); } else if i > 2 { TriedGrows(base, i - 1, n - 1); }
  }

  /** What being the first free one comes to. */
  lemma FirstFreeMeans(base: string, existing: set<string>, id: string)
    requires |base| <= 118 && FirstFree(base, existing, id)
    ensures ValidSlug(id) <==> ValidSlug(base)
    ensures |id| > 128 <==> |base| == 118 && AllTaken(base, existing)
    ensures id in existing <==> AllTaken(base, existing) && Candidate(base, Power10(9)) in existing
    ensures |existing| < Power10(9) - 1 ==> !AllTaken(base, existing)
  {
    PowerGrows(9);
    TriedGrows(base, 2, Power10(9));
    TriedSize(base, Power10(9));
    if AllTaken(base, existing) { SubsetSize(Tried(base, Power10(9)), existing); }
    LastResortLength(base);
    CandidateValidIff(base, Power10(9));
    if i :| 2 <= i < Power10(9) && id == Candidate(base, i) && id !in existing && Tried(base, i) <= existing {
      TriedHas(base, i, Power10(9));
      CandidateValidIff(base, i);
      CandidateLength(base, i);
    }
  }

  /** The first free slug; too long exactly if the base is as long as it may be and everything was taken. */
  method UniqueId(name: string, existing: set<string>, fallback: string) returns (id: string)
    ensures FirstFree(Base(name, fallback), existing, id)
    ensures ValidSlug(id) <==> ValidSlug(Base(name, fallback))
    ensures |id| > 128 <==> |Base(name, fallback)| == 118 && AllTaken(Base(name, fallback), existing)
    ensures id in existing <==>
      AllTaken(Base(name, fallback), existing) && Candidate(Base(name, fallback), Power10(9)) in existing
    ensures |existing| < Power10(9) - 1 ==> id !in existing && |id| <= 128
  {
    var base := Base(name, fallback);
    id := base;
    if id !in existing {
      FirstFreeMeans(base, existing, id);
      return;
    }
    var maxSuffix := 1;
    for n := MAX_SUFFIX_LENGTH - 1 downto 0
      invariant maxSuffix == Power10(MAX_SUFFIX_LENGTH - 1 - n)
    {
      maxSuffix := maxSuffix * 10;
    }
    PowerGrows(9);
    for i := 2 to maxSuffix
      invariant Tried(base, i) <= existing
    {
      id := Candidate(base, i);
      if id !in existing {
        FirstFreeMeans(base, existing, id);
        return;
      }
    }
    id := Candidate(base, maxSuffix);
    FirstFreeMeans(base, existing, id);
  }
}
