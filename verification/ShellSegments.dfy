/** What the segment scanner keeps, what it drops, and how it agrees with the search for unsupported constructs. */
module ShellSegments {
  import opened Text
  import opened ShellScan

  // ----- nothing is lost

  function Interleaved(pieces: seq<string>, cuts: seq<string>): string
    requires |pieces| == |cuts| + 1
  {
    if cuts == [] then pieces[0] else pieces[0] + (cuts[0] + Interleaved(pieces[1..], cuts[1..]))
  }

  predicate IsCut(c: string) { c in {";", "\n", "|", "||", "&", "&&"} }

  /** Pieces and separators in turn are the whole text. */
  lemma {:induction false} PiecesAreLossless(s: string, q: Quote)
    ensures |Pieces(s, q)| == |Cuts(s, q)| + 1 && Interleaved(Pieces(s, q), Cuts(s, q)) == s
    ensures forall i :: 0 <= i < |Cuts(s, q)| ==> IsCut(Cuts(s, q)[i])
    decreases |s|
  {
    if s != [] {
      if Active(q, s[0]) {
        var n := SeparatorLength(s);
        PiecesAreLossless(s[n..], PLAIN);
        CutAtFront(s, n);
        assert Pieces(s, q)[1..] == Pieces(s[n..], PLAIN) && Cuts(s, q)[1..] == Cuts(s[n..], PLAIN);
      } else {
        PiecesAreLossless(s[1..], Step(q, s[0]));
        var r := Pieces(s[1..], Step(q, s[0]));
        assert Pieces(s, q)[1..] == r[1..];
        GluedFront(s[0], r, Cuts(s, q));
      }
    }
  }

  lemma CutAtFront(s: string, n: nat)
    requires s != [] && Separates(s[0]) && n == SeparatorLength(s)
    ensures IsCut(s[..n]) && s == [] + (s[..n] + s[n..])
  {
    assert n == 1 ==> s[..n] == [s[0]];
    assert n == 2 ==> s[..n] == [s[0], s[0]];
  }

  lemma GluedFront(c: char, r: seq<string>, cuts: seq<string>)
    requires |r| == |cuts| + 1
    ensures Interleaved([[c] + r[0]] + r[1..], cuts) == [c] + Interleaved(r, cuts)
  {
    var p := [[c] + r[0]] + r[1..];
    if cuts != [] {
      assert p[1..] == r[1..];
      assert [c] + r[0] + (cuts[0] + Interleaved(r[1..], cuts[1..])) == [c] + (r[0] + (cuts[0] + Interleaved(r[1..], cuts[1..])));
    }
  }

  // ----- no piece has an active separator

  predicate NoActive(s: string, q: Quote)
    decreases |s|
  {
    s == [] || (!Active(q, s[0]) && NoActive(s[1..], Step(q, s[0])))
  }

  lemma {:induction false} PiecesHaveNoActive(s: string, q: Quote)
    ensures NoActive(Pieces(s, q)[0], q)
    ensures forall k :: 0 < k < |Pieces(s, q)| ==> NoActive(Pieces(s, q)[k], PLAIN)
    decreases |s|
  {
    if s != [] {
      if Active(q, s[0]) {
        PiecesHaveNoActive(s[SeparatorLength(s)..], PLAIN);
      } else {
        PiecesHaveNoActive(s[1..], Step(q, s[0]));
        var r := Pieces(s[1..], Step(q, s[0]));
        assert ([s[0]] + r[0])[1..] == r[0];
      }
    }
  }

  lemma {:induction false} NoActiveIsOnePiece(s: string, q: Quote)
    requires NoActive(s, q)
    ensures Pieces(s, q) == [s]
    decreases |s|
  {
    if s != [] {
      NoActiveIsOnePiece(s[1..], Step(q, s[0]));
      assert [s[0]] + s[1..] == s;
    }
  }

  lemma {:induction false} NoActivePrefix(s: string, n: nat, q: Quote)
    requires n <= |s| && NoActive(s, q)
    ensures NoActive(s[..n], q)
    decreases |s|
  {
    if n > 0 {
      NoActivePrefix(s[1..], n - 1, Step(q, s[0]));
      assert s[..n][1..] == s[1..][..n - 1];
    }
  }

  lemma {:induction false} NoActiveTrimLeft(s: string)
    requires NoActive(s, PLAIN)
    ensures NoActive(TrimLeft(s), PLAIN)
  {
    if s != [] && IsSpace(s[0]) { NoActiveTrimLeft(s[1..]); }
  }

  lemma NoActiveTrim(s: string)
    requires NoActive(s, PLAIN)
    ensures NoActive(Trim(s), PLAIN)
  {
    NoActiveTrimLeft(s);
    TrimRightCuts(TrimLeft(s));
    NoActivePrefix(TrimLeft(s), |Trim(s)|, PLAIN);
  }

  /** Every kept segment is the trimmed text of some piece. */
  lemma {:induction false} KeptFrom(pieces: seq<string>, segment: string) returns (k: nat)
    requires segment in Kept(pieces)
    ensures k < |pieces| && segment == Trim(pieces[k]) && segment != ""
  {
    if segment != "" && Trim(pieces[0]) == segment {
      k := 0;
    } else {
      k := KeptFrom(pieces[1..], segment);
      k := k + 1;
    }
  }

  /** A segment scanned on its own, from the beginning, has no active separator. */
  lemma SegmentHasNoActive(command: string, segment: string)
    requires segment in Segments(command)
    ensures NoActive(segment, PLAIN) && segment != "" && Trim(segment) == segment
  {
    var text := Trim(Normalize(command));
    var k := KeptFrom(Pieces(text, PLAIN), segment);
    PiecesHaveNoActive(text, PLAIN);
    NoActiveTrim(Pieces(text, PLAIN)[k]);
    TrimTwice(Pieces(text, PLAIN)[k]);
  }

  // ----- splitting again

  predicate HasCrLf(s: string) { exists i :: 0 <= i < |s| - 1 && s[i] == '\r' && s[i + 1] == '\n' }

  lemma {:induction false} NormalizeFixed(s: string)
    ensures HasCrLf(s) ==> |Normalize(s)| < |s|
    ensures !HasCrLf(s) ==> Normalize(s) == s
  {
    if s != [] {
      var n := if |s| > 1 && s[0] == '\r' && s[1] == '\n' then 2 else 1;
      NormalizeFixed(s[n..]);
      assert n == 2 ==> HasCrLf(s);
      if n == 1 {
        assert HasCrLf(s[1..]) ==> HasCrLf(s) by {
          if HasCrLf(s[1..]) {
            var i :| 0 <= i < |s[1..]| - 1 && s[1..][i] == '\r' && s[1..][i + 1] == '\n';
            assert s[i + 1] == '\r' && s[i + 1 + 1] == '\n';
          }
        }
        if HasCrLf(s) {
          var i :| 0 <= i < |s| - 1 && s[i] == '\r' && s[i + 1] == '\n';
          assert s[1..][i - 1] == '\r' && s[1..][i] == '\n';
        }
      }
    }
  }

  lemma {:induction false} PiecesAreShort(s: string, q: Quote)
    ensures forall k :: 0 <= k < |Pieces(s, q)| ==> |Pieces(s, q)[k]| <= |s|
    decreases |s|
  {
    if s != [] {
      if Active(q, s[0]) { PiecesAreShort(s[SeparatorLength(s)..], PLAIN); }
      else { PiecesAreShort(s[1..], Step(q, s[0])); }
    }
  }

  lemma TrimShorter(s: string)
    ensures |Trim(s)| <= |s|
  {
    TrimLeftCuts(s);
    TrimRightCuts(TrimLeft(s));
  }

  /** Splitting a segment again gives just that segment, exactly if it has no carriage return before a line feed. */
  lemma ResplitIff(command: string, segment: string)
    requires segment in Segments(command)
    ensures Segments(segment) == [segment] <==> !HasCrLf(segment)
  {
    SegmentHasNoActive(command, segment);
    NormalizeFixed(segment);
    if !HasCrLf(segment) {
      NoActiveIsOnePiece(segment, PLAIN);
      assert [segment][1..] == [] && Kept([segment]) == [Trim(segment)];
    } else if Segments(segment) == [segment] {
      var text := Trim(Normalize(segment));
      assert segment in Segments(segment);
      var k := KeptFrom(Pieces(text, PLAIN), segment);
      PiecesAreShort(text, PLAIN);
      TrimShorter(Pieces(text, PLAIN)[k]);
      TrimShorter(Normalize(segment));
      assert false;
    }
  }

  /** A quoted carriage return that survives in a segment: splitting the segment again changes it. */
  lemma ResplitCanChange()
    ensures var segment := Quoted("\r\n");
      Segments(Quoted("\r\r\n")) == [segment] && Segments(segment) == [Quoted("\n")]
  {
    assert Quoted("\r\n")[1..] == "\r\n\"" && "\r\n\""[2..] == "\"" && "\""[1..] == "";
    assert Normalize("\"") == "\"" && Normalize("\r\n\"") == "\n\"";
    assert Normalize(Quoted("\r\n")) == Quoted("\n");
    assert Quoted("\r\r\n")[1..] == "\r\r\n\"" && "\r\r\n\""[1..] == "\r\n\"";
    assert Normalize("\r\r\n\"") == "\r\n\"";
    assert Normalize(Quoted("\r\r\n")) == Quoted("\r\n");
    QuotedIsSegment("\r\n");
    QuotedIsSegment("\n");
  }

  function Quoted(m: string): string { ['"'] + m + ['"'] }

  lemma QuotedIsSegment(m: string)
    requires '"' !in m && '\\' !in m
    ensures Kept(Pieces(Trim(Quoted(m)), PLAIN)) == [Quoted(m)]
  {
    var s := Quoted(m);
    TrimFixed(s);
    InsideQuotes(m);
    assert s[1..] == m + ['"'];
    NoActiveIsOnePiece(s, PLAIN);
    assert [s][1..] == [];
  }

  lemma {:induction false} InsideQuotes(m: string)
    requires '"' !in m && '\\' !in m
    ensures NoActive(m + ['"'], Quote(false, true, false))
  {
    if m == [] {
      assert m + ['"'] == ['"'] && ['"'][1..] == [];
    } else {
      assert (m + ['"'])[1..] == m[1..] + ['"'];
      InsideQuotes(m[1..]);
    }
  }

  // ----- unsupported constructs

  /** Replacing line ends changes neither the quote state behind them nor the constructs. */
  lemma {:induction false} NormalizeKeepsConstructs(s: string, q: Quote)
    ensures Unsupported(Normalize(s), q) <==> Unsupported(s, q)
    decreases |s|
  {
    if s != [] {
      if |s| > 1 && s[0] == '\r' && s[1] == '\n' {
        assert s[1..][1..] == s[2..];
        NormalizeKeepsConstructs(s[2..], Step(q, '\n'));
        assert Normalize(s)[1..] == Normalize(s[2..]);
      } else {
        NormalizeKeepsConstructs(s[1..], Step(q, s[0]));
        assert Normalize(s)[1..] == Normalize(s[1..]);
        NormalizeFront(s[1..]);
      }
    }
  }

  /** The next character is the same, or a line end before and after. */
  lemma NormalizeFront(s: string)
    ensures s == [] <==> Normalize(s) == []
    ensures s != [] ==> Normalize(s)[0] == s[0] || (s[0] == '\r' && Normalize(s)[0] == '\n')
  {
  }

  lemma {:induction false} TrimLeftKeepsConstructs(s: string)
    ensures Unsupported(TrimLeft(s), PLAIN) <==> Unsupported(s, PLAIN)
  {
    if s != [] && IsSpace(s[0]) { TrimLeftKeepsConstructs(s[1..]); }
  }

  lemma {:induction false} SpacesHaveNoConstructs(s: string, q: Quote)
    requires forall i :: 0 <= i < |s| ==> IsSpace(s[i])
    ensures !Unsupported(s, q)
    decreases |s|
  {
    if s != [] { SpacesHaveNoConstructs(s[1..], Step(q, s[0])); }
  }

  lemma {:induction false} EndSpacesKeepConstructs(a: string, b: string, q: Quote)
    requires forall i :: 0 <= i < |b| ==> IsSpace(b[i])
    ensures Unsupported(a + b, q) <==> Unsupported(a, q)
    decreases |a|
  {
    if a == [] {
      assert a + b == b;
      SpacesHaveNoConstructs(b, q);
    } else {
      assert (a + b)[1..] == a[1..] + b;
      EndSpacesKeepConstructs(a[1..], b, Step(q, a[0]));
    }
  }

  lemma TrimKeepsConstructs(s: string)
    ensures Unsupported(Trim(s), PLAIN) <==> Unsupported(s, PLAIN)
  {
    var l := TrimLeft(s);
    TrimLeftKeepsConstructs(s);
    TrimRightCuts(l);
    assert l == Trim(s) + l[|Trim(s)|..];
    EndSpacesKeepConstructs(Trim(s), l[|Trim(s)|..], PLAIN);
  }

  predicate SomeUnsupported(pieces: seq<string>) {
    exists k :: 0 <= k < |pieces| && Unsupported(pieces[k], PLAIN)
  }

  /** A text has a construct exactly if one of its pieces has. */
  lemma {:induction false} PiecesShareConstructs(s: string, q: Quote)
    ensures Unsupported(s, q) <==> Unsupported(Pieces(s, q)[0], q) || SomeUnsupported(Pieces(s, q)[1..])
    decreases |s|
  {
    if s != [] {
      if Active(q, s[0]) {
        var n := SeparatorLength(s);
        PiecesShareConstructs(s[n..], PLAIN);
        SeparatorHasNoConstruct(s, n);
        assert Pieces(s, q)[1..] == Pieces(s[n..], PLAIN);
        FirstOrRest(Pieces(s[n..], PLAIN));
      } else {
        var r := Pieces(s[1..], Step(q, s[0]));
        PiecesShareConstructs(s[1..], Step(q, s[0]));
        assert Pieces(s, q)[0][1..] == r[0] && Pieces(s, q)[1..] == r[1..];
        PieceFront(s[1..], Step(q, s[0]));
      }
    }
  }

  lemma FirstOrRest(pieces: seq<string>)
    requires pieces != []
    ensures SomeUnsupported(pieces) <==> Unsupported(pieces[0], PLAIN) || SomeUnsupported(pieces[1..])
  {
    if SomeUnsupported(pieces) {
      var k :| 0 <= k < |pieces| && Unsupported(pieces[k], PLAIN);
      if k > 0 { assert pieces[1..][k - 1] == pieces[k]; }
    }
    if SomeUnsupported(pieces[1..]) {
      var k :| 0 <= k < |pieces[1..]| && Unsupported(pieces[1..][k], PLAIN);
      assert pieces[k + 1] == pieces[1..][k];
    }
  }

  lemma SeparatorHasNoConstruct(s: string, n: nat)
    requires s != [] && Separates(s[0]) && n == SeparatorLength(s)
    ensures Unsupported(s, PLAIN) <==> Unsupported(s[n..], PLAIN)
  {
    assert n == 2 ==> s[1..][1..] == s[2..];
  }

  /** A piece goes on with the text's next character unless that is an active separator. */
  lemma PieceFront(s: string, q: Quote)
    ensures Pieces(s, q)[0] != [] <==> s != [] && !Active(q, s[0])
    ensures Pieces(s, q)[0] != [] ==> Pieces(s, q)[0][0] == s[0]
  {
  }

  lemma {:induction false} KeptShareConstructs(pieces: seq<string>)
    ensures SomeUnsupported(Kept(pieces)) <==> SomeUnsupported(pieces)
  {
    if pieces != [] {
      KeptShareConstructs(pieces[1..]);
      FirstOrRest(pieces);
      TrimKeepsConstructs(pieces[0]);
      if Trim(pieces[0]) != "" {
        FirstOrRest(Kept(pieces));
        assert Kept(pieces)[1..] == Kept(pieces[1..]);
      } else {
        assert Kept(pieces) == Kept(pieces[1..]);
      }
    }
  }

  /** The two scanners agree: a command has an unsupported construct exactly if one of its segments, on its own, has one. */
  lemma ScannersAgree(command: string)
    ensures Unsupported(command, PLAIN) <==> SomeUnsupported(Segments(command))
  {
    var text := Trim(Normalize(command));
    NormalizeKeepsConstructs(command, PLAIN);
    TrimKeepsConstructs(Normalize(command));
    PiecesShareConstructs(text, PLAIN);
    FirstOrRest(Pieces(text, PLAIN));
    KeptShareConstructs(Pieces(text, PLAIN));
  }
}
