/** `post_process_transcription` of `daemon/src/transcription/mod.rs`: clean up
    the recogniser's text before it is typed. Trim; split on whitespace and drop
    each word equal to the one before it; join with single spaces; remove
    bracketed annotations `[..]`, `{..}`, `(..)` (leftmost, shortest match);
    one pass of double-space fixing; trim. */
module PostProcess {
  import opened Common

  /** A word of `split_whitespace`: non-empty, no whitespace. */
  predicate IsWord(w: string)
  {
    w != [] && forall i :: 0 <= i < |w| ==> !IsSpace(w[i])
  }

  /** Length of the leading run of non-whitespace characters. */
  function WordLen(s: string): (n: nat)
    ensures n <= |s|
    ensures forall i :: 0 <= i < n ==> !IsSpace(s[i])
    ensures n < |s| ==> IsSpace(s[n])
  {
    if s == [] || IsSpace(s[0]) then 0 else 1 + WordLen(s[1..])
  }

  /** `str::split_whitespace`: the maximal runs of non-whitespace characters, in order. */
  function SplitWhitespace(s: string): seq<string>
    decreases |s|
  {
    var t := TrimStart(s);
    if t == [] then []
    else
      var n := WordLen(t);
      [t[..n]] + SplitWhitespace(t[n..])
  }

  predicate AllWords(ws: seq<string>)
  {
    forall i :: 0 <= i < |ws| ==> IsWord(ws[i])
  }

  /** Every piece `split_whitespace` yields is a word. */
  lemma {:induction false} SplitWords(s: string)
    ensures AllWords(SplitWhitespace(s))
    decreases |s|
  {
    var t := TrimStart(s);
    if t != [] {
      var n := WordLen(t);
      SplitWords(t[n..]);
      var w := t[..n];
      assert IsWord(w);
      var rest := SplitWhitespace(t[n..]);
      assert SplitWhitespace(s) == [w] + rest;
      forall i | 0 <= i < |[w] + rest| ensures IsWord(([w] + rest)[i]) {
        if i > 0 { assert ([w] + rest)[i] == rest[i - 1]; }
      }
    }
  }

  /** `join(" ")`. */
  function Join(ws: seq<string>): string
  {
    if ws == [] then []
    else if |ws| == 1 then ws[0]
    else ws[0] + " " + Join(ws[1..])
  }

  /** The dedup loop's result: each word is kept unless the last kept word is
      the same string. Defined from the end, as the loop builds it. */
  function Dedup(ws: seq<string>): seq<string>
  {
    if ws == [] then []
    else
      var d := Dedup(ws[..|ws| - 1]);
      if d != [] && d[|d| - 1] == ws[|ws| - 1] then d else d + [ws[|ws| - 1]]
  }

  /** One step of the dedup loop. */
  lemma DedupSnoc(ws: seq<string>, w: string)
    ensures var d := Dedup(ws);
      Dedup(ws + [w]) == if d != [] && d[|d| - 1] == w then d else d + [w]
  {
    assert (ws + [w])[..|ws|] == ws;
  }

  predicate NoAdjacentRepeats(ws: seq<string>)
  {
    forall i :: 0 <= i < |ws| - 1 ==> ws[i] != ws[i + 1]
  }

  /** `str::replace("  ", " ")`: one left-to-right pass over non-overlapping
      occurrences of two spaces. */
  function ReplaceDoubleSpace(s: string): (r: string)
    ensures |r| <= |s|
  {
    if |s| >= 2 && s[0] == ' ' && s[1] == ' ' then " " + ReplaceDoubleSpace(s[2..])
    else if s == [] then []
    else [s[0]] + ReplaceDoubleSpace(s[1..])
  }

  predicate IsOpener(c: char)
  {
    c == '[' || c == '{' || c == '('
  }

  function CloserOf(c: char): char
  {
    if c == '[' then ']' else if c == '{' then '}' else ')'
  }

  predicate IsCloser(c: char)
  {
    c == ']' || c == '}' || c == ')'
  }

  /** Index of the first `close` in `s` that the lazy `.*?` can reach: the
      regex `.` does not match a line feed. */
  function FindClose(s: string, close: char): (r: Option<nat>)
    ensures r.Some? ==> r.value < |s| && s[r.value] == close
    ensures r.Some? ==> forall j :: 0 <= j < r.value ==> s[j] != close && s[j] != '\n'
  {
    if s == [] then None
    else if s[0] == close then Some(0)
    else if s[0] == '\n' then None
    else match FindClose(s[1..], close)
      case None => None
      case Some(k) => Some(k + 1)
  }

  /** `Regex::new(r"\[.*?\]|\{.*?\}|\(.*?\)").replace_all(s, "")`: scanning left
      to right, an opener that has a closer after it starts a match ending at the
      first such closer; the match is deleted and the scan resumes after it. */
  function RemoveSpans(s: string): (r: string)
    ensures |r| <= |s|
    decreases |s|
  {
    if s == [] then []
    else if IsOpener(s[0]) && FindClose(s[1..], CloserOf(s[0])).Some? then
      RemoveSpans(s[FindClose(s[1..], CloserOf(s[0])).value + 2..])
    else [s[0]] + RemoveSpans(s[1..])
  }

  /** The first half of the pipeline: trim, drop repeated neighbouring words,
      rejoin with single spaces, fix double spaces, trim. */
  function WordStage(text: string): string
  {
    Trim(ReplaceDoubleSpace(Join(Dedup(SplitWhitespace(Trim(text))))))
  }

  /** The second half: remove bracketed annotations, fix double spaces, trim. */
  function BracketStage(text: string): string
  {
    Trim(ReplaceDoubleSpace(RemoveSpans(text)))
  }

  /** The whole pipeline, in the order the source reassigns `text`. */
  function PostProcess(text: string): string
  {
    BracketStage(WordStage(text))
  }

  /** `post_process_transcription`. */
  method PostProcessTranscription(text: string) returns (r: string)
    ensures r == PostProcess(text)
    ensures NoEdgeSpace(r)
    ensures (forall i :: 0 <= i < |text| ==> IsSpace(text[i])) ==> r == []
  {
    var t := Trim(text);
    var words := SplitWhitespace(t);
    var deduped := DedupLoop(words);
    t := Join(deduped);
    t := ReplaceDoubleSpace(t);
    t := Trim(t);
    t := RemoveSpans(t);
    t := ReplaceDoubleSpace(t);
    t := Trim(t);
    r := t;
    PostProcessTrimmed(text);
  }

  /** The dedup loop of `post_process_transcription`: a word is pushed unless it
      equals the last word pushed. */
  method DedupLoop(words: seq<string>) returns (deduped: seq<string>)
    ensures deduped == Dedup(words)
    ensures NoAdjacentRepeats(deduped)
  {
    deduped := [];
    var i := 0;
    while i < |words|
      invariant 0 <= i <= |words|
      invariant deduped == Dedup(words[..i])
    {
      var word := words[i];
      DedupSnoc(words[..i], word);
      assert words[..i + 1] == words[..i] + [word];
      if !(|deduped| > 0 && deduped[|deduped| - 1] == word) {
        deduped := deduped + [word];
      }
      i := i + 1;
    }
    assert words[..|words|] == words;
    DedupNoAdjacent(words);
  }

  // ---------------------------------------------------------------------------
  // Properties

  predicate NoDoubleSpace(s: string)
  {
    forall i :: 0 <= i < |s| - 1 ==> !(s[i] == ' ' && s[i + 1] == ' ')
  }

  predicate NoEdgeSpace(s: string)
  {
    s == [] || (!IsSpace(s[0]) && !IsSpace(s[|s| - 1]))
  }

  /** The result never starts or ends with whitespace, and whitespace-only input gives "". */
  lemma PostProcessTrimmed(text: string)
    ensures NoEdgeSpace(PostProcess(text))
    ensures (forall i :: 0 <= i < |text| ==> IsSpace(text[i])) ==> PostProcess(text) == []
  {
    TrimEdges(ReplaceDoubleSpace(RemoveSpans(WordStage(text))));
    TrimEmptyIff(text);
  }

  /** After dedup no two neighbouring words are equal. */
  lemma {:induction false} DedupNoAdjacent(ws: seq<string>)
    ensures NoAdjacentRepeats(Dedup(ws))
    ensures |Dedup(ws)| <= |ws|
    ensures ws != [] ==> Dedup(ws) != [] && Dedup(ws)[|Dedup(ws)| - 1] == ws[|ws| - 1]
    decreases |ws|
  {
    if ws != [] {
      DedupNoAdjacent(ws[..|ws| - 1]);
    }
  }

  /** Only adjacent repeats are removed: a sequence without them is kept whole
      (so "a b a" keeps both a's). */
  lemma {:induction false} DedupKeepsNonAdjacent(ws: seq<string>)
    requires NoAdjacentRepeats(ws)
    ensures Dedup(ws) == ws
    decreases |ws|
  {
    if ws != [] {
      var p := ws[..|ws| - 1];
      assert NoAdjacentRepeats(p) by {
        forall i | 0 <= i < |p| - 1 ensures p[i] != p[i + 1] { assert p[i] == ws[i] && p[i + 1] == ws[i + 1]; }
      }
      DedupKeepsNonAdjacent(p);
      assert ws == p + [ws[|ws| - 1]];
      if |ws| >= 2 { assert ws[|ws| - 2] != ws[|ws| - 1]; }
    }
  }

  /** Dedup keeps every word of the input and adds none. */
  lemma {:induction false} DedupSameWords(ws: seq<string>)
    ensures forall w :: w in ws <==> w in Dedup(ws)
    decreases |ws|
  {
    if ws != [] {
      var p := ws[..|ws| - 1];
      DedupSameWords(p);
      assert ws == p + [ws[|ws| - 1]];
      DedupNoAdjacent(p);
    }
  }

  /** The same deduplication seen from the front: scanning left to right, a
      word is kept exactly when it differs from the word just before it in
      the input (`prev`). */
  function KeepChanges(prev: string, ws: seq<string>): seq<string>
    decreases |ws|
  {
    if ws == [] then []
    else (if ws[0] == prev then [] else [ws[0]]) + KeepChanges(ws[0], ws[1..])
  }

  /** The first word is always kept; the rest as `KeepChanges` says. */
  function Changes(ws: seq<string>): seq<string>
  {
    if ws == [] then [] else [ws[0]] + KeepChanges(ws[0], ws[1..])
  }

  /** The word before `w` when `w` follows `xs`, which follow `prev`. */
  function LastOf(prev: string, xs: seq<string>): string
  {
    if xs == [] then prev else xs[|xs| - 1]
  }

  lemma {:induction false} KeepChangesSnoc(prev: string, xs: seq<string>, w: string)
    ensures KeepChanges(prev, xs + [w]) ==
      KeepChanges(prev, xs) + (if w == LastOf(prev, xs) then [] else [w])
    decreases |xs|
  {
    if xs == [] {
      assert [w][1..] == [];
    } else {
      assert (xs + [w])[0] == xs[0] && (xs + [w])[1..] == xs[1..] + [w];
      KeepChangesSnoc(xs[0], xs[1..], w);
      assert LastOf(xs[0], xs[1..]) == LastOf(prev, xs);
    }
  }

  /** The push loop, which compares with the last word KEPT, agrees with the
      scan, which compares with the previous word of the INPUT: a dropped word
      equals the kept word before it, so the two comparisons never differ. */
  lemma {:induction false} DedupIsScan(ws: seq<string>)
    ensures Dedup(ws) == Changes(ws)
    decreases |ws|
  {
    if ws != [] {
      var p := ws[..|ws| - 1];
      var w := ws[|ws| - 1];
      assert ws == p + [w];
      DedupSnoc(p, w);
      if p == [] {
        assert Changes(ws) == [w];
      } else {
        DedupIsScan(p);
        DedupNoAdjacent(p);
        KeepChangesSnoc(p[0], p[1..], w);
        assert ws[0] == p[0] && ws[1..] == p[1..] + [w];
        assert LastOf(p[0], p[1..]) == p[|p| - 1];
      }
    }
  }

  /** Joining words gives text with single separating spaces and no whitespace at either end. */
  lemma {:induction false} JoinWellFormed(ws: seq<string>)
    requires AllWords(ws)
    ensures NoDoubleSpace(Join(ws)) && NoEdgeSpace(Join(ws))
    ensures ws != [] ==> Join(ws) != []
    decreases |ws|
  {
    if |ws| > 1 {
      JoinWellFormed(ws[1..]);
      var rest := Join(ws[1..]);
      var j := ws[0] + " " + rest;
      assert j == Join(ws);
      forall i | 0 <= i < |j| - 1 ensures !(j[i] == ' ' && j[i + 1] == ' ') {
        if i < |ws[0]| - 1 {
          assert j[i] == ws[0][i];
        } else if i == |ws[0]| - 1 {
          assert j[i] == ws[0][i];
        } else if i == |ws[0]| {
          assert j[i + 1] == rest[0];
        } else {
          assert j[i] == rest[i - |ws[0]| - 1] && j[i + 1] == rest[i - |ws[0]|];
        }
      }
      assert j[|j| - 1] == rest[|rest| - 1];
    }
  }

  /** Double-space fixing leaves text without double spaces unchanged. */
  lemma {:induction false} ReplaceDoubleSpaceNoop(s: string)
    requires NoDoubleSpace(s)
    ensures ReplaceDoubleSpace(s) == s
    decreases |s|
  {
    if s != [] {
      assert NoDoubleSpace(s[1..]) by {
        forall i | 0 <= i < |s[1..]| - 1 ensures !(s[1..][i] == ' ' && s[1..][i + 1] == ' ') {
          assert s[1..][i] == s[i + 1] && s[1..][i + 1] == s[i + 2];
        }
      }
      ReplaceDoubleSpaceNoop(s[1..]);
      assert s == [s[0]] + s[1..];
    }
  }

  /** Trimming text without edge whitespace changes nothing. */
  lemma TrimNoop(s: string)
    requires NoEdgeSpace(s)
    ensures Trim(s) == s
  {
  }

  /** Without any closing bracket nothing is removed: an opener with no closer is kept. */
  lemma {:induction false} RemoveSpansNoCloser(s: string)
    requires forall i :: 0 <= i < |s| ==> !IsCloser(s[i])
    ensures RemoveSpans(s) == s
    decreases |s|
  {
    if s != [] {
      if IsOpener(s[0]) {
        var f := FindClose(s[1..], CloserOf(s[0]));
        assert f.Some? ==> IsCloser(s[1..][f.value]);
      }
      RemoveSpansNoCloser(s[1..]);
      assert s == [s[0]] + s[1..];
    }
  }

  /** An opener whose own closer never follows is kept, and the scan goes on
      after it: spans of the other kinds later in the text are still removed. */
  lemma RemoveSpansUnclosed(c: char, t: string)
    requires IsOpener(c)
    requires forall i :: 0 <= i < |t| ==> t[i] != CloserOf(c)
    ensures RemoveSpans([c] + t) == [c] + RemoveSpans(t)
  {
    assert ([c] + t)[1..] == t;
    assert FindClose(t, CloserOf(c)).None?;
  }

  /** "[a (b)" becomes "[a ": the unclosed "[" stays and "(b)" goes. */
  lemma UnclosedBeforeSpan()
    ensures RemoveSpans("[a (b)") == "[a "
  {
    var t := "a (b)";
    assert "[a (b)" == ['['] + t;
    RemoveSpansUnclosed('[', t);
    assert t == "a " + ("(b)" + []);
    RemoveSpansPlainPrefix("a ", "(b)" + []);
    assert Annotation("(b)");
    AnnotationRemoved("(b)", []);
    assert "a " + [] == "a ";
  }

  /** Text without openers passes through span removal unchanged, whatever follows it. */
  lemma {:induction false} RemoveSpansPlainPrefix(a: string, b: string)
    requires forall i :: 0 <= i < |a| ==> !IsOpener(a[i])
    ensures RemoveSpans(a + b) == a + RemoveSpans(b)
    decreases |a|
  {
    if a != [] {
      assert (a + b)[0] == a[0] && (a + b)[1..] == a[1..] + b;
      RemoveSpansPlainPrefix(a[1..], b);
      assert a == [a[0]] + a[1..];
    } else {
      assert a + b == b;
    }
  }

  /** A closed span at the front is deleted whole. */
  lemma RemoveSpansSpan(inner: string, open: char, b: string)
    requires IsOpener(open)
    requires forall i :: 0 <= i < |inner| ==> inner[i] != CloserOf(open) && inner[i] != '\n'
    ensures RemoveSpans([open] + inner + [CloserOf(open)] + b) == RemoveSpans(b)
  {
    var s := [open] + inner + [CloserOf(open)] + b;
    FindCloseAt(inner, CloserOf(open), b);
    assert s[1..] == inner + [CloserOf(open)] + b;
    assert s[|inner| + 2..] == b;
  }

  lemma {:induction false} FindCloseAt(inner: string, close: char, b: string)
    requires forall i :: 0 <= i < |inner| ==> inner[i] != close && inner[i] != '\n'
    ensures FindClose(inner + [close] + b, close) == Some(|inner|)
    decreases |inner|
  {
    if inner != [] {
      assert (inner + [close] + b)[1..] == inner[1..] + [close] + b;
      FindCloseAt(inner[1..], close, b);
    }
  }

  /** A word followed by whitespace (or nothing) is split off first. */
  lemma SplitWordFirst(w: string, rest: string)
    requires IsWord(w)
    requires rest == [] || IsSpace(rest[0])
    ensures SplitWhitespace(w + rest) == [w] + SplitWhitespace(rest)
  {
    var j := w + rest;
    assert j[0] == w[0];
    assert TrimStart(j) == j;
    WordLenPrefix(w, rest);
    assert j[..|w|] == w;
    assert j[|w|..] == rest;
    if rest != [] {
      assert TrimStart(rest) == TrimStart(rest[1..]);
    }
  }

  /** Leading whitespace does not change the split. */
  lemma SplitLeadingSpace(c: char, rest: string)
    requires IsSpace(c)
    ensures SplitWhitespace([c] + rest) == SplitWhitespace(rest)
  {
    assert ([c] + rest)[1..] == rest;
    assert TrimStart([c] + rest) == TrimStart(rest);
  }

  lemma AllWordsTail(ws: seq<string>)
    requires ws != [] && AllWords(ws)
    ensures IsWord(ws[0]) && AllWords(ws[1..])
  {
    forall i | 0 <= i < |ws[1..]| ensures IsWord(ws[1..][i]) { assert ws[1..][i] == ws[i + 1]; }
  }

  lemma SplitJoinStep(ws: seq<string>)
    requires |ws| > 1 && IsWord(ws[0])
    requires SplitWhitespace(Join(ws[1..])) == ws[1..]
    ensures SplitWhitespace(Join(ws)) == ws
  {
    var rest := Join(ws[1..]);
    var tail := [' '] + rest;
    assert Join(ws) == ws[0] + tail by { JoinCons(ws); }
    SplitWordFirst(ws[0], tail);
    SplitLeadingSpace(' ', rest);
    assert SplitWhitespace(Join(ws)) == [ws[0]] + ws[1..];
    assert ws == [ws[0]] + ws[1..];
  }

  lemma SplitJoinOne(w: string)
    requires IsWord(w)
    ensures SplitWhitespace(Join([w])) == [w]
  {
    SplitWordFirst(w, []);
    assert w + [] == w;
  }

  lemma JoinCons(ws: seq<string>)
    requires |ws| > 1
    ensures Join(ws) == ws[0] + (" " + Join(ws[1..]))
  {
  }

  /** split_whitespace undoes join(" ") on words. */
  lemma {:induction false} SplitJoin(ws: seq<string>)
    requires AllWords(ws)
    ensures SplitWhitespace(Join(ws)) == ws
    decreases |ws|
  {
    if |ws| == 1 {
      SplitJoinOne(ws[0]);
    } else if |ws| > 1 {
      AllWordsTail(ws);
      SplitJoin(ws[1..]);
      SplitJoinStep(ws);
    }
  }

  lemma {:induction false} WordLenPrefix(w: string, s: string)
    requires IsWord(w)
    requires s == [] || IsSpace(s[0])
    ensures WordLen(w + s) == |w|
    decreases |w|
  {
    if |w| > 1 {
      assert (w + s)[1..] == w[1..] + s;
      WordLenPrefix(w[1..], s);
    } else {
      assert (w + s)[1..] == s;
    }
  }

  /** No closing bracket character. */
  predicate NoCloser(s: string)
  {
    forall k :: 0 <= k < |s| ==> !IsCloser(s[k])
  }

  predicate AllNoCloser(ws: seq<string>)
  {
    forall i :: 0 <= i < |ws| ==> NoCloser(ws[i])
  }

  /** Joining words without closing brackets gives text without them. */
  lemma {:induction false} JoinNoCloser(ws: seq<string>)
    requires AllNoCloser(ws)
    ensures NoCloser(Join(ws))
    decreases |ws|
  {
    if |ws| > 1 {
      assert AllNoCloser(ws[1..]) by {
        forall i | 0 <= i < |ws[1..]| ensures NoCloser(ws[1..][i]) { assert ws[1..][i] == ws[i + 1]; }
      }
      JoinNoCloser(ws[1..]);
      var rest := Join(ws[1..]);
      var j := ws[0] + " " + rest;
      assert NoCloser(ws[0]);
      forall k | 0 <= k < |j| ensures !IsCloser(j[k]) {
        if k < |ws[0]| {
          assert j[k] == ws[0][k];
        } else if k > |ws[0]| {
          assert j[k] == rest[k - |ws[0]| - 1];
        }
      }
    } else if |ws| == 1 {
      assert NoCloser(ws[0]);
    }
  }

  /** The words dedup keeps are words of its input. */
  lemma DedupWords(ws: seq<string>)
    requires AllWords(ws) && AllNoCloser(ws)
    ensures AllWords(Dedup(ws)) && AllNoCloser(Dedup(ws))
  {
    var d := Dedup(ws);
    DedupSameWords(ws);
    forall i | 0 <= i < |d| ensures IsWord(d[i]) && NoCloser(d[i]) {
      assert d[i] in d;
      var j :| 0 <= j < |ws| && ws[j] == d[i];
    }
  }

  /** The whole pipeline on text that is already single-spaced words without
      any closing bracket: dedup is the only step that changes it, so an
      opening bracket without its closer is kept. */
  lemma PlainWords(ws: seq<string>)
    requires AllWords(ws) && AllNoCloser(ws)
    ensures PostProcess(Join(ws)) == Join(Dedup(ws))
  {
    DedupWords(ws);
    WordStageOnWords(ws);
    BracketStageOnWords(Dedup(ws));
  }

  /** On single-spaced words, the first half only drops repeated neighbours. */
  lemma WordStageOnWords(ws: seq<string>)
    requires AllWords(ws) && AllWords(Dedup(ws))
    ensures WordStage(Join(ws)) == Join(Dedup(ws))
  {
    var t := Join(ws);
    JoinWellFormed(ws);
    TrimNoop(t);
    SplitJoin(ws);
    SingleSpaced(Dedup(ws));
  }

  /** Joined words are left alone by the space fix and the trim. */
  lemma SingleSpaced(ws: seq<string>)
    requires AllWords(ws)
    ensures var j := Join(ws); Trim(ReplaceDoubleSpace(j)) == j
  {
    var j := Join(ws);
    JoinWellFormed(ws);
    ReplaceDoubleSpaceNoop(j);
    TrimNoop(j);
  }

  /** On single-spaced words without a closing bracket, the second half
      changes nothing. */
  lemma BracketStageOnWords(ws: seq<string>)
    requires AllWords(ws) && AllNoCloser(ws)
    ensures BracketStage(Join(ws)) == Join(ws)
  {
    var j := Join(ws);
    JoinWellFormed(ws);
    JoinNoCloser(ws);
    RemoveSpansNoCloser(j);
    ReplaceDoubleSpaceNoop(j);
    TrimNoop(j);
  }

  // ---------------------------------------------------------------------------
  // The documented examples

  /** Repeated neighbours collapse: "hello hello world world" becomes "hello world". */
  lemma DedupExample()
    ensures PostProcess("hello hello world world") == "hello world"
  {
    var ws := ["hello", "hello", "world", "world"];
    var d := ["hello", "world"];
    ExampleWords();
    ExampleDedup();
    PlainWords(ws);
    assert PostProcess(Join(ws)) == Join(d);
  }

  lemma ExampleWords()
    ensures var ws := ["hello", "hello", "world", "world"];
      && Join(ws) == "hello hello world world" && AllWords(ws) && AllNoCloser(ws)
      && Join(["hello", "world"]) == "hello world"
  {
    ExampleJoin();
    assert IsWord("hello") && NoCloser("hello");
    assert IsWord("world") && NoCloser("world");
  }

  lemma ExampleJoin()
    ensures Join(["hello", "hello", "world", "world"]) == "hello hello world world"
    ensures Join(["hello", "world"]) == "hello world"
  {
    var ws := ["hello", "hello", "world", "world"];
    assert Join(ws[3..]) == "world";
    assert Join(ws[2..]) == "world" + " " + "world";
    assert Join(ws[1..]) == "hello" + " " + ("world" + " " + "world");
    var d := ["hello", "world"];
    assert Join(d[1..]) == "world";
  }

  lemma ExampleDedup()
    ensures Dedup(["hello", "hello", "world", "world"]) == ["hello", "world"]
  {
    DedupSnoc(["hello"], "hello");
    assert ["hello"] + ["hello"] == ["hello", "hello"];
    DedupSnoc(["hello", "hello"], "world");
    assert ["hello", "hello"] + ["world"] == ["hello", "hello", "world"];
    DedupSnoc(["hello", "hello", "world"], "world");
    assert ["hello", "hello", "world"] + ["world"] == ["hello", "hello", "world", "world"];
  }

  /** Only neighbours are compared: "a b a" keeps both a's. */
  lemma NonAdjacentExample()
    ensures PostProcess("a b a") == "a b a"
  {
    var vs := ["a", "b", "a"];
    assert Join(vs[2..]) == "a";
    assert Join(vs[1..]) == "b" + " " + "a";
    assert Join(vs) == "a" + " " + ("b" + " " + "a");
    assert Join(vs) == "a b a";
    assert AllWords(vs) && AllNoCloser(vs);
    assert NoAdjacentRepeats(vs);
    DedupKeepsNonAdjacent(vs);
    PlainWords(vs);
    assert PostProcess(Join(vs)) == Join(vs);
  }

  /** On single-spaced words without neighbouring repeats, only the bracket
      removal and the clean-up after it change the text. */
  lemma WordsPipeline(ws: seq<string>)
    requires AllWords(ws) && NoAdjacentRepeats(ws)
    ensures WordStage(Join(ws)) == Join(ws)
  {
    var j := Join(ws);
    JoinWellFormed(ws);
    TrimNoop(j);
    SplitJoin(ws);
    DedupKeepsNonAdjacent(ws);
    ReplaceDoubleSpaceNoop(j);
  }

  predicate NoOpener(s: string)
  {
    forall k :: 0 <= k < |s| ==> !IsOpener(s[k])
  }

  /** A word that the bracket pattern matches whole: an opener, text without
      its closer or a line feed, then the closer. */
  predicate Annotation(w: string)
  {
    && IsWord(w) && |w| >= 2 && IsOpener(w[0]) && w[|w| - 1] == CloserOf(w[0])
    && forall k :: 1 <= k < |w| - 1 ==> w[k] != CloserOf(w[0]) && w[k] != '\n'
  }

  lemma AnnotationRemoved(w: string, b: string)
    requires Annotation(w)
    ensures RemoveSpans(w + b) == RemoveSpans(b)
  {
    var inner := w[1..|w| - 1];
    assert w == [w[0]] + inner + [CloserOf(w[0])];
    forall i | 0 <= i < |inner| ensures inner[i] != CloserOf(w[0]) && inner[i] != '\n' {
      assert inner[i] == w[i + 1];
    }
    RemoveSpansSpan(inner, w[0], b);
  }

  /** Double-space fixing passes over text without spaces. */
  lemma {:induction false} ReplaceDoubleSpacePrefix(a: string, s: string)
    requires NoBlank(a)
    ensures ReplaceDoubleSpace(a + s) == a + ReplaceDoubleSpace(s)
    decreases |a|
  {
    if a != [] {
      assert (a + s)[1..] == a[1..] + s;
      ReplaceDoubleSpacePrefix(a[1..], s);
      assert a == [a[0]] + a[1..];
    } else {
      assert a + s == s;
    }
  }

  /** A leading word without openers passes through bracket removal with the
      space after it. */
  lemma RemoveSpansPlainHead(ws: seq<string>)
    requires |ws| > 1 && NoOpener(ws[0])
    ensures RemoveSpans(Join(ws)) == ws[0] + (" " + RemoveSpans(Join(ws[1..])))
  {
    RemoveSpansPlainPrefix(ws[0] + " ", Join(ws[1..]));
    Assoc(ws[0], " ", RemoveSpans(Join(ws[1..])));
  }

  lemma TwoBlanks()
    ensures " " + " " == "  "
  {
  }

  lemma Assoc(x: string, y: string, z: string)
    ensures x + (y + z) == x + y + z
  {
  }

  /** A leading annotation is removed; the space after it stays. */
  lemma RemoveSpansAnnotationHead(ws: seq<string>)
    requires |ws| > 1 && Annotation(ws[0])
    ensures RemoveSpans(Join(ws)) == " " + RemoveSpans(Join(ws[1..]))
  {
    var rest := Join(ws[1..]);
    assert Join(ws) == ws[0] + (" " + rest);
    AnnotationRemoved(ws[0], " " + rest);
    RemoveSpansPlainPrefix(" ", rest);
  }

  /** A last word without openers passes through. */
  lemma RemoveSpansPlainLast(b: string)
    requires NoOpener(b)
    ensures RemoveSpans(Join([b])) == b
  {
    RemoveSpansPlainPrefix(b, []);
    assert b + [] == b;
  }

  /** No space character (U+0020). */
  predicate NoBlank(s: string)
  {
    forall k :: 0 <= k < |s| ==> s[k] != ' '
  }

  lemma WordNoBlank(w: string)
    requires IsWord(w)
    ensures NoBlank(w) && w != []
  {
    forall k | 0 <= k < |w| ensures w[k] != ' ' {
      assert !IsSpace(w[k]);
    }
  }

  lemma NoBlankNoDoubleSpace(s: string)
    requires NoBlank(s)
    ensures NoDoubleSpace(s)
  {
  }

  /** Two spaces before a word become one. */
  lemma ReplaceTwoSpaces(a: string, b: string)
    requires NoBlank(a) && NoBlank(b) && b != []
    ensures ReplaceDoubleSpace(a + (" " + (" " + b))) == a + (" " + b)
  {
    ReplaceDoubleSpacePrefix(a, " " + (" " + b));
    assert (" " + (" " + b))[2..] == b;
    NoBlankNoDoubleSpace(b);
    ReplaceDoubleSpaceNoop(b);
  }

  /** Three spaces before a word become two: the pass does not look again at
      the space it has just written. */
  lemma ReplaceThreeSpaces(a: string, b: string)
    requires NoBlank(a) && NoBlank(b) && b != []
    ensures ReplaceDoubleSpace(a + (" " + (" " + (" " + b)))) == a + (" " + (" " + b))
  {
    ReplaceDoubleSpacePrefix(a, " " + (" " + (" " + b)));
    assert (" " + (" " + (" " + b)))[2..] == " " + b;
    assert (" " + b)[1..] == b;
    NoBlankNoDoubleSpace(b);
    ReplaceDoubleSpaceNoop(b);
  }

  /** Two spaces between words: a double space with no whitespace at the ends. */
  lemma DoubleGap(a: string, b: string)
    requires IsWord(a) && IsWord(b)
    ensures !NoDoubleSpace(a + "  " + b) && NoEdgeSpace(a + "  " + b)
  {
    var r := a + "  " + b;
    assert r[|a|] == ' ' && r[|a| + 1] == ' ';
    assert r[0] == a[0] && r[|r| - 1] == b[|b| - 1];
  }

  /** One annotation between two words is removed with the space after it:
      "hello [noise] world" becomes "hello world". */
  lemma AnnotationBetweenWords(a: string, w: string, b: string)
    requires IsWord(a) && IsWord(b) && NoOpener(a) && NoOpener(b)
    requires Annotation(w)
    ensures PostProcess(Join([a, w, b])) == a + " " + b
  {
    var j := Join([a, w, b]);
    BetweenRemoved(a, w, b);
    WordNoBlank(a);
    WordNoBlank(b);
    ReplaceTwoSpaces(a, b);
    Assoc(a, " ", b);
    DoubleGapFree(a, b);
    TrimNoop(a + " " + b);
    assert PostProcess(j) == Trim(ReplaceDoubleSpace(RemoveSpans(j)));
  }

  /** The words survive the word stage, and the annotation goes, leaving the
      spaces on both sides of it. */
  lemma BetweenRemoved(a: string, w: string, b: string)
    requires IsWord(a) && IsWord(b) && NoOpener(a) && NoOpener(b)
    requires Annotation(w)
    ensures WordStage(Join([a, w, b])) == Join([a, w, b])
    ensures RemoveSpans(Join([a, w, b])) == a + (" " + (" " + b))
  {
    var ws := [a, w, b];
    assert a != w && w != b by { assert !IsOpener(a[0]) && !IsOpener(b[0]); }
    assert AllWords(ws) by { assert ws[0] == a && ws[1] == w && ws[2] == b; }
    WordsPipeline(ws);
    RemoveSpansPlainHead(ws);
    assert ws[1..] == [w, b] && ws[1..][1..] == [b];
    RemoveSpansAnnotationHead(ws[1..]);
    RemoveSpansPlainLast(b);
  }

  /** Annotations of different kinds, one of them last: "a [x] b (y)" becomes
      "a b"; the space left before the last annotation is trimmed away. */
  lemma TrailingAnnotation(a: string, w1: string, b: string, w2: string)
    requires IsWord(a) && IsWord(b) && NoOpener(a) && NoOpener(b)
    requires Annotation(w1) && Annotation(w2)
    ensures PostProcess(Join([a, w1, b, w2])) == a + " " + b
  {
    var j := Join([a, w1, b, w2]);
    var x := a + " " + b;
    TrailingRemoved(a, w1, b, w2);
    WordNoBlank(a);
    WordNoBlank(b);
    ReplaceTwoSpacesBeforeLast(a, b);
    Assoc(a, " ", b + " ");
    Assoc(a + " ", b, " ");
    DoubleGapFree(a, b);
    TrimTrailingBlank(x);
    assert PostProcess(j) == Trim(ReplaceDoubleSpace(RemoveSpans(j)));
  }

  /** The words survive the word stage; both annotations go, each leaving the
      space before it. */
  lemma TrailingRemoved(a: string, w1: string, b: string, w2: string)
    requires IsWord(a) && IsWord(b) && NoOpener(a) && NoOpener(b)
    requires Annotation(w1) && Annotation(w2)
    ensures WordStage(Join([a, w1, b, w2])) == Join([a, w1, b, w2])
    ensures RemoveSpans(Join([a, w1, b, w2])) == a + (" " + (" " + (b + " ")))
  {
    var ws := [a, w1, b, w2];
    assert a != w1 && w1 != b && b != w2 by { assert !IsOpener(a[0]) && !IsOpener(b[0]); }
    assert AllWords(ws) by { assert ws[0] == a && ws[1] == w1 && ws[2] == b && ws[3] == w2; }
    WordsPipeline(ws);
    RemoveSpansPlainHead(ws);
    assert ws[1..] == [w1, b, w2] && ws[1..][1..] == [b, w2] && ws[1..][1..][1..] == [w2];
    RemoveSpansAnnotationHead(ws[1..]);
    RemoveSpansPlainHead(ws[1..][1..]);
    AnnotationRemoved(w2, []);
    assert w2 + [] == w2 && Join([w2]) == w2;
    assert " " + [] == " ";
  }

  lemma DoubleGapFree(a: string, b: string)
    requires IsWord(a) && IsWord(b)
    ensures a + " " + b != [] && NoEdgeSpace(a + " " + b)
  {
    var x := a + " " + b;
    assert x[0] == a[0] && x[|x| - 1] == b[|b| - 1];
  }

  /** Two spaces between words become one, and a space after the last word
      stays. */
  lemma ReplaceTwoSpacesBeforeLast(a: string, b: string)
    requires NoBlank(a) && NoBlank(b)
    ensures ReplaceDoubleSpace(a + (" " + (" " + (b + " ")))) == a + (" " + (b + " "))
  {
    ReplaceDoubleSpacePrefix(a, " " + (" " + (b + " ")));
    assert (" " + (" " + (b + " ")))[2..] == b + " ";
    ReplaceDoubleSpacePrefix(b, " ");
    assert ReplaceDoubleSpace(" ") == " ";
  }

  /** Text without edge whitespace followed by one space trims back to itself. */
  lemma TrimTrailingBlank(x: string)
    requires x != [] && NoEdgeSpace(x)
    ensures Trim(x + " ") == x
  {
    assert TrimStart(x + " ") == x + " ";
    assert (x + " ")[..|x + " "| - 1] == x;
    assert TrimEnd(x + " ") == TrimEnd(x);
  }

  /** The example of mixed annotations: "hello [noise] world (skip)" becomes
      "hello world". */
  lemma MixedAnnotations()
    ensures PostProcess("hello [noise] world (skip)") == "hello world"
  {
    MixedJoin();
    MixedWords();
    TrailingAnnotation("hello", "[noise]", "world", "(skip)");
  }

  lemma MixedJoin()
    ensures Join(["hello", "[noise]", "world", "(skip)"]) == "hello [noise] world (skip)"
    ensures "hello" + " " + "world" == "hello world"
  {
    var ws := ["hello", "[noise]", "world", "(skip)"];
    assert Join(ws[3..]) == "(skip)";
    assert Join(ws[2..]) == "world" + " " + "(skip)";
    assert Join(ws[1..]) == "[noise]" + " " + ("world" + " " + "(skip)");
  }

  lemma MixedWords()
    ensures IsWord("hello") && NoOpener("hello") && IsWord("world") && NoOpener("world")
    ensures Annotation("[noise]") && Annotation("(skip)")
  {
  }

  /** The clean-up after bracket removal is a single pass: two different
      annotations in a row leave two spaces, so "a [x] [y] b" becomes "a  b"
      and the output is not free of double spaces. */
  lemma TwoAnnotationsLeaveDoubleSpace(a: string, w1: string, w2: string, b: string)
    requires IsWord(a) && IsWord(b) && NoOpener(a) && NoOpener(b)
    requires Annotation(w1) && Annotation(w2) && w1 != w2
    ensures PostProcess(Join([a, w1, w2, b])) == a + "  " + b
    ensures !NoDoubleSpace(PostProcess(Join([a, w1, w2, b])))
  {
    var j := Join([a, w1, w2, b]);
    TwoAnnotationsRemoved(a, w1, w2, b);
    GapLeft(a, b);
    assert PostProcess(j) == Trim(ReplaceDoubleSpace(RemoveSpans(j)));
  }

  /** Three spaces between two words become two, and no fewer. */
  lemma GapLeft(a: string, b: string)
    requires IsWord(a) && IsWord(b)
    ensures Trim(ReplaceDoubleSpace(a + (" " + (" " + (" " + b))))) == a + "  " + b
    ensures !NoDoubleSpace(a + "  " + b)
  {
    WordNoBlank(a);
    WordNoBlank(b);
    ReplaceThreeSpaces(a, b);
    var r := a + "  " + b;
    assert a + (" " + (" " + b)) == r by {
      Assoc(" ", " ", b);
      TwoBlanks();
      Assoc(a, "  ", b);
    }
    DoubleGap(a, b);
    TrimNoop(r);
  }

  /** The words survive the word stage, and both annotations go, each leaving
      the space before it. */
  lemma TwoAnnotationsRemoved(a: string, w1: string, w2: string, b: string)
    requires IsWord(a) && IsWord(b) && NoOpener(a) && NoOpener(b)
    requires Annotation(w1) && Annotation(w2) && w1 != w2
    ensures WordStage(Join([a, w1, w2, b])) == Join([a, w1, w2, b])
    ensures RemoveSpans(Join([a, w1, w2, b])) == a + (" " + (" " + (" " + b)))
  {
    var ws := [a, w1, w2, b];
    assert a != w1 && w2 != b by { assert !IsOpener(a[0]) && !IsOpener(b[0]); }
    assert AllWords(ws) by { assert ws[0] == a && ws[1] == w1 && ws[2] == w2 && ws[3] == b; }
    WordsPipeline(ws);
    RemoveSpansPlainHead(ws);
    assert ws[1..] == [w1, w2, b] && ws[1..][1..] == [w2, b] && ws[1..][1..][1..] == [b];
    RemoveSpansAnnotationHead(ws[1..]);
    RemoveSpansAnnotationHead(ws[1..][1..]);
    RemoveSpansPlainLast(b);
  }
}
