/** Which texts the classifier reads as which fact, said of the text itself. */
module SegmentTexts {
  import opened Basics
  import opened SegmentClassifier

  /** Blanks, underscores and hyphens. */
  ghost predicate Gaps(s: string) {
    forall i :: 0 <= i < |s| ==> s[i] in " _-\t\n\r"
  }

  /** A word in lower case. */
  ghost predicate Plain(text: string) {
    text != "" && forall i :: 0 <= i < |text| ==> 'a' <= text[i] <= 'z'
  }

  /** This text in any mix of cases. */
  ghost predicate Reads(s: string, text: string) {
    |s| == |text| && forall i :: 0 <= i < |s| ==> s[i] == text[i] || s[i] as int + 32 == text[i] as int
  }

  ghost predicate OneWord(s: string, text: string) {
    exists a, w, b :: s == a + w + b && Gaps(a) && Reads(w, text) && Gaps(b)
  }

  ghost predicate TwoWords(s: string, first: string, second: string) {
    exists a, w, g, t :: s == a + w + g + t && Gaps(a) && Reads(w, first) && g != "" && Gaps(g) && OneWord(t, second)
  }

  // ---------------------------------------------------------------- reading word by word

  ghost predicate GapFree(w: string) {
    forall i :: 0 <= i < |w| ==> !IsGap(w[i])
  }

  function Lowered(w: string): (r: string)
    ensures |r| == |w| && forall i :: 0 <= i < |w| ==> r[i] == Lower(w[i])
  {
    seq(|w|, i requires 0 <= i < |w| => Lower(w[i]))
  }

  lemma {:induction false} GapsSkipped(g: string, t: string, started: bool, gap: bool)
    requires g != "" && Gaps(g)
    ensures Words(g + t, started, gap) == Words(t, started, true)
    decreases |g|
  {
    assert IsGap(g[0]) && (g + t)[1..] == g[1..] + t;
    if |g| == 1 {
      assert g + t == [g[0]] + t && (g + t)[1..] == t;
    } else {
      GapsSkipped(g[1..], t, started, true);
    }
  }

  lemma {:induction false} WordStarts(w: string, t: string, started: bool, gap: bool)
    requires w != "" && GapFree(w)
    ensures Words(w + t, started, gap) ==
      (if started && gap then " " else "") + (Lowered(w) + Words(t, true, false))
    decreases |w|
  {
    var rest, after := w[1..], Words(t, true, false);
    FirstLetter(w + t, started, gap);
    assert (w + t)[1..] == rest + t;
    if rest == "" {
      assert rest + t == t && Lowered(w) == [Lower(w[0])];
    } else {
      WordStarts(rest, t, true, false);
      assert "" + (Lowered(rest) + after) == Lowered(rest) + after;
      LoweredStep(w, after);
    }
  }

  lemma LoweredStep(w: string, after: string)
    requires w != ""
    ensures [Lower(w[0])] + (Lowered(w[1..]) + after) == Lowered(w) + after
  {
  }

  lemma FirstLetter(s: string, started: bool, gap: bool)
    requires s != "" && !IsGap(s[0])
    ensures Words(s, started, gap) ==
      (if started && gap then " " else "") + ([Lower(s[0])] + Words(s[1..], true, false))
  {
  }

  /** Leading gaps, the word after them, and a rest that starts with a gap. */
  lemma {:induction false} FirstWord(s: string) returns (g: string, w: string, t: string)
    ensures s == g + w + t && Gaps(g) && GapFree(w)
    ensures t != "" ==> IsGap(t[0]) && w != ""
    ensures s != "" && IsGap(s[0]) ==> g != ""
    decreases |s|
  {
    if s == "" {
      g, w, t := "", "", "";
      assert s == g + w + t;
    } else if IsGap(s[0]) {
      g, w, t := FirstWord(s[1..]);
      g := [s[0]] + g;
    } else {
      g, w, t := "", [s[0]], s[1..];
      while t != "" && !IsGap(t[0])
        invariant s == g + w + t && GapFree(w) && w != "" && g == ""
        decreases |t|
      {
        w, t := w + [t[0]], t[1..];
      }
    }
  }

  lemma ReadsIffLowered(w: string, text: string)
    requires Plain(text)
    ensures GapFree(w) && Lowered(w) == text <==> Reads(w, text)
  {
    if Reads(w, text) {
      assert forall i :: 0 <= i < |w| ==> !IsGap(w[i]) && Lowered(w)[i] == text[i];
    }
  }

  /** After a word, the rest adds nothing when it is all gaps, and otherwise a space and more. */
  lemma RestReads(t: string)
    requires t != "" ==> IsGap(t[0])
    ensures Gaps(t) ==> Words(t, true, false) == ""
    ensures !Gaps(t) ==> Words(t, true, false) != "" && Words(t, true, false)[0] == ' '
  {
    if t != "" {
      var g, w, rest := FirstWord(t);
      assert t == g + (w + rest);
      GapsSkipped(g, w + rest, true, false);
      if w == "" {
        assert w + rest == "" && g == t;
      } else {
        WordStarts(w, rest, true, true);
        assert t[|g|] == w[0];
      }
    }
  }

  lemma WordsAfterGaps(a: string, t: string, gap: bool)
    requires Gaps(a)
    ensures Words(a + t, false, gap) == Words(t, false, false)
  {
    if a == "" {
      assert a + t == t;
    } else {
      GapsSkipped(a, t, false, gap);
    }
    StartIgnoresGap(t, true);
    StartIgnoresGap(t, gap);
  }

  lemma {:induction false} StartIgnoresGap(t: string, gap: bool)
    ensures Words(t, false, gap) == Words(t, false, false)
    decreases |t|
  {
    if t != "" && IsGap(t[0]) {
      StartIgnoresGap(t[1..], true);
    }
  }

  lemma NothingAfter(w: string, tail: string, text: string)
    requires Plain(text) && text == Lowered(w) + tail
    requires tail != "" ==> tail[0] == ' '
    ensures tail == ""
  {
    TailOf(Lowered(w), tail);
  }

  lemma TailOf(w: string, tail: string)
    ensures forall i :: 0 <= i < |tail| ==> (w + tail)[|w| + i] == tail[i]
  {
  }

  lemma LoweredIsSolid(w: string)
    requires GapFree(w)
    ensures ' ' !in Lowered(w)
  {
  }

  lemma OneWordReads(a: string, w: string, b: string, text: string)
    requires Plain(text) && Gaps(a) && Reads(w, text) && Gaps(b)
    ensures Words(a + w + b, false, false) == text
  {
    assert a + w + b == a + (w + b);
    WordsAfterGaps(a, w + b, false);
    ReadsIffLowered(w, text);
    WordStarts(w, b, false, false);
    RestReads(b);
  }

  lemma OneWordFound(s: string, text: string)
    requires Plain(text) && Words(s, false, false) == text
    ensures OneWord(s, text)
  {
    var g, w, t := FirstWord(s);
    assert s == g + (w + t);
    WordsAfterGaps(g, w + t, false);
    assert w == "" ==> w + t == "";
    WordStarts(w, t, false, false);
    RestReads(t);
    NothingAfter(w, Words(t, true, false), text);
    ReadsIffLowered(w, text);
  }

  /** A text reads as one word exactly when it is that word, in any case, between gaps. */
  lemma ReadsAsOne(s: string, text: string)
    requires Plain(text)
    ensures Words(s, false, false) == text <==> OneWord(s, text)
  {
    if OneWord(s, text) {
      var a, w, b :| s == a + w + b && Gaps(a) && Reads(w, text) && Gaps(b);
      OneWordReads(a, w, b, text);
    } else if Words(s, false, false) == text {
      OneWordFound(s, text);
    }
  }

  lemma SplitAtSpace(u: string, x: string, v: string, y: string)
    requires u + " " + x == v + " " + y && ' ' !in u && ' ' !in v
    ensures u == v && x == y
  {
    var s := u + " " + x;
    assert s[|u|] == ' ' && s[|v|] == ' ';
    assert forall i :: 0 <= i < |u| ==> s[i] == u[i];
    assert forall i :: 0 <= i < |v| ==> s[i] == v[i];
    assert |u| == |v|;
    assert u == s[..|u|] && v == s[..|v|] && x == s[|u| + 1..] && y == s[|v| + 1..];
  }

  lemma SecondReads(g: string, t: string)
    requires g != "" && Gaps(g) && !Gaps(t)
    ensures Words(g + t, true, false) == " " + Words(t, false, false)
  {
    GapsSkipped(g, t, true, false);
    var a, w, rest := FirstWord(t);
    assert t == a + (w + rest);
    assert w == "" ==> t == a;
    WordsAfterGaps(a, w + rest, false);
    WordStarts(w, rest, false, false);
    WordStarts(w, rest, true, true);
    if a == "" {
      assert t == w + rest;
    } else {
      GapsSkipped(a, w + rest, true, true);
    }
  }

  /** A text reads as two words exactly when it is those words, in any case, with gaps between and around them. */
  lemma ReadsAsTwo(s: string, first: string, second: string)
    requires Plain(first) && Plain(second)
    ensures Words(s, false, false) == first + " " + second <==> TwoWords(s, first, second)
  {
    if TwoWords(s, first, second) {
      var a, w, g, t :|
        s == a + w + g + t && Gaps(a) && Reads(w, first) && g != "" && Gaps(g) && OneWord(t, second);
      assert s == a + (w + (g + t));
      WordsAfterGaps(a, w + (g + t), false);
      ReadsIffLowered(w, first);
      WordStarts(w, g + t, false, false);
      ReadsAsOne(t, second);
      assert !Gaps(t) by {
        HasWord(t, second);
      }
      SecondReads(g, t);
    }
    if Words(s, false, false) == first + " " + second {
      TwoWordsFound(s, first, second);
    }
  }

  lemma GapsJoin(g: string, t: string)
    requires Gaps(g)
    ensures Gaps(g + t) <==> Gaps(t)
  {
    assert forall i :: 0 <= i < |t| ==> t[i] == (g + t)[|g| + i];
  }

  lemma HasWord(t: string, text: string)
    requires Plain(text) && OneWord(t, text)
    ensures !Gaps(t)
  {
    var a, w, b :| t == a + w + b && Gaps(a) && Reads(w, text) && Gaps(b);
    assert t[|a|] == w[0];
  }

  /** The first word, the gap after it, and the rest, of a text that reads as more than one word. */
  lemma TwoParts(s: string, text: string) returns (a: string, w: string, g: string, t: string)
    requires Words(s, false, false) == text && ' ' in text
    ensures s == a + w + g + t && Gaps(a) && w != "" && GapFree(w) && g != "" && Gaps(g) && !Gaps(t)
    ensures text == Lowered(w) + " " + Words(t, false, false)
  {
    var after, v, rest;
    a, w, after := FirstWord(s);
    assert s == a + (w + after);
    WordsAfterGaps(a, w + after, false);
    assert w == "" ==> w + after == "";
    WordStarts(w, after, false, false);
    RestReads(after);
    LoweredIsSolid(w);
    assert !Gaps(after);
    g, v, rest := FirstWord(after);
    t := v + rest;
    assert after == g + t;
    GapsJoin(g, t);
    SecondReads(g, t);
  }

  lemma TwoWordsFound(s: string, first: string, second: string)
    requires Plain(first) && Plain(second) && Words(s, false, false) == first + " " + second
    ensures TwoWords(s, first, second)
  {
    assert (first + " " + second)[|first|] == ' ';
    var a, w, g, t := TwoParts(s, first + " " + second);
    LoweredIsSolid(w);
    SplitAtSpace(Lowered(w), Words(t, false, false), first, second);
    ReadsIffLowered(w, first);
    ReadsAsOne(t, second);
  }

  // ---------------------------------------------------------------- the two facts

  /** Affluence reads off "affluent", and "less affluent" or "non affluent", in any case and with any gaps. */
  lemma AffluenceTexts(s: string)
    ensures NormalizeAffluence(Some(s)) == Some(Affluent) <==> OneWord(s, "affluent")
    ensures NormalizeAffluence(Some(s)) == Some(LessAffluent) <==>
      TwoWords(s, "less", "affluent") || TwoWords(s, "non", "affluent")
    ensures NormalizeAffluence(None) == None
  {
    ReadsAsOne(s, "affluent");
    ReadsAsTwo(s, "less", "affluent");
    ReadsAsTwo(s, "non", "affluent");
    assert "less" + " " + "affluent" == "less affluent" && "non" + " " + "affluent" == "non affluent";
  }

  /** Loyalty reads off "loyal" and "new", in any case and with any gaps around. */
  lemma LoyaltyTexts(s: string)
    ensures NormalizeLoyalty(Some(s)) == Some(Loyal) <==> OneWord(s, "loyal")
    ensures NormalizeLoyalty(Some(s)) == Some(New) <==> OneWord(s, "new")
    ensures NormalizeLoyalty(None) == None
  {
    ReadsAsOne(s, "loyal");
    ReadsAsOne(s, "new");
  }
}
