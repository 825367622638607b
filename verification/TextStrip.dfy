/** Removing leading and trailing white space from identifiers. */
module TextStrip {

  predicate IsSpace(c: char) {
    c == ' ' || c == '\t' || c == '\n' || c == '\r'
  }

  function StripLeft(s: string): string {
    if s != "" && IsSpace(s[0]) then StripLeft(s[1..]) else s
  }

  function StripRight(s: string): string {
    if s != "" && IsSpace(s[|s| - 1]) then StripRight(s[..|s| - 1]) else s
  }

  function Strip(s: string): string {
    StripRight(StripLeft(s))
  }

  lemma StripRightIdempotent(s: string)
    ensures StripRight(StripRight(s)) == StripRight(s)
  {
  }

  lemma {:induction false} StripRightKeepsLeft(s: string)
    requires s == "" || !IsSpace(s[0])
    ensures StripRight(s) == "" || !IsSpace(StripRight(s)[0])
    decreases |s|
  {
    if s != "" && IsSpace(s[|s| - 1]) {
      StripRightKeepsLeft(s[..|s| - 1]);
    }
  }

  lemma StripLeftEnds(s: string)
    ensures StripLeft(s) == "" || !IsSpace(StripLeft(s)[0])
  {
  }

  /** Stripped text is stripped. */
  lemma StripIdempotent(s: string)
    ensures Strip(Strip(s)) == Strip(s)
  {
    StripLeftEnds(s);
    StripRightKeepsLeft(StripLeft(s));
    StripRightIdempotent(StripLeft(s));
  }

  ghost predicate Blank(s: string) {
    forall i :: 0 <= i < |s| ==> s[i] in " \t\n\r"
  }

  /** What is left of a text between blanks, with none at either end. */
  ghost predicate Trimmed(s: string, t: string) {
    && (exists a, b :: s == a + t + b && Blank(a) && Blank(b))
    && (t != "" ==> t[0] !in " \t\n\r" && t[|t| - 1] !in " \t\n\r")
  }

  lemma {:induction false} StripLeftTrims(s: string) returns (a: string)
    ensures Blank(a) && s == a + StripLeft(s)
  {
    if s != "" && IsSpace(s[0]) {
      var rest := StripLeftTrims(s[1..]);
      a := [s[0]] + rest;
    } else {
      a := "";
      assert s == a + s;
    }
  }

  lemma {:induction false} StripRightTrims(s: string) returns (b: string)
    ensures Blank(b) && s == StripRight(s) + b
    ensures StripRight(s) != "" ==> !IsSpace(StripRight(s)[|StripRight(s)| - 1])
    decreases |s|
  {
    if s != "" && IsSpace(s[|s| - 1]) {
      var rest := StripRightTrims(s[..|s| - 1]);
      b := rest + [s[|s| - 1]];
    } else {
      b := "";
      assert s == s + b;
    }
  }

  /** Stripping removes exactly the blanks at both ends. */
  lemma StripTrims(s: string)
    ensures Trimmed(s, Strip(s))
  {
    var a := StripLeftTrims(s);
    var b := StripRightTrims(StripLeft(s));
    assert s == a + Strip(s) + b;
    StripLeftEnds(s);
    StripRightKeepsLeft(StripLeft(s));
  }

  lemma {:induction false} StripLeftSkips(a: string, rest: string)
    requires Blank(a)
    ensures StripLeft(a + rest) == StripLeft(rest)
    decreases |a|
  {
    if a == "" {
      assert a + rest == rest;
    } else {
      assert (a + rest)[0] == a[0] && (a + rest)[1..] == a[1..] + rest;
      StripLeftSkips(a[1..], rest);
    }
  }

  lemma {:induction false} StripRightSkips(front: string, b: string)
    requires Blank(b)
    ensures StripRight(front + b) == StripRight(front)
    decreases |b|
  {
    if b == "" {
      assert front + b == front;
    } else {
      var s := front + b;
      assert s[|s| - 1] == b[|b| - 1] && s[..|s| - 1] == front + b[..|b| - 1];
      StripRightSkips(front, b[..|b| - 1]);
    }
  }

  lemma StripBetween(a: string, t: string, b: string)
    requires Blank(a) && Blank(b) && (t != "" ==> t[0] !in " \t\n\r" && t[|t| - 1] !in " \t\n\r")
    ensures Strip(a + (t + b)) == t
  {
    StripLeftSkips(a, t + b);
    if t == "" {
      assert t + b == b + "";
      StripLeftSkips(b, "");
    } else {
      assert (t + b)[0] == t[0];
      StripRightSkips(t, b);
    }
  }

  /** A text has one trimmed form, which is what stripping leaves. */
  lemma TrimmedIsStrip(s: string, t: string)
    ensures Trimmed(s, t) <==> t == Strip(s)
  {
    if Trimmed(s, t) {
      var a, b :| s == a + t + b && Blank(a) && Blank(b);
      assert s == a + (t + b);
      StripBetween(a, t, b);
    } else {
      StripTrims(s);
    }
  }
}
