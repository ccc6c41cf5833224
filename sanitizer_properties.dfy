/** Properties of the sanitizer: what each rewrite leaves alone, the identity on
    text without markup, the worked example, and the two inputs that show
    sanitizing twice is not the same as sanitizing once. */
module SanitizerProperties {
  import opened Wrappers
  import opened Sanitizer

  // A stretch of text in which a rule finds no match is copied unchanged.

  lemma {:induction false} HeadingsCopy(s: string, i: nat, j: nat)
    requires i <= j <= |s|
    requires forall m :: i <= m < j ==> !HeadingAt(s, m)
    ensures StripHeadingsFrom(s, i) == s[i..j] + StripHeadingsFrom(s, j)
    decreases j - i
  {
    if i < j {
      assert !HeadingAt(s, i);
      HeadingsCopy(s, i + 1, j);
      var c := StripHeadingsFrom(s, j);
      assert s[i..j] + c == [s[i]] + (s[i + 1..j] + c);
    }
  }

  lemma {:induction false} BoldCopy(s: string, i: nat, j: nat)
    requires i <= j <= |s|
    requires forall m :: i <= m < j ==> !BoldAt(s, m)
    ensures StripBoldFrom(s, i) == s[i..j] + StripBoldFrom(s, j)
    decreases j - i
  {
    if i < j {
      assert !BoldAt(s, i);
      BoldCopy(s, i + 1, j);
      var c := StripBoldFrom(s, j);
      assert s[i..j] + c == [s[i]] + (s[i + 1..j] + c);
    }
  }

  lemma {:induction false} BracketedCopy(s: string, i: nat, j: nat, open: char, mid: string, close: string, keepTarget: bool)
    requires i <= j <= |s|
    requires |mid| > 0 && !IsLineTerminator(mid[0])
    requires forall m :: i <= m < j ==> !BracketAt(s, m, open, mid, close)
    ensures ReplaceBracketedFrom(s, i, open, mid, close, keepTarget)
         == s[i..j] + ReplaceBracketedFrom(s, j, open, mid, close, keepTarget)
    decreases j - i
  {
    if i < j {
      assert !BracketAt(s, i, open, mid, close);
      BracketedCopy(s, i + 1, j, open, mid, close, keepTarget);
      var c := ReplaceBracketedFrom(s, j, open, mid, close, keepTarget);
      assert s[i..j] + c == [s[i]] + (s[i + 1..j] + c);
    }
  }

  lemma {:induction false} CollapseCopy(s: string, i: nat, j: nat)
    requires i <= j <= |s|
    requires forall m :: i <= m < j ==> !IsWhitespace(s[m])
    ensures CollapseWhitespaceFrom(s, i) == s[i..j] + CollapseWhitespaceFrom(s, j)
    decreases j - i
  {
    if i < j {
      assert !IsWhitespace(s[i]);
      CollapseCopy(s, i + 1, j);
      var c := CollapseWhitespaceFrom(s, j);
      assert s[i..j] + c == [s[i]] + (s[i + 1..j] + c);
    }
  }

  // Text without markup.

  /** No `#` stands at a line start. */
  ghost predicate HasNoHeading(s: string)
  {
    forall m :: 0 <= m < |s| ==> !HeadingAt(s, m)
  }

  /** No `**` is followed by another `**` on the same line. */
  ghost predicate HasNoBold(s: string)
  {
    forall m :: 0 <= m < |s| ==> !BoldAt(s, m)
  }

  /** No `[` is followed on its line by `](` and then `)`. */
  ghost predicate HasNoLink(s: string)
  {
    forall m :: 0 <= m < |s| ==> !BracketAt(s, m, '[', "](", ")")
  }

  /** No `【` is followed on its line by `†` and then `】`. */
  ghost predicate HasNoCitation(s: string)
  {
    forall m :: 0 <= m < |s| ==> !BracketAt(s, m, '【', "†", "】")
  }

  /** Text in which none of the four patterns matches anywhere comes out of the
      sanitizer only whitespace-collapsed and trimmed. */
  lemma SanitizeWithoutMarkup(text: string)
    requires HasNoHeading(text) && HasNoBold(text) && HasNoLink(text) && HasNoCitation(text)
    ensures Sanitize(text) == Trim(CollapseWhitespace(text))
  {
    HeadingsCopy(text, 0, |text|);
    assert StripHeadings(text) == text;
    BoldCopy(text, 0, |text|);
    assert StripBold(text) == text;
    BracketedCopy(text, 0, |text|, '[', "](", ")", true);
    assert CleanMarkdown(text) == text;
    BracketedCopy(text, 0, |text|, '【', "†", "】", false);
    assert StripCitations(text) == text;
  }

  // The worked example, "# Hello\n**world**\n[link](http://x)\n【a†b】  extra",
  // one rewrite at a time. It is split in two literals so that the verifier can
  // look into each.

  const Head := "Hello\n**world**\n"
  const Tail := "[link](" + ("http://x" + (")" + "\n【a†b】  extra"))

  lemma ExampleHeadings()
    ensures StripHeadings("# " + Head + Tail) == Head + Tail
  {
    var s := "# " + Head + Tail;
    HeadingFacts();
    HeadingsCopy(s, 2, |s|);
    assert StripHeadingsFrom(s, 0) == StripHeadingsFrom(s, 2);
    assert StripHeadingsFrom(s, |s|) == [];
  }

  lemma HeadingFacts()
    ensures var s := "# " + Head + Tail;
      && HeadingAt(s, 0) && HashRunEnd(s, 0) == 1 && WhitespaceRunEnd(s, 1) == 2
      && (forall m :: 2 <= m < |s| ==> !HeadingAt(s, m))
      && s[2..] == Head + Tail
  {
    var s := "# " + Head + Tail;
    assert s[0] == '#' && s[1] == ' ' && s[2] == 'H';
    assert HashRunEnd(s, 0) == 1;
    assert WhitespaceRunEnd(s, 1) == 2;
    assert s[2..] == Head + Tail;
    NoHash();
    forall m | 2 <= m < |s|
      ensures s[m] != '#'
    {
      assert s[m] == (Head + Tail)[m - 2];
    }
  }

  lemma NoHash()
    ensures forall m :: 0 <= m < |Head + Tail| ==> (Head + Tail)[m] != '#'
  {
    assert forall m :: 0 <= m < |Head| ==> Head[m] != '#';
    assert forall m :: 0 <= m < |Tail| ==> Tail[m] != '#';
  }

  lemma BoldFacts()
    ensures forall m :: 0 <= m < 6 ==> !BoldAt(Head + Tail, m)
    ensures forall m :: 15 <= m < |Head + Tail| ==> !BoldAt(Head + Tail, m)
    ensures BoldAt(Head + Tail, 6) && FindOnLine(Head + Tail, 8, "**") == Some(13)
  {
    var s := Head + Tail;
    assert forall m :: 0 <= m < |Tail| ==> Tail[m] != '*';
    assert forall m :: 15 <= m < |s| ==> s[m] != '*';
    assert forall m :: 0 <= m < 6 ==> s[m] != '*';
    assert MatchesAt(s, 6, "**");
    assert MatchesAt(s, 13, "**");
    assert FindOnLine(s, 13, "**") == Some(13);
    assert FindOnLine(s, 12, "**") == Some(13);
    assert FindOnLine(s, 11, "**") == Some(13);
    assert FindOnLine(s, 10, "**") == Some(13);
    assert FindOnLine(s, 9, "**") == Some(13);
  }

  lemma BoldSlices()
    ensures (Head + Tail)[0..6] + (Head + Tail)[8..13] + (Head + Tail)[15..] == Linked
  {
    var s := Head + Tail;
    assert s[0..6] == "Hello\n" && s[8..13] == "world";
    assert s[15..] == "\n" + Tail;
  }

  lemma ExampleBold()
    ensures StripBold(Head + Tail) == Linked
  {
    BoldSteps();
    BoldSlices();
  }

  lemma BoldSteps()
    ensures StripBoldFrom(Head + Tail, 0) == (Head + Tail)[0..6] + StripBoldFrom(Head + Tail, 6)
    ensures StripBoldFrom(Head + Tail, 6) == (Head + Tail)[8..13] + StripBoldFrom(Head + Tail, 15)
    ensures StripBoldFrom(Head + Tail, 15) == (Head + Tail)[15..]
  {
    var s := Head + Tail;
    BoldFacts();
    BoldCopy(s, 0, 6);
    BoldCopy(s, 15, |s|);
  }

  const Linked := "Hello\nworld\n" + Tail

  lemma LinkFacts()
    ensures forall m :: 0 <= m < 12 ==> !BracketAt(Linked, m, '[', "](", ")")
    ensures forall m :: 28 <= m < |Linked| ==> !BracketAt(Linked, m, '[', "](", ")")
    ensures Linked[12] == '[' && BracketFrom(Linked, 13, "](", ")") == Some((17, 27))
  {
    var s := Linked;
    assert forall m :: 0 <= m < 12 ==> s[m] != '[';
    assert forall m :: 28 <= m < |s| ==> s[m] != '[';
    assert FindOnLine(s, 17, "](") == Some(17);
    assert FindOnLine(s, 16, "](") == Some(17);
    assert FindOnLine(s, 15, "](") == Some(17);
    assert FindOnLine(s, 14, "](") == Some(17);
    assert FindOnLine(s, 13, "](") == Some(17);
    assert FindOnLine(s, 27, ")") == Some(27);
    assert FindOnLine(s, 26, ")") == Some(27);
    assert FindOnLine(s, 25, ")") == Some(27);
    assert FindOnLine(s, 24, ")") == Some(27);
    assert FindOnLine(s, 23, ")") == Some(27);
    assert FindOnLine(s, 22, ")") == Some(27);
    assert FindOnLine(s, 21, ")") == Some(27);
    assert FindOnLine(s, 20, ")") == Some(27);
    assert FindOnLine(s, 19, ")") == Some(27);
  }

  lemma LinkSlices()
    ensures Linked[0..12] == "Hello\nworld\n"
    ensures Linked[19..27] == "http://x"
    ensures Linked[28..] == "\n【a†b】  extra"
  {
    assert Linked[12..] == Tail;
    TailSlices();
  }

  lemma TailSlices()
    ensures Tail[7..15] == "http://x"
    ensures Tail[16..] == "\n【a†b】  extra"
  {
    assert Tail[7..] == "http://x" + (")" + "\n【a†b】  extra");
    assert Tail[7..][..8] == "http://x";
  }

  const Cited := "Hello\nworld\n" + "http://x" + "\n【a†b】  extra"

  lemma ExampleLinks()
    ensures CollapseLinks(Linked) == Cited
  {
    LinkSteps();
    LinkSlices();
  }

  lemma LinkSteps()
    ensures ReplaceBracketedFrom(Linked, 0, '[', "](", ")", true)
         == Linked[0..12] + ReplaceBracketedFrom(Linked, 12, '[', "](", ")", true)
    ensures ReplaceBracketedFrom(Linked, 12, '[', "](", ")", true)
         == Linked[19..27] + ReplaceBracketedFrom(Linked, 28, '[', "](", ")", true)
    ensures ReplaceBracketedFrom(Linked, 28, '[', "](", ")", true) == Linked[28..]
  {
    LinkFacts();
    BracketedCopy(Linked, 0, 12, '[', "](", ")", true);
    ReplaceOne(Linked, 12, 17, 27, '[', "](", ")", true);
    BracketedCopy(Linked, 28, |Linked|, '[', "](", ")", true);
  }

  /** A match of the bracket rule at i is replaced as a whole. */
  lemma ReplaceOne(s: string, i: nat, m: nat, b: nat, open: char, mid: string, close: string, keepTarget: bool)
    requires i < |s| && |mid| > 0 && !IsLineTerminator(mid[0])
    requires s[i] == open && BracketFrom(s, i + 1, mid, close) == Some((m, b))
    ensures ReplaceBracketedFrom(s, i, open, mid, close, keepTarget)
         == (if keepTarget then s[m + |mid|..b] else []) + ReplaceBracketedFrom(s, b + |close|, open, mid, close, keepTarget)
  {
  }

  lemma CitationFacts()
    ensures forall m :: 0 <= m < 21 ==> !BracketAt(Cited, m, '【', "†", "】")
    ensures forall m :: 26 <= m < |Cited| ==> !BracketAt(Cited, m, '【', "†", "】")
    ensures Cited[21] == '【' && BracketFrom(Cited, 22, "†", "】") == Some((23, 25))
  {
    var s := Cited;
    assert forall m :: 0 <= m < 21 ==> s[m] != '【';
    assert forall m :: 26 <= m < |s| ==> s[m] != '【';
    assert FindOnLine(s, 23, "†") == Some(23);
    assert FindOnLine(s, 22, "†") == Some(23);
    assert FindOnLine(s, 25, "】") == Some(25);
    assert FindOnLine(s, 24, "】") == Some(25);
  }

  lemma ExampleCitations()
    ensures StripCitations(Cited) == Collapsible
  {
    CitationSteps();
    CitationSlices();
  }

  lemma CitationSteps()
    ensures ReplaceBracketedFrom(Cited, 0, '【', "†", "】", false)
         == Cited[0..21] + ReplaceBracketedFrom(Cited, 21, '【', "†", "】", false)
    ensures ReplaceBracketedFrom(Cited, 21, '【', "†", "】", false)
         == ReplaceBracketedFrom(Cited, 26, '【', "†", "】", false)
    ensures ReplaceBracketedFrom(Cited, 26, '【', "†", "】", false) == Cited[26..]
  {
    CitationFacts();
    BracketedCopy(Cited, 0, 21, '【', "†", "】", false);
    ReplaceOne(Cited, 21, 23, 25, '【', "†", "】", false);
    BracketedCopy(Cited, 26, |Cited|, '【', "†", "】", false);
  }

  lemma CitationSlices()
    ensures Cited[0..21] + Cited[26..] == Collapsible
  {
    assert Cited[0..21] == "Hello\nworld\nhttp://x\n";
    assert Cited[26..] == "  extra";
  }

  const Collapsible := "Hello\nworld\nhttp://x\n  extra"

  /** The whitespace run that starts |a| + k characters into a + b is the one that
      starts k characters into b. */
  lemma {:induction false} WhitespaceRunShift(a: string, b: string, k: nat)
    requires k <= |b|
    ensures WhitespaceRunEnd(a + b, |a| + k) == |a| + WhitespaceRunEnd(b, k)
    decreases |b| - k
  {
    if k < |b| {
      assert (a + b)[|a| + k] == b[k];
      WhitespaceRunShift(a, b, k + 1);
    }
  }

  /** Collapsing from |a| + k in a + b is collapsing from k in b. */
  lemma {:induction false} CollapseShift(a: string, b: string, k: nat)
    requires k <= |b|
    ensures CollapseWhitespaceFrom(a + b, |a| + k) == CollapseWhitespaceFrom(b, k)
    decreases |b| - k
  {
    if k < |b| {
      assert (a + b)[|a| + k] == b[k];
      if IsWhitespace(b[k]) {
        WhitespaceRunShift(a, b, k);
        CollapseShift(a, b, WhitespaceRunEnd(b, k));
      } else {
        CollapseShift(a, b, k + 1);
      }
    }
  }

  /** A word, then a run of whitespace, then text that starts with a non-space:
      the word is kept and the run becomes one space. */
  lemma CollapseWord(w: string, sep: string, rest: string)
    requires forall m :: 0 <= m < |w| ==> !IsWhitespace(w[m])
    requires |sep| > 0 && forall m :: 0 <= m < |sep| ==> IsWhitespace(sep[m])
    requires |rest| > 0 && !IsWhitespace(rest[0])
    ensures CollapseWhitespace(w + (sep + rest)) == w + (" " + CollapseWhitespace(rest))
  {
    var s := w + (sep + rest);
    CollapseCopy(s, 0, |w|);
    assert s[0..|w|] == w;
    var t := sep + rest;
    assert t[|sep|] == rest[0];
    assert WhitespaceRunEnd(t, 0) == |sep|;
    WhitespaceRunShift(w, t, 0);
    CollapseShift(w, t, |sep|);
    CollapseShift(sep, rest, 0);
  }

  // Collapsible is taken apart word by word; each step is a lemma of its own
  // so that the verifier sees one word at a time.

  const Third := "http://x" + ("\n  " + "extra")
  const Second := "world" + ("\n" + Third)
  const Collapsed := "Hello" + (" " + ("world" + (" " + ("http://x" + (" " + "extra")))))

  lemma CollapsibleParts()
    ensures Collapsible == "Hello" + ("\n" + Second)
  {
  }

  lemma CollapseThird()
    ensures CollapseWhitespace(Third) == "http://x" + (" " + "extra")
  {
    CollapseCopy("extra", 0, 5);
    CollapseWord("http://x", "\n  ", "extra");
  }

  lemma CollapseSecond()
    ensures CollapseWhitespace(Second) == "world" + (" " + ("http://x" + (" " + "extra")))
  {
    CollapseThird();
    CollapseWord("world", "\n", Third);
  }

  lemma ExampleWhitespace()
    ensures Trim(CollapseWhitespace(Collapsible)) == "Hello world http://x extra"
  {
    CollapsibleParts();
    CollapseSecond();
    CollapseWord("Hello", "\n", Second);
    CollapsedParts();
    TrimExample();
  }

  lemma CollapsedParts()
    ensures Collapsed == "Hello world http://x extra"
  {
  }

  lemma TrimExample()
    ensures Trim("Hello world http://x extra") == "Hello world http://x extra"
  {
    var r := "Hello world http://x extra";
    assert r[0] == 'H' && r[|r| - 1] == 'a';
    TrimUntrimmed(r);
  }

  /** Text with no whitespace at either end is left as it is by `trim`. */
  lemma TrimUntrimmed(s: string)
    requires |s| > 0 && !IsWhitespace(s[0]) && !IsWhitespace(s[|s| - 1])
    ensures Trim(s) == s
  {
    assert TrimStart(s) == s;
    assert TrimEnd(s) == s;
  }

  /** The worked example end to end. */
  lemma SanitizeExample()
    ensures Sanitize("# Hello\n**world**\n" + "[link](http://x)\n【a†b】  extra") == "Hello world http://x extra"
  {
    assert "# Hello\n**world**\n" == "# " + Head;
    assert "[link](http://x)\n【a†b】  extra" == Tail;
    ExampleHeadings();
    ExampleBold();
    ExampleLinks();
    ExampleCitations();
    ExampleWhitespace();
  }

  /** Sanitizing is not idempotent: in "# #x" the second `#` is not at a line
      start, so it survives, and sanitizing the result removes it. */
  lemma SanitizeNotIdempotent()
    ensures Sanitize("# #x") == "#x"
    ensures Sanitize("#x") == "x"
    ensures Sanitize(Sanitize("# #x")) != Sanitize("# #x")
  {
    var once := "# #x";
    assert StripHeadings(once) == "#x";
    assert StripBold("#x") == "#x";
    assert CollapseLinks("#x") == "#x";
    assert StripCitations("#x") == "#x";
    assert CollapseWhitespace("#x") == "#x";
    assert Trim("#x") == "#x";
    assert StripHeadings("#x") == "x";
    assert StripBold("x") == "x";
    assert CollapseLinks("x") == "x";
    assert StripCitations("x") == "x";
    assert CollapseWhitespace("x") == "x";
    assert Trim("x") == "x";
  }
}
