/** The text sanitizer applied to a completed run's newest message: `cleanMarkdown`
    (three global regular-expression rewrites) followed by the removal of citation
    markers, the collapse of whitespace runs and `trim`.

    Each rewrite is a scan over the ORIGINAL string from left to right, as
    `String.prototype.replace` with a global regular expression does: at each
    position the pattern is tried; on a match its replacement is emitted and the
    scan resumes after the match, otherwise the character is copied and the scan
    moves on by one. JavaScript's regular-expression rules are spelt out:
    `.` matches anything but a line terminator, `.*?` is lazy (the shortest
    extension that lets the rest match, with backtracking), `^` under the `m` flag
    holds at the start of the input and right after a line terminator, and `\s`
    is JavaScript's whitespace class, newlines included. */
module Sanitizer {
  import opened Wrappers

  /** The line terminators of JavaScript regular expressions. */
  predicate IsLineTerminator(c: char)
  {
    c == '\n' || c == '\r' || c == '\U{2028}' || c == '\U{2029}'
  }

  /** The characters JavaScript's `\s` matches; `trim` removes the same set. */
  predicate IsWhitespace(c: char)
  {
    || c == '\t' || c == '\n' || c == '\U{000B}' || c == '\U{000C}' || c == '\r'
    || c == ' ' || c == '\U{00A0}' || c == '\U{1680}'
    || ('\U{2000}' <= c <= '\U{200A}')
    || c == '\U{2028}' || c == '\U{2029}' || c == '\U{202F}' || c == '\U{205F}'
    || c == '\U{3000}' || c == '\U{FEFF}'
  }

  /** `^` with the `m` flag: position i is the start of the input or follows a line terminator. */
  predicate AtLineStart(s: string, i: nat)
    requires i <= |s|
  {
    i == 0 || IsLineTerminator(s[i - 1])
  }

  /** The literal `pat` occurs in s at position i. */
  predicate MatchesAt(s: string, i: nat, pat: string)
    ensures MatchesAt(s, i, pat) ==> i + |pat| <= |s|
    decreases pat
  {
    if pat == [] then i <= |s| else i < |s| && s[i] == pat[0] && MatchesAt(s, i + 1, pat[1..])
  }

  /** No character of s[i..j] is a line terminator, so `.*` can span it. */
  predicate NoTerminatorBetween(s: string, i: nat, j: nat)
    requires i <= j <= |s|
  {
    forall m :: i <= m < j ==> !IsLineTerminator(s[m])
  }

  /** No two adjacent characters of s are both whitespace. */
  predicate SingleSpaced(s: string)
  {
    forall k :: 0 <= k < |s| - 1 ==> !(IsWhitespace(s[k]) && IsWhitespace(s[k + 1]))
  }

  /** Where the greedy `#+` (or `#*`) that starts at i ends. */
  function HashRunEnd(s: string, i: nat): (j: nat)
    requires i <= |s|
    ensures i <= j <= |s|
    ensures forall m :: i <= m < j ==> s[m] == '#'
    ensures j == |s| || s[j] != '#'
    decreases |s| - i
  {
    if i < |s| && s[i] == '#' then HashRunEnd(s, i + 1) else i
  }

  /** Where the greedy `\s*` that starts at i ends. */
  function WhitespaceRunEnd(s: string, i: nat): (j: nat)
    requires i <= |s|
    ensures i <= j <= |s|
    ensures forall m :: i <= m < j ==> IsWhitespace(s[m])
    ensures j == |s| || !IsWhitespace(s[j])
    decreases |s| - i
  {
    if i < |s| && IsWhitespace(s[i]) then WhitespaceRunEnd(s, i + 1) else i
  }

  /** A lazy `.*?` that starts at j and is followed by the literal `pat`: the first
      position at or after j where `pat` occurs, provided no line terminator lies
      between j and it. */
  function FindOnLine(s: string, j: nat, pat: string): (r: Option<nat>)
    requires j <= |s|
    ensures r.Some? ==> j <= r.value <= |s| && MatchesAt(s, r.value, pat)
    ensures r.Some? ==> NoTerminatorBetween(s, j, r.value)
    ensures r.Some? ==> forall m :: j <= m < r.value ==> !MatchesAt(s, m, pat)
    decreases |s| - j
  {
    if MatchesAt(s, j, pat) then Some(j)
    else if j == |s| || IsLineTerminator(s[j]) then None
    else FindOnLine(s, j + 1, pat)
  }

  /** `FindOnLine` fails exactly when `pat` occurs nowhere from j to the end of the line. */
  lemma {:induction false} FindOnLineMisses(s: string, j: nat, pat: string)
    requires j <= |s|
    ensures FindOnLine(s, j, pat).None? <==>
      forall m :: j <= m <= |s| && NoTerminatorBetween(s, j, m) ==> !MatchesAt(s, m, pat)
    decreases |s| - j
  {
    if !MatchesAt(s, j, pat) && j < |s| && !IsLineTerminator(s[j]) {
      FindOnLineMisses(s, j + 1, pat);
      if FindOnLine(s, j, pat).None? {
        forall m | j <= m <= |s| && NoTerminatorBetween(s, j, m)
          ensures !MatchesAt(s, m, pat)
        {
          if m > j {
            assert NoTerminatorBetween(s, j + 1, m);
          }
        }
      }
    }
  }

  // Rule 1: /^#+\s*/gm replaced by ''.

  /** The heading pattern matches at i. */
  predicate HeadingAt(s: string, i: nat)
    requires i < |s|
  {
    s[i] == '#' && AtLineStart(s, i)
  }

  function StripHeadingsFrom(s: string, i: nat): (r: string)
    requires i <= |s|
    ensures |r| <= |s| - i
    decreases |s| - i
  {
    if i == |s| then []
    else if HeadingAt(s, i) then StripHeadingsFrom(s, WhitespaceRunEnd(s, HashRunEnd(s, i)))
    else [s[i]] + StripHeadingsFrom(s, i + 1)
  }

  /** Removes every heading marker (a run of `#` at a line start and the whitespace after it). */
  function StripHeadings(text: string): string
  {
    StripHeadingsFrom(text, 0)
  }

  // Rule 2: /\*\*(.*?)\*\*/g replaced by '$1'.

  /** The bold pattern matches at i: `**`, then a closing `**` on the same line. */
  predicate BoldAt(s: string, i: nat)
    requires i <= |s|
  {
    MatchesAt(s, i, "**") && FindOnLine(s, i + 2, "**").Some?
  }

  function StripBoldFrom(s: string, i: nat): (r: string)
    requires i <= |s|
    ensures |r| <= |s| - i
    decreases |s| - i
  {
    if i == |s| then []
    else if BoldAt(s, i) then
      var j := FindOnLine(s, i + 2, "**").value;
      s[i + 2..j] + StripBoldFrom(s, j + 2)
    else [s[i]] + StripBoldFrom(s, i + 1)
  }

  /** Replaces every `**x**` (x on one line, the shortest such x) by x. */
  function StripBold(text: string): string
  {
    StripBoldFrom(text, 0)
  }

  // Rules 3 and 4 share the shape `open .*? mid (.*?) close`.

  /** (m, b) is how `.*? mid (.*?) close` matches from a: `mid` at m on a's line,
      b the first `close` after it on the same line, and every earlier `mid` on the
      line has no `close` after it. */
  ghost predicate FirstBracket(s: string, a: nat, mid: string, close: string, m: nat, b: nat)
    requires a <= |s|
  {
    && a <= m && MatchesAt(s, m, mid) && NoTerminatorBetween(s, a, m)
    && FindOnLine(s, m + |mid|, close) == Some(b)
    && forall k :: a <= k < m && MatchesAt(s, k, mid) ==> FindOnLine(s, k + |mid|, close).None?
  }

  /** `.*? mid (.*?) close` has no match from a: no `mid` on a's line has a
      `close` after it on the line. */
  ghost predicate NoBracket(s: string, a: nat, mid: string, close: string)
    requires a <= |s|
  {
    forall k :: a <= k <= |s| && NoTerminatorBetween(s, a, k) && MatchesAt(s, k, mid) ==>
      FindOnLine(s, k + |mid|, close).None?
  }

  /** Once `open` has been consumed and the first lazy group starts at a: the
      backtracking search tries each occurrence of `mid` on the line in turn and
      takes the first one that is followed by `close` later on the same line.
      The result is the pair (position of mid, position of close). */
  function BracketFrom(s: string, a: nat, mid: string, close: string): (r: Option<(nat, nat)>)
    requires a <= |s|
    requires |mid| > 0 && !IsLineTerminator(mid[0])
    ensures r.Some? ==> a <= r.value.0 && r.value.0 + |mid| <= r.value.1 && MatchesAt(s, r.value.1, close)
    ensures r.Some? ==> MatchesAt(s, r.value.0, mid)
    decreases |s| - a
  {
    match FindOnLine(s, a, mid)
    case None => None
    case Some(m) =>
      match FindOnLine(s, m + |mid|, close)
      case Some(b) => Some((m, b))
      case None => BracketFrom(s, m + 1, mid, close)
  }

  /** The search finds the leftmost match on the line, as backtracking does, and
      fails exactly when there is none. */
  lemma {:induction false} BracketFromIsFirst(s: string, a: nat, mid: string, close: string)
    requires a <= |s|
    requires |mid| > 0 && !IsLineTerminator(mid[0])
    ensures var r := BracketFrom(s, a, mid, close);
      && (r.Some? ==> FirstBracket(s, a, mid, close, r.value.0, r.value.1))
      && (r.None? ==> NoBracket(s, a, mid, close))
    decreases |s| - a
  {
    var found := FindOnLine(s, a, mid);
    if found.None? {
      NoBracketHere(s, a, mid, close);
    } else {
      var m := found.value;
      var closed := FindOnLine(s, m + |mid|, close);
      if closed.Some? {
        FirstBracketHere(s, a, mid, close, m, closed.value);
      } else {
        BracketFromIsFirst(s, m + 1, mid, close);
        BracketFromSkips(s, a, mid, close, m);
        var r := BracketFrom(s, m + 1, mid, close);
        if r.Some? {
          FirstBracketShift(s, a, m, mid, close, r.value.0, r.value.1);
        } else {
          NoBracketShift(s, a, m, mid, close);
        }
      }
    }
  }

  /** A `mid` with no `close` after it on the line is passed over. */
  lemma BracketFromSkips(s: string, a: nat, mid: string, close: string, m: nat)
    requires a <= |s| && |mid| > 0 && !IsLineTerminator(mid[0])
    requires FindOnLine(s, a, mid) == Some(m) && FindOnLine(s, m + |mid|, close).None?
    ensures m + 1 <= |s| && BracketFrom(s, a, mid, close) == BracketFrom(s, m + 1, mid, close)
  {
  }

  /** With no `mid` on the line there is no match. */
  lemma NoBracketHere(s: string, a: nat, mid: string, close: string)
    requires a <= |s| && |mid| > 0 && !IsLineTerminator(mid[0]) && FindOnLine(s, a, mid).None?
    ensures BracketFrom(s, a, mid, close).None? && NoBracket(s, a, mid, close)
  {
    FindOnLineMisses(s, a, mid);
  }

  /** The first `mid` on the line, with a `close` after it, is the match. */
  lemma FirstBracketHere(s: string, a: nat, mid: string, close: string, m: nat, b: nat)
    requires a <= |s| && FindOnLine(s, a, mid) == Some(m)
    requires |mid| > 0 && !IsLineTerminator(mid[0]) && FindOnLine(s, m + |mid|, close) == Some(b)
    ensures BracketFrom(s, a, mid, close) == Some((m, b)) && FirstBracket(s, a, mid, close, m, b)
  {
  }

  /** A match found after a `mid` with no `close` behind it is the match from a. */
  lemma FirstBracketShift(s: string, a: nat, m: nat, mid: string, close: string, m': nat, b: nat)
    requires a <= |s| && |mid| > 0 && !IsLineTerminator(mid[0])
    requires FindOnLine(s, a, mid) == Some(m) && FindOnLine(s, m + |mid|, close).None?
    requires m + 1 <= |s| && FirstBracket(s, m + 1, mid, close, m', b)
    ensures FirstBracket(s, a, mid, close, m', b)
  {
    assert s[m] == mid[0];
  }

  /** No match after a `mid` with no `close` behind it means no match from a. */
  lemma NoBracketShift(s: string, a: nat, m: nat, mid: string, close: string)
    requires a <= |s| && |mid| > 0 && !IsLineTerminator(mid[0])
    requires FindOnLine(s, a, mid) == Some(m) && FindOnLine(s, m + |mid|, close).None?
    requires m + 1 <= |s| && NoBracket(s, m + 1, mid, close)
    ensures NoBracket(s, a, mid, close)
  {
    forall k | a <= k <= |s| && NoTerminatorBetween(s, a, k) && MatchesAt(s, k, mid)
      ensures FindOnLine(s, k + |mid|, close).None?
    {
      if m < k {
        assert NoTerminatorBetween(s, m + 1, k);
      }
    }
  }

  /** The pattern `open .*? mid (.*?) close` matches at i. */
  predicate BracketAt(s: string, i: nat, open: char, mid: string, close: string)
    requires i < |s|
    requires |mid| > 0 && !IsLineTerminator(mid[0])
  {
    s[i] == open && BracketFrom(s, i + 1, mid, close).Some?
  }

  /** The global replacement of `open .*? mid (.*?) close` by its second group
      (keepTarget) or by nothing. */
  function ReplaceBracketedFrom(s: string, i: nat, open: char, mid: string, close: string, keepTarget: bool): (r: string)
    requires i <= |s|
    requires |mid| > 0 && !IsLineTerminator(mid[0])
    ensures |r| <= |s| - i
    decreases |s| - i
  {
    if i == |s| then []
    else if BracketAt(s, i, open, mid, close) then
      var m := BracketFrom(s, i + 1, mid, close).value.0;
      var b := BracketFrom(s, i + 1, mid, close).value.1;
      (if keepTarget then s[m + |mid|..b] else []) + ReplaceBracketedFrom(s, b + |close|, open, mid, close, keepTarget)
    else [s[i]] + ReplaceBracketedFrom(s, i + 1, open, mid, close, keepTarget)
  }

  /** Rule 3: /\[.*?\]\((.*?)\)/g replaced by '$1': a link keeps only its target. */
  function CollapseLinks(text: string): string
  {
    ReplaceBracketedFrom(text, 0, '[', "](", ")", true)
  }

  /** /【.*?†.*?】/g replaced by '': citation markers are dropped with their contents. */
  function StripCitations(text: string): string
  {
    ReplaceBracketedFrom(text, 0, '【', "†", "】", false)
  }

  /** `cleanMarkdown`: headings, then bold, then links. */
  function CleanMarkdown(text: string): string
  {
    CollapseLinks(StripBold(StripHeadings(text)))
  }

  // /\s+/g replaced by ' ', then trim().

  /** The characters of s that are not whitespace, in order. */
  function NonWhitespace(s: string): string
  {
    if s == [] then [] else (if IsWhitespace(s[0]) then [] else [s[0]]) + NonWhitespace(s[1..])
  }

  /** Unfolds `NonWhitespace` at position i of s. */
  lemma NonWhitespaceStep(s: string, i: nat)
    requires i < |s|
    ensures NonWhitespace(s[i..]) == (if IsWhitespace(s[i]) then [] else [s[i]]) + NonWhitespace(s[i + 1..])
  {
    assert s[i..][1..] == s[i + 1..];
  }

  /** A run of whitespace contributes nothing to `NonWhitespace`. */
  lemma {:induction false} NonWhitespaceSkipsRun(s: string, i: nat, j: nat)
    requires i <= j <= |s|
    requires forall m :: i <= m < j ==> IsWhitespace(s[m])
    ensures NonWhitespace(s[i..]) == NonWhitespace(s[j..])
    decreases j - i
  {
    if i < j {
      NonWhitespaceStep(s, i);
      NonWhitespaceSkipsRun(s, i + 1, j);
    }
  }

  function CollapseWhitespaceFrom(s: string, i: nat): (r: string)
    requires i <= |s|
    ensures forall k :: 0 <= k < |r| && IsWhitespace(r[k]) ==> r[k] == ' '
    ensures SingleSpaced(r)
    ensures |r| > 0 ==> i < |s| && (IsWhitespace(r[0]) <==> IsWhitespace(s[i]))
    decreases |s| - i
  {
    if i == |s| then []
    else if IsWhitespace(s[i]) then [' '] + CollapseWhitespaceFrom(s, WhitespaceRunEnd(s, i))
    else [s[i]] + CollapseWhitespaceFrom(s, i + 1)
  }

  /** Collapsing keeps every character that is not whitespace, in order, and
      drops none of them. */
  lemma {:induction false} CollapseKeepsText(s: string, i: nat)
    requires i <= |s|
    ensures NonWhitespace(CollapseWhitespaceFrom(s, i)) == NonWhitespace(s[i..])
    decreases |s| - i
  {
    if i < |s| {
      NonWhitespaceStep(s, i);
      if IsWhitespace(s[i]) {
        var j := WhitespaceRunEnd(s, i);
        var rest := CollapseWhitespaceFrom(s, j);
        CollapseKeepsText(s, j);
        NonWhitespaceSkipsRun(s, i + 1, j);
        assert ([' '] + rest)[1..] == rest;
      } else {
        var rest := CollapseWhitespaceFrom(s, i + 1);
        CollapseKeepsText(s, i + 1);
        assert ([s[i]] + rest)[1..] == rest;
      }
    }
  }

  /** Every maximal run of whitespace becomes one space. */
  function CollapseWhitespace(text: string): string
  {
    CollapseWhitespaceFrom(text, 0)
  }

  /** Drops leading whitespace; what is left is a suffix of the input. */
  function TrimStart(s: string): (r: string)
    ensures |r| <= |s| && r == s[|s| - |r|..]
    ensures |r| > 0 ==> !IsWhitespace(r[0])
    ensures forall m :: 0 <= m < |s| - |r| ==> IsWhitespace(s[m])
    decreases |s|
  {
    if |s| > 0 && IsWhitespace(s[0]) then TrimStart(s[1..]) else s
  }

  /** Drops trailing whitespace; what is left is a prefix of the input. */
  function TrimEnd(s: string): (r: string)
    ensures |r| <= |s| && r == s[..|r|]
    ensures |r| > 0 ==> !IsWhitespace(r[|r| - 1])
    ensures forall m :: |r| <= m < |s| ==> IsWhitespace(s[m])
    decreases |s|
  {
    if |s| > 0 && IsWhitespace(s[|s| - 1]) then TrimEnd(s[..|s| - 1]) else s
  }

  /** `String.prototype.trim`. */
  function Trim(s: string): string
  {
    TrimEnd(TrimStart(s))
  }

  /** What the poller returns for a completed run's message text: `cleanMarkdown`,
      then citations removed, whitespace collapsed and the ends trimmed. The
      result has no whitespace at either end and no two whitespace characters
      in a row. */
  function Sanitize(text: string): (r: string)
    ensures |r| > 0 ==> !IsWhitespace(r[0]) && !IsWhitespace(r[|r| - 1])
    ensures SingleSpaced(r)
  {
    var collapsed := CollapseWhitespace(StripCitations(CleanMarkdown(text)));
    TrimSingleSpaced(collapsed);
    Trim(collapsed)
  }

  /** Trimming a single-spaced string leaves it single-spaced. */
  lemma TrimSingleSpaced(s: string)
    requires SingleSpaced(s)
    ensures SingleSpaced(Trim(s))
  {
    var t := TrimStart(s);
    SubstringSingleSpaced(s, |s| - |t|, |s|);
    SubstringSingleSpaced(t, 0, |TrimEnd(t)|);
  }

  /** Any slice of a single-spaced string is single-spaced. */
  lemma SubstringSingleSpaced(s: string, i: nat, j: nat)
    requires i <= j <= |s|
    requires SingleSpaced(s)
    ensures SingleSpaced(s[i..j])
  {
    var t := s[i..j];
    forall k | 0 <= k < |t| - 1
      ensures !(IsWhitespace(t[k]) && IsWhitespace(t[k + 1]))
    {
      assert t[k] == s[i + k] && t[k + 1] == s[i + k + 1];
    }
  }
}
