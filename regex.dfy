/** The part of Python's `re` module that the answer cleaners use.

    A pattern is a list of alternatives tried in order, each a sequence of tokens. The
    matcher follows `re`'s backtracking order exactly: a greedy token tries its longest
    choice first and gives characters back one at a time, a lazy token tries its shortest
    choice first, and the first alternative that completes wins. `Sub` is `re.sub` without
    anchors, `SubAnchored` is `re.sub` of a pattern that starts with `^` (no MULTILINE). */
module Regex {
  import opened Text

  datatype Token =
    | Lit(c: char)   // the character itself (case-folded under IGNORECASE)
    | Opt(c: char)   // c?    greedy
    | Spaces         // \s*   greedy
    | AnyLazy        // .*?   lazy; crosses a newline only under DOTALL

  datatype Pattern = Pattern(alts: seq<seq<Token>>, ignoreCase: bool, dotAll: bool)

  /** The alternative that matched and the position just after the match. */
  datatype Hit = Hit(alt: nat, end: nat)

  function Lits(s: string): (r: seq<Token>)
    ensures |r| == |s| && forall k :: 0 <= k < |s| ==> r[k] == Lit(s[k])
  {
    seq(|s|, k requires 0 <= k < |s| => Lit(s[k]))
  }

  /** The number of characters every match of `toks` consumes at least. */
  function MinLen(toks: seq<Token>): nat {
    if toks == [] then 0 else (if toks[0].Lit? then 1 else 0) + MinLen(toks[1..])
  }

  predicate CharMatches(p: Pattern, c: char, want: char) {
    if p.ignoreCase then Lower(c) == Lower(want) else c == want
  }

  predicate DotMatches(p: Pattern, c: char) {
    p.dotAll || c != '\n'
  }

  /** The end of the first match of `toks` starting at `i`, in backtracking order. */
  function Match(p: Pattern, toks: seq<Token>, s: string, i: nat): (r: Option<nat>)
    requires i <= |s|
    ensures r.Some? ==> i + MinLen(toks) <= r.value <= |s|
    decreases |toks|, 2, 0
  {
    if toks == [] then Some(i)
    else
      match toks[0]
      case Lit(c) =>
        if i < |s| && CharMatches(p, s[i], c) then Match(p, toks[1..], s, i + 1) else None
      case Opt(c) =>
        var taken := if i < |s| && CharMatches(p, s[i], c) then Match(p, toks[1..], s, i + 1) else None;
        if taken.Some? then taken else Match(p, toks[1..], s, i)
      case Spaces => SpacesFrom(p, toks, s, i, SpaceRunEnd(s, i))
      case AnyLazy => LazyFrom(p, toks, s, i)
  }

  /** `\s*` at `i` having taken the whitespace up to `j`: try the rest there, then give
      back one character. */
  function SpacesFrom(p: Pattern, toks: seq<Token>, s: string, i: nat, j: nat): (r: Option<nat>)
    requires toks != [] && toks[0] == Spaces && i <= j <= |s|
    ensures r.Some? ==> i + MinLen(toks) <= r.value <= |s|
    decreases |toks|, 1, j
  {
    var r := Match(p, toks[1..], s, j);
    if r.Some? || j == i then r else SpacesFrom(p, toks, s, i, j - 1)
  }

  /** `.*?` having taken the characters up to `j`: try the rest there, then take one more. */
  function LazyFrom(p: Pattern, toks: seq<Token>, s: string, j: nat): (r: Option<nat>)
    requires toks != [] && toks[0] == AnyLazy && j <= |s|
    ensures r.Some? ==> j + MinLen(toks) <= r.value <= |s|
    decreases |toks|, 1, |s| - j
  {
    var r := Match(p, toks[1..], s, j);
    if r.Some? then r
    else if j < |s| && DotMatches(p, s[j]) then LazyFrom(p, toks, s, j + 1)
    else None
  }

  /** The first alternative, from the `k`-th on, that matches at `i`. */
  function MatchAlts(p: Pattern, s: string, i: nat, k: nat): (r: Option<Hit>)
    requires i <= |s| && k <= |p.alts|
    ensures r.Some? ==> k <= r.value.alt < |p.alts|
    ensures r.Some? ==> i + MinLen(p.alts[r.value.alt]) <= r.value.end <= |s|
    decreases |p.alts| - k
  {
    if k == |p.alts| then None
    else
      match Match(p, p.alts[k], s, i)
      case Some(e) => Some(Hit(k, e))
      case None => MatchAlts(p, s, i, k + 1)
  }

  function MatchAt(p: Pattern, s: string, i: nat): (r: Option<Hit>)
    requires i <= |s|
    ensures r.Some? ==> r.value.alt < |p.alts|
    ensures r.Some? ==> i + MinLen(p.alts[r.value.alt]) <= r.value.end <= |s|
  {
    MatchAlts(p, s, i, 0)
  }

  /** The alternatives are tried in order: `MatchAlts` from `k` reports the first one that
      matches and where its match ends, and reports nothing only when none from `k` on
      matches. */
  lemma {:induction false} MatchAltsFirst(p: Pattern, s: string, i: nat, k: nat)
    requires i <= |s| && k <= |p.alts|
    ensures var r := MatchAlts(p, s, i, k);
            && (r.Some? ==> Match(p, p.alts[r.value.alt], s, i) == Some(r.value.end)
                            && forall j :: k <= j < r.value.alt ==> Match(p, p.alts[j], s, i).None?)
            && (r.None? ==> forall j :: k <= j < |p.alts| ==> Match(p, p.alts[j], s, i).None?)
    decreases |p.alts| - k
  {
    if k < |p.alts| && Match(p, p.alts[k], s, i).None? {
      MatchAltsFirst(p, s, i, k + 1);
    }
  }

  /** `MatchAt` is the first alternative that matches at `i`, with its match end. */
  lemma {:induction false} MatchAtFirst(p: Pattern, s: string, i: nat)
    requires i <= |s|
    ensures var r := MatchAt(p, s, i);
            && (r.Some? ==> Match(p, p.alts[r.value.alt], s, i) == Some(r.value.end)
                            && forall j :: 0 <= j < r.value.alt ==> Match(p, p.alts[j], s, i).None?)
            && (r.None? ==> forall j :: 0 <= j < |p.alts| ==> Match(p, p.alts[j], s, i).None?)
  {
    MatchAltsFirst(p, s, i, 0);
  }

  /** Every match of `p` is at least `n` characters long. */
  predicate Consumes(p: Pattern, n: nat) {
    forall w :: 0 <= w < |p.alts| ==> MinLen(p.alts[w]) >= n
  }

  /** `re.sub(p, repl, s)`: scan from the left, replace each match and continue after it.
      None of the patterns used here can match the empty text. The result is never longer
      than the input when no match is shorter than the replacement. */
  function Sub(p: Pattern, s: string, repl: string): (r: string)
    ensures Consumes(p, |repl|) ==> |r| <= |s|
    decreases |s|
  {
    if s == [] then []
    else
      match MatchAt(p, s, 0)
      case Some(h) =>
        if h.end > 0 then repl + Sub(p, s[h.end..], repl) else [s[0]] + Sub(p, s[1..], repl)
      case None => [s[0]] + Sub(p, s[1..], repl)
  }

  /** `re.sub(p, '', s)` for a pattern anchored by `^`: only a match at the very start is
      deleted, so the result is a suffix of the input. */
  function SubAnchored(p: Pattern, s: string): (r: string)
    ensures |r| <= |s| && r == s[|s| - |r|..]
  {
    match MatchAt(p, s, 0)
    case Some(h) => s[h.end..]
    case None => s
  }

  /** Applies `re.sub(p, '', ·)` for each pattern in turn. */
  function DeleteEach(ps: seq<Pattern>, s: string): (r: string)
    ensures |r| <= |s|
  {
    if ps == [] then s else DeleteEach(ps[1..], Sub(ps[0], s, ""))
  }

  /** Applies each anchored pattern once, in turn. */
  function DeleteEachAnchored(ps: seq<Pattern>, s: string): (r: string)
    ensures |r| <= |s|
  {
    if ps == [] then s else DeleteEachAnchored(ps[1..], SubAnchored(ps[0], s))
  }

  /** Deleting anchored prefixes leaves a suffix of the input. */
  lemma {:induction false} DeleteEachAnchoredSuffix(ps: seq<Pattern>, s: string)
    ensures var r := DeleteEachAnchored(ps, s); r == s[|s| - |r|..]
  {
    if ps != [] {
      var t := SubAnchored(ps[0], s);
      DeleteEachAnchoredSuffix(ps[1..], t);
      SuffixOfSuffix(s, t, DeleteEachAnchored(ps[1..], t));
    }
  }

  /** The loop `for pattern in ps: s = re.sub(pattern, '', s)`. */
  method DeleteAll(ps: seq<Pattern>, s: string) returns (r: string)
    ensures r == DeleteEach(ps, s)
  {
    r := s;
    var i := 0;
    while i < |ps|
      invariant 0 <= i <= |ps|
      invariant DeleteEach(ps[i..], r) == DeleteEach(ps, s)
    {
      assert ps[i..][1..] == ps[i + 1..];
      r := Sub(ps[i], r, "");
      i := i + 1;
    }
  }

  /** The same loop over patterns anchored by `^`. */
  method DeleteAllAnchored(ps: seq<Pattern>, s: string) returns (r: string)
    ensures r == DeleteEachAnchored(ps, s)
  {
    r := s;
    var i := 0;
    while i < |ps|
      invariant 0 <= i <= |ps|
      invariant DeleteEachAnchored(ps[i..], r) == DeleteEachAnchored(ps, s)
    {
      assert ps[i..][1..] == ps[i + 1..];
      r := SubAnchored(ps[i], r);
      i := i + 1;
    }
  }

  lemma {:induction false} AnchoredKeepsLinesLeftStripped(ps: seq<Pattern>, s: string)
    requires LinesLeftStripped(s)
    ensures LinesLeftStripped(DeleteEachAnchored(ps, s))
  {
    var cut := DeleteEachAnchored(ps, s);
    DeleteEachAnchoredSuffix(ps, s);
    var a := |s| - |cut|;
    LinesLeftStrippedSlice(s, a, |s|, cut);
  }

  lemma {:induction false} AnchoredKeepsNoBlankLine(ps: seq<Pattern>, s: string)
    requires NoBlankLine(s)
    ensures NoBlankLine(DeleteEachAnchored(ps, s))
  {
    var cut := DeleteEachAnchored(ps, s);
    DeleteEachAnchoredSuffix(ps, s);
    var a := |s| - |cut|;
    NoBlankLineSlice(s, a, |s|, cut);
  }

  lemma {:induction false} SuffixOfSuffix(s: string, t: string, r: string)
    requires |t| <= |s| && t == s[|s| - |t|..]
    requires |r| <= |t| && r == t[|t| - |r|..]
    ensures r == s[|s| - |r|..]
  {
    var a, b := |s| - |t|, |t| - |r|;
    assert t[b..] == s[a + b..];
  }

  // ---------------------------------------------------------------------------------
  // re.sub(r'\n\s*\n', '\n', s)

  /** The leading run of whitespace of `x` holds no newline. */
  predicate LeadRunNoNewline(x: string)
    decreases |x|
  {
    x == [] || !IsSpace(x[0]) || (x[0] != '\n' && LeadRunNoNewline(x[1..]))
  }

  /** For the text that follows a newline: the length of its longest prefix that is all
      whitespace and ends in a newline, or 0. This is what `\s*\n` takes there, since
      `\s*` takes the whole run and gives back characters until a newline follows. */
  function BlankPrefix(r: string): (n: nat)
    ensures n <= |r|
    ensures n > 0 ==> r[n - 1] == '\n' && AllSpace(r[..n])
    ensures LeadRunNoNewline(r[n..])
    decreases |r|
  {
    if r == [] || !IsSpace(r[0]) then 0
    else
      var m := BlankPrefix(r[1..]);
      if m > 0 then
        assert r[..m + 1] == [r[0]] + r[1..][..m];
        assert r[m + 1..] == r[1..][m..];
        m + 1
      else if r[0] == '\n' then
        assert r[1..] == r[1..][0..];
        1
      else
        assert r[1..] == r[1..][0..];
        0
  }

  /** `re.sub(r'\n\s*\n', '\n', s)`: a newline followed by whitespace that contains
      further newlines becomes one newline; the whitespace after the last of those
      newlines stays. */
  function Collapse(s: string): (r: string)
    ensures |r| <= |s|
    decreases |s|
  {
    if s == [] then []
    else if s[0] == '\n' then "\n" + Collapse(s[1 + BlankPrefix(s[1..])..])
    else [s[0]] + Collapse(s[1..])
  }

  predicate NoBlankLineRec(t: string)
    decreases |t|
  {
    t == [] || ((t[0] == '\n' ==> LeadRunNoNewline(t[1..])) && NoBlankLineRec(t[1..]))
  }

  lemma {:induction false} CollapseKeepsLeadRun(x: string)
    requires LeadRunNoNewline(x)
    ensures LeadRunNoNewline(Collapse(x))
    decreases |x|
  {
    if x != [] && IsSpace(x[0]) {
      CollapseKeepsLeadRun(x[1..]);
      assert Collapse(x)[1..] == Collapse(x[1..]);
    }
  }

  lemma {:induction false} CollapseNoBlankLineRec(s: string)
    ensures NoBlankLineRec(Collapse(s))
    decreases |s|
  {
    if s == [] {
    } else if s[0] == '\n' {
      var rest := s[1 + BlankPrefix(s[1..])..];
      assert rest == s[1..][BlankPrefix(s[1..])..];
      CollapseNoBlankLineRec(rest);
      CollapseKeepsLeadRun(rest);
      assert Collapse(s)[1..] == Collapse(rest);
    } else {
      CollapseNoBlankLineRec(s[1..]);
      assert Collapse(s)[1..] == Collapse(s[1..]);
    }
  }

  lemma {:induction false} LeadRunBlocks(x: string, m: nat)
    requires LeadRunNoNewline(x) && m < |x| && x[m] == '\n'
    ensures !AllSpace(x[..m])
    decreases |x|
  {
    if IsSpace(x[0]) {
      assert x[0] != '\n';
      LeadRunBlocks(x[1..], m - 1);
      assert x[1..][..m - 1] == x[..m][1..];
    }
  }

  lemma {:induction false} NoBlankLineRecSound(t: string)
    requires NoBlankLineRec(t)
    ensures NoBlankLine(t)
    decreases |t|
  {
    if t != [] {
      NoBlankLineRecSound(t[1..]);
      forall i, j | 0 <= i < j < |t| && t[i] == '\n' && t[j] == '\n'
        ensures !AllSpace(t[i + 1..j])
      {
        if i == 0 {
          LeadRunBlocks(t[1..], j - 1);
          assert t[1..][..j - 1] == t[1..j];
        } else {
          assert t[1..][i - 1] == '\n' && t[1..][j - 1] == '\n';
          assert t[1..][i..j - 1] == t[i + 1..j];
        }
      }
    }
  }

  /** After the collapse the text has no blank line. */
  lemma {:induction false} CollapseNoBlankLine(s: string)
    ensures NoBlankLine(Collapse(s))
  {
    CollapseNoBlankLineRec(s);
    NoBlankLineRecSound(Collapse(s));
  }

  // ---------------------------------------------------------------------------------
  // re.sub(r'^\s+', '', s, flags=re.MULTILINE)

  /** At the start of the text and after every newline of the original text, the whole
      run of whitespace found there (newlines included) is deleted. `atLineStart` says
      whether `s` begins at such a position. */
  function StripLineStartsFrom(s: string, atLineStart: bool): (r: string)
    ensures |r| <= |s|
    ensures s != [] && !IsSpace(s[0]) ==> r != [] && r[0] == s[0]
    ensures atLineStart ==> r == [] || !IsSpace(r[0])
    ensures LinesLeftStripped(r)
    decreases |s|
  {
    if s == [] then []
    else if atLineStart && IsSpace(s[0]) then
      var n := SpaceRunEnd(s, 0);
      StripLineStartsFrom(s[n..], s[n - 1] == '\n')
    else
      var rest := StripLineStartsFrom(s[1..], s[0] == '\n');
      var r := [s[0]] + rest;
      assert LinesLeftStripped(r) by {
        forall i | 0 <= i < |r| - 1 && r[i] == '\n' ensures !IsSpace(r[i + 1]) {
          if i > 0 { assert rest[i - 1] == '\n'; }
        }
      }
      r
  }

  function StripLineStarts(s: string): (r: string)
    ensures |r| <= |s|
    ensures LinesLeftStripped(r)
  {
    StripLineStartsFrom(s, true)
  }
}
