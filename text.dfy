/** Characters and strings as Python's `str` treats them: whitespace, ASCII lower-casing,
    `strip()`, and the line shapes the answer cleaners promise. */
module Text {

  datatype Option<+T> = None | Some(value: T) {
    /** `value` when present, `default` otherwise (Python's `d.get(key, default)`). */
    function GetOr(default: T): T {
      match this
      case Some(v) => v
      case None => default
    }
  }

  /** Python's `str.isspace()`; `\s` in a `str` regular expression matches the same set. */
  predicate IsSpace(c: char) {
    || c == ' ' || c == '\t' || c == '\n' || c == '\r' || c == '\U{B}' || c == '\U{C}'
    || ('\U{1C}' <= c <= '\U{1F}') || c == '\U{85}' || c == '\U{A0}' || c == '\U{1680}'
    || ('\U{2000}' <= c <= '\U{200A}') || c == '\U{2028}' || c == '\U{2029}'
    || c == '\U{202F}' || c == '\U{205F}' || c == '\U{3000}'
  }

  predicate AllSpace(s: string) {
    forall k :: 0 <= k < |s| ==> IsSpace(s[k])
  }

  /** Concatenation regroups freely; with sequences of strings the solver does better
      when told. */
  lemma {:induction false} Associative<T>(a: seq<T>, b: seq<T>, c: seq<T>)
    ensures a + (b + c) == (a + b) + c
  {
  }

  lemma {:induction false} EmptyPrefix<T>(a: seq<T>)
    ensures [] + a == a
  {
  }

  lemma {:induction false} EmptySuffix<T>(a: seq<T>)
    ensures a + [] == a
  {
  }

  /** `str.lower()` on one character, for the ASCII letters. */
  function Lower(c: char): (r: char)
    ensures IsSpace(r) == IsSpace(c)
    ensures r == '.' <==> c == '.'
  {
    if 'A' <= c <= 'Z' then (c as int + 32) as char else c
  }

  function LowerStr(s: string): (r: string)
    ensures |r| == |s|
    ensures forall k :: 0 <= k < |s| ==> r[k] == Lower(s[k])
  {
    seq(|s|, k requires 0 <= k < |s| => Lower(s[k]))
  }

  /** The end of the run of whitespace that starts at `i`. */
  function SpaceRunEnd(s: string, i: nat): (j: nat)
    requires i <= |s|
    ensures i <= j <= |s|
    ensures forall k :: i <= k < j ==> IsSpace(s[k])
    ensures j == |s| || !IsSpace(s[j])
    decreases |s| - i
  {
    if i < |s| && IsSpace(s[i]) then SpaceRunEnd(s, i + 1) else i
  }

  /** `str.lstrip()`: drops exactly the leading run of whitespace (`TrimStartShape`). */
  function TrimStart(s: string): (r: string)
    ensures |r| <= |s|
    ensures r == [] || !IsSpace(r[0])
  {
    if s != [] && IsSpace(s[0]) then TrimStart(s[1..]) else s
  }

  /** What `lstrip` keeps is a suffix of the input, and what it drops is all whitespace. */
  lemma {:induction false} TrimStartShape(s: string)
    ensures var r := TrimStart(s); r == s[|s| - |r|..] && AllSpace(s[..|s| - |r|])
    decreases |s|
  {
    if s != [] && IsSpace(s[0]) {
      var r := TrimStart(s[1..]);
      TrimStartShape(s[1..]);
      assert s[1..][|s| - 1 - |r|..] == s[|s| - |r|..];
      assert s[..|s| - |r|] == [s[0]] + s[1..][..|s| - 1 - |r|];
    } else {
      assert s[..0] == [];
    }
  }

  /** `str.rstrip()`: drops exactly the trailing run of whitespace (`TrimEndShape`). */
  function TrimEnd(s: string): (r: string)
    ensures |r| <= |s|
    ensures r == [] || !IsSpace(r[|r| - 1])
  {
    if s != [] && IsSpace(s[|s| - 1]) then TrimEnd(s[..|s| - 1]) else s
  }

  /** What `rstrip` keeps is a prefix of the input, and what it drops is all whitespace. */
  lemma {:induction false} TrimEndShape(s: string)
    ensures var r := TrimEnd(s); r == s[..|r|] && AllSpace(s[|r|..])
    decreases |s|
  {
    if s != [] && IsSpace(s[|s| - 1]) {
      var r := TrimEnd(s[..|s| - 1]);
      TrimEndShape(s[..|s| - 1]);
      assert s[..|s| - 1][..|r|] == s[..|r|];
      assert s[|r|..] == s[..|s| - 1][|r|..] + [s[|s| - 1]];
    } else {
      assert s[..|s|] == s;
    }
  }

  predicate IsStripped(s: string) {
    s == [] || (!IsSpace(s[0]) && !IsSpace(s[|s| - 1]))
  }

  /** `str.strip()`: the input with its leading and trailing whitespace removed
      (`StripShape`). */
  function Strip(s: string): (r: string)
    ensures IsStripped(r) && |r| <= |s|
  {
    var t := TrimStart(s);
    var r := TrimEnd(t);
    assert r == [] || !IsSpace(r[0]) by {
      if r != [] { TrimEndShape(t); assert r[0] == t[0]; }
    }
    r
  }

  /** The result of `strip` is a contiguous piece of the input that starts where `lstrip`
      stops. */
  lemma {:induction false} StripShape(s: string)
    ensures |Strip(s)| <= |TrimStart(s)| && Strip(s) == s[|s| - |TrimStart(s)|..][..|Strip(s)|]
  {
    TrimStartShape(s);
    TrimEndShape(TrimStart(s));
  }

  /** Stripping twice strips nothing more. */
  lemma {:induction false} StripIdempotent(s: string)
    ensures Strip(Strip(s)) == Strip(s)
  {
    var r := Strip(s);
    assert TrimStart(r) == r;
    TrimEndOfStripped(r);
  }

  lemma {:induction false} TrimEndOfStripped(r: string)
    requires r == [] || !IsSpace(r[|r| - 1])
    ensures TrimEnd(r) == r
  {
  }

  /** Lower-casing changes no character into or out of whitespace, so it commutes with
      stripping. */
  lemma {:induction false} StripLowerCommute(s: string)
    ensures Strip(LowerStr(s)) == LowerStr(Strip(s))
  {
    TrimStartLower(s);
    TrimEndLower(TrimStart(s));
  }

  lemma {:induction false} TrimStartLower(s: string)
    ensures TrimStart(LowerStr(s)) == LowerStr(TrimStart(s))
    decreases |s|
  {
    if s != [] && IsSpace(s[0]) {
      assert LowerStr(s)[1..] == LowerStr(s[1..]);
      TrimStartLower(s[1..]);
    }
  }

  lemma {:induction false} TrimEndLower(s: string)
    ensures TrimEnd(LowerStr(s)) == LowerStr(TrimEnd(s))
    decreases |s|
  {
    if s != [] && IsSpace(s[|s| - 1]) {
      LowerStrPrefix(s, |s| - 1);
      TrimEndLower(s[..|s| - 1]);
    }
  }

  lemma {:induction false} LowerStrAppend(a: string, b: string)
    ensures LowerStr(a + b) == LowerStr(a) + LowerStr(b)
  {
  }

  lemma {:induction false} LowerStrPrefix(s: string, k: nat)
    requires k <= |s|
    ensures LowerStr(s)[..k] == LowerStr(s[..k])
  {
  }

  lemma {:induction false} LowerStrIdempotent(s: string)
    ensures LowerStr(LowerStr(s)) == LowerStr(s)
  {
  }

  /** No two newlines are separated by whitespace alone: the text has no blank line. */
  predicate NoBlankLine(t: string) {
    forall i, j :: 0 <= i < j < |t| && t[i] == '\n' && t[j] == '\n' ==> !AllSpace(t[i + 1..j])
  }

  /** Every line after a newline starts with a character that is not whitespace. */
  predicate LinesLeftStripped(t: string) {
    forall i :: 0 <= i < |t| - 1 && t[i] == '\n' ==> !IsSpace(t[i + 1])
  }

  lemma {:induction false} LeftStrippedHasNoBlankLine(t: string)
    requires LinesLeftStripped(t)
    ensures NoBlankLine(t)
  {
    forall i, j | 0 <= i < j < |t| && t[i] == '\n' && t[j] == '\n'
      ensures !AllSpace(t[i + 1..j])
    {
      assert t[i + 1..j][0] == t[i + 1];
    }
  }

  /** Both shapes survive taking a contiguous piece of the text. */
  lemma {:induction false} NoBlankLineSlice(t: string, a: nat, b: nat, u: string)
    requires a <= b <= |t| && NoBlankLine(t) && u == t[a..b]
    ensures NoBlankLine(u)
  {
    forall i, j | 0 <= i < j < |u| && u[i] == '\n' && u[j] == '\n'
      ensures !AllSpace(u[i + 1..j])
    {
      assert t[a + i] == '\n' && t[a + j] == '\n';
      var x, y := u[i + 1..j], t[a + i + 1..a + j];
      assert |x| == |y|;
      forall k | 0 <= k < |x| ensures x[k] == y[k] {
        assert u[i + 1 + k] == t[a + i + 1 + k];
      }
      assert x == y;
    }
  }

  lemma {:induction false} LinesLeftStrippedSlice(t: string, a: nat, b: nat, u: string)
    requires a <= b <= |t| && LinesLeftStripped(t) && u == t[a..b]
    ensures LinesLeftStripped(u)
  {
    forall i | 0 <= i < |u| - 1 && u[i] == '\n'
      ensures !IsSpace(u[i + 1])
    {
      assert u[i] == t[a + i] && u[i + 1] == t[a + i + 1];
    }
  }

  lemma {:induction false} StripKeepsLinesLeftStripped(s: string)
    requires LinesLeftStripped(s)
    ensures LinesLeftStripped(Strip(s))
  {
    StripShape(s);
    var b := |s| - |TrimStart(s)|;
    LinesLeftStrippedSlice(s, b, b + |Strip(s)|, Strip(s));
  }

  lemma {:induction false} StripKeepsNoBlankLine(s: string)
    requires NoBlankLine(s)
    ensures NoBlankLine(Strip(s))
  {
    StripShape(s);
    var b := |s| - |TrimStart(s)|;
    NoBlankLineSlice(s, b, b + |Strip(s)|, Strip(s));
  }

  /** The characters `str.splitlines()` ends a line at. */
  predicate IsLineBoundary(c: char) {
    || c == '\n' || c == '\r' || c == '\U{B}' || c == '\U{C}' || c == '\U{1C}' || c == '\U{1D}'
    || c == '\U{1E}' || c == '\U{85}' || c == '\U{2028}' || c == '\U{2029}'
  }

  lemma {:induction false} LineBoundaryIsSpace(c: char)
    ensures IsLineBoundary(c) ==> IsSpace(c)
  {
  }

  predicate SingleLine(s: string) {
    forall k :: 0 <= k < |s| ==> !IsLineBoundary(s[k])
  }

  /** The first line boundary at or after `i`, or the end. */
  function LineEnd(s: string, i: nat): (e: nat)
    requires i <= |s|
    ensures i <= e <= |s| && (e == |s| || IsLineBoundary(s[e]))
    ensures forall k :: i <= k < e ==> !IsLineBoundary(s[k])
    decreases |s| - i
  {
    if i == |s| || IsLineBoundary(s[i]) then i else LineEnd(s, i + 1)
  }

  /** `str.splitlines()`: the lines without their boundaries; `\r\n` is one boundary and a
      boundary at the very end opens no further line. */
  function SplitLines(s: string): (r: seq<string>)
    ensures forall k :: 0 <= k < |r| ==> SingleLine(r[k])
    ensures s == [] <==> r == []
    ensures s != [] ==> r[0] == s[..LineEnd(s, 0)]
    decreases |s|
  {
    if s == [] then []
    else
      var e := LineEnd(s, 0);
      var next := if e + 1 < |s| && s[e] == '\r' && s[e + 1] == '\n' then e + 2
                  else if e < |s| then e + 1 else e;
      [s[..e]] + SplitLines(s[next..])
  }

  /** A line ended by a boundary other than the `\r` of a `\r\n`: that line, then the
      lines of what follows. A boundary at the very end opens no further line. */
  lemma {:induction false} SplitLinesBoundary(x: string, b: char, y: string)
    requires SingleLine(x) && IsLineBoundary(b)
    requires b == '\r' ==> y == [] || y[0] != '\n'
    ensures SplitLines(x + [b] + y) == [x] + SplitLines(y)
  {
    var s := x + [b] + y;
    LineEndAt(x, [b] + y);
    assert s == x + ([b] + y);
    assert s[|x|] == b && (y != [] ==> s[|x| + 1] == y[0]);
    assert s[..|x|] == x && s[|x| + 1..] == y;
  }

  /** A line ended by `\r\n`: one boundary, not two. */
  lemma {:induction false} SplitLinesCrLf(x: string, y: string)
    requires SingleLine(x)
    ensures SplitLines(x + "\r\n" + y) == [x] + SplitLines(y)
  {
    var s := x + "\r\n" + y;
    LineEndAt(x, "\r\n" + y);
    assert s == x + ("\r\n" + y);
    assert s[|x|] == '\r' && s[|x| + 1] == '\n';
    assert s[..|x|] == x && s[|x| + 2..] == y;
  }

  /** A last line with no boundary after it is a line of its own. */
  lemma {:induction false} SplitLinesLast(x: string)
    requires x != [] && SingleLine(x)
    ensures SplitLines(x) == [x]
  {
    LineEndAt(x, []);
    assert x[..|x|] == x && x[|x|..] == [];
  }

  /** The first boundary of `x + t`, for a single line `x` and `t` empty or starting with a
      boundary, is where `x` ends. */
  lemma {:induction false} LineEndAt(x: string, t: string)
    requires SingleLine(x) && (t == [] || IsLineBoundary(t[0]))
    ensures LineEnd(x + t, 0) == |x|
  {
    var s := x + t;
    assert forall k :: 0 <= k < |x| ==> s[k] == x[k];
    assert t != [] ==> s[|x|] == t[0];
  }

  /** `s.strip()` is empty exactly when `s` is all whitespace. */
  lemma {:induction false} StripEmpty(s: string)
    ensures Strip(s) == [] <==> AllSpace(s)
  {
    var t := TrimStart(s);
    TrimStartShape(s);
    if t != [] {
      TrimEndShape(t);
      assert t[0] == s[|s| - |t|];
      assert TrimEnd(t) != [] by {
        if TrimEnd(t) == [] { assert false; }
      }
    } else {
      assert s[..|s|] == s;
    }
  }

  /** Stripping a single line leaves a single line. */
  lemma {:induction false} StripSingleLine(s: string)
    ensures SingleLine(s) ==> SingleLine(Strip(s))
  {
    if SingleLine(s) {
      StripShape(s);
      var b := |s| - |TrimStart(s)|;
      SingleLineSlice(s, b, b + |Strip(s)|, Strip(s));
    }
  }

  lemma {:induction false} SingleLineSlice(t: string, a: nat, b: nat, u: string)
    requires a <= b <= |t| && SingleLine(t) && u == t[a..b]
    ensures SingleLine(u)
  {
    forall k | 0 <= k < |u| ensures !IsLineBoundary(u[k]) {
      assert u[k] == t[a + k];
    }
  }
}
