/**
 * The numeric extractor (`sum_numbers_from_string`): sums every signed decimal token of a
 * loosely formatted reading such as "22865\n22603\n22200" or "3.86-0.20-0.00-0.00".
 *
 * Tokens follow the pattern `[-+]?\d+(?:\.\d+)?` with ASCII digits, matched left to right
 * without overlap as `re.findall` does. Values are exact reals.
 */
module Numbers {
  import opened Common

  predicate IsDigit(c: char) { '0' <= c <= '9' }

  predicate AllDigits(w: string)
  {
    forall i :: 0 <= i < |w| ==> IsDigit(w[i])
  }

  predicate IsSign(c: char) { c == '+' || c == '-' }

  /** Characters that cannot extend a match that precedes them. */
  predicate Stops(c: char) { !IsDigit(c) && c != '.' }

  /** Characters that can neither start nor extend a match. */
  predicate IsSeparator(c: char) { Stops(c) && !IsSign(c) }

  /** The characters Python's `str.strip()` removes (those `str.isspace()` accepts). */
  predicate IsSpace(c: char)
  {
    c == ' ' || ('\t' <= c <= '\r') || ('\U{1C}' <= c <= '\U{1F}') || c == '\U{85}' || c == '\U{A0}'
    || c == '\U{1680}' || ('\U{2000}' <= c <= '\U{200A}') || c == '\U{2028}' || c == '\U{2029}'
    || c == '\U{202F}' || c == '\U{205F}' || c == '\U{3000}'
  }

  predicate IsBreak(c: char) { c == '\r' || c == '\n' }

  lemma SpaceIsSeparator(c: char)
    requires IsSpace(c)
    ensures IsSeparator(c)
  {
  }

  // ---------------------------------------------------------------------------------------
  // Tokenizer: re.findall(r"[-+]?\d+(?:\.\d+)?", line)
  // ---------------------------------------------------------------------------------------

  /** Length of the longest run of digits at the start of `s`. */
  function DigitRun(s: string): (n: nat)
    ensures n <= |s|
    ensures n < |s| ==> !IsDigit(s[n])
  {
    if s != [] && IsDigit(s[0]) then 1 + DigitRun(s[1..]) else 0
  }

  /** A non-empty digit run starts and ends with a digit. */
  lemma {:induction false} DigitRunEnds(s: string)
    ensures DigitRun(s) > 0 ==> IsDigit(s[0]) && IsDigit(s[DigitRun(s) - 1])
    decreases |s|
  {
    if s != [] && IsDigit(s[0]) && DigitRun(s[1..]) > 0 {
      DigitRunEnds(s[1..]);
    }
  }

  /** 1 when `s` starts with a sign that the pattern can take (a digit follows), else 0. */
  function SignLength(s: string): (k: nat)
    ensures k <= 1
  {
    if |s| >= 2 && IsSign(s[0]) && IsDigit(s[1]) then 1 else 0
  }

  /** Length of the optional `(?:\.\d+)` group at position `e`; 0 when it is absent. */
  function FractionLength(s: string, e: nat): (f: nat)
    requires e <= |s|
    ensures e + f <= |s|
  {
    if e + 1 < |s| && s[e] == '.' && IsDigit(s[e + 1]) then 1 + DigitRun(s[e + 1..]) else 0
  }

  /** Length of the match of the token pattern anchored at the start of `s`; 0 when there is none. */
  function MatchLength(s: string): (n: nat)
    ensures n <= |s|
  {
    var k := SignLength(s);
    var d := DigitRun(s[k..]);
    if d == 0 then 0 else k + d + FractionLength(s, k + d)
  }

  /** The match at the start of `s` exists exactly when `s` starts with a digit, or with a
      sign and a digit; it ends with a digit and takes every digit that follows. */
  lemma MatchShape(s: string)
    ensures var n := MatchLength(s);
      && (n > 0 <==> (s != [] && IsDigit(s[0])) || (|s| >= 2 && IsSign(s[0]) && IsDigit(s[1])))
      && (n > 0 ==> IsDigit(s[n - 1]))
      && (0 < n < |s| ==> !IsDigit(s[n]))
  {
    var k := SignLength(s);
    var d := DigitRun(s[k..]);
    DigitRunEnds(s[k..]);
    if d > 0 {
      var e := k + d;
      if FractionLength(s, e) > 0 {
        DigitRunEnds(s[e + 1..]);
      }
    }
  }

  /** A non-empty text that starts with a digit or a sign and ends with a digit. */
  predicate Numeric(t: string)
  {
    t != [] && (IsDigit(t[0]) || IsSign(t[0])) && IsDigit(t[|t| - 1])
  }

  /** Every non-overlapping match, left to right: the scan tries each position in turn. */
  function Tokens(s: string): (r: seq<string>)
    ensures forall k :: 0 <= k < |r| ==> Numeric(r[k])
    decreases |s|
  {
    if s == [] then []
    else
      var n := MatchLength(s);
      MatchShape(s);
      if n == 0 then Tokens(s[1..]) else [s[..n]] + Tokens(s[n..])
  }

  // ---------------------------------------------------------------------------------------
  // float(p) on the token grammar
  // ---------------------------------------------------------------------------------------

  function Pow10(n: nat): (r: nat)
    ensures r >= 1
  {
    if n == 0 then 1 else 10 * Pow10(n - 1)
  }

  function DigitValue(c: char): nat
  {
    if IsDigit(c) then c as int - '0' as int else 0
  }

  /** Value of a run of decimal digits: "205" is 205. */
  function DigitsValue(ds: string): nat
  {
    if ds == [] then 0 else DigitValue(ds[0]) * Pow10(|ds| - 1) + DigitsValue(ds[1..])
  }

  /** Value of the digits after a decimal point: "25" is 0.25. */
  function FractionValue(ds: string): (r: real)
    ensures 0.0 <= r < 1.0
  {
    if ds == [] then 0.0
    else (DigitValue(ds[0]) as real + FractionValue(ds[1..])) / 10.0
  }

  /** `float(p)` for `digits` or `digits.digits`; None on anything else. */
  function ParseUnsigned(p: string): Option<real>
  {
    var d := DigitRun(p);
    if d == 0 then None
    else if d == |p| then Some(DigitsValue(p) as real)
    else if p[d] == '.' && d + 1 < |p| && DigitRun(p[d + 1..]) == |p| - d - 1 then
      Some(DigitsValue(p[..d]) as real + FractionValue(p[d + 1..]))
    else None
  }

  /** `float(p)` for an optional sign followed by the unsigned grammar: a value below zero only
      after a minus, and a plain run of digits reads as its integer value, with either sign. */
  function ParseDecimal(p: string): (r: Option<real>)
    ensures r.Some? && r.value < 0.0 ==> p != [] && p[0] == '-'
    ensures p != [] && AllDigits(p) ==> r == Some(DigitsValue(p) as real)
    ensures |p| >= 2 && IsSign(p[0]) && AllDigits(p[1..]) ==>
      r == Some(if p[0] == '-' then -(DigitsValue(p[1..]) as real) else DigitsValue(p[1..]) as real)
  {
    DigitRunOfDigits(p);
    DigitRunOfDigits(if p == [] then p else p[1..]);
    if p != [] && IsSign(p[0]) then
      match ParseUnsigned(p[1..])
      case None => None
      case Some(v) => Some(if p[0] == '-' then -v else v)
    else ParseUnsigned(p)
  }

  /** A run made of digits only is all digit run. */
  lemma {:induction false} DigitRunOfDigits(s: string)
    ensures AllDigits(s) ==> DigitRun(s) == |s|
    decreases |s|
  {
    if s != [] && AllDigits(s) {
      DigitRunOfDigits(s[1..]);
    }
  }

  /** Sum of the values of the parts that convert; a part that does not is skipped. */
  function TokenTotal(parts: seq<string>): real
  {
    if parts == [] then 0.0 else ParseDecimal(parts[0]).GetOr(0.0) + TokenTotal(parts[1..])
  }

  // ---------------------------------------------------------------------------------------
  // Normalisation and line splitting
  // ---------------------------------------------------------------------------------------

  predicate AllSpace(s: string)
  {
    forall i :: 0 <= i < |s| ==> IsSpace(s[i])
  }

  function StripLeft(s: string): string
  {
    if s != [] && IsSpace(s[0]) then StripLeft(s[1..]) else s
  }

  function StripRight(s: string): string
  {
    if s != [] && IsSpace(s[|s| - 1]) then StripRight(s[..|s| - 1]) else s
  }

  lemma {:induction false} StripLeftFacts(s: string)
    ensures |StripLeft(s)| <= |s| && StripLeft(s) == s[|s| - |StripLeft(s)|..]
    ensures StripLeft(s) == [] <==> AllSpace(s)
    ensures StripLeft(s) != [] ==> !IsSpace(StripLeft(s)[0])
    ensures s == [] || !IsSpace(s[0]) ==> StripLeft(s) == s
    decreases |s|
  {
    if s != [] && IsSpace(s[0]) {
      StripLeftFacts(s[1..]);
      assert s[1..][|s[1..]| - |StripLeft(s)|..] == s[|s| - |StripLeft(s)|..];
      if AllSpace(s[1..]) {
        assert AllSpace(s) by {
          forall i | 0 <= i < |s| ensures IsSpace(s[i]) {
            if i > 0 { assert s[i] == s[1..][i - 1]; }
          }
        }
      }
    }
  }

  lemma {:induction false} StripRightFacts(s: string)
    ensures |StripRight(s)| <= |s| && StripRight(s) == s[..|StripRight(s)|]
    ensures StripRight(s) == [] <==> AllSpace(s)
    ensures StripRight(s) != [] ==> !IsSpace(StripRight(s)[|StripRight(s)| - 1])
    ensures s == [] || !IsSpace(s[|s| - 1]) ==> StripRight(s) == s
    decreases |s|
  {
    if s != [] && IsSpace(s[|s| - 1]) {
      var p := s[..|s| - 1];
      StripRightFacts(p);
      assert p[..|StripRight(s)|] == s[..|StripRight(s)|];
      if AllSpace(p) {
        assert AllSpace(s) by {
          forall i | 0 <= i < |s| ensures IsSpace(s[i]) {
            if i < |s| - 1 { assert s[i] == p[i]; }
          }
        }
      }
    }
  }

  /** `str.strip()`: no space is left at either end, a blank text strips to nothing, and a text
      with no space at its ends is kept whole. */
  function Strip(s: string): (r: string)
    ensures |r| <= |s|
    ensures r == [] <==> AllSpace(s)
    ensures r != [] ==> !IsSpace(r[0]) && !IsSpace(r[|r| - 1])
    ensures s == [] || (!IsSpace(s[0]) && !IsSpace(s[|s| - 1])) ==> r == s
  {
    StripLeftFacts(s);
    StripRightFacts(StripLeft(s));
    StripRight(StripLeft(s))
  }

  /** Non-breaking space becomes a space, then comma becomes a period. */
  function NormalChar(c: char): char
  {
    if c == '\U{A0}' then ' ' else if c == ',' then '.' else c
  }

  /** `s.replace("\u00A0", " ").replace(",", ".")`: each character on its own. */
  function Normalize(s: string): (r: string)
    ensures |r| == |s| && forall i :: 0 <= i < |s| ==> r[i] == NormalChar(s[i])
  {
    Replace(Replace(s, '\U{A0}', ' '), ',', '.')
  }

  /** Number of characters before the first line break (or |s|). */
  function LineLength(s: string): (n: nat)
    ensures n <= |s|
    ensures n < |s| ==> IsBreak(s[n])
  {
    if s != [] && !IsBreak(s[0]) then 1 + LineLength(s[1..]) else 0
  }

  /** Length of the run of line breaks at the start of `s`. */
  function BreakRun(s: string): (n: nat)
    ensures n <= |s|
    ensures n < |s| ==> !IsBreak(s[n])
  {
    if s != [] && IsBreak(s[0]) then 1 + BreakRun(s[1..]) else 0
  }

  /** What follows the first line of `v` and the run of breaks after it. */
  function AfterLine(v: string): (r: string)
    requires LineLength(v) < |v|
    ensures |r| < |v|
  {
    var w := v[LineLength(v)..];
    w[BreakRun(w)..]
  }

  predicate NoBreak(w: string)
  {
    forall i :: 0 <= i < |w| ==> !IsBreak(w[i])
  }

  /** The first line holds no break. */
  lemma {:induction false} LineHasNoBreak(s: string)
    ensures NoBreak(s[..LineLength(s)])
    decreases |s|
  {
    if s != [] && !IsBreak(s[0]) {
      LineHasNoBreak(s[1..]);
      var n := LineLength(s);
      forall i | 0 <= i < n ensures !IsBreak(s[..n][i]) {
        if i > 0 { assert s[..n][i] == s[1..][..n - 1][i - 1]; }
      }
    }
  }

  /** `re.split(r"[\r\n]+", s)`: the pieces between maximal runs of line breaks. No piece holds
      a break, and a text without breaks is its own one piece. */
  function SplitBreaks(s: string): (pieces: seq<string>)
    ensures |pieces| >= 1
    ensures forall k :: 0 <= k < |pieces| ==> NoBreak(pieces[k])
    ensures NoBreak(s) ==> pieces == [s]
    decreases |s|
  {
    LineHasNoBreak(s);
    var i := LineLength(s);
    if i == |s| then [s] else [s[..i]] + SplitBreaks(AfterLine(s))
  }

  /** `[ln.strip() for ln in pieces if ln.strip() != ""]` */
  function NonEmptyStripped(pieces: seq<string>): (lines: seq<string>)
    ensures forall k :: 0 <= k < |lines| ==> lines[k] != ""
  {
    if pieces == [] then []
    else
      var ln := Strip(pieces[0]);
      (if ln != "" then [ln] else []) + NonEmptyStripped(pieces[1..])
  }

  function Lines(s: string): seq<string>
  {
    NonEmptyStripped(SplitBreaks(s))
  }

  /** Sum over the lines of the matches in each line. */
  function LinesTotal(lines: seq<string>): real
  {
    if lines == [] then 0.0 else TokenTotal(Tokens(lines[0])) + LinesTotal(lines[1..])
  }

  /** The value `sum_numbers_from_string` returns, computed line by line as the code does. It is
      the sum of every match in the whole normalised text: stripping, splitting at line-break
      runs and dropping blank lines change no match. */
  function SumNumbers(s: Option<string>): (r: real)
    ensures s.None? ==> r == 0.0
    ensures s.Some? ==> r == TokenTotal(Tokens(Normalize(s.value)))
  {
    match s
    case None => 0.0
    case Some(t) =>
      var u := Strip(t);
      NormalizeStrip(t);
      if u == "" then
        assert Normalize(u) == [];
        0.0
      else
        LinesOfPieces(SplitBreaks(Normalize(u)));
        PiecesOfSplit(Normalize(u));
        LinesTotal(Lines(Normalize(u)))
  }

  /** sum_numbers_from_string: line by line, token by token, skipping parts that do not convert. */
  method SumNumbersFromString(s: Option<string>) returns (total: real)
    ensures total == SumNumbers(s)
    ensures s.Some? ==> total == TokenTotal(Tokens(Normalize(s.value)))
  {
    if s.None? {
      return 0.0;
    }
    var u := Strip(s.value);
    if u == "" {
      return 0.0;
    }
    var lines := Lines(Normalize(u));
    total := 0.0;
    var i := 0;
    while i < |lines|
      invariant 0 <= i <= |lines|
      invariant total == LinesTotal(lines[..i])
    {
      var parts := Tokens(lines[i]);
      var j := 0;
      ghost var before := total;
      while j < |parts|
        invariant 0 <= j <= |parts|
        invariant total == before + TokenTotal(parts[..j])
      {
        var v := ParseDecimal(parts[j]);
        if v.Some? {
          total := total + v.value;
        }
        TokenTotalStep(parts, j);
        j := j + 1;
      }
      assert parts[..j] == parts;
      LinesTotalStep(lines, i);
      i := i + 1;
    }
    assert lines[..i] == lines;
  }

  // ---------------------------------------------------------------------------------------
  // Properties
  // ---------------------------------------------------------------------------------------

  lemma {:induction false} TokenTotalConcat(a: seq<string>, b: seq<string>)
    ensures TokenTotal(a + b) == TokenTotal(a) + TokenTotal(b)
    decreases |a|
  {
    if a == [] {
      assert a + b == b;
    } else {
      assert (a + b)[1..] == a[1..] + b;
      TokenTotalConcat(a[1..], b);
    }
  }

  lemma {:induction false} LinesTotalConcat(a: seq<string>, b: seq<string>)
    ensures LinesTotal(a + b) == LinesTotal(a) + LinesTotal(b)
    decreases |a|
  {
    if a == [] {
      assert a + b == b;
    } else {
      assert (a + b)[1..] == a[1..] + b;
      LinesTotalConcat(a[1..], b);
    }
  }

  lemma TokenTotalStep(parts: seq<string>, j: nat)
    requires j < |parts|
    ensures TokenTotal(parts[..j + 1]) == TokenTotal(parts[..j]) + ParseDecimal(parts[j]).GetOr(0.0)
  {
    assert parts[..j + 1] == parts[..j] + [parts[j]];
    TokenTotalConcat(parts[..j], [parts[j]]);
  }

  lemma LinesTotalStep(lines: seq<string>, i: nat)
    requires i < |lines|
    ensures LinesTotal(lines[..i + 1]) == LinesTotal(lines[..i]) + TokenTotal(Tokens(lines[i]))
  {
    assert lines[..i + 1] == lines[..i] + [lines[i]];
    LinesTotalConcat(lines[..i], [lines[i]]);
  }

  /** A leading character that cannot start a match is skipped. */
  lemma TokensSkip(c: char, y: string)
    requires !IsDigit(c) && !IsSign(c)
    ensures Tokens([c] + y) == Tokens(y)
  {
    assert ([c] + y)[1..] == y;
  }

  lemma {:induction false} DigitRunConcat(x: string, t: string)
    requires t != [] && !IsDigit(t[0])
    ensures DigitRun(x + t) == DigitRun(x)
    decreases |x|
  {
    if x == [] {
      assert x + t == t;
    } else {
      assert (x + t)[1..] == x[1..] + t;
      DigitRunConcat(x[1..], t);
    }
  }

  lemma SignLengthConcat(x: string, t: string)
    requires x != [] && t != [] && Stops(t[0])
    ensures SignLength(x + t) == SignLength(x)
  {
    if |x| == 1 {
      assert (x + t)[1] == t[0];
    } else {
      assert (x + t)[1] == x[1];
    }
  }

  lemma FractionLengthConcat(x: string, t: string, e: nat)
    requires e <= |x| && t != [] && Stops(t[0])
    ensures FractionLength(x + t, e) == FractionLength(x, e)
  {
    var s := x + t;
    if e + 1 < |x| {
      assert s[e] == x[e] && s[e + 1] == x[e + 1];
      assert s[e + 1..] == x[e + 1..] + t;
      DigitRunConcat(x[e + 1..], t);
    } else if e + 1 == |x| {
      assert s[e + 1] == t[0];
    } else {
      assert s[e] == t[0];
    }
  }

  /** A character that cannot extend a match ends whatever match starts at the front of `x`. */
  lemma MatchLengthConcat(x: string, t: string)
    requires x != [] && t != [] && Stops(t[0])
    ensures MatchLength(x + t) == MatchLength(x)
  {
    var k := SignLength(x);
    SignLengthConcat(x, t);
    assert (x + t)[k..] == x[k..] + t;
    DigitRunConcat(x[k..], t);
    var d := DigitRun(x[k..]);
    if d > 0 {
      FractionLengthConcat(x, t, k + d);
    }
  }

  /** Matches never straddle a separator. */
  lemma {:induction false} TokensConcat(x: string, t: string)
    requires t == [] || IsSeparator(t[0])
    ensures Tokens(x + t) == Tokens(x) + Tokens(t)
    decreases |x|
  {
    if t == [] {
      assert x + t == x;
      assert Tokens(x) + [] == Tokens(x);
    } else if x == [] {
      assert x + t == t;
    } else {
      MatchLengthConcat(x, t);
      var n := MatchLength(x);
      if n == 0 {
        assert (x + t)[1..] == x[1..] + t;
        TokensConcat(x[1..], t);
      } else {
        assert (x + t)[..n] == x[..n];
        assert (x + t)[n..] == x[n..] + t;
        TokensConcat(x[n..], t);
      }
    }
  }

  /** A run of line breaks contributes no match. */
  lemma {:induction false} TokensSkipBreaks(w: string)
    ensures Tokens(w) == Tokens(w[BreakRun(w)..])
    decreases |w|
  {
    if w != [] && IsBreak(w[0]) {
      assert w == [w[0]] + w[1..];
      TokensSkip(w[0], w[1..]);
      TokensSkipBreaks(w[1..]);
      assert w[BreakRun(w)..] == w[1..][BreakRun(w[1..])..];
    }
  }

  lemma {:induction false} TokensStripLeft(s: string)
    ensures Tokens(StripLeft(s)) == Tokens(s)
    decreases |s|
  {
    if s != [] && IsSpace(s[0]) {
      assert s == [s[0]] + s[1..];
      TokensSkip(s[0], s[1..]);
      TokensStripLeft(s[1..]);
    }
  }

  lemma {:induction false} TokensStripRight(s: string)
    ensures Tokens(StripRight(s)) == Tokens(s)
    decreases |s|
  {
    if s != [] && IsSpace(s[|s| - 1]) {
      var p := s[..|s| - 1];
      assert s == p + [s[|s| - 1]];
      TokensConcat(p, [s[|s| - 1]]);
      TokensSkip(s[|s| - 1], []);
      assert [s[|s| - 1]] + [] == [s[|s| - 1]];
      TokensStripRight(p);
    }
  }

  /** Stripping a line changes none of its matches. */
  lemma TokensStrip(s: string)
    ensures Tokens(Strip(s)) == Tokens(s)
  {
    TokensStripLeft(s);
    TokensStripRight(StripLeft(s));
  }

  lemma NormalizeConcat(x: string, y: string)
    ensures Normalize(x + y) == Normalize(x) + Normalize(y)
  {
    ReplaceConcat(x, y, '\U{A0}', ' ');
    ReplaceConcat(Replace(x, '\U{A0}', ' '), Replace(y, '\U{A0}', ' '), ',', '.');
  }

  lemma NormalizeChar(c: char)
    ensures Normalize([c]) == [NormalChar(c)]
  {
  }

  lemma {:induction false} NormalizeStripLeft(t: string)
    ensures Tokens(Normalize(StripLeft(t))) == Tokens(Normalize(t))
    decreases |t|
  {
    if t != [] && IsSpace(t[0]) {
      assert t == [t[0]] + t[1..];
      NormalizeConcat([t[0]], t[1..]);
      NormalizeChar(t[0]);
      TokensSkip(NormalChar(t[0]), Normalize(t[1..]));
      NormalizeStripLeft(t[1..]);
    }
  }

  lemma {:induction false} NormalizeStripRight(t: string)
    ensures Tokens(Normalize(StripRight(t))) == Tokens(Normalize(t))
    decreases |t|
  {
    if t != [] && IsSpace(t[|t| - 1]) {
      var p := t[..|t| - 1];
      var c := t[|t| - 1];
      assert t == p + [c];
      NormalizeConcat(p, [c]);
      NormalizeChar(c);
      TokensConcat(Normalize(p), [NormalChar(c)]);
      TokensSkip(NormalChar(c), []);
      assert [NormalChar(c)] + [] == [NormalChar(c)];
      NormalizeStripRight(p);
    }
  }

  /** Stripping the whole input before normalising changes no match. */
  lemma NormalizeStrip(t: string)
    ensures Tokens(Normalize(Strip(t))) == Tokens(Normalize(t))
  {
    NormalizeStripRight(StripLeft(t));
    NormalizeStripLeft(t);
  }

  /** Dropping blank lines and stripping the rest keeps every match. */
  lemma {:induction false} LinesOfPieces(pieces: seq<string>)
    ensures LinesTotal(NonEmptyStripped(pieces)) == LinesTotal(pieces)
    decreases |pieces|
  {
    if pieces != [] {
      var ln := Strip(pieces[0]);
      var head := if ln != "" then [ln] else [];
      TokensStrip(pieces[0]);
      LinesOfPieces(pieces[1..]);
      LinesTotalConcat(head, NonEmptyStripped(pieces[1..]));
      if ln != "" {
        assert head[1..] == [];
      }
    }
  }

  /** The matches of a line followed by a run of breaks and the rest. */
  lemma TokensAroundBreaks(a: string, w: string)
    requires w != [] && IsBreak(w[0])
    ensures Tokens(a + w) == Tokens(a) + Tokens(w[BreakRun(w)..])
  {
    TokensConcat(a, w);
    TokensSkipBreaks(w);
  }

  lemma LinesOfSplitStep(v: string)
    requires LineLength(v) < |v|
    ensures LinesTotal(SplitBreaks(v)) ==
      TokenTotal(Tokens(v[..LineLength(v)])) + LinesTotal(SplitBreaks(AfterLine(v)))
  {
    var p := v[..LineLength(v)];
    var pieces := SplitBreaks(AfterLine(v));
    assert SplitBreaks(v) == [p] + pieces;
    assert ([p] + pieces)[0] == p && ([p] + pieces)[1..] == pieces;
  }

  lemma Recombine(v: string, i: nat)
    requires i <= |v|
    ensures v[..i] + v[i..] == v
  {
  }

  /** The matches of `v`, cut as a line `a`, a run of breaks, and the rest. */
  lemma TokensOfCut(v: string, a: string, w: string, rest: string)
    requires v == a + w && w != [] && IsBreak(w[0]) && rest == w[BreakRun(w)..]
    ensures Tokens(v) == Tokens(a) + Tokens(rest)
  {
    TokensAroundBreaks(a, w);
  }

  /** The matches of `v` are those of its first line followed by those after the breaks. */
  lemma TokensOfSplitStep(v: string)
    requires LineLength(v) < |v|
    ensures Tokens(v) == Tokens(v[..LineLength(v)]) + Tokens(AfterLine(v))
  {
    var i := LineLength(v);
    Recombine(v, i);
    TokensOfCut(v, v[..i], v[i..], AfterLine(v));
  }

  /** Splitting at line breaks keeps every match. */
  lemma {:induction false} PiecesOfSplit(v: string)
    ensures LinesTotal(SplitBreaks(v)) == TokenTotal(Tokens(v))
    decreases |v|
  {
    if LineLength(v) == |v| {
      assert SplitBreaks(v) == [v];
      assert [v][1..] == [];
    } else {
      LinesOfSplitStep(v);
      TokensOfSplitStep(v);
      TokenTotalConcat(Tokens(v[..LineLength(v)]), Tokens(AfterLine(v)));
      PiecesOfSplit(AfterLine(v));
    }
  }

  /** Absent input, or input that is blank after stripping, sums to zero. */
  lemma SumOfNothing(s: Option<string>)
    requires s.None? || Strip(s.value) == ""
    ensures SumNumbers(s) == 0.0
  {
  }

  /** A prefix at least as long as the digit run has the same digit run. */
  lemma {:induction false} DigitRunPrefix(s: string, m: nat)
    requires DigitRun(s) <= m <= |s|
    ensures DigitRun(s[..m]) == DigitRun(s)
    decreases m
  {
    if m > 0 && IsDigit(s[0]) {
      assert s[..m][1..] == s[1..][..m - 1];
      DigitRunPrefix(s[1..], m - 1);
    }
  }

  /** A string of the token's shape converts under float(). */
  lemma ShapeConverts(p: string, k: nat, d: nat, f: nat)
    requires k <= 1 && |p| == k + d + f && 0 < d
    requires k == 1 <==> IsSign(p[0])
    requires DigitRun(p[k..]) == d
    requires f > 0 ==> p[k + d] == '.' && f >= 2 && DigitRun(p[k + d + 1..]) == f - 1
    ensures ParseDecimal(p).Some?
  {
    var q := p[k..];
    if f > 0 {
      assert q[d] == p[k + d];
      assert q[d + 1..] == p[k + d + 1..];
    }
    assert ParseUnsigned(q).Some?;
  }

  lemma SliceOfPrefix(s: string, k: nat, n: nat)
    requires k <= n <= |s|
    ensures s[..n][k..] == s[k..][..n - k]
  {
  }

  /** A match starts with a sign exactly when the pattern took one. */
  lemma SignOfMatch(s: string)
    requires s != [] && DigitRun(s[SignLength(s)..]) > 0
    ensures SignLength(s) == 1 <==> IsSign(s[0])
  {
    if SignLength(s) == 0 {
      assert s[0..] == s;
    }
  }

  /** The digits of a match keep their run inside the match. */
  lemma MatchDigits(s: string, k: nat, d: nat, n: nat)
    requires k + d <= n <= |s| && d == DigitRun(s[k..])
    ensures DigitRun(s[..n][k..]) == d
  {
    SliceOfPrefix(s, k, n);
    DigitRunPrefix(s[k..], n - k);
  }

  /** The fraction of a match keeps its run inside the match. */
  lemma MatchFraction(s: string, e: nat, f: nat)
    requires e <= |s| && f == FractionLength(s, e) && f > 0
    ensures var p := s[..e + f];
      p[e] == '.' && f >= 2 && DigitRun(p[e + 1..]) == f - 1
  {
    var n := e + f;
    SliceOfPrefix(s, e + 1, n);
    DigitRunPrefix(s[e + 1..], f - 1);
  }

  /** The pieces of a match meet the shape that converts. */
  lemma MatchParts(s: string, k: nat, d: nat, f: nat)
    requires k == SignLength(s) && d == DigitRun(s[k..]) && 0 < d
    requires k + d <= |s| && f == FractionLength(s, k + d)
    ensures var p := s[..k + d + f];
      && |p| == k + d + f && (k == 1 <==> IsSign(p[0])) && DigitRun(p[k..]) == d
      && (f > 0 ==> p[k + d] == '.' && f >= 2 && DigitRun(p[k + d + 1..]) == f - 1)
  {
    MatchDigits(s, k, d, k + d + f);
    if f > 0 {
      MatchFraction(s, k + d, f);
    }
    SignOfMatch(s);
    assert s[..k + d + f][0] == s[0];
  }

  /** Each match converts under float(). */
  lemma MatchConverts(s: string)
    requires MatchLength(s) > 0
    ensures ParseDecimal(s[..MatchLength(s)]).Some?
  {
    var k := SignLength(s);
    var d := DigitRun(s[k..]);
    var f := FractionLength(s, k + d);
    assert MatchLength(s) == k + d + f;
    MatchParts(s, k, d, f);
    ShapeConverts(s[..k + d + f], k, d, f);
  }

  /** The defensive `except` around float() never fires: every match converts. */
  lemma {:induction false} TokensConvert(s: string)
    ensures forall k :: 0 <= k < |Tokens(s)| ==> ParseDecimal(Tokens(s)[k]).Some?
    decreases |s|
  {
    if s != [] {
      var n := MatchLength(s);
      if n == 0 {
        TokensConvert(s[1..]);
      } else {
        MatchConverts(s);
        TokensConvert(s[n..]);
      }
    }
  }
}
