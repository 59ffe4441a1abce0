/**
 * The examples of the numeric extractor's docstring, proved from general facts about inputs
 * built from whole matches: runs of digits, decimals and negated decimals joined by gaps the
 * pattern cannot cross.
 */
module NumberExamples {
  import opened Common
  import opened Numbers

  /** A whole match whose extension stops at `t` is the first match of `w + t`. */
  lemma TokensOfMatchThen(w: string, t: string)
    requires w != [] && MatchLength(w + t) == |w|
    ensures Tokens(w + t) == [w] + Tokens(t)
  {
    assert (w + t)[..|w|] == w;
    assert (w + t)[|w|..] == t;
  }


  /** Words joined by a gap of at most one character. */
  function Join(words: seq<string>, gap: string): string
  {
    if words == [] then "" else if |words| == 1 then words[0] else words[0] + (gap + Join(words[1..], gap))
  }

  /** A whole match, a gap and a rest that the match cannot extend into. */
  lemma TokensOfGap(w: string, gap: string, rest: string)
    requires gap == [] || (|gap| == 1 && !IsDigit(gap[0]) && !IsSign(gap[0]))
    requires w != [] && MatchLength(w) == |w|
    requires gap + rest != [] && Stops((gap + rest)[0])
    ensures Tokens(w + (gap + rest)) == [w] + Tokens(rest)
  {
    MatchLengthConcat(w, gap + rest);
    TokensOfMatchThen(w, gap + rest);
    if gap != [] {
      assert gap + rest == [gap[0]] + rest;
      TokensSkip(gap[0], rest);
    } else {
      assert gap + rest == rest;
    }
  }

  /** Whole matches joined so that nothing extends across a gap: the matches are the words. */
  lemma {:induction false} TokensOfJoin(words: seq<string>, gap: string)
    requires gap == [] || (|gap| == 1 && !IsDigit(gap[0]) && !IsSign(gap[0]))
    requires forall k :: 0 <= k < |words| ==> words[k] != [] && MatchLength(words[k]) == |words[k]|
    requires forall k :: 0 < k < |words| ==> Stops((gap + words[k])[0])
    ensures Tokens(Join(words, gap)) == words
    decreases |words|
  {
    if words != [] {
      var w := words[0];
      if |words| == 1 {
        assert w + [] == w;
        TokensOfMatchThen(w, []);
      } else {
        var rest := Join(words[1..], gap);
        JoinHead(words[1..], gap);
        assert (gap + rest)[0] == (gap + words[1])[0];
        TokensOfGap(w, gap, rest);
        TokensOfJoin(words[1..], gap);
        assert words == [w] + words[1..];
      }
    }
  }

  lemma JoinHead(words: seq<string>, gap: string)
    requires words != [] && words[0] != []
    ensures Join(words, gap) != [] && Join(words, gap)[0] == words[0][0]
  {
  }

  /** A string without comma or non-breaking space is left alone by the normalisation. */
  lemma NormalizeUnchanged(s: string)
    requires forall i :: 0 <= i < |s| ==> s[i] != ',' && s[i] != '\U{A0}'
    ensures Normalize(s) == s
  {
  }

  lemma {:induction false} DigitRunAll(w: string)
    requires AllDigits(w)
    ensures DigitRun(w) == |w|
    decreases |w|
  {
    if w != [] {
      assert IsDigit(w[0]);
      assert AllDigits(w[1..]) by {
        forall i | 0 <= i < |w[1..]| ensures IsDigit(w[1..][i]) { assert w[1..][i] == w[i + 1]; }
      }
      DigitRunAll(w[1..]);
    }
  }

  /** A run of digits is one whole match worth its digits. */
  lemma WholeNumber(w: string)
    requires w != [] && AllDigits(w)
    ensures MatchLength(w) == |w|
    ensures ParseDecimal(w) == Some(DigitsValue(w) as real)
  {
    assert IsDigit(w[0]);
    assert w[0..] == w;
    DigitRunAll(w);
  }

  lemma DigitsNormal(a: string)
    requires AllDigits(a)
    ensures Normalize(a) == a
  {
    NormalizeUnchanged(a);
  }

  /** `ip.fp` read as digits, a point and digits. */
  lemma DecimalShape(ip: string, fp: string)
    requires ip != [] && fp != [] && AllDigits(ip) && AllDigits(fp)
    ensures var w := ip + "." + fp;
      |w| == |ip| + 1 + |fp| && IsDigit(w[0]) && DigitRun(w) == |ip| && w[|ip|] == '.'
      && w[..|ip|] == ip && w[|ip| + 1..] == fp && DigitRun(fp) == |fp| && IsDigit(fp[0])
  {
    var w := ip + "." + fp;
    assert IsDigit(ip[0]) && IsDigit(fp[0]);
    assert w == ip + ("." + fp);
    DigitRunConcat(ip, "." + fp);
    DigitRunAll(ip);
    DigitRunAll(fp);
    assert w[..|ip|] == ip;
    assert w[|ip| + 1..] == fp;
  }

  lemma MatchOfDecimal(ip: string, fp: string)
    requires ip != [] && fp != [] && AllDigits(ip) && AllDigits(fp)
    ensures MatchLength(ip + "." + fp) == |ip| + 1 + |fp|
  {
    var w := ip + "." + fp;
    DecimalShape(ip, fp);
    assert w[0..] == w;
    assert w[|ip| + 1] == fp[0];
  }

  /** `digits.digits` converts to its whole part plus its fraction. */
  lemma UnsignedFraction(p: string, d: nat)
    requires 0 < d && d + 1 < |p| && DigitRun(p) == d && p[d] == '.' && DigitRun(p[d + 1..]) == |p| - d - 1
    requires IsDigit(p[0])
    ensures ParseDecimal(p) == Some(DigitsValue(p[..d]) as real + FractionValue(p[d + 1..]))
  {
  }

  lemma ValueOfDecimal(ip: string, fp: string)
    requires ip != [] && fp != [] && AllDigits(ip) && AllDigits(fp)
    ensures ParseDecimal(ip + "." + fp) == Some(DigitsValue(ip) as real + FractionValue(fp))
  {
    DecimalShape(ip, fp);
    UnsignedFraction(ip + "." + fp, |ip|);
  }

  /** A minus sign in front of an unsigned whole match is taken into the match. */
  lemma NegatedMatch(w: string)
    requires w != [] && IsDigit(w[0]) && MatchLength(w) == |w|
    ensures MatchLength("-" + w) == |w| + 1
  {
    var s := "-" + w;
    assert w[0..] == w;
    assert s[1..] == w;
    var d := DigitRun(w);
    if d + 1 < |w| {
      assert s[1 + d] == w[d] && s[2 + d] == w[d + 1];
      assert s[2 + d..] == w[d + 1..];
    }
  }

  lemma NegatedValue(w: string)
    requires w != [] && IsDigit(w[0]) && ParseDecimal(w).Some?
    ensures ParseDecimal("-" + w) == Some(-ParseDecimal(w).value)
  {
    assert ("-" + w)[1..] == w;
  }

  /** A string that is exactly one match of the pattern and converts. */
  predicate WholeMatch(w: string)
  {
    w != [] && MatchLength(w) == |w| && ParseDecimal(w).Some?
  }

  lemma DecimalWord(w: string, ip: string, fp: string)
    requires ip != [] && fp != [] && AllDigits(ip) && AllDigits(fp) && w == ip + "." + fp
    ensures WholeMatch(w) && IsDigit(w[0])
    ensures ParseDecimal(w).value == DigitsValue(ip) as real + FractionValue(fp)
  {
    MatchOfDecimal(ip, fp);
    ValueOfDecimal(ip, fp);
  }

  lemma NegativeWord(w: string, ip: string, fp: string)
    requires ip != [] && fp != [] && AllDigits(ip) && AllDigits(fp) && w == "-" + (ip + "." + fp)
    ensures WholeMatch(w) && ParseDecimal(w).value == -(DigitsValue(ip) as real + FractionValue(fp))
  {
    DecimalWord(ip + "." + fp, ip, fp);
    NegatedMatch(ip + "." + fp);
    NegatedValue(ip + "." + fp);
  }

  /** Whole matches joined by gaps the pattern cannot cross sum to the sum of their values. */
  lemma SumOfJoin(words: seq<string>, gap: string)
    requires gap == [] || (|gap| == 1 && !IsDigit(gap[0]) && !IsSign(gap[0]))
    requires forall k :: 0 <= k < |words| ==> words[k] != [] && MatchLength(words[k]) == |words[k]|
    requires forall k :: 0 < k < |words| ==> Stops((gap + words[k])[0])
    requires Normalize(Join(words, gap)) == Join(words, gap)
    ensures SumNumbers(Some(Join(words, gap))) == TokenTotal(words)
  {
    TokensOfJoin(words, gap);
  }

  // Three runs of digits separated by one separator character.

  lemma ThreeJoin(a: string, b: string, c: string, g: char)
    ensures a + [g] + b + [g] + c == Join([a, b, c], [g])
  {
    assert [a, b, c][1..] == [b, c] && [b, c][1..] == [c];
    assert Join([b, c], [g]) == b + ([g] + c);
    assert Join([a, b, c], [g]) == a + ([g] + Join([b, c], [g]));
  }

  lemma ThreeNormal(a: string, b: string, c: string, g: char)
    requires AllDigits(a) && AllDigits(b) && AllDigits(c) && g != ',' && g != '\U{A0}'
    ensures Normalize(a + [g] + b + [g] + c) == a + [g] + b + [g] + c
  {
    DigitsNormal(a);
    DigitsNormal(b);
    DigitsNormal(c);
    NormalizeChar(g);
    NormalizeConcat(a + [g] + b + [g], c);
    NormalizeConcat(a + [g] + b, [g]);
    NormalizeConcat(a + [g], b);
    NormalizeConcat(a, [g]);
  }

  lemma ThreeWhole(a: string, b: string, c: string, g: char)
    requires a != [] && b != [] && c != [] && AllDigits(a) && AllDigits(b) && AllDigits(c) && Stops(g)
    ensures forall k :: 0 <= k < |[a, b, c]| ==> [a, b, c][k] != [] && MatchLength([a, b, c][k]) == |[a, b, c][k]|
    ensures forall k :: 0 < k < |[a, b, c]| ==> Stops(([g] + [a, b, c][k])[0])
  {
    WholeNumber(a);
    WholeNumber(b);
    WholeNumber(c);
  }

  lemma ThreeTotal(a: string, b: string, c: string)
    requires a != [] && b != [] && c != [] && AllDigits(a) && AllDigits(b) && AllDigits(c)
    ensures TokenTotal([a, b, c]) == (DigitsValue(a) + DigitsValue(b) + DigitsValue(c)) as real
  {
    WholeNumber(a);
    WholeNumber(b);
    WholeNumber(c);
    assert [a, b, c][1..] == [b, c] && [b, c][1..] == [c] && [c][1..] == [];
    assert TokenTotal([c]) == DigitsValue(c) as real;
    assert TokenTotal([b, c]) == (DigitsValue(b) + DigitsValue(c)) as real;
  }

  /** Three runs of digits separated by a separator sum to the sum of their values. */
  lemma SumOfThree(a: string, b: string, c: string, g: char)
    requires a != [] && b != [] && c != [] && AllDigits(a) && AllDigits(b) && AllDigits(c)
    requires IsSeparator(g) && g != ',' && g != '\U{A0}'
    ensures SumNumbers(Some(a + [g] + b + [g] + c)) == (DigitsValue(a) + DigitsValue(b) + DigitsValue(c)) as real
  {
    ThreeJoin(a, b, c, g);
    ThreeNormal(a, b, c, g);
    ThreeWhole(a, b, c, g);
    ThreeTotal(a, b, c);
    SumOfJoin([a, b, c], [g]);
  }

  // Four whole matches written back to back.

  lemma FourJoin(a: string, b: string, c: string, d: string)
    ensures a + b + c + d == Join([a, b, c, d], [])
  {
    assert [a, b, c, d][1..] == [b, c, d] && [b, c, d][1..] == [c, d] && [c, d][1..] == [d];
    assert Join([c, d], []) == c + ([] + d);
    assert Join([b, c, d], []) == b + ([] + Join([c, d], []));
    assert Join([a, b, c, d], []) == a + ([] + Join([b, c, d], []));
  }

  lemma FourWhole(a: string, b: string, c: string, d: string)
    requires a != [] && b != [] && c != [] && d != []
    requires MatchLength(a) == |a| && MatchLength(b) == |b| && MatchLength(c) == |c| && MatchLength(d) == |d|
    requires Stops(b[0]) && Stops(c[0]) && Stops(d[0])
    ensures forall k :: 0 <= k < |[a, b, c, d]| ==>
      [a, b, c, d][k] != [] && MatchLength([a, b, c, d][k]) == |[a, b, c, d][k]|
    ensures forall k :: 0 < k < |[a, b, c, d]| ==> Stops(([] + [a, b, c, d][k])[0])
  {
  }

  lemma FourTotal(a: string, b: string, c: string, d: string)
    requires WholeMatch(a) && WholeMatch(b) && WholeMatch(c) && WholeMatch(d)
    ensures TokenTotal([a, b, c, d])
      == ParseDecimal(a).value + ParseDecimal(b).value + ParseDecimal(c).value + ParseDecimal(d).value
  {
    assert [a, b, c, d][1..] == [b, c, d] && [b, c, d][1..] == [c, d] && [c, d][1..] == [d] && [d][1..] == [];
    assert TokenTotal([d]) == ParseDecimal(d).value;
    assert TokenTotal([c, d]) == ParseDecimal(c).value + ParseDecimal(d).value;
    assert TokenTotal([b, c, d]) == ParseDecimal(b).value + ParseDecimal(c).value + ParseDecimal(d).value;
  }

  /** Four whole matches back to back, each after the first starting with a character that ends
      the match before it, sum to their values. */
  lemma SumOfFour(a: string, b: string, c: string, d: string)
    requires WholeMatch(a) && WholeMatch(b) && WholeMatch(c) && WholeMatch(d)
    requires Stops(b[0]) && Stops(c[0]) && Stops(d[0])
    requires Normalize(a + b + c + d) == a + b + c + d
    ensures SumNumbers(Some(a + b + c + d))
      == ParseDecimal(a).value + ParseDecimal(b).value + ParseDecimal(c).value + ParseDecimal(d).value
  {
    FourJoin(a, b, c, d);
    FourWhole(a, b, c, d);
    FourTotal(a, b, c, d);
    SumOfJoin([a, b, c, d], []);
  }

  // A comma after a decimal fraction.

  lemma CommaNormal(ip: string, fp: string, u: string)
    requires AllDigits(ip) && AllDigits(fp) && AllDigits(u)
    ensures Normalize(ip + "." + fp + "," + u) == ip + "." + fp + "." + u
  {
    DigitsNormal(ip);
    DigitsNormal(fp);
    DigitsNormal(u);
    NormalizeChar('.');
    NormalizeChar(',');
    NormalizeConcat(ip + "." + fp + ",", u);
    NormalizeConcat(ip + "." + fp, ",");
    NormalizeConcat(ip + ".", fp);
    NormalizeConcat(ip, ".");
  }

  /** The match of `ip.fp` stops at a second point: the fraction takes no more digits. */
  lemma MatchBeforePoint(ip: string, fp: string, u: string)
    requires ip != [] && fp != [] && AllDigits(ip) && AllDigits(fp)
    ensures MatchLength(ip + "." + fp + ("." + u)) == |ip + "." + fp|
  {
    var w := ip + "." + fp;
    var s := w + ("." + u);
    DecimalShape(ip, fp);
    assert s == ip + ("." + (fp + ("." + u)));
    DigitRunConcat(ip, "." + (fp + ("." + u)));
    DigitRunAll(ip);
    assert s[0] == ip[0] && s[0..] == s;
    assert s[|ip|] == '.' && s[|ip| + 1] == fp[0];
    assert s[|ip| + 1..] == fp + ("." + u);
    DigitRunConcat(fp, "." + u);
    assert SignLength(s) == 0;
    assert DigitRun(s[0..]) == |ip|;
    assert FractionLength(s, |ip|) == 1 + |fp|;
  }

  /** A point and a run of digits hold that run as their one match. */
  lemma TokensOfLastWord(u: string)
    requires u != [] && AllDigits(u)
    ensures Tokens("." + u) == [u]
  {
    assert "." + u == ['.'] + u;
    TokensSkip('.', u);
    WholeNumber(u);
    assert u + [] == u;
    TokensOfMatchThen(u, []);
  }

  lemma TokensAfterPoint(ip: string, fp: string, u: string)
    requires ip != [] && fp != [] && u != [] && AllDigits(ip) && AllDigits(fp) && AllDigits(u)
    ensures Tokens(ip + "." + fp + "." + u) == [ip + "." + fp, u]
  {
    var w := ip + "." + fp;
    assert ip + "." + fp + "." + u == w + ("." + u);
    MatchBeforePoint(ip, fp, u);
    TokensOfMatchThen(w, "." + u);
    TokensOfLastWord(u);
  }

  lemma TotalAfterPoint(ip: string, fp: string, u: string)
    requires ip != [] && fp != [] && u != [] && AllDigits(ip) && AllDigits(fp) && AllDigits(u)
    ensures TokenTotal([ip + "." + fp, u]) == DigitsValue(ip) as real + FractionValue(fp) + DigitsValue(u) as real
  {
    ValueOfDecimal(ip, fp);
    WholeNumber(u);
    TotalOfTwo(ip + "." + fp, u);
  }

  lemma TotalOfTwo(w: string, u: string)
    requires ParseDecimal(w).Some? && ParseDecimal(u).Some?
    ensures TokenTotal([w, u]) == ParseDecimal(w).value + ParseDecimal(u).value
  {
    assert [w, u][1..] == [u] && [u][1..] == [];
    assert TokenTotal([u]) == ParseDecimal(u).value;
  }

  /** `ip.fp,u` reads as two numbers, `ip.fp` and `u`: the comma becomes a second point. */
  lemma SumAfterComma(ip: string, fp: string, u: string)
    requires ip != [] && fp != [] && u != [] && AllDigits(ip) && AllDigits(fp) && AllDigits(u)
    ensures SumNumbers(Some(ip + "." + fp + "," + u))
      == DigitsValue(ip) as real + FractionValue(fp) + DigitsValue(u) as real
  {
    CommaNormal(ip, fp, u);
    TokensAfterPoint(ip, fp, u);
    TotalAfterPoint(ip, fp, u);
  }

  // The docstring's examples.

  lemma LinesExampleFacts()
    ensures AllDigits("22865") && AllDigits("22603") && AllDigits("22200")
    ensures "22865" + ['\n'] + "22603" + ['\n'] + "22200" == "22865\n22603\n22200"
  {
  }

  lemma LinesExampleValue1()
    ensures DigitsValue("22865") == 22865
  {
  }

  lemma LinesExampleValue2()
    ensures DigitsValue("22603") == 22603
  {
  }

  lemma LinesExampleValue3()
    ensures DigitsValue("22200") == 22200
  {
  }

  /** "22865\n22603\n22200" sums its three lines to 67668. */
  lemma SumExampleLines()
    ensures SumNumbers(Some("22865\n22603\n22200")) == 67668.0
  {
    LinesExampleFacts();
    LinesExampleValue1();
    LinesExampleValue2();
    LinesExampleValue3();
    SumOfThree("22865", "22603", "22200", '\n');
  }

  lemma SpacesExampleFacts()
    ensures AllDigits("9173") && AllDigits("9064") && AllDigits("8939")
    ensures "9173" + [' '] + "9064" + [' '] + "8939" == "9173 9064 8939"
  {
  }

  lemma SpacesExampleValue1()
    ensures DigitsValue("9173") == 9173
  {
  }

  lemma SpacesExampleValue2()
    ensures DigitsValue("9064") == 9064
  {
  }

  lemma SpacesExampleValue3()
    ensures DigitsValue("8939") == 8939
  {
  }

  /** "9173 9064 8939" sums its three space-separated readings to 27176. */
  lemma SumExampleSpaces()
    ensures SumNumbers(Some("9173 9064 8939")) == 27176.0
  {
    SpacesExampleFacts();
    SpacesExampleValue1();
    SpacesExampleValue2();
    SpacesExampleValue3();
    SumOfThree("9173", "9064", "8939", ' ');
  }

  lemma DashesExampleValues()
    ensures DigitsValue("3") as real + FractionValue("86") == 3.86
    ensures DigitsValue("0") as real + FractionValue("20") == 0.20
    ensures DigitsValue("0") as real + FractionValue("00") == 0.0
  {
  }

  lemma DashesFirst()
    ensures WholeMatch("3.86") && ParseDecimal("3.86").value == 3.86
  {
    DecimalWord("3.86", "3", "86");
    DashesExampleValues();
  }

  lemma DashesSecond()
    ensures WholeMatch("-0.20") && ParseDecimal("-0.20").value == -0.20
  {
    NegativeWord("-0.20", "0", "20");
    DashesExampleValues();
  }

  lemma DashesZero()
    ensures WholeMatch("-0.00") && ParseDecimal("-0.00").value == 0.0
  {
    NegativeWord("-0.00", "0", "00");
    DashesExampleValues();
  }

  lemma DashesJoin()
    ensures "3.86" + "-0.20" + "-0.00" + "-0.00" == "3.86-0.20-0.00-0.00"
  {
  }

  lemma DashesNormal()
    ensures Normalize("3.86-0.20-0.00-0.00") == "3.86-0.20-0.00-0.00"
  {
    NormalizeUnchanged("3.86-0.20-0.00-0.00");
  }

  /** "3.86-0.20-0.00-0.00" reads as 3.86 followed by three negative numbers: 3.66 in all. */
  lemma SumExampleDashes()
    ensures SumNumbers(Some("3.86-0.20-0.00-0.00")) == 3.66
  {
    DashesFirst();
    DashesSecond();
    DashesZero();
    DashesJoin();
    DashesNormal();
    SumOfFour("3.86", "-0.20", "-0.00", "-0.00");
  }

  lemma CommaExampleFacts()
    ensures AllDigits("3") && AllDigits("563") && AllDigits("06")
    ensures "3" + "." + "563" + "," + "06" == "3.563,06"
  {
  }

  lemma CommaExampleValues()
    ensures DigitsValue("3") as real + FractionValue("563") + DigitsValue("06") as real == 9.563
  {
    assert FractionValue("563") == 0.563;
    assert DigitsValue("06") == 6;
  }

  /** "3.563,06" sums to 9.563, not to 3563.06: the comma becomes a point, and "3.563" and
      "06" are matched separately. */
  lemma SumExampleComma()
    ensures SumNumbers(Some("3.563,06")) == 9.563
    ensures SumNumbers(Some("3.563,06")) != 3563.06
  {
    CommaExampleFacts();
    CommaExampleValues();
    SumAfterComma("3", "563", "06");
  }
}
