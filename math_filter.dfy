/**
 * The character filter that decides whether chat input is arithmetic, and
 * the two text rewrites around it: `**` is normalised to `^` before the
 * filter runs, and `^` is rewritten to `**` before evaluation.
 */
module MathFilter {

  /**
   * The two character classes of the filter's pattern whose extent depends on
   * the regular-expression engine (`\d`, `\s`). They are kept abstract; the
   * lemmas that need concrete facts about them require StandardClasses.
   */
  datatype CharClasses = CharClasses(isDigit: char -> bool, isSpace: char -> bool)

  /** Punctuation listed in the filter's character class. */
  const PatternSymbols: set<char> := {'+', '-', '*', '/', '%', '.', '(', ')', '[', ']', ',', '^'}

  /**
   * Letters listed in the filter's character class. The pattern spells them
   * `eEpiqrtlogsincoatanraddeg`; as a set they are these fifteen.
   */
  const PatternLetters: set<char> := {'e', 'E', 'p', 'i', 'q', 'r', 't', 'l', 'o', 'g', 's', 'n', 'c', 'a', 'd'}

  /** One character accepted by the character class. */
  predicate InClass(cc: CharClasses, c: char)
  {
    cc.isDigit(c) || cc.isSpace(c) || c in PatternSymbols || c in PatternLetters
  }

  /** Every character of `s` is accepted by the character class. */
  predicate AllInClass(cc: CharClasses, s: string)
  {
    forall i :: 0 <= i < |s| ==> InClass(cc, s[i])
  }

  /** The anchored pattern `^[...]+$` matches `s`. */
  predicate FullMatch(cc: CharClasses, s: string)
  {
    |s| > 0 && AllInClass(cc, s)
  }

  /** Facts about `\d` and `\s` that hold of every regular-expression engine in use. */
  predicate StandardClasses(cc: CharClasses)
  {
    (forall c :: '0' <= c <= '9' ==> cc.isDigit(c))
    && cc.isSpace(' ')
    && (forall c :: IsAsciiLetter(c) ==> !cc.isDigit(c) && !cc.isSpace(c))
  }

  predicate IsAsciiLetter(c: char)
  {
    'a' <= c <= 'z' || 'A' <= c <= 'Z'
  }

  /** Python's `t.replace('**', '^')`: non-overlapping, left to right. */
  function Normalise(t: string): (r: string)
    ensures |r| <= |t|
    ensures |r| == 0 <==> |t| == 0
    ensures |t| >= 2 && t[0] == '*' && t[1] == '*' ==> r[0] == '^'
    ensures |t| > 0 && t[0] != '*' ==> r[0] == t[0]
    ensures |t| > 0 && t[0] == '*' && (|t| == 1 || t[1] != '*') ==> r[0] == '*'
  {
    if |t| >= 2 && t[0] == '*' && t[1] == '*' then "^" + Normalise(t[2..])
    else if |t| == 0 then ""
    else [t[0]] + Normalise(t[1..])
  }

  /**
   * The math-input test: the pattern matches the normalised text. It holds
   * exactly of non-empty text whose every character is whitelisted, so the
   * `**` to `^` normalisation never changes the verdict.
   */
  predicate IsMathExpression(cc: CharClasses, t: string)
    ensures IsMathExpression(cc, t) <==> |t| > 0 && forall i :: 0 <= i < |t| ==> InClass(cc, t[i])
  {
    NormaliseKeepsClass(cc, t);
    FullMatch(cc, Normalise(t))
  }

  /** `s` contains no two adjacent `*`. */
  predicate NoDoubleStar(s: string)
  {
    forall i :: 0 <= i < |s| - 1 ==> !(s[i] == '*' && s[i + 1] == '*')
  }

  lemma AllInClassCons(cc: CharClasses, c: char, s: string)
    ensures AllInClass(cc, [c] + s) <==> InClass(cc, c) && AllInClass(cc, s)
  {
    if InClass(cc, c) && AllInClass(cc, s) {
      forall i | 0 <= i < |s| + 1 ensures InClass(cc, ([c] + s)[i]) {
        if i > 0 { assert ([c] + s)[i] == s[i - 1]; }
      }
    }
    if AllInClass(cc, [c] + s) {
      assert ([c] + s)[0] == c;
      forall i | 0 <= i < |s| ensures InClass(cc, s[i]) {
        assert ([c] + s)[i + 1] == s[i];
      }
    }
  }

  /** Normalising never changes whether every character is in the class. */
  lemma {:induction false} NormaliseKeepsClass(cc: CharClasses, t: string)
    ensures AllInClass(cc, Normalise(t)) <==> AllInClass(cc, t)
    decreases |t|
  {
    if |t| >= 2 && t[0] == '*' && t[1] == '*' {
      NormaliseKeepsClass(cc, t[2..]);
      AllInClassCons(cc, '^', Normalise(t[2..]));
      AllInClassCons(cc, t[1], t[2..]);
      assert t[1..] == [t[1]] + t[2..];
      AllInClassCons(cc, t[0], t[1..]);
      assert t == [t[0]] + t[1..];
    } else if |t| > 0 {
      NormaliseKeepsClass(cc, t[1..]);
      AllInClassCons(cc, t[0], Normalise(t[1..]));
      AllInClassCons(cc, t[0], t[1..]);
      assert t == [t[0]] + t[1..];
    }
  }

  /** After normalisation no `**` is left. */
  lemma {:induction false} NormaliseLeavesNoDoubleStar(t: string)
    ensures NoDoubleStar(Normalise(t))
    decreases |t|
  {
    if |t| >= 2 && t[0] == '*' && t[1] == '*' {
      NormaliseLeavesNoDoubleStar(t[2..]);
      var r := Normalise(t[2..]);
      assert Normalise(t) == "^" + r;
      assert forall i :: 1 <= i < |r| + 1 ==> Normalise(t)[i] == r[i - 1];
    } else if |t| > 0 {
      NormaliseLeavesNoDoubleStar(t[1..]);
      var r := Normalise(t[1..]);
      assert Normalise(t) == [t[0]] + r;
      assert forall i :: 1 <= i < |r| + 1 ==> Normalise(t)[i] == r[i - 1];
      if t[0] == '*' && |r| > 0 {
        assert t[1] != '*';
        assert r[0] == t[1];
      }
    }
  }

  /** A letter that is neither in the pattern nor a digit or space makes the filter fail. */
  lemma ForeignLetterRejected(cc: CharClasses, t: string, i: nat)
    requires StandardClasses(cc)
    requires i < |t| && IsAsciiLetter(t[i]) && t[i] !in PatternLetters
    ensures !IsMathExpression(cc, t)
  {
    assert !InClass(cc, t[i]);
  }

  /** Ordinary prose is rejected: `h` is outside the pattern. */
  lemma RejectsProse(cc: CharClasses)
    requires StandardClasses(cc)
    ensures !IsMathExpression(cc, "what is 2+2")
  {
    var t := "what is 2+2";
    assert t[1] == 'h';
    ForeignLetterRejected(cc, t, 1);
  }

  /**
   * Calls of functions that the evaluator offers but whose names are not
   * spelled by the pattern are rejected too (`w` in pow, `b` in abs).
   */
  lemma RejectsPowAndAbs(cc: CharClasses)
    requires StandardClasses(cc)
    ensures !IsMathExpression(cc, "pow(2, 3)")
    ensures !IsMathExpression(cc, "abs(-1)")
  {
    var pow, abs := "pow(2, 3)", "abs(-1)";
    assert pow[2] == 'w';
    ForeignLetterRejected(cc, pow, 2);
    assert abs[1] == 'b';
    ForeignLetterRejected(cc, abs, 1);
  }

  /** The same holds of round (`u`). */
  lemma RejectsRound(cc: CharClasses)
    requires StandardClasses(cc)
    ensures !IsMathExpression(cc, "round(2.5)")
  {
    var t := "round(2.5)";
    assert t[2] == 'u';
    ForeignLetterRejected(cc, t, 2);
  }

  /** Arithmetic input passes the filter, with either spelling of the power operator. */
  lemma AcceptsArithmetic(cc: CharClasses)
    requires StandardClasses(cc)
    ensures IsMathExpression(cc, "2 + 2")
    ensures IsMathExpression(cc, "3^2")
    ensures IsMathExpression(cc, "2**3")
  {
  }

  /** Function calls spelled from the pattern's letters pass, and so does a bare name. */
  lemma AcceptsFunctionNames(cc: CharClasses)
    requires StandardClasses(cc)
    ensures IsMathExpression(cc, "sqrt(16)")
    ensures IsMathExpression(cc, "sin")
  {
  }

  /** Python's `expr.replace('^', '**')`, the rewrite done before evaluation. */
  function PowerRewrite(s: string): (r: string)
    ensures |r| >= |s|
  {
    if s == [] then [] else (if s[0] == '^' then "**" else [s[0]]) + PowerRewrite(s[1..])
  }

  /** The rewritten text holds no `^`. */
  lemma {:induction false} PowerRewriteLeavesNoCaret(s: string)
    ensures '^' !in PowerRewrite(s)
  {
    if s != [] {
      PowerRewriteLeavesNoCaret(s[1..]);
      var head := if s[0] == '^' then "**" else [s[0]];
      assert PowerRewrite(s) == head + PowerRewrite(s[1..]);
    }
  }

  /** Number of occurrences of `c` in `s`. */
  function Count(s: string, c: char): nat
  {
    if s == [] then 0 else (if s[0] == c then 1 else 0) + Count(s[1..], c)
  }

  /** The rewrite works character by character: it distributes over concatenation. */
  lemma {:induction false} PowerRewriteAppend(a: string, b: string)
    ensures PowerRewrite(a + b) == PowerRewrite(a) + PowerRewrite(b)
    decreases |a|
  {
    if a != [] {
      assert (a + b)[1..] == a[1..] + b;
      PowerRewriteAppend(a[1..], b);
    } else {
      assert a + b == b;
    }
  }

  /** Each `^` becomes two characters; nothing else changes length. */
  lemma {:induction false} PowerRewriteLength(s: string)
    ensures |PowerRewrite(s)| == |s| + Count(s, '^')
  {
    if s != [] {
      PowerRewriteLength(s[1..]);
    }
  }

  /**
   * Every character other than `^` keeps its place, shifted only by the
   * extra `*` of the `^` before it, and every `^` becomes `**` in place.
   */
  lemma {:induction false} PowerRewriteAt(s: string, i: nat)
    requires i < |s|
    ensures var j := i + Count(s[..i], '^');
            (s[i] != '^' ==> j < |PowerRewrite(s)| && PowerRewrite(s)[j] == s[i])
            && (s[i] == '^' ==> j + 2 <= |PowerRewrite(s)| && PowerRewrite(s)[j..j + 2] == "**")
  {
    var pre, t := s[..i], s[i..];
    assert s == pre + t;
    PowerRewriteAppend(pre, t);
    PowerRewriteLength(pre);
    var head := if s[i] == '^' then "**" else [s[i]];
    assert PowerRewrite(t) == head + PowerRewrite(t[1..]);
    SliceOfConcat(PowerRewrite(pre), head, PowerRewrite(t[1..]));
  }

  /** The middle part of a three-way concatenation sits at the length of the first. */
  lemma SliceOfConcat(a: string, m: string, b: string)
    ensures (a + (m + b))[|a|..|a| + |m|] == m
    ensures forall k :: 0 <= k < |m| ==> (a + (m + b))[|a| + k] == m[k]
  {
  }

  /** On text without `*`, normalisation undoes the rewrite. */
  lemma {:induction false} NormaliseUndoesPowerRewrite(s: string)
    requires '*' !in s
    ensures Normalise(PowerRewrite(s)) == s
  {
    if s != [] {
      var rest := PowerRewrite(s[1..]);
      NormaliseUndoesPowerRewrite(s[1..]);
      if s[0] == '^' {
        assert PowerRewrite(s) == "**" + rest;
        assert ("**" + rest)[2..] == rest;
      } else {
        assert PowerRewrite(s) == [s[0]] + rest;
        assert ([s[0]] + rest)[1..] == rest;
      }
    }
  }

  /** A text without `*` is left alone by normalisation. */
  lemma {:induction false} NormaliseWithoutStar(s: string)
    requires '*' !in s
    ensures Normalise(s) == s
  {
    if s != [] {
      assert '*' !in s[1..];
      NormaliseWithoutStar(s[1..]);
    }
  }

  /** On text without `^`, the rewrite undoes normalisation. */
  lemma {:induction false} PowerRewriteUndoesNormalise(t: string)
    requires '^' !in t
    ensures PowerRewrite(Normalise(t)) == t
    decreases |t|
  {
    if |t| >= 2 && t[0] == '*' && t[1] == '*' {
      assert '^' !in t[2..];
      PowerRewriteUndoesNormalise(t[2..]);
      PowerRewriteAppend("^", Normalise(t[2..]));
      assert t == "**" + t[2..];
    } else if |t| > 0 {
      assert '^' !in t[1..];
      PowerRewriteUndoesNormalise(t[1..]);
      PowerRewriteAppend([t[0]], Normalise(t[1..]));
      assert t == [t[0]] + t[1..];
    }
  }

  /** The rewrite never changes the filter's verdict on the text it is applied to. */
  lemma {:induction false} PowerRewriteKeepsClass(cc: CharClasses, s: string)
    ensures AllInClass(cc, PowerRewrite(s)) <==> AllInClass(cc, s)
  {
    if s != [] {
      PowerRewriteKeepsClass(cc, s[1..]);
      var rest := PowerRewrite(s[1..]);
      AllInClassCons(cc, s[0], s[1..]);
      assert s == [s[0]] + s[1..];
      if s[0] == '^' {
        AllInClassCons(cc, '*', rest);
        AllInClassCons(cc, '*', "*" + rest);
        assert "**" + rest == [ '*' ] + ("*" + rest);
      } else {
        AllInClassCons(cc, s[0], rest);
      }
    }
  }
}
