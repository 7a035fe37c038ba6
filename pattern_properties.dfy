/**
 * Properties of the legacy pattern generator: which patterns are rejected and
 * with which error, what each token contributes, and that the password is the
 * tokens' outputs concatenated in pattern order.
 */
module PatternProperties {
  import opened Wrappers
  import opened Strings
  import opened PatternGenerator

  /** The characters an accepted pattern can contain. */
  predicate PatternChar(c: char) {
    c in TokenChars || c == '*' || IsDigit(c)
  }

  /**
   * A successful parse from position i covers only class characters, `*` and
   * digits, starts with a class character, and yields counts of at least one.
   */
  lemma {:induction false} ParsedShape(p: string, i: nat)
    requires i <= |p|
    ensures ParseFrom(p, i).Success? ==> forall k :: i <= k < |p| ==> PatternChar(p[k])
    ensures ParseFrom(p, i).Success? && i < |p| ==> p[i] in TokenChars
    ensures ParseFrom(p, i).Success? ==> forall x :: x in ParseFrom(p, i).value ==> x.count >= 1
    decreases |p| - i
  {
    if i < |p| && ParseFrom(p, i).Success? {
      GeneratorForDomain(p[i]);
      if i + 1 < |p| && p[i + 1] == '*' {
        var e := DigitsEnd(p, i + 2);
        ParsedShape(p, e);
      } else {
        ParsedShape(p, i + 1);
      }
    }
  }

  /**
   * A pattern is accepted only if it is non-empty, starts with a class
   * character and contains nothing but class characters, `*` and digits. So
   * any other character anywhere (an `L`, a space) gets the pattern rejected.
   */
  lemma AcceptedPatternAlphabet(p: string, draw: RandomSource)
    ensures PatternPassword(p, draw).Success? ==>
      p != [] && p[0] in TokenChars && forall k :: 0 <= k < |p| ==> PatternChar(p[k])
  {
    ParsedShape(p, 0);
  }

  /** An empty pattern, and a `*` without digits, whatever the token. */
  lemma MissingPartsRejected(draw: RandomSource)
    ensures PatternPassword("", draw) == Failure(EmptyPattern)
    ensures PatternPassword("r*", draw) == Failure(MissingMultiplier)
    ensures PatternPassword("r*x", draw) == Failure(MissingMultiplier)
    ensures PatternPassword("x*", draw) == Failure(MissingMultiplier)
  {
  }

  /** A multiplier whose digits are all zeros. */
  lemma ZeroMultiplierRejected(draw: RandomSource)
    ensures PatternPassword("r*0", draw) == Failure(NonPositiveMultiplier)
    ensures PatternPassword("r*00", draw) == Failure(NonPositiveMultiplier)
  {
    assert DigitsEnd("r*00", 2) == 4;
    assert "r*00"[2..4] == "00";
    assert DigitsEnd("r*0", 2) == 3;
    assert "r*0"[2..3] == "0";
  }

  /**
   * Digits without `*`, a leading `*` and letters outside the classes are
   * each reported as an unsupported token.
   */
  lemma StrayCharactersRejected(draw: RandomSource)
    ensures PatternPassword("r16", draw) == Failure(UnsupportedToken('1'))
    ensures PatternPassword("*r", draw) == Failure(UnsupportedToken('*'))
    ensures PatternPassword("L", draw) == Failure(UnsupportedToken('L'))
  {
  }

  /**
   * A character outside the class characters in token position, not followed
   * by `*`, is rejected with its own error whatever follows it.
   */
  lemma UnsupportedTokenAt(p: string, i: nat)
    requires i < |p| && p[i] !in TokenChars
    requires i + 1 == |p| || p[i + 1] != '*'
    ensures ParseFrom(p, i) == Failure(UnsupportedToken(p[i]))
  {
    GeneratorForDomain(p[i]);
  }

  /** The default pattern offered by the web form is rejected at its first `L`. */
  lemma DefaultFormPatternRejected(draw: RandomSource)
    ensures PatternPassword("WsLaWLLrrSa", draw) == Failure(UnsupportedToken('L'))
  {
    var p := "WsLaWLLrrSa";
    UnsupportedTokenAt(p, 2);
    assert ParseFrom(p, 1) == Then('s', 1, ParseFrom(p, 2));
    assert ParseFrom(p, 0) == Then('W', 1, ParseFrom(p, 1));
  }

  /**
   * Whatever the token character, a `*` without digits is reported as a
   * missing multiplier before the token is looked up, and an earlier error
   * wins over anything later in the pattern.
   */
  lemma MultiplierCheckedBeforeToken(p: string, i: nat)
    requires i + 1 < |p| && p[i + 1] == '*'
    requires i + 2 == |p| || !IsDigit(p[i + 2])
    ensures ParseFrom(p, i) == Failure(MissingMultiplier)
  {
  }

  lemma {:induction false} DigitsToEnd(p: string, k: nat)
    requires k <= |p|
    requires forall j :: k <= j < |p| ==> IsDigit(p[j])
    ensures DigitsEnd(p, k) == |p|
    decreases |p| - k
  {
    if k < |p| {
      DigitsToEnd(p, k + 1);
    }
  }

  /**
   * A single token with a multiplier: accepted with that count exactly when
   * the digits are not all zero, and rejected with the token error when the
   * character is not a class character.
   */
  lemma SingleTokenWithCount(t: char, digits: string)
    requires digits != [] && forall j :: 0 <= j < |digits| ==> IsDigit(digits[j])
    ensures DecimalValue(digits) == 0 ==>
      ParseFrom([t, '*'] + digits, 0) == Failure(NonPositiveMultiplier)
    ensures DecimalValue(digits) > 0 && t !in TokenChars ==>
      ParseFrom([t, '*'] + digits, 0) == Failure(UnsupportedToken(t))
    ensures DecimalValue(digits) > 0 && t in TokenChars ==>
      ParseFrom([t, '*'] + digits, 0) == Success([Instr(GeneratorFor(t).value, DecimalValue(digits))])
  {
    var p := [t, '*'] + digits;
    assert p[0] == t && p[1] == '*';
    forall j | 2 <= j < |p| ensures IsDigit(p[j]) {
      assert p[j] == digits[j - 2];
    }
    DigitsToEnd(p, 2);
    assert p[2..|p|] == digits;
    assert ParseFrom(p, |p|) == Success([]);
    GeneratorForDomain(t);
    var n := DecimalValue(digits);
    assert ParseFrom(p, 0) == if n <= 0 then Failure(NonPositiveMultiplier) else Then(t, n, Success([]));
    if n > 0 && t in TokenChars {
      assert [Instr(GeneratorFor(t).value, n)] + [] == [Instr(GeneratorFor(t).value, n)];
    }
  }

  /** The end of a digit run is the first position that is not a digit. */
  lemma {:induction false} DigitsEndAt(p: string, k: nat, e: nat)
    requires k <= e <= |p|
    requires forall j :: k <= j < e ==> IsDigit(p[j])
    requires e == |p| || !IsDigit(p[e])
    ensures DigitsEnd(p, k) == e
    decreases e - k
  {
    if k < e {
      DigitsEndAt(p, k + 1, e);
    }
  }

  /**
   * A token written out: its class character, and `*` with the decimal count
   * unless the count is one.
   */
  function RenderToken(x: Instr): string {
    if x.count == 1 then [TokenChar(x.generator)]
    else [TokenChar(x.generator), '*'] + DecimalString(x.count)
  }

  /** The pattern that spells out a sequence of tokens. */
  function Render(ins: seq<Instr>): string {
    if ins == [] then [] else RenderToken(ins[0]) + Render(ins[1..])
  }

  predicate PositiveCounts(ins: seq<Instr>) {
    forall x :: x in ins ==> x.count >= 1
  }

  lemma RenderStart(ins: seq<Instr>)
    requires ins != []
    ensures |Render(ins)| >= 1 && Render(ins)[0] == TokenChar(ins[0].generator)
  {
  }

  /** A token followed by `*` and a run of digits with a positive value. */
  lemma ParseCountedToken(p: string, i: nat, e: nat)
    requires i + 2 < e <= |p| && p[i + 1] == '*'
    requires forall j :: i + 2 <= j < e ==> IsDigit(p[j])
    requires e == |p| || !IsDigit(p[e])
    requires DecimalValue(p[i + 2..e]) >= 1
    ensures ParseFrom(p, i) == Then(p[i], DecimalValue(p[i + 2..e]), ParseFrom(p, e))
  {
    DigitsEndAt(p, i + 2, e);
  }

  /**
   * One step of the scan: a written-out token at position i, followed by the
   * end or by another class character, is read back with its count and the
   * scan continues right after it.
   */
  lemma ParseToken(p: string, i: nat, x: Instr)
    requires x.count >= 1
    requires i + |RenderToken(x)| <= |p| && p[i..i + |RenderToken(x)|] == RenderToken(x)
    requires i + |RenderToken(x)| == |p| || p[i + |RenderToken(x)|] in TokenChars
    ensures ParseFrom(p, i) == Chain([x], ParseFrom(p, i + |RenderToken(x)|))
  {
    var r := RenderToken(x);
    var e := i + |r|;
    var c := TokenChar(x.generator);
    assert p[i] == r[0] == c;
    if x.count == 1 {
      assert ParseFrom(p, i) == Then(c, 1, ParseFrom(p, e));
    } else {
      var ds := DecimalString(x.count);
      assert p[i + 1] == r[1] == '*';
      assert p[i + 2..e] == ds;
      forall j | i + 2 <= j < e ensures IsDigit(p[j]) {
        assert p[j] == ds[j - i - 2];
      }
      DecimalStringValue(x.count);
      ParseCountedToken(p, i, e);
    }
  }

  /** How a written-out sequence splits at its first token. */
  lemma RenderSplit(prefix: string, ins: seq<Instr>)
    requires ins != [] && PositiveCounts(ins)
    ensures var q := prefix + RenderToken(ins[0]);
      && prefix + Render(ins) == q + Render(ins[1..])
      && (prefix + Render(ins))[|prefix|..|q|] == RenderToken(ins[0])
      && (|q| == |prefix + Render(ins)| || (prefix + Render(ins))[|q|] in TokenChars)
      && ins[0].count >= 1
      && PositiveCounts(ins[1..])
  {
    var p := prefix + Render(ins);
    var x, rest := ins[0], ins[1..];
    var tok, tail := RenderToken(x), Render(rest);
    var q := prefix + tok;
    assert p == q + tail by {
      assert Render(ins) == tok + tail;
      AppendAssoc(prefix, tok, tail);
    }
    if rest != [] {
      RenderStart(rest);
      assert p[|q|] == tail[0];
    }
    assert x in ins;
    forall y | y in rest ensures y.count >= 1 {
      assert y in ins;
    }
  }

  /**
   * Every token sequence with positive counts is accepted when written out,
   * after any prefix the scan has already consumed, and parses back to
   * exactly those tokens.
   */
  lemma {:induction false} ParseRendered(prefix: string, ins: seq<Instr>)
    requires PositiveCounts(ins)
    ensures ParseFrom(prefix + Render(ins), |prefix|) == Success(ins)
    decreases |ins|
  {
    if ins == [] {
      assert prefix + Render(ins) == prefix;
    } else {
      var q := prefix + RenderToken(ins[0]);
      RenderSplit(prefix, ins);
      ParseRendered(q, ins[1..]);
      ParseToken(prefix + Render(ins), |prefix|, ins[0]);
      assert [ins[0]] + ins[1..] == ins;
      assert ParseFrom(prefix + Render(ins), |prefix|) == Chain([ins[0]], Success(ins[1..]));
    }
  }

  /**
   * A written-out token sequence is accepted, and its password is the
   * expansion of exactly those tokens.
   */
  lemma RenderedPatternPassword(ins: seq<Instr>, draw: RandomSource)
    requires ins != [] && PositiveCounts(ins)
    ensures Render(ins) != []
    ensures PatternPassword(Render(ins), draw) == Success(Concat(Expand(ins, Choice(draw), 0)))
  {
    RenderStart(ins);
    ParseRendered([], ins);
    assert [] + Render(ins) == Render(ins);
  }

  /** The per-token outputs of a parsed pattern, in pattern order. */
  function TokenOutputs(ins: seq<Instr>, pick: ItemSource, start: nat): (outs: seq<string>)
    ensures |outs| == |ins|
  {
    if ins == [] then []
    else
      [Concat(Items(ins[0].generator, ins[0].count, pick, start))]
        + TokenOutputs(ins[1..], pick, start + DrawsUsed(ins[0].generator, ins[0].count))
  }

  /** The password is the concatenation of the tokens' outputs, in pattern order. */
  lemma {:induction false} OutputInPatternOrder(ins: seq<Instr>, pick: ItemSource, start: nat)
    ensures Concat(Expand(ins, pick, start)) == Concat(TokenOutputs(ins, pick, start))
  {
    if ins != [] {
      var head := Items(ins[0].generator, ins[0].count, pick, start);
      var after := start + DrawsUsed(ins[0].generator, ins[0].count);
      ConcatAppend(head, Expand(ins[1..], pick, after));
      OutputInPatternOrder(ins[1..], pick, after);
    }
  }

  /**
   * Token i's output is its items drawn after every draw the tokens before it
   * consumed.
   */
  lemma {:induction false} TokenOutputAt(ins: seq<Instr>, pick: ItemSource, start: nat, i: nat)
    requires i < |ins|
    ensures TokenOutputs(ins, pick, start)[i]
      == Concat(Items(ins[i].generator, ins[i].count, pick, start + TotalDraws(ins[..i])))
    decreases i
  {
    if i == 0 {
      assert ins[..0] == [];
    } else {
      var after := start + DrawsUsed(ins[0].generator, ins[0].count);
      TokenOutputAt(ins[1..], pick, after, i - 1);
      assert ins[1..][i - 1] == ins[i];
      assert ins[..i][0] == ins[0] && ins[..i][1..] == ins[1..][..i - 1];
    }
  }

  /**
   * A character token with count c contributes exactly c characters of its
   * class; `s` contributes c dashes.
   */
  lemma CharacterToken(g: Generator, count: nat, draw: RandomSource, start: nat)
    requires !ProducesWords(g)
    ensures |Concat(Items(g, count, Choice(draw), start))| == count
    ensures forall j :: 0 <= j < count ==> Concat(Items(g, count, Choice(draw), start))[j] in Charset(g)
    ensures g == Separators ==> Concat(Items(g, count, Choice(draw), start)) == seq(count, _ => '-')
  {
    var items := Items(g, count, Choice(draw), start);
    ItemsAt(g, count, Choice(draw), start);
    forall i | 0 <= i < count
      ensures |items[i]| == 1 && items[i][0] in Charset(g)
    {
      ItemInPool(g, draw, DrawIndex(g, start, i));
    }
    ConcatOfChars(items);
  }

  /**
   * A word token with count c contributes c words of the word list, each
   * capitalised for `W`.
   */
  lemma WordToken(g: Generator, count: nat, draw: RandomSource, start: nat)
    requires ProducesWords(g)
    ensures |Items(g, count, Choice(draw), start)| == count
    ensures g == Words ==> forall i :: 0 <= i < count ==> Items(g, count, Choice(draw), start)[i] in WordList
    ensures g == CapitalizedWords ==> forall i :: 0 <= i < count ==>
      exists w :: w in WordList && Items(g, count, Choice(draw), start)[i] == Capitalize(w)
  {
    ItemsAt(g, count, Choice(draw), start);
    forall i | 0 <= i < count
      ensures g == Words ==> Items(g, count, Choice(draw), start)[i] in WordList
      ensures g == CapitalizedWords ==> exists w :: w in WordList && Items(g, count, Choice(draw), start)[i] == Capitalize(w)
    {
      ItemInPool(g, draw, DrawIndex(g, start, i));
    }
  }

  function SumCounts(ins: seq<Instr>): nat {
    if ins == [] then 0 else ins[0].count + SumCounts(ins[1..])
  }

  predicate NoWordTokens(ins: seq<Instr>) {
    forall x :: x in ins ==> !ProducesWords(x.generator)
  }

  /** Without `w` and `W` tokens, the password is as long as the sum of the counts. */
  lemma {:induction false} LengthWithoutWords(ins: seq<Instr>, draw: RandomSource, start: nat)
    requires NoWordTokens(ins)
    ensures |Concat(Expand(ins, Choice(draw), start))| == SumCounts(ins)
  {
    if ins != [] {
      assert ins[0] in ins;
      var head := Items(ins[0].generator, ins[0].count, Choice(draw), start);
      var after := start + DrawsUsed(ins[0].generator, ins[0].count);
      ConcatAppend(head, Expand(ins[1..], Choice(draw), after));
      CharacterToken(ins[0].generator, ins[0].count, draw, start);
      assert NoWordTokens(ins[1..]) by {
        forall x | x in ins[1..] ensures !ProducesWords(x.generator) {
          assert x in ins;
        }
      }
      LengthWithoutWords(ins[1..], draw, after);
    }
  }

  /** A pattern that parses to a single token yields that token's output. */
  lemma SingleTokenPassword(p: string, g: Generator, n: nat, draw: RandomSource)
    requires p != [] && ParseFrom(p, 0) == Success([Instr(g, n)])
    ensures PatternPassword(p, draw) == Success(Concat(Items(g, n, Choice(draw), 0)))
  {
    var ins := [Instr(g, n)];
    var items := Items(g, n, Choice(draw), 0);
    var after := DrawsUsed(g, n);
    assert ins[1..] == [];
    assert Expand(ins[1..], Choice(draw), after) == [];
    assert Expand(ins, Choice(draw), 0) == items + [];
    assert items + [] == items;
  }

  /**
   * Without `w` and `W` tokens, a written-out pattern yields a password as
   * long as the sum of the counts written in it.
   */
  lemma RenderedPatternLength(ins: seq<Instr>, draw: RandomSource)
    requires ins != [] && PositiveCounts(ins) && NoWordTokens(ins)
    ensures PatternPassword(Render(ins), draw).Success?
    ensures |PatternPassword(Render(ins), draw).value| == SumCounts(ins)
  {
    RenderedPatternPassword(ins, draw);
    LengthWithoutWords(ins, draw, 0);
  }

  /** `r*2n` is two tokens, and yields three characters. */
  lemma TwoTokenExample(draw: RandomSource)
    ensures ParseFrom("r*2n", 0) == Success([Instr(RandomChars, 2), Instr(Numbers, 1)])
    ensures PatternPassword("r*2n", draw).Success? && |PatternPassword("r*2n", draw).value| == 3
  {
    var ins := [Instr(RandomChars, 2), Instr(Numbers, 1)];
    assert Render(ins) == "r*2n" by {
      assert RenderToken(ins[0]) == "r*2";
      assert ins[1..] == [Instr(Numbers, 1)] && Render(ins[1..]) == "n";
    }
    ParseRendered([], ins);
    assert [] + Render(ins) == Render(ins);
    assert SumCounts(ins) == 3 by {
      assert ins[1..][1..] == [];
    }
    RenderedPatternLength(ins, draw);
  }

  /** `s*3` yields `---` whatever the random source. */
  lemma SeparatorExample(draw: RandomSource)
    ensures PatternPassword("s*3", draw) == Success("---")
  {
    var p := "s*3";
    assert ParseFrom(p, 0) == Success([Instr(Separators, 3)]) by {
      SingleTokenWithCount('s', "3");
      assert [p[0], '*'] + "3" == p;
      assert DecimalValue("3") == 3;
    }
    SingleTokenPassword(p, Separators, 3, draw);
    CharacterToken(Separators, 3, draw, 0);
    assert seq(3, _ => '-') == "---";
  }

  lemma RandomCharsParse()
    ensures ParseFrom("r*16", 0) == Success([Instr(RandomChars, 16)])
  {
    var p := "r*16";
    SingleTokenWithCount('r', "16");
    assert [p[0], '*'] + "16" == p;
    assert DecimalValue("16") == 16 by {
      assert "16"[..1] == "1";
    }
  }

  /** A pattern that parses to a single character token yields `count` characters of its class. */
  lemma SingleCharacterTokenPassword(p: string, g: Generator, n: nat, draw: RandomSource)
    requires p != [] && ParseFrom(p, 0) == Success([Instr(g, n)]) && !ProducesWords(g)
    ensures PatternPassword(p, draw).Success?
    ensures |PatternPassword(p, draw).value| == n
    ensures forall j :: 0 <= j < n ==> PatternPassword(p, draw).value[j] in Charset(g)
  {
    SingleTokenPassword(p, g, n, draw);
    CharacterToken(g, n, draw, 0);
  }

  /** `r*16` yields sixteen letters and digits. */
  lemma RandomCharsExample(draw: RandomSource)
    ensures PatternPassword("r*16", draw).Success?
    ensures |PatternPassword("r*16", draw).value| == 16
    ensures forall j :: 0 <= j < 16 ==> PatternPassword("r*16", draw).value[j] in Alphanumerics
  {
    RandomCharsParse();
    SingleCharacterTokenPassword("r*16", RandomChars, 16, draw);
  }
}
