/**
 * The legacy pattern password generator. A pattern is a sequence of tokens;
 * each token is one class character from {w, W, n, s, r, S, a}, optionally
 * followed by `*` and a positive decimal repeat count, and expands, in
 * order, into that many words or characters of its class.
 *
 * Randomness is a parameter: `draw(k)` is the number behind the k-th call of
 * `secrets.choice`, which picks `pool[draw(k) % |pool|]`. Nothing is assumed
 * about its distribution.
 */
module PatternGenerator {
  import opened Wrappers
  import opened Strings

  type RandomSource = nat -> nat

  const WordList: seq<string> :=
    ["sage", "valley", "trail", "river", "pine", "willow", "summit", "canyon"]

  /** `string.ascii_letters + string.digits` */
  const Alphanumerics: string := LowercaseLetters + UppercaseLetters + Digits

  const SpecialChars: string := "!@#$%^&*()_+[]{}?"

  /** The class characters a token may start with. */
  const TokenChars: string := "wWnsrSa"

  datatype PatternError =
    | EmptyPattern
    | MissingMultiplier
    | NonPositiveMultiplier
    | UnsupportedToken(token: char)

  /** The per-token generators of the token table. */
  datatype Generator =
    | Words            // w
    | CapitalizedWords // W
    | Numbers          // n
    | Separators       // s
    | RandomChars      // r
    | SpecialCharacters // S
    | AlphanumericChars // a

  /** `_get_generator_for_token`: the token table; None for an unsupported token. */
  function GeneratorFor(token: char): Option<Generator> {
    match token
    case 'w' => Some(Words)
    case 'W' => Some(CapitalizedWords)
    case 'n' => Some(Numbers)
    case 's' => Some(Separators)
    case 'r' => Some(RandomChars)
    case 'S' => Some(SpecialCharacters)
    case 'a' => Some(AlphanumericChars)
    case _ => None
  }

  /** The class character of each generator: the key of its table entry. */
  function TokenChar(g: Generator): (c: char)
    ensures c in TokenChars && GeneratorFor(c) == Some(g)
  {
    match g
    case Words => 'w'
    case CapitalizedWords => 'W'
    case Numbers => 'n'
    case Separators => 's'
    case RandomChars => 'r'
    case SpecialCharacters => 'S'
    case AlphanumericChars => 'a'
  }

  /** The table holds exactly the seven class characters. */
  lemma GeneratorForDomain(token: char)
    ensures GeneratorFor(token).Some? <==> token in TokenChars
  {
  }

  /** Whether a generator produces words rather than single characters. */
  predicate ProducesWords(g: Generator) {
    g == Words || g == CapitalizedWords
  }

  /** The characters a single-character generator chooses from. */
  function Charset(g: Generator): string
    requires !ProducesWords(g)
  {
    match g
    case Numbers => Digits
    case Separators => "-"
    case RandomChars => Alphanumerics
    case SpecialCharacters => SpecialChars
    case AlphanumericChars => Alphanumerics
  }

  /** The draw number used by the i-th item of a run that starts at draw `start`. */
  function DrawIndex(g: Generator, start: nat, i: nat): nat {
    if g == Separators then start else start + i
  }

  /** How many random draws a run of `count` items consumes. */
  function DrawsUsed(g: Generator, count: nat): nat {
    if g == Separators then 0 else count
  }

  /** The item a generator yields when it is given draw number k. */
  function Item(g: Generator, draw: RandomSource, k: nat): string {
    match g
    case Words => WordList[draw(k) % |WordList|]
    case CapitalizedWords => Capitalize(WordList[draw(k) % |WordList|])
    case Numbers => [Digits[draw(k) % |Digits|]]
    case Separators => "-"
    case RandomChars => [Alphanumerics[draw(k) % |Alphanumerics|]]
    case SpecialCharacters => [SpecialChars[draw(k) % |SpecialChars|]]
    case AlphanumericChars => [Alphanumerics[draw(k) % |Alphanumerics|]]
  }

  /** What an item is, for each generator: a member of its pool. */
  lemma ItemInPool(g: Generator, draw: RandomSource, k: nat)
    ensures g == Words ==> Item(g, draw, k) in WordList
    ensures g == CapitalizedWords ==> exists w :: w in WordList && Item(g, draw, k) == Capitalize(w)
    ensures !ProducesWords(g) ==> |Item(g, draw, k)| == 1 && Item(g, draw, k)[0] in Charset(g)
    ensures g == Separators ==> Item(g, draw, k) == "-"
  {
    if g == CapitalizedWords {
      var w := WordList[draw(k) % |WordList|];
      assert w in WordList && Item(g, draw, k) == Capitalize(w);
    }
  }

  /**
   * What the generators yield, as a function of the generator and the draw
   * number; Choice(draw) is the one `secrets.choice` gives.
   */
  type ItemSource = (Generator, nat) -> string

  function Choice(draw: RandomSource): ItemSource {
    (g: Generator, k: nat) => Item(g, draw, k)
  }

  /** The items of one token with count `count`, starting at draw `start`. */
  function Items(g: Generator, count: nat, pick: ItemSource, start: nat): seq<string>
    decreases count
  {
    if count == 0 then [] else [pick(g, start)] + Items(g, count - 1, pick, start + DrawsUsed(g, 1))
  }

  lemma {:induction false} ItemsLength(g: Generator, count: nat, pick: ItemSource, start: nat)
    ensures |Items(g, count, pick, start)| == count
    decreases count
  {
    if count > 0 {
      ItemsLength(g, count - 1, pick, start + DrawsUsed(g, 1));
    }
  }

  /** The i-th item of a token's expansion is the one given draw DrawIndex(g, start, i). */
  lemma {:induction false} ItemAt(g: Generator, count: nat, pick: ItemSource, start: nat, i: nat)
    requires i < count
    ensures |Items(g, count, pick, start)| == count
    ensures Items(g, count, pick, start)[i] == pick(g, DrawIndex(g, start, i))
    decreases i
  {
    ItemsLength(g, count, pick, start);
    if i > 0 {
      var next := start + DrawsUsed(g, 1);
      var rest := Items(g, count - 1, pick, next);
      assert Items(g, count, pick, start) == [pick(g, start)] + rest;
      ItemAt(g, count - 1, pick, next, i - 1);
      assert DrawIndex(g, next, i - 1) == DrawIndex(g, start, i);
    }
  }

  lemma ItemsAt(g: Generator, count: nat, pick: ItemSource, start: nat)
    ensures |Items(g, count, pick, start)| == count
    ensures forall i :: 0 <= i < count ==> Items(g, count, pick, start)[i] == pick(g, DrawIndex(g, start, i))
  {
    ItemsLength(g, count, pick, start);
    forall i | 0 <= i < count
      ensures Items(g, count, pick, start)[i] == pick(g, DrawIndex(g, start, i))
    {
      ItemAt(g, count, pick, start, i);
    }
  }

  /**
   * The `_generate_*` helpers: a counted loop that yields one item per
   * iteration, consuming one draw per item except for the separators.
   */
  method RunGenerator(g: Generator, count: nat, draw: RandomSource, start: nat) returns (items: seq<string>, next: nat)
    ensures |items| == count
    ensures forall i :: 0 <= i < count ==> items[i] == Item(g, draw, DrawIndex(g, start, i))
    ensures next == start + DrawsUsed(g, count)
  {
    items := [];
    next := start;
    for i := 0 to count
      invariant |items| == i
      invariant forall j :: 0 <= j < i ==> items[j] == Item(g, draw, DrawIndex(g, start, j))
      invariant next == start + DrawsUsed(g, i)
    {
      items := items + [Item(g, draw, next)];
      if g != Separators {
        next := next + 1;
      }
    }
  }

  /** One parsed token: its generator and its repeat count. */
  datatype Instr = Instr(generator: Generator, count: nat)

  /** The end of the run of ASCII digits that starts at position k. */
  function DigitsEnd(p: string, k: nat): (e: nat)
    requires k <= |p|
    ensures k <= e <= |p|
    ensures forall j :: k <= j < e ==> IsDigit(p[j])
    ensures e == |p| || !IsDigit(p[e])
    decreases |p| - k
  {
    if k < |p| && IsDigit(p[k]) then DigitsEnd(p, k + 1) else k
  }

  /** Prefixes an accepted token to the parse of the rest, checking the token first. */
  function Then(token: char, count: nat, rest: Result<seq<Instr>, PatternError>): Result<seq<Instr>, PatternError> {
    match GeneratorFor(token)
    case None => Failure(UnsupportedToken(token))
    case Some(g) =>
      match rest
      case Failure(e) => Failure(e)
      case Success(ins) => Success([Instr(g, count)] + ins)
  }

  /**
   * The tokenizer from position i: per token, the multiplier is read and
   * checked first, then the token is looked up; the first error wins.
   */
  function ParseFrom(p: string, i: nat): Result<seq<Instr>, PatternError>
    requires i <= |p|
    decreases |p| - i
  {
    if i == |p| then Success([])
    else if i + 1 < |p| && p[i + 1] == '*' then
      var e := DigitsEnd(p, i + 2);
      if e == i + 2 then Failure(MissingMultiplier)
      else if DecimalValue(p[i + 2..e]) <= 0 then Failure(NonPositiveMultiplier)
      else Then(p[i], DecimalValue(p[i + 2..e]), ParseFrom(p, e))
    else Then(p[i], 1, ParseFrom(p, i + 1))
  }

  function TotalDraws(ins: seq<Instr>): nat {
    if ins == [] then 0 else DrawsUsed(ins[0].generator, ins[0].count) + TotalDraws(ins[1..])
  }

  /** The items of a token sequence, token after token, starting at draw `start`. */
  function Expand(ins: seq<Instr>, pick: ItemSource, start: nat): seq<string> {
    if ins == [] then []
    else
      Items(ins[0].generator, ins[0].count, pick, start)
        + Expand(ins[1..], pick, start + DrawsUsed(ins[0].generator, ins[0].count))
  }

  /** The password for a pattern, or the error the generator raises. */
  function PatternPassword(p: string, draw: RandomSource): Result<string, PatternError> {
    if p == [] then Failure(EmptyPattern)
    else
      match ParseFrom(p, 0)
      case Failure(e) => Failure(e)
      case Success(ins) => Success(Concat(Expand(ins, Choice(draw), 0)))
  }

  /** The parse of a prefix already consumed, followed by the parse of the rest. */
  function Chain(done: seq<Instr>, rest: Result<seq<Instr>, PatternError>): Result<seq<Instr>, PatternError> {
    match rest
    case Failure(e) => Failure(e)
    case Success(ins) => Success(done + ins)
  }

  lemma {:induction false} TotalDrawsAppend(a: seq<Instr>, b: seq<Instr>)
    ensures TotalDraws(a + b) == TotalDraws(a) + TotalDraws(b)
  {
    if a == [] {
      assert a + b == b;
    } else {
      assert (a + b)[1..] == a[1..] + b;
      TotalDrawsAppend(a[1..], b);
    }
  }

  /** Regrouping a concatenation of three sequences. */
  lemma AppendAssoc<T>(x: seq<T>, y: seq<T>, z: seq<T>)
    ensures x + (y + z) == (x + y) + z
  {
  }

  /**
   * Expansion follows pattern order: the items of a + b are those of a
   * followed by those of b, which continue from the draws a consumed.
   */
  lemma {:induction false} ExpandAppend(a: seq<Instr>, b: seq<Instr>, pick: ItemSource, start: nat)
    ensures Expand(a + b, pick, start) == Expand(a, pick, start) + Expand(b, pick, start + TotalDraws(a))
  {
    if a == [] {
      assert a + b == b;
    } else {
      var x := a[0];
      var tail := a[1..];
      var after := start + DrawsUsed(x.generator, x.count);
      var head := Items(x.generator, x.count, pick, start);
      assert (a + b)[0] == x;
      assert (a + b)[1..] == tail + b;
      ExpandAppend(tail, b, pick, after);
      assert TotalDraws(a) == DrawsUsed(x.generator, x.count) + TotalDraws(tail);
      assert Expand(a + b, pick, start) == head + Expand(tail + b, pick, after);
      assert Expand(a, pick, start) == head + Expand(tail, pick, after);
      AppendAssoc(head, Expand(tail, pick, after), Expand(b, pick, after + TotalDraws(tail)));
    }
  }

  lemma ChainStep(done: seq<Instr>, token: char, count: nat, rest: Result<seq<Instr>, PatternError>)
    requires GeneratorFor(token).Some?
    ensures Chain(done + [Instr(GeneratorFor(token).value, count)], rest) == Chain(done, Then(token, count, rest))
  {
    var instr := Instr(GeneratorFor(token).value, count);
    match rest {
      case Success(ins) =>
        assert (done + [instr]) + ins == done + ([instr] + ins);
      case Failure(_) =>
    }
  }

  lemma ExpandStep(done: seq<Instr>, instr: Instr, pick: ItemSource)
    ensures Expand(done + [instr], pick, 0)
      == Expand(done, pick, 0) + Items(instr.generator, instr.count, pick, TotalDraws(done))
    ensures TotalDraws(done + [instr]) == TotalDraws(done) + DrawsUsed(instr.generator, instr.count)
  {
    assert [instr][1..] == [];
    ExpandAppend(done, [instr], pick, 0);
    TotalDrawsAppend(done, [instr]);
    assert Items(instr.generator, instr.count, pick, TotalDraws(done)) + [] ==
      Items(instr.generator, instr.count, pick, TotalDraws(done));
  }

  /** An error met at position i is the error of the whole pattern. */
  lemma FailureAt(p: string, i: nat, done: seq<Instr>, e: PatternError, draw: RandomSource)
    requires p != [] && i <= |p|
    requires Chain(done, ParseFrom(p, i)) == ParseFrom(p, 0)
    requires ParseFrom(p, i) == Failure(e)
    ensures PatternPassword(p, draw) == Failure(e)
  {
  }

  /**
   * `generate_password_from_pattern`: scans the pattern with an index, reads
   * an optional `*` multiplier with an inner digit loop, looks the token up
   * and extends the result with the token's items.
   */
  method GeneratePasswordFromPattern(pattern: string, draw: RandomSource) returns (r: Result<string, PatternError>)
    ensures r == PatternPassword(pattern, draw)
  {
    if pattern == [] {
      return Failure(EmptyPattern);
    }
    var index := 0;
    var result: seq<string> := [];
    var length := |pattern|;
    var drawn := 0;
    ghost var done: seq<Instr> := [];
    assert Chain(done, ParseFrom(pattern, 0)) == ParseFrom(pattern, 0) by {
      match ParseFrom(pattern, 0) {
        case Success(ins) => assert done + ins == ins;
        case Failure(_) =>
      }
    }

    while index < length
      invariant 0 <= index <= length
      invariant Chain(done, ParseFrom(pattern, index)) == ParseFrom(pattern, 0)
      invariant result == Expand(done, Choice(draw), 0)
      invariant drawn == TotalDraws(done)
      decreases length - index
    {
      var token := pattern[index];
      var tokenStart := index;
      index := index + 1;

      var count := 1;
      if index < length && pattern[index] == '*' {
        index := index + 1;
        var numberStart := index;
        while index < length && IsDigit(pattern[index])
          invariant numberStart <= index <= length
          invariant DigitsEnd(pattern, index) == DigitsEnd(pattern, numberStart)
          decreases length - index
        {
          index := index + 1;
        }
        if numberStart == index {
          FailureAt(pattern, tokenStart, done, MissingMultiplier, draw);
          return Failure(MissingMultiplier);
        }
        count := DecimalValue(pattern[numberStart..index]);
        if count <= 0 {
          FailureAt(pattern, tokenStart, done, NonPositiveMultiplier, draw);
          return Failure(NonPositiveMultiplier);
        }
      }
      assert ParseFrom(pattern, tokenStart) == Then(token, count, ParseFrom(pattern, index));

      var generator := GeneratorFor(token);
      if generator.None? {
        FailureAt(pattern, tokenStart, done, UnsupportedToken(token), draw);
        return Failure(UnsupportedToken(token));
      }
      var items, next := RunGenerator(generator.value, count, draw, drawn);
      ItemsAt(generator.value, count, Choice(draw), drawn);
      assert items == Items(generator.value, count, Choice(draw), drawn);

      ghost var instr := Instr(generator.value, count);
      ExpandStep(done, instr, Choice(draw));
      ChainStep(done, token, count, ParseFrom(pattern, index));
      result := result + items;
      drawn := next;
      done := done + [instr];
    }
    assert done + [] == done;
    return Success(Concat(result));
  }
}
