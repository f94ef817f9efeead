/**
 * The password generator and strength scorer of utils/generator.ts.
 *
 * The two random sources are inputs. `window.crypto.getRandomValues` fills a
 * sequence of words; each call of `Math.random()` is a `Draw`, the rational
 * number num/den in [0, 1).
 */
module Generator {
  import opened Types

  // Spanish QWERTY layout zones, separated by the hand that types them.
  const LEFT_HAND_LOWER: string := "qwertasdfgzxcvb"
  const RIGHT_HAND_LOWER: string := "yuiophjklñnm"
  const LEFT_HAND_UPPER: string := "QWERTASDFGZXCVB"
  const RIGHT_HAND_UPPER: string := "YUIOPHJKLÑNM"
  const NUMBERS_LEFT: string := "12345"
  const NUMBERS_RIGHT: string := "67890"
  // Shifted top-row symbols of a Spanish ISO keyboard.
  const SYMBOLS: string := "!@#$%&/()=?¿¡*+"
  // Glyphs that are easily confused with one another.
  const AMBIGUOUS: string := "l1IO0"

  // ---------------------------------------------------------------------
  // Strength scoring
  // ---------------------------------------------------------------------

  /** The ASCII class `[A-Z]`; `Ñ` is not in it. */
  predicate IsAsciiUpper(c: char) { 'A' <= c <= 'Z' }

  /** The ASCII class `[0-9]`. */
  predicate IsAsciiDigit(c: char) { '0' <= c <= '9' }

  /** The ASCII class `[A-Za-z0-9]`; `ñ`, `Ñ`, `¿` and `¡` are outside it. */
  predicate IsAsciiAlnum(c: char) { 'A' <= c <= 'Z' || 'a' <= c <= 'z' || '0' <= c <= '9' }

  /** The regular expression `/[A-Z]/` matches somewhere in `p`. */
  predicate HasUpper(p: string) { exists i :: 0 <= i < |p| && IsAsciiUpper(p[i]) }

  /** The regular expression `/[0-9]/` matches somewhere in `p`. */
  predicate HasDigit(p: string) { exists i :: 0 <= i < |p| && IsAsciiDigit(p[i]) }

  /** The regular expression `/[^A-Za-z0-9]/` matches somewhere in `p`. */
  predicate HasNonAlnum(p: string) { exists i :: 0 <= i < |p| && !IsAsciiAlnum(p[i]) }

  function Indicator(b: bool): nat { if b then 1 else 0 }

  /** The heuristic score: three length thresholds plus three character classes. */
  function Score(p: string): (r: nat)
    ensures r <= 6
    ensures r == 6 <==> |p| >= 18 && HasUpper(p) && HasDigit(p) && HasNonAlnum(p)
    ensures |p| < 10 ==> r <= 3
  {
    Indicator(|p| >= 10) + Indicator(|p| >= 14) + Indicator(|p| >= 18)
    + Indicator(HasUpper(p)) + Indicator(HasDigit(p)) + Indicator(HasNonAlnum(p))
  }

  /** The label fixed by a score. */
  function LevelOf(score: nat): Strength {
    if score < 3 then Debil
    else if score < 4 then Media
    else if score < 6 then Fuerte
    else MuyFuerte
  }

  /** calculateStrength: the score is accumulated by a chain of tests. */
  method CalculateStrength(password: string) returns (level: Strength)
    ensures level == LevelOf(Score(password))
    ensures password == [] ==> level == Debil && level.Label() == "Débil"
  {
    if password == [] {
      return Debil;
    }
    var score: nat := 0;
    if |password| >= 10 { score := score + 1; }
    if |password| >= 14 { score := score + 1; }
    if |password| >= 18 { score := score + 1; }
    if HasUpper(password) { score := score + 1; }
    if HasDigit(password) { score := score + 1; }
    if HasNonAlnum(password) { score := score + 1; }
    if score < 3 { return Debil; }
    if score < 4 { return Media; }
    if score < 6 { return Fuerte; }
    return MuyFuerte;
  }

  /** The label never gets weaker as the score grows. */
  lemma LevelMonotone(a: nat, b: nat)
    requires a <= b
    ensures LevelOf(a).Rank() <= LevelOf(b).Rank()
  {
  }

  /** The weakest label is given exactly below three points, the strongest exactly at six. */
  lemma LevelThresholds(score: nat)
    requires score <= 6
    ensures LevelOf(score) == Debil <==> score < 3
    ensures LevelOf(score) == Media <==> score == 3
    ensures LevelOf(score) == Fuerte <==> 4 <= score <= 5
    ensures LevelOf(score) == MuyFuerte <==> score == 6
  {
  }

  /** A string of ten ASCII lower-case letters scores one point and is weak. */
  lemma TenLowercaseIsWeak(p: string)
    requires |p| == 10
    requires forall i :: 0 <= i < |p| ==> 'a' <= p[i] <= 'z'
    ensures Score(p) == 1 && LevelOf(Score(p)) == Debil
  {
    assert !HasUpper(p) && !HasDigit(p) && !HasNonAlnum(p);
  }

  /** "Muy Fuerte" is given exactly to strings of at least 18 characters with all three classes. */
  lemma VeryStrongIff(p: string)
    ensures LevelOf(Score(p)) == MuyFuerte <==> |p| >= 18 && HasUpper(p) && HasDigit(p) && HasNonAlnum(p)
  {
  }

  /** The character classes are ASCII-only: `Ñ` is not upper-case; `ñ`, `Ñ`, `¿`, `¡` are non-alphanumeric. */
  lemma ClassesAreAscii()
    ensures !HasUpper("Ñ") && !HasDigit("Ñ")
    ensures HasNonAlnum("ñ") && HasNonAlnum("Ñ") && HasNonAlnum("¿") && HasNonAlnum("¡")
  {
    assert !IsAsciiAlnum("ñ"[0]) && !IsAsciiAlnum("Ñ"[0]) && !IsAsciiAlnum("¿"[0]) && !IsAsciiAlnum("¡"[0]);
  }

  // ---------------------------------------------------------------------
  // Random draws
  // ---------------------------------------------------------------------

  /** One value num/den returned by `Math.random()`. */
  datatype Draw = Draw(num: nat, den: nat) {
    /** The value lies in [0, 1). */
    predicate InUnit() { num < den }

    /** `Math.random() > 0.5`. */
    predicate AboveHalf() { 2 * num > den }
  }

  /** `Math.floor(r * n)` for the draw r. */
  function Scale(d: Draw, n: nat): (k: nat)
    requires d.InUnit()
    ensures n > 0 ==> k < n
    ensures n == 0 ==> k == 0
  {
    var k := d.num * n / d.den;
    FloorBelow(d.num, n, d.den);
    k
  }

  /** For num < den and n > 0, `(num * n) / den < n`. */
  lemma FloorBelow(num: nat, n: nat, den: nat)
    requires num < den
    ensures n > 0 ==> num * n / den < n
    ensures n == 0 ==> num * n / den == 0
  {
    if n > 0 {
      assert num * n < den * n;
    }
  }

  /** `pool.charAt(Math.floor(Math.random() * pool.length))`. */
  function Pick(pool: string, d: Draw): (c: char)
    requires pool != [] && d.InUnit()
    ensures c in pool
  {
    pool[Scale(d, |pool|)]
  }

  predicate AllInUnit(draws: seq<Draw>) {
    forall k :: 0 <= k < |draws| ==> draws[k].InUnit()
  }

  // ---------------------------------------------------------------------
  // Character pools
  // ---------------------------------------------------------------------

  /** `p.split('').filter(c => !AMBIGUOUS.includes(c)).join('')`. */
  function WithoutAmbiguous(p: string): (r: string)
    ensures |r| <= |p|
  {
    if p == [] then []
    else (if p[0] in AMBIGUOUS then [] else [p[0]]) + WithoutAmbiguous(p[1..])
  }

  /** The filter keeps each character as often as it occurs, unless it is ambiguous. */
  lemma {:induction false} WithoutAmbiguousCount(p: string, c: char)
    ensures multiset(WithoutAmbiguous(p))[c] == if c in AMBIGUOUS then 0 else multiset(p)[c]
  {
    if p != [] {
      WithoutAmbiguousCount(p[1..], c);
      assert p == [p[0]] + p[1..];
    }
  }

  /** The filter distributes over concatenation, so it keeps the order of what it keeps. */
  lemma {:induction false} WithoutAmbiguousConcat(a: string, b: string)
    ensures WithoutAmbiguous(a + b) == WithoutAmbiguous(a) + WithoutAmbiguous(b)
  {
    if a == [] {
      assert a + b == b;
    } else {
      var head := if a[0] in AMBIGUOUS then [] else [a[0]];
      assert (a + b)[0] == a[0];
      assert (a + b)[1..] == a[1..] + b;
      WithoutAmbiguousConcat(a[1..], b);
      calc {
        WithoutAmbiguous(a + b);
        head + WithoutAmbiguous(a[1..] + b);
        head + (WithoutAmbiguous(a[1..]) + WithoutAmbiguous(b));
        (head + WithoutAmbiguous(a[1..])) + WithoutAmbiguous(b);
      }
    }
  }

  /** The filter is idempotent. */
  lemma {:induction false} WithoutAmbiguousIdempotent(p: string)
    ensures WithoutAmbiguous(WithoutAmbiguous(p)) == WithoutAmbiguous(p)
  {
    if p != [] {
      WithoutAmbiguousIdempotent(p[1..]);
      var head := if p[0] in AMBIGUOUS then [] else [p[0]];
      WithoutAmbiguousConcat(head, WithoutAmbiguous(p[1..]));
    }
  }

  /** The keyboard zones the pools are built from, split by the hand that types them. */
  datatype Zones = Zones(
    leftLower: string, rightLower: string,
    leftUpper: string, rightUpper: string,
    numbersLeft: string, numbersRight: string,
    symbols: string)
  {
    /** A key typed with the left hand. */
    predicate IsLeftHandKey(c: char) {
      c in leftLower || c in leftUpper || c in numbersLeft
    }

    /** No right-hand key and no symbol is also a left-hand key. */
    predicate HandsApart() {
      && (forall c :: c in rightLower ==> !IsLeftHandKey(c))
      && (forall c :: c in rightUpper ==> !IsLeftHandKey(c))
      && (forall c :: c in numbersRight ==> !IsLeftHandKey(c))
      && (forall c :: c in symbols ==> !IsLeftHandKey(c))
    }
  }

  /** The Spanish QWERTY zones of the generator. */
  const SPANISH_QWERTY: Zones := Zones(
    LEFT_HAND_LOWER, RIGHT_HAND_LOWER, LEFT_HAND_UPPER, RIGHT_HAND_UPPER,
    NUMBERS_LEFT, NUMBERS_RIGHT, SYMBOLS)

  /** Each zone lies in a small range of characters. */
  lemma ZoneRanges()
    ensures forall c :: c in LEFT_HAND_LOWER ==> 'a' <= c <= 'z'
    ensures forall c :: c in RIGHT_HAND_LOWER ==> 'a' <= c <= 'z' || c == 'ñ'
    ensures forall c :: c in LEFT_HAND_UPPER ==> 'A' <= c <= 'Z'
    ensures forall c :: c in RIGHT_HAND_UPPER ==> 'A' <= c <= 'Z' || c == 'Ñ'
    ensures forall c :: c in NUMBERS_LEFT ==> '1' <= c <= '5'
    ensures forall c :: c in NUMBERS_RIGHT ==> c == '0' || '6' <= c <= '9'
    ensures forall c :: c in SYMBOLS ==> !IsAsciiAlnum(c)
  {
  }

  /** No lower-case letter is in both hand zones. */
  lemma LowerZonesDisjoint()
    ensures forall c :: c in RIGHT_HAND_LOWER ==> c !in LEFT_HAND_LOWER
  {
  }

  /** No upper-case letter is in both hand zones. */
  lemma UpperZonesDisjoint()
    ensures forall c :: c in RIGHT_HAND_UPPER ==> c !in LEFT_HAND_UPPER
  {
  }

  /** On the Spanish QWERTY zones the right hand and the symbols share no key with the left hand. */
  lemma SpanishQwertyHandsApart()
    ensures SPANISH_QWERTY.HandsApart()
  {
    ZoneRanges();
    LowerZonesDisjoint();
    UpperZonesDisjoint();
  }

  /** `str` when `on` is set, else the empty string. */
  function Part(on: bool, str: string): string { if on then str else "" }

  /** The filter applied when ambiguous characters are excluded. */
  function Strip(s: GeneratorSettings, p: string): string {
    if s.useAmbiguous then WithoutAmbiguous(p) else p
  }

  /** Stripping keeps each character as often as it occurs, unless it is excluded. */
  lemma StripCount(s: GeneratorSettings, p: string, c: char)
    ensures multiset(Strip(s, p))[c] == if s.useAmbiguous && c in AMBIGUOUS then 0 else multiset(p)[c]
  {
    WithoutAmbiguousCount(p, c);
  }

  /** Stripping keeps exactly the characters that are not excluded. */
  lemma StripMembers(s: GeneratorSettings, p: string, c: char)
    ensures c in Strip(s, p) <==> c in p && !(s.useAmbiguous && c in AMBIGUOUS)
  {
    StripCount(s, p, c);
    assert c in Strip(s, p) <==> multiset(Strip(s, p))[c] > 0;
    assert c in p <==> multiset(p)[c] > 0;
  }

  /** The enabled categories, concatenated before filtering. */
  function Categories(k: Zones, s: GeneratorSettings): string {
    Part(s.useLowercase, k.leftLower + k.rightLower)
    + Part(s.useUppercase, k.leftUpper + k.rightUpper)
    + Part(s.useNumbers, k.numbersLeft + k.numbersRight)
    + Part(s.useSymbols, k.symbols)
  }

  /** `c` belongs to a category the settings enable. */
  predicate InEnabledCategory(k: Zones, s: GeneratorSettings, c: char) {
    || (s.useLowercase && (c in k.leftLower || c in k.rightLower))
    || (s.useUppercase && (c in k.leftUpper || c in k.rightUpper))
    || (s.useNumbers && (c in k.numbersLeft || c in k.numbersRight))
    || (s.useSymbols && c in k.symbols)
  }

  /** The unified pool `allowed`. */
  function Allowed(k: Zones, s: GeneratorSettings): string {
    Strip(s, Categories(k, s))
  }

  /** Filtering the union is filtering each category and then taking the union. */
  lemma AllowedFilteredPerCategory(k: Zones, s: GeneratorSettings)
    ensures Allowed(k, s) ==
      Strip(s, Part(s.useLowercase, k.leftLower + k.rightLower))
      + Strip(s, Part(s.useUppercase, k.leftUpper + k.rightUpper))
      + Strip(s, Part(s.useNumbers, k.numbersLeft + k.numbersRight))
      + Strip(s, Part(s.useSymbols, k.symbols))
  {
    var lo, up := Part(s.useLowercase, k.leftLower + k.rightLower), Part(s.useUppercase, k.leftUpper + k.rightUpper);
    var nu, sy := Part(s.useNumbers, k.numbersLeft + k.numbersRight), Part(s.useSymbols, k.symbols);
    WithoutAmbiguousConcat(lo + up + nu, sy);
    WithoutAmbiguousConcat(lo + up, nu);
    WithoutAmbiguousConcat(lo, up);
  }

  /** The characters of `allowed` are those of the enabled categories, less the ambiguous ones when excluded. */
  lemma AllowedMembers(k: Zones, s: GeneratorSettings, c: char)
    ensures c in Allowed(k, s) <==> InEnabledCategory(k, s, c) && !(s.useAmbiguous && c in AMBIGUOUS)
  {
    StripMembers(s, Categories(k, s), c);
  }

  /** With exclusion on, `allowed` holds no ambiguous character. */
  lemma AllowedUnambiguous(k: Zones, s: GeneratorSettings)
    ensures s.useAmbiguous ==> forall c :: c in Allowed(k, s) ==> c !in AMBIGUOUS
  {
    forall c | c in Allowed(k, s) ensures s.useAmbiguous ==> c !in AMBIGUOUS {
      AllowedMembers(k, s, c);
    }
  }

  /** The pool is empty exactly when no category is enabled: every category keeps some character after filtering. */
  lemma AllowedEmptyIff(s: GeneratorSettings)
    ensures Allowed(SPANISH_QWERTY, s) == [] <==> !(s.useLowercase || s.useUppercase || s.useNumbers || s.useSymbols)
  {
    var k := SPANISH_QWERTY;
    if s.useLowercase {
      AllowedMembers(k, s, 'q');
    } else if s.useUppercase {
      AllowedMembers(k, s, 'Q');
    } else if s.useNumbers {
      AllowedMembers(k, s, '2');
    } else if s.useSymbols {
      AllowedMembers(k, s, '!');
    } else {
      assert Categories(k, s) == [];
    }
  }

  /** The left-hand keys of the enabled categories. */
  function LeftKeys(k: Zones, s: GeneratorSettings): string {
    Part(s.useLowercase, k.leftLower) + Part(s.useUppercase, k.leftUpper) + Part(s.useNumbers, k.numbersLeft)
  }

  /** The right-hand keys of the enabled categories; every symbol goes to the right hand. */
  function RightKeys(k: Zones, s: GeneratorSettings): string {
    Part(s.useLowercase, k.rightLower) + Part(s.useUppercase, k.rightUpper)
    + Part(s.useNumbers, k.numbersRight) + Part(s.useSymbols, k.symbols)
  }

  /** `leftPool` before the empty-pool fallback. */
  function RawLeftPool(k: Zones, s: GeneratorSettings): string { Strip(s, LeftKeys(k, s)) }

  /** `rightPool` before the empty-pool fallback. */
  function RawRightPool(k: Zones, s: GeneratorSettings): string { Strip(s, RightKeys(k, s)) }

  /** Splitting one category into its two hand zones keeps the left zone first. */
  lemma PartSplit(on: bool, a: string, b: string)
    ensures Part(on, a + b) == Part(on, a) + Part(on, b)
  {
  }

  /** Regrouping seven strings by hand only rearranges the characters. */
  lemma RegroupPermutes(ll: string, rl: string, lu: string, ru: string, nl: string, nr: string, sy: string)
    ensures multiset((ll + rl) + (lu + ru) + (nl + nr) + sy) == multiset(ll + lu + nl) + multiset(rl + ru + nr + sy)
  {
  }

  /** The enabled categories are a rearrangement of their left-hand keys followed by their right-hand keys. */
  lemma CategoriesSplit(k: Zones, s: GeneratorSettings)
    ensures multiset(Categories(k, s)) == multiset(LeftKeys(k, s)) + multiset(RightKeys(k, s))
  {
    PartSplit(s.useLowercase, k.leftLower, k.rightLower);
    PartSplit(s.useUppercase, k.leftUpper, k.rightUpper);
    PartSplit(s.useNumbers, k.numbersLeft, k.numbersRight);
    RegroupPermutes(
      Part(s.useLowercase, k.leftLower), Part(s.useLowercase, k.rightLower),
      Part(s.useUppercase, k.leftUpper), Part(s.useUppercase, k.rightUpper),
      Part(s.useNumbers, k.numbersLeft), Part(s.useNumbers, k.numbersRight),
      Part(s.useSymbols, k.symbols));
  }

  /** Filtering two strings that together rearrange a third rearranges the filtered third. */
  lemma StripPermutes(s: GeneratorSettings, all: string, left: string, right: string)
    requires multiset(all) == multiset(left) + multiset(right)
    ensures multiset(Strip(s, all)) == multiset(Strip(s, left)) + multiset(Strip(s, right))
  {
    forall c | true
      ensures multiset(Strip(s, all))[c] == (multiset(Strip(s, left)) + multiset(Strip(s, right)))[c]
    {
      StripCount(s, all, c);
      StripCount(s, left, c);
      StripCount(s, right, c);
    }
  }

  /** Before the fallback, the two hand pools together are a rearrangement of `allowed`. */
  lemma RawPoolsPermuteAllowed(k: Zones, s: GeneratorSettings)
    ensures multiset(RawLeftPool(k, s) + RawRightPool(k, s)) == multiset(Allowed(k, s))
  {
    CategoriesSplit(k, s);
    StripPermutes(s, Categories(k, s), LeftKeys(k, s), RightKeys(k, s));
  }

  /** Every character of the raw pools is in `allowed`, and one of them is non-empty when `allowed` is. */
  lemma RawPoolsCoverAllowed(k: Zones, s: GeneratorSettings)
    ensures forall c :: c in RawLeftPool(k, s) ==> c in Allowed(k, s)
    ensures forall c :: c in RawRightPool(k, s) ==> c in Allowed(k, s)
    ensures Allowed(k, s) != [] ==> RawLeftPool(k, s) != [] || RawRightPool(k, s) != []
  {
    var both := RawLeftPool(k, s) + RawRightPool(k, s);
    RawPoolsPermuteAllowed(k, s);
    forall c | c in RawLeftPool(k, s) ensures c in Allowed(k, s) {
      assert c in both;
      assert multiset(both)[c] > 0;
    }
    forall c | c in RawRightPool(k, s) ensures c in Allowed(k, s) {
      assert c in both;
      assert multiset(both)[c] > 0;
    }
    assert |multiset(both)| == |Allowed(k, s)|;
  }

  /** With the hands apart, the raw left pool holds only left-hand keys and no symbol, and the raw right pool no left-hand key. */
  lemma RawPoolHands(k: Zones, s: GeneratorSettings)
    requires k.HandsApart()
    ensures forall c :: c in RawLeftPool(k, s) ==> k.IsLeftHandKey(c) && c !in k.symbols
    ensures forall c :: c in RawRightPool(k, s) ==> !k.IsLeftHandKey(c)
  {
    forall c | c in RawLeftPool(k, s) ensures k.IsLeftHandKey(c) && c !in k.symbols {
      StripMembers(s, LeftKeys(k, s), c);
    }
    forall c | c in RawRightPool(k, s) ensures !k.IsLeftHandKey(c) {
      StripMembers(s, RightKeys(k, s), c);
    }
  }

  /** `leftPool` after the fallback of line 85. */
  function LeftPool(k: Zones, s: GeneratorSettings): (r: string)
    ensures Allowed(k, s) != [] ==> r != []
  {
    RawPoolsCoverAllowed(k, s);
    if |RawLeftPool(k, s)| == 0 then (if |RawRightPool(k, s)| > 0 then RawRightPool(k, s) else Allowed(k, s))
    else RawLeftPool(k, s)
  }

  /** `rightPool` after the fallback of line 86, which reads the already updated `leftPool`. */
  function RightPool(k: Zones, s: GeneratorSettings): (r: string)
    ensures Allowed(k, s) != [] ==> r != []
  {
    if |RawRightPool(k, s)| == 0 then (if |LeftPool(k, s)| > 0 then LeftPool(k, s) else Allowed(k, s))
    else RawRightPool(k, s)
  }

  /** After the fallback both pools draw only from `allowed`. */
  lemma HandPoolsWithinAllowed(k: Zones, s: GeneratorSettings)
    ensures forall c :: c in LeftPool(k, s) ==> c in Allowed(k, s)
    ensures forall c :: c in RightPool(k, s) ==> c in Allowed(k, s)
  {
    RawPoolsCoverAllowed(k, s);
  }

  /** With the hands apart, a symbol reaches the left pool only by the fallback, when the raw left pool is empty. */
  lemma SymbolsLeftOnlyByFallback(k: Zones, s: GeneratorSettings, c: char)
    requires k.HandsApart()
    requires c in k.symbols && c in LeftPool(k, s)
    ensures RawLeftPool(k, s) == []
  {
    RawPoolHands(k, s);
  }

  /** With the hands apart and neither raw pool empty, each pool holds keys of its own hand only. */
  lemma PoolsSeparateHands(k: Zones, s: GeneratorSettings)
    requires k.HandsApart()
    requires RawLeftPool(k, s) != [] && RawRightPool(k, s) != []
    ensures forall c :: c in LeftPool(k, s) ==> k.IsLeftHandKey(c)
    ensures forall c :: c in RightPool(k, s) ==> !k.IsLeftHandKey(c)
  {
    RawPoolHands(k, s);
  }

  // ---------------------------------------------------------------------
  // Generation
  // ---------------------------------------------------------------------

  /** With strict alternation from hand `startLeft`, step `i` uses the left pool. */
  predicate UsesLeft(startLeft: bool, i: nat) { (i % 2 == 0) == startLeft }

  /** The hand flips from one step to the next. */
  lemma UsesLeftFlips(startLeft: bool, i: nat)
    ensures UsesLeft(startLeft, i + 1) == !UsesLeft(startLeft, i)
  {
    assert (i + 1) % 2 == 1 - i % 2;
  }

  /** The pool of one hand. */
  function HandPool(k: Zones, s: GeneratorSettings, left: bool): (r: string)
    ensures Allowed(k, s) != [] ==> r != []
  {
    if left then LeftPool(k, s) else RightPool(k, s)
  }

  /** How much randomness a call consumes: one word per character in uniform
      mode; one draw for the start hand and one per character in easy mode. */
  predicate EnoughRandomness(s: GeneratorSettings, words: seq<nat>, randoms: seq<Draw>) {
    && (!s.easyTyping ==> |words| >= s.length)
    && (s.easyTyping ==> |randoms| > s.length && AllInUnit(randoms))
  }

  /** The unified pool of lines 40-49: the enabled categories, filtered when ambiguous characters are excluded. */
  method BuildAllowed(zones: Zones, settings: GeneratorSettings) returns (allowed: string)
    ensures allowed == Allowed(zones, settings)
  {
    var lower := if settings.useLowercase then zones.leftLower + zones.rightLower else "";
    var upper := if settings.useUppercase then zones.leftUpper + zones.rightUpper else "";
    var nums := if settings.useNumbers then zones.numbersLeft + zones.numbersRight else "";
    var syms := if settings.useSymbols then zones.symbols else "";
    allowed := lower + upper + nums + syms;
    if settings.useAmbiguous {
      allowed := WithoutAmbiguous(allowed);
    }
  }

  /** The `+=` steps of lines 56-77: each enabled category adds its zones to the pools of their hands. */
  method CollectHandKeys(zones: Zones, settings: GeneratorSettings) returns (leftKeys: string, rightKeys: string)
    ensures leftKeys == LeftKeys(zones, settings) && rightKeys == RightKeys(zones, settings)
  {
    leftKeys, rightKeys := "", "";
    if settings.useLowercase {
      leftKeys := leftKeys + zones.leftLower;
      rightKeys := rightKeys + zones.rightLower;
    }
    assert leftKeys == Part(settings.useLowercase, zones.leftLower);
    assert rightKeys == Part(settings.useLowercase, zones.rightLower);
    if settings.useUppercase {
      leftKeys := leftKeys + zones.leftUpper;
      rightKeys := rightKeys + zones.rightUpper;
    }
    assert leftKeys == Part(settings.useLowercase, zones.leftLower) + Part(settings.useUppercase, zones.leftUpper);
    assert rightKeys == Part(settings.useLowercase, zones.rightLower) + Part(settings.useUppercase, zones.rightUpper);
    if settings.useNumbers {
      leftKeys := leftKeys + zones.numbersLeft;
      rightKeys := rightKeys + zones.numbersRight;
    }
    if settings.useSymbols {
      rightKeys := rightKeys + zones.symbols;
    }
  }

  /** Lines 56-86: the hand pools, filtered and then given the empty-pool fallbacks. */
  method BuildHandPools(zones: Zones, settings: GeneratorSettings, allowed: string)
    returns (leftPool: string, rightPool: string)
    requires allowed == Allowed(zones, settings)
    ensures leftPool == LeftPool(zones, settings) && rightPool == RightPool(zones, settings)
  {
    leftPool, rightPool := CollectHandKeys(zones, settings);
    if settings.useAmbiguous {
      leftPool := WithoutAmbiguous(leftPool);
      rightPool := WithoutAmbiguous(rightPool);
    }
    assert leftPool == RawLeftPool(zones, settings) && rightPool == RawRightPool(zones, settings);
    if |leftPool| == 0 {
      leftPool := if |rightPool| > 0 then rightPool else allowed;
    }
    if |rightPool| == 0 {
      rightPool := if |leftPool| > 0 then leftPool else allowed;
    }
  }

  /** generatePassword, over the zone tables `zones` (the application passes SPANISH_QWERTY). */
  method GeneratePassword(zones: Zones, settings: GeneratorSettings, words: seq<nat>, randoms: seq<Draw>)
    returns (password: string)
    requires Allowed(zones, settings) != [] ==> EnoughRandomness(settings, words, randoms)
    ensures Allowed(zones, settings) == [] ==> password == []
    ensures Allowed(zones, settings) != [] ==> |password| == settings.length
    ensures forall i :: 0 <= i < |password| ==> password[i] in Allowed(zones, settings)
    ensures settings.useAmbiguous ==> forall i :: 0 <= i < |password| ==> password[i] !in AMBIGUOUS
    ensures !settings.easyTyping ==>
      forall i :: 0 <= i < |password| ==>
        password[i] == Allowed(zones, settings)[words[i] % |Allowed(zones, settings)|]
    ensures settings.easyTyping ==>
      forall i :: 0 <= i < |password| ==>
        password[i] == Pick(HandPool(zones, settings, UsesLeft(randoms[0].AboveHalf(), i)), randoms[i + 1])
    ensures settings.easyTyping && zones.HandsApart()
              && RawLeftPool(zones, settings) != [] && RawRightPool(zones, settings) != [] ==>
      forall i :: 0 <= i < |password| ==>
        zones.IsLeftHandKey(password[i]) == UsesLeft(randoms[0].AboveHalf(), i)
    ensures settings.easyTyping && zones.HandsApart() ==>
      forall i :: 0 <= i < |password| && password[i] in zones.symbols ==>
        !UsesLeft(randoms[0].AboveHalf(), i) || RawLeftPool(zones, settings) == []
  {
    password := "";
    var allowed := BuildAllowed(zones, settings);
    if |allowed| == 0 {
      return "";
    }

    if settings.easyTyping {
      var leftPool, rightPool := BuildHandPools(zones, settings, allowed);
      password := FillAlternating(leftPool, rightPool, allowed, settings.length, randoms);
      EasyPasswordFacts(zones, settings, randoms[0].AboveHalf(), password, randoms);
    } else {
      password := FillUniform(allowed, settings.length, words);
    }
    AllowedUnambiguous(zones, settings);
  }

  /** The easy-typing loop of lines 89-101: a random start hand, then strict alternation. */
  method FillAlternating(leftPool: string, rightPool: string, allowed: string, length: nat, randoms: seq<Draw>)
    returns (password: string)
    requires leftPool != [] && rightPool != [] && allowed != []
    requires |randoms| > length && AllInUnit(randoms)
    ensures |password| == length
    ensures forall i :: 0 <= i < length ==>
      password[i] == Pick(if UsesLeft(randoms[0].AboveHalf(), i) then leftPool else rightPool, randoms[i + 1])
  {
    password := "";
    ghost var start := randoms[0].AboveHalf();
    var useLeft := randoms[0].AboveHalf();
    for i := 0 to length
      invariant |password| == i
      invariant useLeft == UsesLeft(start, i)
      invariant forall j :: 0 <= j < i ==>
        password[j] == Pick(if UsesLeft(start, j) then leftPool else rightPool, randoms[j + 1])
    {
      var pool := if useLeft then leftPool else rightPool;
      if |pool| > 0 {
        password := password + [pool[Scale(randoms[i + 1], |pool|)]];
      } else {
        // The fallback to `allowed` of line 98 cannot be reached.
        assert false;
      }
      UsesLeftFlips(start, i);
      useLeft := !useLeft;
    }
  }

  /** The uniform loop of lines 105-109: one random word per character. */
  method FillUniform(allowed: string, length: nat, words: seq<nat>) returns (password: string)
    requires allowed != [] && |words| >= length
    ensures |password| == length
    ensures forall i :: 0 <= i < length ==> password[i] == allowed[words[i] % |allowed|]
  {
    password := "";
    for i := 0 to length
      invariant |password| == i
      invariant forall j :: 0 <= j < i ==> password[j] == allowed[words[j] % |allowed|]
    {
      password := password + [allowed[words[i] % |allowed|]];
    }
  }

  /** What the per-position description of an easy-typing password implies. */
  lemma EasyPasswordFacts(k: Zones, s: GeneratorSettings, start: bool, password: string, randoms: seq<Draw>)
    requires Allowed(k, s) != [] && |randoms| > |password| && AllInUnit(randoms)
    requires forall i :: 0 <= i < |password| ==> password[i] == Pick(HandPool(k, s, UsesLeft(start, i)), randoms[i + 1])
    ensures forall i :: 0 <= i < |password| ==> password[i] in Allowed(k, s)
    ensures k.HandsApart() && RawLeftPool(k, s) != [] && RawRightPool(k, s) != [] ==>
      forall i :: 0 <= i < |password| ==> k.IsLeftHandKey(password[i]) == UsesLeft(start, i)
    ensures k.HandsApart() ==>
      forall i :: 0 <= i < |password| && password[i] in k.symbols ==> !UsesLeft(start, i) || RawLeftPool(k, s) == []
  {
    forall i | 0 <= i < |password|
      ensures password[i] in Allowed(k, s)
      ensures k.HandsApart() && RawLeftPool(k, s) != [] && RawRightPool(k, s) != [] ==>
        k.IsLeftHandKey(password[i]) == UsesLeft(start, i)
      ensures k.HandsApart() && password[i] in k.symbols ==> !UsesLeft(start, i) || RawLeftPool(k, s) == []
    {
      var c := password[i];
      assert c in HandPool(k, s, UsesLeft(start, i));
      HandPoolsWithinAllowed(k, s);
      if k.HandsApart() && RawLeftPool(k, s) != [] && RawRightPool(k, s) != [] {
        PoolsSeparateHands(k, s);
      }
      if k.HandsApart() && c in k.symbols && UsesLeft(start, i) {
        SymbolsLeftOnlyByFallback(k, s, c);
      }
    }
  }

  /** Position by position, the hand of each character alternates (when both hands have keys). */
  lemma StrictAlternation(k: Zones, start: bool, password: string)
    requires forall i :: 0 <= i < |password| ==> k.IsLeftHandKey(password[i]) == UsesLeft(start, i)
    ensures forall i :: 0 <= i < |password| - 1 ==> k.IsLeftHandKey(password[i]) != k.IsLeftHandKey(password[i + 1])
  {
    forall i | 0 <= i < |password| - 1
      ensures k.IsLeftHandKey(password[i]) != k.IsLeftHandKey(password[i + 1])
    {
      UsesLeftFlips(start, i);
    }
  }
}
