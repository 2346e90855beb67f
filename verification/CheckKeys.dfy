/** Colissimo and DISPEO tracking numbers and their check keys. */
module CheckKeys {
  import opened Options

  // ---------------------------------------------------------------- weighted sums

  /** Which rule gives the key: the mod-10 rule, or the rule for EY numbers. */
  datatype Rule = Mod10 | EY

  const EY_WEIGHTS: seq<nat> := [8, 6, 4, 2, 3, 5, 9, 7]

  function Weight(rule: Rule, i: nat): nat
    requires rule == EY ==> i < 8
  {
    match rule
    case Mod10 => if (i + 1) % 2 == 0 then 3 else 1
    case EY => EY_WEIGHTS[i]
  }

  predicate Digits(ds: seq<nat>) { forall i :: 0 <= i < |ds| ==> ds[i] <= 9 }

  predicate Fits(rule: Rule, ds: seq<nat>) { rule == EY ==> |ds| <= 8 }

  function Total(rule: Rule, ds: seq<nat>): nat
    requires Fits(rule, ds)
  {
    if ds == [] then 0 else Total(rule, ds[..|ds| - 1]) + ds[|ds| - 1] * Weight(rule, |ds| - 1)
  }

  function Mod10Key(total: nat): (key: nat)
    ensures key <= 9
  {
    (10 - total % 10) % 10
  }

  function EYKey(remainder: nat): nat
    requires remainder < 11
  {
    match remainder
    case 1 => 0
    case 0 => 5
    case _ => 11 - remainder
  }

  function Key(rule: Rule, ds: seq<nat>): nat
    requires Fits(rule, ds)
  {
    match rule
    case Mod10 => Mod10Key(Total(Mod10, ds))
    case EY => EYKey(Total(EY, ds) % 11)
  }

  lemma TotalStep(rule: Rule, ds: seq<nat>, n: nat)
    requires n < |ds| && Fits(rule, ds)
    ensures Total(rule, ds[..n + 1]) == Total(rule, ds[..n]) + ds[n] * Weight(rule, n)
  {
    assert ds[..n + 1][..n] == ds[..n];
  }

  lemma OddEven(n: nat)
    ensures Weight(Mod10, 2 * n) == 1 && Weight(Mod10, 2 * n + 1) == 3
  {
  }

  /** Every second digit counts three times. */
  lemma Mod10Total(ds: seq<nat>, n: nat)
    requires 2 * n + 1 < |ds|
    ensures Total(Mod10, ds[..0]) == 0
    ensures Total(Mod10, ds[..2 * n + 1]) == Total(Mod10, ds[..2 * n]) + ds[2 * n]
    ensures Total(Mod10, ds[..2 * n + 2]) == Total(Mod10, ds[..2 * n + 1]) + 3 * ds[2 * n + 1]
  {
    OddEven(n);
    TotalStep(Mod10, ds, 2 * n);
    TotalStep(Mod10, ds, 2 * n + 1);
  }

  lemma EYHalf(ds: seq<nat>)
    requires |ds| == 8
    ensures Total(EY, ds[..4]) == 8 * ds[0] + 6 * ds[1] + 4 * ds[2] + 2 * ds[3]
  {
    TotalStep(EY, ds, 0);
    TotalStep(EY, ds, 1);
    TotalStep(EY, ds, 2);
    TotalStep(EY, ds, 3);
    assert ds[..0] == [];
  }

  /** Eight digits of an EY number are weighted 8, 6, 4, 2, 3, 5, 9 and 7. */
  lemma EYTotal(ds: seq<nat>)
    requires |ds| == 8
    ensures Total(EY, ds) ==
            8 * ds[0] + 6 * ds[1] + 4 * ds[2] + 2 * ds[3] + 3 * ds[4] + 5 * ds[5] + 9 * ds[6] + 7 * ds[7]
  {
    EYHalf(ds);
    TotalStep(EY, ds, 4);
    TotalStep(EY, ds, 5);
    TotalStep(EY, ds, 6);
    TotalStep(EY, ds, 7);
    assert ds[..8] == ds;
  }

  /** The EY key completes the total to a multiple of eleven, but for a total of that kind it is 5, and where ten
      would be missing it is 0. */
  lemma EYKeyCompletes(ds: seq<nat>)
    requires |ds| <= 8
    ensures Total(EY, ds) % 11 == 0 ==> Key(EY, ds) == 5
    ensures Total(EY, ds) % 11 == 1 ==> Key(EY, ds) == 0
    ensures Total(EY, ds) % 11 > 1 ==> Key(EY, ds) <= 9 && (Total(EY, ds) + Key(EY, ds)) % 11 == 0
  {
    var total := Total(EY, ds);
    if total % 11 > 1 { assert total + Key(EY, ds) == 11 * (total / 11 + 1); }
  }

  /** The mod-10 key is the one digit that completes the weighted total to a multiple of ten. */
  lemma Mod10KeyCompletes(ds: seq<nat>, key: nat)
    ensures Key(Mod10, ds) <= 9
    ensures key <= 9 ==> ((Total(Mod10, ds) + key) % 10 == 0 <==> key == Key(Mod10, ds))
  {
    if key <= 9 { Completes(Total(Mod10, ds) / 10, Total(Mod10, ds) % 10, key); }
  }

  lemma Completes(tens: nat, ones: nat, key: nat)
    requires ones <= 9 && key <= 9
    ensures (10 * tens + ones + key) % 10 == 0 <==> key == (10 - ones) % 10
  {
    assert (10 * tens + ones + key) % 10 == (ones + key) % 10;
  }

  /** The EY key is one digit, and two remainders share a key exactly when they are 0 and 6. */
  lemma EYKeyCollides(a: nat, b: nat)
    requires a < 11 && b < 11
    ensures EYKey(a) <= 9
    ensures EYKey(a) == EYKey(b) <==> a == b || {a, b} == {0, 6}
  {
  }

  lemma {:induction false} TotalUpdate(rule: Rule, ds: seq<nat>, i: nat, d: nat)
    requires Fits(rule, ds) && i < |ds|
    ensures Total(rule, ds[i := d]) + ds[i] * Weight(rule, i) == Total(rule, ds) + d * Weight(rule, i)
  {
    var front := ds[..|ds| - 1];
    if i == |ds| - 1 {
      assert ds[i := d][..|ds| - 1] == front;
    } else {
      assert ds[i := d][..|ds| - 1] == front[i := d];
      TotalUpdate(rule, front, i, d);
    }
  }

  /** The mod-10 keys of two totals agree exactly when the totals do modulo ten. */
  lemma SameKey10(t: nat, t': nat)
    ensures Mod10Key(t) == Mod10Key(t') <==> t % 10 == t' % 10
  {
  }

  lemma Substituted10(t: nat, t': nat, a: nat, b: nat, w: nat)
    requires a <= 9 && b <= 9 && (w == 1 || w == 3) && t' + a * w == t + b * w
    ensures t % 10 == t' % 10 <==> a == b
  {
    if w == 1 {
      assert t' + a == t + b;
    } else {
      assert t' + 3 * a == t + 3 * b;
    }
  }

  /** A small number times a digit difference is a multiple of 11 only when it is 0. */
  lemma NoMultipleOf11(w: int, delta: int, k: int)
    requires -9 <= delta <= 9 && 1 <= w <= 9 && w * delta == 11 * k
    ensures delta == 0
  {
    if w == 1 {} else if w == 2 { assert 2 * delta == 11 * k; }
    else if w == 3 { assert 3 * delta == 11 * k; }
    else if w == 4 { assert 4 * delta == 11 * k; }
    else if w == 5 { assert 5 * delta == 11 * k; }
    else if w == 6 { assert 6 * delta == 11 * k; }
    else if w == 7 { assert 7 * delta == 11 * k; }
    else if w == 8 { assert 8 * delta == 11 * k; }
    else { assert 9 * delta == 11 * k; }
  }

  lemma Differs11(t: nat, t': nat, w: int, delta: int)
    requires t' - t == w * delta && -9 <= delta <= 9 && delta != 0 && 1 <= w <= 9
    ensures t % 11 != t' % 11
  {
    if t % 11 == t' % 11 {
      var k := t' / 11 - t / 11;
      assert t' - t == 11 * k;
      NoMultipleOf11(w, delta, k);
    }
  }

  lemma Substituted11(t: nat, t': nat, a: nat, b: nat, w: nat)
    requires a <= 9 && b <= 9 && a != b && 2 <= w <= 9 && t' + a * w == t + b * w
    ensures t % 11 != t' % 11
  {
    assert w * (b - a) == b * w - a * w;
    Differs11(t, t', w, b - a);
  }

  /** Every substitution of one digit changes the mod-10 key. */
  lemma Mod10DetectsSubstitution(ds: seq<nat>, i: nat, d: nat)
    requires Digits(ds) && i < |ds| && d <= 9 && d != ds[i]
    ensures Key(Mod10, ds[i := d]) != Key(Mod10, ds)
  {
    TotalUpdate(Mod10, ds, i, d);
    Substituted10(Total(Mod10, ds), Total(Mod10, ds[i := d]), ds[i], d, Weight(Mod10, i));
    SameKey10(Total(Mod10, ds), Total(Mod10, ds[i := d]));
  }

  function Swapped(ds: seq<nat>, i: nat): seq<nat>
    requires i + 1 < |ds|
  {
    ds[i := ds[i + 1]][i + 1 := ds[i]]
  }

  lemma TotalSwap(rule: Rule, ds: seq<nat>, i: nat)
    requires Fits(rule, ds) && i + 1 < |ds|
    ensures var a, b, v, w := ds[i], ds[i + 1], Weight(rule, i), Weight(rule, i + 1);
            Total(rule, Swapped(ds, i)) + a * v + b * w == Total(rule, ds) + b * v + a * w
  {
    var once := ds[i := ds[i + 1]];
    TotalUpdate(rule, ds, i, ds[i + 1]);
    TotalUpdate(rule, once, i + 1, ds[i]);
    assert once[i + 1] == ds[i + 1];
  }

  lemma TwiceModTen(t: nat, t': nat, delta: int)
    requires t' == t + 2 * delta && -9 <= delta <= 9
    ensures t % 10 == t' % 10 <==> delta == 0 || delta == 5 || delta == -5
  {
    if t % 10 == t' % 10 {
      var k := t' / 10 - t / 10;
      assert 2 * delta == 10 * k;
    }
  }

  lemma Swapped10(t: nat, t': nat, a: nat, b: nat, v: nat, w: nat)
    requires a <= 9 && b <= 9 && ((v == 1 && w == 3) || (v == 3 && w == 1)) && t' + a * v + b * w == t + b * v + a * w
    ensures t % 10 == t' % 10 <==> a == b || a == b + 5 || b == a + 5
  {
    if v == 1 {
      TwiceModTen(t, t', a - b);
    } else {
      TwiceModTen(t, t', b - a);
    }
  }

  /** Swapping two neighbours leaves the mod-10 key exactly when they are equal or 5 apart. */
  lemma Mod10DetectsSwapExactly(ds: seq<nat>, i: nat)
    requires Digits(ds) && i + 1 < |ds|
    ensures Key(Mod10, Swapped(ds, i)) == Key(Mod10, ds) <==>
              ds[i] == ds[i + 1] || ds[i] == ds[i + 1] + 5 || ds[i + 1] == ds[i] + 5
  {
    TotalSwap(Mod10, ds, i);
    Swapped10(Total(Mod10, ds), Total(Mod10, Swapped(ds, i)), ds[i], ds[i + 1], Weight(Mod10, i), Weight(Mod10, i + 1));
    SameKey10(Total(Mod10, ds), Total(Mod10, Swapped(ds, i)));
  }

  /** An error that changes the EY remainder goes unnoticed exactly when the remainders are 0 and 6. */
  lemma EYNotices(t: nat, t': nat)
    requires t % 11 != t' % 11
    ensures EYKey(t % 11) == EYKey(t' % 11) <==> {t % 11, t' % 11} == {0, 6}
  {
    EYKeyCollides(t % 11, t' % 11);
  }

  /** A substituted digit goes unnoticed by the EY key exactly when the remainders are 0 and 6. */
  lemma EYDetectsSubstitutionExactly(ds: seq<nat>, i: nat, d: nat)
    requires Digits(ds) && |ds| <= 8 && i < |ds| && d <= 9 && d != ds[i]
    ensures Key(EY, ds[i := d]) == Key(EY, ds) <==> {Total(EY, ds) % 11, Total(EY, ds[i := d]) % 11} == {0, 6}
  {
    TotalUpdate(EY, ds, i, d);
    Substituted11(Total(EY, ds), Total(EY, ds[i := d]), ds[i], d, Weight(EY, i));
    EYNotices(Total(EY, ds), Total(EY, ds[i := d]));
  }

  lemma Swapped11(t: nat, t': nat, a: nat, b: nat, v: nat, w: nat)
    requires a <= 9 && b <= 9 && a != b && v <= 9 && w <= 9 && v != w
    requires t' + a * v + b * w == t + b * v + a * w
    ensures t % 11 != t' % 11
  {
    if v > w {
      assert (v - w) * (b - a) == b * v - a * v + a * w - b * w;
      Differs11(t, t', v - w, b - a);
    } else {
      assert (w - v) * (a - b) == b * v - a * v + a * w - b * w;
      Differs11(t, t', w - v, a - b);
    }
  }

  /** Two distinct neighbours swapped go unnoticed by the EY key exactly when the remainders are 0 and 6. */
  lemma EYDetectsSwapExactly(ds: seq<nat>, i: nat)
    requires Digits(ds) && |ds| <= 8 && i + 1 < |ds| && ds[i] != ds[i + 1]
    ensures Key(EY, Swapped(ds, i)) == Key(EY, ds) <==> {Total(EY, ds) % 11, Total(EY, Swapped(ds, i)) % 11} == {0, 6}
  {
    TotalSwap(EY, ds, i);
    Swapped11(Total(EY, ds), Total(EY, Swapped(ds, i)), ds[i], ds[i + 1], Weight(EY, i), Weight(EY, i + 1));
    EYNotices(Total(EY, ds), Total(EY, Swapped(ds, i)));
  }

  // ---------------------------------------------------------------- errors that go unnoticed

  lemma {:induction false} ZerosTotal(rule: Rule, n: nat)
    requires rule == EY ==> n <= 8
    ensures Total(rule, seq(n, _ => 0)) == 0
  {
    if n > 0 {
      assert seq(n, _ => 0)[..n - 1] == seq(n - 1, _ => 0);
      ZerosTotal(rule, n - 1);
    }
  }

  /** 05 and 50 have the same mod-10 key. */
  lemma SwapUnnoticed()
    ensures var ds: seq<nat> := [0, 5];
            Key(Mod10, Swapped(ds, 0)) == Key(Mod10, ds) == 5
  {
    var zeros: seq<nat> := seq(2, _ => 0);
    assert zeros[1 := 5] == [0, 5];
    ZerosTotal(Mod10, 2);
    TotalUpdate(Mod10, zeros, 1, 5);
    TotalSwap(Mod10, [0, 5], 0);
  }

  /** 00000000 and 90000000 have the remainders 0 and 6, and the same EY key. */
  lemma EYSubstitutionUnnoticed()
    ensures var zeros: seq<nat> := seq(8, _ => 0);
            && Total(EY, zeros) % 11 == 0 && Total(EY, zeros[0 := 9]) % 11 == 6
            && Key(EY, zeros[0 := 9]) == Key(EY, zeros) == 5
  {
    var zeros: seq<nat> := seq(8, _ => 0);
    ZerosTotal(EY, 8);
    TotalUpdate(EY, zeros, 0, 9);
  }

  /** 03100000 and 30100000 have the remainders 0 and 6, and the same EY key. */
  lemma EYSwapUnnoticed()
    ensures var zeros: seq<nat> := seq(8, _ => 0);
            var ds := zeros[1 := 3][2 := 1];
            && Total(EY, ds) % 11 == 0 && Total(EY, Swapped(ds, 0)) % 11 == 6
            && Key(EY, Swapped(ds, 0)) == Key(EY, ds) == 5
  {
    var zeros: seq<nat> := seq(8, _ => 0);
    var ds := zeros[1 := 3][2 := 1];
    ZerosTotal(EY, 8);
    TotalUpdate(EY, zeros, 1, 3);
    TotalUpdate(EY, zeros[1 := 3], 2, 1);
    TotalSwap(EY, ds, 0);
  }

  // ---------------------------------------------------------------- strings

  /** White space as `Number` skips it. */
  predicate IsSpace(c: char) {
    var u := c as int;
    || 9 <= u <= 13 || u == 32 || u == 160 || u == 5760 || 8192 <= u <= 8202
    || u == 8232 || u == 8233 || u == 8239 || u == 8287 || u == 12288 || u == 65279
  }

  /** `Number` of one character: a digit is its value, white space is 0, anything else is NaN. */
  function NumberOf(c: char): (d: Option<nat>)
    ensures d.Some? ==> d.value <= 9
  {
    if '0' <= c <= '9' then Some(c as int - '0' as int) else if IsSpace(c) then Some(0) else None
  }

  predicate AllNumbers(s: string) { forall i :: 0 <= i < |s| ==> NumberOf(s[i]).Some? }

  predicate AllDigits(s: string) { forall i :: 0 <= i < |s| ==> '0' <= s[i] <= '9' }

  function NumbersOf(s: string): (ds: seq<nat>)
    requires AllNumbers(s)
    ensures |ds| == |s| && Digits(ds) && forall i :: 0 <= i < |s| ==> ds[i] == NumberOf(s[i]).value
  {
    if s == "" then [] else NumbersOf(s[..|s| - 1]) + [NumberOf(s[|s| - 1]).value]
  }

  function CharOf(d: nat): char
    requires d <= 9
  {
    "0123456789"[d]
  }

  const NAN := "NaN"

  predicate EndsWithF(s: string) { s != "" && s[|s| - 1] == 'F' }

  /** What `getControlKey` should return. */
  function ControlKey(part: string): string {
    if EndsWithF(part) then "R" else if AllNumbers(part) then [CharOf(Key(Mod10, NumbersOf(part)))] else NAN
  }

  /** What `getEYControlKey` should return: there is no weight beyond the eighth. */
  function EYControlKey(part: string): string {
    if AllNumbers(part) && |part| <= 8 then [CharOf(Key(EY, NumbersOf(part)))] else NAN
  }

  /** `slice(a, b)` with 0 <= a <= b. */
  function Slice(s: string, a: nat, b: nat): string
    requires a <= b
  {
    s[if a < |s| then a else |s|..if b < |s| then b else |s|]
  }

  /** The ten digits are read and written by their values; letters are not numbers. */
  lemma DigitCharacters(d: nat)
    requires d <= 9
    ensures NumberOf("0123456789"[d]) == Some(d) && CharOf(d) == "0123456789"[d]
    ensures forall c: char :: 'A' <= c <= 'Z' || 'a' <= c <= 'z' ==> NumberOf(c) == None
  {
  }

  lemma KnownMod10Total(ds: seq<nat>)
    requires |ds| == 10 && forall i :: 0 <= i < 10 ==> ds[i] == i
    ensures Total(Mod10, ds) == 95
  {
    Mod10Total(ds, 0);
    Mod10Total(ds, 1);
    Mod10Total(ds, 2);
    Mod10Total(ds, 3);
    Mod10Total(ds, 4);
    assert ds[..10] == ds;
  }

  lemma KnownMod10(s: string)
    requires s == "0123456789"
    ensures ControlKey(s) == "5"
  {
    var ds := NumbersOf(s);
    assert ds[0] == 0 && ds[1] == 1 && ds[2] == 2 && ds[3] == 3 && ds[4] == 4;
    assert ds[5] == 5 && ds[6] == 6 && ds[7] == 7 && ds[8] == 8 && ds[9] == 9;
    KnownMod10Total(ds);
  }

  lemma KnownEY(s: string)
    requires s == "47312482"
    ensures EYControlKey(s) == "9"
  {
    var ds := NumbersOf(s);
    assert ds[0] == 4 && ds[1] == 7 && ds[2] == 3 && ds[3] == 1 && ds[4] == 2 && ds[5] == 4 && ds[6] == 8 && ds[7] == 2;
    EYTotal(ds);
    assert Total(EY, ds) == 200;
  }

  /** The key R stands for an ending F. */
  lemma EndingF(part: string)
    ensures ControlKey(part) == "R" <==> part != "" && part[|part| - 1] == 'F'
  {
  }

  /** Of the other characters exactly white space counts, as zero: tab to carriage return, the space, the no-break
      space, the Unicode space separators, the line and paragraph separators and the byte order mark. */
  lemma SpacesAreZero(c: char)
    requires !('0' <= c <= '9')
    ensures NumberOf(c) == None || NumberOf(c) == Some(0)
    ensures NumberOf(c) == Some(0) <==>
              || c as int in {9, 10, 11, 12, 13, 32, 160, 5760, 8232, 8233, 8239, 8287, 12288, 65279}
              || c as int in {8192, 8193, 8194, 8195, 8196, 8197, 8198, 8199, 8200, 8201, 8202}
  {
  }

  /** A number without its key, and its key: by the mod-10 rule and by the EY rule. */
  lemma KnownKeys(ten: string, eight: string)
    requires ten == "0123456789" && eight == "47312482"
    ensures ControlKey(ten) == "5" && EYControlKey(eight) == "9"
  {
    KnownMod10(ten);
    KnownEY(eight);
  }

  function Weighted(rule: Rule, d: nat, i: nat): nat
    requires rule == EY ==> i < 8
  {
    d * Weight(rule, i)
  }

  function Add(rule: Rule, total: Option<nat>, item: Option<nat>, i: nat): Option<nat> {
    if total.Some? && item.Some? && (rule == EY ==> i < 8) then Some(total.value + Weighted(rule, item.value, i))
    else None
  }

  /** The weighted sum of the characters, `None` for NaN. */
  function Sum(rule: Rule, s: string): Option<nat> {
    if s == "" then Some(0)
    else
      var n := |s| - 1;
      Add(rule, Sum(rule, s[..n]), NumberOf(s[n]), n)
  }

  lemma TotalAppend(rule: Rule, ds: seq<nat>, d: nat)
    requires rule == EY ==> |ds| < 8
    ensures Total(rule, ds + [d]) == Total(rule, ds) + Weighted(rule, d, |ds|)
  {
    assert (ds + [d])[..|ds|] == ds;
  }

  lemma AddOne(rule: Rule, ds: seq<nat>, d: nat)
    requires rule == EY ==> |ds| < 8
    ensures Add(rule, Some(Total(rule, ds)), Some(d), |ds|) == Some(Total(rule, ds + [d]))
  {
    TotalAppend(rule, ds, d);
  }

  lemma NumbersFront(s: string) returns (front: seq<nat>, d: nat)
    requires s != "" && AllNumbers(s)
    ensures AllNumbers(s[..|s| - 1]) && front == NumbersOf(s[..|s| - 1]) && NumberOf(s[|s| - 1]) == Some(d)
    ensures NumbersOf(s) == front + [d] && |front| == |s| - 1
  {
    front, d := NumbersOf(s[..|s| - 1]), NumberOf(s[|s| - 1]).value;
  }

  lemma {:induction false} NoSum(rule: Rule, s: string)
    requires !AllNumbers(s) || !(rule == EY ==> |s| <= 8)
    ensures Sum(rule, s) == None
  {
    if s != "" {
      var n := |s| - 1;
      if Sum(rule, s[..n]) != None && NumberOf(s[n]) != None {
        if !AllNumbers(s[..n]) || !(rule == EY ==> n <= 8) { NoSum(rule, s[..n]); }
      }
    }
  }

  /** The sum is the weighted total of the numbers. */
  lemma {:induction false} SumIsTotal(rule: Rule, s: string)
    requires AllNumbers(s) && (rule == EY ==> |s| <= 8)
    ensures Sum(rule, s) == Some(Total(rule, NumbersOf(s)))
  {
    if s != "" {
      var n := |s| - 1;
      var front, d := NumbersFront(s);
      SumIsTotal(rule, s[..n]);
      AddOne(rule, front, d);
    }
  }

  lemma SumMeans(rule: Rule, s: string)
    ensures AllNumbers(s) && (rule == EY ==> |s| <= 8) ==> Sum(rule, s) == Some(Total(rule, NumbersOf(s)))
    ensures !AllNumbers(s) || !(rule == EY ==> |s| <= 8) ==> Sum(rule, s) == None
  {
    if AllNumbers(s) && (rule == EY ==> |s| <= 8) {
      SumIsTotal(rule, s);
    } else {
      NoSum(rule, s);
    }
  }

  /** One step of the mod-10 total. */
  method AddWeighted(total: nat, item: nat, index: nat) returns (total': nat)
    ensures Some(total') == Add(Mod10, Some(total), Some(item), index)
  {
    if (index + 1) % 2 == 0 {
      total' := total + item * 3;
    } else {
      total' := total + item;
    }
  }

  /** One step of the EY total. */
  method AddEYWeighted(total: nat, item: nat, index: nat) returns (total': nat)
    requires index < |EY_WEIGHTS|
    ensures Some(total') == Add(EY, Some(total), Some(item), index)
  {
    total' := total + item * EY_WEIGHTS[index];
  }

  /** `getControlKey`. */
  method GetControlKey(trackingPart: string) returns (key: string)
    ensures key == ControlKey(trackingPart)
  {
    if EndsWithF(trackingPart) {
      return "R";
    }
    var total: Option<nat>, i := Some(0), 0;
    while i < |trackingPart|
      invariant 0 <= i <= |trackingPart| && total == Sum(Mod10, trackingPart[..i])
    {
      var item := NumberOf(trackingPart[i]);
      assert trackingPart[..i + 1][..i] == trackingPart[..i];
      if total.Some? && item.Some? {
        var sum := AddWeighted(total.value, item.value, i);
        total := Some(sum);
      } else {
        total := None;
      }
      i := i + 1;
    }
    assert trackingPart[..i] == trackingPart;
    SumMeans(Mod10, trackingPart);
    key := if total.Some? then [CharOf(Mod10Key(total.value))] else NAN;
  }

  /** `getEYControlKey`. */
  method GetEYControlKey(trackingPart: string) returns (key: string)
    ensures key == EYControlKey(trackingPart)
  {
    var total: Option<nat>, i := Some(0), 0;
    while i < |trackingPart|
      invariant 0 <= i <= |trackingPart| && total == Sum(EY, trackingPart[..i])
    {
      var item := NumberOf(trackingPart[i]);
      assert trackingPart[..i + 1][..i] == trackingPart[..i];
      if total.Some? && item.Some? && i < |EY_WEIGHTS| {
        var sum := AddEYWeighted(total.value, item.value, i);
        total := Some(sum);
      } else {
        total := None;
      }
      i := i + 1;
    }
    assert trackingPart[..i] == trackingPart;
    SumMeans(EY, trackingPart);
    key := if total.Some? then [CharOf(EYKey(total.value % 11))] else NAN;
  }

  /** What `getTrackingNumber` should return; `None` when it throws. */
  function TrackingNumber(productPart: string, trackingPart: string): Option<string> {
    if productPart != "EY" then Some(productPart + trackingPart + ControlKey(trackingPart))
    else if Slice(trackingPart, 0, 2) != "00" then None
    else Some("EY" + Slice(trackingPart, 2, 10) + EYControlKey(Slice(trackingPart, 2, 10)) + "FR")
  }

  method GetTrackingNumber(productPart: string, trackingPart: string) returns (number: Option<string>)
    ensures number == TrackingNumber(productPart, trackingPart)
  {
    if productPart == "EY" {
      if Slice(trackingPart, 0, 2) != "00" {
        return None;
      }
      var part := Slice(trackingPart, 2, 10);
      var key := GetEYControlKey(part);
      number := Some(productPart + part + key + "FR");
    } else {
      var key := GetControlKey(trackingPart);
      number := Some(productPart + trackingPart + key);
    }
  }

  /** `_getTrackingNumber`. */
  method NormaliseDispeo(trackingNumber: string) returns (number: Option<string>)
    ensures number == Dispeo(trackingNumber)
  {
    if |trackingNumber| == 13 {
      return Some(trackingNumber);
    }
    number := GetTrackingNumber(Slice(trackingNumber, 0, 2), Slice(trackingNumber, 2, 12));
  }

  function Dispeo(s: string): Option<string> {
    if |s| == 13 then Some(s) else TrackingNumber(Slice(s, 0, 2), Slice(s, 2, 12))
  }

  /** A DISPEO number without its key: two product characters and ten digits. */
  predicate Valid12(s: string) { |s| == 12 && AllDigits(s[2..]) && (s[..2] == "EY" ==> s[2..4] == "00") }

  /** A valid number character by character. */
  lemma Valid12Means(s: string)
    ensures Valid12(s) <==>
              && |s| == 12 && (forall i :: 2 <= i < 12 ==> 48 <= s[i] as int <= 57)
              && (s[0] == 'E' && s[1] == 'Y' ==> s[2] == '0' && s[3] == '0')
  {
    if |s| == 12 {
      assert s[..2] == "EY" <==> s[0] == 'E' && s[1] == 'Y';
      assert s[2..4] == "00" <==> s[2] == '0' && s[3] == '0';
      assert forall i :: 2 <= i < 12 ==> s[2..][i - 2] == s[i];
    }
  }

  /** A valid number is its product part, its tracking part and its key digit; an EY number loses its zeros
      and ends with FR. */
  lemma ValidNumber(s: string)
    requires Valid12(s)
    ensures Dispeo(s).Some?
    ensures var n := Dispeo(s).value;
            && |n| == 13 && n[..2] == s[..2]
            && if s[..2] == "EY" then n[2..10] == s[4..] && n[11..] == "FR" && '0' <= n[10] <= '9'
               else n[2..12] == s[2..] && '0' <= n[12] <= '9'
  {
    assert Slice(s, 0, 2) == s[..2] && Slice(s, 2, 12) == s[2..];
    assert AllNumbers(s[2..]);
    if s[..2] == "EY" {
      assert Slice(s[2..], 0, 2) == s[2..4] && Slice(s[2..], 2, 10) == s[4..];
      assert AllNumbers(s[4..]) by {
        forall i | 0 <= i < |s[4..]| ensures NumberOf(s[4..][i]).Some? {
          assert s[4..][i] == s[2..][i + 2];
        }
      }
      EYKeyCollides(Total(EY, NumbersOf(s[4..])) % 11, 0);
    } else {
      assert !EndsWithF(s[2..]);
      Mod10KeyCompletes(NumbersOf(s[2..]), 0);
    }
  }

  /** Every valid number becomes exactly 13 characters, and a second normalisation changes nothing. */
  lemma DispeoIdempotent(s: string)
    requires |s| == 13 || Valid12(s)
    ensures Dispeo(s).Some? && |Dispeo(s).value| == 13 && Dispeo(Dispeo(s).value) == Dispeo(s)
  {
    if |s| != 13 { ValidNumber(s); }
  }

  /** No two valid 12-character numbers become the same number. */
  lemma DispeoInjective(s: string, t: string)
    requires Valid12(s) && Valid12(t) && Dispeo(s) == Dispeo(t)
    ensures s == t
  {
    ValidNumber(s);
    ValidNumber(t);
    var n := Dispeo(s).value;
    Parts(s);
    Parts(t);
    assert s[..2] == n[..2] == t[..2];
    if s[..2] == "EY" {
      assert s[4..] == n[2..10] == t[4..];
    } else {
      assert s[2..] == n[2..12] == t[2..];
    }
  }

  lemma Parts(s: string)
    requires |s| == 12
    ensures s == s[..2] + s[2..] && s == s[..2] + s[2..4] + s[4..]
  {
  }
}
