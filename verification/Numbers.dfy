/**
 * Numbers in words: how bora.go reads figures aloud in Vietnamese (viNumber, hundreds, spell), and a
 * reader that takes the words back to the number.
 */
module Numbers {

  /** The words the printer uses. A bare digit word is Digit; Odd is "linh", Unit1 and Unit5 are the
      forms of one and five after a ten. */
  datatype Word =
    | Digit(d: nat) | Hundred | Tens | Ten | Odd | Unit1 | Unit5
    | Thousand | Million | Billion

  predicate IsScale(w: Word) { w.Thousand? || w.Million? || w.Billion? }

  const SCALES: seq<seq<Word>> :=
    [[], [Thousand], [Million], [Billion], [Thousand, Billion], [Million, Billion], [Billion, Billion]]

  // ---- The printer -------------------------------------------------------------------------------

  function HundredWords(h: nat, full: bool): seq<Word> {
    if h > 0 || full then [Digit(h), Hundred] else []
  }

  function TenWords(t: nat, u: nat, led: bool): seq<Word> {
    if t > 1 then [Digit(t), Tens]
    else if t == 1 then [Ten]
    else if u > 0 && led then [Odd]
    else []
  }

  function UnitWords(t: nat, u: nat): seq<Word> {
    if u == 1 && t > 1 then [Unit1]
    else if u == 5 && t > 0 then [Unit5]
    else if u > 0 then [Digit(u)]
    else []
  }

  /** hundreds: 0 to 999; full keeps the hundreds digit even when it is zero. */
  function Hundreds(n: nat, full: bool): seq<Word>
    requires n < 1000
  {
    var (h, t, u) := (n / 100, n / 10 % 10, n % 10);
    HundredWords(h, full) + TenWords(t, u, h > 0 || full) + UnitWords(t, u)
  }

  function Pow1000(k: nat): nat { if k == 0 then 1 else 1000 * Pow1000(k - 1) }

  /** The groups of n from the highest down to scale i; a zero group is not said. */
  function Groups(n: nat, i: nat): seq<Word>
    requires i <= 7 && n < Pow1000(7 - i)
  {
    if n == 0 then []
    else
      ShiftBound(n, i);
      var g := n % 1000;
      Groups(n / 1000, i + 1) + (if g > 0 then Hundreds(g, n / 1000 > 0) + SCALES[i] else [])
  }

  function Number(n: nat): seq<Word>
    requires n < Pow1000(7)
  {
    if n == 0 then [Digit(0)] else Groups(n, 0)
  }

  /** The remaining quotient fits the remaining scales, so scale i is one of the seven. */
  lemma ShiftBound(n: nat, i: nat)
    requires 0 < n && i <= 7 && n < Pow1000(7 - i)
    ensures i < 7 && n / 1000 < Pow1000(7 - (i + 1))
  {
    if i < 7 {
      assert Pow1000(7 - i) == 1000 * Pow1000(6 - i);
    }
  }

  lemma {:induction false} GroupsStep(n: nat, i: nat)
    requires 0 < n && i <= 7 && n < Pow1000(7 - i)
    ensures i < 7 && n / 1000 < Pow1000(7 - (i + 1)) && |SCALES| == 7
    ensures Groups(n, i) == Groups(n / 1000, i + 1) +
      (if n % 1000 > 0 then Hundreds(n % 1000, n / 1000 > 0) + SCALES[i] else [])
  {
    ShiftBound(n, i);
  }

  lemma Uint64Fits(n: nat)
    requires n < 0x1_0000_0000_0000_0000
    ensures n < Pow1000(7)
  {
    assert Pow1000(3) == 1_000_000_000;
    assert Pow1000(5) == 1_000_000_000_000_000;
    assert Pow1000(7) == 1_000_000_000_000_000_000_000;
  }

  /** The loop of viNumber: it takes groups off the low end and puts their words in front. */
  method ViNumber(n: nat) returns (words: seq<Word>)
    requires n < Pow1000(7)
    ensures words == Number(n)
  {
    hide Groups, Hundreds, Pow1000;
    if n == 0 {
      return [Digit(0)];
    }
    words := [];
    assert Groups(n, 0) == Groups(n, 0) + words;
    var rest: nat, i: nat := n, 0;
    while rest > 0
      invariant i <= 7 && rest < Pow1000(7 - i)
      invariant Groups(n, 0) == Groups(rest, i) + words
    {
      GroupsStep(rest, i);
      var g := rest % 1000;
      var higher := rest / 1000;
      if g > 0 {
        words := Hundreds(g, higher > 0) + SCALES[i] + words;
      }
      rest, i := higher, i + 1;
    }
    NoGroups(i);
  }

  lemma NoGroups(i: nat)
    requires i <= 7 && 0 < Pow1000(7 - i)
    ensures Groups(0, i) == []
  {
  }

  // ---- The reader --------------------------------------------------------------------------------

  /** A group is read left to right: a digit adds, Hundred and Tens shift what they follow. */
  function ReadWord(acc: nat, w: Word): nat {
    match w
    case Digit(d) => acc + d
    case Hundred => acc * 100
    case Tens => acc / 100 * 100 + acc % 100 * 10
    case Ten => acc + 10
    case Unit1 => acc + 1
    case Unit5 => acc + 5
    case _ => acc
  }

  function ReadGroup(ws: seq<Word>): nat {
    if ws == [] then 0 else ReadWord(ReadGroup(ws[..|ws| - 1]), ws[|ws| - 1])
  }

  /** Scale words multiply: nghìn tỷ is a thousand billion. */
  function ReadScale(ws: seq<Word>): nat {
    if ws == [] then 1
    else
      ScaleWord(ws[0]) * ReadScale(ws[1..])
  }

  function ScaleWord(w: Word): nat {
    match w
    case Thousand => 1000
    case Million => 1_000_000
    case Billion => 1_000_000_000
    case _ => 1
  }

  function Part(group: seq<Word>, scale: seq<Word>): nat { ReadGroup(group) * ReadScale(scale) }

  /** How many words from the front are, or are not, scale words. */
  function Run(ws: seq<Word>, scale: bool): (k: nat)
    ensures k <= |ws|
  {
    if ws == [] || IsScale(ws[0]) != scale then 0 else 1 + Run(ws[1..], scale)
  }

  /** Numbers are sums of groups: words up to the next scale words, then those. */
  function Read(ws: seq<Word>): nat
    decreases |ws|
  {
    if ws == [] then 0
    else
      var k := Run(ws, false);
      var m := Run(ws[k..], true);
      Part(ws[..k], ws[k..k + m]) + (if k + m > 0 then Read(ws[k + m..]) else 0)
  }

  // ---- Reading undoes printing -------------------------------------------------------------------

  lemma ReadGroupSnoc(ws: seq<Word>, w: Word)
    ensures ReadGroup(ws + [w]) == ReadWord(ReadGroup(ws), w)
  {
    assert (ws + [w])[..|ws|] == ws;
  }

  lemma {:induction false} HundredsReadBack(n: nat, full: bool)
    requires n < 1000
    ensures ReadGroup(Hundreds(n, full)) == n
  {
    hide ReadGroup, HundredWords, TenWords, UnitWords;
    var (h, t, u) := (n / 100, n / 10 % 10, n % 10);
    HundredWordsReadBack(h, full);
    TenWordsReadBack(HundredWords(h, full), h, t, u, h > 0 || full);
    UnitWordsReadBack(HundredWords(h, full) + TenWords(t, u, h > 0 || full), h, t, u);
    assert n == 100 * h + 10 * t + u;
  }

  lemma {:induction false} HundredWordsReadBack(h: nat, full: bool)
    ensures ReadGroup(HundredWords(h, full)) == 100 * h
  {
    hide ReadGroup;
    EmptyReads();
    ReadGroupSnoc([], Digit(h));
    ReadGroupSnoc([Digit(h)], Hundred);
    assert [] + [Digit(h)] == [Digit(h)] && [Digit(h)] + [Hundred] == [Digit(h), Hundred];
  }

  lemma {:induction false} TenWordsReadBack(ws: seq<Word>, h: nat, t: nat, u: nat, led: bool)
    requires ReadGroup(ws) == 100 * h && t < 10
    ensures ReadGroup(ws + TenWords(t, u, led)) == 100 * h + 10 * t
  {
    hide ReadGroup;
    var ten := TenWords(t, u, led);
    if t > 1 {
      ReadGroupSnoc(ws, Digit(t));
      ReadGroupSnoc(ws + [Digit(t)], Tens);
      assert ws + ten == ws + [Digit(t)] + [Tens];
    } else if ten == [] {
      assert ws + ten == ws;
    } else {
      ReadGroupSnoc(ws, ten[0]);
    }
  }

  lemma {:induction false} UnitWordsReadBack(ws: seq<Word>, h: nat, t: nat, u: nat)
    requires ReadGroup(ws) == 100 * h + 10 * t
    ensures ReadGroup(ws + UnitWords(t, u)) == 100 * h + 10 * t + u
  {
    hide ReadGroup;
    var unit := UnitWords(t, u);
    if unit == [] {
      assert ws + unit == ws;
    } else {
      ReadGroupSnoc(ws, unit[0]);
    }
  }

  lemma EmptyReads()
    ensures ReadGroup([]) == 0 && Read([]) == 0
  {
  }

  lemma {:induction false} HundredsShape(n: nat, full: bool)
    requires 0 < n < 1000
    ensures Hundreds(n, full) != []
    ensures forall k :: 0 <= k < |Hundreds(n, full)| ==> !IsScale(Hundreds(n, full)[k])
  {
    assert n == 100 * (n / 100) + 10 * (n / 10 % 10) + n % 10;
  }

  lemma {:induction false} RunIs(ws: seq<Word>, rest: seq<Word>, scale: bool)
    requires forall k :: 0 <= k < |ws| ==> IsScale(ws[k]) == scale
    requires rest == [] || IsScale(rest[0]) != scale
    ensures Run(ws + rest, scale) == |ws|
  {
    if ws == [] {
      assert ws + rest == rest;
    } else {
      RunIs(ws[1..], rest, scale);
      assert (ws + rest)[1..] == ws[1..] + rest;
    }
  }

  lemma {:induction false} ReadFirst(group: seq<Word>, scale: seq<Word>, rest: seq<Word>)
    requires group != [] && (forall k :: 0 <= k < |group| ==> !IsScale(group[k]))
    requires forall k :: 0 <= k < |scale| ==> IsScale(scale[k])
    requires rest == [] || (scale != [] && !IsScale(rest[0]))
    ensures Read(group + scale + rest) == ReadGroup(group) * ReadScale(scale) + Read(rest)
  {
    hide Read, ReadGroup, ReadScale;
    var ws := group + scale + rest;
    assert ws == group + (scale + rest);
    RunIs(group, scale + rest, false);
    assert ws[|group|..] == scale + rest && ws[..|group|] == group;
    RunIs(scale, rest, true);
    assert ws[|group|..|group| + |scale|] == scale && ws[|group| + |scale|..] == rest;
    ReadStep(ws);
  }

  lemma {:induction false} ReadStep(ws: seq<Word>)
    requires ws != []
    ensures var k := Run(ws, false);
      var m := Run(ws[k..], true);
      k + m > 0 && Read(ws) == ReadGroup(ws[..k]) * ReadScale(ws[k..k + m]) + Read(ws[k + m..])
  {
    if IsScale(ws[0]) {
      assert ws[0..] == ws;
    }
  }

  lemma {:induction false} ScaleValue(i: nat)
    requires i < 7
    ensures |SCALES| == 7 && ReadScale(SCALES[i]) == Pow1000(i)
    ensures forall k :: 0 <= k < |SCALES[i]| ==> IsScale(SCALES[i][k])
    ensures i > 0 ==> SCALES[i] != []
  {
    assert ReadScale([]) == 1;
    assert forall w: Word :: [w][1..] == [];
    assert forall v: Word, w: Word :: [v, w][1..] == [w];
    assert Pow1000(2) == 1_000_000;
    assert Pow1000(3) == 1_000_000_000;
    assert Pow1000(4) == 1_000_000_000_000;
    assert Pow1000(5) == 1_000_000_000_000_000;
    assert Pow1000(6) == 1_000_000_000_000_000_000;
  }

  lemma ShiftValue(n: nat, p: nat)
    ensures n * p == (n / 1000) * (1000 * p) + (n % 1000) * p
  {
    assert n == 1000 * (n / 1000) + n % 1000;
  }

  lemma {:induction false} GroupsReadBack(n: nat, i: nat, tail: seq<Word>)
    requires i <= 7 && n < Pow1000(7 - i)
    requires tail == [] || (i > 0 && !IsScale(tail[0]))
    ensures Read(Groups(n, i) + tail) == n * Pow1000(i) + Read(tail)
    decreases n
  {
    hide Read, ReadGroup, ReadScale, Hundreds, Groups, SCALES, Pow1000;
    if n == 0 {
      NoGroups(i);
      assert Groups(n, i) + tail == tail;
    } else {
      GroupsStep(n, i);
      var (g, higher) := (n % 1000, n / 1000);
      ShiftValue(n, Pow1000(i));
      NextPower(i);
      if g == 0 {
        GroupsReadBack(higher, i + 1, tail);
        assert Groups(n, i) == Groups(higher, i + 1);
      } else {
        var said := GroupReadBack(g, higher > 0, i, tail);
        GroupsReadBack(higher, i + 1, said);
        assert Groups(n, i) + tail == Groups(higher, i + 1) + said;
      }
    }
  }

  lemma {:induction false} NextPower(i: nat)
    ensures Pow1000(i + 1) == 1000 * Pow1000(i)
  {
  }

  lemma {:induction false} GroupReadBack(g: nat, full: bool, i: nat, tail: seq<Word>) returns (said: seq<Word>)
    requires 0 < g < 1000 && i < 7
    requires tail == [] || (i > 0 && !IsScale(tail[0]))
    ensures |SCALES| == 7 && said == Hundreds(g, full) + SCALES[i] + tail
    ensures said != [] && !IsScale(said[0])
    ensures Read(said) == g * Pow1000(i) + Read(tail)
  {
    hide Read, ReadGroup, ReadScale, Hundreds;
    HundredsShape(g, full);
    HundredsReadBack(g, full);
    ScaleValue(i);
    ReadFirst(Hundreds(g, full), SCALES[i], tail);
    said := Hundreds(g, full) + SCALES[i] + tail;
  }

  /** Every number viNumber can be given reads back, so no two numbers sound the same. */
  lemma NumberReadsBack(n: nat)
    requires n < Pow1000(7)
    ensures Read(Number(n)) == n
  {
    hide Groups, Read, ReadGroup;
    EmptyReads();
    if n == 0 {
      ReadFirst([Digit(0)], [], []);
      ReadGroupSnoc([], Digit(0));
      assert [] + [Digit(0)] == [Digit(0)] && [Digit(0)] + [] + [] == [Digit(0)];
    } else {
      GroupsReadBack(n, 0, []);
      assert Groups(n, 0) + [] == Groups(n, 0);
    }
  }

  // ---- spell: a figure as a quantity, or digit by digit -------------------------------------------

  predicate IsDigits(s: string) { s != [] && forall k :: 0 <= k < |s| ==> '0' <= s[k] <= '9' }

  function DigitOf(c: char): (d: nat)
    requires '0' <= c <= '9'
    ensures d < 10
  {
    c as int - '0' as int
  }

  /** strconv.ParseUint in base 10, on digits that fit. */
  function Value(s: string): nat
    requires s == [] || IsDigits(s)
  {
    if s == [] then 0 else 10 * Value(s[..|s| - 1]) + DigitOf(s[|s| - 1])
  }

  /** A quantity has at most 12 digits and no leading zero. */
  predicate IsQuantity(s: string)
    requires IsDigits(s)
  {
    |s| <= 12 && (s[0] != '0' || |s| == 1)
  }

  function Pow10(k: nat): nat { if k == 0 then 1 else 10 * Pow10(k - 1) }

  lemma {:induction false} ValueBounds(s: string)
    requires IsDigits(s)
    ensures Value(s) < Pow10(|s|)
    ensures s[0] != '0' ==> Pow10(|s| - 1) <= Value(s)
  {
    if |s| > 1 {
      ValueBounds(s[..|s| - 1]);
    } else {
      assert Value(s[..0]) == 0;
    }
  }

  lemma {:induction false} Pow10Grows(j: nat, k: nat)
    requires j <= k
    ensures Pow10(j) <= Pow10(k)
  {
    if j < k {
      Pow10Grows(j, k - 1);
    }
  }

  lemma {:induction false} QuantityFits(s: string)
    requires IsDigits(s) && IsQuantity(s)
    ensures Value(s) < Pow1000(7)
  {
    ValueBounds(s);
    Pow10Grows(|s|, 12);
    assert Pow10(6) == 1_000_000;
    assert Pow10(12) == 1_000_000_000_000;
    Uint64Fits(Value(s));
  }

  function Spell(s: string): seq<Word>
    requires IsDigits(s)
  {
    if IsQuantity(s) then QuantityFits(s); Number(Value(s))
    else seq(|s|, i requires 0 <= i < |s| => Digit(DigitOf(s[i])))
  }

  /** spell as the source writes it: a call, or a loop over the digits. */
  method SpellOut(s: string) returns (words: seq<Word>)
    requires IsDigits(s)
    ensures words == Spell(s)
  {
    if IsQuantity(s) {
      QuantityFits(s);
      words := ViNumber(Value(s));
    } else {
      words := [];
      for i := 0 to |s|
        invariant |words| == i && forall k :: 0 <= k < i ==> words[k] == Digit(DigitOf(s[k]))
      {
        words := words + [Digit(DigitOf(s[i]))];
      }
    }
  }

  /** viNumber never puts two bare digit words side by side. */
  predicate Apart(ws: seq<Word>) {
    forall k :: 0 < k < |ws| ==> !(ws[k - 1].Digit? && ws[k].Digit?)
  }

  lemma {:induction false} HundredsApart(n: nat, full: bool)
    requires n < 1000
    ensures Apart(Hundreds(n, full))
  {
  }

  lemma {:induction false} GroupsApart(n: nat, i: nat)
    requires i <= 7 && n < Pow1000(7 - i)
    ensures Apart(Groups(n, i))
    ensures i > 0 && Groups(n, i) != [] ==> IsScale(Groups(n, i)[|Groups(n, i)| - 1])
    decreases n
  {
    hide Hundreds, SCALES;
    if n > 0 {
      ShiftBound(n, i);
      var (g, higher) := (n % 1000, n / 1000);
      GroupsApart(higher, i + 1);
      if g > 0 {
        HundredsApart(g, higher > 0);
        ScaleValue(i);
      }
    }
  }

  lemma {:induction false} ValueInjective(s: string, t: string)
    requires IsDigits(s) && IsDigits(t) && |s| == |t| && Value(s) == Value(t)
    ensures s == t
  {
    var (s', t') := (s[..|s| - 1], t[..|t| - 1]);
    assert s == s' + [s[|s| - 1]] && t == t' + [t[|t| - 1]];
    if |s| > 1 {
      ValueInjective(s', t');
    }
  }

  lemma {:induction false} LongerQuantity(s: string, t: string)
    requires IsDigits(s) && IsDigits(t) && IsQuantity(s) && IsQuantity(t) && |s| < |t|
    ensures Value(s) < Value(t)
  {
    ValueBounds(s);
    ValueBounds(t);
    Pow10Grows(|s|, |t| - 1);
  }

  /** Different figures are always spelled differently. */
  lemma SpellInjective(s: string, t: string)
    requires IsDigits(s) && IsDigits(t) && Spell(s) == Spell(t)
    ensures s == t
  {
    hide Number, Read;
    if IsQuantity(s) && IsQuantity(t) {
      QuantityFits(s);
      QuantityFits(t);
      NumberReadsBack(Value(s));
      NumberReadsBack(Value(t));
      if |s| < |t| {
        LongerQuantity(s, t);
      } else if |t| < |s| {
        LongerQuantity(t, s);
      }
      ValueInjective(s, t);
    } else if IsQuantity(s) != IsQuantity(t) {
      NeverBoth(if IsQuantity(s) then s else t, if IsQuantity(s) then t else s);
    } else {
      forall k | 0 <= k < |s|
        ensures s[k] == t[k]
      {
        assert Spell(s)[k] == Spell(t)[k];
      }
    }
  }

  lemma {:induction false} NeverBoth(s: string, t: string)
    requires IsDigits(s) && IsDigits(t) && IsQuantity(s) && !IsQuantity(t)
    ensures Spell(s) != Spell(t)
  {
    QuantityFits(s);
    assert Spell(t)[0].Digit? && Spell(t)[1].Digit?;
    if Value(s) > 0 {
      GroupsApart(Value(s), 0);
    }
  }

  // ---- How the words are chosen ------------------------------------------------------------------

  lemma {:induction false} PiecesHave(h: nat, t: nat, u: nat, full: bool)
    ensures var ws := HundredWords(h, full) + TenWords(t, u, h > 0 || full) + UnitWords(t, u);
      && (Hundred in ws <==> h > 0 || full)
      && (Tens in ws <==> t > 1)
      && (Ten in ws <==> t == 1)
      && (Odd in ws <==> t == 0 && u > 0 && (h > 0 || full))
      && (Unit1 in ws <==> u == 1 && t > 1)
      && (Unit5 in ws <==> u == 5 && t > 0)
  {
    var (hundred, ten, unit) := (HundredWords(h, full), TenWords(t, u, h > 0 || full), UnitWords(t, u));
    assert forall w :: w in hundred + ten + unit <==> w in hundred || w in ten || w in unit;
  }

  lemma {:induction false} Figures(n: nat)
    requires n < 1000
    ensures n == 100 * (n / 100) + 10 * (n / 10 % 10) + n % 10 && n / 10 % 10 < 10
    ensures n % 100 == 10 * (n / 10 % 10) + n % 10
  {
    var q := n / 10;
    assert n == 10 * q + n % 10;
    assert q == 10 * (q / 10) + q % 10;
    DividedBy100(n, q / 10, 10 * (q % 10) + n % 10);
  }

  lemma {:induction false} DividedBy100(n: nat, h: nat, r: nat)
    requires n == 100 * h + r && r < 100
    ensures n / 100 == h && n % 100 == r
  {
  }

  lemma {:induction false} FiguresOf(n: nat, h: nat, t: nat, u: nat)
    requires n == 100 * h + 10 * t + u && t < 10 && u < 10
    ensures n >= 100 <==> h > 0
    ensures var k := 10 * t + u;
      && (k >= 20 <==> t > 1) && (10 <= k <= 19 <==> t == 1) && (1 <= k <= 9 <==> t == 0 && u > 0)
      && (u == 1 ==> (k > 20 <==> t > 1)) && (u == 5 ==> (k > 10 <==> t > 0))
  {
  }

  /** Which words a group has, from its figures alone. */
  lemma {:induction false} HundredsHas(n: nat, full: bool)
    requires n < 1000
    ensures var ws := Hundreds(n, full);
      && (Hundred in ws <==> n >= 100 || full)
      && (Tens in ws <==> n % 100 >= 20)
      && (Ten in ws <==> 10 <= n % 100 <= 19)
      && (Odd in ws <==> 1 <= n % 100 <= 9 && (n >= 100 || full))
      && (Unit1 in ws <==> n % 10 == 1 && n % 100 > 20)
      && (Unit5 in ws <==> n % 10 == 5 && n % 100 > 10)
  {
    var (h, t, u) := (n / 100, n / 10 % 10, n % 10);
    assert Hundreds(n, full) == HundredWords(h, full) + TenWords(t, u, h > 0 || full) + UnitWords(t, u);
    hide *;
    Figures(n);
    FiguresOf(n, h, t, u);
    PiecesHave(h, t, u, full);
  }

  /** Every group after the first keeps its hundreds digit, zero or not. */
  predicate KeepsHundreds(ws: seq<Word>) {
    forall k :: 0 < k < |ws| && IsScale(ws[k - 1]) && !IsScale(ws[k]) ==> k + 1 < |ws| && ws[k + 1] == Hundred
  }

  predicate StartsWithHundreds(ws: seq<Word>) { |ws| > 1 && ws[1] == Hundred }

  /** The first group of three digits is at least one hundred. */
  predicate LeadsWithHundreds(n: nat) { if n < 1000 then n >= 100 else LeadsWithHundreds(n / 1000) }

  lemma {:induction false} HundredsStart(n: nat, full: bool)
    requires 0 < n < 1000
    ensures var ws := Hundreds(n, full);
      && ws != [] && (StartsWithHundreds(ws) <==> n >= 100 || full)
      && (!StartsWithHundreds(ws) && |ws| > 1 ==> !IsScale(ws[1]))
      && (forall k :: 0 <= k < |ws| ==> !IsScale(ws[k]))
  {
    HundredsShape(n, full);
  }

  lemma {:induction false} GroupsKeepHundreds(n: nat, i: nat)
    requires 0 < n && i <= 7 && n < Pow1000(7 - i)
    ensures var ws := Groups(n, i);
      && ws != [] && !IsScale(ws[0]) && KeepsHundreds(ws)
      && (StartsWithHundreds(ws) <==> LeadsWithHundreds(n))
    decreases n
  {
    hide Groups, Hundreds, SCALES, KeepsHundreds, StartsWithHundreds, LeadsWithHundreds, Apart, Pow1000, ReadScale;
    GroupsStep(n, i);
    ScaleValue(i);
    LeadsStep(n);
    var (g, higher) := (n % 1000, n / 1000);
    var tail := if g > 0 then Hundreds(g, higher > 0) + SCALES[i] else [];
    if g > 0 {
      HundredsStart(g, higher > 0);
      OneGroup(Hundreds(g, higher > 0), SCALES[i]);
    }
    if higher > 0 {
      GroupsKeepHundreds(higher, i + 1);
      GroupsApart(higher, i + 1);
      var front := Groups(higher, i + 1);
      if g > 0 {
        OneMoreGroup(front, tail);
      } else {
        assert front + tail == front;
      }
    } else {
      NoGroups(i + 1);
      assert [] + tail == tail;
    }
  }

  lemma {:induction false} LeadsStep(n: nat)
    ensures LeadsWithHundreds(n) <==> if n / 1000 == 0 then n % 1000 >= 100 else LeadsWithHundreds(n / 1000)
  {
  }

  lemma {:induction false} OneGroup(group: seq<Word>, scale: seq<Word>)
    requires group != [] && (forall k :: 0 <= k < |group| ==> !IsScale(group[k]))
    requires forall k :: 0 <= k < |scale| ==> IsScale(scale[k])
    ensures var ws := group + scale;
      ws != [] && !IsScale(ws[0]) && KeepsHundreds(ws) && (StartsWithHundreds(ws) <==> StartsWithHundreds(group))
  {
    var ws := group + scale;
    forall k | 0 < k < |ws| && IsScale(ws[k - 1])
      ensures IsScale(ws[k])
    {
      assert k - 1 >= |group| && ws[k] == scale[k - |group|];
    }
  }

  lemma {:induction false} OneMoreGroup(front: seq<Word>, tail: seq<Word>)
    requires front != [] && !IsScale(front[0]) && IsScale(front[|front| - 1])
    requires KeepsHundreds(front) && KeepsHundreds(tail) && StartsWithHundreds(tail)
    ensures KeepsHundreds(front + tail) && (front + tail)[0] == front[0]
    ensures StartsWithHundreds(front + tail) <==> StartsWithHundreds(front)
  {
    var ws, n := front + tail, |front|;
    forall k | 0 < k < |ws| && IsScale(ws[k - 1]) && !IsScale(ws[k])
      ensures k + 1 < |ws| && ws[k + 1] == Hundred
    {
      if k > n {
        assert ws[k - 1] == tail[k - 1 - n] && ws[k] == tail[k - n];
      } else if k == n {
        assert ws[k + 1] == tail[1];
      }
    }
  }

  /** A number keeps the hundreds of every group but its first, whose zero it leaves out. */
  lemma {:induction false} NumberKeepsHundreds(n: nat)
    requires 0 < n < Pow1000(7)
    ensures KeepsHundreds(Number(n)) && (StartsWithHundreds(Number(n)) <==> LeadsWithHundreds(n))
  {
    hide Groups, KeepsHundreds, StartsWithHundreds, LeadsWithHundreds;
    GroupsKeepHundreds(n, 0);
  }

  /** A figure of at most twelve digits, without a leading zero, is said as the number it is, and any other
      digit by digit. */
  lemma {:induction false} SpellSays(s: string)
    requires IsDigits(s)
    ensures if |s| <= 12 && (|s| == 1 || s[0] != '0') then Read(Spell(s)) == Value(s)
            else |Spell(s)| == |s| && forall k :: 0 <= k < |s| ==> Spell(s)[k] == Digit(s[k] as int - '0' as int)
  {
    hide Number, Read, Value;
    if IsQuantity(s) {
      QuantityFits(s);
      NumberReadsBack(Value(s));
    }
  }

  // ---- The text itself ---------------------------------------------------------------------------

  const DIGITS: seq<string> := ["không", "một", "hai", "ba", "bốn", "năm", "sáu", "bảy", "tám", "chín"]

  predicate Sayable(ws: seq<Word>) { forall k :: 0 <= k < |ws| && ws[k].Digit? ==> ws[k].d < 10 }

  function Said(w: Word): string
    requires w.Digit? ==> w.d < 10
  {
    match w
    case Digit(d) => DIGITS[d]
    case Hundred => "trăm"
    case Tens => "mươi"
    case Ten => "mười"
    case Odd => "linh"
    case Unit1 => "mốt"
    case Unit5 => "lăm"
    case Thousand => "nghìn"
    case Million => "triệu"
    case Billion => "tỷ"
  }

  /** strings.Join with one space. */
  function Text(ws: seq<Word>): string
    requires Sayable(ws)
  {
    if ws == [] then ""
    else if |ws| == 1 then Said(ws[0])
    else Said(ws[0]) + " " + Text(ws[1..])
  }

  predicate NoSpace(s: string) { forall k :: 0 <= k < |s| ==> s[k] != ' ' }

  lemma SaidIsOneWord(w: Word)
    requires w.Digit? ==> w.d < 10
    ensures Said(w) != "" && NoSpace(Said(w))
  {
  }

  lemma SaidDistinct(v: Word, w: Word)
    requires (v.Digit? ==> v.d < 10) && (w.Digit? ==> w.d < 10)
    requires Said(v) == Said(w)
    ensures v == w
  {
    DigitsDistinct();
    if !v.Digit? && w.Digit? {
      SignDistinct(v, w.d);
    }
    if v.Digit? && !w.Digit? {
      SignDistinct(w, v.d);
    }
  }

  lemma DigitsDistinct()
    ensures |DIGITS| == 10
    ensures forall d, e :: 0 <= d < e < 10 ==> DIGITS[d] != DIGITS[e]
  {
  }

  lemma SignDistinct(w: Word, d: nat)
    requires !w.Digit? && d < 10
    ensures Said(w) != DIGITS[d]
  {
  }

  lemma FirstWord(p: string, r: string, q: string, t: string)
    requires NoSpace(p) && NoSpace(q) && p + r == q + t
    requires (r == "" || r[0] == ' ') && (t == "" || t[0] == ' ')
    ensures p == q && r == t
  {
    var s := p + r;
    assert |p| < |s| ==> s[|p|] == ' ';
    assert s == q + t;
    assert |q| < |s| ==> s[|q|] == ' ';
    assert forall k :: 0 <= k < |q| ==> s[k] == q[k];
    assert |p| == |q|;
    assert p == s[..|p|] && q == s[..|q|] && r == s[|p|..] && t == s[|q|..];
  }

  lemma {:induction false} TextSplit(ws: seq<Word>) returns (rest: string)
    requires Sayable(ws) && ws != []
    ensures rest == if |ws| == 1 then "" else " " + Text(ws[1..])
    ensures Text(ws) == Said(ws[0]) + rest
    ensures Said(ws[0]) != "" && NoSpace(Said(ws[0]))
  {
    hide Said;
    SaidIsOneWord(ws[0]);
    rest := if |ws| == 1 then "" else " " + Text(ws[1..]);
    assert |ws| == 1 ==> Said(ws[0]) + rest == Said(ws[0]);
    assert |ws| > 1 ==> Said(ws[0]) + " " + Text(ws[1..]) == Said(ws[0]) + rest;
  }

  /** The joined text gives its words back: no two word lists read the same. */
  lemma {:induction false} TextInjective(v: seq<Word>, w: seq<Word>)
    requires Sayable(v) && Sayable(w) && Text(v) == Text(w)
    ensures v == w
  {
    hide Text, Said;
    if v == [] || w == [] {
      EmptyText(v);
      EmptyText(w);
    } else {
      var r := TextSplit(v);
      var t := TextSplit(w);
      FirstWord(Said(v[0]), r, Said(w[0]), t);
      SaidDistinct(v[0], w[0]);
      if |v| > 1 && |w| > 1 {
        assert Text(v[1..]) == r[1..] && Text(w[1..]) == t[1..];
        TextInjective(v[1..], w[1..]);
      }
      assert v == [v[0]] + v[1..] && w == [w[0]] + w[1..];
    }
  }

  lemma {:induction false} EmptyText(ws: seq<Word>)
    requires Sayable(ws)
    ensures Text(ws) == "" <==> ws == []
  {
    hide Said;
    if ws != [] {
      SaidIsOneWord(ws[0]);
    }
  }

  lemma {:induction false} SpellSayable(s: string)
    requires IsDigits(s)
    ensures Sayable(Spell(s))
  {
    if IsQuantity(s) {
      QuantityFits(s);
      GroupsSayable(Value(s), 0);
    }
  }

  lemma {:induction false} GroupsSayable(n: nat, i: nat)
    requires i <= 7 && n < Pow1000(7 - i)
    ensures Sayable(Groups(n, i))
    decreases n
  {
    hide Groups, Hundreds;
    if n > 0 {
      GroupsStep(n, i);
      GroupsSayable(n / 1000, i + 1);
      HundredsSayable(n % 1000, n / 1000 > 0);
      ScaleValue(i);
    } else {
      NoGroups(i);
    }
  }

  lemma HundredsSayable(n: nat, full: bool)
    requires n < 1000
    ensures Sayable(Hundreds(n, full))
  {
  }

  /** What is heard names one figure only: equal texts come from equal figures. */
  lemma SpellTextInjective(s: string, t: string)
    requires IsDigits(s) && IsDigits(t)
    ensures Sayable(Spell(s)) && Sayable(Spell(t))
    ensures Text(Spell(s)) == Text(Spell(t)) <==> s == t
  {
    hide Number, Text;
    SpellSayable(s);
    SpellSayable(t);
    if Text(Spell(s)) == Text(Spell(t)) {
      TextInjective(Spell(s), Spell(t));
      SpellInjective(s, t);
    }
  }
}
