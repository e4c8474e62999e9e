/** IBAN check digits (src/objektakte/masking.py, normalize_iban and iban_mod97): ISO/IEC 7064, system MOD 97-10.
  * Strings are given without white space and in upper case; letters and digits are the ASCII ones. */
module Iban {

  predicate IsDigit(c: char) { '0' <= c <= '9' }

  predicate IsAlpha(c: char) { 'A' <= c <= 'Z' || 'a' <= c <= 'z' }

  function Digit(c: char): nat
    requires IsDigit(c)
  {
    c as int - '0' as int
  }

  /** The letter O counts as a zero after the country code. */
  function Zeros(s: string): (r: string)
    ensures |r| == |s| && forall i :: 0 <= i < |s| ==> r[i] == if s[i] == 'O' then '0' else s[i]
  {
    seq(|s|, i requires 0 <= i < |s| => if s[i] == 'O' then '0' else s[i])
  }

  function Normalize(s: string): (r: string)
    ensures |r| == |s|
  {
    if |s| <= 2 then s else s[..2] + Zeros(s[2..])
  }

  // ---------------------------------------------------------------- the big-integer test

  function Decimal(n: nat): (s: string)
    ensures s != "" && forall c :: c in s ==> IsDigit(c)
  {
    var d := (n % 10 + '0' as int) as char;
    if n < 10 then [d] else Decimal(n / 10) + [d]
  }

  /** One character in the number: a letter becomes 10 for A up to 35 for Z. */
  function Expand(c: char): string {
    if IsAlpha(c) then Decimal(c as int - 55) else [c]
  }

  function ExpandAll(s: string): string {
    if s == "" then "" else ExpandAll(s[..|s| - 1]) + Expand(s[|s| - 1])
  }

  predicate AllDigits(s: string) {
    forall i :: 0 <= i < |s| ==> IsDigit(s[i])
  }

  /** int(s) for a string of digits. */
  function Number(s: string): nat
    requires AllDigits(s)
  {
    if s == "" then 0 else Number(s[..|s| - 1]) * 10 + Digit(s[|s| - 1])
  }

  function Rearranged(c: string): string
    requires |c| >= 4
  {
    c[4..] + c[..4]
  }

  predicate WellShaped(c: string) {
    |c| >= 15 && IsAlpha(c[0]) && IsAlpha(c[1]) && IsDigit(c[2]) && IsDigit(c[3])
  }

  predicate Mod97(iban: string) {
    var c := Normalize(iban);
    WellShaped(c) && AllDigits(ExpandAll(Rearranged(c))) && Number(ExpandAll(Rearranged(c))) % 97 == 1
  }

  // ---------------------------------------------------------------- the fold

  predicate Alphanumeric(s: string) {
    forall i :: 0 <= i < |s| ==> IsAlpha(s[i]) || IsDigit(s[i])
  }

  /** One step of the remainder, character by character: a letter up to Z has a value of two digits. */
  function Step(rest: nat, c: char): nat
    requires IsAlpha(c) || IsDigit(c)
  {
    (if IsDigit(c) then rest * 10 + Digit(c) else rest * 100 + (c as int - 55)) % 97
  }

  function Fold(s: string): nat
    requires Alphanumeric(s)
  {
    if s == "" then 0 else Step(Fold(s[..|s| - 1]), s[|s| - 1])
  }

  function Power10(m: nat): nat { if m == 0 then 1 else 10 * Power10(m - 1) }

  lemma {:induction false} NumberPlus(a: string, b: string)
    requires AllDigits(a) && AllDigits(b)
    ensures AllDigits(a + b) && Number(a + b) == Number(a) * Power10(|b|) + Number(b)
    decreases |b|
  {
    if b == "" {
      assert a + b == a;
    } else {
      var front, last := b[..|b| - 1], b[|b| - 1];
      NumberPlus(a, front);
      assert (a + b)[..|a + b| - 1] == a + front;
      assert a + b == a + front + [last];
      Regrouped(Number(a), Power10(|front|), Number(front), Digit(last));
    }
  }

  lemma Regrouped(x: nat, p: nat, y: nat, d: nat)
    ensures (x * p + y) * 10 + d == x * (10 * p) + (y * 10 + d)
  {
  }

  lemma ModStep(a: nat, b: nat, k: nat, d: nat)
    requires a % 97 == b % 97
    ensures (a * k + d) % 97 == (b * k + d) % 97
  {
    var q := a / 97 - b / 97;
    assert a - b == 97 * q;
    assert a * k + d == b * k + d + 97 * (q * k) by { Spread(a, b, q, k); }
    ShiftMod(b * k + d, q * k);
  }

  lemma Spread(a: nat, b: nat, q: int, k: nat)
    requires a - b == 97 * q
    ensures a * k == b * k + 97 * (q * k)
  {
    assert a == b + 97 * q;
  }

  lemma ShiftMod(x: int, q: int)
    ensures (x + 97 * q) % 97 == x % 97
  {
  }

  lemma ExpandDigits(c: char)
    ensures IsDigit(c) ==> Expand(c) == [c]
    ensures 'A' <= c <= 'Z' ==> AllDigits(Expand(c)) && |Expand(c)| == 2 && Number(Expand(c)) == c as int - 55
    ensures !IsAlpha(c) && !IsDigit(c) ==> !AllDigits(Expand(c))
  {
    if !IsAlpha(c) && !IsDigit(c) {
      assert !IsDigit(Expand(c)[0]);
    } else if 'A' <= c <= 'Z' {
      var n := c as int - 55;
      assert Decimal(n / 10) == [(n / 10 + '0' as int) as char];
      assert Decimal(n) == [(n / 10 + '0' as int) as char, (n % 10 + '0' as int) as char];
      var s := Decimal(n);
      assert s[..1] == [s[0]] && s[..1][..0] == "";
      assert Number(s[..1]) == n / 10;
    }
  }

  /** Upper-case strings: letters as they are left by the normalisation. */
  predicate UpperCase(s: string) {
    forall i :: 0 <= i < |s| ==> !('a' <= s[i] <= 'z')
  }

  /** The remainder of the big number is what the fold leaves, for strings of any length. */
  lemma {:induction false} FoldIsRemainder(s: string)
    requires UpperCase(s)
    ensures AllDigits(ExpandAll(s)) <==> Alphanumeric(s)
    ensures Alphanumeric(s) ==> Number(ExpandAll(s)) % 97 == Fold(s)
    decreases |s|
  {
    hide Expand, Step, Power10, Number;
    EmptyNumber();
    if s != "" {
      var front, last := s[..|s| - 1], s[|s| - 1];
      FoldIsRemainder(front);
      ExpandDigits(last);
      DigitsOfBoth(ExpandAll(front), Expand(last));
      assert Alphanumeric(s) <==> Alphanumeric(front) && (IsAlpha(last) || IsDigit(last));
      if Alphanumeric(s) {
        NumberPlus(ExpandAll(front), Expand(last));
        LastStep(ExpandAll(front), last, Fold(front));
      }
    }
  }

  lemma EmptyNumber()
    ensures AllDigits("") && Number("") == 0
  {
  }

  lemma DigitsOfBoth(a: string, b: string)
    ensures AllDigits(a + b) <==> AllDigits(a) && AllDigits(b)
  {
    if AllDigits(a + b) {
      forall i | 0 <= i < |a| ensures IsDigit(a[i]) { assert (a + b)[i] == a[i]; }
      forall i | 0 <= i < |b| ensures IsDigit(b[i]) { assert (a + b)[|a| + i] == b[i]; }
    }
  }

  lemma LastStep(front: string, c: char, rest: nat)
    requires AllDigits(front) && Number(front) % 97 == rest && (('A' <= c <= 'Z') || IsDigit(c))
    ensures AllDigits(Expand(c)) && (Number(front) * Power10(|Expand(c)|) + Number(Expand(c))) % 97 == Step(rest, c)
  {
    ExpandDigits(c);
    assert Power10(1) == 10 && Power10(2) == 100;
    if IsDigit(c) {
      assert [c][..0] == "";
      ModStep(Number(front), rest, 10, Digit(c));
    } else {
      ModStep(Number(front), rest, 100, c as int - 55);
    }
  }

  /** The test with the big number is the fold of the rearranged string. */
  lemma TestIsFold(iban: string)
    requires UpperCase(iban)
    ensures Mod97(iban) <==> var c := Normalize(iban); WellShaped(c) && Alphanumeric(c) && Fold(Rearranged(c)) == 1
  {
    var c := Normalize(iban);
    if WellShaped(c) {
      var s := Rearranged(c);
      assert Alphanumeric(s) <==> Alphanumeric(c) by {
        forall i | 0 <= i < |c| ensures c[i] == s[if i >= 4 then i - 4 else i + |c| - 4] {}
        forall i | 0 <= i < |s| ensures s[i] == c[if i < |c| - 4 then i + 4 else i - (|c| - 4)] {}
      }
      FoldIsRemainder(s);
    }
  }

  // ---------------------------------------------------------------- errors it detects

  lemma TenTimes(j: int)
    requires (10 * j) % 97 == 0
    ensures j % 97 == 0
  {
    var q := 10 * j / 97;
    assert 10 * j == 97 * q;
    assert j == 97 * (68 * q - 7 * j) by { assert 680 * j == 97 * (68 * q); }
    ShiftMod(0, 68 * q - 7 * j);
  }

  /** Ten has an inverse modulo 97, so a power of ten hides nothing. */
  lemma {:induction false} PowerHidesNothing(m: nat, k: int)
    requires (Power10(m) * k) % 97 == 0
    ensures k % 97 == 0
  {
    if m > 0 {
      assert Power10(m) * k == 10 * (Power10(m - 1) * k) by { Assoc(Power10(m - 1), k); }
      TenTimes(Power10(m - 1) * k);
      PowerHidesNothing(m - 1, k);
    }
  }

  lemma Assoc(p: nat, k: int)
    ensures (10 * p) * k == 10 * (p * k)
  {
  }

  lemma SameRest(a: int, b: int)
    requires a % 97 == b % 97
    ensures (a - b) % 97 == 0
  {
    var q := a / 97 - b / 97;
    assert a - b == 97 * q;
    ShiftMod(0, q);
  }

  /** Two numbers that differ by a small amount somewhere in the middle leave different remainders. */
  lemma MiddleDiffers(x: nat, y: nat, d: nat, e: nat, m: nat, low: nat)
    requires x + d != x + e && -97 < d - e < 97 && y == Power10(m)
    ensures ((x + d) * y + low) % 97 != ((x + e) * y + low) % 97
  {
    if ((x + d) * y + low) % 97 == ((x + e) * y + low) % 97 {
      SameRest((x + d) * y + low, (x + e) * y + low);
      assert ((x + d) * y + low) - ((x + e) * y + low) == y * (d - e) by { Gap(x, y, d, e, low); }
      PowerHidesNothing(m, d - e);
    }
  }

  lemma Gap(x: nat, y: nat, d: nat, e: nat, low: nat)
    ensures ((x + d) * y + low) - ((x + e) * y + low) == y * (d - e)
  {
  }

  lemma {:induction false} ExpandPlus(a: string, b: string)
    ensures ExpandAll(a + b) == ExpandAll(a) + ExpandAll(b)
    decreases |b|
  {
    if b == "" {
      assert a + b == a;
    } else {
      assert (a + b)[..|a + b| - 1] == a + b[..|b| - 1];
      ExpandPlus(a, b[..|b| - 1]);
    }
  }

  lemma {:induction false} ExpandOne(c: char)
    ensures ExpandAll([c]) == Expand(c)
  {
    assert [c][..0] == "";
  }

  /** The number of a string with a digit in the middle. */
  lemma NumberAround(a: string, c: char, b: string)
    requires IsDigit(c) && AllDigits(ExpandAll(a + [c] + b))
    ensures AllDigits(ExpandAll(a)) && AllDigits(ExpandAll(b))
    ensures Number(ExpandAll(a + [c] + b))
            == (Number(ExpandAll(a)) * 10 + Digit(c)) * Power10(|ExpandAll(b)|) + Number(ExpandAll(b))
  {
    hide ExpandAll, Number, AllDigits, Power10, Expand;
    ExpandDigits(c);
    var x, y := ExpandAll(a), ExpandAll(b);
    ExpandPlus(a + [c], b);
    ExpandPlus(a, [c]);
    ExpandOne(c);
    DigitsOfBoth(x + [c], y);
    DigitsOfBoth(x, [c]);
    NumberPlus(x + [c], y);
    NumberMore(x, c);
  }

  lemma NumberMore(x: string, c: char)
    requires AllDigits(x) && IsDigit(c)
    ensures AllDigits(x + [c]) && Number(x + [c]) == Number(x) * 10 + Digit(c)
  {
    assert (x + [c])[..|x + [c]| - 1] == x;
  }

  lemma DigitChanged(a: string, c: char, e: char, b: string)
    requires IsDigit(c) && IsDigit(e) && c != e
    requires AllDigits(ExpandAll(a + [c] + b)) && AllDigits(ExpandAll(a + [e] + b))
    ensures Number(ExpandAll(a + [c] + b)) % 97 != Number(ExpandAll(a + [e] + b)) % 97
  {
    hide ExpandAll, Number, AllDigits, Power10;
    NumberAround(a, c, b);
    NumberAround(a, e, b);
    MiddleDiffers(Number(ExpandAll(a)) * 10, Power10(|ExpandAll(b)|), Digit(c), Digit(e), |ExpandAll(b)|, Number(ExpandAll(b)));
  }

  lemma DigitsSwapped(a: string, c: char, e: char, b: string)
    requires IsDigit(c) && IsDigit(e) && c != e
    requires AllDigits(ExpandAll(a + [c, e] + b)) && AllDigits(ExpandAll(a + [e, c] + b))
    ensures Number(ExpandAll(a + [c, e] + b)) % 97 != Number(ExpandAll(a + [e, c] + b)) % 97
  {
    hide ExpandAll, Number, AllDigits, Power10;
    PairAround(a, c, e, b);
    PairAround(a, e, c, b);
    MiddleDiffers(Number(ExpandAll(a)) * 100, Power10(|ExpandAll(b)|), Digit(c) * 10 + Digit(e), Digit(e) * 10 + Digit(c),
                  |ExpandAll(b)|, Number(ExpandAll(b)));
  }

  lemma PairAround(a: string, c: char, e: char, b: string)
    requires IsDigit(c) && IsDigit(e) && AllDigits(ExpandAll(a + [c, e] + b))
    ensures AllDigits(ExpandAll(a)) && AllDigits(ExpandAll(b))
    ensures Number(ExpandAll(a + [c, e] + b))
            == (Number(ExpandAll(a)) * 100 + (Digit(c) * 10 + Digit(e))) * Power10(|ExpandAll(b)|) + Number(ExpandAll(b))
  {
    hide ExpandAll, Number, AllDigits, Power10;
    assert a + [c, e] + b == (a + [c]) + [e] + b;
    NumberAround(a + [c], e, b);
    assert a + [c] == a + [c] + "";
    NumberAround(a, c, "");
    NothingAfter(Number(ExpandAll(a)) * 10 + Digit(c));
    Hundreds(Number(ExpandAll(a)), Digit(c), Digit(e));
  }

  lemma NothingAfter(x: nat)
    ensures ExpandAll("") == "" && AllDigits(ExpandAll("")) && x * Power10(|ExpandAll("")|) + Number(ExpandAll("")) == x
  {
  }

  lemma Hundreds(x: nat, c: nat, e: nat)
    ensures (x * 10 + c) * 10 + e == x * 100 + (c * 10 + e)
  {
  }

  // ---------------------------------------------------------------- on whole IBANs

  lemma NormalizeAt(s: string, i: nat, d: char)
    requires 4 <= i < |s| && IsDigit(d)
    ensures Normalize(s[i := d]) == Normalize(s)[i := d]
  {
    assert s[i := d][..2] == s[..2] && s[i := d][2..] == s[2..][i - 2 := d];
  }

  lemma RearrangedAround(c: string, i: nat, d: char)
    requires 4 <= i < |c|
    ensures Rearranged(c[i := d]) == c[4..i] + [d] + (c[i + 1..] + c[..4])
  {
  }

  /** An accepted IBAN is not accepted any more after one digit of its account part was changed. */
  lemma OneDigitDetected(iban: string, i: nat, d: char)
    requires Mod97(iban) && 4 <= i < |iban| && IsDigit(Normalize(iban)[i]) && IsDigit(d) && d != Normalize(iban)[i]
    ensures !Mod97(iban[i := d])
  {
    var c := Normalize(iban);
    NormalizeAt(iban, i, d);
    RearrangedAround(c, i, d);
    RearrangedAround(c, i, c[i]);
    assert c[i := c[i]] == c;
    if Mod97(iban[i := d]) { DigitChanged(c[4..i], c[i], d, c[i + 1..] + c[..4]); }
  }

  lemma RearrangedPair(c: string, i: nat, d: char, e: char)
    requires 4 <= i && i + 1 < |c|
    ensures Rearranged(c[i := d][i + 1 := e]) == c[4..i] + [d, e] + (c[i + 2..] + c[..4])
  {
  }

  /** Nor after two different neighbouring digits of its account part were exchanged. */
  lemma ExchangeDetected(iban: string, i: nat)
    requires Mod97(iban) && 4 <= i && i + 1 < |iban|
    requires var c := Normalize(iban); IsDigit(c[i]) && IsDigit(c[i + 1]) && c[i] != c[i + 1]
    ensures var c := Normalize(iban); !Mod97(iban[i := c[i + 1]][i + 1 := c[i]])
  {
    var c := Normalize(iban);
    var other := iban[i := c[i + 1]][i + 1 := c[i]];
    NormalizeAt(iban, i, c[i + 1]);
    NormalizeAt(iban[i := c[i + 1]], i + 1, c[i]);
    RearrangedPair(c, i, c[i + 1], c[i]);
    RearrangedPair(c, i, c[i], c[i + 1]);
    assert c[i := c[i]][i + 1 := c[i + 1]] == c;
    if Mod97(other) { DigitsSwapped(c[4..i], c[i], c[i + 1], c[i + 2..] + c[..4]); }
  }

  // ---------------------------------------------------------------- what is accepted

  /** A character as it counts: from the third one on the letter O is read as a zero. */
  function Read(iban: string, i: nat): char
    requires i < |iban|
  {
    if i >= 2 && iban[i] == 'O' then '0' else iban[i]
  }

  /** Two letters, two digits and at least eleven more letters or digits. */
  ghost predicate LooksLikeIban(iban: string) {
    && |iban| >= 15 && 'A' <= iban[0] <= 'Z' && 'A' <= iban[1] <= 'Z'
    && '0' <= Read(iban, 2) <= '9' && '0' <= Read(iban, 3) <= '9'
    && forall i :: 4 <= i < |iban| ==> 'A' <= iban[i] <= 'Z' || '0' <= iban[i] <= '9'
  }

  lemma NormalizedAt(iban: string)
    ensures forall i :: 0 <= i < |iban| ==> Normalize(iban)[i] == Read(iban, i)
  {
  }

  lemma Accounted(iban: string)
    requires LooksLikeIban(iban)
    ensures var c := Normalize(iban); WellShaped(c) && Alphanumeric(c) && Alphanumeric(c[4..] + c[..2])
  {
    NormalizedAt(iban);
  }

  lemma FoldNext(s: string, c: char)
    requires Alphanumeric(s) && (IsAlpha(c) || IsDigit(c))
    ensures Alphanumeric(s + [c]) && Fold(s + [c]) == Step(Fold(s), c)
  {
    assert (s + [c])[..|s + [c]| - 1] == s;
  }

  /** The check digits are read as one number: it must bring the remainder of account and country code, moved by two places,
    * to one. */
  lemma AcceptedIff(iban: string)
    requires UpperCase(iban)
    ensures LooksLikeIban(iban) ==> Alphanumeric(Normalize(iban)[4..] + Normalize(iban)[..2]) && IsDigit(Read(iban, 2)) && IsDigit(Read(iban, 3))
    ensures Mod97(iban) <==>
      LooksLikeIban(iban) && (100 * Fold(Normalize(iban)[4..] + Normalize(iban)[..2]) + 10 * Digit(Read(iban, 2)) + Digit(Read(iban, 3))) % 97 == 1
  {
    hide Fold, Mod97, WellShaped, Alphanumeric, LooksLikeIban, UpperCase, Normalize;
    TestIsFold(iban);
    if LooksLikeIban(iban) {
      Accounted(iban);
      LastFour(iban);
    } else if WellShaped(Normalize(iban)) && Alphanumeric(Normalize(iban)) {
      Looks(iban);
      assert false;
    }
  }

  lemma LastFour(iban: string)
    requires LooksLikeIban(iban)
    ensures var c := Normalize(iban);
      && Alphanumeric(c[4..] + c[..2]) && Alphanumeric(Rearranged(c)) && IsDigit(Read(iban, 2)) && IsDigit(Read(iban, 3))
      && Fold(Rearranged(c)) == (100 * Fold(c[4..] + c[..2]) + 10 * Digit(Read(iban, 2)) + Digit(Read(iban, 3))) % 97
  {
    hide Fold, Step, Alphanumeric, Normalize;
    Accounted(iban);
    NormalizedAt(iban);
    var c := Normalize(iban);
    var front := c[4..] + c[..2];
    FoldNext(front, c[2]);
    FoldNext(front + [c[2]], c[3]);
    assert front + [c[2]] + [c[3]] == Rearranged(c);
    TwoDigits(Fold(front), c[2], c[3]);
  }

  lemma Looks(iban: string)
    requires UpperCase(iban) && WellShaped(Normalize(iban)) && Alphanumeric(Normalize(iban))
    ensures LooksLikeIban(iban)
  {
    NormalizedAt(iban);
    var c := Normalize(iban);
    assert c[0] == iban[0] && c[1] == iban[1] && c[2] == Read(iban, 2) && c[3] == Read(iban, 3);
    forall i | 4 <= i < |iban| ensures 'A' <= iban[i] <= 'Z' || '0' <= iban[i] <= '9' { assert c[i] == Read(iban, i); }
  }

  lemma TwoDigits(rest: nat, c: char, e: char)
    requires IsDigit(c) && IsDigit(e)
    ensures Step(Step(rest, c), e) == (100 * rest + 10 * Digit(c) + Digit(e)) % 97
  {
    var first := rest * 10 + Digit(c);
    ModStep(first % 97, first, 10, Digit(e));
  }

  function DigitOf(n: nat): char
    requires n < 10
  {
    (n + '0' as int) as char
  }

  /** Every account of a country has check digits that are accepted, and of the 97 numbers from 00 to 96 just one. */
  lemma CheckDigitsExist(iban: string) returns (n: nat)
    requires UpperCase(iban) && LooksLikeIban(iban)
    ensures n < 97 && Mod97(iban[2 := DigitOf(n / 10)][3 := DigitOf(n % 10)])
    ensures forall k :: 0 <= k < 97 && k != n ==> !Mod97(iban[2 := DigitOf(k / 10)][3 := DigitOf(k % 10)])
  {
    hide Mod97, Fold;
    var c := Normalize(iban);
    Accounted(iban);
    var rest := Fold(c[4..] + c[..2]);
    var moved: int := 100 * rest;
    n := Remainder(1 - moved);
    forall k | 0 <= k < 97 ensures Mod97(iban[2 := DigitOf(k / 10)][3 := DigitOf(k % 10)]) <==> k == n {
      WithDigits(iban, k);
      OneRemainder(moved, k);
    }
  }

  lemma OneRemainder(x: int, k: nat)
    requires k < 97
    ensures (x + k) % 97 == 1 <==> k == Remainder(1 - x)
  {
  }

  function Remainder(x: int): (r: nat)
    ensures r < 97
  {
    x % 97
  }

  lemma WithDigits(iban: string, k: nat)
    requires UpperCase(iban) && LooksLikeIban(iban) && k < 97
    ensures var c := Normalize(iban);
      && Alphanumeric(c[4..] + c[..2])
      && (Mod97(iban[2 := DigitOf(k / 10)][3 := DigitOf(k % 10)]) <==> (100 * Fold(c[4..] + c[..2]) + k) % 97 == 1)
  {
    hide Mod97, Fold;
    var c, other := Normalize(iban), iban[2 := DigitOf(k / 10)][3 := DigitOf(k % 10)];
    Accounted(iban);
    AcceptedIff(other);
    NormalizedAt(iban);
    NormalizedAt(other);
    assert Normalize(other)[4..] == c[4..] && Normalize(other)[..2] == c[..2];
    assert Read(other, 2) == DigitOf(k / 10) && Read(other, 3) == DigitOf(k % 10);
  }

  /** One more character of a string whose remainder is known. */
  lemma Onward(s: string, rest: nat, c: char, next: nat) returns (t: string)
    requires Alphanumeric(s) && Fold(s) == rest && (IsAlpha(c) || IsDigit(c)) && next == Step(rest, c)
    ensures t == s + [c] && Alphanumeric(t) && Fold(t) == next
  {
    hide Fold, Step;
    t := s + [c];
    FoldNext(s, c);
  }

  /** A number from practice, in whose country code an O stays a letter: with its check digits it is accepted, also with a
    * letter O for the zero in the account, and with no others. */
  lemma KnownNumber(d: char, e: char, zero: char)
    requires IsDigit(d) && IsDigit(e) && (zero == '0' || zero == 'O')
    ensures Mod97(['N', 'O', d, e, '8', '6', zero, '1', '1', '1', '1', '7', '9', '4', '7'])
            <==> (10 * Digit(d) + Digit(e)) % 97 == 93
  {
    hide Fold, Mod97, LooksLikeIban, UpperCase, Normalize, Alphanumeric;
    var iban := ['N', 'O', d, e, '8', '6', zero, '1', '1', '1', '1', '7', '9', '4', '7'];
    KnownShape(d, e, zero);
    KnownAccount(d, e, zero);
    AcceptedIff(iban);
    KnownRest();
  }

  lemma KnownShape(d: char, e: char, zero: char)
    requires IsDigit(d) && IsDigit(e) && (zero == '0' || zero == 'O')
    ensures var iban := ['N', 'O', d, e, '8', '6', zero, '1', '1', '1', '1', '7', '9', '4', '7'];
      LooksLikeIban(iban) && UpperCase(iban) && Read(iban, 2) == d && Read(iban, 3) == e
  {
  }

  lemma KnownAccount(d: char, e: char, zero: char)
    requires zero == '0' || zero == 'O'
    ensures var c := Normalize(['N', 'O', d, e, '8', '6', zero, '1', '1', '1', '1', '7', '9', '4', '7']);
      c[4..] + c[..2] == "86011117947NO"
  {
    hide Normalize;
    var iban := ['N', 'O', d, e, '8', '6', zero, '1', '1', '1', '1', '7', '9', '4', '7'];
    NormalizedAt(iban);
  }

  lemma KnownRest()
    ensures Alphanumeric("86011117947NO") && Fold("86011117947NO") == 34
  {
    hide Fold, Alphanumeric;
    EmptyFold();
    var s := "";
    s := Onward(s, 0, '8', 8);
    s := Onward(s, 8, '6', 86);
    s := Onward(s, 86, '0', 84);
    s := Onward(s, 84, '1', 65);
    s := Onward(s, 65, '1', 69);
    s := Onward(s, 69, '1', 12);
    s := Onward(s, 12, '1', 24);
    s := Onward(s, 24, '7', 53);
    s := Onward(s, 53, '9', 54);
    s := Onward(s, 54, '4', 59);
    s := Onward(s, 59, '7', 15);
    s := Onward(s, 15, 'N', 68);
    s := Onward(s, 68, 'O', 34);
    assert s == "86011117947NO";
  }

  lemma EmptyFold()
    ensures Alphanumeric("") && Fold("") == 0
  {
  }
}
