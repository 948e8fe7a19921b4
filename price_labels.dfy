/** The en-US rendering of whole dollar amounts used by the catalog's "Starting at $N" labels. */
module PriceLabels {
  function DigitChar(k: nat): char
    requires k < 10
  {
    "0123456789"[k]
  }

  /** Exactly three digits, zero-padded. */
  function Pad3(n: nat): string
    requires n < 1000
  {
    [DigitChar(n / 100), DigitChar(n / 10 % 10), DigitChar(n % 10)]
  }

  /** The digits of `n < 1000` without leading zeros. */
  function Short(n: nat): string
    requires n < 1000
  {
    if n < 10 then [DigitChar(n)] else if n < 100 then [DigitChar(n / 10), DigitChar(n % 10)] else Pad3(n)
  }

  /** `n.toLocaleString()` in the en-US locale: digits grouped by three with commas. */
  function Grouped(n: nat): string {
    if n < 1000 then Short(n) else Grouped(n / 1000) + "," + Pad3(n % 1000)
  }

  function StartingAt(n: nat): string {
    "Starting at $" + Grouped(n)
  }

  // ---------------------------------------------------------------------------------------------
  // Reading a grouped amount back

  /** The plain decimal numeral of `n`, without separators or leading zeros. */
  function Digits(n: nat): string {
    if n < 10 then [DigitChar(n)] else Digits(n / 10) + [DigitChar(n % 10)]
  }

  /** The text with its thousands separators removed. */
  function Ungroup(s: string): string {
    if s == [] then [] else (if s[0] == ',' then [] else [s[0]]) + Ungroup(s[1..])
  }

  /** The value of a decimal digit. */
  function DigitValue(c: char): nat {
    if '0' <= c <= '9' then (c as int - '0' as int) else 0
  }

  /** The number a string of decimal digits denotes. */
  function Value(s: string): nat {
    if s == [] then 0 else 10 * Value(s[..|s| - 1]) + DigitValue(s[|s| - 1])
  }

  /** A numeral reads back as the number it was made from. */
  lemma {:induction false} DigitsValue(n: nat)
    ensures Value(Digits(n)) == n
  {
    var s := Digits(n);
    if n >= 10 {
      assert s[..|s| - 1] == Digits(n / 10);
      DigitsValue(n / 10);
    }
  }

  /** Removing the separators distributes over concatenation. */
  lemma {:induction false} UngroupAppend(s: string, t: string)
    ensures Ungroup(s + t) == Ungroup(s) + Ungroup(t)
  {
    if s == [] {
      assert s + t == t;
    } else {
      var head := if s[0] == ',' then [] else [s[0]];
      assert (s + t)[0] == s[0] && (s + t)[1..] == s[1..] + t;
      UngroupAppend(s[1..], t);
      assert Ungroup(s + t) == head + (Ungroup(s[1..]) + Ungroup(t));
    }
  }

  /** A string of digits has no separators to remove. */
  lemma {:induction false} UngroupDigitsOnly(s: string)
    requires forall i :: 0 <= i < |s| ==> s[i] != ','
    ensures Ungroup(s) == s
  {
    if s != [] {
      UngroupDigitsOnly(s[1..]);
    }
  }

  /** The last three decimal digits of `n`, read off by repeated division by ten. */
  lemma LastThreeDigits(n: nat)
    ensures n / 10 / 10 == n / 100 && n / 100 / 10 == n / 1000
    ensures n % 1000 / 100 == n / 100 % 10 && n % 1000 / 10 % 10 == n / 10 % 10 && n % 1000 % 10 == n % 10
  {
  }

  /** The plain numeral of `n >= 1000` is that of `n / 1000` followed by the last three digits. */
  lemma DigitsSplit(n: nat)
    requires n >= 1000
    ensures Digits(n) == Digits(n / 1000) + Pad3(n % 1000)
  {
    LastThreeDigits(n);
    var a, b, c := n / 10, n / 100, n / 1000;
    var x, y, z := DigitChar(b % 10), DigitChar(a % 10), DigitChar(n % 10);
    assert Pad3(n % 1000) == [x, y, z];
    assert Digits(n) == Digits(a) + [z];
    assert Digits(a) == Digits(b) + [y];
    assert Digits(b) == Digits(c) + [x];
  }

  /** Below 1000 the short form is the plain numeral. */
  lemma ShortDigits(n: nat)
    requires n < 1000
    ensures Short(n) == Digits(n)
  {
    if n >= 10 {
      assert Digits(n) == Digits(n / 10) + [DigitChar(n % 10)];
      if n >= 100 {
        assert n / 10 / 10 == n / 100 && n / 10 % 10 == n / 10 % 10;
      }
    }
  }

  /** A comma between a text and a run of digits drops out when the separators are removed. */
  lemma UngroupStep(head: string, tail: string)
    requires forall i :: 0 <= i < |tail| ==> tail[i] != ','
    ensures Ungroup(head + "," + tail) == Ungroup(head) + tail
  {
    UngroupAppend(head + ",", tail);
    UngroupAppend(head, ",");
    assert Ungroup(",") == [] by {
      assert ","[1..] == [];
    }
    UngroupDigitsOnly(tail);
  }

  /** Below 1000 the rendering has no separator and is the plain numeral. */
  lemma UngroupShort(n: nat)
    requires n < 1000
    ensures Ungroup(Short(n)) == Digits(n)
  {
    ShortDigits(n);
    UngroupDigitsOnly(Short(n));
  }

  /** The separator before the last three digits drops out. */
  lemma UngroupPad3(head: string, r: nat)
    requires r < 1000
    ensures Ungroup(head + "," + Pad3(r)) == Ungroup(head) + Pad3(r)
  {
    UngroupStep(head, Pad3(r));
  }

  /** Removing the commas of the en-US rendering leaves the plain numeral of the amount. */
  lemma {:induction false} GroupedDigits(n: nat)
    ensures Ungroup(Grouped(n)) == Digits(n)
  {
    if n < 1000 {
      UngroupShort(n);
    } else {
      var q, r := n / 1000, n % 1000;
      UngroupPad3(Grouped(q), r);
      GroupedDigits(q);
      DigitsSplit(n);
    }
  }

  /** A rendered amount reads back as the amount: grouping changes how an amount is written, never
      which amount it is. */
  lemma GroupedValue(n: nat)
    ensures Value(Ungroup(Grouped(n))) == n
  {
    GroupedDigits(n);
    DigitsValue(n);
  }

  // The six amounts of the catalog, one lemma each so that every string comparison stays small.

  lemma StartingAt250000()
    ensures StartingAt(250000) == "Starting at $250,000"
  {
  }

  lemma StartingAt350000()
    ensures StartingAt(350000) == "Starting at $350,000"
  {
  }

  lemma StartingAt850000()
    ensures StartingAt(850000) == "Starting at $850,000"
  {
  }

  lemma StartingAt1200000()
    ensures StartingAt(1200000) == "Starting at $1,200,000"
  {
  }

  lemma StartingAt1500000()
    ensures StartingAt(1500000) == "Starting at $1,500,000"
  {
  }

  lemma StartingAt2000000()
    ensures StartingAt(2000000) == "Starting at $2,000,000"
  {
  }

  /** The six "Starting at" labels of the catalog, selected by amount. */
  lemma StartingAtLabel(n: nat)
    ensures n == 250000 ==> StartingAt(n) == "Starting at $250,000"
    ensures n == 350000 ==> StartingAt(n) == "Starting at $350,000"
    ensures n == 850000 ==> StartingAt(n) == "Starting at $850,000"
    ensures n == 1200000 ==> StartingAt(n) == "Starting at $1,200,000"
    ensures n == 1500000 ==> StartingAt(n) == "Starting at $1,500,000"
    ensures n == 2000000 ==> StartingAt(n) == "Starting at $2,000,000"
  {
    if n == 250000 {
      StartingAt250000();
    } else if n == 350000 {
      StartingAt350000();
    } else if n == 850000 {
      StartingAt850000();
    } else if n == 1200000 {
      StartingAt1200000();
    } else if n == 1500000 {
      StartingAt1500000();
    } else if n == 2000000 {
      StartingAt2000000();
    }
  }
}
