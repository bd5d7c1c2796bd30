/**
 * What the overlay's chrome shows, as text: the "i / N" position counter
 * and the caption line under the image.
 */
module Display {
  import opened Images

  predicate IsDigit(c: char) { '0' <= c <= '9' }

  predicate AllDigits(s: string) { forall i :: 0 <= i < |s| ==> IsDigit(s[i]) }

  function DigitChar(d: nat): (c: char)
    requires d < 10
    ensures IsDigit(c) && c as int - '0' as int == d
  {
    ('0' as int + d) as char
  }

  /** The decimal numeral of `n`, as JavaScript's template literal writes an integer. */
  function Digits(n: nat): (s: string)
    ensures |s| >= 1 && AllDigits(s)
    ensures n >= 10 ==> s[0] != '0'
  {
    if n < 10 then [DigitChar(n)] else Digits(n / 10) + [DigitChar(n % 10)]
  }

  /** The number a string of decimal digits denotes. */
  function ValueOf(s: string): (v: nat)
    requires AllDigits(s)
  {
    if s == [] then 0 else 10 * ValueOf(s[..|s| - 1]) + (s[|s| - 1] as int - '0' as int)
  }

  /** Reading the numeral back gives the number: Digits loses nothing. */
  lemma {:induction false} ValueOfDigits(n: nat)
    ensures ValueOf(Digits(n)) == n
  {
    if n >= 10 {
      var s := Digits(n);
      assert s[..|s| - 1] == Digits(n / 10);
      ValueOfDigits(n / 10);
    }
  }

  /** Distinct numbers have distinct numerals. */
  lemma DigitsInjective(m: nat, n: nat)
    requires Digits(m) == Digits(n)
    ensures m == n
  {
    ValueOfDigits(m);
    ValueOfDigits(n);
  }

  /** The counter badge text for the 0-based `index` among `total` images: "{index+1} / {total}". */
  function CounterText(index: nat, total: nat): (t: string)
  {
    Digits(index + 1) + " / " + Digits(total)
  }

  /**
   * The counter text reads back: a numeral, " / ", and a second numeral, the
   * first denoting the 1-based position and the second the total.
   */
  lemma CounterTextReadsBack(index: nat, total: nat)
    ensures var t, p := CounterText(index, total), |Digits(index + 1)|;
      && p + 3 <= |t| && t[p..p + 3] == " / "
      && AllDigits(t[..p]) && ValueOf(t[..p]) == index + 1
      && AllDigits(t[p + 3..]) && ValueOf(t[p + 3..]) == total
  {
    var a, b := Digits(index + 1), Digits(total);
    ValueOfDigits(index + 1);
    ValueOfDigits(total);
    assert (a + " / " + b)[..|a|] == a;
    assert (a + " / " + b)[|a| + 3..] == b;
  }

  /**
   * The counter text determines the position and the total: two badges read
   * the same only when they show the same position of the same count.
   */
  lemma {:induction false} CounterTextInjective(i1: nat, n1: nat, i2: nat, n2: nat)
    requires CounterText(i1, n1) == CounterText(i2, n2)
    ensures i1 == i2 && n1 == n2
  {
    var t := CounterText(i1, n1);
    var a1, a2 := Digits(i1 + 1), Digits(i2 + 1);
    // the space after each numeral sits where the other numeral would have a digit if it were longer
    assert t[|a1|] == ' ' && t[|a2|] == ' ';
    assert forall k :: 0 <= k < |a2| ==> t[k] == a2[k];
    assert forall k :: 0 <= k < |a1| ==> t[k] == a1[k];
    assert a1 == t[..|a1|] == a2;
    DigitsInjective(i1 + 1, i2 + 1);
    assert Digits(n1) == t[|a1| + 3..] == Digits(n2);
    DigitsInjective(n1, n2);
  }

  /** The caption text after a successful load: the title, or the alt text when the title is empty. */
  function TitleText(d: ImageRef): (t: string)
    ensures t == d.title || t == d.alt
    ensures d.title != "" ==> t == d.title
    ensures t == "" <==> d.title == "" && d.alt == ""
  {
    if d.title != "" then d.title else d.alt
  }

  /** The caption is displayed only for an image with a non-empty title. */
  predicate TitleShown(d: ImageRef): (b: bool)
    ensures b ==> TitleText(d) == d.title
    ensures !b ==> TitleText(d) == d.alt
  {
    d.title != ""
  }

  /** For an image read from a card the caption text is never empty, whether shown or not. */
  lemma CardCaption(c: Card)
    ensures var d := ImageRefOf(c);
      TitleText(d) != ""
      && (TitleShown(d) ==> TitleText(d) == d.title)
      && (!TitleShown(d) ==> TitleText(d) == d.alt)
  {
  }
}
