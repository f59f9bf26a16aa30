/**
 * The `points` state as JavaScript actually holds it. It starts as the number 0,
 * but `refreshPoints` stores the empty string in it. After that, a draw's
 * `points + 100 * multiplier` is string concatenation with the award's decimal
 * form, not addition. Module GameModel keeps points an integer and resets it to 0;
 * this module records what the code as written does instead.
 */
module JsPoints {

  /** A JavaScript value that `points` can hold: a number or a string. */
  datatype JsValue = Num(n: int) | Str(s: string)

  /** The digit character for 0..9. */
  function Digit(d: nat): (c: char)
    requires d < 10
    ensures '0' <= c <= '9' && c as int - '0' as int == d
  {
    (d + '0' as int) as char
  }

  predicate IsDigits(s: string)
  {
    forall i :: 0 <= i < |s| ==> '0' <= s[i] <= '9'
  }

  /** The decimal form JavaScript gives a non-negative integer when it turns it into a string. */
  function Decimal(n: nat): (r: string)
    ensures |r| > 0 && IsDigits(r)
    ensures |r| > 1 ==> r[0] != '0'
  {
    if n < 10 then [Digit(n)] else Decimal(n / 10) + [Digit(n % 10)]
  }

  /** The number a string of decimal digits denotes. */
  function ParseDecimal(s: string): nat
    requires IsDigits(s)
  {
    if s == [] then 0 else ParseDecimal(s[..|s| - 1]) * 10 + (s[|s| - 1] as int - '0' as int)
  }

  /** Reading back the decimal form of a number gives the number. */
  lemma {:induction false} DecimalRoundTrip(n: nat)
    ensures ParseDecimal(Decimal(n)) == n
  {
    if n >= 10 {
      var r := Decimal(n);
      assert r[..|r| - 1] == Decimal(n / 10);
      DecimalRoundTrip(n / 10);
    }
  }

  /** `points + award` as JavaScript evaluates it: addition on a number, concatenation on a string. */
  function Plus(points: JsValue, award: nat): JsValue
  {
    match points
    case Num(n) => Num(n + award)
    case Str(s) => Str(s + Decimal(award))
  }

  /** The points after a series of draws awarding `awards`, in order. */
  function Accumulate(points: JsValue, awards: seq<nat>): JsValue
    decreases |awards|
  {
    if awards == [] then points else Accumulate(Plus(points, awards[0]), awards[1..])
  }

  function Sum(awards: seq<nat>): nat
  {
    if awards == [] then 0 else awards[0] + Sum(awards[1..])
  }

  /** The decimal forms of all awards, written one after the other. */
  function Concat(awards: seq<nat>): string
  {
    if awards == [] then "" else Decimal(awards[0]) + Concat(awards[1..])
  }

  /** While points hold a number, every draw adds its award: the total is the sum. */
  lemma {:induction false} NumericAccumulates(n: int, awards: seq<nat>)
    ensures Accumulate(Num(n), awards) == Num(n + Sum(awards))
    decreases |awards|
  {
    if awards != [] {
      NumericAccumulates(n + awards[0], awards[1..]);
    }
  }

  /** Once points hold a string, no draw makes them a number again: the awards are only appended. */
  lemma {:induction false} StringAccumulates(s: string, awards: seq<nat>)
    ensures Accumulate(Str(s), awards) == Str(s + Concat(awards))
    decreases |awards|
  {
    if awards != [] {
      StringAccumulates(s + Decimal(awards[0]), awards[1..]);
      assert (s + Decimal(awards[0])) + Concat(awards[1..]) == s + Concat(awards);
    }
  }

  /** Two draws of 200 written out: "200" followed by "200". */
  lemma TwoAwardsOf200()
    ensures Concat([200, 200]) == "200200"
  {
    assert Decimal(20) == Decimal(2) + ['0'];
    assert Decimal(200) == "200";
    assert [200, 200][1..] == [200];
    assert Concat([200]) == "200";
  }

  /**
   * Refreshing as written (points become "") and then winning 200 twice shows
   * "200200" where the integer reading of the game gives 400.
   */
  lemma AsWrittenResetConcatenates()
    ensures Accumulate(Str(""), [200, 200]) == Str("200200")
    ensures Accumulate(Num(0), [200, 200]) == Num(400)
  {
    TwoAwardsOf200();
    StringAccumulates("", [200, 200]);
    NumericAccumulates(0, [200, 200]);
  }

}
