/** Decimal printing: the loop of formatOpsInt and the ids built from counters. */
module Decimal {

  function DigitChar(d: nat): (c: char)
    requires d < 10
    ensures '0' <= c <= '9' && c as int - '0' as int == d
  {
    '0' + d as char
  }

  predicate Digits(s: string) {
    forall i :: 0 <= i < |s| ==> '0' <= s[i] <= '9'
  }

  /** What %d prints for a natural number. */
  function Print(n: nat): (s: string)
    ensures Digits(s) && s != ""
    ensures n > 0 ==> s[0] != '0'
    ensures Parse(s) == n
  {
    if n < 10 then [DigitChar(n)] else
      var s := Print(n / 10) + [DigitChar(n % 10)];
      assert s[..|s| - 1] == Print(n / 10);
      s
  }

  /** The number a digit string denotes. */
  function Parse(s: string): nat
    requires Digits(s)
  {
    if s == "" then 0 else 10 * Parse(s[..|s| - 1]) + (s[|s| - 1] as int - '0' as int)
  }

  /** n divided by ten k times. */
  function Shift(n: nat, k: nat): nat {
    if k == 0 then n else Shift(n / 10, k - 1)
  }

  /** Place k from the right holds the decimal digit left over after k divisions by ten, and the
      places end where nothing is left. */
  lemma {:induction false} PrintDigits(n: nat, k: nat)
    requires k < |Print(n)|
    ensures Print(n)[|Print(n)| - 1 - k] as int - '0' as int == Shift(n, k) % 10
    ensures Shift(n, |Print(n)|) == 0 && (|Print(n)| > 1 ==> Shift(n, |Print(n)| - 1) > 0)
    decreases n
  {
    if n >= 10 {
      PrintDigits(n / 10, if k > 0 then k - 1 else 0);
      assert |Print(n)| == |Print(n / 10)| + 1;
    }
  }

  /** The digits still to be printed: none for zero. */
  function PrintRest(n: nat): string {
    if n == 0 then "" else Print(n)
  }

  lemma PrintOneDigit(n: nat, out: string)
    requires n > 0
    ensures PrintRest(n) + out == PrintRest(n / 10) + ([DigitChar(n % 10)] + out)
  {
  }

  /** ops_http.go's formatOpsInt: the empty string for a negative value. */
  method FormatOpsInt(value: int) returns (out: string)
    ensures out == if value >= 0 then Print(value) else ""
    ensures Digits(out) && (Parse(out) == value <==> value >= 0)
  {
    if value == 0 {
      return "0";
    }
    out := "";
    var rest := value;
    while rest > 0
      invariant rest <= value
      invariant value < 0 ==> rest == value && out == ""
      invariant value > 0 ==> rest >= 0 && Print(value) == PrintRest(rest) + out
    {
      PrintOneDigit(rest, out);
      out := [DigitChar(rest % 10)] + out;
      rest := rest / 10;
    }
    assert value > 0 ==> PrintRest(0) + out == out;
  }

  function Zeros(k: nat): (z: string)
    ensures |z| == k && forall i :: 0 <= i < k ==> z[i] == '0'
  {
    seq(k, _ => '0')
  }

  /** What %06d prints. */
  function Pad6(n: nat): string {
    var s := Print(n);
    if |s| < 6 then Zeros(6 - |s|) + s else s
  }

  /** At least six characters, zeros in front of the digits as far as needed and no further. */
  lemma PadExactly(n: nat)
    ensures var s, k := Pad6(n), |Print(n)|;
            && |s| == (if k < 6 then 6 else k) && s[|s| - k..] == Print(n)
            && forall i :: 0 <= i < |s| - k ==> s[i] == '0'
  {
  }

  lemma {:induction false} LeadingZeros(k: nat, s: string)
    requires Digits(s)
    ensures Digits(Zeros(k) + s) && Parse(Zeros(k) + s) == Parse(s)
  {
    var z := Zeros(k) + s;
    if s != "" {
      assert z[..|z| - 1] == Zeros(k) + s[..|s| - 1];
      LeadingZeros(k, s[..|s| - 1]);
    } else if k > 0 {
      assert z[..|z| - 1] == Zeros(k - 1) + "";
      LeadingZeros(k - 1, "");
    }
  }

  /** Distinct counters print differently, padded or not. */
  lemma PrintInjective(m: nat, n: nat)
    ensures Print(m) == Print(n) ==> m == n
    ensures Pad6(m) == Pad6(n) ==> m == n
  {
    forall k | k == m || k == n
      ensures Digits(Pad6(k)) && Parse(Pad6(k)) == k
    {
      if |Print(k)| < 6 { LeadingZeros(6 - |Print(k)|, Print(k)); }
    }
  }

  /** ops_batch.go's batch id for an owner and a sequence number. */
  function BatchID(owner: string, n: nat): string {
    "batch-" + owner + "-" + Print(n)
  }

  /** A fixed word, the owner and the number, hyphens between. */
  lemma BatchIDText(owner: string, n: nat)
    ensures var id := BatchID(owner, n);
            && |id| == 7 + |owner| + |Print(n)| && id[..6] == "batch-" && id[6..6 + |owner|] == owner
            && id[6 + |owner|] == '-' && id[7 + |owner|..] == Print(n)
  {
  }

  /** The number is recoverable from the id, whatever hyphens the owners contain. */
  lemma BatchIDInjective(owner1: string, n1: nat, owner2: string, n2: nat)
    requires BatchID(owner1, n1) == BatchID(owner2, n2)
    ensures n1 == n2 && owner1 == owner2
  {
    var id, d1, d2 := BatchID(owner1, n1), Print(n1), Print(n2);
    assert id[|id| - 1 - |d1|] == '-' && forall i :: |id| - |d1| <= i < |id| ==> id[i] == d1[i - (|id| - |d1|)];
    assert id[|id| - 1 - |d2|] == '-' && forall i :: |id| - |d2| <= i < |id| ==> id[i] == d2[i - (|id| - |d2|)];
    assert |d1| == |d2|;
    assert d1 == id[|id| - |d1|..] == d2;
    PrintInjective(n1, n2);
    assert owner1 == id[6..|id| - 1 - |d1|] == owner2;
  }
}
