/** The verification-code generator of internal/pkg/util/snowflake.go. */
module Snowflake {
  import opened Strs

  /** GenValidateCode(width): `width` decimal digits; the i-th is the i-th
      number `draw(i)` that the random source (rand.Intn(10)) yields. */
  method GenValidateCode(width: int, draw: nat -> nat) returns (code: string)
    requires forall i :: draw(i) < 10
    ensures |code| == if width < 0 then 0 else width
    ensures IsDigits(code)
    ensures forall i :: 0 <= i < |code| ==> code[i] == DigitChar(draw(i))
  {
    var sb := "";
    var i := 0;
    while i < width
      invariant 0 <= i && (width >= 0 ==> i <= width) && (width < 0 ==> i == 0)
      invariant |sb| == i
      invariant forall j :: 0 <= j < i ==> sb[j] == DigitChar(draw(j))
    {
      sb := sb + [DigitChar(draw(i))];
      i := i + 1;
    }
    code := sb;
  }
}
