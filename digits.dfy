/** Conversions between digit values and characters (`itoc`, `ctoi`, `isDigits`). */
module Digits {
  import opened Wrappers
  import Strings

  const DigitChars: set<char> := {'0', '1', '2', '3', '4', '5', '6', '7', '8', '9'}

  predicate IsDigitChar(c: char) {
    '0' <= c <= '9'
  }

  /**
   * `itoc`: the character `d` places after '0'. The C++ conversion to
   * `char` keeps the low eight bits, so the code is taken modulo 256.
   */
  function Itoc(d: int): (c: char)
    ensures c as int < 256
    ensures 0 <= d <= 9 ==> IsDigitChar(c) && Ctoi(c) == d
  {
    ((d + '0' as int) % 256) as char
  }

  /** `ctoi`: the offset of `c` from '0'; a digit value exactly for the ten digits. */
  function Ctoi(c: char): (d: int)
    ensures IsDigitChar(c) <==> 0 <= d <= 9
  {
    c as int - '0' as int
  }

  /** A digit character survives the round trip through its value. */
  lemma ItocCtoi(c: char)
    requires IsDigitChar(c)
    ensures Itoc(Ctoi(c)) == c
  {
  }

  /** `isDigits`: no character outside '0'..'9' is found. */
  function IsDigits(s: string): (b: bool)
    ensures b <==> forall k :: 0 <= k < |s| ==> IsDigitChar(s[k])
  {
    Strings.FindFirstNotOf(s, DigitChars, 0).None?
  }
}
