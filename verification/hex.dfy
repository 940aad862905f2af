/** Hexadecimal digits, as JSON string escapes and percent-encoding write and read them. */
module Hex {
  import opened Wrappers

  function LowerDigit(n: nat): char
    requires n < 16
  {
    if n < 10 then '0' + n as char else 'a' + (n - 10) as char
  }

  function UpperDigit(n: nat): char
    requires n < 16
  {
    if n < 10 then '0' + n as char else 'A' + (n - 10) as char
  }

  function Value(c: char): Option<nat> {
    if '0' <= c <= '9' then Some(c as int - '0' as int)
    else if 'a' <= c <= 'f' then Some(c as int - 'a' as int + 10)
    else if 'A' <= c <= 'F' then Some(c as int - 'A' as int + 10)
    else None
  }

  lemma RoundTrip(n: nat)
    requires n < 16
    ensures Value(LowerDigit(n)) == Some(n) && Value(UpperDigit(n)) == Some(n)
  {
  }
}
