/** The few string operations of the Go library the models need. */
module Strings {
  import opened Prelude

  function IndexOf(s: string, c: char, from: nat): (r: Option<nat>)
    requires from <= |s|
    ensures r.Some? ==> from <= r.value < |s| && s[r.value] == c && c !in s[from..r.value]
    ensures r == None ==> c !in s[from..]
    decreases |s| - from
  {
    if from == |s| then None
    else if s[from] == c then Some(from)
    else
      assert s[from..] == [s[from]] + s[from + 1..];
      var r := IndexOf(s, c, from + 1);
      assert r.Some? ==> s[from..r.value] == [s[from]] + s[from + 1..r.value];
      r
  }

  predicate IsDigit(c: char) { '0' <= c <= '9' }

  function Digits(s: string): Option<nat> {
    if s == "" then Some(0)
    else
      var front := Digits(s[..|s| - 1]);
      if front == None || !IsDigit(s[|s| - 1]) then None
      else Some(front.value * 10 + (s[|s| - 1] as int - '0' as int))
  }

  const MAX_INT := 0x7fff_ffff_ffff_ffff

  /** `strconv.Atoi`: an optional sign, at least one digit, and a result that fits 64 bits. */
  function Atoi(s: string): Option<int> {
    var signed := s != "" && (s[0] == '-' || s[0] == '+');
    var digits := if signed then s[1..] else s;
    var n := Digits(digits);
    if digits == "" || n == None then None
    else
      var v: int := if signed && s[0] == '-' then 0 - n.value as int else n.value as int;
      if -MAX_INT - 1 <= v <= MAX_INT then Some(v) else None
  }
}
