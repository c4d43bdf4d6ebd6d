/** The Assertion value contract and its two test doubles.

    An assertion offers an optional explanation, a list of arguments and a
    name. `Fake` carries a message that may be null (None) and reports it as
    both its explanation and its name, with the fixed arguments "0".."4".
    `Empty` is the null object: no explanation, no arguments, name "".
    Java's nullable String is Option<string> here, None standing for null.
 */
module Assertions {
  import opened Wrappers

  datatype Assertion = Fake(message: Option<string>) | Empty

  /** The no-argument Fake(): its message is a random token (a UUID string in
      the source), which enters here as a parameter. */
  function FakeOf(token: string): (a: Assertion)
    requires token != []
    ensures a.Fake? && Explanation(a) == Some(token) && Name(a) == Some(token)
    ensures Arguments(a) == ["0", "1", "2", "3", "4"]
  {
    Fake(Some(token))
  }

  /** explanation(): Optional.ofNullable(message) for Fake, Optional.empty() for Empty. */
  function Explanation(a: Assertion): (r: Option<string>)
    ensures a.Empty? ==> r.None?
    ensures a.Fake? ==> (r.Some? <==> a.message.Some?)
    ensures a.Fake? && r.Some? ==> r.value == a.message.value
  {
    match a
    case Fake(message) => message
    case Empty => None
  }

  /** The number a string of decimal digits denotes. */
  function DecimalValue(s: string): int
  {
    if s == [] then 0 else 10 * DecimalValue(s[..|s| - 1]) + (s[|s| - 1] as int - 48)
  }

  /** String.valueOf on a non-negative int: its decimal digits, without
      leading zeros, which read back as the number. */
  function Decimal(n: nat): (r: string)
    ensures r != []
    ensures forall i :: 0 <= i < |r| ==> '0' <= r[i] <= '9'
    ensures DecimalValue(r) == n
    ensures |r| > 1 ==> r[0] != '0'
    ensures |r| == 1 <==> n < 10
  {
    if n < 10 then [(48 + n) as char]
    else
      var init := Decimal(n / 10);
      var r := init + [(48 + n % 10) as char];
      assert r[..|r| - 1] == init;
      r
  }

  /** IntStream.range(lo, hi).mapToObj(String::valueOf), collected to a list. */
  function DecimalRange(lo: nat, hi: nat): (r: seq<string>)
    ensures |r| == if lo <= hi then hi - lo else 0
    ensures forall i :: 0 <= i < |r| ==> r[i] == Decimal(lo + i)
    decreases hi - lo
  {
    if lo >= hi then [] else [Decimal(lo)] + DecimalRange(lo + 1, hi)
  }

  /** arguments(): the five strings "0".."4" for every Fake; nothing for Empty. */
  function Arguments(a: Assertion): (r: seq<string>)
    ensures a.Fake? ==> r == ["0", "1", "2", "3", "4"]
    ensures a.Empty? ==> r == []
  {
    match a
    case Fake(_) =>
      var r := DecimalRange(0, 5);
      assert r[0] == "0" && r[1] == "1" && r[2] == "2" && r[3] == "3" && r[4] == "4";
      r
    case Empty => []
  }

  /** name(): the message itself (possibly null) for Fake, "" for Empty. */
  function Name(a: Assertion): (r: Option<string>)
    ensures a.Empty? ==> r == Some("")
    ensures a.Fake? ==> r == a.message
  {
    match a
    case Fake(message) => message
    case Empty => Some("")
  }

  /** A Fake's explanation is present exactly when its name is non-null, and
      then they are the same text. */
  lemma FakeExplanationIsName(a: Assertion)
    requires a.Fake?
    ensures Explanation(a) == Name(a)
    ensures Explanation(a).Some? <==> Name(a).Some?
  {
  }

  /** Fake(null) has no explanation (and a null name). */
  lemma FakeOfNullAbsent()
    ensures Explanation(Fake(None)).None? && Name(Fake(None)).None?
  {
  }

  /** Fake("") has a present, empty explanation: the contract does not rule
      out empty explanations. */
  lemma FakeOfEmptyPresent()
    ensures Explanation(Fake(Some(""))) == Some("")
  {
  }

  /** All Fakes share one argument list, whatever their messages. */
  lemma FakeArgumentsIgnoreMessage(m1: Option<string>, m2: Option<string>)
    ensures Arguments(Fake(m1)) == Arguments(Fake(m2))
    ensures |Arguments(Fake(m1))| == 5
  {
  }

  /** Empty has no explanation, no arguments and the empty name. */
  lemma EmptyShape()
    ensures Explanation(Empty).None? && Arguments(Empty) == [] && Name(Empty) == Some("")
  {
  }
}
