/** Text helpers the gateway and the simulator both rely on: decimal
    rendering of integers (Rust `{}` / Python `str` of an integer), ASCII
    lower-casing, and the `{name}-House-{id}` entity naming convention. */
module Text {

  predicate IsDigit(c: char) { '0' <= c <= '9' }

  function DigitChar(d: nat): (c: char)
    requires d < 10
    ensures IsDigit(c)
  {
    "0123456789"[d]
  }

  /** Decimal rendering without sign or leading zeros. */
  function DecimalString(n: nat): (s: string)
    ensures |s| >= 1
    ensures forall i :: 0 <= i < |s| ==> IsDigit(s[i])
    decreases n
  {
    if n < 10 then [DigitChar(n)] else DecimalString(n / 10) + [DigitChar(n % 10)]
  }

  lemma DigitCharInjective(a: nat, b: nat)
    requires a < 10 && b < 10 && DigitChar(a) == DigitChar(b)
    ensures a == b
  {
  }

  /** Different integers render differently, so an id can be read back from its text. */
  lemma {:induction false} DecimalStringInjective(a: nat, b: nat)
    requires DecimalString(a) == DecimalString(b)
    ensures a == b
    decreases a
  {
    var sa, sb := DecimalString(a), DecimalString(b);
    if a < 10 && b < 10 {
      DigitCharInjective(a, b);
    } else if a >= 10 && b >= 10 {
      var pa, pb := DecimalString(a / 10), DecimalString(b / 10);
      assert sa == pa + [DigitChar(a % 10)];
      assert sb == pb + [DigitChar(b % 10)];
      assert |pa| == |pb|;
      assert sa[|sa| - 1] == DigitChar(a % 10) && sb[|sb| - 1] == DigitChar(b % 10);
      DigitCharInjective(a % 10, b % 10);
      assert pa == sa[..|sa| - 1] == sb[..|sb| - 1] == pb;
      DecimalStringInjective(a / 10, b / 10);
    }
  }

  /** The separator both sides put between a device name and a house number. */
  const HouseInfix: string := "-House-"

  /** `format!("{name}-House-{house_id}")`. */
  function HouseScoped(name: string, houseId: nat): (s: string)
    ensures |s| == |name| + |HouseInfix| + |DecimalString(houseId)|
    ensures s[..|name|] == name
    ensures s[|name|..|name| + |HouseInfix|] == HouseInfix
    ensures s[|name| + |HouseInfix|..] == DecimalString(houseId)
  {
    name + HouseInfix + DecimalString(houseId)
  }

  /** For a fixed device name the house number can be read back. */
  lemma HouseScopedInjective(name: string, a: nat, b: nat)
    requires HouseScoped(name, a) == HouseScoped(name, b)
    ensures a == b
  {
    var k := |name| + |HouseInfix|;
    assert DecimalString(a) == HouseScoped(name, a)[k..] == HouseScoped(name, b)[k..] == DecimalString(b);
    DecimalStringInjective(a, b);
  }

  /** ASCII lower-casing of one character (Python `str.lower` on A-Z). */
  function LowerChar(c: char): (d: char)
    ensures 'A' <= c <= 'Z' ==> 'a' <= d <= 'z'
    ensures !('A' <= c <= 'Z') ==> d == c
  {
    if 'A' <= c <= 'Z' then (c as int - 'A' as int + 'a' as int) as char else c
  }

  function Lower(s: string): (r: string)
    ensures |r| == |s|
    ensures forall i :: 0 <= i < |s| ==> r[i] == LowerChar(s[i])
  {
    seq(|s|, i requires 0 <= i < |s| => LowerChar(s[i]))
  }

  predicate HasNoUpper(s: string) { forall i :: 0 <= i < |s| ==> !('A' <= s[i] <= 'Z') }

  /** Lower-casing is idempotent and leaves text without capitals alone. */
  lemma LowerIdempotent(s: string)
    ensures HasNoUpper(Lower(s))
    ensures Lower(Lower(s)) == Lower(s)
    ensures HasNoUpper(s) ==> Lower(s) == s
  {
  }
}
