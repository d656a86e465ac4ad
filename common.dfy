// Shared vocabulary of the price aggregator: optional values, results,
// the three storefronts, and the JavaScript coercions the services rely on
// (truthiness of strings and numbers, Math.round, String(n), join, slice).

module Common {

  datatype Option<T> = None | Some(value: T)

  datatype Result<T> = Ok(value: T) | Err(error: string)

  /** The storefronts the aggregator knows about. */
  datatype Platform = Steam | Epic | Gog

  /** The order in which the routers and the status report visit platforms. */
  const AllPlatforms: seq<Platform> := [Steam, Epic, Gog]

  /** The lower-case identifier stored in the database and used in URLs. */
  function PlatformName(p: Platform): (r: string)
    ensures |r| >= 3
  {
    match p
    case Steam => "steam"
    case Epic => "epic"
    case Gog => "gog"
  }

  /** A stored string flag: the columns hold 'true', 'false' or something else. */
  datatype Flag = FlagTrue | FlagFalse | FlagOther

  // ---------------------------------------------------------------------
  // JavaScript truthiness.  `undefined`/`null` is None; the empty string
  // and the number 0 are the falsy present values.

  predicate TruthyStr(s: Option<string>) {
    s.Some? && s.value != ""
  }

  predicate TruthyNat(n: Option<nat>) {
    n.Some? && n.value != 0
  }

  predicate TruthyInt(n: Option<int>) {
    n.Some? && n.value != 0
  }

  /** `a || b` on optional strings. */
  function OrStr(a: Option<string>, b: Option<string>): (r: Option<string>)
    ensures TruthyStr(a) ==> r == a
    ensures !TruthyStr(a) ==> r == b
  {
    if TruthyStr(a) then a else b
  }

  /** `a || fallback` where the fallback is a present string. */
  function StrOr(a: Option<string>, fallback: string): (r: string)
    ensures TruthyStr(a) ==> r == a.value
    ensures !TruthyStr(a) ==> r == fallback
  {
    if TruthyStr(a) then a.value else fallback
  }

  /** `a || null` on optional strings: falsy values collapse to null. */
  function NonEmpty(a: Option<string>): (r: Option<string>)
    ensures r.Some? <==> TruthyStr(a)
    ensures r.Some? ==> r == a
  {
    if TruthyStr(a) then a else None
  }

  /** `n || null` on an optional amount, as a JavaScript number. */
  function AmountOrNull(n: Option<nat>): (r: Option<real>)
    ensures r.Some? <==> TruthyNat(n)
    ensures r.Some? ==> r.value == n.value as real && r.value > 0.0
  {
    if TruthyNat(n) then Some(n.value as real) else None
  }

  /** `n || 0` on an optional integer. */
  function IntOrZero(n: Option<int>): (r: int)
    ensures n.Some? ==> r == n.value
    ensures n.None? ==> r == 0
  {
    if n.Some? then n.value else 0
  }

  // ---------------------------------------------------------------------
  // Numbers.

  /** Math.round: the nearest integer, halves rounded towards +infinity. */
  function JsRound(x: real): (r: int)
    ensures r as real <= x + 0.5 < r as real + 1.0
  {
    (x + 0.5).Floor
  }

  function Pow2(k: nat): (r: nat)
    ensures r >= 1
  {
    if k == 0 then 1 else 2 * Pow2(k - 1)
  }

  function DigitChar(d: nat): (c: char)
    requires d < 10
    ensures '0' <= c <= '9'
  {
    "0123456789"[d]
  }

  /** String(n) for a non-negative integer: its decimal digits. */
  function NatToString(n: nat): (s: string)
    ensures |s| >= 1
    ensures forall i :: 0 <= i < |s| ==> '0' <= s[i] <= '9'
    ensures |s| > 1 ==> s[0] != '0'
  {
    if n < 10 then [DigitChar(n)] else NatToString(n / 10) + [DigitChar(n % 10)]
  }

  /** parseInt on the leading decimal digits of a string; None is NaN. */
  function ParseDigits(s: string): (r: Option<nat>)
    ensures r.None? <==> (|s| == 0 || !('0' <= s[0] <= '9'))
  {
    if |s| == 0 || !('0' <= s[0] <= '9') then None
    else Some(DigitsValue(s, LeadingDigits(s)))
  }

  function LeadingDigits(s: string): (k: nat)
    ensures k <= |s|
    ensures forall i :: 0 <= i < k ==> '0' <= s[i] <= '9'
    ensures k < |s| ==> !('0' <= s[k] <= '9')
  {
    if |s| == 0 || !('0' <= s[0] <= '9') then 0 else 1 + LeadingDigits(s[1..])
  }

  function DigitsValue(s: string, k: nat): nat
    requires k <= |s|
    requires forall i :: 0 <= i < k ==> '0' <= s[i] <= '9'
  {
    if k == 0 then 0 else 10 * DigitsValue(s, k - 1) + (s[k - 1] as int - '0' as int)
  }

  lemma {:induction false} ParseDigitsOfNatToString(n: nat)
    ensures ParseDigits(NatToString(n)) == Some(n)
  {
    var s := NatToString(n);
    assert LeadingDigits(s) == |s| by { LeadingDigitsAll(s); }
    DigitsValueOfNatToString(n);
  }

  lemma {:induction false} LeadingDigitsAll(s: string)
    requires forall i :: 0 <= i < |s| ==> '0' <= s[i] <= '9'
    ensures LeadingDigits(s) == |s|
  {
    if |s| > 0 {
      LeadingDigitsAll(s[1..]);
    }
  }

  lemma {:induction false} DigitsValueOfNatToString(n: nat)
    ensures DigitsValue(NatToString(n), |NatToString(n)|) == n
  {
    if n >= 10 {
      var p := NatToString(n / 10);
      DigitsValueOfNatToString(n / 10);
      DigitsValueAppend(p, DigitChar(n % 10));
      DigitCharValue(n % 10);
    } else {
      DigitCharValue(n);
    }
  }

  lemma DigitCharValue(d: nat)
    requires d < 10
    ensures DigitChar(d) as int - '0' as int == d
  {
    assert "0123456789"[d] as int - '0' as int == d;
  }

  /** Appending a digit multiplies the value by ten and adds the digit. */
  lemma DigitsValueAppend(p: string, c: char)
    requires forall i :: 0 <= i < |p| ==> '0' <= p[i] <= '9'
    requires '0' <= c <= '9'
    ensures DigitsValue(p + [c], |p| + 1) == 10 * DigitsValue(p, |p|) + (c as int - '0' as int)
  {
    DigitsValuePrefix(p, [c], |p|);
  }

  lemma {:induction false} DigitsValuePrefix(a: string, b: string, k: nat)
    requires k <= |a|
    requires forall i :: 0 <= i < |a| ==> '0' <= a[i] <= '9'
    requires forall i :: 0 <= i < |a| + |b| ==> '0' <= (a + b)[i] <= '9'
    ensures DigitsValue(a + b, k) == DigitsValue(a, k)
  {
    if k > 0 {
      DigitsValuePrefix(a, b, k - 1);
    }
  }

  // ---------------------------------------------------------------------
  // Strings and sequences.

  /** toLowerCase on the ASCII letters; other characters are unchanged. */
  function LowerChar(c: char): (r: char)
    ensures 'A' <= c <= 'Z' ==> 'a' <= r <= 'z'
    ensures !('A' <= c <= 'Z') ==> r == c
  {
    if 'A' <= c <= 'Z' then (c as int - 'A' as int + 'a' as int) as char else c
  }

  function Lower(s: string): (r: string)
    ensures |r| == |s|
    ensures forall i :: 0 <= i < |s| ==> r[i] == LowerChar(s[i])
  {
    if |s| == 0 then [] else [LowerChar(s[0])] + Lower(s[1..])
  }

  /** String.prototype.includes. */
  predicate Includes(s: string, sub: string) {
    sub <= s || (|s| > 0 && Includes(s[1..], sub))
  }

  lemma {:induction false} IncludesAt(s: string, sub: string, i: nat)
    requires i + |sub| <= |s| && s[i..i + |sub|] == sub
    ensures Includes(s, sub)
  {
    if i > 0 {
      assert s[1..][i - 1..i - 1 + |sub|] == sub;
      IncludesAt(s[1..], sub, i - 1);
    }
  }

  /** Array.prototype.join. */
  function Join(parts: seq<string>, sep: string): (r: string)
    ensures |parts| == 0 ==> r == ""
    ensures |parts| == 1 ==> r == parts[0]
  {
    if |parts| == 0 then ""
    else if |parts| == 1 then parts[0]
    else parts[0] + sep + Join(parts[1..], sep)
  }

  /** Array.prototype.slice(0, n). */
  function Take<T>(s: seq<T>, n: nat): (r: seq<T>)
    ensures |r| == if n < |s| then n else |s|
    ensures r <= s
  {
    if n < |s| then s[..n] else s
  }

  /** Array.prototype.slice(from, to) with non-negative bounds. */
  function Slice<T>(s: seq<T>, from: nat, to: nat): (r: seq<T>)
    ensures |r| <= |s|
    ensures from <= to && to <= |s| ==> r == s[from..to]
    ensures forall i :: 0 <= i < |r| ==> from + i < |s| && r[i] == s[from + i]
  {
    var hi := if to < |s| then to else |s|;
    var lo := if from < hi then from else hi;
    s[lo..hi]
  }

  predicate NoDuplicates<T(==)>(s: seq<T>) {
    forall i, j :: 0 <= i < j < |s| ==> s[i] != s[j]
  }

  /** What a failed statement threw: an Error carries a message, anything else does not. */
  datatype Thrown = ErrorThrown(message: string) | OtherThrown

  /** `error instanceof Error ? error.message : 'Unknown error'`. */
  function ThrownMessage(t: Thrown): string {
    match t
    case ErrorThrown(m) => m
    case OtherThrown => "Unknown error"
  }
}
