/** Values shared by the probe loop: names, clocks, probe outcomes. */
module Types {

  datatype Option<+T> = None | Some(value: T)

  /** Nanoseconds on the operator's clock. */
  type Time = nat

  const SECOND: nat := 1_000_000_000

  datatype NamespacedName = NamespacedName(namespace: string, name: string)

  /** Outcome of the TLS half of one probe. */
  datatype VerificationResult = ResultVerified | ResultCertInvalid | ResultUnreachable | ResultNotReady

  /** Outcome of the HTTP request sent through a verified session. */
  datatype UpstreamResult = UpstreamReachable | UpstreamUnreachable | UpstreamNotProbed

  datatype UpstreamProbe = UpstreamProbe(result: UpstreamResult, statusCode: int, url: string, detail: string)

  datatype Verification = Verification(
    result: VerificationResult,
    detail: string,
    serverName: string,
    upstream: UpstreamProbe)

  /** What one complete round publishes. */
  type Outcomes = map<NamespacedName, Verification>

  /** A request is only ever sent on a session that verified. */
  predicate Coherent(v: Verification) {
    v.upstream.result != UpstreamNotProbed ==> v.result == ResultVerified
  }

  predicate CoherentRound(round: Outcomes) {
    forall k <- round :: Coherent(round[k])
  }

  function Get<K, V>(m: map<K, V>, k: K): (r: Option<V>) {
    if k in m then Some(m[k]) else None
  }

  /** The upstream half of a verdict; without one nothing was asked. */
  function UpstreamOf(verdict: Option<Verification>): UpstreamResult {
    if verdict.Some? then verdict.value.upstream.result else UpstreamNotProbed
  }

  /** A round's outcome for a key is new or different: the nudge condition. */
  predicate Differs(before: Outcomes, after: Outcomes, k: NamespacedName) {
    k in after && Get(before, k) != Some(after[k])
  }

  /** The library text functions the messages depend on: net/http's StatusText and
      the RFC 3339 rendering of an instant at whole seconds. */
  datatype Formats = Formats(statusText: int -> string, timestamp: Time -> string)

  function Decimal(n: int): string
    decreases if n < 0 then 1 - n else n
  {
    if n < 0 then "-" + Decimal(-n)
    else if n < 10 then [DIGITS[n]]
    else Decimal(n / 10) + [DIGITS[n % 10]]
  }

  const DIGITS := "0123456789"

  /** The number a string of digits denotes. */
  function Value(s: string): int {
    if s == [] then 0 else 10 * Value(s[..|s| - 1]) + (s[|s| - 1] as int - '0' as int)
  }

  /** What Decimal writes reads back as the number. */
  lemma {:induction false} DecimalReadsBack(n: int)
    ensures n >= 0 ==> Decimal(n) != "" && Value(Decimal(n)) == n
    ensures n < 0 ==> Decimal(n) == "-" + Decimal(-n)
    decreases if n < 0 then 1 - n else n
  {
    if n >= 10 {
      DecimalReadsBack(n / 10);
      var s := Decimal(n);
      assert s[..|s| - 1] == Decimal(n / 10);
      DigitReadsBack(n % 10);
    } else if n >= 0 {
      DigitReadsBack(n);
      assert Decimal(n)[..0] == [];
    }
  }

  lemma DigitReadsBack(d: int)
    requires 0 <= d < 10
    ensures DIGITS[d] as int - '0' as int == d
  {
  }
}
