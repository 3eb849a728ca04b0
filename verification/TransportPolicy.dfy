// Close codes and the reconnect policy of the browser transport.

module TransportPolicy {

  const PONG_TIMEOUT_CODE := 4103
  const MAX_ATTEMPTS := 8
  const MAX_DELAY_MS := 5000

  predicate IsRecoverable(code: int) {
    code !in {1000, 1001, 1002, 1003, 1007, 1008, 1009, 1010, 1011}
  }

  function Power(base: nat, exponent: nat): (r: nat)
    ensures base > 0 ==> r > 0
  {
    if exponent == 0 then 1 else base * Power(base, exponent - 1)
  }

  // floor(300 * 1.8 ^ attempt), capped; 1.8 is 9/5.
  function ReconnectDelayMs(attempt: nat): (ms: nat) {
    var grown := 300 * Power(9, attempt) / Power(5, attempt);
    if grown < MAX_DELAY_MS then grown else MAX_DELAY_MS
  }

  lemma {:induction false} DelayGrows(attempt: nat)
    ensures ReconnectDelayMs(attempt) <= ReconnectDelayMs(attempt + 1)
  {
    var n, d := 300 * Power(9, attempt), Power(5, attempt);
    QuotientGrows(n, d, 9 * n, 5 * d);
  }

  lemma QuotientGrows(n: nat, d: nat, n': nat, d': nat)
    requires d > 0 && n' == 9 * n && d' == 5 * d
    ensures n / d <= n' / d'
  {
    var q := n / d;
    assert q * d <= n;
    assert q * d' == 5 * (q * d);
    assert q * d' <= n';
    AtLeast(q, n', d');
  }

  lemma AtLeast(q: nat, n: nat, d: nat)
    requires d > 0 && q * d <= n
    ensures q <= n / d
  {
    SmallerFactor(q, n / d + 1, d);
  }

  lemma SmallerFactor(a: nat, b: nat, d: nat)
    requires a * d < b * d
    ensures a < b
  {
  }

  lemma {:induction false} DelaysAreMonotone(a: nat, b: nat)
    requires a <= b
    ensures 300 <= ReconnectDelayMs(a) <= ReconnectDelayMs(b) <= MAX_DELAY_MS
    decreases b - a, a
  {
    if a < b {
      DelayGrows(b - 1);
      DelaysAreMonotone(a, b - 1);
    } else if a > 0 {
      DelaysAreMonotone(a - 1, a - 1);
      DelayGrows(a - 1);
    }
  }
}
