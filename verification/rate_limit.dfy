/** The per-token request counter of `lib/rate-limit.ts` (`rateLimit(...).check`). The cache is a
    map from token to count; its expiry and eviction are not part of this model. */
module RateLimit {

  type Counters = map<string, nat>

  function Count(c: Counters, token: string): nat {
    if token in c then c[token] else 0
  }

  /** The outcome of one `check`: the new counters, the two headers, and whether the call went
      through (a rejected call throws `Rate limit exceeded`). */
  datatype Checked = Checked(counters: Counters, limitHeader: int, remaining: int, accepted: bool)

  function Check(c: Counters, limit: int, token: string): (r: Checked)
    // the token's counter grows by one on every call, accepted or not, and no other counter moves
    ensures Count(r.counters, token) == Count(c, token) + 1
    ensures forall t :: t != token ==> Count(r.counters, t) == Count(c, t)
    ensures r.counters.Keys == c.Keys + {token}
    // rejected iff the new count has reached the limit
    ensures r.accepted <==> Count(c, token) + 1 < limit
    ensures r.limitHeader == limit
    ensures r.accepted ==> r.remaining == limit - Count(r.counters, token) && r.remaining > 0
    ensures !r.accepted ==> r.remaining == 0
  {
    var usage := Count(c, token) + 1;
    var limited := usage >= limit;
    Checked(c[token := usage], limit, if limited then 0 else limit - usage, !limited)
  }

  /** `n` calls for one token; the number of them that were accepted. */
  function CheckMany(c: Counters, limit: int, token: string, n: nat): (r: (Counters, nat))
    decreases n
  {
    if n == 0 then (c, 0)
    else
      var first := Check(c, limit, token);
      var (c', k) := CheckMany(first.counters, limit, token, n - 1);
      (c', k + if first.accepted then 1 else 0)
  }

  function Min(a: int, b: int): int { if a <= b then a else b }
  function Max(a: int, b: int): int { if a >= b then a else b }

  /** From a fresh counter, `n` calls accept exactly the first `limit - 1` of them (none for a limit
      of one or less), and the counter ends at `n`. */
  lemma {:induction false} AcceptedCalls(c: Counters, limit: int, token: string, n: nat)
    ensures CheckMany(c, limit, token, n).1 == Min(n, Max(limit - 1 - Count(c, token), 0))
    ensures Count(CheckMany(c, limit, token, n).0, token) == Count(c, token) + n
    decreases n
  {
    if n > 0 {
      AcceptedCalls(Check(c, limit, token).counters, limit, token, n - 1);
    }
  }

  /** Therefore at most `limit - 1` calls per token ever succeed. */
  lemma AtMostLimitMinusOne(limit: int, token: string, n: nat)
    ensures CheckMany(map[], limit, token, n).1 <= Max(limit - 1, 0)
    ensures n >= limit - 1 ==> CheckMany(map[], limit, token, n).1 == Max(limit - 1, 0)
  {
    AcceptedCalls(map[], limit, token, n);
  }
}
