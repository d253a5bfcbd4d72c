/**
 * The credential pool and retry policy of `GroqAPIService` as pure
 * functions (backend/services/groq_service.py:10-57). The class in
 * module GroqService runs the same policy imperatively and is proved
 * equal to `Request`.
 *
 * The provider (`client.chat.completions.create`) is an oracle: the
 * i-th provider call made while serving request `req` answers
 * `provider(req, i)`.
 */
module KeyRotation {
  import opened Wrappers
  import Strings

  datatype Role = System | User | Assistant

  datatype ChatMessage = ChatMessage(role: Role, content: string)

  /** The arguments of one `_make_request` call. */
  datatype CompletionRequest = CompletionRequest(
    messages: seq<ChatMessage>,
    model: string,
    temperature: real,
    maxTokens: nat)

  /** What one provider call does: returns a message content (possibly None) or raises. */
  datatype ProviderOutcome = Completed(content: Option<string>) | Failed(message: string)

  type Provider = (CompletionRequest, nat) -> ProviderOutcome

  /** What `_make_request` does: returns a content, or re-raises the last provider exception. */
  datatype RequestOutcome = Returned(content: Option<string>) | Raised(message: string)

  /** The mutable part of the service: `current_key_index` and `request_count`. */
  datatype Pool = Pool(index: nat, count: nat)

  /** A run of `_make_request`: final pool, outcome, and the key index used by each provider call. */
  datatype Trace = Trace(pool: Pool, outcome: RequestOutcome, keysUsed: seq<nat>)

  /** `_rotate_api_key`. */
  function Rotate(p: Pool, n: nat): (r: Pool)
    requires n > 0
    ensures r.index < n && r.count == 0
    ensures p.index < n - 1 ==> r.index == p.index + 1
    ensures p.index == n - 1 ==> r.index == 0
  {
    Pool((p.index + 1) % n, 0)
  }

  /** The proactive check at the top of each attempt. */
  function Proactive(p: Pool, n: nat, max: nat): Pool
    requires n > 0
  {
    if p.count >= max then Rotate(p, n) else p
  }

  /** `"quota" in str(e).lower() or "rate limit" in str(e).lower()`. */
  predicate IsQuotaError(message: string) {
    var m := Strings.Lower(message);
    Strings.Contains(m, "quota") || Strings.Contains(m, "rate limit")
  }

  /** The loop `for attempt in range(n)` of `_make_request`, from `attempt` on. */
  function Attempts(p: Pool, n: nat, max: nat, req: CompletionRequest, provider: Provider, attempt: nat): Trace
    requires n > 0
    decreases n - attempt
  {
    if attempt >= n then Trace(p, Returned(None), [])
    else
      var q := Proactive(p, n, max);
      match provider(req, attempt)
      case Completed(c) => Trace(Pool(q.index, q.count + 1), Returned(c), [q.index])
      case Failed(m) =>
        var q' := if IsQuotaError(m) then Rotate(q, n) else q;
        if attempt == n - 1 then Trace(q', Raised(m), [q.index])
        else
          var t := Attempts(q', n, max, req, provider, attempt + 1);
          t.(keysUsed := [q.index] + t.keysUsed)
  }

  /** `_make_request` with a pool of `n` keys and bound `max`. */
  function Request(p: Pool, n: nat, max: nat, req: CompletionRequest, provider: Provider): Trace
    requires n > 0
  {
    Attempts(p, n, max, req, provider, 0)
  }

  /** Rotation from the last key wraps to the first and resets the counter. */
  lemma RotateWraps(i: nat, c: nat, n: nat)
    requires n > 0 && i < n
    ensures Rotate(Pool(i, c), n) == Pool(if i == n - 1 then 0 else i + 1, 0)
  {
  }

  /** The key index stays in range, and every call uses an in-range key. */
  lemma {:induction false} AttemptsIndexInRange(p: Pool, n: nat, max: nat, req: CompletionRequest, provider: Provider, attempt: nat)
    requires n > 0 && p.index < n
    ensures var t := Attempts(p, n, max, req, provider, attempt);
      t.pool.index < n && forall k :: 0 <= k < |t.keysUsed| ==> t.keysUsed[k] < n
    decreases n - attempt
  {
    if attempt < n {
      var q := Proactive(p, n, max);
      match provider(req, attempt)
      case Completed(c) =>
      case Failed(m) =>
        var q' := if IsQuotaError(m) then Rotate(q, n) else q;
        if attempt < n - 1 {
          AttemptsIndexInRange(q', n, max, req, provider, attempt + 1);
        }
    }
  }

  /** From `attempt`, the loop calls the provider at least once and at most `n - attempt` times. */
  lemma {:induction false} AttemptsCallCount(p: Pool, n: nat, max: nat, req: CompletionRequest, provider: Provider, attempt: nat)
    requires n > 0 && attempt < n
    ensures var t := Attempts(p, n, max, req, provider, attempt);
      1 <= |t.keysUsed| <= n - attempt
    decreases n - attempt
  {
    var q := Proactive(p, n, max);
    match provider(req, attempt)
    case Completed(c) =>
    case Failed(m) =>
      var q' := if IsQuotaError(m) then Rotate(q, n) else q;
      if attempt < n - 1 {
        AttemptsCallCount(q', n, max, req, provider, attempt + 1);
      }
  }

  /**
   * The loop raises exactly when every remaining call fails, then it has made all
   * remaining calls and re-raises the last one's message; otherwise it returns the
   * content of the first successful call, and every earlier call failed.
   */
  lemma {:induction false} AttemptsOutcome(p: Pool, n: nat, max: nat, req: CompletionRequest, provider: Provider, attempt: nat)
    requires n > 0 && attempt < n
    ensures var t := Attempts(p, n, max, req, provider, attempt);
      && (t.outcome.Raised? <==> forall i :: attempt <= i < n ==> provider(req, i).Failed?)
      && (t.outcome.Raised? ==> |t.keysUsed| == n - attempt && t.outcome.message == provider(req, n - 1).message)
      && (t.outcome.Returned? ==>
            && 1 <= |t.keysUsed| <= n - attempt
            && provider(req, attempt + |t.keysUsed| - 1) == Completed(t.outcome.content)
            && forall i :: attempt <= i < attempt + |t.keysUsed| - 1 ==> provider(req, i).Failed?)
    decreases n - attempt
  {
    var q := Proactive(p, n, max);
    match provider(req, attempt)
    case Completed(c) =>
    case Failed(m) =>
      var q' := if IsQuotaError(m) then Rotate(q, n) else q;
      if attempt < n - 1 {
        AttemptsOutcome(q', n, max, req, provider, attempt + 1);
        var t := Attempts(q', n, max, req, provider, attempt + 1);
        assert Attempts(p, n, max, req, provider, attempt) == t.(keysUsed := [q.index] + t.keysUsed);
        if t.outcome.Returned? {
          forall i | attempt <= i < attempt + |t.keysUsed|
            ensures provider(req, i).Failed?
          {
            if i > attempt {
              assert attempt + 1 <= i < attempt + 1 + |t.keysUsed| - 1;
            }
          }
        }
      }
  }

  /** `_make_request` makes between 1 and `n` provider calls, all with in-range keys, and keeps the index in range. */
  lemma RequestBounded(p: Pool, n: nat, max: nat, req: CompletionRequest, provider: Provider)
    requires n > 0 && p.index < n
    ensures var t := Request(p, n, max, req, provider);
      && t.pool.index < n
      && 1 <= |t.keysUsed| <= n
      && forall k :: 0 <= k < |t.keysUsed| ==> t.keysUsed[k] < n
  {
    AttemptsIndexInRange(p, n, max, req, provider, 0);
    AttemptsCallCount(p, n, max, req, provider, 0);
  }

  /**
   * Exhaustion: `_make_request` raises iff all `n` calls fail; it then made exactly `n`
   * calls and re-raises the last exception's message.
   */
  lemma RequestRaisesIffAllFail(p: Pool, n: nat, max: nat, req: CompletionRequest, provider: Provider)
    requires n > 0
    ensures var t := Request(p, n, max, req, provider);
      && (t.outcome.Raised? <==> forall i :: 0 <= i < n ==> provider(req, i).Failed?)
      && (t.outcome.Raised? ==> |t.keysUsed| == n && t.outcome == Raised(provider(req, n - 1).message))
  {
    AttemptsOutcome(p, n, max, req, provider, 0);
  }

  /** On return, the content is the one of the first successful call, and no call was made after it. */
  lemma RequestReturnsFirstSuccess(p: Pool, n: nat, max: nat, req: CompletionRequest, provider: Provider)
    requires n > 0
    ensures var t := Request(p, n, max, req, provider);
      t.outcome.Returned? ==>
        var k := |t.keysUsed| - 1;
        && 0 <= k < n
        && provider(req, k) == Completed(t.outcome.content)
        && forall i :: 0 <= i < k ==> provider(req, i).Failed?
  {
    AttemptsOutcome(p, n, max, req, provider, 0);
  }

  /**
   * With a bound of at least 1, `request_count` never exceeds the bound after a request,
   * whatever it was before; and after a success it is at least 1.
   */
  lemma {:induction false} AttemptsCountWithinBound(p: Pool, n: nat, max: nat, req: CompletionRequest, provider: Provider, attempt: nat)
    requires n > 0 && max >= 1 && attempt < n
    ensures var t := Attempts(p, n, max, req, provider, attempt);
      t.pool.count <= max && (t.outcome.Returned? ==> t.pool.count >= 1)
    decreases n - attempt
  {
    var q := Proactive(p, n, max);
    assert q.count < max;
    match provider(req, attempt)
    case Completed(c) =>
    case Failed(m) =>
      var q' := if IsQuotaError(m) then Rotate(q, n) else q;
      if attempt < n - 1 {
        AttemptsCountWithinBound(q', n, max, req, provider, attempt + 1);
      }
  }

  lemma RequestCountWithinBound(p: Pool, n: nat, max: nat, req: CompletionRequest, provider: Provider)
    requires n > 0 && max >= 1
    ensures var t := Request(p, n, max, req, provider);
      t.pool.count <= max && (t.outcome.Returned? ==> t.pool.count >= 1)
  {
    AttemptsCountWithinBound(p, n, max, req, provider, 0);
  }

  /**
   * The first call of a request rotates first iff the counter has reached the bound;
   * a first-call success then increments the counter by exactly one and keeps that key.
   */
  lemma RequestFirstCall(p: Pool, n: nat, max: nat, req: CompletionRequest, provider: Provider)
    requires n > 0 && p.index < n
    ensures var t := Request(p, n, max, req, provider);
      && |t.keysUsed| >= 1
      && t.keysUsed[0] == (if p.count >= max then (p.index + 1) % n else p.index)
      && (provider(req, 0).Completed? ==>
            t.pool == Pool(t.keysUsed[0], (if p.count >= max then 0 else p.count) + 1)
            && t.outcome == Returned(provider(req, 0).content))
  {
  }

  /**
   * Errors without "quota"/"rate limit" never rotate: when every call fails that way and
   * the counter is below the bound, all calls use the same key and the pool is unchanged.
   */
  lemma {:induction false} AttemptsOtherErrorsKeepKey(p: Pool, n: nat, max: nat, req: CompletionRequest, provider: Provider, attempt: nat)
    requires n > 0 && attempt < n && p.count < max
    requires forall i :: attempt <= i < n ==> provider(req, i).Failed? && !IsQuotaError(provider(req, i).message)
    ensures var t := Attempts(p, n, max, req, provider, attempt);
      t.pool == p && t.keysUsed == seq(n - attempt, _ => p.index)
    decreases n - attempt
  {
    if attempt < n - 1 {
      AttemptsOtherErrorsKeepKey(p, n, max, req, provider, attempt + 1);
    }
  }

  /** `x mod n` for `x < 2n`, written without the modulo operator. */
  function Wrap(x: nat, n: nat): (r: nat)
    requires n > 0 && x < 2 * n
    ensures r < n
  {
    if x < n then x else x - n
  }

  /**
   * Quota errors rotate immediately, the last attempt included: when every call fails with
   * a quota error, consecutive calls use consecutive keys (mod n) and the counter ends at 0.
   */
  lemma {:induction false} AttemptsQuotaErrorsRotate(p: Pool, n: nat, max: nat, req: CompletionRequest, provider: Provider, attempt: nat)
    requires n > 0 && attempt < n && max >= 1 && p.index < n && p.count < max
    requires forall i :: attempt <= i < n ==> provider(req, i).Failed? && IsQuotaError(provider(req, i).message)
    ensures var t := Attempts(p, n, max, req, provider, attempt);
      && t.keysUsed == seq(n - attempt, j requires 0 <= j < n - attempt => Wrap(p.index + j, n))
      && t.pool == Pool(Wrap(p.index + n - attempt, n), 0)
    decreases n - attempt
  {
    var r := Rotate(p, n);
    assert r.index == Wrap(p.index + 1, n);
    QuotaFailureStep(p, n, max, req, provider, attempt);
    if attempt < n - 1 {
      AttemptsQuotaErrorsRotate(r, n, max, req, provider, attempt + 1);
      var t := Attempts(r, n, max, req, provider, attempt + 1);
      ConsecutiveKeys(p.index, n, n - attempt, t.keysUsed);
      assert Wrap(r.index + n - (attempt + 1), n) == Wrap(p.index + n - attempt, n);
    } else {
      assert Wrap(p.index + 0, n) == p.index;
      assert seq(1, j requires 0 <= j < 1 => Wrap(p.index + j, n)) == [p.index];
    }
  }

  /** The key `i` followed by the keys after its successor gives consecutive keys from `i`. */
  lemma ConsecutiveKeys(i: nat, n: nat, len: nat, tail: seq<nat>)
    requires n > 0 && i < n && 1 <= len <= n
    requires tail == seq(len - 1, j requires 0 <= j < len - 1 => Wrap(Wrap(i + 1, n) + j, n))
    ensures [i] + tail == seq(len, j requires 0 <= j < len => Wrap(i + j, n))
  {
    var want := seq(len, j requires 0 <= j < len => Wrap(i + j, n));
    forall j | 0 <= j < len
      ensures ([i] + tail)[j] == want[j]
    {
      assert want[j] == Wrap(i + j, n);
      if j > 0 {
        assert ([i] + tail)[j] == tail[j - 1] == Wrap(Wrap(i + 1, n) + (j - 1), n);
      }
    }
  }

  /** One attempt under the bound that fails with a quota error: its key, then the rest after rotating. */
  lemma QuotaFailureStep(p: Pool, n: nat, max: nat, req: CompletionRequest, provider: Provider, attempt: nat)
    requires n > 0 && attempt < n && p.count < max
    requires provider(req, attempt).Failed? && IsQuotaError(provider(req, attempt).message)
    ensures var t := Attempts(p, n, max, req, provider, attempt);
      && (attempt == n - 1 ==> t == Trace(Rotate(p, n), Raised(provider(req, attempt).message), [p.index]))
      && (attempt < n - 1 ==>
            var rest := Attempts(Rotate(p, n), n, max, req, provider, attempt + 1);
            t == rest.(keysUsed := [p.index] + rest.keysUsed))
  {
    assert Proactive(p, n, max) == p;
  }

  /** When every key reports a quota error, one request tries every key once and ends on the key it began with. */
  lemma RequestQuotaErrorsTryEveryKey(p: Pool, n: nat, max: nat, req: CompletionRequest, provider: Provider)
    requires n > 0 && max >= 1 && p.index < n && p.count < max
    requires forall i :: 0 <= i < n ==> provider(req, i).Failed? && IsQuotaError(provider(req, i).message)
    ensures var t := Request(p, n, max, req, provider);
      && t.outcome == Raised(provider(req, n - 1).message)
      && (forall k :: 0 <= k < n ==> k in t.keysUsed)
      && t.pool == Pool(p.index, 0)
  {
    AttemptsQuotaErrorsRotate(p, n, max, req, provider, 0);
    RequestRaisesIffAllFail(p, n, max, req, provider);
    var t := Request(p, n, max, req, provider);
    forall k | 0 <= k < n
      ensures k in t.keysUsed
    {
      var j := if k >= p.index then k - p.index else k + n - p.index;
      assert 0 <= j < |t.keysUsed| && t.keysUsed[j] == Wrap(p.index + j, n) == k;
    }
  }
}
