/** The idempotency key of a payment attempt. */
module IdempotencyKey {
  import opened Text

  function BuildIdempotencyKey(billingId: string, attemptNumber: int): string {
    "billing:" + billingId + ":attempt:" + FormatInt(attemptNumber)
  }

  /** Cutting at the last colon is unambiguous. */
  lemma LastColonSplits(a: string, x: string, b: string, y: string)
    requires ':' !in x && ':' !in y
    requires a + [':'] + x == b + [':'] + y
    ensures a == b && x == y
  {
    var s, t := a + [':'] + x, b + [':'] + y;
    assert s[|a|] == ':' && t[|b|] == ':';
    assert forall i :: |a| < i < |s| ==> s[i] == x[i - |a| - 1] != ':';
    assert forall i :: |b| < i < |t| ==> t[i] == y[i - |b| - 1] != ':';
    assert s[..|a|] == a && t[..|b|] == b;
    assert s[|a| + 1..] == x && t[|b| + 1..] == y;
  }

  /** Two attempts share a key only if they are the same attempt of the same billing,
      whatever characters the billing id is made of. */
  lemma KeyInjective(billing1: string, attempt1: int, billing2: string, attempt2: int)
    requires BuildIdempotencyKey(billing1, attempt1) == BuildIdempotencyKey(billing2, attempt2)
    ensures billing1 == billing2 && attempt1 == attempt2
  {
    var head, tail := "billing:", ":attempt";
    var a, b := head + billing1 + tail, head + billing2 + tail;
    assert BuildIdempotencyKey(billing1, attempt1) == a + [':'] + FormatInt(attempt1);
    assert BuildIdempotencyKey(billing2, attempt2) == b + [':'] + FormatInt(attempt2);
    FormatIntHasNoColon(attempt1);
    FormatIntHasNoColon(attempt2);
    LastColonSplits(a, FormatInt(attempt1), b, FormatInt(attempt2));
    FormatIntInjective(attempt1, attempt2);
    assert a[|head|..|a| - |tail|] == billing1 && b[|head|..|b| - |tail|] == billing2;
  }

  /** The key begins with the billing id between its labels, and the rest reads back as the attempt number. */
  lemma KeyReads(billingId: string, attemptNumber: int)
    ensures var key, head := BuildIdempotencyKey(billingId, attemptNumber), "billing:" + billingId + ":attempt:";
            head <= key && ParseInt(key[|head|..]) == attemptNumber
  {
    var head := "billing:" + billingId + ":attempt:";
    assert BuildIdempotencyKey(billingId, attemptNumber)[|head|..] == FormatInt(attemptNumber);
    FormatIntReads(attemptNumber);
  }

  lemma KeyIsTrimmed(billingId: string, attemptNumber: int)
    ensures TrimSpace(BuildIdempotencyKey(billingId, attemptNumber)) == BuildIdempotencyKey(billingId, attemptNumber)
  {
    FormatNatDigits(if attemptNumber < 0 then -attemptNumber else attemptNumber);
    var key, digits := BuildIdempotencyKey(billingId, attemptNumber), FormatInt(attemptNumber);
    assert key[0] == 'b';
    assert key[|key| - 1] == digits[|digits| - 1];
    TrimKeepsTrimmed(key);
  }
}
