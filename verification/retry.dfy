/** The retry policy wrapped around every stage: the stage is called again after each failed
    call until one call returns or the attempt limit is reached. Backoff sleeps are not
    modelled; only the bound on the number of calls is. */
module RetryPolicy {
  import opened Wrappers

  /** What one call of a stage did: it returned a value, or it raised and `message` describes the
      failed call as the retry policy's exception reports it. */
  datatype Attempt<T> = Returned(value: T) | Raised(message: string)

  /** How many calls the policy made and what the last of them did. */
  datatype StageOutcome<T> = StageOutcome(calls: nat, result: Attempt<T>)

  /** The number of calls allowed by a stop-after-`maxAttempts` rule: the first call is
      always made, and the policy stops after a failed call numbered `maxAttempts` or more. */
  function AttemptBound(maxAttempts: int): (n: nat)
    ensures n >= 1
    ensures maxAttempts >= 1 ==> n == maxAttempts
  {
    if maxAttempts < 1 then 1 else maxAttempts
  }

  /** The calls numbered `k` onwards (counting from 0), given that all before `k` raised.
      A stage is modelled as a function of its input and of the call number, which stands
      for whatever outside state makes a later call behave differently from an earlier one. */
  function RetryFrom<I, O>(stage: (I, nat) -> Attempt<O>, input: I, bound: nat, k: nat): (o: StageOutcome<O>)
    requires k < bound
    ensures k < o.calls <= bound
    ensures o.result == stage(input, o.calls - 1)
    ensures forall j :: k <= j < o.calls - 1 ==> stage(input, j).Raised?
    ensures o.result.Raised? ==> o.calls == bound
    decreases bound - k
  {
    var a := stage(input, k);
    if a.Returned? || k + 1 == bound then StageOutcome(k + 1, a)
    else RetryFrom(stage, input, bound, k + 1)
  }

  /** Calling `stage` on `input` under the retry policy. */
  function Retry<I, O>(stage: (I, nat) -> Attempt<O>, input: I, maxAttempts: int): (o: StageOutcome<O>)
    ensures 1 <= o.calls <= AttemptBound(maxAttempts)
    ensures o.result == stage(input, o.calls - 1)
    ensures forall j :: 0 <= j < o.calls - 1 ==> stage(input, j).Raised?
    ensures o.result.Raised? ==> o.calls == AttemptBound(maxAttempts)
  {
    RetryFrom(stage, input, AttemptBound(maxAttempts), 0)
  }

  /** Some call the policy allows returns. */
  predicate Succeeds<I, O>(stage: (I, nat) -> Attempt<O>, input: I, maxAttempts: int) {
    exists j :: 0 <= j < AttemptBound(maxAttempts) && stage(input, j).Returned?
  }

  /** A stage succeeds under the policy exactly when one of its first `AttemptBound` calls
      returns, and then the value is that of the first call that returned. */
  lemma RetrySucceedsIff<I, O>(stage: (I, nat) -> Attempt<O>, input: I, maxAttempts: int)
    ensures Retry(stage, input, maxAttempts).result.Returned? <==> Succeeds(stage, input, maxAttempts)
    ensures Retry(stage, input, maxAttempts).result.Returned? ==>
              forall j :: 0 <= j < AttemptBound(maxAttempts) && stage(input, j).Returned? ==>
                Retry(stage, input, maxAttempts).calls - 1 <= j
  {
    var o := Retry(stage, input, maxAttempts);
    if o.result.Raised? {
      forall j | 0 <= j < AttemptBound(maxAttempts)
        ensures stage(input, j).Raised?
      {
        if j < o.calls - 1 {
        } else {
          assert j == o.calls - 1;
        }
      }
    }
  }

  /** With a limit of one attempt the first failure is final. */
  lemma SingleAttemptNoRetry<I, O>(stage: (I, nat) -> Attempt<O>, input: I)
    ensures Retry(stage, input, 1) == StageOutcome(1, stage(input, 0))
  {
  }

  /** The name of the exception the policy raises once the attempt limit is used up; the
      policy is not configured to re-raise the last call's own exception. */
  const RetryErrorName: string := "RetryError"

  /** The text of that exception: its name with a description of the last failed call in
      brackets, so it is never empty. */
  function RetryErrorText(last: string): (t: string)
    ensures t != ""
    ensures |t| == |RetryErrorName| + |last| + 2
    ensures t[..|RetryErrorName| + 1] == RetryErrorName + "["
  {
    RetryErrorName + "[" + last + "]"
  }

  /** Reads back the description of the last failed call from the exception's text. */
  function LastFailureOf(t: string): (o: Option<string>)
    ensures o.Some? ==> |t| == |RetryErrorName| + |o.value| + 2
  {
    var n := |RetryErrorName|;
    if |t| >= n + 2 && t[..n + 1] == RetryErrorName + "[" && t[|t| - 1] == ']' then Some(t[n + 1..|t| - 1])
    else None
  }

  /** The exception's text determines the last failure it wraps. */
  lemma LastFailureRoundTrip(last: string)
    ensures LastFailureOf(RetryErrorText(last)) == Some(last)
  {
    var t := RetryErrorText(last);
    var n := |RetryErrorName|;
    assert t[..n + 1] == RetryErrorName + "[";
    assert t[n + 1..|t| - 1] == last;
  }

  /** Different last failures give different exception texts. */
  lemma RetryErrorTextInjective(a: string, b: string)
    ensures RetryErrorText(a) == RetryErrorText(b) ==> a == b
  {
    if RetryErrorText(a) == RetryErrorText(b) {
      LastFailureRoundTrip(a);
      LastFailureRoundTrip(b);
    }
  }

  /** The policy as a loop: call, stop on a return, otherwise call again while the limit
      allows. */
  method RunWithRetry<I, O>(stage: (I, nat) -> Attempt<O>, input: I, maxAttempts: int) returns (o: StageOutcome<O>)
    ensures o == Retry(stage, input, maxAttempts)
  {
    var bound := AttemptBound(maxAttempts);
    var k: nat := 0;
    var a := stage(input, 0);
    while a.Raised? && k + 1 < bound
      invariant k < bound
      invariant a == stage(input, k)
      invariant RetryFrom(stage, input, bound, k) == RetryFrom(stage, input, bound, 0)
      decreases bound - k
    {
      k := k + 1;
      a := stage(input, k);
    }
    o := StageOutcome(k + 1, a);
  }
}
