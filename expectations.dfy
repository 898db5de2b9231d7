/** The expectations cache: per workflow key, how many self-caused job
    creations and deletions the controller is still waiting to observe.
    A reconcile pass for a key goes ahead only when the key's
    expectations are satisfied. The time-to-live safety valve is not
    computed here: the set of keys whose record has outlived it is an
    input (`expired`), supplied by the clock. */
module Expectations {

  datatype Counters = Counters(add: int, del: int)

  type Table = map<string, Counters>

  /** Counters are never driven below zero. */
  predicate NonNegative(t: Table)
  {
    forall k :: k in t ==> t[k].add >= 0 && t[k].del >= 0
  }

  predicate Fulfilled(c: Counters)
  {
    c.add <= 0 && c.del <= 0
  }

  /** SatisfiedExpectations: no record, a fulfilled record, or a record that
      has outlived its time-to-live. */
  predicate Satisfied(t: Table, expired: set<string>, key: string)
  {
    key !in t || Fulfilled(t[key]) || key in expired
  }

  function Floor(x: int): nat
  {
    if x < 0 then 0 else x
  }

  /** Lowers the add counter of `key` by `n`, floored at zero; a key without
      a record is left alone. */
  function LowerAdds(t: Table, key: string, n: nat): Table
  {
    if key in t then t[key := Counters(Floor(t[key].add - n), t[key].del)] else t
  }

  /** CreationObserved: one expected creation has been seen. */
  function CreationObserved(t: Table, key: string): Table
  {
    LowerAdds(t, key, 1)
  }

  /** DeletionObserved: one expected deletion has been seen. */
  function DeletionObserved(t: Table, key: string): Table
  {
    if key in t then t[key := Counters(t[key].add, Floor(t[key].del - 1))] else t
  }

  /** DeleteExpectations: the record of `key` is dropped. */
  function DeleteExpectations(t: Table, key: string): Table
  {
    t - {key}
  }

  /** Records one more expected creation for `key`, creating the record if
      there is none. The reconcile pass as written never calls this. */
  function RaiseAdds(t: Table, key: string, n: nat): Table
  {
    if key in t then t[key := Counters(t[key].add + n, t[key].del)] else t[key := Counters(n, 0)]
  }

  /** `n` observed creations one after another. */
  function ObserveCreations(t: Table, key: string, n: nat): Table
  {
    if n == 0 then t else CreationObserved(ObserveCreations(t, key, n - 1), key)
  }

  /** `n` observed creations lower the add counter by `n` in one go (floored
      at zero) and touch no other record. */
  lemma {:induction false} ObserveCreationsLowers(t: Table, key: string, n: nat)
    requires NonNegative(t)
    ensures ObserveCreations(t, key, n) == LowerAdds(t, key, n)
  {
    if n > 0 {
      ObserveCreationsLowers(t, key, n - 1);
      if key in t {
        assert Floor(Floor(t[key].add - (n - 1)) - 1) == Floor(t[key].add - n);
      }
    }
  }

  /** None of these operations breaks NonNegative. */
  lemma OperationsKeepNonNegative(t: Table, key: string, n: nat)
    requires NonNegative(t)
    ensures NonNegative(LowerAdds(t, key, n))
    ensures NonNegative(CreationObserved(t, key))
    ensures NonNegative(DeletionObserved(t, key))
    ensures NonNegative(DeleteExpectations(t, key))
    ensures NonNegative(RaiseAdds(t, key, n))
  {
  }

  /** Monotonicity: once as many creations as were expected have been
      observed (and no deletion is outstanding), the key is satisfied. */
  lemma EnoughObservationsSatisfy(t: Table, expired: set<string>, key: string, n: nat)
    requires NonNegative(t)
    requires key in t && t[key].add <= n && t[key].del <= 0
    ensures Satisfied(ObserveCreations(t, key, n), expired, key)
  {
    ObserveCreationsLowers(t, key, n);
  }

  /** No counter of t1 is above the same counter in t0, and t1 has no record
      t0 lacks: nothing new is expected. */
  predicate NoneRaised(t0: Table, t1: Table)
  {
    t1.Keys <= t0.Keys && forall k :: k in t1 ==> t1[k].add <= t0[k].add && t1[k].del <= t0[k].del
  }

  /** Observations and purges never raise an expectation; RaiseAdds with
      n > 0 always does. */
  lemma ObservationsNeverRaise(t: Table, key: string, n: nat)
    requires NonNegative(t)
    ensures NoneRaised(t, LowerAdds(t, key, n))
    ensures NoneRaised(t, CreationObserved(t, key))
    ensures NoneRaised(t, DeletionObserved(t, key))
    ensures NoneRaised(t, DeleteExpectations(t, key))
    ensures n > 0 ==> !NoneRaised(t, RaiseAdds(t, key, n))
  {
    if n > 0 {
      var t' := RaiseAdds(t, key, n);
      assert key in t' && (key !in t || t'[key].add > t[key].add);
    }
  }

  /** Satisfaction is stable under anything that raises nothing: while only
      observations and purges happen, a satisfied key stays satisfied. */
  lemma SatisfiedStaysSatisfied(t0: Table, t1: Table, expired: set<string>, key: string)
    requires NonNegative(t0) && NoneRaised(t0, t1)
    requires Satisfied(t0, expired, key)
    ensures Satisfied(t1, expired, key)
  {
  }

  /** Recording n > 0 expected creations closes the gate until the clock
      declares the record expired. */
  lemma RaisedIsUnsatisfied(t: Table, expired: set<string>, key: string, n: nat)
    requires NonNegative(t) && n > 0 && key !in expired
    ensures !Satisfied(RaiseAdds(t, key, n), expired, key)
  {
  }

  /** One more observed creation after n of them is n + 1 of them. */
  lemma LowerAddsStep(t: Table, key: string, n: nat)
    requires NonNegative(t)
    ensures CreationObserved(LowerAdds(t, key, n), key) == LowerAdds(t, key, n + 1)
  {
  }

  /** The table after a pass that raises the add counter before each
      creation attempt and lowers it again when the attempt fails: nothing
      changes without an attempt; otherwise the add counter has grown by the
      number of accepted creations (a missing record starts at zero). */
  function AfterAttempts(t: Table, key: string, attempted: bool, successes: nat): Table
  {
    if !attempted then t
    else if key in t then t[key := Counters(t[key].add + successes, t[key].del)]
    else t[key := Counters(successes, 0)]
  }

  /** An accepted attempt: raise only. A rejected attempt: raise, then
      observe, which restores the counters but leaves an empty record
      behind on the first attempt. */
  lemma AttemptStep(t: Table, key: string, attempted: bool, successes: nat)
    requires NonNegative(t) && (!attempted ==> successes == 0)
    ensures RaiseAdds(AfterAttempts(t, key, attempted, successes), key, 1) == AfterAttempts(t, key, true, successes + 1)
    ensures CreationObserved(RaiseAdds(AfterAttempts(t, key, attempted, successes), key, 1), key)
      == AfterAttempts(t, key, true, successes)
    ensures NonNegative(AfterAttempts(t, key, attempted, successes))
  {
  }

  /** After a pass with at least one accepted creation the gate is closed
      until the clock declares the record expired. */
  lemma AcceptedCreationCloses(t: Table, expired: set<string>, key: string, successes: nat)
    requires NonNegative(t) && successes > 0 && key !in expired
    ensures !Satisfied(AfterAttempts(t, key, true, successes), expired, key)
  {
  }
}
