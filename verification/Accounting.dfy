/** What the consumer's counters say about its queues. */
module Accounting {
  import opened Consumer

  datatype Kind = InDlq | Rejected | Unreported | Resent

  predicate Is(k: Copy, kind: Kind) {
    match kind
    case InDlq => k.place.Dead?
    case Rejected => k.place == Held(Rejecting)
    case Unreported => Uncounted(k.place)
    case Resent => k.waited > 0 && k.attached
  }

  function Count(copies: seq<Copy>, kind: Kind): nat {
    if copies == [] then 0 else (if Is(copies[0], kind) then 1 else 0) + Count(copies[1..], kind)
  }

  lemma {:induction false} CountOfUpdate(copies: seq<Copy>, c: nat, k: Copy, kind: Kind)
    requires c < |copies|
    ensures Count(copies[c := k], kind)
            == Count(copies, kind) - (if Is(copies[c], kind) then 1 else 0) + (if Is(k, kind) then 1 else 0)
  {
    if c > 0 {
      assert copies[c := k][1..] == copies[1..][c - 1 := k];
      CountOfUpdate(copies[1..], c - 1, k, kind);
    }
  }

  lemma {:induction false} CountOfAppend(copies: seq<Copy>, k: Copy, kind: Kind)
    ensures Count(copies + [k], kind) == Count(copies, kind) + (if Is(k, kind) then 1 else 0)
  {
    if copies != [] {
      assert (copies + [k])[1..] == copies[1..] + [k];
      CountOfAppend(copies[1..], k, kind);
    }
  }

  lemma CountOfStep(m: Mesh, a: Action, kind: Kind)
    requires Enabled(m, a) && !a.Publish?
    ensures var n := Apply(m, a);
            && a.c < |m.copies| <= |n.copies| <= |m.copies| + 1
            && Count(n.copies, kind) == Count(m.copies, kind)
                 - (if Is(m.copies[a.c], kind) then 1 else 0) + (if Is(n.copies[a.c], kind) then 1 else 0)
                 + (if |n.copies| > |m.copies| && Is(n.copies[|m.copies|], kind) then 1 else 0)
  {
    var n := Apply(m, a);
    StepFrame(m, a);
    var moved := m.copies[a.c := n.copies[a.c]];
    CountOfUpdate(m.copies, a.c, n.copies[a.c], kind);
    if |n.copies| > |m.copies| {
      assert n.copies == moved + [n.copies[|m.copies|]];
      CountOfAppend(moved, n.copies[|m.copies|], kind);
    } else {
      assert n.copies == moved;
    }
  }

  /** Dead letters, invocations and retries against their counters, with what
      crashes and broker errors took away. */
  predicate DeadLettersBalance(m: Mesh) {
    Count(m.copies, InDlq) + Count(m.copies, Rejected) + m.tally.lostRejects == m.tally.dlq + m.tally.invalid
  }

  predicate InvocationsBalance(m: Mesh) {
    m.tally.invocations == m.tally.results + Count(m.copies, Unreported) + m.tally.lostResults
  }

  predicate RetriesBalance(m: Mesh) {
    Count(m.copies, Resent) == m.tally.retries + m.tally.unconfirmed
  }

  function Bit(b: bool): nat {
    if b then 1 else 0
  }

  /** How a step's own copy weighs against the counters. */
  lemma DeadLettersOfStep(m: Mesh, a: Action)
    requires Enabled(m, a) && !a.Publish?
    ensures var n, k := Apply(m, a), m.copies[a.c];
            Bit(Is(n.copies[a.c], InDlq)) + Bit(Is(n.copies[a.c], Rejected)) + n.tally.lostRejects
            + m.tally.dlq + m.tally.invalid
            == Bit(Is(k, InDlq)) + Bit(Is(k, Rejected)) + m.tally.lostRejects + n.tally.dlq + n.tally.invalid
  {
  }

  lemma StepKeepsDeadLetters(m: Mesh, a: Action)
    requires DeadLettersBalance(m) && Enabled(m, a)
    ensures DeadLettersBalance(Apply(m, a))
  {
    if a.Publish? {
      CountOfAppend(m.copies, Apply(m, a).copies[|m.copies|], InDlq);
      CountOfAppend(m.copies, Apply(m, a).copies[|m.copies|], Rejected);
    } else {
      CountOfStep(m, a, InDlq);
      CountOfStep(m, a, Rejected);
      DeadLettersOfStep(m, a);
      StepFrame(m, a);
    }
  }

  lemma InvocationsOfStep(m: Mesh, a: Action)
    requires Enabled(m, a) && !a.Publish?
    ensures var n, k := Apply(m, a), m.copies[a.c];
            n.tally.invocations + m.tally.results + Bit(Is(k, Unreported)) + m.tally.lostResults
            == m.tally.invocations + n.tally.results + Bit(Is(n.copies[a.c], Unreported)) + n.tally.lostResults
  {
  }

  lemma StepKeepsInvocations(m: Mesh, a: Action)
    requires InvocationsBalance(m) && Enabled(m, a)
    ensures InvocationsBalance(Apply(m, a))
  {
    if a.Publish? {
      CountOfAppend(m.copies, Apply(m, a).copies[|m.copies|], Unreported);
    } else {
      CountOfStep(m, a, Unreported);
      InvocationsOfStep(m, a);
      StepFrame(m, a);
    }
  }

  lemma RetriesOfStep(m: Mesh, a: Action)
    requires Enabled(m, a) && !a.Publish?
    ensures var n, k := Apply(m, a), m.copies[a.c];
            Bit(Is(n.copies[a.c], Resent)) + Bit(|n.copies| > |m.copies| && Is(n.copies[|m.copies|], Resent))
            + m.tally.retries + m.tally.unconfirmed
            == Bit(Is(k, Resent)) + n.tally.retries + n.tally.unconfirmed
  {
  }

  lemma StepKeepsRetries(m: Mesh, a: Action)
    requires RetriesBalance(m) && Enabled(m, a)
    ensures RetriesBalance(Apply(m, a))
  {
    if a.Publish? {
      CountOfAppend(m.copies, Apply(m, a).copies[|m.copies|], Resent);
    } else {
      CountOfStep(m, a, Resent);
      RetriesOfStep(m, a);
    }
  }

  predicate Balanced(m: Mesh) {
    DeadLettersBalance(m) && InvocationsBalance(m) && RetriesBalance(m)
  }

  lemma {:induction false} RunKeepsBalance(m: Mesh, acts: seq<Action>)
    requires Balanced(m) && Runs(m, acts)
    ensures Balanced(After(m, acts))
    decreases acts
  {
    if acts != [] {
      StepKeepsDeadLetters(m, acts[0]);
      StepKeepsInvocations(m, acts[0]);
      StepKeepsRetries(m, acts[0]);
      RunKeepsBalance(Apply(m, acts[0]), acts[1..]);
    }
  }

  lemma StartsBalanced(m: Mesh)
    requires Fresh(m)
    ensures Balanced(m)
  {
  }

  predicate Smooth(a: Action) {
    !a.Crash? && !a.Detach? && !a.PublishRetryError?
  }

  predicate AllAttached(m: Mesh) {
    forall c :: 0 <= c < |m.copies| ==> m.copies[c].attached
  }

  lemma SmoothStepsLoseNothing(m: Mesh, a: Action)
    requires Enabled(m, a) && Smooth(a) && AllAttached(m)
    ensures AllAttached(Apply(m, a))
    ensures var t, u := m.tally, Apply(m, a).tally;
            u.lostRejects == t.lostRejects && u.lostResults == t.lostResults && u.unconfirmed == t.unconfirmed
  {
    StepFrame(m, a);
  }

  lemma {:induction false} SmoothRunsLoseNothing(m: Mesh, acts: seq<Action>)
    requires Runs(m, acts) && AllAttached(m) && forall i :: 0 <= i < |acts| ==> Smooth(acts[i])
    ensures var t, u := m.tally, After(m, acts).tally;
            u.lostRejects == t.lostRejects && u.lostResults == t.lostResults && u.unconfirmed == t.unconfirmed
    decreases acts
  {
    if acts != [] {
      SmoothStepsLoseNothing(m, acts[0]);
      SmoothRunsLoseNothing(Apply(m, acts[0]), acts[1..]);
    }
  }

  /** In every run the DLQ counter plus the invalid results is at least the
      depth of the dead-letter queue, no more results are counted than the
      consumer was invoked, and no retry is counted that was not sent. Without
      crashes and broker errors the depth, once nothing is being rejected, the
      results, once nothing is in progress, and the retries are exactly the
      counters. */
  lemma CountersAgreeWithQueues(m: Mesh, acts: seq<Action>)
    requires Fresh(m) && Runs(m, acts)
    ensures var n := After(m, acts);
            && Count(n.copies, InDlq) <= n.tally.dlq + n.tally.invalid
            && n.tally.results <= n.tally.invocations
            && n.tally.retries <= Count(n.copies, Resent)
    ensures (forall i :: 0 <= i < |acts| ==> Smooth(acts[i])) ==>
              var n := After(m, acts);
              && Count(n.copies, InDlq) + Count(n.copies, Rejected) == n.tally.dlq + n.tally.invalid
              && n.tally.results + Count(n.copies, Unreported) == n.tally.invocations
              && n.tally.retries == Count(n.copies, Resent)
  {
    StartsBalanced(m);
    RunKeepsBalance(m, acts);
    if forall i :: 0 <= i < |acts| ==> Smooth(acts[i]) {
      SmoothRunsLoseNothing(m, acts);
    }
  }

  // ---- what each counter counts ------------------------------------------------

  function Number(acts: seq<Action>, what: Action -> bool): nat {
    if acts == [] then 0 else Bit(what(acts[0])) + Number(acts[1..], what)
  }

  predicate IsInvocation(a: Action) { a.Deliver? }

  predicate IsRefusal(a: Action) { a.RefuseBody? }

  predicate IsFatal(a: Action) { a.Fail? && !a.retryable }

  predicate IsGivingUp(a: Action) { a.GiveUp? }

  predicate IsRetry(a: Action) { a.PublishRetry? }

  lemma CountersOfStep(m: Mesh, a: Action)
    requires Enabled(m, a)
    ensures var t, u := m.tally, Apply(m, a).tally;
            && u.invocations == t.invocations + Bit(IsInvocation(a))
            && u.invalid == t.invalid + Bit(IsRefusal(a))
            && u.dlq == t.dlq + Bit(IsFatal(a)) + Bit(IsGivingUp(a))
            && u.retries == t.retries + Bit(IsRetry(a))
  {
  }

  /** Along any run the invocations are the deliveries to a consumer, the
      invalid results are the refused bodies, the DLQ counter is the fatal
      failures and the messages given up, and the retry counter the confirmed
      retries: each counter on its own. */
  lemma {:induction false} CountersCountSteps(m: Mesh, acts: seq<Action>)
    requires Runs(m, acts)
    ensures var t, u := m.tally, After(m, acts).tally;
            && u.invocations == t.invocations + Number(acts, IsInvocation)
            && u.invalid == t.invalid + Number(acts, IsRefusal)
            && u.dlq == t.dlq + Number(acts, IsFatal) + Number(acts, IsGivingUp)
            && u.retries == t.retries + Number(acts, IsRetry)
    decreases acts
  {
    if acts != [] {
      CountersOfStep(m, acts[0]);
      CountersCountSteps(Apply(m, acts[0]), acts[1..]);
    }
  }
}
