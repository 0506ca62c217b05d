/**
  The effects of one event inside the consumer's transaction
  (src/webhooks/delivery.py): one delivery row per subscriber that can be
  called. What the network, DNS and the secret store answer is given.
*/
module Delivery {
  import opened Common

  const BODY_LIMIT := 2000

  datatype Secret = NoSecret | Unreadable | Readable

  /** A call to a subscriber: an answer, an HTTP-level error, or any other
      exception. `reason` is what raise_for_status says of a bad answer. */
  datatype Call =
    | Answered(status: int, body: string, reason: string)
    | HttpError(message: string)
    | Crashed

  /** An active subscription to the event, as the query returns it. The URL is
      checked twice and may pass once only. */
  datatype Hook = Hook(id: nat, secret: Secret, safe: bool, stillSafe: bool, call: Call)

  datatype DeliveryRow = DeliveryRow(
    webhook: nat, event: nat, statusCode: Option<int>, responseBody: Option<string>, attempts: nat)

  /** What delivery finds for the event: no usable task id, a malformed one, no
      organization any more, or the organization's subscriptions. */
  datatype Target = NoTask | MalformedTask | NoOrganization | Subscribed(hooks: seq<Hook>)

  predicate Success(status: int) {
    200 <= status < 300
  }

  predicate Eligible(h: Hook) {
    h.secret.Readable? && h.safe && h.stillSafe
  }

  /** Subscriber `h` makes the whole delivery raise. */
  predicate Raises(h: Hook) {
    h.safe && (h.secret.Unreadable? || (h.secret.Readable? && h.stillSafe && h.call.Crashed?))
  }

  function RowFor(h: Hook, event: nat): DeliveryRow {
    match h.call
    case Answered(status, body, reason) =>
      var text := Prefix(body, BODY_LIMIT);
      DeliveryRow(h.id, event, Some(status), Some(if !Success(status) && text == "" then reason else text), 1)
    case HttpError(message) => DeliveryRow(h.id, event, None, Some(message), 1)
    case Crashed => DeliveryRow(h.id, event, None, None, 1)
  }

  /** The rows of the subscribers before the first one that raises, and whether one did. */
  function RowsOf(hooks: seq<Hook>, event: nat): (r: (seq<DeliveryRow>, bool))
    decreases hooks
  {
    if hooks == [] then ([], false)
    else
      var h := hooks[0];
      if Raises(h) then (if Eligible(h) then [RowFor(h, event)] else [], true)
      else
        var rest := RowsOf(hooks[1..], event);
        ((if Eligible(h) then [RowFor(h, event)] else []) + rest.0, rest.1)
  }

  /** The session's pending rows if delivery returns, None if it raises. */
  function Deliver(target: Target, event: nat): Option<seq<DeliveryRow>> {
    match target
    case NoTask => Some([])
    case MalformedTask => None
    case NoOrganization => Some([])
    case Subscribed(hooks) =>
      var r := RowsOf(hooks, event);
      if r.1 then None else Some(r.0)
  }

  // ---- what a row records, said without the loop ---------------------------

  /** The row of event `event` for a call to `h`: one attempt, the status and up
      to 2000 characters of an answer, or the reason of a bad answer without a
      body, or the message of an HTTP error and no status. */
  predicate IsRecord(r: DeliveryRow, h: Hook, event: nat) {
    && r.webhook == h.id && r.event == event && r.attempts == 1
    && match h.call
       case Answered(status, body, reason) =>
         && r.statusCode == Some(status)
         && r.responseBody == Some(if body == "" && !(200 <= status <= 299) then reason
                                   else if |body| <= 2000 then body else body[..2000])
       case HttpError(message) => r.statusCode == None && r.responseBody == Some(message)
       case Crashed => r.statusCode == None && r.responseBody == None
  }

  /** The places of the subscribers that are called: those with a readable secret
      and a URL judged safe both times. */
  ghost predicate Places(hooks: seq<Hook>, idx: seq<nat>) {
    && (forall i, j :: 0 <= i < j < |idx| ==> idx[i] < idx[j])
    && (forall i: nat :: i in idx <==>
          i < |hooks| && hooks[i].secret.Readable? && hooks[i].safe && hooks[i].stillSafe)
  }

  /** `rows` records the calls to the subscribers at `idx`, in order. */
  ghost predicate RowsAt(hooks: seq<Hook>, rows: seq<DeliveryRow>, idx: seq<nat>, event: nat) {
    && |rows| == |idx|
    && forall k :: 0 <= k < |idx| ==> idx[k] < |hooks| && IsRecord(rows[k], hooks[idx[k]], event)
  }

  ghost predicate Records(hooks: seq<Hook>, rows: seq<DeliveryRow>, idx: seq<nat>, event: nat) {
    Places(hooks, idx) && RowsAt(hooks, rows, idx, event)
  }

  /** A malformed task id, or a subscriber with a safe URL whose secret cannot be
      read, or whose call ends in something other than an HTTP error. */
  ghost predicate DeliveryRaises(target: Target) {
    || target.MalformedTask?
    || (target.Subscribed? &&
        exists h <- target.hooks ::
          h.safe && (h.secret.Unreadable? || (h.secret.Readable? && h.stillSafe && h.call.Crashed?)))
  }

  lemma RaisesWhen(target: Target, event: nat)
    ensures DeliveryRaises(target) <==> Deliver(target, event).None?
  {
    if target.Subscribed? {
      OneRowPerEligibleSubscriber(target.hooks, event);
    }
  }

  function Moved(idx: seq<nat>): seq<nat> {
    seq(|idx|, k requires 0 <= k < |idx| => idx[k] + 1)
  }

  lemma MovedHas(idx: seq<nat>, i: nat)
    ensures i in Moved(idx) <==> i > 0 && i - 1 in idx
  {
    if i > 0 && i - 1 in idx {
      var k :| 0 <= k < |idx| && idx[k] == i - 1;
      assert Moved(idx)[k] == i;
    }
  }

  lemma PlacesBehind(h: Hook, hooks: seq<Hook>, idx: seq<nat>)
    requires Places(hooks, idx)
    ensures Places([h] + hooks, (if Eligible(h) then [0] else []) + Moved(idx))
  {
    var all, now := [h] + hooks, (if Eligible(h) then [0] else []) + Moved(idx);
    forall i: nat
      ensures i in now <==> i < |all| && all[i].secret.Readable? && all[i].safe && all[i].stillSafe
    {
      MovedHas(idx, i);
      assert i > 0 && i < |all| ==> all[i] == hooks[i - 1];
    }
  }

  lemma SkippedFirst(h: Hook, hooks: seq<Hook>, rows: seq<DeliveryRow>, idx: seq<nat>, event: nat)
    requires RowsAt(hooks, rows, idx, event)
    ensures RowsAt([h] + hooks, rows, Moved(idx), event)
  {
    forall k | 0 <= k < |idx| ensures IsRecord(rows[k], ([h] + hooks)[idx[k] + 1], event) {
      assert ([h] + hooks)[idx[k] + 1] == hooks[idx[k]];
    }
  }

  lemma CalledFirst(h: Hook, hooks: seq<Hook>, rows: seq<DeliveryRow>, idx: seq<nat>, event: nat, row: DeliveryRow)
    requires RowsAt(hooks, rows, idx, event) && IsRecord(row, h, event)
    ensures RowsAt([h] + hooks, [row] + rows, [0] + Moved(idx), event)
  {
    SkippedFirst(h, hooks, rows, idx, event);
    var now := [0] + Moved(idx);
    forall k | 0 < k < |now| ensures IsRecord(([row] + rows)[k], ([h] + hooks)[now[k]], event) {
      assert now[k] == Moved(idx)[k - 1] && ([row] + rows)[k] == rows[k - 1];
    }
  }

  /** A delivery that returns has recorded its calls. */
  lemma {:induction false} RowsRecordCalls(hooks: seq<Hook>, event: nat) returns (idx: seq<nat>)
    requires !RowsOf(hooks, event).1
    ensures Records(hooks, RowsOf(hooks, event).0, idx, event)
  {
    if hooks == [] {
      idx := [];
    } else {
      var rest := RowsRecordCalls(hooks[1..], event);
      var rows := RowsOf(hooks[1..], event).0;
      assert hooks == [hooks[0]] + hooks[1..];
      PlacesBehind(hooks[0], hooks[1..], rest);
      if Eligible(hooks[0]) {
        idx := [0] + Moved(rest);
        CalledFirst(hooks[0], hooks[1..], rows, rest, event, RowFor(hooks[0], event));
      } else {
        idx := Moved(rest);
        SkippedFirst(hooks[0], hooks[1..], rows, rest, event);
        assert [] + rows == rows && [] + idx == idx;
      }
    }
  }

  class Session {
    var added: seq<DeliveryRow>

    constructor ()
      ensures added == []
    {
      added := [];
    }

    /** The loop over the subscribers. */
    method CallAll(hooks: seq<Hook>, event: nat) returns (ok: bool)
      modifies this
      ensures ok == !RowsOf(hooks, event).1
      ensures ok ==> added == old(added) + RowsOf(hooks, event).0
    {
      for i := 0 to |hooks|
        invariant added + RowsOf(hooks[i..], event).0 == old(added) + RowsOf(hooks, event).0
        invariant RowsOf(hooks[i..], event).1 == RowsOf(hooks, event).1
      {
        var h := hooks[i];
        assert hooks[i..][0] == h && hooks[i..][1..] == hooks[i + 1..];
        if h.secret.NoSecret? || !h.safe {
          continue;
        }
        if h.secret.Unreadable? {
          return false;
        }
        if !h.stillSafe {
          continue;
        }
        var statusCode: Option<int> := None;
        var responseBody: Option<string> := None;
        match h.call {
          case Answered(status, body, reason) =>
            statusCode := Some(status);
            responseBody := Some(Prefix(body, BODY_LIMIT));
            if !Success(status) && responseBody.value == "" {
              responseBody := Some(reason);
            }
          case HttpError(message) => responseBody := Some(message);
          case Crashed =>
        }
        added := added + [DeliveryRow(h.id, event, statusCode, responseBody, 1)];
        if h.call.Crashed? {
          return false;
        }
      }
      assert hooks[|hooks|..] == [];
      return true;
    }

    /** deliver_webhooks_for_outbox_event; `ok` is false when it raises. Without
        a task id or an organization it returns with nothing added; a malformed
        id raises; otherwise it raises exactly when a subscriber makes it, and
        adds a record of each call it made. */
    method DeliverWebhooks(target: Target, event: nat) returns (ok: bool)
      modifies this
      ensures ok == Deliver(target, event).Some?
      ensures ok ==> added == old(added) + Deliver(target, event).value
      ensures ok <==> !DeliveryRaises(target)
      ensures !target.Subscribed? ==> added == old(added)
      ensures ok ==> old(added) <= added
      ensures ok && target.Subscribed? ==> exists idx :: Records(target.hooks, added[|old(added)|..], idx, event)
    {
      RaisesWhen(target, event);
      match target {
        case NoTask => return true;
        case MalformedTask => return false;
        case NoOrganization => return true;
        case Subscribed(hooks) =>
          ok := CallAll(hooks, event);
          if ok {
            ghost var idx := RowsRecordCalls(hooks, event);
            assert added[|old(added)|..] == RowsOf(hooks, event).0;
          }
      }
    }
  }

  function Webhooks(rows: seq<DeliveryRow>): seq<nat> {
    seq(|rows|, i requires 0 <= i < |rows| => rows[i].webhook)
  }

  function EligibleIds(hooks: seq<Hook>): seq<nat> {
    if hooks == [] then []
    else (if Eligible(hooks[0]) then [hooks[0].id] else []) + EligibleIds(hooks[1..])
  }

  lemma {:induction false} RowsMatchHooks(hooks: seq<Hook>, event: nat)
    requires !RowsOf(hooks, event).1
    ensures Webhooks(RowsOf(hooks, event).0) == EligibleIds(hooks)
    ensures forall r <- RowsOf(hooks, event).0 :: r.event == event
    ensures forall h <- hooks :: !Raises(h)
  {
    if hooks != [] {
      RowsMatchHooks(hooks[1..], event);
    }
  }

  lemma {:induction false} NobodyRaises(hooks: seq<Hook>, event: nat)
    requires forall h <- hooks :: !Raises(h)
    ensures !RowsOf(hooks, event).1
  {
    if hooks != [] {
      NobodyRaises(hooks[1..], event);
    }
  }

  /** Delivery returns exactly when no subscriber raises, and then leaves one
      row per subscriber that can be called, in order, whatever each call
      returned: a failing one neither removes nor skips another. */
  lemma OneRowPerEligibleSubscriber(hooks: seq<Hook>, event: nat)
    ensures Deliver(Subscribed(hooks), event).Some? <==> forall h <- hooks :: !Raises(h)
    ensures Deliver(Subscribed(hooks), event).Some? ==>
              var rows := Deliver(Subscribed(hooks), event).value;
              && Webhooks(rows) == EligibleIds(hooks)
              && (forall r <- rows :: r.event == event)
  {
    if !RowsOf(hooks, event).1 {
      RowsMatchHooks(hooks, event);
    }
    if forall h <- hooks :: !Raises(h) {
      NobodyRaises(hooks, event);
    }
  }

  lemma {:induction false} EligibleIdsAreHooks(hooks: seq<Hook>, id: nat)
    ensures id in EligibleIds(hooks) <==>
            exists i :: 0 <= i < |hooks| && hooks[i].id == id &&
                        hooks[i].secret.Readable? && hooks[i].safe && hooks[i].stillSafe
  {
    if hooks != [] {
      EligibleIdsAreHooks(hooks[1..], id);
      if id in EligibleIds(hooks[1..]) {
        var i :| 0 <= i < |hooks| - 1 && hooks[1..][i].id == id && Eligible(hooks[1..][i]);
        assert hooks[i + 1].id == id && Eligible(hooks[i + 1]);
      }
      if exists i :: 0 <= i < |hooks| && hooks[i].id == id && Eligible(hooks[i]) {
        var i :| 0 <= i < |hooks| && hooks[i].id == id && Eligible(hooks[i]);
        if i > 0 {
          assert hooks[1..][i - 1].id == id && Eligible(hooks[1..][i - 1]);
        }
      }
    }
  }

  /** Subscriptions come out of one table, so no id repeats, and then no
      subscriber gets two rows for the event. */
  lemma {:induction false} NoRepeatedSubscriber(hooks: seq<Hook>)
    requires forall i, j :: 0 <= i < j < |hooks| ==> hooks[i].id != hooks[j].id
    ensures Distinct(EligibleIds(hooks))
  {
    if hooks != [] {
      NoRepeatedSubscriber(hooks[1..]);
      EligibleIdsAreHooks(hooks[1..], hooks[0].id);
    }
  }
}
