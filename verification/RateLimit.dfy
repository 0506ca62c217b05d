/**
  The fixed-window rate limiter (src/infrastructure/rate_limit.py): a counter
  in Redis, incremented by every request and given its time to live by the
  request that found it at one. INCR and EXPIRE are two commands; anything may
  happen between them.
*/
module RateLimit {
  import opened Common

  type Positive = n: nat | n > 0 witness 1

  /** One key of the store. Without an expiry it stays for ever. */
  datatype Cell = Absent | Live(count: Positive, expiry: Option<int>)

  function Seen(c: Cell, now: int): Cell {
    if c.Live? && c.expiry.Some? && c.expiry.value <= now then Absent else c
  }

  function Incremented(c: Cell, now: int): Cell {
    match Seen(c, now)
    case Absent => Live(1, None)
    case Live(count, expiry) => Live(count + 1, expiry)
  }

  function Expiring(c: Cell, now: int, window: nat): Cell {
    match Seen(c, now)
    case Absent => Absent
    case Live(count, _) => Live(count, Some(now + window))
  }

  // ---- one request -----------------------------------------------------------

  type Key = (string, string)

  class Redis {
    var cells: map<Key, Cell>

    function At(key: Key): Cell
      reads this
    {
      if key in cells then cells[key] else Absent
    }

    method Incr(key: Key, now: int) returns (current: nat)
      modifies this
      ensures cells == old(cells)[key := Incremented(old(At(key)), now)]
      ensures At(key).Live? && current == At(key).count
    {
      cells := cells[key := Incremented(At(key), now)];
      current := cells[key].count;
    }

    method Expire(key: Key, now: int, window: nat)
      modifies this
      ensures cells == old(cells)[key := Expiring(old(At(key)), now, window)]
    {
      cells := cells[key := Expiring(At(key), now, window)];
    }
  }

  /** Which command raises or times out, if one does, and whether it took effect. */
  datatype Fault = NoFault | AtIncr(applied: bool) | AtExpire(applied: bool)

  datatype Decision = Exempt | Admitted | Refused | FailedOpen

  predicate IsExempt(path: string) {
    "/health" <= path || "/metrics" <= path
  }

  /** The key's cell after one request's commands on it. */
  function Requested(c: Cell, incrAt: int, expireAt: int, window: nat, fault: Fault): Cell {
    if fault == AtIncr(false) then c
    else
      var counted := Incremented(c, incrAt);
      if fault.AtIncr? || counted.count > 1 || fault == AtExpire(false) then counted
      else Expiring(counted, expireAt, window)
  }

  /** dispatch: the request goes through unless its INCR answers more than
      `limit`; a store that fails lets it through. No other key is touched. If
      `r` is the key's trace so far, the call is a run `ops` of it, judged by
      the number of its hit. */
  method Dispatch(redis: Redis, client: Option<string>, path: string, incrAt: int, expireAt: int,
                  limit: nat, window: nat, fault: Fault, ghost r: Trace)
    returns (d: Decision, ghost ops: seq<Op>)
    requires incrAt <= expireAt && window > 0 && r.clock <= incrAt
    modifies redis
    ensures var key := (if client.Some? then client.value else "unknown", path);
            var before := old(redis.At(key));
            var alive := before.Live? && (before.expiry == None || before.expiry.value > incrAt);
            var number := if alive then before.count + 1 else 1;
            if (|path| >= 7 && path[..7] == "/health") || (|path| >= 8 && path[..8] == "/metrics")
            then d == Exempt && redis.cells == old(redis.cells)
            else
              && redis.cells - {key} == old(redis.cells) - {key}
              && redis.At(key) == Requested(before, incrAt, expireAt, window, fault)
              && redis.At(key) == (if fault == AtIncr(false) then before
                                   else Live(number, if number == 1 && !fault.AtIncr? && fault != AtExpire(false)
                                                     then Some(expireAt + window)
                                                     else if alive then before.expiry else None))
              && d == if fault.AtIncr? || (fault.AtExpire? && number == 1) then FailedOpen
                      else if number > limit then Refused else Admitted
    ensures var key := (if client.Some? then client.value else "unknown", path);
            !IsExempt(path) && r.cell == old(redis.At(key)) ==>
              && Runs(r, ops, window) && After(r, ops, window).cell == redis.At(key)
              && (d == Admitted || d == Refused ==>
                    && |After(r, ops, window).log| == |r.log| + 1
                    && (d == Refused <==> After(r, ops, window).log[|r.log|].n > limit))
  {
    ops := RequestIsARun(r, incrAt, expireAt, window, fault);
    if IsExempt(path) {
      return Exempt, ops;
    }
    var key := (if client.Some? then client.value else "unknown", path);
    if fault == AtIncr(false) {
      return FailedOpen, ops;
    }
    var current := redis.Incr(key, incrAt);
    if fault.AtIncr? {
      return FailedOpen, ops;
    }
    if current == 1 {
      if fault == AtExpire(false) {
        return FailedOpen, ops;
      }
      redis.Expire(key, expireAt, window);
      if fault.AtExpire? {
        return FailedOpen, ops;
      }
    }
    if current > limit {
      return Refused, ops;
    }
    return Admitted, ops;
  }

  // ---- all commands on one key -------------------------------------------------

  /** The commands the requests of one client and path send, in the order the
      store executes them. */
  datatype Op = Incr(at: int) | Expire(at: int)

  /** The `n`-th INCR of the counter's `epoch`-th lifetime, executed at `at`. */
  datatype Hit = Hit(epoch: nat, n: nat, at: int)

  /** `starts` holds the first INCR of every lifetime; `owed` says that its
      EXPIRE has not been executed (it may never be). */
  datatype Trace = Trace(cell: Cell, owed: bool, clock: int, starts: seq<int>, log: seq<Hit>)

  predicate Enabled(r: Trace, op: Op) {
    op.at >= r.clock && (op.Expire? ==> r.owed)
  }

  function Step(r: Trace, op: Op, window: nat): Trace
    requires Enabled(r, op)
  {
    match op
    case Incr(at) =>
      var cell := Incremented(r.cell, at);
      var starts := if Seen(r.cell, at).Absent? then r.starts + [at] else r.starts;
      Trace(cell, r.owed || Seen(r.cell, at).Absent?, at, starts,
            r.log + [Hit(if |starts| > 0 then |starts| - 1 else 0, cell.count, at)])
    case Expire(at) => Trace(Expiring(r.cell, at, window), false, at, r.starts, r.log)
  }

  predicate Runs(r: Trace, ops: seq<Op>, window: nat)
    decreases ops
  {
    ops == [] || (Enabled(r, ops[0]) && Runs(Step(r, ops[0], window), ops[1..], window))
  }

  function After(r: Trace, ops: seq<Op>, window: nat): Trace
    requires Runs(r, ops, window)
    decreases ops
  {
    if ops == [] then r else After(Step(r, ops[0], window), ops[1..], window)
  }

  predicate Fresh(r: Trace) {
    r.cell == Absent && !r.owed && r.starts == [] && r.log == []
  }

  /** A hit lies in its lifetime, and the first one begins it. */
  ghost predicate Placed(r: Trace, h: Hit) {
    && h.epoch < |r.starts| && 1 <= h.n
    && r.starts[h.epoch] <= h.at <= r.clock
    && (h.epoch + 1 < |r.starts| ==> h.at <= r.starts[h.epoch + 1])
    && (h.n == 1 ==> h.at == r.starts[h.epoch])
    && (h.epoch + 1 == |r.starts| ==> r.cell.Live? && h.n <= r.cell.count)
  }

  ghost predicate Inv(r: Trace, window: nat) {
    && (forall i, j :: 0 <= i < j < |r.starts| ==> r.starts[i] + window <= r.starts[j])
    && (forall h :: h in r.log ==> Placed(r, h))
    && (forall i, j :: 0 <= i < j < |r.log| ==> (r.log[i].epoch, r.log[i].n) != (r.log[j].epoch, r.log[j].n))
    && (r.cell.Live? ==> r.starts != [] && r.cell.count >= 1 && r.starts[|r.starts| - 1] <= r.clock
                         && r.owed == (r.cell.expiry == None)
                         && (r.cell.expiry.Some? ==> r.starts[|r.starts| - 1] + window <= r.cell.expiry.value))
    && (r.cell.Absent? ==> r.starts == [] && !r.owed)
  }

  lemma StepKeepsPlaced(r: Trace, op: Op, window: nat, h: Hit)
    requires Inv(r, window) && Enabled(r, op) && window > 0 && h in Step(r, op, window).log
    ensures Placed(Step(r, op, window), h)
  {
    if h in r.log {
      assert Placed(r, h);
    }
  }

  /** The request that has just been counted has a number of its own. */
  lemma NewHitIsNew(r: Trace, at: int, window: nat, i: nat)
    requires Inv(r, window) && Enabled(r, Incr(at)) && window > 0 && i < |r.log|
    ensures var h := Step(r, Incr(at), window).log[|r.log|]; (r.log[i].epoch, r.log[i].n) != (h.epoch, h.n)
  {
    assert r.log[i] in r.log;
    assert Placed(r, r.log[i]);
  }

  lemma StepKeepsInv(r: Trace, op: Op, window: nat)
    requires Inv(r, window) && Enabled(r, op) && window > 0
    ensures Inv(Step(r, op, window), window)
  {
    var n := Step(r, op, window);
    forall h | h in n.log ensures Placed(n, h) {
      StepKeepsPlaced(r, op, window, h);
    }
    if op.Incr? {
      forall i | 0 <= i < |r.log| ensures (n.log[i].epoch, n.log[i].n) != (n.log[|r.log|].epoch, n.log[|r.log|].n) {
        NewHitIsNew(r, op.at, window, i);
      }
    }
  }

  lemma {:induction false} RunKeepsInv(r: Trace, ops: seq<Op>, window: nat)
    requires Inv(r, window) && Runs(r, ops, window) && window > 0
    ensures Inv(After(r, ops, window), window)
    decreases ops
  {
    if ops != [] {
      StepKeepsInv(r, ops[0], window);
      RunKeepsInv(Step(r, ops[0], window), ops[1..], window);
    }
  }

  /** The requests the counter admits in the half-open interval of length
      `window` from `a` on. No two hits are equal, so this counts requests. */
  function AdmittedIn(r: Trace, a: int, window: nat, limit: nat): set<Hit> {
    set h | h in r.log && h.n <= limit && a <= h.at < a + window
  }

  /** Hits of one lifetime are told apart by their number. */
  lemma {:induction false} HitsByNumber(hits: set<Hit>, lo: nat, hi: nat)
    requires lo <= hi + 1
    requires forall h :: h in hits ==> lo <= h.n <= hi
    requires forall h, g :: h in hits && g in hits && h.n == g.n ==> h == g
    ensures |hits| <= hi + 1 - lo
    decreases hi + 1 - lo
  {
    if lo == hi + 1 {
      assert forall h :: h !in hits;
      assert hits == {};
    } else if h :| h in hits && h.n == lo {
      HitsByNumber(hits - {h}, lo + 1, hi);
    } else {
      HitsByNumber(hits, lo + 1, hi);
    }
  }

  /** An interval of one window's length meets at most two lifetimes, and if it
      meets two it misses the first request of the earlier one. */
  lemma WindowMeetsTwoLifetimes(r: Trace, a: int, window: nat, limit: nat, g: Hit, h: Hit)
    requires Inv(r, window) && window > 0
    requires g in AdmittedIn(r, a, window, limit) && h in AdmittedIn(r, a, window, limit) && g.epoch < h.epoch
    ensures h.epoch == g.epoch + 1 && g.n >= 2
  {
    assert Placed(r, g) && Placed(r, h);
  }

  /** The guarantee of the fixed window: whatever the interleaving of INCR and
      EXPIRE, fewer than 2 * limit requests are admitted in any half-open
      interval as long as the window. */
  lemma FixedWindowBound(r: Trace, ops: seq<Op>, a: int, window: nat, limit: nat)
    requires Fresh(r) && Runs(r, ops, window) && window > 0 && limit > 0
    ensures |AdmittedIn(After(r, ops, window), a, window, limit)| <= 2 * limit - 1
  {
    RunKeepsInv(r, ops, window);
    BoundOf(After(r, ops, window), a, window, limit);
  }

  lemma HitsAreNumbered(r: Trace, a: int, window: nat, limit: nat)
    requires Inv(r, window)
    ensures var hits := AdmittedIn(r, a, window, limit);
            && (forall h, g | h in hits && g in hits && h.epoch == g.epoch && h.n == g.n :: h == g)
            && (forall h | h in hits :: 1 <= h.n)
  {
  }

  /** Counting two lifetimes, the earlier without its first request. */
  lemma CountTwoLifetimes(hits: set<Hit>, epoch: nat, limit: nat)
    requires limit > 0
    requires forall x | x in hits :: 1 <= x.n <= limit && ((x.epoch == epoch && x.n >= 2) || x.epoch == epoch + 1)
    requires forall x, y | x in hits && y in hits && x.epoch == y.epoch && x.n == y.n :: x == y
    ensures |hits| <= 2 * limit - 1
  {
    var early := InEpoch(hits, epoch);
    var late := hits - early;
    HitsByNumber(early, 2, limit);
    HitsByNumber(late, 1, limit);
    assert early <= hits;
    assert |late| == |hits| - |early|;
  }

  function InEpoch(hits: set<Hit>, epoch: nat): set<Hit> {
    set x | x in hits && x.epoch == epoch
  }

  lemma TwoLifetimes(r: Trace, a: int, window: nat, limit: nat, g: Hit, h: Hit, x: Hit)
    requires Inv(r, window) && window > 0
    requires g in AdmittedIn(r, a, window, limit) && h in AdmittedIn(r, a, window, limit) && g.epoch < h.epoch
    requires x in AdmittedIn(r, a, window, limit)
    ensures (x.epoch == g.epoch && x.n >= 2) || x.epoch == g.epoch + 1
  {
    WindowMeetsTwoLifetimes(r, a, window, limit, g, h);
    if x.epoch <= g.epoch {
      WindowMeetsTwoLifetimes(r, a, window, limit, x, h);
    } else {
      WindowMeetsTwoLifetimes(r, a, window, limit, g, x);
    }
  }

  lemma BoundOf(r: Trace, a: int, window: nat, limit: nat)
    requires Inv(r, window) && window > 0 && limit > 0
    ensures |AdmittedIn(r, a, window, limit)| <= 2 * limit - 1
  {
    var hits := AdmittedIn(r, a, window, limit);
    HitsAreNumbered(r, a, window, limit);
    if g, h :| g in hits && h in hits && g.epoch < h.epoch {
      forall x | x in hits ensures (x.epoch == g.epoch && x.n >= 2) || x.epoch == g.epoch + 1 {
        TwoLifetimes(r, a, window, limit, g, h, x);
      }
      CountTwoLifetimes(hits, g.epoch, limit);
    } else {
      forall h, g | h in hits && g in hits ensures h.epoch == g.epoch {
        assert !(h.epoch < g.epoch) && !(g.epoch < h.epoch);
      }
      HitsByNumber(hits, 1, limit);
    }
  }

  /** The commands of one request, with nothing in between, are a run of the
      trace; its hit carries the number the request is judged by. */
  lemma RequestIsARun(r: Trace, incrAt: int, expireAt: int, window: nat, fault: Fault) returns (ops: seq<Op>)
    requires r.clock <= incrAt <= expireAt
    ensures Runs(r, ops, window)
    ensures After(r, ops, window).cell == Requested(r.cell, incrAt, expireAt, window, fault)
    ensures fault == AtIncr(false) ==> ops == []
    ensures fault != AtIncr(false) ==>
              var log := After(r, ops, window).log;
              && |log| == |r.log| + 1 && log[..|r.log|] == r.log
              && log[|r.log|].n == Incremented(r.cell, incrAt).count && log[|r.log|].at == incrAt
  {
    if fault == AtIncr(false) {
      ops := [];
    } else if fault.AtIncr? || Incremented(r.cell, incrAt).count > 1 || fault == AtExpire(false) {
      ops := [Incr(incrAt)];
      OneStep(r, Incr(incrAt), window);
    } else {
      ops := [Incr(incrAt), Expire(expireAt)];
      TwoSteps(r, Incr(incrAt), Expire(expireAt), window);
    }
  }

  // ---- the bound is reached ------------------------------------------------------

  lemma {:induction false} RunThenRun(r: Trace, xs: seq<Op>, ys: seq<Op>, window: nat)
    requires Runs(r, xs, window) && Runs(After(r, xs, window), ys, window)
    ensures Runs(r, xs + ys, window) && After(r, xs + ys, window) == After(After(r, xs, window), ys, window)
    decreases xs
  {
    if xs == [] {
      assert xs + ys == ys;
    } else {
      assert (xs + ys)[1..] == xs[1..] + ys;
      RunThenRun(Step(r, xs[0], window), xs[1..], ys, window);
    }
  }

  lemma OneStep(r: Trace, op: Op, window: nat)
    requires Enabled(r, op)
    ensures Runs(r, [op], window) && After(r, [op], window) == Step(r, op, window)
  {
  }

  lemma TwoSteps(r: Trace, a: Op, b: Op, window: nat)
    requires Enabled(r, a) && Enabled(Step(r, a, window), b)
    ensures Runs(r, [a, b], window) && After(r, [a, b], window) == Step(Step(r, a, window), b, window)
  {
    assert [a, b][1..] == [b];
    OneStep(Step(r, a, window), b, window);
  }

  function Numbered(epoch: nat, lo: nat, hi: nat, at: int): set<Hit> {
    set n | lo <= n <= hi :: Hit(epoch, n, at)
  }

  lemma {:induction false} SizeOfNumbered(epoch: nat, lo: nat, hi: nat, at: int)
    requires lo <= hi + 1
    ensures |Numbered(epoch, lo, hi, at)| == hi + 1 - lo
    decreases hi + 1 - lo
  {
    if lo == hi + 1 {
      assert Numbered(epoch, lo, hi, at) == {};
    } else {
      SizeOfNumbered(epoch, lo + 1, hi, at);
      assert Numbered(epoch, lo, hi, at) == {Hit(epoch, lo, at)} + Numbered(epoch, lo + 1, hi, at);
    }
  }

  /** `k` further requests at time `at` in a lifetime that lasts beyond it. */
  lemma {:induction false} Burst(r: Trace, at: int, k: nat, window: nat) returns (ops: seq<Op>)
    requires r.cell.Live? && r.cell.expiry.Some? && at < r.cell.expiry.value && r.clock <= at && r.starts != []
    ensures Runs(r, ops, window)
    ensures var n := After(r, ops, window);
            && n.cell == Live(r.cell.count + k, r.cell.expiry)
            && n.starts == r.starts && (n.clock == at || (k == 0 && n == r)) && n.clock <= at
            && (forall h :: h in r.log ==> h in n.log)
            && (forall h :: h in Numbered(|r.starts| - 1, r.cell.count + 1, r.cell.count + k, at) ==> h in n.log)
    decreases k
  {
    if k == 0 {
      ops := [];
    } else {
      var s := Step(r, Incr(at), window);
      var rest := Burst(s, at, k - 1, window);
      ops := [Incr(at)] + rest;
      assert ops[1..] == rest;
      assert Hit(|r.starts| - 1, r.cell.count + 1, at) in s.log;
    }
  }

  /** A counter's lifetime begins: INCR and EXPIRE at once, then `k` more. */
  lemma NewLifetime(r: Trace, at: int, later: int, k: nat, window: nat) returns (ops: seq<Op>)
    requires Seen(r.cell, at).Absent? && r.clock <= at <= later < at + window
    ensures Runs(r, ops, window)
    ensures var n := After(r, ops, window);
            && n.cell == Live(1 + k, Some(at + window)) && n.starts == r.starts + [at] && n.clock <= later
            && (forall h :: h in r.log ==> h in n.log)
            && Hit(|r.starts|, 1, at) in n.log
            && (forall h :: h in Numbered(|r.starts|, 2, 1 + k, later) ==> h in n.log)
  {
    var s := Step(r, Incr(at), window);
    assert Hit(|r.starts|, 1, at) in s.log;
    var t := Step(s, Expire(at), window);
    TwoSteps(r, Incr(at), Expire(at), window);
    var rest := Burst(t, later, k, window);
    RunThenRun(r, [Incr(at), Expire(at)], rest, window);
    ops := [Incr(at), Expire(at)] + rest;
  }

  /** The bound cannot be lowered: 2 * limit - 1 requests do get through in one
      window's length, around the end of a lifetime. */
  lemma BoundIsReached(r: Trace, window: nat, limit: nat) returns (ops: seq<Op>)
    requires Fresh(r) && r.clock <= 0 && window >= 2 && limit > 0
    ensures Runs(r, ops, window)
    ensures |AdmittedIn(After(r, ops, window), window - 1, window, limit)| == 2 * limit - 1
  {
    var first := NewLifetime(r, 0, window - 1, limit - 1, window);
    var s := After(r, first, window);
    var second := NewLifetime(s, window, window, limit - 1, window);
    RunThenRun(r, first, second, window);
    ops := first + second;
    forall h | h in Numbered(1, 1, limit, window) ensures h in After(r, ops, window).log {
      assert h.n == 1 || h in Numbered(1, 2, limit, window);
    }
    ManyAdmitted(After(r, ops, window), window, limit);
    FixedWindowBound(r, ops, window - 1, window, limit);
  }

  lemma ManyAdmitted(n: Trace, window: nat, limit: nat)
    requires window >= 2 && limit > 0
    requires forall h :: h in Numbered(0, 2, limit, window - 1) + Numbered(1, 1, limit, window) ==> h in n.log
    ensures |AdmittedIn(n, window - 1, window, limit)| >= 2 * limit - 1
  {
    var early, late := Numbered(0, 2, limit, window - 1), Numbered(1, 1, limit, window);
    SizeOfNumbered(0, 2, limit, window - 1);
    SizeOfNumbered(1, 1, limit, window);
    assert early !! late;
    assert |early + late| == |early| + |late|;
    SubsetSize(early + late, AdmittedIn(n, window - 1, window, limit));
  }

  lemma {:induction false} SubsetSize(a: set<Hit>, b: set<Hit>)
    requires a <= b
    ensures |a| <= |b|
  {
    if a != {} {
      var x :| x in a;
      SubsetSize(a - {x}, b - {x});
    }
  }

  // ---- who is never refused -----------------------------------------------------

  function Times(log: seq<Hit>): seq<int> {
    seq(|log|, i requires 0 <= i < |log| => log[i].at)
  }

  /** The requests in the half-open interval of length `window` from `a` on. */
  function CountIn(ts: seq<int>, a: int, window: nat): nat {
    if ts == [] then 0
    else CountIn(ts[..|ts| - 1], a, window) + if a <= ts[|ts| - 1] < a + window then 1 else 0
  }

  function LastStart(r: Trace): int
    requires r.starts != []
  {
    r.starts[|r.starts| - 1]
  }

  /** Every EXPIRE comes within `delay` of its INCR: nothing happens later than
      that while one is outstanding. Other commands may come between. */
  predicate Prompt(r: Trace, ops: seq<Op>, window: nat, delay: nat)
    requires Runs(r, ops, window)
    decreases ops
  {
    ops == [] ||
    ((r.owed && r.starts != [] ==> ops[0].at <= LastStart(r) + delay)
     && Prompt(Step(r, ops[0], window), ops[1..], window, delay))
  }

  /** The `i`-th request's number is how many requests, itself included, have
      come since its lifetime began, which lasts no longer than `span`. */
  ghost predicate Counted(r: Trace, i: nat, span: nat)
    requires i < |r.log|
  {
    && r.log[i].epoch < |r.starts|
    && r.log[i].n == CountIn(Times(r.log[..i + 1]), r.starts[r.log[i].epoch], span)
  }

  ghost predicate AllCounted(r: Trace, span: nat) {
    forall i :: 0 <= i < |r.log| ==> Counted(r, i, span)
  }

  ghost predicate OnSpan(r: Trace, window: nat, delay: nat) {
    && (r.cell.Absent? ==> r.starts == [] && r.log == [] && !r.owed)
    && (r.cell.Live? ==>
          && r.starts != [] && r.owed == (r.cell.expiry == None) && LastStart(r) <= r.clock
          && (r.owed ==> r.clock <= LastStart(r) + delay)
          && (r.cell.expiry.Some? ==>
                && r.cell.expiry.value <= LastStart(r) + window + delay
                && forall h <- r.log :: h.at < r.cell.expiry.value)
          && r.cell.count == CountIn(Times(r.log), LastStart(r), window + delay))
    && (forall h <- r.log :: h.at <= r.clock)
    && AllCounted(r, window + delay)
  }

  lemma {:induction false} NoneInWindow(ts: seq<int>, a: int, window: nat)
    requires forall i :: 0 <= i < |ts| ==> ts[i] < a
    ensures CountIn(ts, a, window) == 0
  {
    if ts != [] {
      NoneInWindow(ts[..|ts| - 1], a, window);
    }
  }

  lemma {:induction false} CountOfPrefix(ts: seq<int>, k: nat, a: int, window: nat)
    requires k <= |ts|
    ensures CountIn(ts[..k], a, window) <= CountIn(ts, a, window)
    decreases |ts|
  {
    if k < |ts| {
      assert ts[..|ts| - 1][..k] == ts[..k];
      CountOfPrefix(ts[..|ts| - 1], k, a, window);
    } else {
      assert ts[..k] == ts;
    }
  }

  lemma CountOfAppend(log: seq<Hit>, h: Hit, a: int, window: nat)
    ensures CountIn(Times(log + [h]), a, window)
            == CountIn(Times(log), a, window) + if a <= h.at < a + window then 1 else 0
  {
    assert Times(log + [h])[..|log|] == Times(log);
  }

  lemma IncrCounts(r: Trace, at: int, window: nat, delay: nat)
    requires OnSpan(r, window, delay) && Enabled(r, Incr(at)) && window > 0
    requires r.owed && r.starts != [] ==> at <= LastStart(r) + delay
    ensures var n := Step(r, Incr(at), window);
            n.starts != [] && n.cell.count == CountIn(Times(n.log), LastStart(n), window + delay)
  {
    var n := Step(r, Incr(at), window);
    assert n.log == r.log + [n.log[|r.log|]];
    CountOfAppend(r.log, n.log[|r.log|], LastStart(n), window + delay);
    if Seen(r.cell, at).Absent? {
      assert forall i :: 0 <= i < |r.log| ==> r.log[i] in r.log;
      NoneInWindow(Times(r.log), at, window + delay);
    }
  }

  lemma IncrKeepsSpan(r: Trace, at: int, window: nat, delay: nat)
    requires OnSpan(r, window, delay) && Enabled(r, Incr(at)) && window > 0
    requires r.owed && r.starts != [] ==> at <= LastStart(r) + delay
    ensures OnSpan(Step(r, Incr(at), window), window, delay)
  {
    var n, span := Step(r, Incr(at), window), window + delay;
    IncrCounts(r, at, window, delay);
    assert n.log[..|n.log|] == n.log;
    forall i | 0 <= i < |n.log| ensures Counted(n, i, span) {
      if i < |r.log| {
        assert Counted(r, i, span);
        assert n.log[..i + 1] == r.log[..i + 1];
      }
    }
  }

  lemma ExpireKeepsSpan(r: Trace, at: int, window: nat, delay: nat)
    requires OnSpan(r, window, delay) && Enabled(r, Expire(at)) && window > 0
    requires r.owed && r.starts != [] ==> at <= LastStart(r) + delay
    ensures OnSpan(Step(r, Expire(at), window), window, delay)
  {
    var n, span := Step(r, Expire(at), window), window + delay;
    forall i | 0 <= i < |n.log| ensures Counted(n, i, span) {
      assert Counted(r, i, span);
    }
  }

  lemma {:induction false} RunKeepsSpan(r: Trace, ops: seq<Op>, window: nat, delay: nat)
    requires OnSpan(r, window, delay) && Runs(r, ops, window) && Prompt(r, ops, window, delay) && window > 0
    ensures OnSpan(After(r, ops, window), window, delay)
    decreases ops
  {
    if ops != [] {
      if ops[0].Incr? {
        IncrKeepsSpan(r, ops[0].at, window, delay);
      } else {
        ExpireKeepsSpan(r, ops[0].at, window, delay);
      }
      RunKeepsSpan(Step(r, ops[0], window), ops[1..], window, delay);
    }
  }

  /** If every EXPIRE comes within `delay`, each request's number is exactly how
      many requests have come since its lifetime began: it is refused if and
      only if they are more than the limit. */
  lemma CounterCountsTheWindow(r: Trace, ops: seq<Op>, window: nat, delay: nat, i: nat)
    requires Fresh(r) && Runs(r, ops, window) && Prompt(r, ops, window, delay) && window > 0
    requires i < |After(r, ops, window).log|
    ensures Counted(After(r, ops, window), i, window + delay)
  {
    RunKeepsSpan(r, ops, window, delay);
  }

  /** The client sends at most `limit` requests in every interval of the length. */
  ghost predicate Modest(r: Trace, limit: nat, length: nat) {
    forall a :: CountIn(Times(r.log), a, length) <= limit
  }

  /** Longer intervals hold no fewer requests. */
  lemma {:induction false} CountGrows(ts: seq<int>, a: int, short: nat, long: nat)
    requires short <= long
    ensures CountIn(ts, a, short) <= CountIn(ts, a, long)
  {
    if ts != [] {
      CountGrows(ts[..|ts| - 1], a, short, long);
    }
  }

  lemma LongerIsStricter(r: Trace, limit: nat, short: nat, long: nat)
    requires short <= long && Modest(r, limit, long)
    ensures Modest(r, limit, short)
  {
    forall a ensures CountIn(Times(r.log), a, short) <= limit {
      CountGrows(Times(r.log), a, short, long);
      assert CountIn(Times(r.log), a, long) <= limit;
    }
  }

  /** If every EXPIRE comes within `delay` and the store answers, a client with at
      most `limit` requests in every interval of length `window + delay` is never
      refused, whatever the order of the commands. */
  lemma ModestClientsAreServed(r: Trace, ops: seq<Op>, window: nat, delay: nat, limit: nat)
    requires Fresh(r) && Runs(r, ops, window) && Prompt(r, ops, window, delay) && window > 0
    requires Modest(After(r, ops, window), limit, window + delay)
    ensures forall h <- After(r, ops, window).log :: h.n <= limit
  {
    var n, span := After(r, ops, window), window + delay;
    forall i | 0 <= i < |n.log| ensures n.log[i].n <= limit {
      CounterCountsTheWindow(r, ops, window, delay, i);
      var start := n.starts[n.log[i].epoch];
      CountOfPrefix(Times(n.log), i + 1, start, span);
      assert Times(n.log)[..i + 1] == Times(n.log[..i + 1]);
      assert CountIn(Times(n.log), start, span) <= limit;
    }
  }

  function Copies(at: int, k: nat): seq<int> {
    seq(k, _ => at)
  }

  /** `k` more requests at one instant, in a lifetime that lasts beyond it. */
  lemma {:induction false} Pile(r: Trace, at: int, k: nat, window: nat, delay: nat) returns (ops: seq<Op>)
    requires Seen(r.cell, at).Live? && r.clock <= at && r.starts != []
    requires r.log != [] && r.log[|r.log| - 1].n == r.cell.count
    requires r.owed ==> at <= LastStart(r) + delay
    ensures Runs(r, ops, window) && Prompt(r, ops, window, delay)
    ensures var n := After(r, ops, window);
            && n.cell.Live? && n.cell.count == r.cell.count + k
            && Times(n.log) == Times(r.log) + Copies(at, k)
            && n.log != [] && n.log[|n.log| - 1].n == n.cell.count
    decreases k
  {
    if k == 0 {
      ops := [];
      assert Copies(at, 0) == [];
    } else {
      var next := Incr(at);
      var s := Step(r, next, window);
      assert Times(s.log) == Times(r.log) + [at];
      var rest := Pile(s, at, k - 1, window, delay);
      ops := [next] + rest;
      assert ops[1..] == rest;
      assert Times(r.log) + [at] + Copies(at, k - 1) == Times(r.log) + Copies(at, k);
    }
  }

  lemma {:induction false} CountOfPile(first: int, k: nat, gap: nat, a: int)
    ensures CountIn([first] + Copies(first + gap, k), a, gap)
            == if a <= first < a + gap then 1 else if a <= first + gap < a + gap then k else 0
    decreases k
  {
    var ts := [first] + Copies(first + gap, k);
    assert |ts| == k + 1;
    if k == 0 {
      assert ts == [first] && ts[..0] == [] && CountIn(ts[..0], a, gap) == 0;
    } else {
      assert ts[|ts| - 1] == first + gap;
      assert ts[..|ts| - 1] == [first] + Copies(first + gap, k - 1);
      CountOfPile(first, k - 1, gap, a);
    }
  }

  /** The first request of a lifetime, and its EXPIRE `delay` later unless
      something is to come before. */
  lemma Opening(r: Trace, gap: nat, window: nat, delay: nat) returns (ops: seq<Op>)
    requires Fresh(r) && window > 0 && gap < window + delay
    ensures Runs(r, ops, window) && Prompt(r, ops, window, delay)
    ensures var n := After(r, ops, window);
            && |n.log| == 1 && Times(n.log) == [r.clock] && n.starts == [r.clock] && n.clock <= r.clock + gap
            && Seen(n.cell, r.clock + gap).Live? && n.cell.count == 1 && (n.owed ==> gap <= delay)
            && n.log[0].n == 1
  {
    var first, expire := Incr(r.clock), Expire(r.clock + delay);
    if gap < delay {
      OneStep(r, first, window);
      ops := [first];
      assert ops[1..] == [];
    } else {
      TwoSteps(r, first, expire, window);
      ops := [first, expire];
      assert ops[1..] == [expire] && [expire][1..] == [];
    }
  }

  lemma {:induction false} PromptOn(r: Trace, xs: seq<Op>, ys: seq<Op>, window: nat, delay: nat)
    requires Runs(r, xs, window) && Prompt(r, xs, window, delay)
    requires Runs(After(r, xs, window), ys, window) && Prompt(After(r, xs, window), ys, window, delay)
    ensures Runs(r, xs + ys, window) && Prompt(r, xs + ys, window, delay)
    decreases xs
  {
    RunThenRun(r, xs, ys, window);
    if xs == [] {
      assert xs + ys == ys;
    } else {
      assert (xs + ys)[1..] == xs[1..] + ys;
      PromptOn(Step(r, xs[0], window), xs[1..], ys, window, delay);
    }
  }

  lemma PileIsModest(r: Trace, first: int, k: nat, gap: nat)
    requires Times(r.log) == [first] + Copies(first + gap, k) && k > 0
    ensures Modest(r, k, gap)
  {
    forall a ensures CountIn(Times(r.log), a, gap) <= k {
      CountOfPile(first, k, gap, a);
    }
  }

  /** One request, and `limit` more just before its lifetime ends: no interval of
      the length holds more than `limit` of them, and the last is refused. */
  lemma LateExpireRefuses(r: Trace, window: nat, delay: nat, limit: nat, length: nat) returns (ops: seq<Op>)
    requires Fresh(r) && window > 0 && limit > 0 && length < window + delay
    ensures Runs(r, ops, window) && Prompt(r, ops, window, delay)
    ensures var n := After(r, ops, window);
            Modest(n, limit, length) && n.log != [] && n.log[|n.log| - 1].n > limit
  {
    var opening := Opening(r, length, window, delay);
    var p := After(r, opening, window);
    var pile := Pile(p, r.clock + length, limit, window, delay);
    RunThenRun(r, opening, pile, window);
    PromptOn(r, opening, pile, window, delay);
    ops := opening + pile;
    PileIsModest(After(r, ops, window), r.clock, limit, length);
  }

  /** Of a client that keeps the limit in every interval of `length`. */
  ghost predicate AlwaysServed(r: Trace, window: nat, delay: nat, limit: nat, length: nat) {
    forall ops :: Runs(r, ops, window) && Prompt(r, ops, window, delay) && Modest(After(r, ops, window), limit, length)
      ==> forall h <- After(r, ops, window).log :: h.n <= limit
  }

  /** Where EXPIREs may come up to `delay` late, a client is sure to be served if
      and only if it keeps the limit in intervals of length `window + delay`. In
      particular keeping it in every window suffices exactly when no time passes
      between the two commands. */
  lemma ServedExactly(r: Trace, window: nat, delay: nat, limit: nat, length: nat)
    requires Fresh(r) && window > 0 && limit > 0
    ensures AlwaysServed(r, window, delay, limit, length) <==> length >= window + delay
  {
    if length >= window + delay {
      forall ops | Runs(r, ops, window) && Prompt(r, ops, window, delay) && Modest(After(r, ops, window), limit, length)
        ensures forall h <- After(r, ops, window).log :: h.n <= limit
      {
        LongerIsStricter(After(r, ops, window), limit, window + delay, length);
        ModestClientsAreServed(r, ops, window, delay, limit);
      }
    } else {
      var ops := LateExpireRefuses(r, window, delay, limit, length);
      var log := After(r, ops, window).log;
      assert log[|log| - 1] in log;
    }
  }

  // ---- an EXPIRE that is lost ------------------------------------------------------

  predicate OnlyIncrs(ops: seq<Op>) {
    forall op <- ops :: op.Incr?
  }

  /** None of the run's requests is admitted. */
  predicate Refuses(r: Trace, ops: seq<Op>, window: nat, limit: nat) {
    Runs(r, ops, window) && |r.log| <= |After(r, ops, window).log| &&
    forall i :: |r.log| <= i < |After(r, ops, window).log| ==> After(r, ops, window).log[i].n > limit
  }

  /** If the EXPIRE of a lifetime is never executed, the lifetime never ends:
      once `limit` requests have been counted nobody is admitted again. */
  lemma {:induction false} LostExpireLocksOut(r: Trace, ops: seq<Op>, window: nat, limit: nat)
    requires r.cell.Live? && r.cell.expiry == None && r.cell.count >= limit
    requires Runs(r, ops, window) && OnlyIncrs(ops)
    ensures Refuses(r, ops, window, limit)
    decreases ops
  {
    if ops != [] {
      var s := Step(r, ops[0], window);
      LostExpireLocksOut(s, ops[1..], window, limit);
      LogIsKept(s, ops[1..], window);
    }
  }

  lemma {:induction false} LogIsKept(r: Trace, ops: seq<Op>, window: nat)
    requires Runs(r, ops, window)
    ensures r.log <= After(r, ops, window).log
    decreases ops
  {
    if ops != [] {
      LogIsKept(Step(r, ops[0], window), ops[1..], window);
    }
  }

  /** A key that has counted to the limit stays shut, as long as no EXPIRE
      comes, exactly when it has no time to live. */
  lemma ShutExactlyWithoutExpiry(r: Trace, window: nat, limit: nat)
    requires r.cell.Live? && r.cell.count >= limit && limit > 0
    ensures (forall ops :: OnlyIncrs(ops) && Runs(r, ops, window) ==> Refuses(r, ops, window, limit))
            <==> r.cell.expiry == None
  {
    if r.cell.expiry == None {
      forall ops | OnlyIncrs(ops) && Runs(r, ops, window) ensures Refuses(r, ops, window, limit) {
        LostExpireLocksOut(r, ops, window, limit);
      }
    } else {
      var late := Incr(if r.clock <= r.cell.expiry.value then r.cell.expiry.value else r.clock);
      OneStep(r, late, window);
      assert After(r, [late], window).log[|r.log|].n == 1;
      assert OnlyIncrs([late]) && !Refuses(r, [late], window, limit);
    }
  }

  /** Requests at least a window apart. */
  predicate Sparse(ts: seq<int>, window: nat) {
    forall i, j :: 0 <= i < j < |ts| ==> ts[i] + window <= ts[j]
  }

  lemma {:induction false} SparseCount(ts: seq<int>, a: int, window: nat)
    requires Sparse(ts, window)
    ensures CountIn(ts, a, window) <= 1
  {
    if ts != [] {
      var init := ts[..|ts| - 1];
      if a <= ts[|ts| - 1] < a + window {
        NoneInWindow(init, a, window);
      } else {
        SparseCount(init, a, window);
      }
    }
  }

  /** `k` requests more, one a window, in a lifetime that does not end. */
  lemma {:induction false} Trickle(r: Trace, k: nat, window: nat) returns (ops: seq<Op>)
    requires r.cell.Live? && r.cell.expiry == None && Sparse(Times(r.log), window)
    requires r.log != [] && r.log[|r.log| - 1].at == r.clock && r.log[|r.log| - 1].n == r.cell.count
    ensures Runs(r, ops, window) && OnlyIncrs(ops)
    ensures var n := After(r, ops, window);
            && n.log != [] && n.log[|n.log| - 1].n == r.cell.count + k && Sparse(Times(n.log), window)
    decreases k
  {
    if k == 0 {
      ops := [];
    } else {
      var next := Incr(r.clock + window);
      var s := Step(r, next, window);
      assert Times(s.log) == Times(r.log) + [next.at];
      assert Times(r.log)[|r.log| - 1] == r.clock;
      var rest := Trickle(s, k - 1, window);
      ops := [next] + rest;
      assert ops[1..] == rest;
    }
  }

  /** So one lost EXPIRE suffices to refuse a client that sends no more than one
      request in any interval of the window's length. */
  lemma ModestClientIsRefused(r: Trace, window: nat, limit: nat) returns (ops: seq<Op>)
    requires Fresh(r) && window > 0
    ensures Runs(r, ops, window) && OnlyIncrs(ops)
    ensures var log := After(r, ops, window).log;
            && (forall a :: CountIn(Times(log), a, window) <= 1)
            && log != [] && log[|log| - 1].n > limit
  {
    var first := Incr(r.clock);
    var s := Step(r, first, window);
    var rest := Trickle(s, limit, window);
    ops := [first] + rest;
    assert ops[1..] == rest;
    var log := After(r, ops, window).log;
    forall a ensures CountIn(Times(log), a, window) <= 1 {
      SparseCount(Times(log), a, window);
    }
  }
}
