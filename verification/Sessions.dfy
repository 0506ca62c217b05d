/**
  Refresh sessions under concurrent requests (src/auth/service.py,
  src/auth/repository.py): every transaction takes row locks as its statements
  do, works on pending writes, and applies them at commit (READ COMMITTED).
  A session's key is its jti; the stored hash stands for the token itself,
  which the hash determines on issued tokens.
*/
module Sessions {
  import opened Common

  /** The claims of a signed refresh token. */
  datatype Token = Token(sub: nat, jti: nat, fid: nat, iat: int)

  datatype Session = Session(
    user: nat, family: nat, token: Token, expiresAt: int,
    revokedAt: Option<int>, replacedBy: Option<nat>, lastUsedAt: Option<int>)

  type Table = map<nat, Session>

  datatype Tx =
    | Free
    | Locked(token: Token)                                     // row read under FOR UPDATE
    | Rotating(token: Token, now: int)                         // revocation pending
    | Inserted(token: Token, now: int, succ: nat, iat: int, expiresAt: int)   // successor pending
    | Sweeping(own: Option<nat>, targets: set<nat>, done: set<nat>, now: int)  // UPDATE ... WHERE revoked_at IS NULL
    | Stamping(jti: nat, now: int)                             // row read unlocked, write to come
    | Stamped(jti: nat, now: int)                              // revocation pending

  /** `nextJti` and `nextFamily` supply new UUIDs. */
  datatype State = State(table: Table, nextJti: nat, nextFamily: nat, txs: seq<Tx>)

  datatype Action =
    | Login(user: nat, iat: int, expiresAt: int)
    | LockForRefresh(t: nat, token: Token)
    | Reuse(t: nat, now: int)
    | Expire(t: nat, now: int)
    | BadHash(t: nat, now: int)
    | BadUser(t: nat, now: int)
    | Revoke(t: nat, now: int)
    | InsertNext(t: nat, iat: int, expiresAt: int)
    | LogoutRead(t: nat, token: Token, now: int)
    | LogoutAllRead(t: nat, user: nat, now: int)
    | RevokeOneRead(t: nat, jti: nat, user: nat, now: int)
    | SweepRow(t: nat, jti: nat)
    | Write(t: nat)
    | Commit(t: nat)
    | Abort(t: nat)

  function Holds(tx: Tx): set<nat> {
    match tx
    case Free => {}
    case Locked(token) => {token.jti}
    case Rotating(token, _) => {token.jti}
    case Inserted(token, _, _, _, _) => {token.jti}
    case Sweeping(own, _, done, _) => done + if own.Some? then {own.value} else {}
    case Stamping(_, _) => {}
    case Stamped(jti, _) => {jti}
  }

  predicate LockFree(s: State, t: nat, jti: nat) {
    forall u :: 0 <= u < |s.txs| && u != t ==> jti !in Holds(s.txs[u])
  }

  predicate Live(r: Session) {
    r.revokedAt == None
  }

  function LiveInFamily(table: Table, family: nat): set<nat> {
    set j | j in table && table[j].family == family && Live(table[j])
  }

  function LiveOfUser(table: Table, user: nat): set<nat> {
    set j | j in table && table[j].user == user && Live(table[j])
  }

  predicate Is(s: State, t: nat, tx: Tx) {
    t < |s.txs| && s.txs[t] == tx
  }

  /** The refresh of transaction `t` has its row, which nobody can change now. */
  predicate HasRow(s: State, t: nat) {
    t < |s.txs| && s.txs[t].Locked? && s.txs[t].token.jti in s.table
  }

  function Row(s: State, t: nat): Session
    requires HasRow(s, t)
  {
    s.table[s.txs[t].token.jti]
  }

  predicate Usable(s: State, t: nat, now: int) {
    HasRow(s, t) && Live(Row(s, t)) && Row(s, t).expiresAt > now
  }

  predicate Enabled(s: State, a: Action) {
    match a
    case Login(_, _, _) => true
    case LockForRefresh(t, token) =>
      && Is(s, t, Free) && token.jti in s.table && LockFree(s, t, token.jti)
      && s.table[token.jti].user == token.sub
    case Reuse(t, _) => HasRow(s, t) && !Live(Row(s, t))
    case Expire(t, now) => HasRow(s, t) && Live(Row(s, t)) && Row(s, t).expiresAt <= now
    case BadHash(t, now) => Usable(s, t, now) && Row(s, t).token != s.txs[t].token
    case BadUser(t, now) => Usable(s, t, now) && Row(s, t).token == s.txs[t].token
    case Revoke(t, now) => Usable(s, t, now) && Row(s, t).token == s.txs[t].token
    case InsertNext(t, _, _) => t < |s.txs| && s.txs[t].Rotating?
    case LogoutRead(t, token, _) =>
      Is(s, t, Free) && token.jti in s.table && (s.table[token.jti].token != token || Live(s.table[token.jti]))
    case LogoutAllRead(t, _, _) => Is(s, t, Free)
    case RevokeOneRead(t, jti, user, _) =>
      Is(s, t, Free) && jti in s.table && s.table[jti].user == user && Live(s.table[jti])
    case SweepRow(t, jti) =>
      && t < |s.txs| && s.txs[t].Sweeping? && jti in s.txs[t].targets - s.txs[t].done
      && jti in s.table && LockFree(s, t, jti)
    case Write(t) => t < |s.txs| && s.txs[t].Stamping? && LockFree(s, t, s.txs[t].jti)
    case Commit(t) =>
      t < |s.txs| &&
      (match s.txs[t]
       case Inserted(token, _, _, _, _) => token.jti in s.table
       case Sweeping(_, targets, done, _) => targets == done
       case Stamped(jti, _) => jti in s.table
       case _ => false)
    case Abort(t) => t < |s.txs|
  }

  function SetTx(s: State, t: nat, tx: Tx): State
    requires t < |s.txs|
  {
    s.(txs := s.txs[t := tx])
  }

  function RevokeAll(table: Table, jtis: set<nat>, now: int): Table {
    map j | j in table :: if j in jtis then table[j].(revokedAt := Some(now)) else table[j]
  }

  function NewSession(user: nat, jti: nat, family: nat, iat: int, expiresAt: int): Session {
    Session(user, family, Token(user, jti, family, iat), expiresAt, None, None, None)
  }

  /** Both rows of a rotation; the successor's family is the token's. */
  function Rotated(table: Table, token: Token, now: int, succ: nat, iat: int, expiresAt: int): Table
    requires token.jti in table
  {
    var used := table[token.jti].(revokedAt := Some(now), lastUsedAt := Some(now), replacedBy := Some(succ));
    table[token.jti := used][succ := NewSession(token.sub, succ, token.fid, iat, expiresAt)]
  }

  function Apply(s: State, a: Action): State
    requires Enabled(s, a)
  {
    match a
    case Login(user, iat, expiresAt) =>
      s.(table := s.table[s.nextJti := NewSession(user, s.nextJti, s.nextFamily, iat, expiresAt)],
         nextJti := s.nextJti + 1, nextFamily := s.nextFamily + 1)
    case LockForRefresh(t, token) => SetTx(s, t, Locked(token))
    case Reuse(t, now) => Sweep(s, t, now)
    case BadHash(t, now) => Sweep(s, t, now)
    case BadUser(t, now) => Sweep(s, t, now)
    case Expire(t, now) => SetTx(s, t, Stamped(s.txs[t].token.jti, now))
    case Revoke(t, now) => SetTx(s, t, Rotating(s.txs[t].token, now))
    case InsertNext(t, iat, expiresAt) =>
      SetTx(s, t, Inserted(s.txs[t].token, s.txs[t].now, s.nextJti, iat, expiresAt)).(nextJti := s.nextJti + 1)
    case LogoutRead(t, token, now) =>
      if s.table[token.jti].token != token then
        SetTx(s, t, Sweeping(None, LiveInFamily(s.table, s.table[token.jti].family), {}, now))
      else SetTx(s, t, Stamping(token.jti, now))
    case LogoutAllRead(t, user, now) => SetTx(s, t, Sweeping(None, LiveOfUser(s.table, user), {}, now))
    case RevokeOneRead(t, jti, _, now) => SetTx(s, t, Stamping(jti, now))
    case SweepRow(t, jti) =>
      var k := s.txs[t];
      SetTx(s, t, if Live(s.table[jti]) then k.(done := k.done + {jti}) else k.(targets := k.targets - {jti}))
    case Write(t) => SetTx(s, t, Stamped(s.txs[t].jti, s.txs[t].now))
    case Commit(t) =>
      var done := SetTx(s, t, Free);
      (match s.txs[t]
       case Inserted(token, now, succ, iat, expiresAt) =>
         done.(table := Rotated(s.table, token, now, succ, iat, expiresAt))
       case Sweeping(_, _, jtis, now) => done.(table := RevokeAll(s.table, jtis, now))
       case Stamped(jti, now) => done.(table := RevokeAll(s.table, {jti}, now))
       case _ => done)
    case Abort(t) => SetTx(s, t, Free)
  }

  /** revoke_family inside a refresh: the statement sees the live rows of now. */
  function Sweep(s: State, t: nat, now: int): State
    requires HasRow(s, t)
  {
    SetTx(s, t, Sweeping(Some(s.txs[t].token.jti), LiveInFamily(s.table, Row(s, t).family), {}, now))
  }

  predicate Runs(s: State, acts: seq<Action>)
    decreases acts
  {
    acts == [] || (Enabled(s, acts[0]) && Runs(Apply(s, acts[0]), acts[1..]))
  }

  function After(s: State, acts: seq<Action>): State
    requires Runs(s, acts)
    decreases acts
  {
    if acts == [] then s else After(Apply(s, acts[0]), acts[1..])
  }

  // ---- a family is one chain -----------------------------------------------

  /** Session `c[i]` points at its successor on the path and, having one, is revoked. */
  predicate Link(table: Table, c: seq<nat>, i: nat) {
    && i < |c| && c[i] in table
    && table[c[i]].replacedBy == (if i + 1 < |c| then Some(c[i + 1]) else None)
    && (i + 1 < |c| ==> !Live(table[c[i]]))
  }

  predicate Increasing(c: seq<nat>) {
    forall i, k :: 0 <= i < k < |c| ==> c[i] < c[k]
  }

  /** `c` is the whole family from its login session on, one user's, each
      session but the last revoked and pointing at the next. */
  ghost predicate Path(table: Table, family: nat, user: nat, c: seq<nat>) {
    && c != [] && Increasing(c)
    && (forall j :: j in c <==> j in table && table[j].family == family)
    && (forall j :: j in c ==> table[j].user == user)
    && (forall i: nat :: i < |c| ==> Link(table, c, i))
  }

  ghost predicate Chained(table: Table) {
    forall j :: j in table ==> exists c :: Path(table, table[j].family, table[j].user, c)
  }

  /** Keys are below the next ones, and a row holds the token issued with it. */
  ghost predicate RowsFit(table: Table, nextJti: nat, nextFamily: nat) {
    forall j :: j in table ==>
      && j < nextJti && table[j].family < nextFamily
      && table[j].token == Token(table[j].user, j, table[j].family, table[j].token.iat)
  }

  ghost predicate TableInv(s: State) {
    Chained(s.table) && RowsFit(s.table, s.nextJti, s.nextFamily)
  }

  ghost predicate TxInv(s: State, tx: Tx) {
    match tx
    case Free => true
    case Locked(token) => token.jti in s.table
    case Rotating(token, _) => token.jti in s.table && Live(s.table[token.jti]) && s.table[token.jti].token == token
    case Inserted(token, _, succ, _, _) =>
      && token.jti in s.table && Live(s.table[token.jti]) && s.table[token.jti].token == token
      && succ < s.nextJti && succ !in s.table && token.jti < succ
    case Sweeping(own, targets, done, _) =>
      && targets <= s.table.Keys && done <= targets && (forall j <- done :: Live(s.table[j]))
    case Stamping(jti, _) => jti in s.table
    case Stamped(jti, _) => jti in s.table
  }

  ghost predicate Separate(s: State) {
    forall t, u :: 0 <= t < u < |s.txs| ==>
      && Holds(s.txs[t]) !! Holds(s.txs[u])
      && (s.txs[t].Inserted? && s.txs[u].Inserted? ==> s.txs[t].succ != s.txs[u].succ)
  }

  ghost predicate Inv(s: State) {
    TableInv(s) && Separate(s) && forall t :: 0 <= t < |s.txs| ==> TxInv(s, s.txs[t])
  }

  lemma SamePath(table: Table, after: Table, family: nat, user: nat, c: seq<nat>)
    requires Path(table, family, user, c)
    requires forall j :: j in after && after[j].family == family <==> j in table && table[j].family == family
    requires forall j :: j in c ==>
               && after[j].user == table[j].user && after[j].replacedBy == table[j].replacedBy
               && (Live(after[j]) ==> Live(table[j]))
    ensures Path(after, family, user, c)
  {
    forall i: nat | i < |c| ensures Link(after, c, i) {
      assert Link(table, c, i);
      assert c[i] in c;
    }
  }

  /** Revocations change nothing a path is made of. */
  lemma RevokingKeepsChains(table: Table, jtis: set<nat>, now: int)
    requires Chained(table)
    ensures Chained(RevokeAll(table, jtis, now))
  {
    var after := RevokeAll(table, jtis, now);
    forall j | j in after ensures exists c :: Path(after, after[j].family, after[j].user, c) {
      var c :| Path(table, table[j].family, table[j].user, c);
      RevokingKeepsPath(table, jtis, now, table[j].family, table[j].user, c);
    }
  }

  lemma RevokingKeepsPath(table: Table, jtis: set<nat>, now: int, family: nat, user: nat, c: seq<nat>)
    requires Path(table, family, user, c)
    ensures Path(RevokeAll(table, jtis, now), family, user, c)
  {
    SamePath(table, RevokeAll(table, jtis, now), family, user, c);
  }

  lemma LoginKeepsChains(table: Table, jti: nat, r: Session)
    requires Chained(table) && jti !in table && r.replacedBy == None
    requires forall j :: j in table ==> table[j].family != r.family
    ensures Chained(table[jti := r])
  {
    var after := table[jti := r];
    forall j | j in after ensures exists c :: Path(after, after[j].family, after[j].user, c) {
      if j == jti {
        assert Link(after, [jti], 0);
        assert Path(after, r.family, r.user, [jti]);
      } else {
        var c :| Path(table, table[j].family, table[j].user, c);
        SamePath(table, after, table[j].family, table[j].user, c);
      }
    }
  }

  /** A live session is the tail of its family. */
  lemma LiveIsTail(table: Table, family: nat, user: nat, c: seq<nat>, j: nat)
    requires Path(table, family, user, c) && j in table && table[j].family == family && Live(table[j])
    ensures j == c[|c| - 1]
  {
    var i :| 0 <= i < |c| && c[i] == j;
    assert Link(table, c, i);
  }

  lemma ExtendPath(table: Table, token: Token, now: int, succ: nat, iat: int, expiresAt: int, c: seq<nat>)
    requires token.jti in table && Live(table[token.jti])
    requires Path(table, token.fid, token.sub, c) && table[token.jti].family == token.fid
    requires succ !in table && token.jti < succ
    ensures Path(Rotated(table, token, now, succ, iat, expiresAt), token.fid, token.sub, c + [succ])
  {
    var after := Rotated(table, token, now, succ, iat, expiresAt);
    var d := c + [succ];
    LiveIsTail(table, token.fid, token.sub, c, token.jti);
    forall i: nat | i < |d| ensures Link(after, d, i) {
      if i < |c| {
        assert Link(table, c, i);
        assert c[i] in c;
      }
    }
  }

  lemma RotationKeepsChains(table: Table, token: Token, now: int, succ: nat, iat: int, expiresAt: int)
    requires Chained(table) && token.jti in table && succ !in table && token.jti < succ
    requires Live(table[token.jti])
    requires token.fid == table[token.jti].family && token.sub == table[token.jti].user
    ensures Chained(Rotated(table, token, now, succ, iat, expiresAt))
  {
    var after := Rotated(table, token, now, succ, iat, expiresAt);
    var own :| Path(table, token.fid, token.sub, own);
    ExtendPath(table, token, now, succ, iat, expiresAt, own);
    forall j | j in after ensures exists c :: Path(after, after[j].family, after[j].user, c) {
      if after[j].family == token.fid {
        assert j in own + [succ];
      } else {
        var c :| Path(table, table[j].family, table[j].user, c);
        SamePath(table, after, table[j].family, table[j].user, c);
      }
    }
  }

  // ---- every step keeps the chains and the locks ---------------------------

  /** The rows a commit changes are the ones the transaction has locked. */
  lemma CommitKeepsOthers(s: State, t: nat, u: nat)
    requires Inv(s) && Enabled(s, Commit(t)) && u < |s.txs| && u != t
    ensures TxInv(Apply(s, Commit(t)), s.txs[u])
  {
  }

  lemma RotatedRowsFit(table: Table, nextJti: nat, nextFamily: nat,
                       token: Token, now: int, succ: nat, iat: int, expiresAt: int)
    requires RowsFit(table, nextJti, nextFamily) && token.jti in table && succ < nextJti
    requires table[token.jti].token == token
    ensures RowsFit(Rotated(table, token, now, succ, iat, expiresAt), nextJti, nextFamily)
  {
  }

  lemma RotationKeepsTable(s: State, t: nat)
    requires Inv(s) && Enabled(s, Commit(t)) && s.txs[t].Inserted?
    ensures TableInv(Apply(s, Commit(t)))
  {
    var k := s.txs[t];
    assert TxInv(s, k);
    RotationKeepsChains(s.table, k.token, k.now, k.succ, k.iat, k.expiresAt);
    RotatedRowsFit(s.table, s.nextJti, s.nextFamily, k.token, k.now, k.succ, k.iat, k.expiresAt);
  }

  lemma RevocationKeepsTable(s: State, jtis: set<nat>, now: int)
    requires TableInv(s)
    ensures TableInv(s.(table := RevokeAll(s.table, jtis, now)))
  {
    RevokingKeepsChains(s.table, jtis, now);
  }

  lemma CommitKeepsTable(s: State, t: nat)
    requires Inv(s) && Enabled(s, Commit(t))
    ensures TableInv(Apply(s, Commit(t)))
  {
    match s.txs[t] {
      case Inserted(_, _, _, _, _) => RotationKeepsTable(s, t);
      case Sweeping(_, _, done, now) => RevocationKeepsTable(s, done, now);
      case Stamped(jti, now) => RevocationKeepsTable(s, {jti}, now);
    }
  }

  lemma CommitKeepsInv(s: State, t: nat)
    requires Inv(s) && Enabled(s, Commit(t))
    ensures Inv(Apply(s, Commit(t)))
  {
    var n := Apply(s, Commit(t));
    CommitKeepsTable(s, t);
    forall u | 0 <= u < |n.txs| ensures TxInv(n, n.txs[u]) {
      if u != t {
        CommitKeepsOthers(s, t, u);
      }
    }
  }

  lemma LoginKeepsInv(s: State, user: nat, iat: int, expiresAt: int)
    requires Inv(s)
    ensures Inv(Apply(s, Login(user, iat, expiresAt)))
  {
    var n := Apply(s, Login(user, iat, expiresAt));
    LoginKeepsChains(s.table, s.nextJti, n.table[s.nextJti]);
    forall u | 0 <= u < |n.txs| ensures TxInv(n, n.txs[u]) {
      assert TxInv(s, s.txs[u]);
    }
  }

  lemma OwnStepKeepsTxInv(s: State, a: Action)
    requires Inv(s) && Enabled(s, a) && !a.Login? && !a.Commit?
    ensures TxInv(Apply(s, a), Apply(s, a).txs[a.t])
  {
  }

  /** A step takes free locks and a fresh jti only. */
  lemma NewLocksWereFree(s: State, a: Action)
    requires Enabled(s, a) && !a.Login? && !a.Commit?
    ensures forall j <- Holds(Apply(s, a).txs[a.t]) :: j in Holds(s.txs[a.t]) || LockFree(s, a.t, j)
    ensures Apply(s, a).txs[a.t].Inserted? ==> Apply(s, a).txs[a.t].succ == s.nextJti
  {
  }

  lemma OwnStepKeepsLocks(s: State, a: Action, u: nat)
    requires Inv(s) && Enabled(s, a) && !a.Login? && !a.Commit? && u < |s.txs| && u != a.t
    ensures Holds(s.txs[u]) !! Holds(Apply(s, a).txs[a.t])
    ensures s.txs[u].Inserted? && Apply(s, a).txs[a.t].Inserted? ==> s.txs[u].succ != Apply(s, a).txs[a.t].succ
  {
    NewLocksWereFree(s, a);
    assert TxInv(s, s.txs[u]);
    assert Holds(s.txs[u]) !! Holds(s.txs[a.t]);
  }

  /** Everything else only changes the transaction itself. */
  lemma TxStepFrame(s: State, a: Action)
    requires Enabled(s, a) && !a.Login? && !a.Commit?
    ensures var n := Apply(s, a);
            && n.table == s.table && n.nextJti >= s.nextJti && n.nextFamily == s.nextFamily
            && a.t < |s.txs| == |n.txs| && forall u :: 0 <= u < |s.txs| && u != a.t ==> n.txs[u] == s.txs[u]
  {
  }

  lemma TxStepKeepsSeparate(s: State, a: Action)
    requires Inv(s) && Enabled(s, a) && !a.Login? && !a.Commit?
    ensures Separate(Apply(s, a))
  {
    var n := Apply(s, a);
    TxStepFrame(s, a);
    forall u: nat | u < |n.txs| && u != a.t
      ensures Holds(n.txs[u]) !! Holds(n.txs[a.t])
      ensures n.txs[u].Inserted? && n.txs[a.t].Inserted? ==> n.txs[u].succ != n.txs[a.t].succ
    {
      OwnStepKeepsLocks(s, a, u);
    }
  }

  lemma TxStepKeepsInv(s: State, a: Action)
    requires Inv(s) && Enabled(s, a) && !a.Login? && !a.Commit?
    ensures Inv(Apply(s, a))
  {
    var n := Apply(s, a);
    TxStepFrame(s, a);
    TxStepKeepsSeparate(s, a);
    forall u | 0 <= u < |n.txs| ensures TxInv(n, n.txs[u]) {
      assert TxInv(s, s.txs[u]);
      if u == a.t {
        OwnStepKeepsTxInv(s, a);
      }
    }
  }

  lemma StepKeepsInv(s: State, a: Action)
    requires Inv(s) && Enabled(s, a)
    ensures Inv(Apply(s, a))
  {
    match a {
      case Login(user, iat, expiresAt) => LoginKeepsInv(s, user, iat, expiresAt);
      case Commit(t) => CommitKeepsInv(s, t);
      case _ => TxStepKeepsInv(s, a);
    }
  }

  lemma {:induction false} RunKeepsInv(s: State, acts: seq<Action>)
    requires Inv(s) && Runs(s, acts)
    ensures Inv(After(s, acts))
    decreases acts
  {
    if acts != [] {
      StepKeepsInv(s, acts[0]);
      RunKeepsInv(Apply(s, acts[0]), acts[1..]);
    }
  }

  ghost predicate Initial(s: State) {
    s.table == map[] && forall tx <- s.txs :: tx.Free?
  }

  lemma InitialIsGood(s: State)
    requires Initial(s)
    ensures Inv(s)
  {
  }

  /** In every reachable state of any interleaving the sessions of a family are
      one user's and form one chain from the login session, each revoked one
      pointing at its only successor; so no two sessions share a successor and
      at most one of a family is live, the tail. */
  lemma FamiliesAreChains(s: State, acts: seq<Action>)
    requires Initial(s) && Runs(s, acts)
    ensures var table := After(s, acts).table;
            && Chained(table)
            && (forall j, k | j in table && k in table && table[j].replacedBy.Some? &&
                              table[j].replacedBy == table[k].replacedBy :: j == k)
            && (forall j, k | j in table && k in table && table[j].family == table[k].family &&
                              Live(table[j]) && Live(table[k]) :: j == k)
            && (forall j | j in table && Live(table[j]) :: table[j].replacedBy == None)
  {
    InitialIsGood(s);
    RunKeepsInv(s, acts);
    var table := After(s, acts).table;
    forall j, k | j in table && k in table && table[j].replacedBy.Some? && table[j].replacedBy == table[k].replacedBy
      ensures j == k
    {
      SuccessorsDiffer(table, j, k);
    }
    forall j, k | j in table && k in table && table[j].family == table[k].family && Live(table[j]) && Live(table[k])
      ensures j == k
    {
      var c :| Path(table, table[j].family, table[j].user, c);
      LiveIsTail(table, table[j].family, table[j].user, c, j);
      LiveIsTail(table, table[j].family, table[j].user, c, k);
    }
    forall j | j in table && Live(table[j]) ensures table[j].replacedBy == None {
      var c :| Path(table, table[j].family, table[j].user, c);
      LiveIsTail(table, table[j].family, table[j].user, c, j);
      assert Link(table, c, |c| - 1);
    }
  }

  /** Where a session with a successor stands on its path. */
  lemma SuccessorOnPath(table: Table, c: seq<nat>, j: nat) returns (i: nat)
    requires j in table && Path(table, table[j].family, table[j].user, c) && table[j].replacedBy.Some?
    ensures i + 1 < |c| && c[i] == j && table[j].replacedBy == Some(c[i + 1])
  {
    var k :| 0 <= k < |c| && c[k] == j;
    assert Link(table, c, k);
    i := k;
  }

  lemma SuccessorsDiffer(table: Table, j: nat, k: nat)
    requires Chained(table) && j in table && k in table
    requires table[j].replacedBy.Some? && table[j].replacedBy == table[k].replacedBy
    ensures j == k
  {
    var c :| Path(table, table[j].family, table[j].user, c);
    var d :| Path(table, table[k].family, table[k].user, d);
    var a := SuccessorOnPath(table, c, j);
    var b := SuccessorOnPath(table, d, k);
    assert c[a + 1] in c && d[b + 1] in d;
    assert table[j].family == table[k].family && table[j].user == table[k].user;
    var e := SuccessorOnPath(table, c, k);
    assert c[e + 1] == c[a + 1];
  }

  // ---- single use ------------------------------------------------------------

  /** The step that makes a refresh of session `j` succeed. */
  predicate Rotates(s: State, a: Action, j: nat) {
    a.Commit? && a.t < |s.txs| && s.txs[a.t].Inserted? && s.txs[a.t].token.jti == j
  }

  function Rotations(s: State, acts: seq<Action>, j: nat): nat
    requires Runs(s, acts)
    decreases acts
  {
    if acts == [] then 0
    else (if Rotates(s, acts[0], j) then 1 else 0) + Rotations(Apply(s, acts[0]), acts[1..], j)
  }

  predicate Used(s: State, j: nat) {
    j in s.table && s.table[j].replacedBy.Some?
  }

  lemma LiveIsUnused(s: State, j: nat)
    requires Inv(s) && j in s.table && Live(s.table[j])
    ensures !Used(s, j)
  {
    var c :| Path(s.table, s.table[j].family, s.table[j].user, c);
    LiveIsTail(s.table, s.table[j].family, s.table[j].user, c, j);
    assert Link(s.table, c, |c| - 1);
  }

  /** No step undoes a revocation or a replacement, and only the commit of its
      rotation marks a session as replaced. */
  lemma RevocationIsForGood(s: State, a: Action, j: nat)
    requires Inv(s) && Enabled(s, a) && j in s.table
    ensures var n := Apply(s, a);
            && j in n.table && n.table[j].family == s.table[j].family && n.table[j].user == s.table[j].user
            && (!Live(s.table[j]) ==> !Live(n.table[j]))
            && (if Rotates(s, a, j) then !Used(s, j) && Used(n, j) else n.table[j].replacedBy == s.table[j].replacedBy)
  {
    if a.Commit? {
      assert TxInv(s, s.txs[a.t]);
      if Rotates(s, a, j) {
        LiveIsUnused(s, j);
      }
    }
  }

  /** Every refresh token works at most once, whatever the interleaving: the
      successful refreshes of a session in a run are exactly what its
      replacement pointer says. */
  lemma {:induction false} TokensAreSingleUse(s: State, acts: seq<Action>, j: nat)
    requires Inv(s) && Runs(s, acts)
    ensures (if Used(s, j) then 1 else 0) + Rotations(s, acts, j) == if Used(After(s, acts), j) then 1 else 0
    decreases acts
  {
    if acts != [] {
      if j in s.table {
        RevocationIsForGood(s, acts[0], j);
      } else {
        NewSessionIsUnused(s, acts[0], j);
      }
      StepKeepsInv(s, acts[0]);
      TokensAreSingleUse(Apply(s, acts[0]), acts[1..], j);
    }
  }

  lemma NewSessionIsUnused(s: State, a: Action, j: nat)
    requires Inv(s) && Enabled(s, a) && j !in s.table
    ensures !Used(Apply(s, a), j) && !Rotates(s, a, j)
  {
  }

  // ---- a dead family stays dead ------------------------------------------------

  /** A family that has been issued and has no live session. */
  predicate DeadFamily(s: State, family: nat) {
    family < s.nextFamily && LiveInFamily(s.table, family) == {}
  }

  lemma StepKeepsDead(s: State, a: Action, family: nat)
    requires Inv(s) && Enabled(s, a) && DeadFamily(s, family)
    ensures DeadFamily(Apply(s, a), family)
    ensures forall j :: j in s.table && s.table[j].family == family ==> !Rotates(s, a, j)
  {
    if a.Commit? {
      assert TxInv(s, s.txs[a.t]);
      if s.txs[a.t].Inserted? {
        var token := s.txs[a.t].token;
        assert s.table[token.jti].family == token.fid;
        assert token.jti !in LiveInFamily(s.table, family);
      }
    }
    var n := Apply(s, a);
    forall j | j in n.table && n.table[j].family == family ensures !Live(n.table[j]) {
      if j in s.table {
        assert j !in LiveInFamily(s.table, family);
        RevocationIsForGood(s, a, j);
      }
    }
  }

  /** Once every session of a family is revoked, no run ever brings one of the
      family back to life or lets one of its tokens refresh again. */
  lemma {:induction false} DeadFamiliesStayDead(s: State, acts: seq<Action>, family: nat)
    requires Inv(s) && Runs(s, acts) && DeadFamily(s, family)
    ensures DeadFamily(After(s, acts), family)
    ensures forall j :: j in s.table && s.table[j].family == family ==> Rotations(s, acts, j) == 0
    decreases acts
  {
    if acts != [] {
      StepKeepsDead(s, acts[0], family);
      StepKeepsInv(s, acts[0]);
      DeadFamiliesStayDead(Apply(s, acts[0]), acts[1..], family);
      forall j | j in s.table && s.table[j].family == family ensures Rotations(s, acts, j) == 0 {
        RevocationIsForGood(s, acts[0], j);
      }
    }
  }

  // ---- a revocation and what comes between its snapshot and its commit ------

  /** Transaction `t` is still at its UPDATE of the rows of `snapshot`: those it
      has given up on are revoked already. */
  ghost predicate Revoking(s: State, t: nat, snapshot: set<nat>) {
    && t < |s.txs| && s.txs[t].Sweeping? && s.txs[t].targets <= snapshot <= s.table.Keys
    && forall j <- snapshot :: j in s.txs[t].targets || !Live(s.table[j])
  }

  lemma StepKeepsRevoking(s: State, a: Action, t: nat, snapshot: set<nat>)
    requires Inv(s) && Enabled(s, a) && a != Commit(t) && a != Abort(t) && Revoking(s, t, snapshot)
    ensures Revoking(Apply(s, a), t, snapshot)
  {
    forall j <- snapshot
      ensures j in Apply(s, a).table && (Live(Apply(s, a).table[j]) ==> Live(s.table[j]))
    {
      RevocationIsForGood(s, a, j);
    }
  }

  lemma {:induction false} RunKeepsRevoking(s: State, acts: seq<Action>, t: nat, snapshot: set<nat>)
    requires Inv(s) && Runs(s, acts) && Commit(t) !in acts && Abort(t) !in acts && Revoking(s, t, snapshot)
    ensures Revoking(After(s, acts), t, snapshot)
    decreases acts
  {
    if acts != [] {
      StepKeepsRevoking(s, acts[0], t, snapshot);
      StepKeepsInv(s, acts[0]);
      RunKeepsRevoking(Apply(s, acts[0]), acts[1..], t, snapshot);
    }
  }

  /** The step takes the snapshot of an UPDATE that revokes: a refresh with a
      spent token, a wrong one or an inactive user, a logout with a wrong token,
      or a logout from everywhere. */
  predicate Sweeps(s: State, a: Action) {
    Enabled(s, a) &&
    match a
    case Reuse(_, _) => true
    case BadHash(_, _) => true
    case BadUser(_, _) => true
    case LogoutRead(_, token, _) => s.table[token.jti].token != token
    case LogoutAllRead(_, _, _) => true
    case _ => false
  }

  function Snapshot(s: State, a: Action): set<nat>
    requires Sweeps(s, a)
  {
    Apply(s, a).txs[a.t].targets
  }

  /** It is a revoke_family of `family`. */
  predicate SweepsFamily(s: State, a: Action, family: nat) {
    Sweeps(s, a) &&
    match a
    case Reuse(t, _) => Row(s, t).family == family
    case BadHash(t, _) => Row(s, t).family == family
    case BadUser(t, _) => Row(s, t).family == family
    case LogoutRead(_, token, _) => s.table[token.jti].family == family
    case _ => false
  }

  /** `acts` goes from the snapshot to where the commit is possible. */
  predicate Finishes(s: State, a: Action, acts: seq<Action>) {
    && Sweeps(s, a) && Runs(Apply(s, a), acts) && Commit(a.t) !in acts && Abort(a.t) !in acts
    && Enabled(After(Apply(s, a), acts), Commit(a.t))
  }

  function AtCommit(s: State, a: Action, acts: seq<Action>): State
    requires Finishes(s, a, acts)
  {
    After(Apply(s, a), acts)
  }

  function Finished(s: State, a: Action, acts: seq<Action>): State
    requires Finishes(s, a, acts)
  {
    Apply(AtCommit(s, a, acts), Commit(a.t))
  }

  /** How often sessions of the family are rotated in a run. */
  function FamilyRotations(s: State, acts: seq<Action>, family: nat): nat
    requires Runs(s, acts)
    decreases acts
  {
    if acts == [] then 0
    else (if RotatesIn(s, acts[0], family) then 1 else 0) + FamilyRotations(Apply(s, acts[0]), acts[1..], family)
  }

  predicate RotatesIn(s: State, a: Action, family: nat) {
    a.Commit? && a.t < |s.txs| && s.txs[a.t].Inserted? && s.txs[a.t].token.fid == family
  }

  lemma NewcomersAreRotated(s: State, a: Action, j: nat)
    requires Inv(s) && Enabled(s, a) && j !in s.table && j in Apply(s, a).table
    ensures var family := Apply(s, a).table[j].family; RotatesIn(s, a, family) || family == s.nextFamily
  {
  }

  /** Only a rotation brings a new live session into a family. */
  lemma StepRevivesNobody(s: State, a: Action, family: nat)
    requires Inv(s) && Enabled(s, a) && family < s.nextFamily && !RotatesIn(s, a, family)
    ensures LiveInFamily(Apply(s, a).table, family) <= LiveInFamily(s.table, family)
    ensures family < Apply(s, a).nextFamily
  {
    forall j <- LiveInFamily(Apply(s, a).table, family) ensures j in LiveInFamily(s.table, family) {
      if j in s.table {
        RevocationIsForGood(s, a, j);
      } else {
        NewcomersAreRotated(s, a, j);
      }
    }
  }

  lemma {:induction false} RunRevivesNobody(s: State, acts: seq<Action>, family: nat)
    requires Inv(s) && Runs(s, acts) && family < s.nextFamily && FamilyRotations(s, acts, family) == 0
    ensures LiveInFamily(After(s, acts).table, family) <= LiveInFamily(s.table, family)
    decreases acts
  {
    if acts != [] {
      StepRevivesNobody(s, acts[0], family);
      StepKeepsInv(s, acts[0]);
      RunRevivesNobody(Apply(s, acts[0]), acts[1..], family);
    }
  }

  lemma SweepTakesSnapshot(s: State, a: Action)
    requires Inv(s) && Sweeps(s, a)
    ensures var r := Apply(s, a); r.table == s.table && r.nextFamily == s.nextFamily && Revoking(r, a.t, Snapshot(s, a))
    ensures a.LogoutAllRead? ==> Snapshot(s, a) == LiveOfUser(s.table, a.user)
  {
  }

  lemma FamilySnapshot(s: State, a: Action, family: nat)
    requires Inv(s) && SweepsFamily(s, a, family)
    ensures family < s.nextFamily && Snapshot(s, a) == LiveInFamily(s.table, family)
  {
  }

  lemma CommitRevokesTargets(q: State, t: nat, snapshot: set<nat>)
    requires Inv(q) && Revoking(q, t, snapshot) && Enabled(q, Commit(t))
    ensures var n := Apply(q, Commit(t));
            && n.table.Keys == q.table.Keys && n.nextFamily == q.nextFamily
            && forall j <- q.table ::
                 && n.table[j].user == q.table[j].user && n.table[j].family == q.table[j].family
                 && (Live(n.table[j]) <==> Live(q.table[j]) && j !in snapshot)
  {
    assert q.txs[t].targets == q.txs[t].done;
  }

  /** Whatever other requests do between the snapshot of a revocation and its
      commit, exactly the sessions of the snapshot are revoked by then. */
  lemma SweepRevokesItsSnapshot(s: State, a: Action, acts: seq<Action>)
    requires Inv(s) && Finishes(s, a, acts)
    ensures var q, n := AtCommit(s, a, acts), Finished(s, a, acts);
            && n.table.Keys == q.table.Keys && n.nextFamily == q.nextFamily
            && forall j <- q.table ::
                 && n.table[j].user == q.table[j].user && n.table[j].family == q.table[j].family
                 && (Live(n.table[j]) <==> Live(q.table[j]) && j !in Snapshot(s, a))
  {
    var r := Apply(s, a);
    var q := After(r, acts);
    SweepTakesSnapshot(s, a);
    StepKeepsInv(s, a);
    RunKeepsRevoking(r, acts, a.t, Snapshot(s, a));
    RunKeepsInv(r, acts);
    CommitRevokesTargets(q, a.t, Snapshot(s, a));
  }

  /** So a family revocation leaves live exactly the sessions of the family that
      were not live at the snapshot, and none if no session of the family was
      rotated in between. */
  lemma SweepRevokesExactly(s: State, a: Action, acts: seq<Action>, family: nat)
    requires Inv(s) && SweepsFamily(s, a, family) && Finishes(s, a, acts)
    ensures LiveInFamily(Finished(s, a, acts).table, family)
            == LiveInFamily(AtCommit(s, a, acts).table, family) - LiveInFamily(s.table, family)
    ensures FamilyRotations(Apply(s, a), acts, family) == 0 ==> DeadFamily(Finished(s, a, acts), family)
  {
    SweepRevokesItsSnapshot(s, a, acts);
    FamilySnapshot(s, a, family);
    SweepTakesSnapshot(s, a);
    FamiliesMoveOn(Apply(s, a), acts);
    if FamilyRotations(Apply(s, a), acts, family) == 0 {
      StepKeepsInv(s, a);
      RunRevivesNobody(Apply(s, a), acts, family);
    }
  }

  /** And a logout from everywhere, exactly the user's sessions that were not
      live at the snapshot. */
  lemma LogoutAllRevokesExactly(s: State, a: Action, acts: seq<Action>)
    requires Inv(s) && a.LogoutAllRead? && Finishes(s, a, acts)
    ensures LiveOfUser(Finished(s, a, acts).table, a.user)
            == LiveOfUser(AtCommit(s, a, acts).table, a.user) - LiveOfUser(s.table, a.user)
  {
    SweepRevokesItsSnapshot(s, a, acts);
    SweepTakesSnapshot(s, a);
  }

  // ---- which revocations are sure to end the family ---------------------------

  /** Transaction `t` sweeps the family and has its live session locked. */
  ghost predicate Guards(s: State, t: nat, family: nat) {
    && t < |s.txs| && s.txs[t].Sweeping? && s.txs[t].own.Some? && s.txs[t].own.value in s.table
    && s.table[s.txs[t].own.value].family == family && Live(s.table[s.txs[t].own.value])
  }

  lemma OneLiveSession(s: State, j: nat, k: nat)
    requires Inv(s) && j in s.table && k in s.table && s.table[j].family == s.table[k].family
    requires Live(s.table[j]) && Live(s.table[k])
    ensures j == k
  {
    var c :| Path(s.table, s.table[j].family, s.table[j].user, c);
    LiveIsTail(s.table, s.table[j].family, s.table[j].user, c, j);
    LiveIsTail(s.table, s.table[j].family, s.table[j].user, c, k);
  }

  /** Only its holder changes a locked row. */
  lemma LockedRowStays(s: State, a: Action, t: nat, j: nat)
    requires Inv(s) && Enabled(s, a) && (a.Login? || a.t != t)
    requires t < |s.txs| && j in Holds(s.txs[t]) && j in s.table
    ensures j in Apply(s, a).table && Apply(s, a).table[j] == s.table[j]
  {
    if a.Commit? {
      assert TxInv(s, s.txs[a.t]) && Holds(s.txs[a.t]) !! Holds(s.txs[t]);
    }
  }

  /** Nobody can rotate a locked session, and there is no other to rotate. */
  lemma GuardedIsNotRotated(s: State, a: Action, t: nat, family: nat)
    requires Inv(s) && Enabled(s, a) && a != Commit(t) && Guards(s, t, family)
    ensures !RotatesIn(s, a, family)
  {
    var own := s.txs[t].own.value;
    assert own in Holds(s.txs[t]);
    if RotatesIn(s, a, family) {
      assert TxInv(s, s.txs[a.t]) && Holds(s.txs[a.t]) !! Holds(s.txs[t]);
      OneLiveSession(s, own, s.txs[a.t].token.jti);
      assert false;
    }
  }

  lemma StepKeepsGuard(s: State, a: Action, t: nat, family: nat)
    requires Inv(s) && Enabled(s, a) && a != Commit(t) && a != Abort(t) && Guards(s, t, family)
    ensures Guards(Apply(s, a), t, family)
  {
    if a.Login? || a.t != t {
      LockedRowStays(s, a, t, s.txs[t].own.value);
    }
  }

  lemma {:induction false} RunKeepsGuard(s: State, acts: seq<Action>, t: nat, family: nat)
    requires Inv(s) && Runs(s, acts) && Commit(t) !in acts && Abort(t) !in acts && Guards(s, t, family)
    ensures FamilyRotations(s, acts, family) == 0
    decreases acts
  {
    if acts != [] {
      StepKeepsGuard(s, acts[0], t, family);
      GuardedIsNotRotated(s, acts[0], t, family);
      StepKeepsInv(s, acts[0]);
      RunKeepsGuard(Apply(s, acts[0]), acts[1..], t, family);
    }
  }

  /** A refresh with a wrong token or an inactive user ends the family in every
      continuation, since the live session is the row it has locked. */
  lemma LockedTailDies(s: State, a: Action, acts: seq<Action>, family: nat)
    requires Inv(s) && SweepsFamily(s, a, family) && (a.BadHash? || a.BadUser?) && Finishes(s, a, acts)
    ensures DeadFamily(Finished(s, a, acts), family)
  {
    StepKeepsInv(s, a);
    RunKeepsGuard(Apply(s, a), acts, a.t, family);
    SweepRevokesExactly(s, a, acts, family);
  }

  lemma DeadSnapshotStaysDead(s: State, a: Action, acts: seq<Action>, family: nat)
    requires Inv(s) && SweepsFamily(s, a, family) && Finishes(s, a, acts) && LiveInFamily(s.table, family) == {}
    ensures DeadFamily(Finished(s, a, acts), family)
  {
    FamilySnapshot(s, a, family);
    SweepTakesSnapshot(s, a);
    StepKeepsInv(s, a);
    DeadFamiliesStayDead(Apply(s, a), acts, family);
    RunKeepsInv(Apply(s, a), acts);
    StepKeepsDead(AtCommit(s, a, acts), Commit(a.t), family);
  }

  /** A family revocation ends the family in every continuation if and only if
      it comes from a refresh that found its own session live, or finds no live
      session to begin with. A replay and a logout lock no live session, so any
      that is live can be rotated before the commit. */
  lemma RevocationDecides(s: State, a: Action, family: nat)
    requires Inv(s) && SweepsFamily(s, a, family) && |s.txs| >= 2
    ensures (forall acts :: Finishes(s, a, acts) ==> DeadFamily(Finished(s, a, acts), family))
            <==> a.BadHash? || a.BadUser? || LiveInFamily(s.table, family) == {}
  {
    if a.BadHash? || a.BadUser? || LiveInFamily(s.table, family) == {} {
      forall acts | Finishes(s, a, acts) ensures DeadFamily(Finished(s, a, acts), family) {
        if a.BadHash? || a.BadUser? {
          LockedTailDies(s, a, acts, family);
        } else {
          DeadSnapshotStaysDead(s, a, acts, family);
        }
      }
    } else {
      var acts := ReplayCanMissTheNewTail(s, a, family);
      assert s.nextJti in LiveInFamily(Finished(s, a, acts).table, family);
    }
  }

  lemma {:induction false} FamiliesMoveOn(s: State, acts: seq<Action>)
    requires Runs(s, acts)
    ensures After(s, acts).nextFamily >= s.nextFamily
    decreases acts
  {
    if acts != [] {
      FamiliesMoveOn(Apply(s, acts[0]), acts[1..]);
    }
  }

  // ---- what a commit writes, column by column --------------------------------

  /** A revocation writes its time into the rows named and nothing else. */
  lemma RevokeAllWrites(table: Table, jtis: set<nat>, now: int)
    ensures var after := RevokeAll(table, jtis, now);
            && after.Keys == table.Keys
            && forall j <- table ::
                 && after[j].revokedAt == (if j in jtis then Some(now) else table[j].revokedAt)
                 && after[j].user == table[j].user && after[j].family == table[j].family
                 && after[j].token == table[j].token && after[j].expiresAt == table[j].expiresAt
                 && after[j].replacedBy == table[j].replacedBy && after[j].lastUsedAt == table[j].lastUsedAt
  {
  }

  /** The commit of a rotation retires the used session, with its time of use and
      its successor, adds the successor, live, with its own token and expiry,
      and touches no other row. */
  lemma RotationWrites(s: State, t: nat)
    requires Inv(s) && Enabled(s, Commit(t)) && s.txs[t].Inserted?
    ensures var k, after := s.txs[t], Apply(s, Commit(t)).table;
            && after.Keys == s.table.Keys + {k.succ} && k.succ !in s.table
            && (var used, was := after[k.token.jti], s.table[k.token.jti];
                && used.revokedAt == Some(k.now) && used.lastUsedAt == Some(k.now) && used.replacedBy == Some(k.succ)
                && used.user == was.user && used.family == was.family && used.token == was.token
                && used.expiresAt == was.expiresAt && was.revokedAt == None)
            && (var next := after[k.succ];
                && next.user == k.token.sub && next.family == k.token.fid && next.expiresAt == k.expiresAt
                && next.revokedAt == None && next.replacedBy == None && next.lastUsedAt == None
                && next.token.sub == k.token.sub && next.token.jti == k.succ && next.token.fid == k.token.fid
                && next.token.iat == k.iat)
            && forall j <- s.table :: j != k.token.jti ==> after[j] == s.table[j]
  {
    assert TxInv(s, s.txs[t]);
  }

  // ---- building runs ---------------------------------------------------------

  lemma OneStep(s: State, a: Action)
    requires Enabled(s, a)
    ensures Runs(s, [a]) && After(s, [a]) == Apply(s, a)
  {
  }

  lemma TwoSteps(s: State, a: Action, b: Action)
    requires Enabled(s, a) && Enabled(Apply(s, a), b)
    ensures Runs(s, [a, b]) && After(s, [a, b]) == Apply(Apply(s, a), b)
  {
    assert [a, b][1..] == [b];
    OneStep(Apply(s, a), b);
  }

  lemma {:induction false} RunThenRun(s: State, xs: seq<Action>, ys: seq<Action>)
    requires Runs(s, xs) && Runs(After(s, xs), ys)
    ensures Runs(s, xs + ys) && After(s, xs + ys) == After(After(s, xs), ys)
    decreases xs
  {
    if xs == [] {
      assert xs + ys == ys;
    } else {
      assert (xs + ys)[1..] == xs[1..] + ys;
      RunThenRun(Apply(s, xs[0]), xs[1..], ys);
    }
  }

  predicate Refreshable(s: State, t: nat, token: Token, now: int) {
    && Is(s, t, Free) && token.jti in s.table && LockFree(s, t, token.jti)
    && s.table[token.jti].user == token.sub && s.table[token.jti].token == token
    && Live(s.table[token.jti]) && s.table[token.jti].expiresAt > now
  }

  /** A refresh that nobody disturbs rotates the session. */
  lemma RotationRun(s: State, t: nat, token: Token, now: int, expiresAt: int) returns (acts: seq<Action>)
    requires Refreshable(s, t, token, now)
    ensures Runs(s, acts) && forall a <- acts :: !a.Login? && a.t == t
    ensures After(s, acts) == s.(table := Rotated(s.table, token, now, s.nextJti, now, expiresAt),
                                 nextJti := s.nextJti + 1)
  {
    TwoSteps(s, LockForRefresh(t, token), Revoke(t, now));
    var r := After(s, [LockForRefresh(t, token), Revoke(t, now)]);
    TwoSteps(r, InsertNext(t, now, expiresAt), Commit(t));
    acts := [LockForRefresh(t, token), Revoke(t, now)] + [InsertNext(t, now, expiresAt), Commit(t)];
    RunThenRun(s, [LockForRefresh(t, token), Revoke(t, now)], [InsertNext(t, now, expiresAt), Commit(t)]);
    assert s.txs[t := Free] == s.txs;
  }

  function OnlyTx(txs: seq<Tx>, t: nat, n: nat): seq<Tx> {
    seq(|txs|, v requires 0 <= v < |txs| => if v < n && v != t then Free else txs[v])
  }

  /** All transactions but `t` give up: one of the things that may happen. */
  lemma {:induction false} OthersAbort(s: State, t: nat, n: nat) returns (acts: seq<Action>)
    requires t < |s.txs| && n <= |s.txs|
    ensures Runs(s, acts) && forall a <- acts :: a.Abort? && a.t != t
    ensures After(s, acts) == s.(txs := OnlyTx(s.txs, t, n))
    decreases n
  {
    if n == 0 {
      acts := [];
      assert s.txs == OnlyTx(s.txs, t, 0);
    } else {
      acts := OthersAbort(s, t, n - 1);
      if n - 1 != t {
        var r := After(s, acts);
        OneStep(r, Abort(n - 1));
        RunThenRun(s, acts, [Abort(n - 1)]);
        acts := acts + [Abort(n - 1)];
      }
      assert After(s, acts).txs == OnlyTx(s.txs, t, n);
    }
  }

  /** The UPDATE comes to a row that was rotated meanwhile, and passes over it. */
  lemma PassOver(s: State, t: nat, j: nat)
    requires t < |s.txs| && s.txs[t].Sweeping? && s.txs[t].targets == {j} && s.txs[t].done == {}
    requires j in s.table && !Live(s.table[j]) && LockFree(s, t, j)
    ensures Runs(s, [SweepRow(t, j)]) && Enabled(After(s, [SweepRow(t, j)]), Commit(t))
    ensures Apply(After(s, [SweepRow(t, j)]), Commit(t)).table == s.table
  {
    OneStep(s, SweepRow(t, j));
    assert RevokeAll(s.table, {}, s.txs[t].now) == s.table;
  }

  /** The one live session of a family that a replay or a logout revokes. */
  lemma LoneTarget(s: State, a: Action, family: nat, j: nat)
    requires Inv(s) && SweepsFamily(s, a, family) && (a.Reuse? || a.LogoutRead?) && j in LiveInFamily(s.table, family)
    ensures LiveInFamily(s.table, family) == {j} && Snapshot(s, a) == {j}
    ensures j !in Holds(Apply(s, a).txs[a.t]) && Apply(s, a).txs[a.t].done == {}
  {
    FamilySnapshot(s, a, family);
    forall k <- LiveInFamily(s.table, family) ensures k == j {
      OneLiveSession(s, j, k);
    }
  }

  /** With everybody else out of the way, transaction `v` rotates the one session
      that `t` is about to revoke, and `t` passes over it. */
  lemma RotatedMeanwhile(p: State, t: nat, v: nat, j: nat) returns (acts: seq<Action>)
    requires Inv(p) && t < |p.txs| && v < |p.txs| && v != t && p.txs == OnlyTx(p.txs, t, |p.txs|)
    requires p.txs[t].Sweeping? && p.txs[t].targets == {j} && p.txs[t].done == {} && j !in Holds(p.txs[t])
    requires j in p.table && Live(p.table[j]) && LiveInFamily(p.table, p.table[j].family) == {j}
    ensures Runs(p, acts) && Commit(t) !in acts && Abort(t) !in acts && Enabled(After(p, acts), Commit(t))
    ensures LiveInFamily(Apply(After(p, acts), Commit(t)).table, p.table[j].family) == {p.nextJti}
  {
    var token, now := p.table[j].token, p.table[j].expiresAt - 1;
    assert p.txs[v] == OnlyTx(p.txs, t, |p.txs|)[v];
    var rotation := RotationRun(p, v, token, now, now);
    var q := After(p, rotation);
    PassOver(q, t, j);
    RunThenRun(p, rotation, [SweepRow(t, j)]);
    acts := rotation + [SweepRow(t, j)];
    TailIsTheSuccessor(p.table, token, now, p.nextJti, now, now);
  }

  /** The successor can be there: from any state with a live session in the
      family, a replay or a logout whose revocation races with the rotation of
      that session commits and leaves the successor alive. */
  lemma ReplayCanMissTheNewTail(s: State, a: Action, family: nat) returns (acts: seq<Action>)
    requires Inv(s) && SweepsFamily(s, a, family) && (a.Reuse? || a.LogoutRead?) && |s.txs| >= 2
    requires LiveInFamily(s.table, family) != {}
    ensures Finishes(s, a, acts) && LiveInFamily(Finished(s, a, acts).table, family) == {s.nextJti}
  {
    var j :| j in LiveInFamily(s.table, family);
    LoneTarget(s, a, family, j);
    StepKeepsInv(s, a);
    var r := Apply(s, a);
    var alone := OthersAbort(r, a.t, |r.txs|);
    RunKeepsInv(r, alone);
    var p := After(r, alone);
    var race := RotatedMeanwhile(p, a.t, if a.t == 0 then 1 else 0, j);
    RunThenRun(r, alone, race);
    acts := alone + race;
  }

  lemma TailIsTheSuccessor(table: Table, token: Token, now: int, succ: nat, iat: int, expiresAt: int)
    requires token.jti in table && succ !in table && LiveInFamily(table, token.fid) == {token.jti}
    ensures LiveInFamily(Rotated(table, token, now, succ, iat, expiresAt), token.fid) == {succ}
  {
    var after := Rotated(table, token, now, succ, iat, expiresAt);
    forall k | k in LiveInFamily(after, token.fid) ensures k == succ {
      assert k in table && k != token.jti ==> k in LiveInFamily(table, token.fid);
    }
    assert succ in LiveInFamily(after, token.fid);
  }
}
