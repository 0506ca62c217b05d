/**
  The authentication service as one request runs it (src/auth/service.py,
  src/auth/repository.py). Each method is a run of the session machine with
  one transaction, so what holds there holds here.
*/
module AuthService {
  import opened Common
  import opened Sessions

  datatype AppError = InvalidCredentials | InvalidToken | ExpiredToken

  datatype Account = Account(id: nat, active: bool)

  ghost predicate Reaches(s: State, t: State) {
    exists acts :: Runs(s, acts) && After(s, acts) == t
  }

  lemma ReachesBy(s: State, acts: seq<Action>, t: State)
    requires Runs(s, acts) && After(s, acts) == t
    ensures Reaches(s, t)
  {
  }

  /** With no other transaction around, the UPDATE revokes all its targets. */
  lemma {:induction false} SweepRows(s: State, t: nat) returns (acts: seq<Action>)
    requires t < |s.txs| && s.txs[t].Sweeping?
    requires s.txs[t].done <= s.txs[t].targets <= s.table.Keys
    requires forall j <- s.txs[t].targets :: Live(s.table[j]) && LockFree(s, t, j)
    ensures Runs(s, acts)
    ensures After(s, acts) == SetTx(s, t, s.txs[t].(done := s.txs[t].targets))
    decreases s.txs[t].targets - s.txs[t].done
  {
    var k := s.txs[t];
    if j :| j in k.targets && j !in k.done {
      var n := Apply(s, SweepRow(t, j));
      var rest := SweepRows(n, t);
      OneStep(s, SweepRow(t, j));
      RunThenRun(s, [SweepRow(t, j)], rest);
      acts := [SweepRow(t, j)] + rest;
      assert s.txs[t := k.(done := k.done + {j})][t := k.(done := k.targets)] == s.txs[t := k.(done := k.targets)];
    } else {
      acts := [];
      assert k.targets == k.done;
      assert s.txs[t := k] == s.txs;
    }
  }

  /** A run that ends in the snapshot of an UPDATE goes on to its commit. */
  lemma SweepReaches(s: State, acts: seq<Action>, own: Option<nat>, targets: set<nat>, now: int)
    requires s.txs == [Free] && Runs(s, acts)
    requires After(s, acts) == s.(txs := [Sweeping(own, targets, {}, now)])
    requires targets <= s.table.Keys && forall j <- targets :: Live(s.table[j])
    ensures Reaches(s, s.(table := RevokeAll(s.table, targets, now)))
  {
    var r := After(s, acts);
    var rows := SweepRows(r, 0);
    RunThenRun(s, acts, rows);
    var q := After(r, rows);
    assert q.txs == [Sweeping(own, targets, targets, now)];
    OneStep(q, Commit(0));
    RunThenRun(s, acts + rows, [Commit(0)]);
    assert After(s, acts + rows + [Commit(0)]).txs == [Free];
    ReachesBy(s, acts + rows + [Commit(0)], s.(table := RevokeAll(s.table, targets, now)));
  }

  lemma StampReaches(s: State, acts: seq<Action>, jti: nat, now: int)
    requires s.txs == [Free] && Runs(s, acts) && jti in s.table
    requires After(s, acts) == s.(txs := [Stamped(jti, now)])
    ensures Reaches(s, s.(table := RevokeAll(s.table, {jti}, now)))
  {
    var r := After(s, acts);
    OneStep(r, Commit(0));
    RunThenRun(s, acts, [Commit(0)]);
    ReachesBy(s, acts + [Commit(0)], s.(table := RevokeAll(s.table, {jti}, now)));
  }

  lemma StillValid(s: State, t: State)
    requires Inv(s) && Reaches(s, t)
    ensures Inv(t)
  {
    var acts :| Runs(s, acts) && After(s, acts) == t;
    RunKeepsInv(s, acts);
  }

  predicate Known(table: Table, token: Token) {
    token.jti in table && table[token.jti].user == token.sub
  }

  predicate Active(account: Option<Account>) {
    account.Some? && account.value.active
  }

  /** The row a refresh accepts: known, live, unexpired, with the very token it was issued for. */
  predicate Genuine(table: Table, token: Token, now: int) {
    && Known(table, token) && Live(table[token.jti])
    && table[token.jti].expiresAt > now && table[token.jti].token == token
  }

  // ---- the branches of refresh, as runs --------------------------------------

  lemma SweepBranch(s: State, token: Token, why: Action, now: int)
    requires Inv(s) && s.txs == [Free] && Known(s.table, token)
    requires why in {Reuse(0, now), BadHash(0, now), BadUser(0, now)}
    requires Enabled(Apply(s, LockForRefresh(0, token)), why)
    ensures var t := s.(table := RevokeAll(s.table, LiveInFamily(s.table, s.table[token.jti].family), now));
            Reaches(s, t) && Inv(t)
  {
    var targets := LiveInFamily(s.table, s.table[token.jti].family);
    TwoSteps(s, LockForRefresh(0, token), why);
    SweepReaches(s, [LockForRefresh(0, token), why], Some(token.jti), targets, now);
    StillValid(s, s.(table := RevokeAll(s.table, targets, now)));
  }

  lemma ExpireBranch(s: State, token: Token, now: int)
    requires Inv(s) && s.txs == [Free] && Known(s.table, token)
    requires Live(s.table[token.jti]) && s.table[token.jti].expiresAt <= now
    ensures var t := s.(table := RevokeAll(s.table, {token.jti}, now));
            Reaches(s, t) && Inv(t)
  {
    TwoSteps(s, LockForRefresh(0, token), Expire(0, now));
    StampReaches(s, [LockForRefresh(0, token), Expire(0, now)], token.jti, now);
    StillValid(s, s.(table := RevokeAll(s.table, {token.jti}, now)));
  }

  lemma RotateBranch(s: State, token: Token, now: int, expiresAt: int)
    requires Inv(s) && s.txs == [Free] && Genuine(s.table, token, now)
    ensures var t := s.(table := Rotated(s.table, token, now, s.nextJti, now, expiresAt), nextJti := s.nextJti + 1);
            Reaches(s, t) && Inv(t)
  {
    var acts := RotationRun(s, 0, token, now, expiresAt);
    ReachesBy(s, acts, After(s, acts));
    StillValid(s, After(s, acts));
  }

  class Service {
    var sessions: Table
    var nextJti: nat
    var nextFamily: nat

    function View(): State
      reads this
    {
      State(sessions, nextJti, nextFamily, [Free])
    }

    /** What every request keeps: families are chains, fresh jtis are new. */
    ghost predicate Valid()
      reads this
    {
      Inv(View())
    }

    method RevokeFamily(family: nat, now: int)
      modifies this`sessions
      ensures sessions == RevokeAll(old(sessions), LiveInFamily(old(sessions), family), now)
      ensures LiveInFamily(sessions, family) == {}
      ensures sessions.Keys == old(sessions).Keys
      ensures forall j <- old(sessions) ::
                sessions[j] == if old(sessions)[j].family == family && old(sessions)[j].revokedAt == None
                               then old(sessions)[j].(revokedAt := Some(now)) else old(sessions)[j]
    {
      sessions := RevokeAll(sessions, LiveInFamily(sessions, family), now);
    }

    /** _issue_token_pair: without a family id the token starts a new family. */
    method IssueTokenPair(user: nat, family: Option<nat>, now: int, expiresAt: int) returns (token: Token)
      modifies this
      ensures token == Token(user, old(nextJti), if family.Some? then family.value else old(nextFamily), now)
      ensures sessions == old(sessions)[token.jti := NewSession(user, token.jti, token.fid, now, expiresAt)]
      ensures nextJti == old(nextJti) + 1
      ensures nextFamily == old(nextFamily) + if family.Some? then 0 else 1
      ensures sessions[token.jti].user == user && sessions[token.jti].family == token.fid
      ensures sessions[token.jti].token == token && sessions[token.jti].expiresAt == expiresAt
      ensures sessions[token.jti].revokedAt == None && sessions[token.jti].replacedBy == None
      ensures sessions[token.jti].lastUsedAt == None
    {
      var fid := if family.Some? then family.value else nextFamily;
      if family.None? {
        nextFamily := nextFamily + 1;
      }
      token := Token(user, nextJti, fid, now);
      sessions := sessions[nextJti := Session(user, fid, token, expiresAt, None, None, None)];
      nextJti := nextJti + 1;
    }

    /** The last branch of refresh: retire the row, issue its successor, link them. */
    method Rotate(token: Token, user: nat, now: int, expiresAt: int) returns (issued: Token)
      requires token.jti in sessions && user == token.sub && nextJti !in sessions
      modifies this
      ensures View() == old(View()).(table := Rotated(old(sessions), token, now, old(nextJti), now, expiresAt),
                                     nextJti := old(nextJti) + 1)
      ensures issued == Token(user, old(nextJti), token.fid, now)
      ensures issued.jti != token.jti && sessions.Keys == old(sessions).Keys + {issued.jti}
      ensures sessions[issued.jti] == Session(user, token.fid, issued, expiresAt, None, None, None)
      ensures sessions[token.jti] == old(sessions)[token.jti].(revokedAt := Some(now), lastUsedAt := Some(now),
                                                              replacedBy := Some(issued.jti))
      ensures forall j <- old(sessions) :: j != token.jti ==> sessions[j] == old(sessions)[j]
    {
      sessions := sessions[token.jti := sessions[token.jti].(revokedAt := Some(now), lastUsedAt := Some(now))];
      issued := IssueTokenPair(user, Some(token.fid), now, expiresAt);
      sessions := sessions[token.jti := sessions[token.jti].(replacedBy := Some(issued.jti))];
    }

    method Login(account: Option<Account>, validPassword: bool, now: int, expiresAt: int)
      returns (r: Result<Token, AppError>)
      requires Valid()
      modifies this
      ensures Valid() && Reaches(old(View()), View())
      ensures r.Ok? <==> account.Some? && account.value.active && validPassword
      ensures r.Err? ==> r.error == InvalidCredentials && View() == old(View())
      ensures r.Ok? ==>
                && r.value.jti !in old(sessions) && sessions.Keys == old(sessions).Keys + {r.value.jti}
                && sessions[r.value.jti] == Session(account.value.id, r.value.fid, r.value, expiresAt, None, None, None)
                && (forall j <- old(sessions) ::
                      sessions[j] == old(sessions)[j] && old(sessions)[j].family != r.value.fid)
      ensures r.Ok? ==> r.value.sub == account.value.id && r.value.fid == old(nextFamily)
                        && Genuine(sessions, r.value, expiresAt - 1)
    {
      ghost var s := View();
      if account == None || !validPassword || !account.value.active {
        ReachesBy(s, [], s);
        return Err(InvalidCredentials);
      }
      var token := IssueTokenPair(account.value.id, None, now, expiresAt);
      OneStep(s, Sessions.Login(account.value.id, now, expiresAt));
      ReachesBy(s, [Sessions.Login(account.value.id, now, expiresAt)], View());
      StillValid(s, View());
      return Ok(token);
    }

    /** The branch of refresh that succeeds. */
    method Exchange(token: Token, user: nat, now: int, expiresAt: int) returns (r: Result<Token, AppError>)
      requires Valid() && Genuine(sessions, token, now) && user == token.sub
      modifies this
      ensures Valid() && Reaches(old(View()), View())
      ensures sessions == Rotated(old(sessions), token, now, old(nextJti), now, expiresAt)
      ensures r == Ok(Token(token.sub, old(nextJti), token.fid, now))
      ensures var issued := r.value;
              && issued.jti !in old(sessions) && sessions.Keys == old(sessions).Keys + {issued.jti}
              && sessions[issued.jti] == Session(issued.sub, issued.fid, issued, expiresAt, None, None, None)
              && sessions[token.jti] == old(sessions)[token.jti].(revokedAt := Some(now), lastUsedAt := Some(now),
                                                                  replacedBy := Some(issued.jti))
              && forall j <- old(sessions) :: j != token.jti ==> sessions[j] == old(sessions)[j]
    {
      RotateBranch(View(), token, now, expiresAt);
      var issued := Rotate(token, user, now, expiresAt);
      return Ok(issued);
    }

    /** The branches of refresh that revoke the family. */
    method RefuseAndSweep(token: Token, now: int, ghost why: Action) returns (r: Result<Token, AppError>)
      requires Valid() && Known(sessions, token) && why in {Reuse(0, now), BadHash(0, now), BadUser(0, now)}
      requires Enabled(Apply(View(), LockForRefresh(0, token)), why)
      modifies this`sessions
      ensures Valid() && Reaches(old(View()), View()) && r == Err(InvalidToken)
      ensures var family := old(sessions)[token.jti].family;
              && LiveInFamily(sessions, family) == {} && sessions.Keys == old(sessions).Keys
              && sessions == RevokeAll(old(sessions), LiveInFamily(old(sessions), family), now)
              && forall j <- old(sessions) ::
                   sessions[j] == if old(sessions)[j].family == family && old(sessions)[j].revokedAt == None
                                  then old(sessions)[j].(revokedAt := Some(now)) else old(sessions)[j]
    {
      SweepBranch(View(), token, why, now);
      RevokeFamily(sessions[token.jti].family, now);
      return Err(InvalidToken);
    }

    /** The branch that revokes an expired session. */
    method RefuseAndExpire(token: Token, now: int) returns (r: Result<Token, AppError>)
      requires Valid() && Known(sessions, token)
      requires Live(sessions[token.jti]) && sessions[token.jti].expiresAt <= now
      modifies this`sessions
      ensures Valid() && Reaches(old(View()), View()) && r == Err(ExpiredToken)
      ensures sessions.Keys == old(sessions).Keys && sessions == RevokeAll(old(sessions), {token.jti}, now)
      ensures forall j <- old(sessions) ::
                sessions[j] == if j == token.jti then old(sessions)[j].(revokedAt := Some(now)) else old(sessions)[j]
    {
      ExpireBranch(View(), token, now);
      sessions := RevokeAll(sessions, {token.jti}, now);
      return Err(ExpiredToken);
    }

    /** refresh. `decoded` is what checking the JWT gave, `account` the user with
        the token's subject. A token is exchanged exactly when it is genuine and
        its user active. A replayed one costs the whole family, although the
        call only reports an invalid token; so do a token that is not the one
        stored and one of an inactive user. */
    method Refresh(decoded: Result<Token, AppError>, account: Option<Account>, now: int, expiresAt: int)
      returns (r: Result<Token, AppError>)
      requires Valid() && (decoded.Ok? && account.Some? ==> account.value.id == decoded.value.sub)
      modifies this
      ensures Valid() && Reaches(old(View()), View())
      ensures r.Ok? <==> decoded.Ok? && Genuine(old(sessions), decoded.value, now) && Active(account)
      ensures r.Ok? ==>
                && sessions == Rotated(old(sessions), decoded.value, now, old(nextJti), now, expiresAt)
                && r.value == Token(decoded.value.sub, old(nextJti), decoded.value.fid, now)
      ensures r.Ok? <==>
                && decoded.Ok? && account.Some? && account.value.active
                && decoded.value.jti in old(sessions)
                && (var row := old(sessions)[decoded.value.jti];
                    && row.user == decoded.value.sub && row.revokedAt == None
                    && row.expiresAt > now && row.token == decoded.value)
      ensures r.Ok? ==>
                var used, issued := decoded.value.jti, r.value;
                && issued.jti !in old(sessions) && sessions.Keys == old(sessions).Keys + {issued.jti}
                && issued.sub == decoded.value.sub && issued.fid == decoded.value.fid && issued.iat == now
                && sessions[issued.jti] == Session(issued.sub, issued.fid, issued, expiresAt, None, None, None)
                && sessions[used] == old(sessions)[used].(revokedAt := Some(now), lastUsedAt := Some(now),
                                                          replacedBy := Some(issued.jti))
                && forall j <- old(sessions) :: j != used ==> sessions[j] == old(sessions)[j]
      ensures decoded.Ok? && r.Err? && decoded.value.jti in old(sessions)
              && old(sessions)[decoded.value.jti].user == decoded.value.sub ==>
                var row := old(sessions)[decoded.value.jti];
                sessions.Keys == old(sessions).Keys &&
                if row.revokedAt == None && row.expiresAt <= now then
                  && r == Err(ExpiredToken)
                  && (forall j <- old(sessions) ::
                        sessions[j] == if j == decoded.value.jti then row.(revokedAt := Some(now)) else old(sessions)[j])
                else
                  && r == Err(InvalidToken)
                  && (forall j <- old(sessions) ::
                        sessions[j] == if old(sessions)[j].family == row.family && old(sessions)[j].revokedAt == None
                                       then old(sessions)[j].(revokedAt := Some(now)) else old(sessions)[j])
      ensures decoded.Err? ==> r == decoded && View() == old(View())
      ensures decoded.Ok? && !Known(old(sessions), decoded.value) ==>
                r == Err(InvalidToken) && View() == old(View())
      ensures decoded.Ok? && Known(old(sessions), decoded.value) && r.Err? ==>
                var row := old(sessions)[decoded.value.jti];
                if Live(row) && row.expiresAt <= now then
                  r == Err(ExpiredToken) && sessions == RevokeAll(old(sessions), {decoded.value.jti}, now)
                else
                  && r == Err(InvalidToken) && LiveInFamily(sessions, row.family) == {}
                  && sessions == RevokeAll(old(sessions), LiveInFamily(old(sessions), row.family), now)
    {
      ghost var s := View();
      if decoded.Err? {
        ReachesBy(s, [], s);
        return decoded;
      }
      var token := decoded.value;
      if token.jti !in sessions || sessions[token.jti].user != token.sub {
        ReachesBy(s, [], s);
        return Err(InvalidToken);
      }
      var row := sessions[token.jti];
      if row.revokedAt != None {
        r := RefuseAndSweep(token, now, Reuse(0, now));
        return;
      }
      if row.expiresAt <= now {
        r := RefuseAndExpire(token, now);
        return;
      }
      if row.token != token {
        r := RefuseAndSweep(token, now, BadHash(0, now));
        return;
      }
      if account == None || !account.value.active {
        r := RefuseAndSweep(token, now, BadUser(0, now));
        return;
      }
      r := Exchange(token, account.value.id, now, expiresAt);
    }

    /** logout. A session that is already revoked is left as it is; a token that
        is not the one stored costs the family. Neither the user nor the expiry
        is looked at. */
    method Logout(decoded: Result<Token, AppError>, now: int) returns (r: Result<bool, AppError>)
      requires Valid()
      modifies this`sessions
      ensures Valid() && Reaches(old(View()), View())
      ensures decoded.Err? ==> r == Err(decoded.error) && sessions == old(sessions)
      ensures decoded.Ok? && decoded.value.jti !in old(sessions) ==> r == Err(InvalidToken) && sessions == old(sessions)
      ensures decoded.Ok? && decoded.value.jti in old(sessions) ==>
                var row := old(sessions)[decoded.value.jti];
                if row.token != decoded.value then
                  && r == Err(InvalidToken) && LiveInFamily(sessions, row.family) == {}
                  && sessions == RevokeAll(old(sessions), LiveInFamily(old(sessions), row.family), now)
                else
                  && r == Ok(true) && decoded.value.jti !in LiveInFamily(sessions, row.family)
                  && sessions == if Live(row) then RevokeAll(old(sessions), {decoded.value.jti}, now) else old(sessions)
      ensures decoded.Ok? && decoded.value.jti in old(sessions) ==>
                var row := old(sessions)[decoded.value.jti];
                && sessions.Keys == old(sessions).Keys
                && forall j <- old(sessions) ::
                     var was := old(sessions)[j];
                     sessions[j] == if was.revokedAt == None && (if row.token == decoded.value then j == decoded.value.jti
                                                                 else was.family == row.family)
                                    then was.(revokedAt := Some(now)) else was
    {
      ghost var s := View();
      ReachesBy(s, [], s);
      if decoded.Err? {
        return Err(decoded.error);
      }
      var token := decoded.value;
      if token.jti !in sessions {
        return Err(InvalidToken);
      }
      var row := sessions[token.jti];
      if row.token != token {
        OneStep(s, LogoutRead(0, token, now));
        SweepReaches(s, [LogoutRead(0, token, now)], None, LiveInFamily(sessions, row.family), now);
        RevokeFamily(row.family, now);
        StillValid(s, View());
        return Err(InvalidToken);
      }
      if row.revokedAt == None {
        TwoSteps(s, LogoutRead(0, token, now), Write(0));
        StampReaches(s, [LogoutRead(0, token, now), Write(0)], token.jti, now);
        sessions := RevokeAll(sessions, {token.jti}, now);
        StillValid(s, View());
      }
      return Ok(true);
    }

    method LogoutAll(user: nat, now: int)
      requires Valid()
      modifies this`sessions
      ensures Valid() && Reaches(old(View()), View())
      ensures sessions == RevokeAll(old(sessions), LiveOfUser(old(sessions), user), now)
      ensures LiveOfUser(sessions, user) == {}
      ensures sessions.Keys == old(sessions).Keys
      ensures forall j <- old(sessions) ::
                sessions[j] == if old(sessions)[j].user == user && old(sessions)[j].revokedAt == None
                               then old(sessions)[j].(revokedAt := Some(now)) else old(sessions)[j]
    {
      ghost var s := View();
      OneStep(s, LogoutAllRead(0, user, now));
      SweepReaches(s, [LogoutAllRead(0, user, now)], None, LiveOfUser(sessions, user), now);
      sessions := RevokeAll(sessions, LiveOfUser(sessions, user), now);
      StillValid(s, View());
    }

    /** revoke_session: only a live session of the user's own. */
    method RevokeSession(user: nat, jti: nat, now: int) returns (revoked: bool)
      requires Valid()
      modifies this`sessions
      ensures Valid() && Reaches(old(View()), View())
      ensures revoked <==> jti in LiveOfUser(old(sessions), user)
      ensures sessions == if revoked then RevokeAll(old(sessions), {jti}, now) else old(sessions)
      ensures revoked <==> jti in old(sessions) && old(sessions)[jti].user == user && old(sessions)[jti].revokedAt == None
      ensures revoked ==> sessions == old(sessions)[jti := old(sessions)[jti].(revokedAt := Some(now))]
    {
      ghost var s := View();
      if jti !in sessions || sessions[jti].user != user || sessions[jti].revokedAt != None {
        ReachesBy(s, [], s);
        return false;
      }
      TwoSteps(s, RevokeOneRead(0, jti, user, now), Write(0));
      StampReaches(s, [RevokeOneRead(0, jti, user, now), Write(0)], jti, now);
      sessions := RevokeAll(sessions, {jti}, now);
      StillValid(s, View());
      return true;
    }
  }

  /** A refresh that revokes the family of its token, be it spent, not the one
      stored or of an inactive user, kills the family for good: after the call,
      in every interleaving of any number of requests, no session of the family
      is ever live and none of its tokens refreshes again. */
  lemma ReplayKillsTheFamily(s: State, token: Token, now: int, n: nat, acts: seq<Action>)
    requires Inv(s) && s.txs == [Free] && Known(s.table, token)
    requires var family := s.table[token.jti].family;
             Runs(s.(table := RevokeAll(s.table, LiveInFamily(s.table, family), now), txs := seq(n, _ => Free)), acts)
    ensures var family := s.table[token.jti].family;
            var r := s.(table := RevokeAll(s.table, LiveInFamily(s.table, family), now), txs := seq(n, _ => Free));
            && LiveInFamily(After(r, acts).table, family) == {}
            && forall j :: j in s.table && s.table[j].family == family ==> Rotations(r, acts, j) == 0
  {
    var family := s.table[token.jti].family;
    RevokingKeepsChains(s.table, LiveInFamily(s.table, family), now);
    var r := s.(table := RevokeAll(s.table, LiveInFamily(s.table, family), now), txs := seq(n, _ => Free));
    DeadFamiliesStayDead(r, acts, family);
  }
}
