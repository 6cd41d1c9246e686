/** Refresh-token rotation and password-reset tokens, over every sequence of operations.

    Operations are serialised. Raw tokens are random; one that was ever issued is never drawn
    again. Digests are taken to be injective, so a row is named by its raw token. */
module AuthTokens {
  import opened Wrappers

  const WEEK := 7 * 24 * 3600
  const HOUR := 3600

  datatype User = User(password: int, mustChange: bool, active: bool)

  datatype RefreshRow = RefreshRow(user: nat, revoked: bool, expires: int)

  datatype ResetRow = ResetRow(user: nat, used: bool, expires: int)

  /** The tables, and two histories: every raw token ever issued, and the successful refreshes. */
  datatype Db = Db(
    users: map<nat, User>, tokens: map<nat, RefreshRow>, resets: map<nat, ResetRow>,
    issued: set<nat>, spent: seq<nat>)

  datatype Outcome = Done(raw: Option<nat>) | Unauthorized | Forbidden | NotFound | PolicyViolation

  /** `account` is who the e-mail names, if anyone, `raw` the random draw, `policyOk` whether the new
      password is acceptable. */
  datatype Op =
    | Login(account: Option<nat>, verified: bool, raw: nat)
    | Refresh(token: nat, raw: nat)
    | Logout(token: nat)
    | RequestReset(account: Option<nat>, raw: nat)
    | ConfirmReset(token: nat, policyOk: bool, password: int)
    | ChangePassword(user: nat, policyOk: bool, verified: bool, password: int)
    | SetActive(user: nat, active: bool)
    | DeleteUser(user: nat)

  // ---------------------------------------------------------------- the repository

  predicate ValidToken(db: Db, t: nat, now: int) {
    t in db.tokens && !db.tokens[t].revoked && db.tokens[t].expires > now
  }

  predicate ValidReset(db: Db, t: nat, now: int) {
    t in db.resets && !db.resets[t].used && db.resets[t].expires > now
  }

  function Revoke(tokens: map<nat, RefreshRow>, t: nat): map<nat, RefreshRow> {
    if t in tokens then tokens[t := tokens[t].(revoked := true)] else tokens
  }

  function RevokeAll(tokens: map<nat, RefreshRow>, user: nat): map<nat, RefreshRow> {
    map t | t in tokens :: if tokens[t].user == user then tokens[t].(revoked := true) else tokens[t]
  }

  function UseAll(resets: map<nat, ResetRow>, user: nat): map<nat, ResetRow> {
    map t | t in resets :: if resets[t].user == user then resets[t].(used := true) else resets[t]
  }

  function Issue(db: Db, user: nat, raw: nat, now: int): Db {
    db.(tokens := db.tokens[raw := RefreshRow(user, false, now + WEEK)], issued := db.issued + {raw})
  }

  function IssueReset(db: Db, user: nat, raw: nat, now: int): Db {
    db.(resets := UseAll(db.resets, user)[raw := ResetRow(user, false, now + HOUR)], issued := db.issued + {raw})
  }

  function SetPassword(db: Db, user: nat, password: int): Db
    requires user in db.users
  {
    db.(users := db.users[user := db.users[user].(password := password, mustChange := false)],
       tokens := RevokeAll(db.tokens, user))
  }

  // ---------------------------------------------------------------- the service

  function Step(db: Db, op: Op, now: int): (Db, Outcome) {
    match op
    case Login(user, verified, raw) =>
      if user.None? || user.value !in db.users || !verified then (db, Unauthorized)
      else if !db.users[user.value].active then (db, Forbidden)
      else (Issue(db, user.value, raw, now), Done(Some(raw)))
    case Refresh(t, raw) =>
      if !ValidToken(db, t, now) || db.tokens[t].user !in db.users then (db, Unauthorized)
      else if !db.users[db.tokens[t].user].active then (db, Forbidden)
      else
        (Issue(db.(tokens := Revoke(db.tokens, t), spent := db.spent + [t]), db.tokens[t].user, raw, now),
         Done(Some(raw)))
    case Logout(t) =>
      (if ValidToken(db, t, now) then db.(tokens := Revoke(db.tokens, t)) else db, Done(None))
    case RequestReset(user, raw) =>
      if user.None? || user.value !in db.users || !db.users[user.value].active then (db, Done(None))
      else (IssueReset(db, user.value, raw, now), Done(Some(raw)))
    case ConfirmReset(t, policyOk, password) =>
      if !policyOk then (db, PolicyViolation)
      else if !ValidReset(db, t, now) then (db, Unauthorized)
      else if db.resets[t].user !in db.users then (db, NotFound)
      else
        (SetPassword(db.(resets := db.resets[t := db.resets[t].(used := true)]), db.resets[t].user, password),
         Done(None))
    case ChangePassword(user, policyOk, verified, password) =>
      if !policyOk then (db, PolicyViolation)
      else if user !in db.users then (db, NotFound)
      else if !verified then (db, Unauthorized)
      else (SetPassword(db, user, password), Done(None))
    case SetActive(user, active) =>
      (if user in db.users then db.(users := db.users[user := db.users[user].(active := active)]) else db, Done(None))
    case DeleteUser(user) =>
      (db.(users := db.users - {user},
           tokens := map t | t in db.tokens && db.tokens[t].user != user :: db.tokens[t],
           resets := map t | t in db.resets && db.resets[t].user != user :: db.resets[t]),
       Done(None))
  }

  /** Draws are new and the clock does not go back. */
  predicate Admissible(db: Db, op: Op) {
    op.Login? || op.Refresh? || op.RequestReset? ==> op.raw !in db.issued
  }

  datatype Moment = Moment(op: Op, now: int)

  function Run(db: Db, ms: seq<Moment>): Db {
    if ms == [] then db else Step(Run(db, ms[..|ms| - 1]), ms[|ms| - 1].op, ms[|ms| - 1].now).0
  }

  predicate AdmissibleRun(db: Db, ms: seq<Moment>, start: int) {
    ms == []
    || (&& AdmissibleRun(db, ms[..|ms| - 1], start)
        && Admissible(Run(db, ms[..|ms| - 1]), ms[|ms| - 1].op)
        && (if |ms| == 1 then start else ms[|ms| - 2].now) <= ms[|ms| - 1].now)
  }

  // ---------------------------------------------------------------- invariant

  /** A token that was refreshed is gone or revoked, and no user has two unused reset tokens. */
  ghost predicate Inv(db: Db) {
    && (forall t :: t in db.tokens ==> t in db.issued)
    && (forall t :: t in db.resets ==> t in db.issued)
    && (forall i :: 0 <= i < |db.spent| ==> Gone(db, db.spent[i]))
    && (forall i, j :: 0 <= i < j < |db.spent| ==> db.spent[i] != db.spent[j])
    && (forall s, t :: s in db.resets && t in db.resets && !db.resets[s].used && !db.resets[t].used ==>
          db.resets[s].user == db.resets[t].user ==> s == t)
  }

  /** Issued, and revoked or deleted. */
  predicate Gone(db: Db, t: nat) {
    t in db.issued && (t in db.tokens ==> db.tokens[t].revoked)
  }

  /** Every operation keeps what is gone gone. */
  lemma GoneStays(db: Db, op: Op, now: int, t: nat)
    requires Gone(db, t) && Admissible(db, op)
    ensures Gone(Step(db, op, now).0, t)
  {
  }

  lemma StepInv(db: Db, op: Op, now: int)
    requires Inv(db) && Admissible(db, op)
    ensures Inv(Step(db, op, now).0)
  {
    var d := Step(db, op, now).0;
    forall i | 0 <= i < |db.spent|
      ensures Gone(d, db.spent[i])
    {
      GoneStays(db, op, now, db.spent[i]);
    }
  }

  lemma {:induction false} RunInv(db: Db, ms: seq<Moment>, start: int)
    requires Inv(db) && AdmissibleRun(db, ms, start)
    ensures Inv(Run(db, ms))
  {
    if ms != [] {
      RunInv(db, ms[..|ms| - 1], start);
      StepInv(Run(db, ms[..|ms| - 1]), ms[|ms| - 1].op, ms[|ms| - 1].now);
    }
  }

  // ---------------------------------------------------------------- guarantees

  /** Issued and of no use at `now`. */
  predicate Dead(db: Db, t: nat, now: int) {
    t in db.issued && !ValidToken(db, t, now)
  }

  lemma DeadStays(db: Db, op: Op, now: int, later: int, t: nat)
    requires Dead(db, t, now) && Admissible(db, op) && now <= later
    ensures Dead(Step(db, op, later).0, t, later)
  {
  }

  function EndOf(ms: seq<Moment>, start: int): int {
    if ms == [] then start else ms[|ms| - 1].now
  }

  /** An invalid refresh token never becomes valid again. */
  lemma {:induction false} InvalidForEver(db: Db, ms: seq<Moment>, start: int, t: nat)
    requires Dead(db, t, start) && AdmissibleRun(db, ms, start)
    ensures Dead(Run(db, ms), t, EndOf(ms, start))
  {
    if ms != [] {
      InvalidForEver(db, ms[..|ms| - 1], start, t);
      DeadStays(Run(db, ms[..|ms| - 1]), ms[|ms| - 1].op, EndOf(ms[..|ms| - 1], start), ms[|ms| - 1].now, t);
    }
  }

  const Fresh := Db(map[], map[], map[], {}, [])

  /** Over any run from given users, each token refreshes at most once, and no user ever has two
      usable reset tokens. */
  lemma RotationAndResets(users: map<nat, User>, ms: seq<Moment>, start: int)
    requires AdmissibleRun(Fresh.(users := users), ms, start)
    ensures var db := Run(Fresh.(users := users), ms);
            && (forall i, j :: 0 <= i < j < |db.spent| ==> db.spent[i] != db.spent[j])
            && (forall s, t :: ValidReset(db, s, EndOf(ms, start)) && ValidReset(db, t, EndOf(ms, start)) ==>
                  db.resets[s].user == db.resets[t].user ==> s == t)
  {
    RunInv(Fresh.(users := users), ms, start);
  }

  function Live(db: Db, user: nat, now: int): set<nat> {
    set t | t in db.tokens && ValidToken(db, t, now) && db.tokens[t].user == user
  }

  /** A refresh succeeds exactly for a valid token of an active user; it swaps one live token of
      that user for another, and no one else's. */
  lemma RefreshConserves(db: Db, t: nat, raw: nat, now: int, user: nat)
    requires Inv(db) && raw !in db.issued
    ensures var (d, outcome) := Step(db, Refresh(t, raw), now);
            && (outcome.Done? <==> ValidToken(db, t, now) && db.tokens[t].user in db.users
                                   && db.users[db.tokens[t].user].active)
            && (outcome == Forbidden <==> ValidToken(db, t, now) && db.tokens[t].user in db.users
                                          && !db.users[db.tokens[t].user].active)
            && outcome in {Done(Some(raw)), Forbidden, Unauthorized}
            && (outcome.Done? ==> Dead(d, t, now) && ValidToken(d, raw, now) && d.spent == db.spent + [t]
                                  && d.tokens[raw].user == db.tokens[t].user && d.users == db.users)
            && (!outcome.Done? ==> d == db)
            && |Live(d, user, now)| == |Live(db, user, now)|
  {
    var (d, outcome) := Step(db, Refresh(t, raw), now);
    if outcome.Done? {
      var before, after := Live(db, user, now), Live(d, user, now);
      if user == db.tokens[t].user {
        assert t in before && raw !in before;
        assert after == before - {t} + {raw};
      } else {
        assert after == before;
      }
    }
  }

  /** The login of the active account of `user`, its password verified. */
  predicate OpensSession(db: Db, op: Op, user: nat) {
    op.Login? && op.account == Some(user) && user in db.users && op.verified && db.users[user].active
  }

  /** A login succeeds exactly when its account exists, its password is verified and it is active; an
      inactive account is told so only once its password is verified. The token is the account's and good
      for a week. A login that fails changes nothing. */
  lemma LoginIff(db: Db, account: Option<nat>, verified: bool, raw: nat, now: int)
    requires Inv(db) && raw !in db.issued
    ensures var (d, outcome) := Step(db, Login(account, verified, raw), now);
            var known := account.Some? && account.value in db.users && verified;
            && (outcome == Done(Some(raw)) <==> known && db.users[account.value].active)
            && (outcome == Forbidden <==> known && !db.users[account.value].active)
            && (outcome == Unauthorized <==> !known)
            && (outcome.Done? ==>
                  && (forall later :: ValidToken(d, raw, later) <==> later < now + 7 * 24 * 3600)
                  && d.tokens[raw].user == account.value && raw !in db.tokens && d.tokens - {raw} == db.tokens
                  && d.users == db.users && d.resets == db.resets && d.spent == db.spent)
            && (!outcome.Done? ==> d == db)
  {
  }

  lemma LiveAfterIssue(db: Db, owner: nat, raw: nat, now: int, user: nat)
    requires raw !in db.tokens
    ensures Live(Issue(db, owner, raw, now), user, now) == Live(db, user, now) + (if user == owner then {raw} else {})
    ensures raw !in Live(db, user, now)
  {
  }

  /** It opens one session, of its account alone. */
  lemma LoginOpensOneSession(db: Db, account: Option<nat>, verified: bool, raw: nat, now: int, user: nat)
    requires Inv(db) && raw !in db.issued
    ensures var d := Step(db, Login(account, verified, raw), now).0;
            var added := if OpensSession(db, Login(account, verified, raw), user) then {raw} else {};
            && Live(d, user, now) == Live(db, user, now) + added
            && |Live(d, user, now)| == |Live(db, user, now)| + |added|
  {
    var op := Login(account, verified, raw);
    if account.Some? && OpensSession(db, op, account.value) {
      LiveAfterIssue(db, account.value, raw, now, user);
    } else {
      assert Step(db, op, now).0 == db && !OpensSession(db, op, user);
    }
  }

  /** A logout ends the session of its token and no other. */
  lemma LogoutEndsOneSession(db: Db, t: nat, now: int, user: nat)
    ensures var (d, outcome) := Step(db, Logout(t), now);
            && outcome == Done(None)
            && Live(d, user, now) == Live(db, user, now) - {t}
            && d.users == db.users && d.resets == db.resets
            && (!ValidToken(db, t, now) ==> d == db)
  {
  }

  /** A deletion takes the account's sessions and resets with it, and leaves every other account alone. */
  lemma DeletionCascades(db: Db, user: nat, now: int)
    ensures var d := Step(db, DeleteUser(user), now).0;
            && d.users == db.users - {user}
            && (forall t :: t in d.tokens <==> t in db.tokens && db.tokens[t].user != user)
            && (forall t :: t in d.tokens ==> d.tokens[t] == db.tokens[t])
            && (forall t :: t in d.resets <==> t in db.resets && db.resets[t].user != user)
            && (forall t :: t in d.resets ==> d.resets[t] == db.resets[t])
  {
  }

  lemma SubsetIsSmaller(a: set<nat>, b: set<nat>)
    requires a <= b
    ensures |a| <= |b|
  {
    assert b == a + (b - a);
  }

  lemma StepSessions(db: Db, op: Op, now: int, user: nat)
    requires Inv(db) && Admissible(db, op)
    ensures |Live(Step(db, op, now).0, user, now)|
         <= |Live(db, user, now)| + (if OpensSession(db, op, user) then 1 else 0)
  {
    match op
    case Login(account, verified, raw) => LoginOpensOneSession(db, account, verified, raw, now, user);
    case Refresh(t, raw) => RefreshConserves(db, t, raw, now, user);
    case _ =>
      assert Live(Step(db, op, now).0, user, now) <= Live(db, user, now);
      SubsetIsSmaller(Live(Step(db, op, now).0, user, now), Live(db, user, now));
  }

  /** How many verified logins of its active account the run made for `user`. */
  function Logins(db: Db, ms: seq<Moment>, user: nat): nat {
    if ms == [] then 0
    else
      var before := ms[..|ms| - 1];
      Logins(db, before, user) + (if OpensSession(Run(db, before), ms[|ms| - 1].op, user) then 1 else 0)
  }

  /** However often tokens are rotated, a user never has more live sessions than verified logins. */
  lemma {:induction false} SessionsWithinLogins(users: map<nat, User>, ms: seq<Moment>, start: int, user: nat)
    requires AdmissibleRun(Fresh.(users := users), ms, start)
    ensures var db := Fresh.(users := users);
            |Live(Run(db, ms), user, EndOf(ms, start))| <= Logins(db, ms, user)
  {
    var db := Fresh.(users := users);
    if ms != [] {
      var prefix, m := ms[..|ms| - 1], ms[|ms| - 1];
      var before := Run(db, prefix);
      SessionsWithinLogins(users, prefix, start, user);
      RunInv(db, prefix, start);
      StepSessions(before, m.op, m.now, user);
      assert EndOf(prefix, start) <= m.now;
      SubsetIsSmaller(Live(before, user, m.now), Live(before, user, EndOf(prefix, start)));
    }
  }

  /** The refresh of a valid token of the active account of `user`. */
  predicate Rotates(db: Db, op: Op, now: int, user: nat) {
    && op.Refresh? && ValidToken(db, op.token, now) && db.tokens[op.token].user == user
    && user in db.users && db.users[user].active
  }

  /** `t` goes back to `user`: the run issued it at a verified login of the active account of `user`, or
      at the refresh of a valid token that goes back to `user`. */
  predicate Descends(db: Db, ms: seq<Moment>, user: nat, t: nat) {
    ms != []
    && var before, m := ms[..|ms| - 1], ms[|ms| - 1];
       || Descends(db, before, user, t)
       || (OpensSession(Run(db, before), m.op, user) && m.op.raw == t)
       || (Rotates(Run(db, before), m.op, m.now, user) && m.op.raw == t && Descends(db, before, user, m.op.token))
  }

  /** One step issues at most its own draw, and hands no token from one user to another. */
  lemma StepIssues(db: Db, op: Op, now: int, t: nat)
    requires Inv(db) && Admissible(db, op)
    requires t in Step(db, op, now).0.tokens
    ensures t in db.tokens ==> Step(db, op, now).0.tokens[t].user == db.tokens[t].user
    ensures t !in db.tokens ==>
              && (op.Login? || op.Refresh?) && op.raw == t && t !in db.issued
              && (op.Login? ==> OpensSession(db, op, Step(db, op, now).0.tokens[t].user))
              && (op.Refresh? ==> Rotates(db, op, now, Step(db, op, now).0.tokens[t].user))
  {
  }

  lemma IssuedStays(db: Db, op: Op, now: int)
    ensures db.issued <= Step(db, op, now).0.issued
    ensures forall user :: OpensSession(db, op, user) || Rotates(db, op, now, user) ==>
              op.raw in Step(db, op, now).0.issued
  {
  }

  /** Over every run, a refresh token belongs to a user exactly when it goes back, through rotations, to a
      verified login of that user. */
  lemma {:induction false} EveryTokenDescends(users: map<nat, User>, ms: seq<Moment>, start: int, user: nat, t: nat)
    requires AdmissibleRun(Fresh.(users := users), ms, start)
    ensures var db := Fresh.(users := users);
            t in Run(db, ms).tokens ==> (Run(db, ms).tokens[t].user == user <==> Descends(db, ms, user, t))
  {
    var db := Fresh.(users := users);
    if ms != [] && t in Run(db, ms).tokens {
      var prefix, m := ms[..|ms| - 1], ms[|ms| - 1];
      var before := Run(db, prefix);
      RunInv(db, prefix, start);
      StepIssues(before, m.op, m.now, t);
      EveryTokenDescends(users, prefix, start, user, t);
      if m.op.Refresh? {
        EveryTokenDescends(users, prefix, start, user, m.op.token);
      }
      if t !in before.tokens && Descends(db, prefix, user, t) {
        DescendantsAreIssued(db, prefix, user, t);
      }
    }
  }

  lemma {:induction false} DescendantsAreIssued(db: Db, ms: seq<Moment>, user: nat, t: nat)
    requires Descends(db, ms, user, t)
    ensures t in Run(db, ms).issued
  {
    var prefix, m := ms[..|ms| - 1], ms[|ms| - 1];
    IssuedStays(Run(db, prefix), m.op, m.now);
    if Descends(db, prefix, user, t) {
      DescendantsAreIssued(db, prefix, user, t);
    }
  }

  /** The user whose password the operation sets. */
  function Renewed(db: Db, op: Op): Option<nat> {
    match op
    case ConfirmReset(t, _, _) => if t in db.resets then Some(db.resets[t].user) else None
    case ChangePassword(user, _, _, _) => Some(user)
    case _ => None
  }

  /** Every account keeps its password, and the duty to change it, until it is deleted, unless the operation
      renews its password; then the account has the new one and the duty is lifted. */
  lemma OnlyRenewalSetsPasswords(db: Db, op: Op, now: int, user: nat)
    ensures var (d, outcome) := Step(db, op, now);
            && (user in d.users <==> user in db.users && op != DeleteUser(user))
            && (user in d.users ==>
                  var renewed := Renewed(db, op) == Some(user) && outcome.Done?;
                  && d.users[user].password == (if renewed then op.password else db.users[user].password)
                  && d.users[user].mustChange == (!renewed && db.users[user].mustChange)
                  && (d.users[user].active != db.users[user].active ==> op.SetActive?))
  {
  }

  /** A change of password succeeds exactly when the policy accepts the new one, the account exists and the
      current one is verified; the first of these to fail names the error, and changes nothing. */
  lemma ChangePasswordIff(db: Db, user: nat, policyOk: bool, verified: bool, password: int, now: int)
    ensures var (d, outcome) := Step(db, ChangePassword(user, policyOk, verified, password), now);
            && outcome in {Done(None), PolicyViolation, NotFound, Unauthorized}
            && (outcome == PolicyViolation <==> !policyOk)
            && (outcome == NotFound <==> policyOk && user !in db.users)
            && (outcome == Unauthorized <==> policyOk && user in db.users && !verified)
            && (!outcome.Done? ==> d == db)
            && (outcome.Done? ==> forall other :: other != user ==> Live(d, other, now) == Live(db, other, now))
  {
  }

  /** A reset can be requested of an active account alone, and answers alike otherwise. It makes its token the
      account's only usable one, for an hour, and touches no other account's. */
  lemma RequestSupersedes(db: Db, account: Option<nat>, raw: nat, now: int)
    requires Inv(db) && raw !in db.issued
    ensures var (d, outcome) := Step(db, RequestReset(account, raw), now);
            var known := account.Some? && account.value in db.users && db.users[account.value].active;
            && outcome == Done(if known then Some(raw) else None)
            && (!known ==> d == db)
            && d.users == db.users && d.tokens == db.tokens
            && (known ==> forall t, later ::
                  ValidReset(d, t, later) <==>
                    if t == raw then later < now + 3600
                    else ValidReset(db, t, later) && db.resets[t].user != account.value)
            && (known ==> d.resets[raw].user == account.value)
  {
  }

  /** No refresh token issued before a password change or reset survives it, then or later. */
  lemma NoTokenSurvivesRenewal(db: Db, op: Op, now: int, ms: seq<Moment>, t: nat)
    requires Inv(db) && Renewed(db, op).Some? && Step(db, op, now).1.Done?
    requires t in db.tokens && db.tokens[t].user == Renewed(db, op).value
    requires AdmissibleRun(Step(db, op, now).0, ms, now)
    ensures Live(Step(db, op, now).0, Renewed(db, op).value, now) == {}
    ensures Dead(Run(Step(db, op, now).0, ms), t, EndOf(ms, now))
  {
    assert Dead(Step(db, op, now).0, t, now);
    InvalidForEver(Step(db, op, now).0, ms, now, t);
  }

  /** A reset token works once, within its hour, and only if no newer one was requested. */
  lemma ResetWorksOnce(db: Db, t: nat, now: int, policyOk: bool, password: int)
    requires Inv(db)
    ensures var (d, outcome) := Step(db, ConfirmReset(t, policyOk, password), now);
            && (outcome == Done(None) <==> policyOk && ValidReset(db, t, now) && db.resets[t].user in db.users)
            && (outcome == PolicyViolation <==> !policyOk)
            && (outcome == Unauthorized <==> policyOk && !ValidReset(db, t, now))
            && (outcome == NotFound <==> policyOk && ValidReset(db, t, now) && db.resets[t].user !in db.users)
            && (outcome.Done? ==> !ValidReset(d, t, now) && forall s :: ValidReset(d, s, now) ==>
                  d.resets[s].user != db.resets[t].user)
            && (!outcome.Done? ==> d == db)
  {
  }

  // ---------------------------------------------------------------- the stateful form

  class AuthService {
    var users: map<nat, User>
    var tokens: map<nat, RefreshRow>
    var resets: map<nat, ResetRow>
    ghost var issued: set<nat>
    ghost var spent: seq<nat>

    constructor (users: map<nat, User>)
      ensures Valid() && Snapshot() == Fresh.(users := users)
    {
      this.users, tokens, resets, issued, spent := users, map[], map[], {}, [];
    }

    ghost function Snapshot(): Db
      reads this
    {
      Db(users, tokens, resets, issued, spent)
    }

    ghost predicate Valid()
      reads this
    {
      Inv(Snapshot())
    }

    /** _issue_tokens, up to the access token. */
    method IssueTokens(user: nat, raw: nat, now: int)
      modifies this`tokens, this`issued
      ensures Snapshot() == Issue(old(Snapshot()), user, raw, now)
    {
      tokens := tokens[raw := RefreshRow(user, false, now + WEEK)];
      issued := issued + {raw};
    }

    method LogIn(account: Option<nat>, verified: bool, raw: nat, now: int) returns (outcome: Outcome)
      requires Valid() && raw !in issued
      modifies this
      ensures Valid() && (Snapshot(), outcome) == Step(old(Snapshot()), Login(account, verified, raw), now)
    {
      StepInv(Snapshot(), Login(account, verified, raw), now);
      if account.None? || account.value !in users || !verified {
        return Unauthorized;
      }
      if !users[account.value].active {
        return Forbidden;
      }
      IssueTokens(account.value, raw, now);
      return Done(Some(raw));
    }

    method RefreshToken(t: nat, raw: nat, now: int) returns (outcome: Outcome)
      requires Valid() && raw !in issued
      modifies this
      ensures Valid() && (Snapshot(), outcome) == Step(old(Snapshot()), Refresh(t, raw), now)
    {
      StepInv(Snapshot(), Refresh(t, raw), now);
      if t !in tokens || tokens[t].revoked || tokens[t].expires <= now {
        return Unauthorized;
      }
      var user := tokens[t].user;
      if user !in users {
        return Unauthorized;
      }
      if !users[user].active {
        return Forbidden;
      }
      tokens := tokens[t := tokens[t].(revoked := true)];
      spent := spent + [t];
      IssueTokens(user, raw, now);
      return Done(Some(raw));
    }

    method LogOut(t: nat, now: int)
      requires Valid()
      modifies this`tokens
      ensures Valid() && Snapshot() == Step(old(Snapshot()), Logout(t), now).0
    {
      StepInv(Snapshot(), Logout(t), now);
      if t in tokens && !tokens[t].revoked && tokens[t].expires > now {
        tokens := tokens[t := tokens[t].(revoked := true)];
      }
    }

    method RequestPasswordReset(account: Option<nat>, raw: nat, now: int) returns (outcome: Outcome)
      requires Valid() && raw !in issued
      modifies this
      ensures Valid() && (Snapshot(), outcome) == Step(old(Snapshot()), RequestReset(account, raw), now)
    {
      StepInv(Snapshot(), RequestReset(account, raw), now);
      if account.None? || account.value !in users || !users[account.value].active {
        return Done(None);
      }
      resets := UseAll(resets, account.value);
      resets := resets[raw := ResetRow(account.value, false, now + HOUR)];
      issued := issued + {raw};
      return Done(Some(raw));
    }

    /** Set the password and end every session of the user. */
    method UpdatePassword(user: nat, password: int)
      requires user in users
      modifies this`users, this`tokens
      ensures Snapshot() == SetPassword(old(Snapshot()), user, password)
    {
      users := users[user := users[user].(password := password, mustChange := false)];
      tokens := RevokeAll(tokens, user);
    }

    method ConfirmPasswordReset(t: nat, policyOk: bool, password: int, now: int) returns (outcome: Outcome)
      requires Valid()
      modifies this
      ensures Valid() && (Snapshot(), outcome) == Step(old(Snapshot()), ConfirmReset(t, policyOk, password), now)
    {
      StepInv(Snapshot(), ConfirmReset(t, policyOk, password), now);
      if !policyOk {
        return PolicyViolation;
      }
      if t !in resets || resets[t].used || resets[t].expires <= now {
        return Unauthorized;
      }
      var user := resets[t].user;
      if user !in users {
        return NotFound;
      }
      resets := resets[t := resets[t].(used := true)];
      UpdatePassword(user, password);
      return Done(None);
    }

    method ChangeUserPassword(user: nat, policyOk: bool, verified: bool, password: int, now: int)
        returns (outcome: Outcome)
      requires Valid()
      modifies this
      ensures Valid()
      ensures (Snapshot(), outcome)
           == Step(old(Snapshot()), ChangePassword(user, policyOk, verified, password), now)
    {
      StepInv(Snapshot(), ChangePassword(user, policyOk, verified, password), now);
      if !policyOk {
        return PolicyViolation;
      }
      if user !in users {
        return NotFound;
      }
      if !verified {
        return Unauthorized;
      }
      UpdatePassword(user, password);
      return Done(None);
    }
  }
}
