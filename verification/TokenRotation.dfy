/**
 Refresh-token rotation: register, login and refresh as steps over the user table and
 the token store, in every interleaving, with keys that expire and Redis calls whose
 reply is lost or whose effect comes late.
 */
module TokenRotation {
  import opened Common

  type UserId = nat
  type Email = string

  /**
   The refresh jti of an operation is a fresh uuid4; the model takes the operation's own
   identity for it.  A refresh token is signed, so one can only be presented after an
   operation was answered with it.
   */
  type Jti = nat
  type RegistrationId = nat

  // ----- state -----

  /** One Redis command: SET for register and login, the compare-and-swap script for refresh. */
  datatype Command = Issue | Rotate(prior: Jti)

  datatype Answer = Granted | Revoked | Unavailable

  /** An operation from the moment its command is sent; `executed` is the script's result. */
  datatype Op = Op(user: UserId, command: Command, executed: Option<bool>, answer: Option<Answer>)

  /** `stored` and `redeemed` record every write of an active jti and every successful comparison, in order. */
  datatype State = State(
    users: map<UserId, Email>,
    checked: map<RegistrationId, Email>,
    conflicts: set<RegistrationId>,
    active: map<UserId, Jti>,
    ops: map<Jti, Op>,
    stored: seq<(UserId, Jti)>,
    redeemed: seq<Jti>)

  const EMPTY := State(map[], map[], {}, map[], map[], [], [])

  datatype Action =
    | CheckEmail(r: RegistrationId, email: Email)             // register: SELECT found nobody
    | CommitUser(r: RegistrationId, user: UserId, jti: Jti)   // register: INSERT, then SET is sent
    | Login(user: UserId, jti: Jti)                           // login: password verified, SET is sent
    | Refresh(user: UserId, prior: Jti, jti: Jti)               // refresh: token and user checked, the script is sent
    | Execute(jti: Jti)                                       // Redis runs the command
    | Reply(jti: Jti)                                         // its result reaches the handler
    | Fail(jti: Jti)                                          // the handler sees RedisError instead
    | Expire(user: UserId)                                    // the key's TTL runs out

  // ----- steps -----

  /** A refresh token in somebody's hands: its operation was answered with it. */
  predicate Signed(s: State, user: UserId, jti: Jti) {
    jti in s.ops && s.ops[jti].user == user && s.ops[jti].answer == Some(Granted)
  }

  predicate Taken(s: State, email: Email) {
    exists u :: u in s.users && s.users[u] == email
  }

  predicate Enabled(s: State, a: Action) {
    match a
    case CheckEmail(r, email) => r !in s.checked && !Taken(s, email)
    case CommitUser(r, user, jti) => r in s.checked && r !in s.conflicts && user !in s.users && jti !in s.ops
    case Login(user, jti) => user in s.users && jti !in s.ops
    case Refresh(user, prior, jti) => user in s.users && Signed(s, user, prior) && jti !in s.ops
    case Execute(jti) => jti in s.ops && s.ops[jti].executed.None?
    case Reply(jti) => jti in s.ops && s.ops[jti].executed.Some? && s.ops[jti].answer.None?
    case Fail(jti) => jti in s.ops && s.ops[jti].answer.None?
    case Expire(user) => user in s.active
  }

  /** The command's result: SET always works, the script only on the active jti. */
  predicate Succeeds(active: map<UserId, Jti>, op: Op) {
    op.command.Issue? || (op.user in active && active[op.user] == op.command.prior)
  }

  function Executed(s: State, jti: Jti): State
    requires jti in s.ops
  {
    var op := s.ops[jti];
    var ok := Succeeds(s.active, op);
    var noted := s.(ops := s.ops[jti := op.(executed := Some(ok))]);
    if ok then
      noted.(active := s.active[op.user := jti],
             stored := s.stored + [(op.user, jti)],
             redeemed := s.redeemed + if op.command.Rotate? then [op.command.prior] else [])
    else noted
  }

  function Sent(s: State, user: UserId, jti: Jti, command: Command): State {
    s.(ops := s.ops[jti := Op(user, command, None, None)])
  }

  function Apply(s: State, a: Action): State
    requires Enabled(s, a)
  {
    match a
    case CheckEmail(r, email) => s.(checked := s.checked[r := email])
    case CommitUser(r, user, jti) =>
      if Taken(s, s.checked[r]) then s.(conflicts := s.conflicts + {r})
      else Sent(s.(users := s.users[user := s.checked[r]]), user, jti, Issue)
    case Login(user, jti) => Sent(s, user, jti, Issue)
    case Refresh(user, prior, jti) => Sent(s, user, jti, Rotate(prior))
    case Execute(jti) => Executed(s, jti)
    case Reply(jti) =>
      s.(ops := s.ops[jti := s.ops[jti].(answer := Some(if s.ops[jti].executed.value then Granted else Revoked))])
    case Fail(jti) => s.(ops := s.ops[jti := s.ops[jti].(answer := Some(Unavailable))])
    case Expire(user) => s.(active := s.active - {user})
  }

  ghost predicate Run(s: State, acts: seq<Action>, t: State)
    decreases acts
  {
    if acts == [] then s == t
    else Enabled(s, acts[0]) && Run(Apply(s, acts[0]), acts[1..], t)
  }

  ghost predicate Reachable(s: State) {
    exists acts :: Run(EMPTY, acts, s)
  }

  // ----- what every step keeps -----

  predicate Distinct<T(==)>(xs: seq<T>) {
    forall i, j :: 0 <= i < j < |xs| ==> xs[i] != xs[j]
  }

  /** The last write for a user is at i. */
  predicate LatestWrite(stored: seq<(UserId, Jti)>, user: UserId, i: int) {
    0 <= i < |stored| && stored[i].0 == user && forall j :: i < j < |stored| ==> stored[j].0 != user
  }

  ghost predicate LatestIs(stored: seq<(UserId, Jti)>, user: UserId, jti: Jti) {
    exists i :: LatestWrite(stored, user, i) && stored[i].1 == jti
  }

  ghost predicate WasStored(stored: seq<(UserId, Jti)>, jti: Jti) {
    exists k :: 0 <= k < |stored| && stored[k].1 == jti
  }

  predicate UsersOk(s: State) {
    && (forall u, v :: u in s.users && v in s.users && s.users[u] == s.users[v] ==> u == v)
    && (forall j :: j in s.ops ==> s.ops[j].user in s.users)
  }

  /** Writes belong to operations that were executed successfully, each at most once. */
  predicate WritesOk(s: State) {
    && (forall i :: 0 <= i < |s.stored| ==>
          s.stored[i].1 in s.ops && s.ops[s.stored[i].1].user == s.stored[i].0 && s.ops[s.stored[i].1].executed == Some(true))
    && (forall i, j :: 0 <= i < j < |s.stored| ==> s.stored[i].1 != s.stored[j].1)
    && (forall j :: j in s.ops && s.ops[j].answer == Some(Granted) ==> s.ops[j].executed == Some(true))
    && (forall j :: j in s.ops && s.ops[j].command.Issue? ==> s.ops[j].executed != Some(false))
  }

  /** What is active is the user's latest write. */
  ghost predicate ActiveOk(s: State) {
    forall u :: u in s.active ==> LatestIs(s.stored, u, s.active[u])
  }

  predicate Redeems(s: State, j: Jti) {
    j in s.ops && s.ops[j].executed == Some(true) && s.ops[j].command.Rotate?
  }

  /** A redeemed jti was written, is no longer active, and is redeemed by no other operation. */
  ghost predicate RedeemedOk(s: State) {
    && Distinct(s.redeemed)
    && (forall i :: 0 <= i < |s.redeemed| ==>
          && WasStored(s.stored, s.redeemed[i])
          && (forall u :: u in s.active ==> s.active[u] != s.redeemed[i]))
    && (forall j :: Redeems(s, j) ==> s.ops[j].command.prior in s.redeemed)
    && (forall j, k :: Redeems(s, j) && Redeems(s, k) && s.ops[j].command == s.ops[k].command ==> j == k)
  }

  ghost predicate Inv(s: State) {
    UsersOk(s) && WritesOk(s) && ActiveOk(s) && RedeemedOk(s)
  }

  lemma WriteKeepsTable(s: State, jti: Jti)
    requires Inv(s) && Enabled(s, Execute(jti)) && Succeeds(s.active, s.ops[jti])
    ensures WritesOk(Executed(s, jti)) && ActiveOk(Executed(s, jti))
  {
    var t := Executed(s, jti);
    var user := s.ops[jti].user;
    var last := |s.stored|;
    forall u | u in t.active
      ensures LatestIs(t.stored, u, t.active[u])
    {
      if u == user {
        assert LatestWrite(t.stored, u, last);
      } else {
        var i :| LatestWrite(s.stored, u, i) && s.stored[i].1 == s.active[u];
        assert LatestWrite(t.stored, u, i);
      }
    }
  }

  lemma WriteKeepsRedeemed(s: State, jti: Jti)
    requires Inv(s) && Enabled(s, Execute(jti)) && Succeeds(s.active, s.ops[jti])
    ensures RedeemedOk(Executed(s, jti))
  {
    var t := Executed(s, jti);
    var op := s.ops[jti];
    WriteKeepsStored(s, jti);
    if op.command.Rotate? {
      assert WasStored(s.stored, op.command.prior);
      NoOtherHolder(s, op.user);
    }
    WriteKeepsRedeemers(s, t, jti);
  }

  lemma WriteKeepsStored(s: State, jti: Jti)
    requires Inv(s) && Enabled(s, Execute(jti)) && Succeeds(s.active, s.ops[jti])
    ensures forall j :: WasStored(s.stored, j) ==> WasStored(Executed(s, jti).stored, j) && j != jti
  {
    var t := Executed(s, jti);
    forall j | WasStored(s.stored, j) ensures WasStored(t.stored, j) && j != jti {
      var k :| 0 <= k < |s.stored| && s.stored[k].1 == j;
      assert t.stored[k] == s.stored[k];
    }
  }

  /** The operations that redeemed something: one more, and its jti is new among them. */
  lemma WriteKeepsRedeemers(s: State, t: State, jti: Jti)
    requires RedeemedOk(s) && Enabled(s, Execute(jti)) && Succeeds(s.active, s.ops[jti]) && t == Executed(s, jti)
    ensures forall j :: Redeems(t, j) ==> t.ops[j].command.prior in t.redeemed
    ensures forall j, k :: Redeems(t, j) && Redeems(t, k) && t.ops[j].command == t.ops[k].command ==> j == k
  {
  }

  /** No two users share an active jti. */
  lemma NoOtherHolder(s: State, user: UserId)
    requires WritesOk(s) && ActiveOk(s) && user in s.active
    ensures forall u :: u in s.active && s.active[u] == s.active[user] ==> u == user
  {
  }

  lemma StepKeeps(s: State, a: Action)
    requires Inv(s) && Enabled(s, a)
    ensures Inv(Apply(s, a))
  {
    StepKeepsUsers(s, a);
    if a.Execute? && Succeeds(s.active, s.ops[a.jti]) {
      WriteKeepsTable(s, a.jti);
      WriteKeepsRedeemed(s, a.jti);
    } else {
      OtherStepIsQuiet(s, a);
      QuietKeepsWrites(s, Apply(s, a));
      QuietKeepsRedeemed(s, Apply(s, a));
    }
  }

  /** A step that writes no jti: logs stay, operations keep what they are, and no success appears. */
  predicate Quiet(s: State, t: State) {
    && t.stored == s.stored && t.redeemed == s.redeemed
    && (forall u :: u in t.active ==> u in s.active && t.active[u] == s.active[u])
    && (forall j :: j in s.ops ==>
          && j in t.ops && t.ops[j].user == s.ops[j].user && t.ops[j].command == s.ops[j].command
          && (s.ops[j].executed == Some(true) <==> t.ops[j].executed == Some(true)))
    && (forall j :: j in t.ops && j !in s.ops ==> t.ops[j].executed.None?)
    && (forall j :: j in t.ops && t.ops[j].answer == Some(Granted) ==> t.ops[j].executed == Some(true))
    && (forall j :: j in t.ops && t.ops[j].command.Issue? ==> t.ops[j].executed != Some(false))
  }

  lemma QuietKeepsWrites(s: State, t: State)
    requires WritesOk(s) && ActiveOk(s) && Quiet(s, t)
    ensures WritesOk(t) && ActiveOk(t)
  {
  }

  lemma QuietKeepsRedeemed(s: State, t: State)
    requires RedeemedOk(s) && Quiet(s, t)
    ensures RedeemedOk(t)
  {
    assert forall j :: Redeems(t, j) ==> Redeems(s, j) && t.ops[j].command == s.ops[j].command;
  }

  lemma OtherStepIsQuiet(s: State, a: Action)
    requires WritesOk(s) && Enabled(s, a)
    requires a.Execute? ==> !Succeeds(s.active, s.ops[a.jti])
    ensures Quiet(s, Apply(s, a))
  {
  }

  lemma StepKeepsUsers(s: State, a: Action)
    requires UsersOk(s) && Enabled(s, a)
    ensures UsersOk(Apply(s, a))
  {
  }

  lemma {:induction false} RunKeeps(s: State, acts: seq<Action>, t: State)
    requires Inv(s) && Run(s, acts, t)
    ensures Inv(t)
    decreases acts
  {
    if acts != [] {
      StepKeeps(s, acts[0]);
      RunKeeps(Apply(s, acts[0]), acts[1..], t);
    }
  }

  lemma ReachableInv(s: State)
    requires Reachable(s)
    ensures Inv(s)
  {
    var acts :| Run(EMPTY, acts, s);
    RunKeeps(EMPTY, acts, s);
  }

  // ----- main results -----

  /** In every reachable state no two accounts share an email, however many registrations raced for it. */
  lemma EmailsAreUnique(s: State, u: UserId, v: UserId)
    requires Reachable(s) && u in s.users && v in s.users && s.users[u] == s.users[v]
    ensures u == v
  {
    ReachableInv(s);
  }

  /**
   Each jti is redeemed at most once, over every run; and of any refreshes with one
   token, concurrent or not, at most one is granted.
   */
  lemma RedeemedAtMostOnce(s: State, i: nat, j: nat, a: Jti, b: Jti)
    requires Reachable(s)
    ensures i < j < |s.redeemed| ==> s.redeemed[i] != s.redeemed[j]
    ensures (a in s.ops && b in s.ops && a != b
             && s.ops[a].command.Rotate? && s.ops[b].command == s.ops[a].command) ==>
              !(s.ops[a].answer == Some(Granted) && s.ops[b].answer == Some(Granted))
  {
    ReachableInv(s);
  }

  /**
   Every successful rotation redeems the jti most recently stored for its user, and leaves
   its own in that place; it fails exactly when another one was stored since or the key is gone.
   */
  lemma RotationRedeemsTheLatest(s: State, jti: Jti)
    requires Reachable(s) && Enabled(s, Execute(jti)) && s.ops[jti].command.Rotate?
    ensures var op := s.ops[jti];
            var t := Apply(s, Execute(jti));
            && (t.ops[jti].executed == Some(true) ==>
                  && LatestIs(s.stored, op.user, op.command.prior)
                  && t.active == s.active[op.user := jti]
                  && t.redeemed == s.redeemed + [op.command.prior])
            && (t.ops[jti].executed == Some(false) <==>
                  op.user !in s.active || !LatestIs(s.stored, op.user, op.command.prior))
            && (t.ops[jti].executed == Some(false) ==> t.active == s.active && t.stored == s.stored)
  {
    ReachableInv(s);
    var op := s.ops[jti];
    if op.user in s.active {
      OneLatest(s.stored, op.user, op.command.prior, s.active[op.user]);
    }
  }

  lemma OneLatest(stored: seq<(UserId, Jti)>, user: UserId, a: Jti, b: Jti)
    ensures LatestIs(stored, user, a) && LatestIs(stored, user, b) ==> a == b
  {
  }

  /** A jti that was stored and is not active any more stays so, and is never redeemed again. */
  ghost predicate Spent(s: State, jti: Jti) {
    && jti in s.ops && s.ops[jti].executed.Some?
    && forall u :: u in s.active ==> s.active[u] != jti
  }

  lemma {:induction false} SpentForGood(s: State, acts: seq<Action>, t: State, jti: Jti)
    requires Spent(s, jti) && Run(s, acts, t)
    ensures Spent(t, jti)
    ensures s.redeemed <= t.redeemed
    ensures jti in t.redeemed ==> jti in s.redeemed
    decreases acts
  {
    if acts != [] {
      var u := Apply(s, acts[0]);
      assert Spent(u, jti);
      assert s.redeemed <= u.redeemed && (jti in u.redeemed ==> jti in s.redeemed);
      SpentForGood(u, acts[1..], t, jti);
    }
  }

  /**
   A granted rotation, a newer login or registration write, and an expiry each retire the
   user's previous jti for good: no later run redeems it (again).
   */
  lemma OldTokensStayDead(s: State, a: Action, acts: seq<Action>, t: State, user: UserId)
    requires Reachable(s) && Enabled(s, a) && Run(Apply(s, a), acts, t)
    requires user in s.active && (user !in Apply(s, a).active || Apply(s, a).active[user] != s.active[user])
    ensures Spent(t, s.active[user])
    ensures s.active[user] in t.redeemed ==> s.active[user] in Apply(s, a).redeemed
  {
    ReachableInv(s);
    NoOtherHolder(s, user);
    var prior := s.active[user];
    var i :| LatestWrite(s.stored, user, i) && s.stored[i].1 == prior;
    assert Spent(Apply(s, a), prior);
    SpentForGood(Apply(s, a), acts, t, prior);
  }

  // ----- who holds the active token -----

  /** acts takes states[0] through states[1], states[2], ... */
  ghost predicate Trace(states: seq<State>, acts: seq<Action>) {
    && |states| == |acts| + 1
    && forall i :: 0 <= i < |acts| ==> Enabled(states[i], acts[i]) && states[i + 1] == Apply(states[i], acts[i])
  }

  /** A command that stores a jti for the user takes effect. */
  predicate Writes(s: State, a: Action, user: UserId) {
    a.Execute? && a.jti in s.ops && s.ops[a.jti].user == user && Succeeds(s.active, s.ops[a.jti])
  }

  /** At i a jti was stored for the user, and up to j no other one, nor did it expire. */
  ghost predicate LastWritten(states: seq<State>, acts: seq<Action>, user: UserId, i: int, j: int)
    requires Trace(states, acts) && j <= |acts|
  {
    && 0 <= i < j && Writes(states[i], acts[i], user)
    && forall k :: i < k < j ==> !Writes(states[k], acts[k], user) && acts[k] != Expire(user)
  }

  lemma {:induction false} InvAlong(states: seq<State>, acts: seq<Action>, j: nat)
    requires Trace(states, acts) && states[0] == EMPTY && j <= |acts|
    ensures Inv(states[j])
  {
    if j > 0 {
      InvAlong(states, acts, j - 1);
      StepKeeps(states[j - 1], acts[j - 1]);
    }
  }

  lemma ActiveMoves(s: State, a: Action, user: UserId)
    requires Enabled(s, a)
    ensures user in Apply(s, a).active <==> Writes(s, a, user) || (user in s.active && a != Expire(user))
    ensures user in Apply(s, a).active ==> Apply(s, a).active[user] == if Writes(s, a, user) then a.jti else s.active[user]
  {
  }

  /** There is an active jti exactly when one was stored that did not expire since, and it is the last one stored. */
  lemma {:induction false} ActiveIsLastWritten(states: seq<State>, acts: seq<Action>, user: UserId, j: nat)
    requires Trace(states, acts) && states[0] == EMPTY && j <= |acts|
    ensures user in states[j].active <==> exists i :: LastWritten(states, acts, user, i, j)
    ensures forall i :: LastWritten(states, acts, user, i, j) ==> user in states[j].active && acts[i] == Execute(states[j].active[user])
  {
    if j > 0 {
      ActiveIsLastWritten(states, acts, user, j - 1);
      ActiveMoves(states[j - 1], acts[j - 1], user);
      forall i | 0 <= i < j
        ensures LastWritten(states, acts, user, i, j) <==>
                  if i == j - 1 then Writes(states[i], acts[i], user)
                  else LastWritten(states, acts, user, i, j - 1) && !Writes(states[j - 1], acts[j - 1], user) && acts[j - 1] != Expire(user)
      {
      }
    }
  }

  /** From its execution on, an operation is granted exactly by its reply. */
  lemma {:induction false} GrantedByReply(states: seq<State>, acts: seq<Action>, user: UserId, i: nat, j: nat)
    requires Trace(states, acts) && states[0] == EMPTY && i < j <= |acts| && Writes(states[i], acts[i], user)
    ensures var jti := acts[i].jti;
            && jti in states[j].ops && states[j].ops[jti].user == user && states[j].ops[jti].executed == Some(true)
            && (states[j].ops[jti].answer == Some(Granted) <==> exists k :: i < k < j && acts[k] == Reply(jti))
    decreases j
  {
    if j == i + 1 {
      InvAlong(states, acts, i);
    } else {
      GrantedByReply(states, acts, user, i, j - 1);
    }
  }

  /**
   Somebody holds the user's active refresh token exactly when the reply of the last command
   that stored one for the user arrived, over every run: who refreshed, logged in or
   registered before, and with what answer, does not matter.
   */
  lemma ActiveTokenIsHeld(states: seq<State>, acts: seq<Action>, user: UserId, j: nat)
    requires Trace(states, acts) && states[0] == EMPTY && j <= |acts|
    ensures user in states[j].active <==> exists i :: LastWritten(states, acts, user, i, j)
    ensures forall i :: LastWritten(states, acts, user, i, j) ==>
              && acts[i] == Execute(states[j].active[user])
              && (Signed(states[j], user, states[j].active[user]) <==> exists k :: i < k < j && acts[k] == Reply(acts[i].jti))
    ensures user in states[j].active ==>
              var jti := states[j].active[user];
              jti in states[j].ops && states[j].ops[jti].user == user && states[j].ops[jti].executed == Some(true)
  {
    ActiveIsLastWritten(states, acts, user, j);
    forall i | LastWritten(states, acts, user, i, j)
      ensures var jti := acts[i].jti;
              && jti in states[j].ops && states[j].ops[jti].user == user && states[j].ops[jti].executed == Some(true)
              && (Signed(states[j], user, jti) <==> exists k :: i < k < j && acts[k] == Reply(jti))
    {
      GrantedByReply(states, acts, user, i, j);
    }
  }

  /** One more step at the end of a run. */
  lemma {:induction false} RunOn(s: State, acts: seq<Action>, t: State, a: Action)
    requires Run(s, acts, t) && Enabled(t, a)
    ensures Run(s, acts + [a], Apply(t, a))
    decreases acts
  {
    var longer := acts + [a];
    if acts == [] {
      assert longer[1..] == [];
    } else {
      RunOn(Apply(s, acts[0]), acts[1..], t, a);
      assert longer[1..] == acts[1..] + [a];
    }
  }

  /**
   A client that never reuses a token can still lose its session: from any state in which
   it holds the active one, a refresh whose reply is lost after it took effect leaves the
   old token dead and the new one with nobody.
   */
  lemma LostReplyLocksOut(s: State, user: UserId, jti: Jti) returns (acts: seq<Action>, t: State)
    requires Reachable(s) && user in s.active && Signed(s, user, s.active[user]) && jti !in s.ops
    ensures Run(s, acts, t) && acts == [Refresh(user, s.active[user], jti), Execute(jti), Fail(jti)]
    ensures Spent(t, s.active[user]) && user in t.active && !Signed(t, user, t.active[user])
  {
    ReachableInv(s);
    NoOtherHolder(s, user);
    var a, b, c := Refresh(user, s.active[user], jti), Execute(jti), Fail(jti);
    var s1 := Apply(s, a);
    var s2 := Apply(s1, b);
    t := Apply(s2, c);
    assert s2.active == s.active[user := jti];
    assert t.ops[jti].answer == Some(Unavailable);
    acts := (([] + [a]) + [b]) + [c];
    RunOn(s, [], s, a);
    RunOn(s, [] + [a], s1, b);
    RunOn(s, ([] + [a]) + [b], s2, c);
  }

  // ----- the handlers -----

  /** Redis: the active jti of each user, and the commands on it. */
  class TokenStore {
    var active: map<UserId, Jti>

    constructor ()
      ensures active == map[]
    {
      active := map[];
    }

    method Set(user: UserId, jti: Jti)
      modifies this
      ensures active == old(active)[user := jti]
    {
      active := active[user := jti];
    }

    /** _ROTATE_LUA */
    method CompareAndSet(user: UserId, prior: Jti, jti: Jti) returns (rotated: bool)
      modifies this
      ensures rotated <==> user in old(active) && old(active)[user] == prior
      ensures active == if rotated then old(active)[user := jti] else old(active)
    {
      if user in active {
        var cur := active[user];
        if cur == prior {
          active := active[user := jti];
          return true;
        }
      }
      return false;
    }

    /** The store's part in a step: a command runs, or a key expires; `result` is what the command returns. */
    method Follow(s: State, a: Action) returns (result: bool)
      requires Enabled(s, a) && active == s.active
      modifies this
      ensures active == Apply(s, a).active
      ensures a.Execute? ==> Apply(s, a).ops[a.jti].executed == Some(result)
    {
      result := true;
      if a.Execute? {
        var op := s.ops[a.jti];
        match op.command {
          case Issue => Set(op.user, a.jti);
          case Rotate(prior) => result := CompareAndSet(op.user, prior, a.jti);
        }
      } else if a.Expire? {
        active := active - {a.user};
      }
    }
  }

  /** Accounts stay. */
  predicate KeepsUsers(s: State, t: State) {
    forall u :: u in s.users ==> u in t.users && t.users[u] == s.users[u]
  }

  /** Steps that would use what this registration is about to create, or finish it. */
  predicate Collides(a: Action, r: RegistrationId, user: UserId, jti: Jti) {
    match a
    case CommitUser(q, u, j) => q == r || u == user || j == jti
    case Login(_, j) => j == jti
    case Refresh(_, _, j) => j == jti
    case _ => false
  }

  /** The user table and the store, with every step taken so far. */
  class AuthService {
    const store: TokenStore
    var now: State
    ghost var trace: seq<Action>

    ghost predicate Valid()
      reads this, store
    {
      Run(EMPTY, trace, now) && store.active == now.active
    }

    constructor ()
      ensures Valid() && now == EMPTY && trace == [] && fresh(store)
    {
      store := new TokenStore();
      now, trace := EMPTY, [];
    }

    method Do(a: Action)
      requires Valid() && Enabled(now, a)
      modifies this, store
      ensures Valid() && now == Apply(old(now), a) && trace == old(trace) + [a]
    {
      RunOn(EMPTY, trace, now, a);
      var _ := store.Follow(now, a);
      now, trace := Apply(now, a), trace + [a];
    }

    /** Everybody else's steps while one handler awaits its own operation. */
    method Others(steps: seq<Action>, jti: Jti)
      requires Valid() && jti in now.ops && now.ops[jti].answer.None?
      modifies this, store
      ensures Valid() && old(trace) <= trace
      ensures jti in now.ops && now.ops[jti].(executed := None) == old(now).ops[jti].(executed := None)
      ensures old(now).ops[jti].executed.Some? ==> now.ops[jti].executed == old(now).ops[jti].executed
      ensures KeepsUsers(old(now), now)
    {
      var i := 0;
      while i < |steps|
        invariant 0 <= i <= |steps|
        invariant Valid() && old(trace) <= trace
        invariant jti in now.ops && now.ops[jti].(executed := None) == old(now).ops[jti].(executed := None)
        invariant old(now).ops[jti].executed.Some? ==> now.ops[jti].executed == old(now).ops[jti].executed
        invariant KeepsUsers(old(now), now)
      {
        if Enabled(now, steps[i]) && steps[i] != Reply(jti) && steps[i] != Fail(jti) {
          Do(steps[i]);
        }
        i := i + 1;
      }
    }

    /** One awaited Redis call: the others move, the command may or may not have run, and the reply may be lost. */
    method Await(jti: Jti, others: seq<Action>, replyLost: bool) returns (answer: Answer)
      requires Valid() && jti in now.ops && now.ops[jti].answer.None?
      modifies this, store
      ensures Valid() && old(trace) <= trace
      ensures jti in now.ops && now.ops[jti].user == old(now).ops[jti].user && now.ops[jti].command == old(now).ops[jti].command
      ensures now.ops[jti].answer == Some(answer)
      ensures replyLost <==> answer == Unavailable
      ensures KeepsUsers(old(now), now)
      ensures answer == Granted ==> now.ops[jti].executed == Some(true)
      ensures answer == Revoked ==> now.ops[jti].executed == Some(false) && now.ops[jti].command.Rotate?
    {
      Others(others, jti);
      if replyLost {
        Do(Fail(jti));
        return Unavailable;
      }
      if now.ops[jti].executed.None? {
        Do(Execute(jti));
      }
      answer := if now.ops[jti].executed.value then Granted else Revoked;
      Do(Reply(jti));
      assert Reachable(now);
      ReachableInv(now);
    }

    /**
     POST /refresh with the claims of a decoded token.  200 hands out the new token, and then
     the presented one has been redeemed; 401 when the token is not one this user was given,
     or no longer the active one; 503 when the store did not answer.
     */
    method RefreshToken(user: UserId, prior: Jti, jti: Jti, others: seq<Action>, replyLost: bool) returns (code: nat)
      requires Valid() && jti !in now.ops
      modifies this, store
      ensures Valid() && old(trace) <= trace
      ensures !(user in old(now).users && Signed(old(now), user, prior)) ==> code == 401 && now == old(now)
      ensures user in old(now).users && Signed(old(now), user, prior) ==>
                && jti in now.ops && now.ops[jti].user == user && now.ops[jti].command == Rotate(prior)
                && (code == 200 <==> !replyLost && now.ops[jti].executed == Some(true))
                && (code == 401 <==> !replyLost && now.ops[jti].executed == Some(false))
                && (code == 503 <==> replyLost)
      ensures code == 200 <==> Signed(now, user, jti)
      ensures code == 200 ==> prior in now.redeemed
      ensures code in {200, 401, 503}
    {
      if !(user in now.users && Signed(now, user, prior)) {
        return 401;
      }
      Do(Refresh(user, prior, jti));
      var answer := Await(jti, others, replyLost);
      assert Reachable(now);
      ReachableInv(now);
      assert answer == Granted ==> Redeems(now, jti);
      return match answer case Granted => 200 case Revoked => 401 case Unavailable => 503;
    }

    /**
     POST /login.  The email names at most one account, whatever registrations raced before;
     401 exactly when there is none or its password does not verify, and then nothing has
     moved.  Otherwise the new jti replaces whatever was active.
     */
    method LogIn(email: Email, verifies: UserId -> bool, jti: Jti, others: seq<Action>, replyLost: bool) returns (code: nat)
      requires Valid() && jti !in now.ops
      modifies this, store
      ensures Valid() && old(trace) <= trace
      ensures code == 401 <==> forall u :: u in old(now).users && old(now).users[u] == email ==> !verifies(u)
      ensures code == 401 ==> now == old(now)
      ensures forall u :: u in old(now).users && old(now).users[u] == email && code != 401 ==>
                && verifies(u) && jti in now.ops && now.ops[jti].user == u && now.ops[jti].command == Issue
                && (code == 200 <==> Signed(now, u, jti))
      ensures code == 200 ==> !replyLost
      ensures code == 503 ==> replyLost
      ensures code in {200, 401, 503}
    {
      if !Taken(now, email) {
        return 401;
      }
      var user :| user in now.users && now.users[user] == email;
      assert forall u :: u in now.users && now.users[u] == email ==> u == user by {
        assert Reachable(now);
        ReachableInv(now);
      }
      if !verifies(user) {
        return 401;
      }
      Do(Login(user, jti));
      var answer := Await(jti, others, replyLost);
      return if answer == Granted then 200 else 503;
    }

    /** The others' steps between the SELECT and the INSERT. */
    method RaceOn(steps: seq<Action>, r: RegistrationId, user: UserId, jti: Jti)
      requires Valid() && r in now.checked && r !in now.conflicts && jti !in now.ops && user !in now.users
      modifies this, store
      ensures Valid() && old(trace) <= trace
      ensures r in now.checked && now.checked[r] == old(now).checked[r]
      ensures r !in now.conflicts && jti !in now.ops && user !in now.users
    {
      var i := 0;
      while i < |steps|
        invariant 0 <= i <= |steps|
        invariant Valid() && old(trace) <= trace
        invariant r in now.checked && now.checked[r] == old(now).checked[r]
        invariant r !in now.conflicts && jti !in now.ops && user !in now.users
      {
        if Enabled(now, steps[i]) && !Collides(steps[i], r, user, jti) {
          Do(steps[i]);
        }
        i := i + 1;
      }
    }

    /** POST /register: SELECT, INSERT with the unique index as the arbiter, then the first token. */
    method Register(r: RegistrationId, email: Email, user: UserId, jti: Jti,
                    between: seq<Action>, others: seq<Action>, replyLost: bool) returns (code: nat)
      requires Valid() && r !in now.checked && r !in now.conflicts && jti !in now.ops && user !in now.users
      modifies this, store
      ensures Valid() && old(trace) <= trace
      ensures Taken(old(now), email) ==> code == 409 && now == old(now)
      ensures code == 201 ==> Signed(now, user, jti) && user in now.users && now.users[user] == email
      ensures code == 503 ==> replyLost && user in now.users && now.users[user] == email
      ensures code == 201 ==> !replyLost
      ensures code == 409 ==> jti !in now.ops && Taken(now, email)
      ensures code in {201, 409, 503}
    {
      if Taken(now, email) {
        return 409;
      }
      Do(CheckEmail(r, email));
      RaceOn(between, r, user, jti);
      Do(CommitUser(r, user, jti));
      if r in now.conflicts {
        return 409;
      }
      var answer := Await(jti, others, replyLost);
      return if answer == Granted then 201 else 503;
    }
  }
}
