/** Registration by invite. Many transactions may be open at once: each consumes a use of an
    invite, then inserts a user, then commits or is rolled back. As in PostgreSQL, an updated row
    and an inserted key stay locked until the transaction ends, and nothing uncommitted shows. */
module Registration {
  import opened Rows
  import opened SharedStore
  import opened Sums

  type Code = string

  datatype Invite = Invite(client: ClientId, maxUses: nat, usedCount: nat, revoked: bool, expiresAt: Option<Time>)

  datatype User = User(client: ClientId, email: string, deleted: bool)

  datatype Transaction =
    | Consumed(code: Code, email: string)
    | Inserted(code: Code, email: string, user: nat)

  /** `via` remembers through which invite a user came; the tables do not. */
  datatype Accounts = Accounts(
    now: Time,
    invites: map<Code, Invite>,
    users: map<nat, User>,
    via: map<nat, Code>,
    open: map<nat, Transaction>)

  datatype Step =
    | Tick(to: Time)
    | CreateInvite(code: Code, client: ClientId, maxUses: nat, expiresAt: Option<Time>)
    | Revoke(code: Code)
    | SeedUser(user: nat, client: ClientId, email: string)
    | DeleteUser(user: nat)
    | Consume(tx: nat, code: Code, email: string)
    | Insert(tx: nat, user: nat)
    | Commit(tx: nat)
    | Rollback(tx: nat)

  /** SQL's lower() on ASCII. */
  function Lower(s: string): string {
    seq(|s|, i requires 0 <= i < |s| => LowerLetter(s[i]))
  }

  function LowerLetter(c: char): char {
    if 'A' <= c <= 'Z' then c - 'A' + 'a' else c
  }

  predicate SameEmail(a: string, b: string) { Lower(a) == Lower(b) }

  predicate Redeemable(invite: Invite, now: Time) {
    && !invite.revoked
    && (invite.expiresAt == None || invite.expiresAt.value > now)
    && invite.usedCount < invite.maxUses
  }

  predicate Locked(a: Accounts, code: Code) {
    exists tx :: tx in a.open && a.open[tx].code == code
  }

  /** Some open transaction has inserted this email, so another insert of it must wait. */
  predicate Awaited(a: Accounts, email: string) {
    exists tx :: tx in a.open && a.open[tx].Inserted? && SameEmail(a.open[tx].email, email)
  }

  predicate Taken(a: Accounts, email: string) {
    exists u :: u in a.users && !a.users[u].deleted && SameEmail(a.users[u].email, email)
  }

  predicate FreshUser(a: Accounts, user: nat) {
    && user !in a.users
    && forall tx | tx in a.open && a.open[tx].Inserted? :: a.open[tx].user != user
  }

  predicate Enabled(a: Accounts, step: Step) {
    match step
    case Tick(to) => a.now <= to
    case CreateInvite(code, _, maxUses, _) => code !in a.invites && maxUses >= 1
    case Revoke(code) => code in a.invites && !Locked(a, code)
    case SeedUser(user, _, email) => FreshUser(a, user) && !Awaited(a, email) && !Taken(a, email)
    case DeleteUser(user) => user in a.users
    case Consume(tx, code, _) =>
      tx !in a.open && code in a.invites && !Locked(a, code) && Redeemable(a.invites[code], a.now)
    case Insert(tx, user) => tx in a.open && a.open[tx].Consumed? && FreshUser(a, user) && !Awaited(a, a.open[tx].email)
    case Commit(tx) => tx in a.open && a.open[tx].Inserted? && a.open[tx].code in a.invites
    case Rollback(tx) => tx in a.open
  }

  function Next(a: Accounts, step: Step): Accounts
    requires Enabled(a, step)
  {
    match step
    case Tick(to) => a.(now := to)
    case CreateInvite(code, client, maxUses, expiresAt) =>
      a.(invites := a.invites[code := Invite(client, maxUses, 0, false, expiresAt)])
    case Revoke(code) => a.(invites := a.invites[code := a.invites[code].(revoked := true)])
    case SeedUser(user, client, email) => a.(users := a.users[user := User(client, email, false)])
    case DeleteUser(user) => a.(users := a.users[user := a.users[user].(deleted := true)])
    case Consume(tx, code, email) => a.(open := a.open[tx := Consumed(code, email)])
    case Insert(tx, user) =>
      var t := a.open[tx];
      if Taken(a, t.email) then a.(open := a.open - {tx})
      else a.(open := a.open[tx := Inserted(t.code, t.email, user)])
    case Commit(tx) =>
      var t := a.open[tx];
      var invite := a.invites[t.code];
      a.(invites := a.invites[t.code := invite.(usedCount := invite.usedCount + 1)],
         users := a.users[t.user := User(invite.client, t.email, false)],
         via := a.via[t.user := t.code],
         open := a.open - {tx})
    case Rollback(tx) => a.(open := a.open - {tx})
  }

  // ---- Conservation ----

  function UsersBy(via: map<nat, Code>, code: Code): set<nat> {
    set u | u in via && via[u] == code
  }

  /** used_count is the number of users who came through the invite, and within its limit. */
  predicate InviteConserved(a: Accounts, code: Code) {
    code in a.invites ==> a.invites[code].usedCount == |UsersBy(a.via, code)| <= a.invites[code].maxUses
  }

  predicate Origin(a: Accounts, u: nat) {
    u in a.via ==> u in a.users && a.via[u] in a.invites && a.users[u].client == a.invites[a.via[u]].client
  }

  predicate EmailsUnique(a: Accounts) {
    forall u, v | u in a.users && v in a.users && u != v && !a.users[u].deleted && !a.users[v].deleted ::
      !SameEmail(a.users[u].email, a.users[v].email)
  }

  /** An open transaction holds its invite alone, with a use left, and its email alone. */
  predicate TransactionOk(a: Accounts, tx: nat) {
    tx in a.open ==>
      var t := a.open[tx];
      && t.code in a.invites && a.invites[t.code].usedCount < a.invites[t.code].maxUses
      && (forall o | o in a.open && o != tx :: a.open[o].code != t.code)
      && (t.Inserted? ==>
            && t.user !in a.users && !Taken(a, t.email)
            && forall o | o in a.open && o != tx && a.open[o].Inserted? ::
                 a.open[o].user != t.user && !SameEmail(a.open[o].email, t.email))
  }

  predicate Sound(a: Accounts) {
    && (forall code | code in a.invites :: InviteConserved(a, code))
    && (forall u | u in a.via :: Origin(a, u))
    && EmailsUnique(a)
    && (forall tx | tx in a.open :: TransactionOk(a, tx))
  }

  lemma OneMoreUser(via: map<nat, Code>, user: nat, source: Code, code: Code)
    requires user !in via
    ensures |UsersBy(via[user := source], code)| == |UsersBy(via, code)| + if source == code then 1 else 0
  {
    if source == code {
      assert UsersBy(via[user := source], code) == UsersBy(via, code) + {user};
    } else {
      assert UsersBy(via[user := source], code) == UsersBy(via, code);
    }
  }

  lemma InviteByCommit(a: Accounts, tx: nat, code: Code)
    requires Sound(a) && Enabled(a, Commit(tx))
    ensures InviteConserved(Next(a, Commit(tx)), code)
  {
    assert TransactionOk(a, tx);
    assert code in a.invites ==> InviteConserved(a, code);
    assert forall u | u in a.via :: Origin(a, u);
    OneMoreUser(a.via, a.open[tx].user, a.open[tx].code, code);
  }

  lemma InviteByOther(a: Accounts, step: Step, code: Code)
    requires Sound(a) && Enabled(a, step) && !step.Commit?
    ensures InviteConserved(Next(a, step), code)
  {
  }

  lemma OriginByStep(a: Accounts, step: Step, u: nat)
    requires Sound(a) && Enabled(a, step)
    ensures Origin(Next(a, step), u)
  {
  }

  lemma EmailsByStep(a: Accounts, step: Step)
    requires Sound(a) && Enabled(a, step)
    ensures EmailsUnique(Next(a, step))
  {
  }

  lemma TransactionByCommit(a: Accounts, step: Step, tx: nat)
    requires Sound(a) && Enabled(a, step) && step.Commit?
    ensures TransactionOk(Next(a, step), tx)
  {
  }

  lemma TransactionByTransaction(a: Accounts, step: Step, tx: nat)
    requires Sound(a) && Enabled(a, step) && (step.Consume? || step.Insert?)
    ensures TransactionOk(Next(a, step), tx)
  {
  }

  lemma TransactionByOther(a: Accounts, step: Step, tx: nat)
    requires Sound(a) && Enabled(a, step) && !step.Commit? && !step.Consume? && !step.Insert?
    ensures TransactionOk(Next(a, step), tx)
  {
  }

  lemma SoundByStep(a: Accounts, step: Step)
    requires Sound(a) && Enabled(a, step)
    ensures Sound(Next(a, step))
  {
    var a' := Next(a, step);
    forall code | code in a'.invites
      ensures InviteConserved(a', code)
    {
      if step.Commit? {
        InviteByCommit(a, step.tx, code);
      } else {
        InviteByOther(a, step, code);
      }
    }
    forall u | u in a'.via
      ensures Origin(a', u)
    {
      OriginByStep(a, step, u);
    }
    EmailsByStep(a, step);
    forall tx | tx in a'.open
      ensures TransactionOk(a', tx)
    {
      if step.Commit? {
        TransactionByCommit(a, step, tx);
      } else if step.Consume? || step.Insert? {
        TransactionByTransaction(a, step, tx);
      } else {
        TransactionByOther(a, step, tx);
      }
    }
  }

  // ---- Every interleaving ----

  predicate Valid(a: Accounts, steps: seq<Step>)
    decreases |steps|
  {
    steps == [] || (Enabled(a, steps[0]) && Valid(Next(a, steps[0]), steps[1..]))
  }

  function After(a: Accounts, steps: seq<Step>): Accounts
    requires Valid(a, steps)
    decreases |steps|
  {
    if steps == [] then a else After(Next(a, steps[0]), steps[1..])
  }

  const Empty: Accounts := Accounts(0, map[], map[], map[], map[])

  lemma {:induction false} SoundAlong(a: Accounts, steps: seq<Step>)
    requires Sound(a) && Valid(a, steps)
    ensures Sound(After(a, steps))
    decreases |steps|
  {
    if steps != [] {
      SoundByStep(a, steps[0]);
      SoundAlong(Next(a, steps[0]), steps[1..]);
    }
  }

  /** However registrations interleave, fail and roll back: each invite has been used once for
      every user it brought, all of them of its client, never beyond max_uses, and no two active
      users share an email up to case. */
  lemma InvitesConserved(steps: seq<Step>, code: Code)
    requires Valid(Empty, steps)
    ensures var a := After(Empty, steps);
            && (code in a.invites ==> a.invites[code].usedCount == |UsersBy(a.via, code)| <= a.invites[code].maxUses)
            && (forall u | u in UsersBy(a.via, code) ::
                  code in a.invites && u in a.users && a.users[u].client == a.invites[code].client)
            && EmailsUnique(a)
  {
    SoundAlong(Empty, steps);
    var a := After(Empty, steps);
    assert code in a.invites ==> InviteConserved(a, code);
    forall u | u in UsersBy(a.via, code)
      ensures code in a.invites && u in a.users && a.users[u].client == a.invites[code].client
    {
      assert Origin(a, u);
    }
  }

  /** A transaction that can commit always finds its email free and its invite unspent, so no
      constraint of the tables fails at commit. */
  lemma CommitNeverViolates(a: Accounts, tx: nat)
    requires Sound(a) && Enabled(a, Commit(tx))
    ensures !Taken(a, a.open[tx].email) && a.open[tx].user !in a.users
    ensures a.invites[a.open[tx].code].usedCount + 1 <= a.invites[a.open[tx].code].maxUses
  {
  }

  // ---- What closes an invite ----

  /** Revoked, expired, or used up. */
  predicate Closed(invite: Invite, now: Time) {
    || invite.revoked
    || (invite.expiresAt != None && invite.expiresAt.value <= now)
    || invite.usedCount >= invite.maxUses
  }

  /** A use of an invite is taken exactly of one that is not closed and that nobody else holds. */
  lemma ConsumeExactly(a: Accounts, tx: nat, code: Code, email: string)
    ensures Enabled(a, Consume(tx, code, email)) <==>
              tx !in a.open && code in a.invites && !Locked(a, code) && !Closed(a.invites[code], a.now)
  {
  }

  /** Nobody comes by the invite in this step, and it stays closed. */
  predicate StaysClosed(a: Accounts, a': Accounts, code: Code) {
    && code in a.invites && code in a'.invites && Closed(a'.invites[code], a'.now) && !Locked(a', code)
    && a'.invites[code].usedCount == a.invites[code].usedCount && UsersBy(a'.via, code) == UsersBy(a.via, code)
  }

  lemma ClosedByStep(a: Accounts, step: Step, code: Code)
    requires Sound(a) && code in a.invites && Closed(a.invites[code], a.now) && !Locked(a, code) && Enabled(a, step)
    ensures StaysClosed(a, Next(a, step), code)
  {
    if step.Commit? {
      assert TransactionOk(a, step.tx) && a.open[step.tx].code != code;
      assert forall u | u in a.via :: Origin(a, u);
    }
  }

  lemma {:induction false} ClosedForEver(a: Accounts, steps: seq<Step>, code: Code)
    requires Sound(a) && code in a.invites && Closed(a.invites[code], a.now) && !Locked(a, code) && Valid(a, steps)
    ensures StaysClosed(a, After(a, steps), code)
    decreases |steps|
  {
    if steps != [] {
      ClosedByStep(a, steps[0], code);
      SoundByStep(a, steps[0]);
      ClosedForEver(Next(a, steps[0]), steps[1..], code);
    }
  }

  /** The users brought and the uses counted are the same in both. */
  predicate SameUse(a: Accounts, a': Accounts, code: Code) {
    && code in a.invites && code in a'.invites && a'.invites[code].usedCount == a.invites[code].usedCount
    && UsersBy(a'.via, code) == UsersBy(a.via, code)
  }

  /** An invite that no transaction holds can be revoked, and then nobody comes by it any more. */
  lemma RevokedForEver(a: Accounts, code: Code)
    requires Sound(a) && code in a.invites && !Locked(a, code)
    ensures Enabled(a, Revoke(code))
    ensures forall steps | Valid(Next(a, Revoke(code)), steps) :: SameUse(a, After(Next(a, Revoke(code)), steps), code)
  {
    var a' := Next(a, Revoke(code));
    SoundByStep(a, Revoke(code));
    forall steps | Valid(a', steps)
      ensures SameUse(a, After(a', steps), code)
    {
      ClosedForEver(a', steps, code);
    }
  }

  function Lengths(a: Accounts): set<nat> {
    (set u | u in a.users :: |a.users[u].email|) + set tx | tx in a.open :: |a.open[tx].email|
  }

  lemma FreshEmail(a: Accounts) returns (email: string)
    ensures !Taken(a, email) && !Awaited(a, email)
  {
    var n := Above(Lengths(a));
    email := seq(n, _ => 'x');
    forall other | SameEmail(other, email)
      ensures |other| == n
    {
      assert |Lower(other)| == |other| && |Lower(email)| == n;
    }
    assert forall u | u in a.users :: |a.users[u].email| in Lengths(a);
    assert forall tx | tx in a.open :: |a.open[tx].email| in Lengths(a);
  }

  function Holders(a: Accounts): set<nat> {
    set tx | tx in a.open && a.open[tx].Inserted? :: a.open[tx].user
  }

  lemma ThreeSteps(a: Accounts, x: Step, y: Step, z: Step)
    requires Enabled(a, x) && Enabled(Next(a, x), y) && Enabled(Next(Next(a, x), y), z)
    ensures Valid(a, [x, y, z]) && After(a, [x, y, z]) == Next(Next(Next(a, x), y), z)
  {
    var a1 := Next(a, x);
    var a2 := Next(a1, y);
    assert [x, y, z][1..] == [y, z] && [y, z][1..] == [z] && [z][1..] == [];
    assert Valid(Next(a2, z), []) && Valid(a2, [z]) && After(a2, [z]) == Next(a2, z);
    assert Valid(a1, [y, z]) && After(a1, [y, z]) == After(a2, [z]);
  }

  lemma UseTaken(a: Accounts, tx: nat, code: Code, email: string, user: nat)
    requires code in a.invites && !Closed(a.invites[code], a.now) && !Locked(a, code)
    requires tx !in a.open && !Taken(a, email) && !Awaited(a, email) && FreshUser(a, user)
    ensures Enabled(a, Consume(tx, code, email))
    ensures var a1 := Next(a, Consume(tx, code, email));
            && Enabled(a1, Insert(tx, user))
            && var a2 := Next(a1, Insert(tx, user));
               Enabled(a2, Commit(tx)) && Next(a2, Commit(tx)).via == a.via[user := code]
  {
    var a1 := Next(a, Consume(tx, code, email));
    assert !Awaited(a1, email) && !Taken(a1, email) && FreshUser(a1, user);
  }

  /** An invite that is not closed brings another user. */
  lemma OpenBringsUser(a: Accounts, code: Code) returns (steps: seq<Step>, user: nat)
    requires code in a.invites && !Closed(a.invites[code], a.now) && !Locked(a, code) && Sound(a)
    ensures Valid(a, steps) && user !in UsersBy(a.via, code) && user in UsersBy(After(a, steps).via, code)
  {
    var tx := Above(a.open.Keys);
    user := Above(a.users.Keys + Holders(a));
    var email := FreshEmail(a);
    assert user in a.via ==> Origin(a, user);
    assert forall o | o in a.open && a.open[o].Inserted? :: a.open[o].user in Holders(a);
    UseTaken(a, tx, code, email, user);
    steps := [Consume(tx, code, email), Insert(tx, user), Commit(tx)];
    ThreeSteps(a, steps[0], steps[1], steps[2]);
  }

  /** In no future anybody comes by the invite. */
  ghost predicate NobodyMore(a: Accounts, code: Code) {
    forall steps | Valid(a, steps) :: UsersBy(After(a, steps).via, code) == UsersBy(a.via, code)
  }

  /** Which is so exactly if it is closed. */
  lemma NobodyMoreExactly(a: Accounts, code: Code)
    requires Sound(a) && code in a.invites && !Locked(a, code)
    ensures NobodyMore(a, code) <==> Closed(a.invites[code], a.now)
  {
    if Closed(a.invites[code], a.now) {
      forall steps | Valid(a, steps)
        ensures UsersBy(After(a, steps).via, code) == UsersBy(a.via, code)
      {
        ClosedForEver(a, steps, code);
      }
    } else {
      var steps, user := OpenBringsUser(a, code);
      assert UsersBy(After(a, steps).via, code) != UsersBy(a.via, code);
    }
  }

  /** A transaction that is rolled back, or that meets a taken email, leaves the tables as they were
      and its invite to the next. */
  lemma RolledBack(a: Accounts, tx: nat, step: Step)
    requires Sound(a) && tx in a.open
    requires step == Rollback(tx)
             || (step.Insert? && step.tx == tx && Enabled(a, step) && Taken(a, a.open[tx].email))
    ensures Enabled(a, step) && Next(a, step) == a.(open := a.open - {tx})
    ensures !Locked(Next(a, step), a.open[tx].code)
  {
    assert TransactionOk(a, tx);
  }

  /** A new invite is open unless it is created expired, and has all its uses. */
  lemma NewInviteOpen(a: Accounts, code: Code, client: ClientId, maxUses: nat, expiresAt: Option<Time>)
    requires Enabled(a, CreateInvite(code, client, maxUses, expiresAt))
    ensures var a' := Next(a, CreateInvite(code, client, maxUses, expiresAt));
            && code in a'.invites && a'.invites[code].usedCount == 0 && a'.invites[code].maxUses == maxUses
            && a'.invites[code].client == client
            && (Closed(a'.invites[code], a'.now) <==> expiresAt != None && expiresAt.value <= a.now)
  {
  }

  /** An email is taken while its user is there and free again once the user is deleted. */
  lemma EmailFreedByDeletion(a: Accounts, user: nat, client: ClientId, email: string)
    requires Sound(a) && Enabled(a, SeedUser(user, client, email))
    ensures var a' := Next(a, SeedUser(user, client, email));
            Taken(a', email) && Enabled(a', DeleteUser(user)) && !Taken(Next(a', DeleteUser(user)), email)
  {
    var a' := Next(a, SeedUser(user, client, email));
    assert user in a'.users && !a'.users[user].deleted && SameEmail(a'.users[user].email, email);
  }

  predicate SameLetter(x: char, y: char) {
    || x == y
    || ('A' <= x <= 'Z' && y as int == x as int + 32)
    || ('A' <= y <= 'Z' && x as int == y as int + 32)
  }

  lemma SameLetterExactly(x: char, y: char)
    ensures LowerLetter(x) == LowerLetter(y) <==> SameLetter(x, y)
  {
  }

  /** Two emails are the same exactly if they differ at most in the case of letters. */
  lemma SameEmailExactly(x: string, y: string)
    ensures SameEmail(x, y) <==> |x| == |y| && forall i | 0 <= i < |x| :: SameLetter(x[i], y[i])
  {
    assert |Lower(x)| == |x| && |Lower(y)| == |y|;
    if |x| == |y| {
      forall i | 0 <= i < |x|
        ensures Lower(x)[i] == Lower(y)[i] <==> SameLetter(x[i], y[i])
      {
        SameLetterExactly(x[i], y[i]);
      }
    }
  }

  // ---- handleRegister ----

  datatype Reply = Registered(user: nat, client: ClientId) | BadRequest | Conflict | Internal

  /** One registration as the three steps of its transaction. */
  function Transact(code: Code, email: string, user: nat): seq<Step> {
    [Consume(0, code, email), Insert(0, user), Commit(0)]
  }

  lemma TransactAlone(a: Accounts, code: Code, email: string, user: nat)
    requires a.open == map[] && code in a.invites && Redeemable(a.invites[code], a.now)
    requires user !in a.users && !Taken(a, email)
    ensures Valid(a, Transact(code, email, user))
    ensures var invite := a.invites[code];
            After(a, Transact(code, email, user)) ==
            a.(invites := a.invites[code := invite.(usedCount := invite.usedCount + 1)],
               users := a.users[user := User(invite.client, email, false)], via := a.via[user := code])
  {
    var steps := Transact(code, email, user);
    var a1 := Next(a, steps[0]);
    assert steps[1..] == [Insert(0, user), Commit(0)] && steps[1..][1..] == [Commit(0)] && steps[1..][1..][1..] == [];
    assert !Taken(a1, email) && !Awaited(a1, email);
    var a2 := Next(a1, steps[1]);
    assert a2.open == map[0 := Inserted(code, email, user)];
    var a3 := Next(a2, steps[2]);
    assert a3.open == map[];
    assert Valid(a2, [Commit(0)]) && After(a2, [Commit(0)]) == After(a3, []);
  }

  class AuthApi {
    var now: Time
    var invites: map<Code, Invite>
    var users: map<nat, User>
    ghost var via: map<nat, Code>

    constructor (a: Accounts)
      requires a.open == map[]
      ensures View() == a
    {
      now, invites, users, via := a.now, a.invites, a.users, a.via;
    }

    ghost function View(): Accounts
      reads this
    {
      Accounts(now, invites, users, via, map[])
    }

    /** Email, password and code come trimmed; `mailOk` is what net/mail says of the email.
        `setupFails` when the hash, the id or the transaction cannot be had, `updateFails` and
        `insertFails` when a statement fails though no constraint is violated. A taken email and
        a taken id are unique violations. A failure after the invite has been updated rolls that
        back; a commit whose answer is lost has taken effect, although the client is told of an
        error. */
    method Register(email: string, pass: string, code: Code, mailOk: bool, newUser: nat,
                    setupFails: bool, updateFails: bool, insertFails: bool, tx: Outcome)
      returns (reply: Reply)
      modifies this
      ensures var a := old(View());
              var refused := email == "" || code == "" || !mailOk || |pass| < 12 || |pass| > 256;
              var redeemed := !refused && !setupFails && !updateFails && code in a.invites
                              && !a.invites[code].revoked
                              && (a.invites[code].expiresAt == None || a.now < a.invites[code].expiresAt.value)
                              && a.invites[code].usedCount < a.invites[code].maxUses;
              var taken := newUser in a.users ||
                           exists u :: u in a.users && !a.users[u].deleted && SameEmail(a.users[u].email, email);
              var inserted := redeemed && !insertFails && !taken;
              && (reply == BadRequest <==> refused || (!setupFails && !redeemed))
              && (reply == Conflict <==> redeemed && !insertFails && taken)
              && (reply.Registered? <==> inserted && tx == Commits)
              && (reply.Registered? ==> reply == Registered(newUser, a.invites[code].client))
              && if inserted && tx != Aborts
                 then
                   var invite := a.invites[code];
                   && View() == a.(invites := a.invites[code := invite.(usedCount := invite.usedCount + 1)],
                                   users := a.users[newUser := User(invite.client, email, false)],
                                   via := a.via[newUser := code])
                   && Valid(a, Transact(code, email, newUser)) && View() == After(a, Transact(code, email, newUser))
                 else View() == a
    {
      if email == "" || pass == "" || code == "" || !mailOk || |pass| < 12 || |pass| > 256 {
        return BadRequest;
      }
      if setupFails {
        return Internal;
      }
      if updateFails || code !in invites || !Redeemable(invites[code], now) {
        return BadRequest;
      }
      var begun := invites;
      var clientId := invites[code].client;
      invites := invites[code := invites[code].(usedCount := invites[code].usedCount + 1)];
      if insertFails {
        invites := begun;
        return Internal;
      }
      if newUser in users || exists u :: u in users && !users[u].deleted && SameEmail(users[u].email, email) {
        invites := begun;
        return Conflict;
      }
      if tx == Aborts {
        invites := begun;
        return Internal;
      }
      TransactAlone(old(View()), code, email, newUser);
      users := users[newUser := User(clientId, email, false)];
      via := via[newUser := code];
      if tx == CommitsUnheard {
        return Internal;
      }
      return Registered(newUser, clientId);
    }
  }
}
