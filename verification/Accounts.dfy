/** Customer accounts: the users table (backend/auth_store.go) and the resolution of a Google login
    to a local account (backend/auth_google.go). Go's Unicode lower-casing is an arbitrary function;
    the empty string stands for a NULL google_sub. */
module Accounts {
  import opened Wrappers
  import opened GoStrings

  datatype User = User(id: string, email: string, emailLower: string, passwordHash: string, googleSub: string,
                       name: string, emailVerified: bool)

  type Table = map<string, User>

  datatype AuthError = UserExists | UserNotFound | EmptyEmail | MissingClaims

  datatype Claims = Claims(sub: string, email: string, emailVerified: bool, name: string)

  function EmailKey(lower: string -> string, email: string): string {
    lower(TrimSpace(email))
  }

  // The table's constraints: the primary key and the two unique indexes.
  ghost predicate Valid(t: Table) {
    && (forall id | id in t :: t[id].id == id && t[id].emailLower != "")
    && (forall i, j | i in t && j in t && i != j :: t[i].emailLower != t[j].emailLower)
    && (forall i, j | i in t && j in t && i != j && t[i].googleSub != "" :: t[i].googleSub != t[j].googleSub)
  }

  // The addresses and subjects the table holds; accounts without a subject hold none.
  function EmailsOf(t: Table): set<string> {
    set id | id in t :: t[id].emailLower
  }

  function SubsOf(t: Table): set<string> {
    set id | id in t && t[id].googleSub != "" :: t[id].googleSub
  }

  // ----- Single statements on the table -----

  ghost predicate HasEmail(t: Table, id: string, key: string) {
    id in t && t[id].emailLower == key
  }

  ghost predicate HasSub(t: Table, id: string, sub: string) {
    id in t && t[id].googleSub == sub
  }

  ghost function ByEmail(t: Table, key: string): Option<User> {
    if id :| key != "" && HasEmail(t, id, key) then Some(t[id]) else None
  }

  // A blank subject is never looked up.
  ghost function BySub(t: Table, sub: string): Option<User> {
    if id :| TrimSpace(sub) != "" && HasSub(t, id, sub) then Some(t[id]) else None
  }

  lemma ByEmailExactly(t: Table, key: string)
    requires Valid(t)
    ensures ByEmail(t, key).Some? <==> key in EmailsOf(t)
    ensures ByEmail(t, key).Some? ==>
              var u := ByEmail(t, key).value; u.id in t && t[u.id] == u && u.emailLower == key != ""
  {
    if key in EmailsOf(t) {
      var id :| id in t && t[id].emailLower == key;
      assert HasEmail(t, id, key);
    }
  }

  lemma BySubExactly(t: Table, sub: string)
    requires Valid(t)
    ensures BySub(t, sub).Some? <==> TrimSpace(sub) != "" && sub in SubsOf(t)
    ensures BySub(t, sub).Some? ==>
              var u := BySub(t, sub).value; u.id in t && t[u.id] == u && u.googleSub == sub != ""
  {
    assert TrimSpace("") == "";
    hide TrimSpace;
    if TrimSpace(sub) != "" && sub in SubsOf(t) {
      var id :| id in t && t[id].googleSub == sub;
      assert HasSub(t, id, sub);
    }
  }

  // The unique indexes leave at most one account to find.
  lemma OnlyByEmail(t: Table, key: string)
    requires Valid(t)
    ensures forall id | id in t && t[id].emailLower == key != "" :: ByEmail(t, key) == Some(t[id])
  {
    forall id | id in t && t[id].emailLower == key != "" ensures ByEmail(t, key) == Some(t[id]) {
      assert HasEmail(t, id, key);
    }
  }

  lemma OnlyBySub(t: Table, sub: string)
    requires Valid(t)
    ensures forall id | id in t && t[id].googleSub == sub && TrimSpace(sub) != "" :: BySub(t, sub) == Some(t[id])
  {
    assert TrimSpace("") == "";
    hide TrimSpace;
    forall id | id in t && t[id].googleSub == sub && TrimSpace(sub) != "" ensures BySub(t, sub) == Some(t[id]) {
      assert HasSub(t, id, sub);
    }
  }

  lemma InsertableExactly(t: Table, u: User)
    ensures Insertable(t, u) <==> u.id !in t && u.emailLower !in EmailsOf(t) && u.googleSub !in SubsOf(t)
  {
    if u.emailLower in EmailsOf(t) {
      var id :| id in t && t[id].emailLower == u.emailLower;
      assert HasEmail(t, id, u.emailLower);
    }
    if u.googleSub in SubsOf(t) {
      var id :| id in t && t[id].googleSub == u.googleSub != "";
      assert HasSub(t, id, u.googleSub);
    }
  }

  lemma TakenByOther(t: Table, id: string, sub: string)
    requires sub != ""
    ensures (exists other :: other != id && HasSub(t, other, sub)) <==> sub in SubsOf(t - {id})
  {
    if other :| other != id && HasSub(t, other, sub) {
      assert other in t - {id} && (t - {id})[other].googleSub == sub;
    }
    if sub in SubsOf(t - {id}) {
      var other :| other in t - {id} && (t - {id})[other].googleSub == sub;
      assert HasSub(t, other, sub);
    }
  }

  ghost predicate Insertable(t: Table, u: User) {
    && u.id !in t
    && (forall id :: !HasEmail(t, id, u.emailLower))
    && (u.googleSub != "" ==> forall id :: !HasSub(t, id, u.googleSub))
  }

  ghost function Create(t: Table, u: User): (Table, Result<User, AuthError>) {
    if u.emailLower == "" then (t, Err(EmptyEmail))
    else if Insertable(t, u) then (t[u.id := u], Ok(u))
    else (t, Err(UserExists))
  }

  // An update that matches no row cannot violate an index.
  ghost function Linked(t: Table, id: string, sub: string): (Table, Result<(), AuthError>) {
    if id !in t then (t, Err(UserNotFound))
    else if exists other :: other != id && HasSub(t, other, sub) then (t, Err(UserExists))
    else (t[id := t[id].(googleSub := sub, emailVerified := true)], Ok(()))
  }

  // ----- A Google login -----

  ghost function Resolve(lower: string -> string, t: Table, c: Claims, newId: string)
    : (Table, Result<User, AuthError>)
  {
    if BySub(t, c.sub).Some? then (t, Ok(BySub(t, c.sub).value))
    else
      var existing := ByEmail(t, EmailKey(lower, c.email));
      if existing.Some? then
        var u := existing.value;
        if u.googleSub != "" && u.googleSub != c.sub then (t, Err(UserExists))
        else if u.googleSub == "" then
          var (t', linked) := Linked(t, u.id, c.sub);
          if linked.Err? then (t', Err(linked.error))
          else (t', Ok(u.(googleSub := c.sub, emailVerified := true)))
        else (t, Ok(u))
      else
        Create(t, User(newId, c.email, EmailKey(lower, c.email), "", c.sub, c.name, c.emailVerified))
  }

  // The callback turns claims without an email or a subject away before resolving them.
  ghost function GoogleLogin(lower: string -> string, t: Table, c: Claims, newId: string)
    : (Table, Result<User, AuthError>)
  {
    if c.email == "" || c.sub == "" then (t, Err(MissingClaims)) else Resolve(lower, t, c, newId)
  }

  /** Which account a Google login gets, in full. One linked to the subject is used as it is. Failing that, the
      one with the address: as it is if it is linked to this very (blank) subject, refused if it is linked to
      another, and linked and verified otherwise. Failing that too, a new one with what Google claims. */
  lemma LoginEffect(lower: string -> string, t: Table, c: Claims, newId: string)
    requires Valid(t) && c.sub != ""
    ensures var (t', r) := Resolve(lower, t, c, newId); var key := lower(TrimSpace(c.email));
            if TrimSpace(c.sub) != "" && c.sub in SubsOf(t) then
              t' == t && r.Ok? && r.value.id in t && t[r.value.id] == r.value && r.value.googleSub == c.sub
            else if key in EmailsOf(t) then
              forall id | id in t && t[id].emailLower == key ::
                var linked := t[id].(googleSub := c.sub, emailVerified := true);
                && (t[id].googleSub == c.sub ==> t' == t && r == Ok(t[id]))
                && (t[id].googleSub != "" && t[id].googleSub != c.sub ==> t' == t && r == Err(UserExists))
                && (t[id].googleSub == "" && c.sub in SubsOf(t) ==> t' == t && r == Err(UserExists))
                && (t[id].googleSub == "" && c.sub !in SubsOf(t) ==> t' == t[id := linked] && r == Ok(linked))
            else if key == "" then t' == t && r == Err(EmptyEmail)
            else if newId in t || c.sub in SubsOf(t) then t' == t && r == Err(UserExists)
            else
              var u := User(newId, c.email, key, "", c.sub, c.name, c.emailVerified);
              t' == t[newId := u] && r == Ok(u)
  {
    hide TrimSpace, EmailsOf, SubsOf, HasSub, HasEmail;
    var key := lower(TrimSpace(c.email));
    BySubExactly(t, c.sub);
    ByEmailExactly(t, key);
    OnlyByEmail(t, key);
    InsertableExactly(t, User(newId, c.email, key, "", c.sub, c.name, c.emailVerified));
    forall id | id in t && t[id].emailLower == key && t[id].googleSub == ""
      ensures (exists other :: other != id && HasSub(t, other, c.sub)) <==> c.sub in SubsOf(t)
    {
      TakenByOther(t, id, c.sub);
      SubsWithout(t, id);
    }
    EmailsAreKeys(t);
  }

  lemma SubsWithout(t: Table, id: string)
    requires id in t && t[id].googleSub == ""
    ensures SubsOf(t - {id}) == SubsOf(t)
  {
    forall sub | sub in SubsOf(t) ensures sub in SubsOf(t - {id}) {
      var other :| other in t && t[other].googleSub == sub != "";
      assert other in t - {id} && (t - {id})[other].googleSub == sub;
    }
  }

  lemma EmailsAreKeys(t: Table)
    requires Valid(t)
    ensures "" !in EmailsOf(t) && forall id | id in t :: t[id].emailLower != "" && t[id].id == id
  {
  }

  class UserStore {
    const lower: string -> string
    var users: map<string, User>

    constructor (lower: string -> string)
      ensures this.lower == lower && users == map[]
    {
      this.lower := lower;
      users := map[];
    }

    method GetUserByEmail(email: string) returns (r: Result<User, AuthError>)
      requires Valid(users)
      ensures r == var found := ByEmail(users, EmailKey(lower, email));
                   if found.Some? then Ok(found.value) else Err(UserNotFound)
      ensures r.Ok? ==> && r.value.id in users && users[r.value.id] == r.value
                        && r.value.emailLower == lower(TrimSpace(email)) != ""
      ensures r.Err? ==> r == Err(UserNotFound) && lower(TrimSpace(email)) !in EmailsOf(users)
    {
      hide TrimSpace, EmailsOf, Valid;
      var key := lower(TrimSpace(email));
      ByEmailExactly(users, key);
      if key == "" {
        return Err(UserNotFound);
      }
      OnlyByEmail(users, key);
      if exists id :: id in users && users[id].emailLower == key {
        var id :| id in users && users[id].emailLower == key;
        assert HasEmail(users, id, key);
        return Ok(users[id]);
      }
      return Err(UserNotFound);
    }

    method GetUserByGoogleSub(sub: string) returns (r: Result<User, AuthError>)
      requires Valid(users)
      ensures r == var found := BySub(users, sub); if found.Some? then Ok(found.value) else Err(UserNotFound)
      ensures r.Ok? ==> r.value.id in users && users[r.value.id] == r.value && r.value.googleSub == sub != ""
      ensures r.Err? ==> r == Err(UserNotFound) && (TrimSpace(sub) == "" || sub !in SubsOf(users))
    {
      hide SubsOf, Valid;
      BySubExactly(users, sub);
      if TrimSpace(sub) == "" {
        return Err(UserNotFound);
      }
      OnlyBySub(users, sub);
      assert sub != "" by { assert TrimSpace("") == ""; }
      if exists id :: id in users && users[id].googleSub == sub {
        var id :| id in users && users[id].googleSub == sub;
        assert HasSub(users, id, sub);
        return Ok(users[id]);
      }
      return Err(UserNotFound);
    }

    method CreateUser(user: User) returns (r: Result<User, AuthError>)
      requires Valid(users)
      modifies this
      ensures (users, r) == Create(old(users), user.(emailLower := EmailKey(lower, user.email)))
      ensures Valid(users)
      ensures var key := lower(TrimSpace(user.email));
              var taken := user.id in old(users) || key in EmailsOf(old(users)) || user.googleSub in SubsOf(old(users));
              && (r == Err(EmptyEmail) <==> key == "") && (r == Err(UserExists) <==> key != "" && taken)
              && (r.Err? ==> users == old(users) && (r == Err(EmptyEmail) || r == Err(UserExists)))
              && (r.Ok? ==> r.value == user.(emailLower := key) && users == old(users)[user.id := r.value])
    {
      hide TrimSpace, EmailsOf, SubsOf, Valid;
      var u := user.(emailLower := lower(TrimSpace(user.email)));
      InsertableExactly(users, u);
      CreateKeeps(users, u);
      if u.emailLower == "" {
        return Err(EmptyEmail);
      }
      if u.id in users || (exists id :: id in users && users[id].emailLower == u.emailLower)
         || (u.googleSub != "" && exists id :: id in users && users[id].googleSub == u.googleSub) {
        assert !Insertable(users, u) by {
          if id :| id in users && users[id].emailLower == u.emailLower { assert HasEmail(users, id, u.emailLower); }
          if id :| id in users && users[id].googleSub == u.googleSub { assert HasSub(users, id, u.googleSub); }
        }
        return Err(UserExists);
      }
      users := users[u.id := u];
      return Ok(u);
    }

    method LinkGoogleSub(userID: string, sub: string) returns (r: Result<(), AuthError>)
      requires Valid(users) && sub != ""
      modifies this
      ensures (users, r) == Linked(old(users), userID, sub)
      ensures Valid(users)
      ensures var others := old(users) - {userID};
              && (r == Err(UserNotFound) <==> userID !in old(users))
              && (r == Err(UserExists) <==> userID in old(users) && sub in SubsOf(others))
              && (r == Ok(()) <==> userID in old(users) && sub !in SubsOf(others))
              && (r.Err? ==> users == old(users))
              && (r.Ok? ==> users == old(users)[userID := old(users)[userID].(googleSub := sub, emailVerified := true)])
    {
      hide SubsOf;
      TakenByOther(users, userID, sub);
      if userID !in users {
        return Err(UserNotFound);
      }
      if exists other :: other in users && other != userID && users[other].googleSub == sub {
        var other :| other in users && other != userID && users[other].googleSub == sub;
        assert HasSub(users, other, sub);
        return Err(UserExists);
      }
      users := users[userID := users[userID].(googleSub := sub, emailVerified := true)];
      return Ok(());
    }

    method FindOrCreateGoogleUser(c: Claims, newId: string) returns (r: Result<User, AuthError>)
      requires Valid(users) && c.sub != ""
      modifies this
      ensures (users, r) == Resolve(lower, old(users), c, newId)
      ensures Valid(users)
    {
      var bySub := GetUserByGoogleSub(c.sub);
      if bySub.Ok? {
        return bySub;
      }
      var byEmail := GetUserByEmail(c.email);
      if byEmail.Ok? {
        var existing := byEmail.value;
        if existing.googleSub != "" && existing.googleSub != c.sub {
          return Err(UserExists);
        }
        if existing.googleSub == "" {
          var linked := LinkGoogleSub(existing.id, c.sub);
          if linked.Err? {
            return Err(linked.error);
          }
          existing := existing.(googleSub := c.sub, emailVerified := true);
        }
        return Ok(existing);
      }
      r := CreateUser(User(newId, c.email, "", "", c.sub, c.name, c.emailVerified));
    }
  }

  // ----- Runs -----

  /** One request: a signup with an email and a password, or a Google login. `newId` is the random
      id drawn for a new account. */
  datatype Step =
    | Signup(email: string, name: string, passwordHash: string, newId: string)
    | Google(claims: Claims, newId: string)

  ghost function Apply(lower: string -> string, t: Table, s: Step): Table {
    match s
    case Signup(email, name, hash, newId) =>
      Create(t, User(newId, email, EmailKey(lower, email), hash, "", name, false)).0
    case Google(claims, newId) => GoogleLogin(lower, t, claims, newId).0
  }

  ghost function Run(lower: string -> string, t: Table, steps: seq<Step>): Table
    decreases |steps|
  {
    if steps == [] then t else Run(lower, Apply(lower, t, steps[0]), steps[1..])
  }

  // What one step or many may do to the accounts already there: link a subject to one without, no more.
  ghost predicate Preserves(t: Table, t': Table) {
    forall id | id in t ::
      && id in t' && t'[id].emailLower == t[id].emailLower && t'[id].passwordHash == t[id].passwordHash
      && (t[id].googleSub != "" ==> t'[id].googleSub == t[id].googleSub)
  }

  lemma StepKeeps(lower: string -> string, t: Table, s: Step)
    requires Valid(t)
    ensures Valid(Apply(lower, t, s)) && Preserves(t, Apply(lower, t, s))
  {
    hide TrimSpace;
    match s {
      case Signup(email, name, hash, newId) =>
        CreateKeeps(t, User(newId, email, EmailKey(lower, email), hash, "", name, false));
      case Google(c, newId) =>
        CreateKeeps(t, User(newId, c.email, EmailKey(lower, c.email), "", c.sub, c.name, c.emailVerified));
        if c.email != "" && c.sub != "" && BySub(t, c.sub).None? {
          var existing := ByEmail(t, EmailKey(lower, c.email));
          if existing.Some? && existing.value.googleSub == "" {
            LinkKeeps(t, existing.value.id, c.sub);
          }
        }
    }
  }

  lemma CreateKeeps(t: Table, u: User)
    requires Valid(t)
    ensures Valid(Create(t, u).0) && Preserves(t, Create(t, u).0)
  {
    forall id | id in t && Insertable(t, u)
      ensures t[id].emailLower != u.emailLower && (u.googleSub != "" ==> t[id].googleSub != u.googleSub)
    {
      assert !HasEmail(t, id, u.emailLower);
      assert u.googleSub != "" ==> !HasSub(t, id, u.googleSub);
    }
  }

  lemma LinkKeeps(t: Table, id: string, sub: string)
    requires Valid(t) && sub != "" && (id in t ==> t[id].googleSub == "")
    ensures Valid(Linked(t, id, sub).0) && Preserves(t, Linked(t, id, sub).0)
  {
    var t' := Linked(t, id, sub).0;
    if Linked(t, id, sub).1.Ok? {
      forall i, j | i in t' && j in t' && i != j && t'[i].googleSub != "" ensures t'[i].googleSub != t'[j].googleSub {
        assert !HasSub(t, i, sub) || i == id;
        assert !HasSub(t, j, sub) || j == id;
      }
    }
  }

  /** Over any run of signups and Google logins, emails and subjects stay unique, accounts stay, and
      a linked subject never changes. */
  lemma {:induction false} RunKeeps(lower: string -> string, t: Table, steps: seq<Step>)
    requires Valid(t)
    ensures Valid(Run(lower, t, steps)) && Preserves(t, Run(lower, t, steps))
    decreases |steps|
  {
    if steps != [] {
      StepKeeps(lower, t, steps[0]);
      RunKeeps(lower, Apply(lower, t, steps[0]), steps[1..]);
    }
  }

  // What a successful login leaves behind: an account with that subject, found again by the same claims.
  lemma LoginLeaves(lower: string -> string, t: Table, c: Claims, newId: string)
    requires Valid(t) && GoogleLogin(lower, t, c, newId).1.Ok?
    ensures var (t', r) := GoogleLogin(lower, t, c, newId);
            && Valid(t') && r.value.id in t' && t'[r.value.id] == r.value && r.value.googleSub == c.sub != ""
            && (TrimSpace(c.sub) == "" ==> r.value.emailLower == EmailKey(lower, c.email) != "")
  {
    hide TrimSpace, Valid;
    StepKeeps(lower, t, Google(c, newId));
    if BySub(t, c.sub).Some? {
      SubFound(t, c.sub);
    } else if ByEmail(t, EmailKey(lower, c.email)).Some? {
      EmailFound(t, EmailKey(lower, c.email));
    }
  }

  lemma SubFound(t: Table, sub: string)
    requires Valid(t) && BySub(t, sub).Some?
    ensures var u := BySub(t, sub).value; u.id in t && t[u.id] == u && u.googleSub == sub && TrimSpace(sub) != ""
  {
    hide TrimSpace;
  }

  lemma EmailFound(t: Table, key: string)
    requires Valid(t) && ByEmail(t, key).Some?
    ensures var u := ByEmail(t, key).value; u.id in t && t[u.id] == u && u.emailLower == key != ""
  {
  }

  lemma LoginAgain(lower: string -> string, t: Table, c: Claims, newId: string, id: string)
    requires Valid(t) && c.email != "" && c.sub != ""
    requires id in t && t[id].googleSub == c.sub
    requires TrimSpace(c.sub) == "" ==> t[id].emailLower == EmailKey(lower, c.email) != ""
    ensures GoogleLogin(lower, t, c, newId) == (t, Ok(t[id]))
  {
    hide TrimSpace;
    assert HasSub(t, id, c.sub);
    if TrimSpace(c.sub) == "" {
      assert HasEmail(t, id, EmailKey(lower, c.email));
    }
  }

  /** Logging in again with the same claims, after whatever else has happened, gives the same
      account and changes nothing. */
  lemma RepeatedLoginSameAccount(lower: string -> string, before: seq<Step>, c: Claims, newId: string,
                                 between: seq<Step>, newId': string)
    requires GoogleLogin(lower, Run(lower, map[], before), c, newId).1.Ok?
    ensures var (t, first) := GoogleLogin(lower, Run(lower, map[], before), c, newId);
            var t' := Run(lower, t, between);
            var (t'', second) := GoogleLogin(lower, t', c, newId');
            t'' == t' && second.Ok? && second.value.id == first.value.id && second.value.googleSub == c.sub
  {
    hide TrimSpace;
    var t0 := Run(lower, map[], before);
    RunKeeps(lower, map[], before);
    LoginLeaves(lower, t0, c, newId);
    var (t, first) := GoogleLogin(lower, t0, c, newId);
    RunKeeps(lower, t, between);
    LoginAgain(lower, Run(lower, t, between), c, newId', first.value.id);
  }
}
