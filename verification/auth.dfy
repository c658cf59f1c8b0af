/** The credentials provider of auth.ts: `authorize`, which parses the
    submitted credentials, looks the user up by email and compares the
    password with the stored hash, and `getUser`, the lookup. Email syntax and
    the bcrypt comparison are left abstract as parameters. */
module Auth {
  import opened Outcomes

  /** A row of `users`; `password` holds the bcrypt hash. */
  datatype DbUser = DbUser(id: string, name: string, email: string, password: string)

  /** What the sign-in form submits; a field is `None` when it is absent or
      not a string. */
  datatype Credentials = Credentials(email: Option<string>, password: Option<string>)

  /** Credentials that passed the schema. */
  datatype ParsedCredentials = ParsedCredentials(email: string, password: string)

  /** The `users` table in the order the store scans it, or a store the query
      cannot reach. */
  datatype UserStore = Unreachable | Users(rows: seq<DbUser>)

  /** `z.string().email()`. */
  type EmailCheck = string -> bool

  /** `bcrypt.compare(password, hash)`. */
  type HashCompare = (string, string) -> bool

  /** `z.string().min(6)` on the password. */
  const MinPasswordLength := 6

  /** What `getUser` throws when the query fails. */
  const LookupFailure: string := "Failed to fetch user."

  /** `z.object({ email: z.string().email(), password: z.string().min(6) }).safeParse(credentials)`. */
  function ParseCredentials(isEmail: EmailCheck, c: Credentials): (r: Option<ParsedCredentials>)
    ensures r.Some? <==>
      && c.email.Some? && isEmail(c.email.value)
      && c.password.Some? && |c.password.value| >= MinPasswordLength
    ensures r.Some? ==> r.value.email == c.email.value && r.value.password == c.password.value
  {
    if c.email.Some? && isEmail(c.email.value) && c.password.Some? && |c.password.value| >= MinPasswordLength
    then Some(ParsedCredentials(c.email.value, c.password.value))
    else None
  }

  /** `u` is the first row of `rows` whose email is `email`. */
  predicate IsFirstMatch(rows: seq<DbUser>, email: string, u: DbUser) {
    exists i :: 0 <= i < |rows| && rows[i] == u && u.email == email && NoMatchBefore(rows, email, i)
  }

  predicate NoMatchBefore(rows: seq<DbUser>, email: string, i: int) {
    forall j :: 0 <= j < i && j < |rows| ==> rows[j].email != email
  }

  /** `SELECT * FROM users WHERE email = ...`: the rows with that email, in
      store order. */
  function RowsWithEmail(rows: seq<DbUser>, email: string): (r: seq<DbUser>)
    ensures forall i :: 0 <= i < |r| ==> r[i].email == email
    ensures |r| == 0 <==> NoMatchBefore(rows, email, |rows|)
    ensures |r| > 0 ==> IsFirstMatch(rows, email, r[0])
  {
    if |rows| == 0 then []
    else
      var rest := RowsWithEmail(rows[1..], email);
      assert forall j :: 1 <= j < |rows| ==> rows[j] == rows[1..][j - 1];
      if rows[0].email == email then
        assert NoMatchBefore(rows, email, 0);
        [rows[0]] + rest
      else
        if |rest| > 0 then
          FirstMatchSkipsOtherEmail(rows, email, rest[0]);
          rest
        else
          rest
  }

  /** A first row with another email does not change which row matches first. */
  lemma FirstMatchSkipsOtherEmail(rows: seq<DbUser>, email: string, u: DbUser)
    requires |rows| > 0 && rows[0].email != email
    requires IsFirstMatch(rows[1..], email, u)
    ensures IsFirstMatch(rows, email, u)
  {
    var i :| 0 <= i < |rows[1..]| && rows[1..][i] == u && u.email == email && NoMatchBefore(rows[1..], email, i);
    assert rows[i + 1] == u;
    assert NoMatchBefore(rows, email, i + 1) by {
      forall j | 0 <= j < i + 1 && j < |rows|
        ensures rows[j].email != email
      {
        if j > 0 {
          assert rows[j] == rows[1..][j - 1];
        }
      }
    }
  }

  /** `getUser(email)`: the first matching row, `undefined` (`None`) when
      there is none; a failed query throws `'Failed to fetch user.'`. */
  function GetUser(store: UserStore, email: string): (r: Result<Option<DbUser>, string>)
    ensures r.Failure? <==> store.Unreachable?
    ensures r.Failure? ==> r.error == LookupFailure
    ensures r == Success(None) <==> store.Users? && NoMatchBefore(store.rows, email, |store.rows|)
    ensures r.Success? && r.value.Some? ==> IsFirstMatch(store.rows, email, r.value.value)
  {
    match store
    case Unreachable => Failure(LookupFailure)
    case Users(rows) =>
      var found := RowsWithEmail(rows, email);
      if |found| == 0 then Success(None) else Success(Some(found[0]))
  }

  /** `authorize(credentials)`: the user when the credentials parse, a user
      with that email exists and the password matches its hash; `null`
      (`None`) otherwise. A failed lookup is thrown, not turned into `null`. */
  function Authorize(isEmail: EmailCheck, matches: HashCompare, store: UserStore,
                     c: Credentials): (r: Result<Option<DbUser>, string>)
    ensures ParseCredentials(isEmail, c).None? ==> r == Success(None)
    ensures r.Failure? <==> ParseCredentials(isEmail, c).Some? && store.Unreachable?
    ensures r.Failure? ==> r.error == LookupFailure
    ensures r.Success? && r.value.Some? <==>
      && ParseCredentials(isEmail, c).Some? && store.Users?
      && exists u :: IsFirstMatch(store.rows, c.email.value, u) && matches(c.password.value, u.password)
    ensures r.Success? && r.value.Some? ==>
      && IsFirstMatch(store.rows, c.email.value, r.value.value)
      && matches(c.password.value, r.value.value.password)
  {
    match ParseCredentials(isEmail, c)
    case None => Success(None)
    case Some(parsed) =>
      match GetUser(store, parsed.email)
      case Failure(message) => Failure(message)
      case Success(user) =>
        if user.None? then
          assert forall u :: !IsFirstMatch(store.rows, c.email.value, u);
          Success(None)
        else
          FirstMatchIsUnique(store.rows, parsed.email, user.value);
          if matches(parsed.password, user.value.password) then Success(Some(user.value))
          else Success(None)
  }

  /** Two rows that are both the first match are the same row. */
  lemma FirstMatchIsUnique(rows: seq<DbUser>, email: string, u: DbUser)
    requires IsFirstMatch(rows, email, u)
    ensures forall v :: IsFirstMatch(rows, email, v) ==> v == u
  {
    forall v | IsFirstMatch(rows, email, v)
      ensures v == u
    {
      var i :| 0 <= i < |rows| && rows[i] == u && NoMatchBefore(rows, email, i);
      var k :| 0 <= k < |rows| && rows[k] == v && v.email == email && NoMatchBefore(rows, email, k);
      assert !(i < k) && !(k < i);
    }
  }

  /** "No such user" and "wrong password" give the caller the same answer. */
  lemma NoSuchUserAndWrongPasswordLookAlike(isEmail: EmailCheck, matches: HashCompare, c: Credentials,
                                            withoutUser: seq<DbUser>, withUser: seq<DbUser>, u: DbUser)
    requires ParseCredentials(isEmail, c).Some?
    requires NoMatchBefore(withoutUser, c.email.value, |withoutUser|)
    requires IsFirstMatch(withUser, c.email.value, u) && !matches(c.password.value, u.password)
    ensures Authorize(isEmail, matches, Users(withoutUser), c) == Success(None)
    ensures Authorize(isEmail, matches, Users(withUser), c) == Success(None)
  {
    FirstMatchIsUnique(withUser, c.email.value, u);
  }

  /** Credentials that do not parse are refused without consulting the store:
      the answer is `null` whatever the store holds, even when it is down. */
  lemma UnparsedCredentialsNeverReachTheStore(isEmail: EmailCheck, matches: HashCompare, c: Credentials,
                                              store1: UserStore, store2: UserStore)
    requires ParseCredentials(isEmail, c).None?
    ensures Authorize(isEmail, matches, store1, c) == Authorize(isEmail, matches, store2, c) == Success(None)
  {
  }

  /** A failed lookup propagates: it is never mistaken for a refused login. */
  lemma LookupFailureIsNotARefusal(isEmail: EmailCheck, matches: HashCompare, c: Credentials)
    requires ParseCredentials(isEmail, c).Some?
    ensures Authorize(isEmail, matches, Unreachable, c) == Failure(LookupFailure)
    ensures Authorize(isEmail, matches, Unreachable, c) != Success(None)
  {
  }
}
