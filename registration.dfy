/** The `registerUser` server action (src/app/actions/auth.ts): an ordered chain of input checks,
    a duplicate-email lookup and a single insert into the user store. */
module Registration {
  import opened Results

  const NameTooShort: string := "Name must be at least 2 characters"
  const EmailInvalid: string := "Invalid email address"
  const PasswordTooShort: string := "Password must be at least 8 characters"
  const EmailTaken: string := "An account with this email already exists"

  datatype RegisterInput = RegisterInput(name: string, email: string, password: string)

  /** `{ success, error? }`. */
  datatype RegisterResult = RegisterResult(success: bool, error: Option<string>)

  /** A row of the user table; `id` is chosen by the database. */
  datatype User = User(id: string, name: string, email: string, passwordHash: string)

  /** The first failing input check, in the order name, email, password. */
  function InputError(input: RegisterInput): (e: Option<string>)
    ensures e.None? <==> |input.name| >= 2 && '@' in input.email && |input.password| >= 8
    ensures e == Some(NameTooShort) <==> |input.name| < 2
    ensures e == Some(EmailInvalid) <==> |input.name| >= 2 && '@' !in input.email
    ensures e == Some(PasswordTooShort) <==> |input.name| >= 2 && '@' in input.email && |input.password| < 8
  {
    if input.name == [] || |input.name| < 2 then Some(NameTooShort)
    else if input.email == [] || '@' !in input.email then Some(EmailInvalid)
    else if input.password == [] || |input.password| < 8 then Some(PasswordTooShort)
    else None
  }

  /** Whether some user has this email. */
  predicate EmailInUse(users: seq<User>, email: string) {
    exists i :: 0 <= i < |users| && users[i].email == email
  }

  /** `db.user.findUnique({ where: { email } })`: the user with this email, if any. */
  function FindUnique(users: seq<User>, email: string): (found: Option<User>)
    ensures found.Some? <==> EmailInUse(users, email)
    ensures found.Some? ==> found.value in users && found.value.email == email
  {
    if users == [] then None
    else if users[0].email == email then Some(users[0])
    else
      var rest := FindUnique(users[1..], email);
      assert EmailInUse(users[1..], email) ==> EmailInUse(users, email) by {
        if EmailInUse(users[1..], email) {
          var i :| 0 <= i < |users[1..]| && users[1..][i].email == email;
          assert users[i + 1].email == email;
        }
      }
      assert EmailInUse(users, email) && users[0].email != email ==> EmailInUse(users[1..], email) by {
        if EmailInUse(users, email) && users[0].email != email {
          var i :| 0 <= i < |users| && users[i].email == email;
          assert users[1..][i - 1].email == email;
        }
      }
      rest
  }

  /** No two users share an email (the column is unique in the store). */
  predicate UniqueEmails(users: seq<User>) {
    forall i, j :: 0 <= i < j < |users| ==> users[i].email != users[j].email
  }

  /** What `registerUser` returns and the user table afterwards, given the table before, the
      password hash function and the id the database assigns. */
  function Register(users: seq<User>, input: RegisterInput, hash: string -> string, newId: string)
    : (r: (seq<User>, RegisterResult))
    ensures users <= r.0
    ensures r.1.success <==> |r.0| == |users| + 1
    ensures !r.1.success <==> r.0 == users
  {
    match InputError(input)
    case Some(message) => (users, RegisterResult(false, Some(message)))
    case None =>
      if EmailInUse(users, input.email) then (users, RegisterResult(false, Some(EmailTaken)))
      else (users + [User(newId, input.name, input.email, hash(input.password))], RegisterResult(true, None))
  }

  /** A failed registration changes nothing and says why; a successful one appends exactly one
      user, carrying the name, the email and the hash of the password. */
  lemma RegisterOutcome(users: seq<User>, input: RegisterInput, hash: string -> string, newId: string)
    ensures var (after, r) := Register(users, input, hash, newId);
      && (r.success <==> InputError(input).None? && !EmailInUse(users, input.email))
      && (r.success ==> r.error.None? && after == users + [User(newId, input.name, input.email, hash(input.password))])
      && (!r.success ==> after == users && r.error.Some?)
      && (InputError(input).Some? ==> r.error == InputError(input))
      && (InputError(input).None? && EmailInUse(users, input.email) ==> r.error == Some(EmailTaken))
  {
  }

  /** Registration keeps emails unique, and afterwards the given email is always in use when it
      succeeded or was already taken. */
  lemma RegisterKeepsEmailsUnique(users: seq<User>, input: RegisterInput, hash: string -> string, newId: string)
    requires UniqueEmails(users)
    ensures UniqueEmails(Register(users, input, hash, newId).0)
    ensures Register(users, input, hash, newId).1.success ==> EmailInUse(Register(users, input, hash, newId).0, input.email)
  {
    var after := Register(users, input, hash, newId).0;
    if Register(users, input, hash, newId).1.success {
      assert after[|users|].email == input.email;
      forall i, j | 0 <= i < j < |after| ensures after[i].email != after[j].email {
        if j == |users| {
          assert after[i] == users[i];
        } else {
          assert after[i] == users[i] && after[j] == users[j];
        }
      }
    }
  }

  /** Registering the same email twice: the second attempt is refused whatever its name and
      password, and the table keeps the first user only. */
  lemma SecondRegistrationRefused(users: seq<User>, first: RegisterInput, second: RegisterInput,
                                  hash: string -> string, id1: string, id2: string)
    requires second.email == first.email && InputError(second).None?
    requires Register(users, first, hash, id1).1.success
    ensures var after := Register(users, first, hash, id1).0;
      Register(after, second, hash, id2) == (after, RegisterResult(false, Some(EmailTaken)))
  {
    var after := Register(users, first, hash, id1).0;
    assert after[|users|].email == second.email;
  }

  /** The user table, updated in place by `registerUser`. */
  class UserStore {
    var users: seq<User>

    ghost predicate Valid()
      reads this
    {
      UniqueEmails(users)
    }

    constructor ()
      ensures Valid() && users == []
    {
      users := [];
    }

    /** `registerUser`: `hash` stands for `hashPassword` and `newId` for the id the database
        assigns to the new row. */
    method RegisterUser(input: RegisterInput, hash: string -> string, newId: string) returns (r: RegisterResult)
      requires Valid()
      modifies this
      ensures Valid()
      ensures (users, r) == Register(old(users), input, hash, newId)
    {
      if input.name == [] || |input.name| < 2 {
        return RegisterResult(false, Some(NameTooShort));
      }
      if input.email == [] || '@' !in input.email {
        return RegisterResult(false, Some(EmailInvalid));
      }
      if input.password == [] || |input.password| < 8 {
        return RegisterResult(false, Some(PasswordTooShort));
      }
      var existingUser := FindUnique(users, input.email);
      if existingUser.Some? {
        return RegisterResult(false, Some(EmailTaken));
      }
      var passwordHash := hash(input.password);
      RegisterKeepsEmailsUnique(users, input, hash, newId);
      users := users + [User(newId, input.name, input.email, passwordHash)];
      return RegisterResult(true, None);
    }
  }
}
