/**
 * The demo authentication context: a fixed table of four accounts sharing one
 * password, a case-insensitive email lookup, and a session persisted under the
 * storage key `user`.
 */
module Auth {
  import opened Wrappers
  import Text

  datatype Role = Admin | Dispatcher | Driver | Customer

  datatype User = User(id: string, email: string, name: string, role: Role, avatar: Option<string>)

  /** The error `login` throws on every failure. */
  datatype AuthError = InvalidCredentials

  const DemoPassword: string := "demo123"

  /** The avatar image of a demo account: a 32 by 32 face crop of an Unsplash photo. */
  function Avatar(photo: string): string {
    "https://images.unsplash.com/photo-" + photo + "?w=32&h=32&fit=crop&crop=face"
  }

  /** The `demoUsers` table, keyed by lower-case email. */
  function DemoUsers(): map<string, User> {
    map[
      "admin@cigo.io" := User("1", "admin@cigo.io", "Admin User", Admin,
        Some(Avatar("1472099645785-5658abf4ff4e"))),
      "dispatcher@cigo.io" := User("2", "dispatcher@cigo.io", "Sarah Johnson", Dispatcher,
        Some(Avatar("1494790108755-2616b612b6ad"))),
      "driver@cigo.io" := User("3", "driver@cigo.io", "Mike Wilson", Driver,
        Some(Avatar("1507003211169-0a1dd7228f2d"))),
      "customer@cigo.io" := User("4", "customer@cigo.io", "John Smith", Customer,
        Some(Avatar("1500648767791-00dcc994a43e")))
    ]
  }

  /** The four accounts the demo accepts. */
  function DemoEmails(): set<string> {
    {"admin@cigo.io", "dispatcher@cigo.io", "driver@cigo.io", "customer@cigo.io"}
  }

  /** The credential check of `login`: the entry for the lower-cased email, if the password matches. */
  function Authenticate(email: string, password: string): (r: Result)
    ensures r.Ok? <==> Text.Lower(email) in DemoEmails() && password == DemoPassword
    ensures r.Ok? ==> r.user.email == Text.Lower(email) && r.user in DemoUsers().Values
  {
    var key := Text.Lower(email);
    DemoTableKeyedByEmail(key);
    if key !in DemoUsers() || password != DemoPassword then Err(InvalidCredentials)
    else Ok(DemoUsers()[key])
  }

  /** The table holds exactly the four accounts, each filed under its own email. */
  lemma DemoTableKeyedByEmail(key: string)
    ensures key in DemoUsers() <==> key in DemoEmails()
    ensures key in DemoUsers() ==> DemoUsers()[key].email == key && DemoUsers()[key] in DemoUsers().Values
  {
    var t := DemoUsers();
    if key in t {
      assert t[key] in t.Values;
    }
  }

  datatype Result = Ok(user: User) | Err(error: AuthError)

  /** A successful login carries the role of the account it matched. */
  lemma RoleFollowsAccount(email: string, password: string)
    requires Authenticate(email, password).Ok?
    ensures Text.Lower(email) == "admin@cigo.io" ==> Authenticate(email, password).user.role == Admin
    ensures Text.Lower(email) == "dispatcher@cigo.io" ==> Authenticate(email, password).user.role == Dispatcher
    ensures Text.Lower(email) == "driver@cigo.io" ==> Authenticate(email, password).user.role == Driver
    ensures Text.Lower(email) == "customer@cigo.io" ==> Authenticate(email, password).user.role == Customer
  {
  }

  /** Emails that differ only in letter case log in as the same account, or both fail. */
  lemma EmailIgnoresCase(e1: string, e2: string, password: string)
    requires Text.Lower(e1) == Text.Lower(e2)
    ensures Authenticate(e1, password) == Authenticate(e2, password)
  {
  }

  /** An upper-case email finds the admin; the password comparison keeps case. */
  lemma CaseExamples()
    ensures Authenticate("ADMIN@CIGO.IO", "demo123").Ok?
    ensures Authenticate("ADMIN@CIGO.IO", "demo123") == Authenticate("admin@cigo.io", "demo123")
    ensures Authenticate("ADMIN@CIGO.IO", "demo123").user.role == Admin
    ensures Authenticate("admin@cigo.io", "DEMO123") == Err(InvalidCredentials)
    ensures Authenticate("admin@cigo.io", "wrong") == Err(InvalidCredentials)
  {
    var upper := "ADMIN@CIGO.IO";
    assert upper[0] == 'A' && upper[1] == 'D' && upper[2] == 'M' && upper[3] == 'I' && upper[4] == 'N';
    assert upper[5] == '@' && upper[6] == 'C' && upper[7] == 'I' && upper[8] == 'G';
    assert upper[9] == 'O' && upper[10] == '.' && upper[11] == 'I' && upper[12] == 'O';
    assert Text.Lower(upper) == "admin@cigo.io";
    Text.LowerOfLower("admin@cigo.io");
  }

  /**
   * What `demoUsers[key]` yields on the plain object literal: an own entry, a member
   * every object inherits from `Object.prototype`, or `undefined`.
   */
  datatype Lookup = Own(user: User) | Inherited(name: string) | Missing

  /** The inherited members of a plain object whose names are already lower case. */
  function InheritedKeys(): set<string> {
    {"constructor", "__proto__"}
  }

  /** The property read `demoUsers[key]` as JavaScript performs it. */
  function LookupAsWritten(key: string): (r: Lookup)
    ensures r.Own? <==> key in DemoEmails()
    ensures r.Own? ==> r.user.email == key && r.user in DemoUsers().Values
    ensures r.Inherited? <==> key in InheritedKeys()
    ensures r.Missing? <==> key !in DemoEmails() && key !in InheritedKeys()
  {
    DemoTableKeyedByEmail(key);
    if key in DemoUsers() then Own(DemoUsers()[key])
    else if key in InheritedKeys() then Inherited(key)
    else Missing
  }

  /** The guard `!demoUser || password !== 'demo123'` as written: any truthy lookup passes. */
  function AcceptsAsWritten(email: string, password: string): (r: bool)
    ensures r <==> (Text.Lower(email) in DemoEmails() || Text.Lower(email) in InheritedKeys()) && password == DemoPassword
    ensures r && Text.Lower(email) in DemoEmails() ==> Authenticate(email, password).Ok?
  {
    !LookupAsWritten(Text.Lower(email)).Missing? && password == DemoPassword
  }

  /**
   * `login("Constructor", "demo123")` passes the guard as written, because the lookup
   * finds the inherited `Object` constructor; the four-account check rejects it.
   */
  lemma InheritedKeyPassesGuard()
    ensures AcceptsAsWritten("Constructor", "demo123")
    ensures LookupAsWritten(Text.Lower("Constructor")) == Inherited("constructor")
    ensures Authenticate("Constructor", "demo123") == Err(InvalidCredentials)
  {
    var e := "Constructor";
    assert e[0] == 'C' && e[1] == 'o' && e[2] == 'n' && e[3] == 's' && e[4] == 't' && e[5] == 'r';
    assert e[6] == 'u' && e[7] == 'c' && e[8] == 't' && e[9] == 'o' && e[10] == 'r';
    assert Text.Lower(e) == "constructor";
  }

  /** Outside the inherited names, the guard as written and the four-account check agree. */
  lemma AsWrittenAgreesOffInherited(email: string, password: string)
    requires Text.Lower(email) !in InheritedKeys()
    ensures AcceptsAsWritten(email, password) <==> Authenticate(email, password).Ok?
  {
  }

  /** The `localStorage` slot `user`, which outlives any one provider. */
  class SessionStore {
    var record: Option<User>

    constructor (initial: Option<User>)
      ensures record == initial
    {
      record := initial;
    }
  }

  class AuthProvider {
    var user: Option<User>
    var isLoading: bool
    const storage: SessionStore

    /** Mounting: `user` starts null and `isLoading` true. */
    constructor (storage: SessionStore)
      ensures this.storage == storage
      ensures user == None && isLoading
    {
      this.storage := storage;
      user := None;
      isLoading := true;
    }

    /** The startup effect: adopt the stored session if there is one, then stop loading. */
    method RestoreSession()
      modifies this
      ensures user == if storage.record.Some? then storage.record else old(user)
      ensures !isLoading
    {
      if storage.record.Some? {
        user := storage.record;
      }
      isLoading := false;
    }

    /**
     * `login(email, password)`: on success the table entry becomes the user and the
     * stored session; on failure it throws `InvalidCredentials` and neither changes.
     * Both paths end with `isLoading` false.
     */
    method Login(email: string, password: string) returns (thrown: Option<AuthError>)
      modifies this, storage
      ensures !isLoading
      ensures thrown.None? <==> Authenticate(email, password).Ok?
      ensures thrown.None? ==>
                user == Some(Authenticate(email, password).user) && storage.record == user
      ensures thrown.Some? ==>
                thrown == Some(InvalidCredentials) && user == old(user) && storage.record == old(storage.record)
    {
      isLoading := true;
      var demoUser := Authenticate(email, password);
      if demoUser.Err? {
        thrown := Some(InvalidCredentials);
      } else {
        user := Some(demoUser.user);
        storage.record := Some(demoUser.user);
        thrown := None;
      }
      isLoading := false;
    }

    /** `logout()`: forget the user and the stored session; a second call changes nothing more. */
    method Logout()
      modifies this, storage
      ensures user == None && storage.record == None
      ensures isLoading == old(isLoading)
    {
      user := None;
      storage.record := None;
    }
  }

  /** After a logout, the next application start comes up anonymous. */
  method RestartAfterLogout(p: AuthProvider) returns (next: AuthProvider)
    modifies p, p.storage
    ensures next.storage == p.storage
    ensures next.user == None && !next.isLoading
  {
    p.Logout();
    next := new AuthProvider(p.storage);
    next.RestoreSession();
  }
}
