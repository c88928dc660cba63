/** The authentication half of the app: the user database file, user
    registration and login against it, the registration form's validation
    chain, and the session flags that decide which auth screen is shown. */
module Auth {
  import opened SessionState

  /** The password digest function (SHA-256 hex digest of the encoded
      password in the program), taken as a parameter: deterministic, and
      nothing else is assumed about it. */
  type Hasher = string -> string

  /** One stored user: the password digest, the email, and the creation
      time copied from the session. */
  datatype UserRecord = UserRecord(password: string, email: string, createdAt: Value)

  type Users = map<string, UserRecord>

  /** The user database file: absent, present but cut short (unpickling
      hits end of file), or holding a whole dictionary. */
  datatype StoreFile = Missing | Truncated | Stored(users: Users)

  /** A (success, message) pair as the auth functions return it. */
  datatype Reply = Reply(ok: bool, message: string)

  /** The file on disk; every mutation rewrites it whole. */
  class UserDb {
    var file: StoreFile

    constructor (file: StoreFile)
      ensures this.file == file
    {
      this.file := file;
    }
  }

  /** Reading the file: a missing or truncated file reads as no users. */
  function LoadUsers(file: StoreFile): (users: Users)
    ensures file.Stored? ==> users == file.users
    ensures !file.Stored? ==> users == map[]
  {
    match file
    case Stored(users) => users
    case _ => map[]
  }

  /** Writing the file replaces it with the whole dictionary, which reads
      back unchanged. */
  method SaveUsers(db: UserDb, users: Users)
    modifies db
    ensures db.file == Stored(users)
    ensures LoadUsers(db.file) == users
  {
    db.file := Stored(users);
  }

  /** Creates an empty database when no file exists; an existing file, even
      a truncated one, is left alone. What the file reads as never changes. */
  method InitializeUserDb(db: UserDb)
    modifies db
    ensures db.file == if old(db.file).Missing? then Stored(map[]) else old(db.file)
    ensures LoadUsers(db.file) == LoadUsers(old(db.file))
  {
    if db.file.Missing? {
      db.file := Stored(map[]);
    }
  }

  /** The creation time a new user gets: the session's current_time, or the
      empty string when the session has none. */
  function CreatedAt(vars: map<string, Value>): Value
  {
    if "current_time" in vars then vars["current_time"] else Str("")
  }

  /** register_user on the loaded dictionary: a taken name is refused and
      the dictionary is returned as it was; a new name is added with the
      digest of its password, and no other entry changes. */
  function Register(users: Users, hash: Hasher, username: string, password: string, email: string, createdAt: Value): (r: (Reply, Users))
    ensures r.0.ok <==> username !in users
    ensures username in users ==> r == (Reply(false, "Username already exists"), users)
    ensures username !in users ==>
      && r.0 == Reply(true, "Registration successful")
      && r.1.Keys == users.Keys + {username}
      && r.1[username] == UserRecord(hash(password), email, createdAt)
      && forall k :: k in users ==> r.1[k] == users[k]
  {
    if username in users then
      (Reply(false, "Username already exists"), users)
    else
      (Reply(true, "Registration successful"), users[username := UserRecord(hash(password), email, createdAt)])
  }

  /** register_user: load, check the name, insert into the loaded
      dictionary, save. A refused registration writes nothing. */
  method RegisterUser(db: UserDb, s: Session, hash: Hasher, username: string, password: string, email: string)
    returns (reply: Reply)
    modifies db
    ensures reply == Register(LoadUsers(old(db.file)), hash, username, password, email, CreatedAt(s.vars)).0
    ensures db.file == if reply.ok
      then Stored(Register(LoadUsers(old(db.file)), hash, username, password, email, CreatedAt(s.vars)).1)
      else old(db.file)
  {
    var users := LoadUsers(db.file);
    if username in users {
      return Reply(false, "Username already exists");
    }
    users := users[username := UserRecord(hash(password), email, CreatedAt(s.vars))];
    SaveUsers(db, users);
    return Reply(true, "Registration successful");
  }

  /** authenticate_user: succeeds exactly when the name is stored with the
      digest of the given password; both kinds of failure give the same
      reply. */
  function AuthenticateUser(users: Users, hash: Hasher, username: string, password: string): (r: Reply)
    ensures r.ok <==> username in users && users[username].password == hash(password)
    ensures r.ok ==> r.message == "Authentication successful"
    ensures !r.ok ==> r == Reply(false, "Invalid username or password")
  {
    if username !in users then
      Reply(false, "Invalid username or password")
    else if users[username].password != hash(password) then
      Reply(false, "Invalid username or password")
    else
      Reply(true, "Authentication successful")
  }

  /** An unknown name and a wrong password cannot be told apart. */
  lemma FailuresAreIndistinguishable(users: Users, hash: Hasher, known: string, wrong: string, unknown: string, any: string)
    requires known in users && users[known].password != hash(wrong)
    requires unknown !in users
    ensures AuthenticateUser(users, hash, known, wrong) == AuthenticateUser(users, hash, unknown, any)
    ensures AuthenticateUser(users, hash, known, wrong) == Reply(false, "Invalid username or password")
  {
  }

  /** A user who has just registered can log in with the same password, and
      registration changes no one else's login. */
  lemma RegisterThenAuthenticate(users: Users, hash: Hasher, username: string, password: string, email: string, createdAt: Value)
    requires username !in users
    ensures Register(users, hash, username, password, email, createdAt).0.ok
    ensures AuthenticateUser(Register(users, hash, username, password, email, createdAt).1, hash, username, password)
      == Reply(true, "Authentication successful")
    ensures forall other, p :: other != username ==>
      AuthenticateUser(Register(users, hash, username, password, email, createdAt).1, hash, other, p)
        == AuthenticateUser(users, hash, other, p)
  {
  }

  /** The outcome of a form's checks. */
  datatype Check = Pass | Fail(message: string)

  /** What registration accepts, stated as one condition. Non-emptiness of
      every field follows from the other conditions. */
  predicate RegistrationAcceptable(username: string, email: string, password: string, confirm: string)
  {
    |username| >= 4 && |password| >= 6 && password == confirm && '@' in email && '.' in email
  }

  /** The register form's checks, in order; the first one that fails
      decides the message. */
  function ValidateRegistration(username: string, email: string, password: string, confirm: string): (r: Check)
    ensures r == Pass <==> RegistrationAcceptable(username, email, password, confirm)
    ensures r == Fail("Please fill in all fields") <==>
      username == "" || email == "" || password == "" || confirm == ""
    ensures r == Fail("Username must be at least 4 characters") <==>
      username != "" && email != "" && password != "" && confirm != "" && |username| < 4
    ensures r == Fail("Password must be at least 6 characters") <==>
      username != "" && email != "" && password != "" && confirm != "" && |username| >= 4 && |password| < 6
    ensures r == Fail("Passwords do not match") <==>
      username != "" && email != "" && password != "" && confirm != "" && |username| >= 4 && |password| >= 6
      && password != confirm
    ensures r == Fail("Please enter a valid email") <==>
      username != "" && email != "" && password != "" && confirm != "" && |username| >= 4 && |password| >= 6
      && password == confirm && ('@' !in email || '.' !in email)
  {
    if username == "" || email == "" || password == "" || confirm == "" then
      Fail("Please fill in all fields")
    else if |username| < 4 then
      Fail("Username must be at least 4 characters")
    else if |password| < 6 then
      Fail("Password must be at least 6 characters")
    else if password != confirm then
      Fail("Passwords do not match")
    else if '@' !in email || '.' !in email then
      Fail("Please enter a valid email")
    else
      Pass
  }

  /** The keys initialize_auth_state sets, with their defaults. */
  const AuthDefaults: map<string, Value> := map[
    "logged_in" := Bool(false),
    "username" := NoneValue,
    "show_login" := Bool(true),
    "show_register" := Bool(false)]

  /** initialize_auth_state on the session dictionary: every auth key is
      present afterwards, keys already set keep their values, and only
      missing auth keys are added, with their defaults. */
  function WithAuthDefaults(vars: map<string, Value>): (r: map<string, Value>)
    ensures r.Keys == vars.Keys + AuthDefaults.Keys
    ensures forall k :: k in vars ==> r[k] == vars[k]
    ensures forall k :: k in AuthDefaults && k !in vars ==> r[k] == AuthDefaults[k]
  {
    AuthDefaults + vars
  }

  /** Initializing twice is the same as initializing once. */
  lemma AuthDefaultsIdempotent(vars: map<string, Value>)
    ensures WithAuthDefaults(WithAuthDefaults(vars)) == WithAuthDefaults(vars)
  {
  }

  /** One step of initialize_auth_state: set key to d unless it is set. */
  function SetDefault(vars: map<string, Value>, key: string, d: Value): map<string, Value>
  {
    if key in vars then vars else vars[key := d]
  }

  /** Setting the four defaults one after the other gives WithAuthDefaults. */
  lemma SetDefaultsInTurn(vars: map<string, Value>)
    ensures SetDefault(SetDefault(SetDefault(SetDefault(vars,
      "logged_in", Bool(false)), "username", NoneValue), "show_login", Bool(true)), "show_register", Bool(false))
      == WithAuthDefaults(vars)
  {
  }

  /** initialize_auth_state, one key at a time. */
  method InitializeAuthState(s: Session)
    modifies s
    ensures s.vars == WithAuthDefaults(old(s.vars))
  {
    ghost var v0 := s.vars;
    if "logged_in" !in s.vars {
      s.vars := s.vars["logged_in" := Bool(false)];
    }
    ghost var v1 := s.vars;
    assert v1 == SetDefault(v0, "logged_in", Bool(false));
    if "username" !in s.vars {
      s.vars := s.vars["username" := NoneValue];
    }
    ghost var v2 := s.vars;
    assert v2 == SetDefault(v1, "username", NoneValue);
    if "show_login" !in s.vars {
      s.vars := s.vars["show_login" := Bool(true)];
    }
    ghost var v3 := s.vars;
    assert v3 == SetDefault(v2, "show_login", Bool(true));
    if "show_register" !in s.vars {
      s.vars := s.vars["show_register" := Bool(false)];
    }
    assert s.vars == SetDefault(v3, "show_register", Bool(false));
    SetDefaultsInTurn(v0);
  }

  /** logout on the session dictionary: logged_in becomes false when it is
      set (it is not created otherwise), the user entry is removed, and
      every other key (username and the screen flags among them) keeps
      its value. */
  function LoggedOut(vars: map<string, Value>): (r: map<string, Value>)
    ensures r.Keys == vars.Keys - {"user"}
    ensures "logged_in" in vars ==> r["logged_in"] == Bool(false)
    ensures forall k :: k in r && k != "logged_in" ==> r[k] == vars[k]
    ensures !Truthy(GetOrNone(r, "logged_in"))
  {
    var flagged := if "logged_in" in vars then vars["logged_in" := Bool(false)] else vars;
    flagged - {"user"}
  }

  /** Logging out twice is the same as logging out once. */
  lemma LogoutIdempotent(vars: map<string, Value>)
    ensures LoggedOut(LoggedOut(vars)) == LoggedOut(vars)
  {
  }

  /** logout, one key at a time (the rerun that follows is not modelled). */
  method Logout(s: Session)
    modifies s
    ensures s.vars == LoggedOut(old(s.vars))
  {
    if "logged_in" in s.vars {
      s.vars := s.vars["logged_in" := Bool(false)];
    }
    if "user" in s.vars {
      s.vars := s.vars - {"user"};
    }
  }

  /** What check_authentication lets through: the app itself, the login
      page, the register page, or nothing (the run stops). */
  datatype Screen = MainApp | LoginScreen | RegisterScreen | Blank

  /** The screen the flags select: the app when logged_in is truthy,
      otherwise the login page if show_login is, otherwise the register page
      if show_register is, otherwise nothing. */
  function Gate(vars: map<string, Value>): (screen: Screen)
    ensures screen == MainApp <==> Truthy(GetOrNone(vars, "logged_in"))
    ensures screen == LoginScreen <==>
      !Truthy(GetOrNone(vars, "logged_in")) && Truthy(GetOrNone(vars, "show_login"))
    ensures screen == RegisterScreen <==>
      !Truthy(GetOrNone(vars, "logged_in")) && !Truthy(GetOrNone(vars, "show_login"))
      && Truthy(GetOrNone(vars, "show_register"))
  {
    if Truthy(GetOrNone(vars, "logged_in")) then MainApp
    else if Truthy(GetOrNone(vars, "show_login")) then LoginScreen
    else if Truthy(GetOrNone(vars, "show_register")) then RegisterScreen
    else Blank
  }

  /** A new session is shown the login page. */
  lemma NewSessionShowsLogin()
    ensures Gate(WithAuthDefaults(map[])) == LoginScreen
  {
  }

  /** After logout the app is never shown, whatever else the session
      holds. */
  lemma LogoutLeavesApp(vars: map<string, Value>)
    ensures Gate(WithAuthDefaults(LoggedOut(vars))) != MainApp
  {
  }

  /** check_authentication: initialize the flags and the user database,
      then report which screen the flags select. */
  method CheckAuthentication(s: Session, db: UserDb) returns (screen: Screen)
    modifies s, db
    ensures s.vars == WithAuthDefaults(old(s.vars))
    ensures db.file == if old(db.file).Missing? then Stored(map[]) else old(db.file)
    ensures screen == Gate(s.vars)
  {
    InitializeAuthState(s);
    InitializeUserDb(db);
    if !Truthy(s.vars["logged_in"]) {
      if Truthy(s.vars["show_login"]) {
        screen := LoginScreen;
      } else if Truthy(s.vars["show_register"]) {
        screen := RegisterScreen;
      } else {
        screen := Blank;
      }
    } else {
      screen := MainApp;
    }
  }

  /** The flags after one of the page-switch buttons: the chosen auth
      screen's flag is set, the other cleared, nothing else changes. */
  function WithScreen(vars: map<string, Value>, register: bool): (r: map<string, Value>)
    ensures r.Keys == vars.Keys + {"show_login", "show_register"}
    ensures r["show_login"] == Bool(!register) && r["show_register"] == Bool(register)
    ensures forall k :: k in vars && k != "show_login" && k != "show_register" ==> r[k] == vars[k]
  {
    vars["show_register" := Bool(register)]["show_login" := Bool(!register)]
  }

  /** The screen-switch buttons under the login and register forms. */
  method SwitchScreen(s: Session, register: bool)
    modifies s
    ensures s.vars == WithScreen(old(s.vars), register)
  {
    if register {
      s.vars := s.vars["show_register" := Bool(true)];
      s.vars := s.vars["show_login" := Bool(false)];
    } else {
      s.vars := s.vars["show_login" := Bool(true)];
      s.vars := s.vars["show_register" := Bool(false)];
    }
  }

  /** A submitted login form: both fields are required; on success the
      session is marked logged in as that user. The database is only read. */
  method LoginSubmit(s: Session, db: UserDb, hash: Hasher, username: string, password: string)
    returns (reply: Reply)
    modifies s
    ensures username == "" || password == "" ==>
      reply == Reply(false, "Please enter both username and password")
    ensures username != "" && password != "" ==>
      reply == AuthenticateUser(LoadUsers(db.file), hash, username, password)
    ensures s.vars == if reply.ok
      then old(s.vars)["logged_in" := Bool(true)]["username" := Str(username)]
      else old(s.vars)
  {
    if username == "" || password == "" {
      return Reply(false, "Please enter both username and password");
    }
    reply := AuthenticateUser(LoadUsers(db.file), hash, username, password);
    if reply.ok {
      s.vars := s.vars["logged_in" := Bool(true)];
      s.vars := s.vars["username" := Str(username)];
    }
  }

  /** A submitted register form: the checks run first and a failing one
      ends the submission with its message, touching nothing; otherwise
      register_user runs, and on success the login page is selected. */
  method RegisterSubmit(db: UserDb, s: Session, hash: Hasher, username: string, email: string, password: string, confirm: string)
    returns (reply: Reply)
    modifies db, s
    ensures ValidateRegistration(username, email, password, confirm).Fail? ==>
      && reply == Reply(false, ValidateRegistration(username, email, password, confirm).message)
      && db.file == old(db.file)
      && s.vars == old(s.vars)
    ensures ValidateRegistration(username, email, password, confirm) == Pass ==>
      var (expected, after) := Register(LoadUsers(old(db.file)), hash, username, password, email, CreatedAt(old(s.vars)));
      && reply == expected
      && db.file == (if reply.ok then Stored(after) else old(db.file))
      && s.vars == (if reply.ok then WithScreen(old(s.vars), false) else old(s.vars))
  {
    var check := ValidateRegistration(username, email, password, confirm);
    if check.Fail? {
      return Reply(false, check.message);
    }
    reply := RegisterUser(db, s, hash, username, password, email);
    if reply.ok {
      SwitchScreen(s, false);
    }
  }
}
