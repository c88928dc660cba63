/** The actions of the app's pages that change state: the Predict button of
    both prediction pages, which appends to the session's prediction
    history, and the profile page's change-password form, which rewrites a
    user's digest in the database file. */
module App {
  import opened Prediction
  import opened SessionState
  import opened Auth

  const HistoryKey: string := "prediction_history"

  /** The history key, when set, holds a list of records; no other code
      writes it. */
  predicate HistoryTyped(vars: map<string, Value>)
  {
    HistoryKey in vars ==> vars[HistoryKey].History?
  }

  /** The history as the profile page reads it: empty when never set. */
  function HistoryOf(vars: map<string, Value>): seq<PredictionRecord>
  {
    if HistoryKey in vars && vars[HistoryKey].History? then vars[HistoryKey].entries else []
  }

  /** One Predict click on the session dictionary: the history gains exactly
      the new record at its end, earlier records stay as they were, and no
      other key changes. */
  function WithPrediction(vars: map<string, Value>, rec: PredictionRecord): (r: map<string, Value>)
    requires HistoryTyped(vars)
    ensures HistoryTyped(r)
    ensures HistoryOf(r) == HistoryOf(vars) + [rec]
    ensures |HistoryOf(r)| == |HistoryOf(vars)| + 1
    ensures r.Keys == vars.Keys + {HistoryKey}
    ensures forall k :: k in vars && k != HistoryKey ==> r[k] == vars[k]
  {
    var history := if HistoryKey in vars then vars[HistoryKey].entries else [];
    vars[HistoryKey := History(history + [rec])]
  }

  /** A run of Predict clicks, oldest first. The history is append-only:
      afterwards it is the old history followed by the new records in click
      order; the history key is the only key a non-empty run adds, and no
      other key changes its value. */
  function WithPredictions(vars: map<string, Value>, recs: seq<PredictionRecord>): (r: map<string, Value>)
    requires HistoryTyped(vars)
    ensures HistoryTyped(r)
    ensures HistoryOf(r) == HistoryOf(vars) + recs
    ensures r.Keys == vars.Keys + (if recs == [] then {} else {HistoryKey})
    ensures forall k :: k in vars && k != HistoryKey ==> r[k] == vars[k]
    decreases |recs|
  {
    if recs == [] then vars
    else
      assert HistoryOf(vars) + recs == HistoryOf(vars) + [recs[0]] + recs[1..];
      WithPredictions(WithPrediction(vars, recs[0]), recs[1..])
  }

  /** The Predict button on either prediction page: predict from the form's
      inputs, create the history if missing, append one record carrying
      the family's name, the chosen texture and the two labels. */
  method PredictAction(
    s: Session, models: Registry, family: Family, texture: Texture,
    moisture: real, organicMatter: real, ph: real, conductivity: real, timestamp: string)
    returns (soilQuality: string, industrialUse: string)
    requires HistoryTyped(s.vars)
    modifies s
    ensures (soilQuality, industrialUse) == Predict(models, family, FeaturesOf(texture, moisture, organicMatter, ph, conductivity))
    ensures s.vars == WithPrediction(old(s.vars), PredictionRecord(
      timestamp, FamilyName(family), texture.Name(), moisture, organicMatter, ph, conductivity, soilQuality, industrialUse))
  {
    var labels := Predict(models, family, FeaturesOf(texture, moisture, organicMatter, ph, conductivity));
    soilQuality, industrialUse := labels.0, labels.1;
    if HistoryKey !in s.vars {
      s.vars := s.vars[HistoryKey := History([])];
    }
    var rec := PredictionRecord(
      timestamp, FamilyName(family), texture.Name(), moisture, organicMatter, ph, conductivity, soilQuality, industrialUse);
    s.vars := s.vars[HistoryKey := History(s.vars[HistoryKey].entries + [rec])];
  }

  /** The change-password form on the loaded dictionary, with the session's
      username (None when unset). Its checks run in order: all fields
      filled, new password equals confirmation, user known, current password's
      digest matches. Any failure leaves the dictionary as it was; success
      changes only that user's digest, to the digest of the new password. */
  function ChangePassword(users: Users, hash: Hasher, sessionUser: Value, current: string, newPassword: string, confirm: string)
    : (r: (Reply, Users))
    ensures r.0.ok <==>
      current != "" && newPassword != "" && confirm != "" && newPassword == confirm
      && sessionUser.Str? && sessionUser.s in users && users[sessionUser.s].password == hash(current)
    ensures !r.0.ok ==> r.1 == users
    ensures r.0 == Reply(false, "Please fill in all fields.") <==> current == "" || newPassword == "" || confirm == ""
    ensures r.0 == Reply(false, "New passwords do not match.") <==>
      current != "" && newPassword != "" && confirm != "" && newPassword != confirm
    ensures r.0 == Reply(false, "User not found. Please login again.") <==>
      current != "" && newPassword != "" && confirm != "" && newPassword == confirm
      && !(sessionUser.Str? && sessionUser.s in users)
    ensures r.0 == Reply(false, "Current password is incorrect.") <==>
      current != "" && newPassword != "" && confirm != "" && newPassword == confirm
      && sessionUser.Str? && sessionUser.s in users && users[sessionUser.s].password != hash(current)
    ensures r.0.ok ==>
      && r.0.message == "Password updated successfully!"
      && r.1.Keys == users.Keys
      && r.1[sessionUser.s].password == hash(newPassword)
      && r.1[sessionUser.s].email == users[sessionUser.s].email
      && r.1[sessionUser.s].createdAt == users[sessionUser.s].createdAt
      && forall k :: k in users && k != sessionUser.s ==> r.1[k] == users[k]
  {
    if current == "" || newPassword == "" || confirm == "" then
      (Reply(false, "Please fill in all fields."), users)
    else if newPassword != confirm then
      (Reply(false, "New passwords do not match."), users)
    else if !(sessionUser.Str? && sessionUser.s in users) then
      (Reply(false, "User not found. Please login again."), users)
    else if users[sessionUser.s].password != hash(current) then
      (Reply(false, "Current password is incorrect."), users)
    else
      var name := sessionUser.s;
      (Reply(true, "Password updated successfully!"), users[name := users[name].(password := hash(newPassword))])
  }

  /** After a successful change the user logs in with the new password, the
      old one works only if it has the same digest, and no other user's
      login changes. */
  lemma ChangePasswordThenAuthenticate(users: Users, hash: Hasher, username: string, current: string, newPassword: string, confirm: string)
    requires ChangePassword(users, hash, Str(username), current, newPassword, confirm).0.ok
    ensures AuthenticateUser(ChangePassword(users, hash, Str(username), current, newPassword, confirm).1, hash, username, newPassword).ok
    ensures AuthenticateUser(ChangePassword(users, hash, Str(username), current, newPassword, confirm).1, hash, username, current).ok
      <==> hash(current) == hash(newPassword)
    ensures forall other, p :: other != username ==>
      AuthenticateUser(ChangePassword(users, hash, Str(username), current, newPassword, confirm).1, hash, other, p)
        == AuthenticateUser(users, hash, other, p)
  {
  }

  /** The change-password form as the page runs it: the field checks come
      first, then the file is loaded, the user looked up, the current
      password checked, the digest overwritten in the loaded dictionary and
      the file saved. Nothing is written unless the change succeeds. */
  method ChangePasswordSubmit(db: UserDb, s: Session, hash: Hasher, current: string, newPassword: string, confirm: string)
    returns (reply: Reply)
    modifies db
    ensures reply == ChangePassword(LoadUsers(old(db.file)), hash, GetOrNone(s.vars, "username"), current, newPassword, confirm).0
    ensures db.file == if reply.ok
      then Stored(ChangePassword(LoadUsers(old(db.file)), hash, GetOrNone(s.vars, "username"), current, newPassword, confirm).1)
      else old(db.file)
  {
    if current == "" || newPassword == "" || confirm == "" {
      return Reply(false, "Please fill in all fields.");
    } else if newPassword != confirm {
      return Reply(false, "New passwords do not match.");
    }
    var users := LoadUsers(db.file);
    var username := GetOrNone(s.vars, "username");
    if !(username.Str? && username.s in users) {
      return Reply(false, "User not found. Please login again.");
    }
    if users[username.s].password != hash(current) {
      return Reply(false, "Current password is incorrect.");
    }
    users := users[username.s := users[username.s].(password := hash(newPassword))];
    SaveUsers(db, users);
    return Reply(true, "Password updated successfully!");
  }

  /** A write to the user database: a registration or a password change. */
  datatype StoreOp =
    | RegisterOp(username: string, password: string, email: string, createdAt: Value)
    | ChangePasswordOp(sessionUser: Value, current: string, newPassword: string, confirm: string)

  /** The dictionary after one write, successful or not. */
  function Apply(users: Users, hash: Hasher, op: StoreOp): Users
  {
    match op
    case RegisterOp(u, p, e, t) => Register(users, hash, u, p, e, t).1
    case ChangePasswordOp(su, c, n, cf) => ChangePassword(users, hash, su, c, n, cf).1
  }

  /** The dictionary after a run of writes, oldest first. */
  function ApplyAll(users: Users, hash: Hasher, ops: seq<StoreOp>): Users
    decreases |ops|
  {
    if ops == [] then users else ApplyAll(Apply(users, hash, ops[0]), hash, ops[1..])
  }

  /** The names registered by a run of writes. */
  function RegisteredNames(ops: seq<StoreOp>): set<string>
  {
    set i | 0 <= i < |ops| && ops[i].RegisterOp? :: ops[i].username
  }

  /** No exposed operation deletes a user or changes an email or creation
      time, and a name appears in the database only if it was there before
      or was registered. */
  lemma {:induction false} UsersAreNeverDeleted(users: Users, hash: Hasher, ops: seq<StoreOp>)
    ensures users.Keys <= ApplyAll(users, hash, ops).Keys
    ensures ApplyAll(users, hash, ops).Keys <= users.Keys + RegisteredNames(ops)
    ensures forall k :: k in users ==>
      && ApplyAll(users, hash, ops)[k].email == users[k].email
      && ApplyAll(users, hash, ops)[k].createdAt == users[k].createdAt
    decreases |ops|
  {
    if ops != [] {
      var next := Apply(users, hash, ops[0]);
      UsersAreNeverDeleted(next, hash, ops[1..]);
      assert ApplyAll(users, hash, ops) == ApplyAll(next, hash, ops[1..]);
      assert forall k :: k in users ==> k in next && next[k].email == users[k].email && next[k].createdAt == users[k].createdAt;
      assert next.Keys <= users.Keys + (if ops[0].RegisterOp? then {ops[0].username} else {});
      assert RegisteredNames(ops[1..]) <= RegisteredNames(ops) by {
        forall n | n in RegisteredNames(ops[1..]) ensures n in RegisteredNames(ops) {
          var i :| 0 <= i < |ops[1..]| && ops[1..][i].RegisterOp? && ops[1..][i].username == n;
          assert ops[i + 1] == ops[1..][i];
        }
      }
      assert ops[0].RegisterOp? ==> ops[0].username in RegisteredNames(ops) by {
        if ops[0].RegisterOp? {
          assert 0 <= 0 < |ops| && ops[0].RegisterOp?;
        }
      }
    }
  }
}
