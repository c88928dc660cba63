# Soil Quality Predictor: credential store, session flags and prediction rule

This project models the logic under the Streamlit pages of the Soil Quality
& Industrial Use Prediction app.

- **User database.** A pickled dictionary from username to a record of
  password digest, email and creation time. It is loaded whole on every
  access and rewritten whole on every change.
- **Auth operations.** Registration with a uniqueness check, login with a
  digest comparison, and the profile page's change-password form. The
  register form checks its fields in a fixed order before it calls
  registration.
- **Session flags.** `initialize_auth_state`, `logout` and
  `check_authentication` work on the keys `logged_in`, `username`,
  `show_login`, `show_register` and `user`. Together they decide which
  screen is shown.
- **Prediction rule.** It reads a registry of up to four loaded classifiers
  (two families, Random Forest and Logistic Regression). Each classifier's
  class is mapped through a static label table. The result is the pair
  `("Model not loaded", "Model not loaded")` unless both classifiers of the
  family are loaded.
- **Prediction history.** An append-only list kept in the session.

Modules:

- `Prediction` (prediction.dfy): feature record, registry, `load_models`,
  texture encoding, label tables, the prediction rule.
- `SessionState` (session.dfy): the session dictionary as a `Session`
  object whose `vars` map the methods update, and Python truthiness of
  its values.
- `Auth` (auth.dfy): the database file, registration, authentication,
  registration checks, the auth flags and the login/register form submits.
- `App` (app.dfy): the Predict button with its history append, the
  change-password form, and lemmas about runs of actions.

Opaque parts become parameters:

- The password digest (SHA-256 hex digest in the program) is a parameter
  `hash: string -> string`. It is deterministic, and nothing else is
  assumed about it.
- Each classifier is a value of type `Features -> int`.
- The database file is a value: `Missing`, `Truncated` (unpickling hits
  end of file) or `Stored(users)`.
- The model files on disk are a map from file name to classifier.
- Timestamps are string parameters.
- Soil readings are `real` and pass through unchanged.

Behaviour of the code worth noting:

- `logout` only sets `logged_in` to false (if it is set) and removes
  `user`. It does not reset `username`, `show_login` or `show_register`.
- The change-password form does not check the new password's length.
  Only the registration form checks lengths.
- `created_at` is the session's `current_time` value, or `""` when the
  session has none. The model stores that session value as it is.
- Logistic Regression history records carry the model name
  `"Logistic Regression"`, with a space. Random Forest records carry
  `"RandomForest"`.

## Model

| member | source | states |
|---|---|---|
| `Prediction.LoadModels` | app.py:37-55 | the registry holds key k exactly when k's model file exists, with that file's classifier; its keys are among the four fixed names; a family is available iff both its files exist |
| `Prediction.TextureEncodingIsInjective` | app.py:121-123 | the texture encoding is one-to-one, every option is offered, option i is encoded as i, so the range is exactly 0..3; option names are distinct |
| `Prediction.Label` | app.py:137 | a class in the table gets its entry, any other integer gets "Unknown" (dict.get with a default) |
| `Prediction.SoilQualityLabels` | app.py:60 | 0, 1, 2 map to Poor, Moderate, Good, every other integer to "Unknown"; the three classes get distinct labels |
| `Prediction.IndustrialUseLabels` | app.py:61 | 0, 1, 2 map to Agriculture, Construction, Landscaping, every other integer to "Unknown"; the three classes get distinct labels |
| `Prediction.FeaturesOf` | app.py:130-132 | the texture field of the feature record is the chosen texture's code and always lies within 0..3 |
| `Prediction.Predict` | app.py:130-139 | either label is "Model not loaded" iff the family is not fully loaded, and then both are; otherwise each label comes from its table or is "Unknown" |
| `Prediction.PredictWhenLoaded` | app.py:134-137 | with both classifiers loaded the labels are those of the classes the two classifiers return for the record |
| `Prediction.PredictReadsOnlyItsFamily` | app.py:183-188 | registries that agree on the family's two keys give the same prediction, so the other family's models never matter |
| `Prediction.PredictSandyLoamExample` | app.py:121-139 | Sandy Loam with readings 20, 2.5, 7, 1 and Random Forest classes 2 and 0 gives ("Good", "Agriculture") |
| `Auth.LoadUsers` | auth.py:21-27 | a missing or truncated file reads as the empty dictionary, a stored one as its contents |
| `Auth.SaveUsers` | auth.py:29-32 | the file is replaced by the whole dictionary, which reads back unchanged |
| `Auth.InitializeUserDb` | auth.py:11-15 | a missing file becomes an empty dictionary, an existing one is untouched, and what the file reads as never changes |
| `Auth.Register` | auth.py:34-50 | succeeds iff the name is new; a taken name gives "Username already exists" and the same dictionary; a new name adds exactly that key with the password's digest, the email and the creation time, every other entry unchanged |
| `Auth.RegisterUser` | auth.py:34-50 | load, check, insert, save: the reply is that of Register on the loaded file, the file is rewritten only on success, and a refused registration writes nothing |
| `Auth.AuthenticateUser` | auth.py:52-62 | succeeds iff the name is stored with the digest of the given password; every failure is exactly (False, "Invalid username or password") |
| `Auth.FailuresAreIndistinguishable` | auth.py:56-60 | an unknown name and a wrong password for a known name give the same reply |
| `Auth.RegisterThenAuthenticate` | auth.py:43-62 | after registering a new name, logging in with that password succeeds and every other name's login answer is unchanged |
| `Auth.ValidateRegistration` | auth.py:112-131 | passes iff username has at least 4 characters, password at least 6, password equals confirmation and email contains "@" and "."; each failure message holds exactly when its check is the first to fail, in the order empty fields, username length, password length, mismatch, email |
| `Auth.WithAuthDefaults` | auth.py:152-164 | afterwards all four auth keys are present; keys already set keep their values; missing ones get False, None, True, False; no other key is added |
| `Auth.AuthDefaultsIdempotent` | auth.py:152-164 | initializing the auth flags twice is the same as once |
| `Auth.SetDefaultsInTurn` | auth.py:154-164 | the four conditional assignments in turn give the same dictionary as adding the defaults for missing keys |
| `Auth.InitializeAuthState` | auth.py:152-164 | the session dictionary afterwards is WithAuthDefaults of the one before |
| `Auth.LoggedOut` | auth.py:173-177 | `user` is removed, `logged_in` becomes False if it was set and is not created otherwise, every other key keeps its value, and logged_in is no longer truthy |
| `Auth.LogoutIdempotent` | auth.py:173-177 | logging out twice is the same as once |
| `Auth.Logout` | auth.py:173-179 | the session dictionary afterwards is LoggedOut of the one before |
| `Auth.Gate` | auth.py:186-193 | the app is shown iff logged_in is truthy; otherwise the login page iff show_login is truthy, otherwise the register page iff show_register is |
| `Auth.NewSessionShowsLogin` | auth.py:152-191 | an empty session, once initialized, is shown the login page |
| `Auth.LogoutLeavesApp` | auth.py:173-191 | after logout and re-initialization the app is never shown |
| `Auth.CheckAuthentication` | auth.py:181-193 | initializes the flags and the database file, then returns the screen the flags select |
| `Auth.WithScreen` | auth.py:92-95 | the chosen screen's flag is set, the other cleared, no other key changes |
| `Auth.SwitchScreen` | auth.py:144-149 | the session dictionary afterwards is WithScreen of the one before |
| `Auth.LoginSubmit` | auth.py:74-88 | an empty field gives "Please enter both username and password"; otherwise the reply is AuthenticateUser on the loaded file; only success changes the session, setting logged_in and username |
| `Auth.RegisterSubmit` | auth.py:112-142 | a failing check returns its message and changes neither file nor session; otherwise the reply and the file are those of register_user, and on success the login screen is selected |
| `App.WithPrediction` | app.py:146-159 | the history is created if absent and gains exactly the new record at its end; its length grows by one; earlier records and all other keys are unchanged |
| `App.WithPredictions` | app.py:195-208 | after any run of predictions the history is the old history followed by the new records in order; a non-empty run adds only the history key, and no other key changes its value |
| `App.PredictAction` | app.py:142-159 | returns the prediction for the form's inputs and appends one record carrying the timestamp, the family name, the texture name, the readings and the two labels |
| `App.ChangePassword` | app.py:313-332 | succeeds iff all fields are filled, new equals confirmation, the session user is stored and the current password's digest matches; each failure message holds exactly when its check is the first to fail; failure leaves the dictionary unchanged; success changes only that user's digest, to the new password's, keeping email, creation time and all other users |
| `App.ChangePasswordThenAuthenticate` | app.py:326-332 | after a successful change the new password logs in, the old one does iff it has the same digest, and no other user's login changes |
| `App.ChangePasswordSubmit` | app.py:313-332 | the reply is ChangePassword's on the loaded file and the session's username; the file is rewritten only on success |
| `App.UsersAreNeverDeleted` | app.py:319-332 | over any run of registrations and password changes no user is deleted and no email or creation time changes, and every stored name was there before or was registered |

## Left out

- Rendering, CSS, the sidebar, `st.rerun` and `st.stop`: presentation only. `check_authentication` returns the selected screen instead of rendering it and stopping.
- The Home, About Us and Resources pages: static text.
- Pickle I/O: the database file is a value with the one rule "missing or truncated reads as empty". An unpickling error other than end of file, and unreadable model files, raise in the program and are not modelled.
- SHA-256 itself: the digest is an arbitrary deterministic function. The model therefore does not state that different passwords get different digests.
- The classifiers and the pandas DataFrame around the feature record: foreign code, taken as functions to `int`. An exception raised inside a classifier is not modelled.
- Slider and number-input ranges and steps: enforced by the widgets. The readings pass through unchanged.
- The profile page's history table and CSV download (`to_csv`, base64): library formatting.
- Concurrent sessions writing the same database file: the model has one writer.
- `App.PredictAction`: requires that `prediction_history`, when set, holds a list. This holds because no other code writes that key.
