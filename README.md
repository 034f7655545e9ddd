# primitive ftpd server control, modelled in Dafny

This project models three small pieces of the server-control layer of the
primitive ftpd Android app, which serves the device's files over FTP and SFTP:

- **Preferences** (`LoadPrefsUtil`, file `load_prefs.dfy`). The app's
  key/value preference store is a class whose fields are the stored strings
  and booleans. The getters read a key and fall back to a fixed default. The
  port loader parses the stored text and falls back to the protocol default.
  When the port is outside 1024 < p < 64000 it shows the "port invalid"
  notice and writes the default's text back under the same key. Reset stores
  both default port texts. The Java `int` conversions the loader depends on,
  `Integer.valueOf` and `String.valueOf`, are in `java_numbers.dfy`.
- **Server start and stop** (`ServicesStartStopUtil`, file `services.dfy`).
  Starting, with a configuration, a key-fingerprint provider and an optional
  activity, produces a sequence of Android effects as events: a toast, a
  launch of the main activity, the key-generation dialog, service starts and
  service stops. Intents are values with a component class name and a map of
  extras. The running-state scan is a loop over the class names of the
  running services.
- **FTP file nodes** (`FtpFile`, file `ftp_file.dfy`). A node is an
  immutable value that pairs a native file with the session's user. Owner
  and group are both the user's name, and every node created from a node
  carries the same user.

In the code, a missing SFTP key, when an activity is present, clears
`continueServerStart`, which also suppresses a requested FTP start. `StartServersTrace`, `FtpStartAttempted` and `StartGenKeyDialog`
state this coupling.

A start call that throws is caught. The handler builds a toast but never
calls `show()` on it, so nothing is shown. The model records the attempt on
the `StartService` event with `raised` set. `StartWithPasswordShowsNoNotice`
and `FtpStartAttempted` show that a throwing SFTP start shows no notice and
does not prevent the FTP start.

Inputs standing in for code that is not part of this model:

- the selector's answers `startFtp`, `startSftp` and `isPasswordMandatory`
  are the three fields of `ServerToStart`;
- whether the activity has a key is the field `Activity.keyPresent`;
- which start calls throw is the parameter `failing`, a set of class names;
- `ServerToStart.byXmlVal` and `Theme.byXmlVal` are function parameters,
  and the texts of `ALL` and `DARK` are string parameters;
- the running services are a list of class names.

## Model

| member | source | states |
|---|---|---|
| `JavaNumbers.ParseInt` | primitiveFTPd/src/org/primftpd/prefs/LoadPrefsUtil.java:128-132 | `Integer.valueOf`: a text parses exactly when, after an optional leading '-' or '+', it is a non-empty run of decimal digits whose signed value fits in a Java `int`, and then it yields that signed value |
| `JavaNumbers.DecimalString` | primitiveFTPd/src/org/primftpd/prefs/LoadPrefsUtil.java:28-32 | `String.valueOf(int)`, the text form of the default ports; it is never empty |
| `JavaNumbers.NatStringDigits` | primitiveFTPd/src/org/primftpd/prefs/LoadPrefsUtil.java:28-32 | the printed digits of a natural number are digits that denote that number |
| `JavaNumbers.ParseDecimalString` | primitiveFTPd/src/org/primftpd/prefs/LoadPrefsUtil.java:28-32 | round trip: parsing the printed text of any `int` returns that `int` |
| `LoadPrefs.PreferenceStore.GetString` | primitiveFTPd/src/org/primftpd/prefs/LoadPrefsUtil.java:125-127 | a present key reads as its stored text, an absent one as the default |
| `LoadPrefs.PreferenceStore.GetStringOrNull` | primitiveFTPd/src/org/primftpd/prefs/LoadPrefsUtil.java:47-51 | with a null default: present exactly when the key is stored, then the stored text |
| `LoadPrefs.PreferenceStore.GetBoolean` | primitiveFTPd/src/org/primftpd/prefs/LoadPrefsUtil.java:60-71 | a present key reads as its stored flag, an absent one as the default |
| `LoadPrefs.PreferenceStore.PutString` | primitiveFTPd/src/org/primftpd/prefs/LoadPrefsUtil.java:142-146 | an editor write and commit: only that key changes, to the given text |
| `LoadPrefs.PreferenceStore.constructor` | primitiveFTPd/src/org/primftpd/prefs/LoadPrefsUtil.java:37-39 | a store holding exactly the given entries |
| `LoadPrefs.UserName` | primitiveFTPd/src/org/primftpd/prefs/LoadPrefsUtil.java:41-45 | the stored user name, or "user" when none is stored |
| `LoadPrefs.Password` | primitiveFTPd/src/org/primftpd/prefs/LoadPrefsUtil.java:47-51 | null exactly when no password is stored, otherwise the stored text |
| `LoadPrefs.StartDirectory` | primitiveFTPd/src/org/primftpd/prefs/LoadPrefsUtil.java:53-58 | the home directory exactly when no path is stored, otherwise the stored path |
| `LoadPrefs.Announce` | primitiveFTPd/src/org/primftpd/prefs/LoadPrefsUtil.java:60-65 | on only when stored as on; off by default |
| `LoadPrefs.Wakelock` | primitiveFTPd/src/org/primftpd/prefs/LoadPrefsUtil.java:67-71 | off only when stored as off; on by default |
| `LoadPrefs.WhichServerToStart` | primitiveFTPd/src/org/primftpd/prefs/LoadPrefsUtil.java:73-78 | the selector for the stored text, or ALL when none is stored |
| `LoadPrefs.Theme` | primitiveFTPd/src/org/primftpd/prefs/LoadPrefsUtil.java:80-85 | the theme for the stored text, or DARK when none is stored |
| `LoadPrefs.ValidatePort` | primitiveFTPd/src/org/primftpd/prefs/LoadPrefsUtil.java:156-161 | valid ports lie in 1025..63999; 1024 and 64000 and everything beyond are rejected |
| `LoadPrefs.LoadPort` | primitiveFTPd/src/org/primftpd/prefs/LoadPrefsUtil.java:115-150 | a valid stored port is returned with no write; an out-of-range one gives the default, the notice, and the default text under that key only; unparseable text gives the default with no notice and no write when the default is valid; no other key changes |
| `LoadPrefs.LoadPortValid` | primitiveFTPd/src/org/primftpd/prefs/LoadPrefsUtil.java:136-149 | with a valid default the loaded port is always valid |
| `LoadPrefs.LoadPortMissingKey` | primitiveFTPd/src/org/primftpd/prefs/LoadPrefsUtil.java:124-136 | a missing key reads as the default text and yields the default port with no notice and no write |
| `LoadPrefs.LoadPortIdempotent` | primitiveFTPd/src/org/primftpd/prefs/LoadPrefsUtil.java:124-149 | a second load right after the first returns the same port, shows no notice and writes nothing |
| `LoadPrefs.DefaultsSound` | primitiveFTPd/src/org/primftpd/prefs/LoadPrefsUtil.java:28-32 | the defaults 12345 and 1234 are valid ports whose texts are "12345" and "1234" |
| `LoadPrefs.LoadAndValidatePort` | primitiveFTPd/src/org/primftpd/prefs/LoadPrefsUtil.java:115-150 | the port returned, the notice and the store afterwards are those of `LoadPort` on the store before; the flags are untouched |
| `LoadPrefs.LoadAndValidatePortInsecure` | primitiveFTPd/src/org/primftpd/prefs/LoadPrefsUtil.java:87-99 | the FTP port under "portPref" with default 12345, always a valid port |
| `LoadPrefs.LoadAndValidatePortSecure` | primitiveFTPd/src/org/primftpd/prefs/LoadPrefsUtil.java:101-113 | the SFTP port under "securePortPref" with default 1234, always a valid port |
| `LoadPrefs.ResetPorts` | primitiveFTPd/src/org/primftpd/prefs/LoadPrefsUtil.java:163-172 | both port keys hold their default texts and every other entry is as before |
| `LoadPrefs.ResetThenLoad` | primitiveFTPd/src/org/primftpd/prefs/LoadPrefsUtil.java:163-172 | after a reset both ports load as their defaults with no notice and no write |
| `LoadPrefs.ResetPortsToDefault` | primitiveFTPd/src/org/primftpd/prefs/LoadPrefsUtil.java:163-172 | the store afterwards is `ResetPorts` of the store before; the flags are untouched |
| `ServicesStartStop.IsPasswordOk` | primitiveFTPd/src/org/primftpd/util/ServicesStartStopUtil.java:142-147 | true exactly when no password is mandatory, or one is set and has a non-whitespace character |
| `ServicesStartStop.PutPrefsInIntent` | primitiveFTPd/src/org/primftpd/util/ServicesStartStopUtil.java:130-134 | a non-null bean is added under "prefs.bean"; a null bean adds nothing; the component and all other extras are kept |
| `ServicesStartStop.PutKeyFingerprintProviderInIntent` | primitiveFTPd/src/org/primftpd/util/ServicesStartStopUtil.java:136-140 | a non-null provider is added under "fingerprint.provider"; a null one adds nothing; the rest is kept |
| `ServicesStartStop.CreateFtpServiceIntent` | primitiveFTPd/src/org/primftpd/util/ServicesStartStopUtil.java:110-118 | addressed to the FTP service, with exactly the extras that are non-null, which read back as the given bean and provider |
| `ServicesStartStop.CreateSshServiceIntent` | primitiveFTPd/src/org/primftpd/util/ServicesStartStopUtil.java:120-128 | addressed to the SFTP service, with exactly the extras that are non-null, which read back as the given bean and provider |
| `ServicesStartStop.ServiceIntentRoundTrip` | primitiveFTPd/src/org/primftpd/util/ServicesStartStopUtil.java:110-140 | the receiving service reads back exactly the bean and provider the intent was built from |
| `ServicesStartStop.StartServers` | primitiveFTPd/src/org/primftpd/util/ServicesStartStopUtil.java:43-103 | the events emitted are `StartServersTrace` of its inputs |
| `ServicesStartStop.StartWithoutPassword` | primitiveFTPd/src/org/primftpd/util/ServicesStartStopUtil.java:48-59 | a failed password check shows the notice, launches the main activity exactly when there is no activity, and starts nothing |
| `ServicesStartStop.StartWithPasswordShowsNoNotice` | primitiveFTPd/src/org/primftpd/util/ServicesStartStopUtil.java:75-99 | with the password fine, no toast is shown and nothing is launched, even when starts throw |
| `ServicesStartStop.StartGenKeyDialog` | primitiveFTPd/src/org/primftpd/util/ServicesStartStopUtil.java:61-72 | the key dialog appears exactly when the password is fine and SFTP is selected at an activity without a key |
| `ServicesStartStop.SftpStartAttempted` | primitiveFTPd/src/org/primftpd/util/ServicesStartStopUtil.java:62-77 | sshd is started exactly when the password is fine, SFTP is selected and either no activity is there (the key counts as present) or it has a key |
| `ServicesStartStop.FtpStartAttempted` | primitiveFTPd/src/org/primftpd/util/ServicesStartStopUtil.java:87-92 | ftpd is started exactly when the password is fine, FTP is selected and no missing key at an activity cleared the flag; whether the SFTP start threw does not matter |
| `ServicesStartStop.StartOrder` | primitiveFTPd/src/org/primftpd/util/ServicesStartStopUtil.java:61-101 | the SFTP start comes before the FTP start, each service is started at most once, and nothing is stopped |
| `ServicesStartStop.StartIntents` | primitiveFTPd/src/org/primftpd/util/ServicesStartStopUtil.java:75-99 | each start hands over the configuration and the provider and records whether its call threw |
| `ServicesStartStop.StopServers` | primitiveFTPd/src/org/primftpd/util/ServicesStartStopUtil.java:105-108 | always exactly two stops, FTP then SFTP, with intents carrying no extras |
| `ServicesStartStop.CheckServicesRunning` | primitiveFTPd/src/org/primftpd/util/ServicesStartStopUtil.java:149-168 | ftp is set exactly when the FTP service class is in the running list, ssh exactly when the SFTP class is; the early exit does not change this |
| `FtpFiles.FtpFile.CreateFile` | primitiveFTPd/src/org/primftpd/filesystem/FtpFile.java:18-22 | the new node is for the given file and carries the creator's user |
| `FtpFiles.FtpFile.GetOwnerName` | primitiveFTPd/src/org/primftpd/filesystem/FtpFile.java:24-28 | the owner is the session user's name (and `OwnerIsGroupIsUser` states it for every node) |
| `FtpFiles.FtpFile.GetGroupName` | primitiveFTPd/src/org/primftpd/filesystem/FtpFile.java:30-34 | the group is the session user's name, the same as the owner |
| `FtpFiles.FtpFile.GetUser` | primitiveFTPd/src/org/primftpd/filesystem/FtpFile.java:42-44 | the user the node was constructed with (`ConstructorKeepsUser`); a node's user never changes, being part of an immutable value |
| `FtpFiles.OwnerIsGroupIsUser` | primitiveFTPd/src/org/primftpd/filesystem/FtpFile.java:24-34 | owner and group of every node are the name of its user |
| `FtpFiles.DescendantKeepsUser` | primitiveFTPd/src/org/primftpd/filesystem/FtpFile.java:18-34 | any chain of created nodes keeps the first node's user, owner and group, and ends at the last file |
| `FtpFiles.ConstructorKeepsUser` | primitiveFTPd/src/org/primftpd/filesystem/FtpFile.java:10-16 | a node reports the user and the file it was built with; it is an immutable value, so the user never changes |

## Left out

- `FtpFile.move` recurses into itself unconditionally and never returns. It is not modelled.
- `updateWidget` and `updateNonActivityUI` are not modelled. They only send UI, notification and plugin updates, which are Android side effects.
- The one-argument `startServers(Context)` is not modelled. It loads the configuration with `loadPrefs`, which is not part of this model, and passes a fresh provider and no activity.
- `getPrefs`, the Android `PreferenceManager` lookup, is not modelled. It is replaced by the `PreferenceStore` constructor.
- Logging, `Context`, the `Toast` rendering, `startActivity`, the service start and stop calls, `ActivityManager` and the `Intent` internals are not modelled. They appear only as emitted events, or as the input list of running class names.
- `JavaNumbers.ParseInt`: accepts only ASCII digits. Java's parser also accepts other Unicode decimal digits.
- `ServicesStartStop.IsPasswordOk`: blankness uses the usual blank definition, with whitespace restricted to ASCII. `StringUtils` is not part of this model.
- `LoadPrefs.PreferenceStore.GetString`: a key holding a flag reads as absent here; Android throws `ClassCastException`. Likewise `GetBoolean` reads a key holding text as absent, and a string and a flag may coexist under one key, which Android does not allow.
- `ServicesStartStop.CheckServicesRunning`: returns a fresh value. The Java bean is a freshly allocated object with two mutable fields, so a value loses nothing.
- The classes `AndroidFile`, `ServerToStart`, `Theme`, `PrefsBean`, `KeyFingerprintProvider` and `User` are not part of this model. Only the parts the core reads are represented.
- An editor's batching of writes and the durability of `commit` are not modelled. Each write takes effect at once.
