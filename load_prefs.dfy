/**
 * LoadPrefsUtil: typed getters with fixed defaults over the app's key/value
 * preference store, and the port loader that falls back to a protocol
 * default and writes that default back when the stored port is out of range.
 */
module LoadPrefs {
  import opened Wrappers
  import opened JavaNumbers

  const PREF_KEY_USER: string := "userNamePref"
  const PREF_KEY_PASSWORD: string := "passwordPref"
  const PREF_KEY_PORT: string := "portPref"
  const PREF_KEY_SECURE_PORT: string := "securePortPref"
  const PREF_KEY_START_DIR: string := "startDirPref"
  const PREF_KEY_ANNOUNCE: string := "announcePref"
  const PREF_KEY_WAKELOCK: string := "wakelockPref"
  const PREF_KEY_WHICH_SERVER: string := "whichServerToStartPref"
  const PREF_KEY_THEME: string := "themePref"

  const PORT_DEFAULT_VAL: int := 12345
  const PORT_DEFAULT_VAL_STR: string := DecimalString(PORT_DEFAULT_VAL)
  const SECURE_PORT_DEFAULT_VAL: int := 1234
  const SECURE_PORT_DEFAULT_VAL_STR: string := DecimalString(SECURE_PORT_DEFAULT_VAL)

  /**
   * The preference store. Android keeps typed values; the getters here read
   * strings and booleans, so the store holds one map for each.
   */
  class PreferenceStore {
    var strings: map<string, string>
    var booleans: map<string, bool>

    constructor (strings: map<string, string>, booleans: map<string, bool>)
      ensures this.strings == strings && this.booleans == booleans
    {
      this.strings := strings;
      this.booleans := booleans;
    }

    /** `getString(key, defValue)` with a non-null default. */
    function GetString(key: string, defValue: string): (r: string)
      reads this
      ensures key in strings ==> r == strings[key]
      ensures key !in strings ==> r == defValue
    {
      if key in strings then strings[key] else defValue
    }

    /** `getString(key, null)`: `None` when the key is absent. */
    function GetStringOrNull(key: string): (r: Option<string>)
      reads this
      ensures r.Some? <==> key in strings
      ensures r.Some? ==> r.value == strings[key]
    {
      if key in strings then Some(strings[key]) else None
    }

    function GetBoolean(key: string, defValue: bool): (r: bool)
      reads this
      ensures key in booleans ==> r == booleans[key]
      ensures key !in booleans ==> r == defValue
    {
      if key in booleans then booleans[key] else defValue
    }

    /** An editor's `putString` followed by `commit`. */
    method PutString(key: string, value: string)
      modifies this
      ensures strings == old(strings)[key := value]
      ensures booleans == old(booleans)
    {
      strings := strings[key := value];
    }
  }

  /** The start directory: the stored path, or the app's default home directory. */
  datatype StartDir = Path(path: string) | HomeDir

  function UserName(prefs: PreferenceStore): (r: string)
    reads prefs
    ensures PREF_KEY_USER !in prefs.strings ==> r == "user"
    ensures PREF_KEY_USER in prefs.strings ==> r == prefs.strings[PREF_KEY_USER]
  {
    prefs.GetString(PREF_KEY_USER, "user")
  }

  /** No stored password reads as `null`. */
  function Password(prefs: PreferenceStore): (r: Option<string>)
    reads prefs
    ensures r.None? <==> PREF_KEY_PASSWORD !in prefs.strings
    ensures r.Some? ==> r.value == prefs.strings[PREF_KEY_PASSWORD]
  {
    prefs.GetStringOrNull(PREF_KEY_PASSWORD)
  }

  function StartDirectory(prefs: PreferenceStore): (r: StartDir)
    reads prefs
    ensures r == HomeDir <==> PREF_KEY_START_DIR !in prefs.strings
    ensures r.Path? ==> r.path == prefs.strings[PREF_KEY_START_DIR]
  {
    match prefs.GetStringOrNull(PREF_KEY_START_DIR)
    case Some(dir) => Path(dir)
    case None => HomeDir
  }

  /** Announcing is off unless switched on. */
  function Announce(prefs: PreferenceStore): (r: bool)
    reads prefs
    ensures r <==> PREF_KEY_ANNOUNCE in prefs.booleans && prefs.booleans[PREF_KEY_ANNOUNCE]
  {
    prefs.GetBoolean(PREF_KEY_ANNOUNCE, false)
  }

  /** The wake lock is on unless switched off. */
  function Wakelock(prefs: PreferenceStore): (r: bool)
    reads prefs
    ensures !r <==> PREF_KEY_WAKELOCK in prefs.booleans && !prefs.booleans[PREF_KEY_WAKELOCK]
  {
    prefs.GetBoolean(PREF_KEY_WAKELOCK, true)
  }

  /**
   * The server selector. `byXmlVal` is the selector type's lookup from its
   * stored text and `allXml` the text of its ALL value; an absent key selects ALL.
   */
  function WhichServerToStart<S>(prefs: PreferenceStore, byXmlVal: string -> S, allXml: string): (r: S)
    reads prefs
    ensures PREF_KEY_WHICH_SERVER !in prefs.strings ==> r == byXmlVal(allXml)
    ensures PREF_KEY_WHICH_SERVER in prefs.strings ==> r == byXmlVal(prefs.strings[PREF_KEY_WHICH_SERVER])
  {
    byXmlVal(prefs.GetString(PREF_KEY_WHICH_SERVER, allXml))
  }

  /** The theme, looked up like the selector; an absent key selects DARK. */
  function Theme<T>(prefs: PreferenceStore, byXmlVal: string -> T, darkXml: string): (r: T)
    reads prefs
    ensures PREF_KEY_THEME !in prefs.strings ==> r == byXmlVal(darkXml)
    ensures PREF_KEY_THEME in prefs.strings ==> r == byXmlVal(prefs.strings[PREF_KEY_THEME])
  {
    byXmlVal(prefs.GetString(PREF_KEY_THEME, darkXml))
  }

  /** `validatePort`: the open interval from 1024 to 64000. */
  function ValidatePort(port: int): (r: bool)
    ensures r ==> 1025 <= port <= 63999
    ensures !r ==> port <= 1024 || 64000 <= port
  {
    port > 1024 && port < 64000
  }

  /** What loading one port yields: the port, the store afterwards, and whether the "port invalid" notice was shown. */
  datatype PortLoad = PortLoad(port: int, store: map<string, string>, invalidNotice: bool)

  /**
   * The outcome of `loadAndValidatePort` on the string entries of the store:
   * a missing key reads as the default text, an unparseable text leaves the
   * port at its default, and a port outside the valid range is replaced by
   * the default, which is then stored under the same key.
   */
  function LoadPort(strings: map<string, string>, key: string, defaultVal: int, defaultValStr: string): (r: PortLoad)
    // a stored text that parses to a valid port is returned as it is
    ensures key in strings && ParseInt(strings[key]).Some? && ValidatePort(ParseInt(strings[key]).value)
      ==> r == PortLoad(ParseInt(strings[key]).value, strings, false)
    // a stored text that parses to an invalid port is overwritten with the default
    ensures key in strings && ParseInt(strings[key]).Some? && !ValidatePort(ParseInt(strings[key]).value)
      ==> r == PortLoad(defaultVal, strings[key := defaultValStr], true)
    // an unparseable stored text falls back to the default, written back only if the default itself is invalid
    ensures key in strings && ParseInt(strings[key]).None?
      ==> r.port == defaultVal && r.invalidNotice == !ValidatePort(defaultVal)
    ensures key in strings && ParseInt(strings[key]).None? && ValidatePort(defaultVal) ==> r.store == strings
    // nothing but the one key is ever touched, and it is only ever given the default text
    ensures r.store.Keys == strings.Keys + (if r.invalidNotice then {key} else {})
    ensures forall k :: k in strings && k != key ==> r.store[k] == strings[k]
    ensures r.invalidNotice ==> r.port == defaultVal && r.store[key] == defaultValStr
    ensures !r.invalidNotice ==> r.store == strings && ValidatePort(r.port)
  {
    var portStr := if key in strings then strings[key] else defaultValStr;
    var port := match ParseInt(portStr) case Some(p) => p case None => defaultVal;
    if ValidatePort(port) then PortLoad(port, strings, false)
    else PortLoad(defaultVal, strings[key := defaultValStr], true)
  }

  /** The default's text is its decimal form and the default is a valid port. */
  predicate SoundDefault(defaultVal: int, defaultValStr: string) {
    ValidatePort(defaultVal) && defaultValStr == DecimalString(defaultVal)
  }

  /** With a sound default every load yields a valid port. */
  lemma LoadPortValid(strings: map<string, string>, key: string, defaultVal: int, defaultValStr: string)
    requires ValidatePort(defaultVal)
    ensures ValidatePort(LoadPort(strings, key, defaultVal, defaultValStr).port)
  {
  }

  /** A missing key yields the default port and leaves the store as it was. */
  lemma LoadPortMissingKey(strings: map<string, string>, key: string, defaultVal: int, defaultValStr: string)
    requires SoundDefault(defaultVal, defaultValStr)
    requires key !in strings
    ensures LoadPort(strings, key, defaultVal, defaultValStr) == PortLoad(defaultVal, strings, false)
  {
    ParseDecimalString(defaultVal);
  }

  /** Loading again right after a load returns the same port and changes nothing. */
  lemma LoadPortIdempotent(strings: map<string, string>, key: string, defaultVal: int, defaultValStr: string)
    requires SoundDefault(defaultVal, defaultValStr)
    ensures var first := LoadPort(strings, key, defaultVal, defaultValStr);
            LoadPort(first.store, key, defaultVal, defaultValStr) == PortLoad(first.port, first.store, false)
  {
    ParseDecimalString(defaultVal);
  }

  lemma DefaultsSound()
    ensures SoundDefault(PORT_DEFAULT_VAL, PORT_DEFAULT_VAL_STR)
    ensures SoundDefault(SECURE_PORT_DEFAULT_VAL, SECURE_PORT_DEFAULT_VAL_STR)
    ensures PORT_DEFAULT_VAL_STR == "12345" && SECURE_PORT_DEFAULT_VAL_STR == "1234"
  {
  }

  /**
   * `loadAndValidatePort`: reads the port text under `key`, parses it, and on
   * an invalid port shows the notice, returns the default and stores its text.
   */
  method LoadAndValidatePort(prefs: PreferenceStore, key: string, defaultVal: int, defaultValStr: string)
      returns (port: int, invalidNotice: bool)
    modifies prefs
    ensures PortLoad(port, prefs.strings, invalidNotice) == LoadPort(old(prefs.strings), key, defaultVal, defaultValStr)
    ensures prefs.booleans == old(prefs.booleans)
  {
    port := defaultVal;
    var portStr := prefs.GetString(key, defaultValStr);
    var parsed := ParseInt(portStr);
    if parsed.Some? {
      port := parsed.value;
    }
    invalidNotice := false;
    if !ValidatePort(port) {
      invalidNotice := true;
      port := defaultVal;
      prefs.PutString(key, defaultValStr);
    }
  }

  /** The plain FTP port, default 12345. */
  method LoadAndValidatePortInsecure(prefs: PreferenceStore) returns (port: int, invalidNotice: bool)
    modifies prefs
    ensures ValidatePort(port)
    ensures PortLoad(port, prefs.strings, invalidNotice)
            == LoadPort(old(prefs.strings), PREF_KEY_PORT, PORT_DEFAULT_VAL, PORT_DEFAULT_VAL_STR)
    ensures prefs.booleans == old(prefs.booleans)
  {
    port, invalidNotice := LoadAndValidatePort(prefs, PREF_KEY_PORT, PORT_DEFAULT_VAL, PORT_DEFAULT_VAL_STR);
  }

  /** The SFTP port, default 1234. */
  method LoadAndValidatePortSecure(prefs: PreferenceStore) returns (port: int, invalidNotice: bool)
    modifies prefs
    ensures ValidatePort(port)
    ensures PortLoad(port, prefs.strings, invalidNotice)
            == LoadPort(old(prefs.strings), PREF_KEY_SECURE_PORT, SECURE_PORT_DEFAULT_VAL, SECURE_PORT_DEFAULT_VAL_STR)
    ensures prefs.booleans == old(prefs.booleans)
  {
    port, invalidNotice := LoadAndValidatePort(prefs, PREF_KEY_SECURE_PORT, SECURE_PORT_DEFAULT_VAL, SECURE_PORT_DEFAULT_VAL_STR);
  }

  /** The string entries after `resetPortsToDefault`. */
  function ResetPorts(strings: map<string, string>): (r: map<string, string>)
    ensures r.Keys == strings.Keys + {PREF_KEY_PORT, PREF_KEY_SECURE_PORT}
    ensures r[PREF_KEY_PORT] == PORT_DEFAULT_VAL_STR && r[PREF_KEY_SECURE_PORT] == SECURE_PORT_DEFAULT_VAL_STR
    ensures forall k :: k in strings && k != PREF_KEY_PORT && k != PREF_KEY_SECURE_PORT ==> r[k] == strings[k]
  {
    strings[PREF_KEY_PORT := PORT_DEFAULT_VAL_STR][PREF_KEY_SECURE_PORT := SECURE_PORT_DEFAULT_VAL_STR]
  }

  /** After a reset both ports load as their defaults, with no notice and no write. */
  lemma ResetThenLoad(strings: map<string, string>)
    ensures var reset := ResetPorts(strings);
            && LoadPort(reset, PREF_KEY_PORT, PORT_DEFAULT_VAL, PORT_DEFAULT_VAL_STR) == PortLoad(PORT_DEFAULT_VAL, reset, false)
            && LoadPort(reset, PREF_KEY_SECURE_PORT, SECURE_PORT_DEFAULT_VAL, SECURE_PORT_DEFAULT_VAL_STR)
               == PortLoad(SECURE_PORT_DEFAULT_VAL, reset, false)
  {
    ParseDecimalString(PORT_DEFAULT_VAL);
    ParseDecimalString(SECURE_PORT_DEFAULT_VAL);
  }

  method ResetPortsToDefault(prefs: PreferenceStore)
    modifies prefs
    ensures prefs.strings == ResetPorts(old(prefs.strings))
    ensures prefs.booleans == old(prefs.booleans)
  {
    prefs.PutString(PREF_KEY_PORT, PORT_DEFAULT_VAL_STR);
    prefs.PutString(PREF_KEY_SECURE_PORT, SECURE_PORT_DEFAULT_VAL_STR);
  }
}
