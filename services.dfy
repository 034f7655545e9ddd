/**
 * ServicesStartStopUtil: deciding which of the two server services to start,
 * stopping both, and deriving which are running from the host's list of
 * running services. The Android effects are an emitted sequence of events.
 */
module ServicesStartStop {
  import opened Wrappers

  const EXTRA_PREFS_BEAN: string := "prefs.bean"
  const EXTRA_FINGERPRINT_PROVIDER: string := "fingerprint.provider"

  /** Class names of the two service components. */
  const FTP_SERVICE_CLASS: string := "org.primftpd.services.FtpServerService"
  const SSH_SERVICE_CLASS: string := "org.primftpd.services.SshServerService"

  /**
   * The answers of the server selector that the start logic asks for: whether
   * the FTP or the SFTP server is selected, and whether the selected
   * authentication mode makes a password mandatory.
   */
  datatype ServerToStart = ServerToStart(startFtp: bool, startSftp: bool, passwordMandatory: bool)

  /** The loaded configuration, as far as the start logic reads it. */
  datatype PrefsBean = PrefsBean(password: Option<string>, serverToStart: ServerToStart)

  /** Opaque handle on the host key material; passed through, never inspected. */
  datatype KeyFingerprintProvider = KeyFingerprintProvider(handle: nat)

  /** The interactive main activity, as far as the start logic asks it. */
  datatype Activity = Activity(keyPresent: bool)

  datatype Extra = PrefsBeanExtra(bean: PrefsBean) | FingerprintProviderExtra(provider: KeyFingerprintProvider)

  /** An intent addressed to a component, with its named extras. */
  datatype Intent = Intent(component: string, extras: map<string, Extra>)

  datatype Notice = HaveToSetAuthMechanism

  /** The externally visible effects of the start and stop operations, in order. */
  datatype Event =
    | ShowToast(notice: Notice)
    | LaunchMainActivity
    | ShowGenKeyDialog
      // `raised`: the start call threw, and the exception was caught
    | StartService(intent: Intent, raised: bool)
    | StopService(intent: Intent)

  /** Which of the two servers were found running. */
  datatype ServersRunning = ServersRunning(ftp: bool, ssh: bool)

  /** Whitespace in the sense of `Character.isWhitespace`, restricted to ASCII. */
  predicate IsWhitespace(c: char) {
    c == ' ' || '\t' <= c <= '\r' || '\U{1C}' <= c <= '\U{1F}'
  }

  /** Blank: null, empty, or whitespace only. */
  predicate IsBlank(s: Option<string>) {
    s.None? || forall i :: 0 <= i < |s.value| ==> IsWhitespace(s.value[i])
  }

  /** `isPasswordOk`. */
  function IsPasswordOk(prefsBean: PrefsBean): (r: bool)
    ensures r <==> !prefsBean.serverToStart.passwordMandatory
                   || (prefsBean.password.Some?
                       && exists i :: 0 <= i < |prefsBean.password.value| && !IsWhitespace(prefsBean.password.value[i]))
  {
    if !prefsBean.serverToStart.passwordMandatory then true
    else !IsBlank(prefsBean.password)
  }

  /** `putPrefsInIntent`: adds the bean under its extra name unless it is null. */
  function PutPrefsInIntent(intent: Intent, prefsBean: Option<PrefsBean>): (r: Intent)
    ensures r.component == intent.component
    ensures r.extras.Keys == intent.extras.Keys + (if prefsBean.Some? then {EXTRA_PREFS_BEAN} else {})
    ensures prefsBean.Some? ==> r.extras[EXTRA_PREFS_BEAN] == PrefsBeanExtra(prefsBean.value)
    ensures forall k :: k in intent.extras && (k != EXTRA_PREFS_BEAN || prefsBean.None?) ==> r.extras[k] == intent.extras[k]
  {
    if prefsBean.Some? then Intent(intent.component, intent.extras[EXTRA_PREFS_BEAN := PrefsBeanExtra(prefsBean.value)])
    else intent
  }

  /** `putKeyFingerprintProviderInIntent`: adds the provider under its extra name unless it is null. */
  function PutKeyFingerprintProviderInIntent(intent: Intent, provider: Option<KeyFingerprintProvider>): (r: Intent)
    ensures r.component == intent.component
    ensures r.extras.Keys == intent.extras.Keys + (if provider.Some? then {EXTRA_FINGERPRINT_PROVIDER} else {})
    ensures provider.Some? ==> r.extras[EXTRA_FINGERPRINT_PROVIDER] == FingerprintProviderExtra(provider.value)
    ensures forall k :: k in intent.extras && (k != EXTRA_FINGERPRINT_PROVIDER || provider.None?) ==> r.extras[k] == intent.extras[k]
  {
    if provider.Some? then
      Intent(intent.component, intent.extras[EXTRA_FINGERPRINT_PROVIDER := FingerprintProviderExtra(provider.value)])
    else intent
  }

  /** A fresh intent for `component` carrying whichever of the two extras are non-null. */
  function ServiceIntent(component: string, prefsBean: Option<PrefsBean>, provider: Option<KeyFingerprintProvider>): Intent
  {
    PutKeyFingerprintProviderInIntent(PutPrefsInIntent(Intent(component, map[]), prefsBean), provider)
  }

  /** `createFtpServiceIntent`. */
  function CreateFtpServiceIntent(prefsBean: Option<PrefsBean>, provider: Option<KeyFingerprintProvider>): (r: Intent)
    ensures r.component == FTP_SERVICE_CLASS
    ensures r.extras.Keys == (if prefsBean.Some? then {EXTRA_PREFS_BEAN} else {})
                             + (if provider.Some? then {EXTRA_FINGERPRINT_PROVIDER} else {})
    ensures PrefsBeanOf(r) == prefsBean && FingerprintProviderOf(r) == provider
  {
    ServiceIntent(FTP_SERVICE_CLASS, prefsBean, provider)
  }

  /** `createSshServiceIntent`. */
  function CreateSshServiceIntent(prefsBean: Option<PrefsBean>, provider: Option<KeyFingerprintProvider>): (r: Intent)
    ensures r.component == SSH_SERVICE_CLASS
    ensures r.extras.Keys == (if prefsBean.Some? then {EXTRA_PREFS_BEAN} else {})
                             + (if provider.Some? then {EXTRA_FINGERPRINT_PROVIDER} else {})
    ensures PrefsBeanOf(r) == prefsBean && FingerprintProviderOf(r) == provider
  {
    ServiceIntent(SSH_SERVICE_CLASS, prefsBean, provider)
  }

  /** What a receiving service reads back as its configuration extra. */
  function PrefsBeanOf(intent: Intent): Option<PrefsBean> {
    if EXTRA_PREFS_BEAN in intent.extras && intent.extras[EXTRA_PREFS_BEAN].PrefsBeanExtra?
    then Some(intent.extras[EXTRA_PREFS_BEAN].bean) else None
  }

  /** What a receiving service reads back as its key-fingerprint extra. */
  function FingerprintProviderOf(intent: Intent): Option<KeyFingerprintProvider> {
    if EXTRA_FINGERPRINT_PROVIDER in intent.extras && intent.extras[EXTRA_FINGERPRINT_PROVIDER].FingerprintProviderExtra?
    then Some(intent.extras[EXTRA_FINGERPRINT_PROVIDER].provider) else None
  }

  /** A service intent hands the receiving service exactly the bean and the provider it was built from. */
  lemma ServiceIntentRoundTrip(component: string, prefsBean: Option<PrefsBean>, provider: Option<KeyFingerprintProvider>)
    ensures PrefsBeanOf(ServiceIntent(component, prefsBean, provider)) == prefsBean
    ensures FingerprintProviderOf(ServiceIntent(component, prefsBean, provider)) == provider
  {
  }

  predicate IsStartOf(e: Event, component: string) {
    e.StartService? && e.intent.component == component
  }

  /** Some event of the trace starts `component`. */
  predicate StartAttempted(events: seq<Event>, component: string) {
    exists i :: 0 <= i < |events| && IsStartOf(events[i], component)
  }

  /** SFTP is selected, an activity is there to ask, and it has no key. */
  predicate KeyMissingAtActivity(prefsBean: PrefsBean, activity: Option<Activity>) {
    prefsBean.serverToStart.startSftp && activity.Some? && !activity.value.keyPresent
  }

  /** The start event for one service, carrying the configuration and the provider. */
  function StartEvent(component: string, prefsBean: PrefsBean, provider: Option<KeyFingerprintProvider>,
                      failing: set<string>): Event
  {
    StartService(ServiceIntent(component, Some(prefsBean), provider), component in failing)
  }

  /**
   * The effects of `startServers`, as a decision table: first the password
   * check, then the key check of the SFTP start, then the two starts, SFTP
   * before FTP. A missing key at an activity suppresses the FTP start too.
   */
  function StartServersTrace(prefsBean: PrefsBean, provider: Option<KeyFingerprintProvider>,
                             activity: Option<Activity>, failing: set<string>): seq<Event>
  {
    if !IsPasswordOk(prefsBean) then
      [ShowToast(HaveToSetAuthMechanism)] + (if activity.None? then [LaunchMainActivity] else [])
    else
      var keyMissing := KeyMissingAtActivity(prefsBean, activity);
      (if keyMissing then [ShowGenKeyDialog] else [])
      + (if prefsBean.serverToStart.startSftp && !keyMissing
         then [StartEvent(SSH_SERVICE_CLASS, prefsBean, provider, failing)] else [])
      + (if prefsBean.serverToStart.startFtp && !keyMissing
         then [StartEvent(FTP_SERVICE_CLASS, prefsBean, provider, failing)] else [])
  }

  /**
   * `startServers` with a configuration, a key-fingerprint provider and an
   * optional activity. `failing` holds the components whose start call
   * throws; the exception is caught and the notice built in the handler is
   * never shown, so a throwing start leaves no further trace.
   */
  method StartServers(prefsBean: PrefsBean, provider: Option<KeyFingerprintProvider>,
                      activity: Option<Activity>, failing: set<string>)
      returns (events: seq<Event>)
    ensures events == StartServersTrace(prefsBean, provider, activity, failing)
  {
    events := [];
    if !IsPasswordOk(prefsBean) {
      events := events + [ShowToast(HaveToSetAuthMechanism)];
      if activity.None? {
        // launch the main activity so that a password can be set
        events := events + [LaunchMainActivity];
      }
    } else {
      var continueServerStart := true;
      if prefsBean.serverToStart.startSftp {
        var keyPresent := true;
        if activity.Some? {
          keyPresent := activity.value.keyPresent;
          if !keyPresent {
            events := events + [ShowGenKeyDialog];
            continueServerStart := false;
          }
        }
        if keyPresent {
          var intent := CreateSshServiceIntent(Some(prefsBean), provider);
          events := events + [StartService(intent, intent.component in failing)];
        }
      }
      if continueServerStart {
        if prefsBean.serverToStart.startFtp {
          var intent := CreateFtpServiceIntent(Some(prefsBean), provider);
          events := events + [StartService(intent, intent.component in failing)];
        }
      }
    }
  }

  /** Without an acceptable password: the notice, the main activity only when there is none, and no start. */
  lemma StartWithoutPassword(prefsBean: PrefsBean, provider: Option<KeyFingerprintProvider>,
                             activity: Option<Activity>, failing: set<string>)
    requires !IsPasswordOk(prefsBean)
    ensures var events := StartServersTrace(prefsBean, provider, activity, failing);
            && events[0] == ShowToast(HaveToSetAuthMechanism)
            && (LaunchMainActivity in events <==> activity.None?)
            && !StartAttempted(events, FTP_SERVICE_CLASS) && !StartAttempted(events, SSH_SERVICE_CLASS)
  {
  }

  /** With an acceptable password no toast is shown and no activity launched, whichever starts throw. */
  lemma StartWithPasswordShowsNoNotice(prefsBean: PrefsBean, provider: Option<KeyFingerprintProvider>,
                                       activity: Option<Activity>, failing: set<string>)
    requires IsPasswordOk(prefsBean)
    ensures var events := StartServersTrace(prefsBean, provider, activity, failing);
            forall i :: 0 <= i < |events| ==> !events[i].ShowToast? && !events[i].LaunchMainActivity?
  {
  }

  /** The key dialog is shown exactly when the password is fine and SFTP is selected at an activity without a key. */
  lemma StartGenKeyDialog(prefsBean: PrefsBean, provider: Option<KeyFingerprintProvider>,
                          activity: Option<Activity>, failing: set<string>)
    ensures ShowGenKeyDialog in StartServersTrace(prefsBean, provider, activity, failing)
            <==> IsPasswordOk(prefsBean) && KeyMissingAtActivity(prefsBean, activity)
  {
  }

  /** The SFTP start is attempted exactly when the password is fine, SFTP is selected and a key is there or no activity can be asked. */
  lemma SftpStartAttempted(prefsBean: PrefsBean, provider: Option<KeyFingerprintProvider>,
                           activity: Option<Activity>, failing: set<string>)
    ensures StartAttempted(StartServersTrace(prefsBean, provider, activity, failing), SSH_SERVICE_CLASS)
            <==> IsPasswordOk(prefsBean) && prefsBean.serverToStart.startSftp
                 && (activity.None? || activity.value.keyPresent)
  {
    var events := StartServersTrace(prefsBean, provider, activity, failing);
    assert FTP_SERVICE_CLASS != SSH_SERVICE_CLASS;
    if IsPasswordOk(prefsBean) && prefsBean.serverToStart.startSftp && (activity.None? || activity.value.keyPresent) {
      assert IsStartOf(events[0], SSH_SERVICE_CLASS);
    }
  }

  /** The FTP start is attempted exactly when the password is fine, FTP is selected and no missing key stopped the sequence. */
  lemma FtpStartAttempted(prefsBean: PrefsBean, provider: Option<KeyFingerprintProvider>,
                          activity: Option<Activity>, failing: set<string>)
    ensures StartAttempted(StartServersTrace(prefsBean, provider, activity, failing), FTP_SERVICE_CLASS)
            <==> IsPasswordOk(prefsBean) && prefsBean.serverToStart.startFtp
                 && !KeyMissingAtActivity(prefsBean, activity)
  {
    var events := StartServersTrace(prefsBean, provider, activity, failing);
    assert FTP_SERVICE_CLASS != SSH_SERVICE_CLASS;
    if IsPasswordOk(prefsBean) && prefsBean.serverToStart.startFtp && !KeyMissingAtActivity(prefsBean, activity) {
      assert IsStartOf(events[|events| - 1], FTP_SERVICE_CLASS);
    }
  }

  /** The SFTP start precedes the FTP start, and no service is started twice or stopped. */
  lemma StartOrder(prefsBean: PrefsBean, provider: Option<KeyFingerprintProvider>,
                   activity: Option<Activity>, failing: set<string>)
    ensures var events := StartServersTrace(prefsBean, provider, activity, failing);
            && (forall i, j ::
                  (0 <= i < |events| && 0 <= j < |events|
                   && IsStartOf(events[i], SSH_SERVICE_CLASS) && IsStartOf(events[j], FTP_SERVICE_CLASS)) ==> i < j)
            && (forall i, j ::
                  (0 <= i < j < |events| && events[i].StartService? && events[j].StartService?)
                  ==> events[i].intent.component != events[j].intent.component)
            && (forall i :: 0 <= i < |events| ==> !events[i].StopService?)
  {
  }

  /** Every start hands the service the configuration and the provider, and records whether its call threw. */
  lemma StartIntents(prefsBean: PrefsBean, provider: Option<KeyFingerprintProvider>,
                     activity: Option<Activity>, failing: set<string>)
    ensures var events := StartServersTrace(prefsBean, provider, activity, failing);
            forall i :: 0 <= i < |events| && events[i].StartService? ==>
              && PrefsBeanOf(events[i].intent) == Some(prefsBean)
              && FingerprintProviderOf(events[i].intent) == provider
              && events[i].raised == (events[i].intent.component in failing)
  {
    ServiceIntentRoundTrip(FTP_SERVICE_CLASS, Some(prefsBean), provider);
    ServiceIntentRoundTrip(SSH_SERVICE_CLASS, Some(prefsBean), provider);
  }

  /** `stopServers`: both stops, FTP first, with intents carrying no extras, whatever is running. */
  function StopServers(): (events: seq<Event>)
    ensures |events| == 2
    ensures events[0] == StopService(Intent(FTP_SERVICE_CLASS, map[]))
    ensures events[1] == StopService(Intent(SSH_SERVICE_CLASS, map[]))
  {
    [StopService(CreateFtpServiceIntent(None, None)), StopService(CreateSshServiceIntent(None, None))]
  }

  /**
   * `checkServicesRunning` over the class names of the running services:
   * a server counts as running exactly when its class name is listed. The
   * scan stops early once both have been seen.
   */
  method CheckServicesRunning(runningServices: seq<string>) returns (r: ServersRunning)
    ensures r.ftp <==> FTP_SERVICE_CLASS in runningServices
    ensures r.ssh <==> SSH_SERVICE_CLASS in runningServices
  {
    r := ServersRunning(false, false);
    var i := 0;
    while i < |runningServices|
      invariant 0 <= i <= |runningServices|
      invariant r.ftp <==> FTP_SERVICE_CLASS in runningServices[..i]
      invariant r.ssh <==> SSH_SERVICE_CLASS in runningServices[..i]
    {
      var currentClassName := runningServices[i];
      if FTP_SERVICE_CLASS == currentClassName {
        r := r.(ftp := true);
      }
      if SSH_SERVICE_CLASS == currentClassName {
        r := r.(ssh := true);
      }
      if r.ftp && r.ssh {
        break;
      }
      i := i + 1;
    }
    assert i == |runningServices| ==> runningServices[..i] == runningServices;
  }
}
