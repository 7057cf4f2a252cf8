/**
 * The security settings page: four switches, three numeric limits each
 * shown only while its switch is on, and a table of access logs that can
 * be inspected and deleted.
 */
module Security {
  import opened Common

  /** The switches of the settings object. */
  datatype Toggle = TwoFactorAuth | PasswordExpiry | SessionTimeout | LoginAttempts

  /** The numeric settings; each holds `parseInt` of what was typed, NaN written None. */
  datatype Limit = PasswordExpiryDays | SessionTimeoutMinutes | MaxLoginAttempts

  datatype Settings = Settings(
    twoFactorAuth: bool,
    passwordExpiry: bool,
    passwordExpiryDays: Option<int>,
    sessionTimeout: bool,
    sessionTimeoutMinutes: Option<int>,
    loginAttempts: bool,
    maxLoginAttempts: Option<int>)

  datatype AccessLog = AccessLog(id: int, timestamp: string, user: string, action: string, ip: string, status: string)

  function LogId(l: AccessLog): int
  {
    l.id
  }

  /** Every protection on: 90-day password expiry, 30-minute sessions, five login attempts. */
  const InitialSettings: Settings := Settings(true, true, Some(90), true, Some(30), true, Some(5))

  function IsOn(s: Settings, t: Toggle): bool
  {
    match t
    case TwoFactorAuth => s.twoFactorAuth
    case PasswordExpiry => s.passwordExpiry
    case SessionTimeout => s.sessionTimeout
    case LoginAttempts => s.loginAttempts
  }

  function LimitValue(s: Settings, l: Limit): Option<int>
  {
    match l
    case PasswordExpiryDays => s.passwordExpiryDays
    case SessionTimeoutMinutes => s.sessionTimeoutMinutes
    case MaxLoginAttempts => s.maxLoginAttempts
  }

  /** `{...settings, [setting]: checked}` for a switch: that switch alone takes the value. */
  function SetToggle(s: Settings, t: Toggle, checked: bool): (r: Settings)
    ensures IsOn(r, t) == checked
    ensures forall u :: u != t ==> IsOn(r, u) == IsOn(s, u)
    ensures forall l :: LimitValue(r, l) == LimitValue(s, l)
  {
    match t
    case TwoFactorAuth => s.(twoFactorAuth := checked)
    case PasswordExpiry => s.(passwordExpiry := checked)
    case SessionTimeout => s.(sessionTimeout := checked)
    case LoginAttempts => s.(loginAttempts := checked)
  }

  /** `{...settings, [setting]: parseInt(value)}`: that limit alone takes the parsed value. */
  function SetLimit(s: Settings, l: Limit, text: string): (r: Settings)
    ensures LimitValue(r, l) == ParseInt(text)
    ensures forall m :: m != l ==> LimitValue(r, m) == LimitValue(s, m)
    ensures forall t :: IsOn(r, t) == IsOn(s, t)
  {
    match l
    case PasswordExpiryDays => s.(passwordExpiryDays := ParseInt(text))
    case SessionTimeoutMinutes => s.(sessionTimeoutMinutes := ParseInt(text))
    case MaxLoginAttempts => s.(maxLoginAttempts := ParseInt(text))
  }

  /** The switch that shows a limit's field. */
  function Enabler(l: Limit): (t: Toggle)
    ensures t != TwoFactorAuth
  {
    match l
    case PasswordExpiryDays => PasswordExpiry
    case SessionTimeoutMinutes => SessionTimeout
    case MaxLoginAttempts => LoginAttempts
  }

  /** The limit fields on screen: each exactly while its switch is on. */
  function VisibleLimits(s: Settings): (ls: set<Limit>)
    ensures forall l :: l in ls <==> IsOn(s, Enabler(l))
  {
    (if s.passwordExpiry then {PasswordExpiryDays} else {}) +
    (if s.sessionTimeout then {SessionTimeoutMinutes} else {}) +
    (if s.loginAttempts then {MaxLoginAttempts} else {})
  }

  /**
   * Turning a switch off hides only the field it enables, and turning it on
   * shows it again; the fields of the other switches stay as they were.
   */
  lemma ToggleChangesOnlyItsField(s: Settings, l: Limit, checked: bool)
    ensures l in VisibleLimits(SetToggle(s, Enabler(l), checked)) <==> checked
    ensures forall m :: m != l ==> (m in VisibleLimits(SetToggle(s, Enabler(l), checked)) <==> m in VisibleLimits(s))
  {
    forall m | m != l
      ensures m in VisibleLimits(SetToggle(s, Enabler(l), checked)) <==> m in VisibleLimits(s)
    {
      assert Enabler(m) != Enabler(l);
    }
  }

  /** A limit typed as a decimal number is stored as that number. */
  lemma TypedLimitIsStored(s: Settings, l: Limit, n: nat)
    ensures LimitValue(SetLimit(s, l, NatToString(n)), l) == Some(n)
  {
    ParseIntOfNatToString(n);
  }

  class SecurityPage {
    var settings: Settings
    var accessLogs: seq<AccessLog>
    var openDialog: bool
    var selectedLog: Option<AccessLog>
    var showSuccess: bool

    constructor (logs: seq<AccessLog>)
      ensures settings == InitialSettings && accessLogs == logs
      ensures !openDialog && selectedLog == None && !showSuccess
    {
      settings := InitialSettings;
      accessLogs := logs;
      openDialog := false;
      selectedLog := None;
      showSuccess := false;
    }

    /** `handleSettingChange`. */
    method SettingChange(t: Toggle, checked: bool)
      modifies this`settings
      ensures settings == SetToggle(old(settings), t, checked)
      ensures IsOn(settings, t) == checked
    {
      settings := SetToggle(settings, t, checked);
    }

    /** `handleNumberChange`. */
    method NumberChange(l: Limit, text: string)
      modifies this`settings
      ensures settings == SetLimit(old(settings), l, text)
      ensures LimitValue(settings, l) == ParseInt(text)
    {
      settings := SetLimit(settings, l, text);
    }

    /** `handleSaveSettings`: nothing is sent; the confirmation appears. */
    method SaveSettings()
      modifies this`showSuccess
      ensures showSuccess
    {
      showSuccess := true;
    }

    /** The timer set by saving, three seconds later. */
    method HideSuccess()
      modifies this`showSuccess
      ensures !showSuccess
    {
      showSuccess := false;
    }

    /** `handleViewLog`. */
    method ViewLog(log: AccessLog)
      modifies this`selectedLog, this`openDialog
      ensures selectedLog == Some(log) && openDialog
    {
      selectedLog := Some(log);
      openDialog := true;
    }

    method CloseDialog()
      modifies this`openDialog
      ensures !openDialog
    {
      openDialog := false;
    }

    /** `handleDeleteLog`: the logs with the id go, the others stay in order. */
    method DeleteLog(id: int)
      modifies this`accessLogs
      ensures accessLogs == Without(old(accessLogs), LogId, id)
      ensures forall i :: 0 <= i < |accessLogs| ==> accessLogs[i].id != id && accessLogs[i] in old(accessLogs)
      ensures forall i :: 0 <= i < |old(accessLogs)| && old(accessLogs)[i].id != id ==> old(accessLogs)[i] in accessLogs
    {
      accessLogs := Without(accessLogs, LogId, id);
    }
  }
}
