/**
  The decision tables of the Locations web part: which host it runs in,
  which Fluent theme wraps the component, which environment message fits
  the host, and how a theme change from the page sets the dark flag.
  Fluent themes and localised strings are opaque constants here.
*/
module LocationsWebPart {
  import opened Wrappers

  /** The hosts the web part can run in, each served normally or from localhost. */
  datatype AppMode =
    | SharePoint | SharePointLocal
    | Teams | TeamsLocal
    | Office | OfficeLocal
    | Outlook | OutlookLocal

  /** The Fluent UI themes the web part picks from. */
  datatype Theme = TeamsDarkTheme | TeamsLightTheme | WebDarkTheme | WebLightTheme

  /** The localised environment messages. */
  datatype EnvironmentMessage =
    | AppLocalEnvironmentOffice | AppOfficeEnvironment
    | AppLocalEnvironmentOutlook | AppOutlookEnvironment
    | AppLocalEnvironmentTeams | AppTeamsTabEnvironment
    | AppLocalEnvironmentSharePoint | AppSharePointEnvironment
    | UnknownEnvironment

  /** Where the page runs: without the Teams SDK, or with it and the host name the Teams context reports. */
  datatype Host = PlainSharePoint | TeamsSdk(name: string)

  /** The error `onInit` throws for a Teams host it does not know. */
  datatype HostError = UnknownHost

  /** The part of the page's theme the web part reads. */
  datatype HostTheme = HostTheme(isInverted: Option<bool>)

  /** The mode is one of the localhost variants. */
  predicate IsLocal(m: AppMode)
  {
    m == SharePointLocal || m == TeamsLocal || m == OfficeLocal || m == OutlookLocal
  }

  /** The mode is a SharePoint page (no Teams SDK). */
  predicate IsSharePointMode(m: AppMode)
  {
    m == SharePoint || m == SharePointLocal
  }

  /** The mode is Teams, the only host with its own themes. */
  predicate IsTeamsMode(m: AppMode)
  {
    m == Teams || m == TeamsLocal
  }

  /** The lower-case host name that leads to a Teams-SDK mode ("" for the SharePoint modes). */
  function HostKey(m: AppMode): string
  {
    match m
    case Teams | TeamsLocal => "teams"
    case Office | OfficeLocal => "office"
    case Outlook | OutlookLocal => "outlook"
    case SharePoint | SharePointLocal => ""
  }

  /** ASCII lower-casing of one character. */
  function LowerChar(c: char): char
  {
    if 'A' <= c <= 'Z' then (c as int + 32) as char else c
  }

  /** `String.prototype.toLowerCase`, on ASCII letters: every character is lower-cased on its own. */
  function Lower(s: string): (r: string)
    ensures |r| == |s|
    ensures forall i :: 0 <= i < |r| ==> !('A' <= r[i] <= 'Z')
    ensures forall i :: 0 <= i < |s| && 'A' <= s[i] <= 'Z' ==> r[i] == (s[i] as int + 32) as char
    ensures forall i :: 0 <= i < |s| && !('A' <= s[i] <= 'Z') ==> r[i] == s[i]
  {
    seq(|s|, i requires 0 <= i < |s| => LowerChar(s[i]))
  }

  /** A string is lower-cased to `t` when each of its characters is lower-cased to the one of `t` at the same place. */
  lemma LowerMatches(s: string, t: string)
    requires |s| == |t|
    requires forall i :: 0 <= i < |s| ==> LowerChar(s[i]) == t[i]
    ensures Lower(s) == t
  {
  }

  /** Lower-casing twice is lower-casing once. */
  lemma LowerIdempotent(s: string)
    ensures Lower(Lower(s)) == Lower(s)
  {
  }

  /**
    The mode `onInit` settles on. With the Teams SDK the lower-cased host
    name picks Teams, Office or Outlook, each in its localhost variant
    exactly when served from localhost, and any other name throws; without
    it the page is SharePoint or SharePointLocal.
  */
  function ModeFor(host: Host, local: bool): (r: Result<AppMode, HostError>)
    ensures host.PlainSharePoint? ==> r == Success(if local then SharePointLocal else SharePoint)
    ensures r.Success? ==> IsLocal(r.value) == local
    ensures r.Success? ==> (IsSharePointMode(r.value) <==> host.PlainSharePoint?)
    ensures r.Success? && host.TeamsSdk? ==> Lower(host.name) == HostKey(r.value)
    ensures host.TeamsSdk? ==> (r.Failure? <==> Lower(host.name) !in {"teams", "office", "outlook"})
  {
    match host
    case PlainSharePoint => Success(if local then SharePointLocal else SharePoint)
    case TeamsSdk(name) =>
      var key := Lower(name);
      if key == "teams" then Success(if local then TeamsLocal else Teams)
      else if key == "office" then Success(if local then OfficeLocal else Office)
      else if key == "outlook" then Success(if local then OutlookLocal else Outlook)
      else Failure(UnknownHost)
  }

  /** The host a mode comes from. */
  function HostOf(m: AppMode): Host
  {
    if IsSharePointMode(m) then PlainSharePoint else TeamsSdk(HostKey(m))
  }

  /** Every mode is reached, from its own host and localhost flag. */
  lemma ModeForHostOf(m: AppMode)
    ensures ModeFor(HostOf(m), IsLocal(m)) == Success(m)
  {
    if HostOf(m).TeamsSdk? {
      var key := HostKey(m);
      LowerMatches(key, key);
    }
  }

  /** The host-name switch ignores case. */
  lemma ModeIgnoresCase(name: string, local: bool)
    ensures ModeFor(TeamsSdk(name), local) == ModeFor(TeamsSdk(Lower(name)), local)
  {
    LowerIdempotent(name);
  }

  /**
    The theme `render` wraps the component in: Teams modes get the Teams
    themes, SharePoint modes the web dark theme or the stored theme, every
    other mode the web dark or light theme, by the dark flag.
  */
  function ThemeFor(mode: AppMode, dark: bool, stored: Theme): (t: Theme)
    ensures IsTeamsMode(mode) ==> t == (if dark then TeamsDarkTheme else TeamsLightTheme)
    ensures !IsTeamsMode(mode) && dark ==> t == WebDarkTheme
    ensures IsSharePointMode(mode) && !dark ==> t == stored
    ensures !IsTeamsMode(mode) && !IsSharePointMode(mode) && !dark ==> t == WebLightTheme
  {
    if mode == Teams || mode == TeamsLocal then
      if dark then TeamsDarkTheme else TeamsLightTheme
    else if mode == SharePoint || mode == SharePointLocal then
      if dark then WebDarkTheme else stored
    else
      if dark then WebDarkTheme else WebLightTheme
  }

  /** A dark theme. */
  predicate IsDark(t: Theme)
  {
    t == TeamsDarkTheme || t == WebDarkTheme
  }

  /** With the web light theme stored, the chosen theme is dark exactly when the dark flag is set, in every mode. */
  lemma ThemeFollowsDarkFlag(mode: AppMode, dark: bool)
    ensures IsDark(ThemeFor(mode, dark, WebLightTheme)) <==> dark
    ensures (ThemeFor(mode, dark, WebLightTheme) in {TeamsDarkTheme, TeamsLightTheme}) <==> IsTeamsMode(mode)
  {
  }

  /**
    The message `_getEnvironmentMessage` resolves to. The Teams host name is
    matched as it is, case and all: Office, Outlook, and Teams or
    TeamsModern each give their localhost message exactly when served from
    localhost, anything else the unknown-environment message. Without the
    Teams SDK the SharePoint message is chosen by the localhost flag.
  */
  function EnvironmentMessageFor(host: Host, local: bool): (msg: EnvironmentMessage)
    ensures host.PlainSharePoint? ==>
      msg == (if local then AppLocalEnvironmentSharePoint else AppSharePointEnvironment)
    ensures msg == UnknownEnvironment <==>
      host.TeamsSdk? && host.name !in {"Office", "Outlook", "Teams", "TeamsModern"}
    ensures msg != UnknownEnvironment ==> IsLocalMessage(msg) == local
  {
    match host
    case PlainSharePoint => if local then AppLocalEnvironmentSharePoint else AppSharePointEnvironment
    case TeamsSdk(name) =>
      if name == "Office" then (if local then AppLocalEnvironmentOffice else AppOfficeEnvironment)
      else if name == "Outlook" then (if local then AppLocalEnvironmentOutlook else AppOutlookEnvironment)
      else if name == "Teams" || name == "TeamsModern" then
        (if local then AppLocalEnvironmentTeams else AppTeamsTabEnvironment)
      else UnknownEnvironment
  }

  /** The message is one of the localhost variants. */
  predicate IsLocalMessage(msg: EnvironmentMessage)
  {
    msg == AppLocalEnvironmentOffice || msg == AppLocalEnvironmentOutlook ||
    msg == AppLocalEnvironmentTeams || msg == AppLocalEnvironmentSharePoint
  }

  /** The message that describes a mode. */
  function MessageOf(m: AppMode): EnvironmentMessage
  {
    match m
    case SharePoint => AppSharePointEnvironment
    case SharePointLocal => AppLocalEnvironmentSharePoint
    case Teams => AppTeamsTabEnvironment
    case TeamsLocal => AppLocalEnvironmentTeams
    case Office => AppOfficeEnvironment
    case OfficeLocal => AppLocalEnvironmentOffice
    case Outlook => AppOutlookEnvironment
    case OutlookLocal => AppLocalEnvironmentOutlook
  }

  /**
    Where the message switch knows the host name (other than TeamsModern),
    the mode switch knows it too, and the message describes that mode.
  */
  lemma MessageAgreesWithMode(host: Host, local: bool)
    requires EnvironmentMessageFor(host, local) != UnknownEnvironment
    requires host != TeamsSdk("TeamsModern")
    ensures ModeFor(host, local).Success?
    ensures MessageOf(ModeFor(host, local).value) == EnvironmentMessageFor(host, local)
  {
    if host.TeamsSdk? {
      KnownHostAgrees(host.name, local);
    }
  }

  /** The three Teams host names both switches know give a mode and its message. */
  lemma KnownHostAgrees(name: string, local: bool)
    requires name == "Office" || name == "Outlook" || name == "Teams"
    ensures ModeFor(TeamsSdk(name), local).Success?
    ensures MessageOf(ModeFor(TeamsSdk(name), local).value) == EnvironmentMessageFor(TeamsSdk(name), local)
  {
    if name == "Office" {
      LowerMatches("Office", "office");
    } else if name == "Outlook" {
      LowerMatches("Outlook", "outlook");
    } else {
      LowerMatches("Teams", "teams");
    }
  }

  /** The two switches disagree on "TeamsModern": `onInit` throws, the message is the Teams one. */
  lemma TeamsModernDisagrees(local: bool)
    ensures ModeFor(TeamsSdk("TeamsModern"), local) == Failure(UnknownHost)
    ensures EnvironmentMessageFor(TeamsSdk("TeamsModern"), local) ==
            (if local then AppLocalEnvironmentTeams else AppTeamsTabEnvironment)
  {
  }

  /** The two switches disagree on case: "TEAMS" is Teams to `onInit` and unknown to the message. */
  lemma CaseDisagrees(local: bool)
    ensures ModeFor(TeamsSdk("TEAMS"), local) == Success(if local then TeamsLocal else Teams)
    ensures EnvironmentMessageFor(TeamsSdk("TEAMS"), local) == UnknownEnvironment
  {
    LowerMatches("TEAMS", "teams");
  }

  /**
    The dark flag after `onThemeChanged`: an absent theme changes nothing,
    otherwise the flag is whether the theme is inverted (absent counts as no).
  */
  function DarkAfterThemeChange(current: Option<HostTheme>, wasDark: bool): (dark: bool)
    ensures current.None? ==> dark == wasDark
    ensures current.Some? ==> (dark <==> current.value.isInverted == Some(true))
  {
    match current
    case None => wasDark
    case Some(t) => t.isInverted == Some(true)
  }

  /** The web part object: the fields its lifecycle methods set. */
  class LocationsWebPart {
    var isDarkTheme: bool
    /** `None` is the initial empty message, which nothing ever replaces. */
    var environmentMessage: Option<EnvironmentMessage>
    var appMode: AppMode
    var theme: Theme

    /** The stored theme is never reassigned after construction. */
    predicate Valid()
      reads this
    {
      theme == WebLightTheme
    }

    /** The field initialisers. */
    constructor ()
      ensures Valid()
      ensures !isDarkTheme && environmentMessage == None && appMode == SharePoint
    {
      isDarkTheme := false;
      environmentMessage := None;
      appMode := SharePoint;
      theme := WebLightTheme;
    }

    /** The theme `render` passes to the Fluent provider. */
    function RenderedTheme(): (t: Theme)
      reads this
      requires Valid()
      ensures IsDark(t) <==> isDarkTheme
      ensures (t == TeamsDarkTheme || t == TeamsLightTheme) <==> IsTeamsMode(appMode)
    {
      ThemeFollowsDarkFlag(appMode, isDarkTheme);
      ThemeFor(appMode, isDarkTheme, theme)
    }

    /**
      `onInit` once the host is known: sets the mode, or fails with the
      unknown-host error and leaves it as it was. The environment message it
      then computes is dropped, so the message field keeps its value.
    */
    method OnInit(host: Host, local: bool) returns (outcome: Outcome<HostError>)
      requires Valid()
      modifies this`appMode
      ensures Valid()
      ensures ModeFor(host, local).Success? ==> outcome == Pass && appMode == ModeFor(host, local).value
      ensures ModeFor(host, local).Failure? ==> outcome == Fail(UnknownHost) && appMode == old(appMode)
    {
      if host.TeamsSdk? {
        var key := Lower(host.name);
        if key == "teams" {
          appMode := if local then TeamsLocal else Teams;
        } else if key == "office" {
          appMode := if local then OfficeLocal else Office;
        } else if key == "outlook" {
          appMode := if local then OutlookLocal else Outlook;
        } else {
          return Fail(UnknownHost);
        }
      } else {
        appMode := if local then SharePointLocal else SharePoint;
      }
      outcome := Pass;
    }

    /** `onThemeChanged`: sets the dark flag from the page's theme, when there is one. */
    method OnThemeChanged(current: Option<HostTheme>)
      requires Valid()
      modifies this`isDarkTheme
      ensures Valid()
      ensures isDarkTheme == DarkAfterThemeChange(current, old(isDarkTheme))
    {
      if current.None? {
        return;
      }
      isDarkTheme := current.value.isInverted == Some(true);
    }
  }
}
