/**
 Transport selection for a live query: the user-agent string and the HTTP
 client. Building the clients themselves belongs to the search library.
 */
module Transport {
  import opened Wrappers
  import opened Cli

  const MobileUserAgent := "Mozilla/5.0 (Linux; Android 5.0; SM-G900P Build/LRX21T) AppleWebKit/537.36 (KHTML, like Gecko) Chrome/65.0.3325.181 Mobile Safari/537.36"
  const DesktopUserAgent := "Mozilla/5.0 (X11; Linux x86_64) AppleWebKit/537.36 (KHTML, like Gecko) Ubuntu Chromium/65.0.3325.181 Chrome/65.0.3325.181 Safari/537.36"

  /** Which user agent a live query sends: the one given, or one of the two fixed strings. */
  datatype UserAgent = Explicit(value: string) | MobileDefault | DesktopDefault

  /** An explicit (truthy) user agent wins over --mobile; otherwise --mobile picks the mobile string. */
  function SelectUserAgent(userAgent: Option<string>, mobile: bool): (u: UserAgent)
    ensures u.Explicit? <==> Truthy(userAgent)
    ensures u.Explicit? ==> u.value == userAgent.value
    ensures u == MobileDefault <==> !Truthy(userAgent) && mobile
  {
    if !Truthy(userAgent) then
      if mobile then MobileDefault else DesktopDefault
    else
      Explicit(userAgent.value)
  }

  /** The header value sent for a user-agent choice. */
  function UserAgentString(u: UserAgent): string {
    match u
    case Explicit(s) => s
    case MobileDefault => MobileUserAgent
    case DesktopDefault => DesktopUserAgent
  }

  /** The user-agent string a live query sends. */
  function EffectiveUserAgent(userAgent: Option<string>, mobile: bool): (r: string)
    ensures Truthy(userAgent) ==> r == userAgent.value
    ensures !Truthy(userAgent) && mobile ==> r == MobileUserAgent
    ensures !Truthy(userAgent) && !mobile ==> r == DesktopUserAgent
    ensures r != "" && r != "0"
  {
    UserAgentString(SelectUserAgent(userAgent, mobile))
  }

  /** The --mobile flag changes the user agent exactly when no explicit one is given. */
  lemma MobileFlagMatters(userAgent: Option<string>)
    ensures EffectiveUserAgent(userAgent, true) != EffectiveUserAgent(userAgent, false)
        <==> !Truthy(userAgent)
  {
  }

  /** The two HTTP clients the command can build. */
  datatype HttpClient = Curl | PhantomJs

  /** The name the command reports for a client. */
  function ClientName(c: HttpClient): (name: string)
    ensures name == "curl" || name == "phantomjs"
  {
    match c
    case Curl => "curl"
    case PhantomJs => "phantomjs"
  }

  /** Only the exact name "phantomjs" selects PhantomJS; any other value falls back to curl. */
  function SelectClient(name: string): (c: HttpClient)
    ensures c == PhantomJs <==> name == "phantomjs"
  {
    if name == "phantomjs" then PhantomJs else Curl
  }

  /** Selecting a client by its reported name gives that client back. */
  lemma SelectClientName(c: HttpClient)
    ensures SelectClient(ClientName(c)) == c
  {
  }

  /**
   The reported name is the one the user gave exactly when it is one of the
   two known names; every other value is reported as "curl".
   */
  lemma ReportedClientName(name: string)
    ensures ClientName(SelectClient(name)) == name <==> name == "curl" || name == "phantomjs"
    ensures name != "phantomjs" ==> ClientName(SelectClient(name)) == "curl"
  {
  }

  /** Normalising a name twice gives what normalising it once does. */
  lemma SelectClientIdempotent(name: string)
    ensures SelectClient(ClientName(SelectClient(name))) == SelectClient(name)
  {
  }
}
