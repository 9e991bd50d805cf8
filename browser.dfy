/**
 * The abstract WebDriver session the interpreter drives. The browser itself is
 * out of reach, so it is a scripted oracle: every command sent to it consumes
 * the next scripted `Reply`, which says whether the command failed, which
 * element a lookup found, and what page the browser shows after an action.
 * The session also records every command sent (`log`) and a retry budget
 * (`fuel`) that the interpreter's unbounded loops spend one unit per pass.
 */
module Browser {
  import opened Options
  import opened Commands

  /** The error codes of the W3C WebDriver specification, section 6.6 (Errors). */
  datatype ErrorStatus =
    | ElementClickIntercepted | ElementNotInteractable | InsecureCertificate | InvalidArgument
    | InvalidCookieDomain | InvalidElementState | InvalidSelector | InvalidSessionId
    | JavascriptError | MoveTargetOutOfBounds | NoSuchAlert | NoSuchCookie | NoSuchElement
    | NoSuchFrame | NoSuchWindow | NoSuchShadowRoot | ScriptTimeout | SessionNotCreated
    | StaleElementReference | DetachedShadowRoot | Timeout | UnableToSetCookie
    | UnableToCaptureScreen | UnexpectedAlertOpen | UnknownCommand | UnknownError
    | UnknownMethod | UnsupportedOperation

  /** The error code text that section 6.6 of the W3C WebDriver specification assigns to a status. */
  function Code(s: ErrorStatus): string {
    match s
    case ElementClickIntercepted => "element click intercepted"
    case ElementNotInteractable => "element not interactable"
    case InsecureCertificate => "insecure certificate"
    case InvalidArgument => "invalid argument"
    case InvalidCookieDomain => "invalid cookie domain"
    case InvalidElementState => "invalid element state"
    case InvalidSelector => "invalid selector"
    case InvalidSessionId => "invalid session id"
    case JavascriptError => "javascript error"
    case MoveTargetOutOfBounds => "move target out of bounds"
    case NoSuchAlert => "no such alert"
    case NoSuchCookie => "no such cookie"
    case NoSuchElement => "no such element"
    case NoSuchFrame => "no such frame"
    case NoSuchWindow => "no such window"
    case NoSuchShadowRoot => "no such shadow root"
    case ScriptTimeout => "script timeout"
    case SessionNotCreated => "session not created"
    case StaleElementReference => "stale element reference"
    case DetachedShadowRoot => "detached shadow root"
    case Timeout => "timeout"
    case UnableToSetCookie => "unable to set cookie"
    case UnableToCaptureScreen => "unable to capture screen"
    case UnexpectedAlertOpen => "unexpected alert open"
    case UnknownCommand => "unknown command"
    case UnknownError => "unknown error"
    case UnknownMethod => "unknown method"
    case UnsupportedOperation => "unsupported operation"
  }

  /**
   * A failure as the interpreter sees it: a standard WebDriver error carrying a
   * status, or any other error (a missing selector, an elapsed timeout, a
   * transport failure, an interpreter message), known only by its message.
   */
  datatype Error = Standard(status: ErrorStatus) | Other(message: string)

  /** An element reference handed out by the browser. */
  type Element = nat

  /** A window handle. */
  type Handle = string

  /** What the current browsing context shows. */
  datatype Page = Page(url: string, source: string)

  /** The commands the interpreter sends to the browser. */
  datatype Call =
    | Navigate(url: string)
    | SetWindowSize(width: U32, height: U32)
    | ScrollScript(selector: string)
    | WaitForFind(selector: string)
    | ListWindows
    | SwitchToWindow(handle: Handle)
    | ParentFrame
    | GetSource
    | GetUrl
    | FindElement(scope: Option<Element>, selector: string)
    | ClearElement(elem: Element)
    | SwitchToFrame(elem: Element)
    | ClickElement(elem: Element)
    | SendKeys(elem: Element, text: string)

  /** Commands that only read the browser and never change what it shows. */
  predicate IsQuery(c: Call) {
    c.WaitForFind? || c.ListWindows? || c.GetSource? || c.GetUrl? || c.FindElement?
  }

  /**
   * The browser's answer to one command: a failure, or success with the element
   * a lookup found and, for an action, the page shown afterwards (None: unchanged).
   */
  datatype Reply = Reply(fault: Option<Error>, elem: Element, page: Option<Page>)

  /** The answer once the script is used up: success, element 0, nothing changes. */
  const Acknowledged := Reply(None, 0, None)

  datatype Session = Session(
    page: Page,
    windows: seq<Handle>,
    window: Handle,
    frameDepth: nat,
    replies: seq<Reply>,
    log: seq<Call>,
    fuel: nat)

  /** The reply the next command will get. */
  function NextReply(s: Session): Reply {
    if |s.replies| > 0 then s.replies[0] else Acknowledged
  }

  function Rest(rs: seq<Reply>): seq<Reply> {
    if |rs| > 0 then rs[1..] else []
  }

  /** The state change of a command that succeeded with reply `rep`. */
  function Effect(s: Session, c: Call, rep: Reply): (t: Session)
    ensures t.windows == s.windows && t.replies == s.replies && t.log == s.log && t.fuel == s.fuel
    ensures IsQuery(c) ==> t == s
  {
    match c
    case Navigate(url) =>
      s.(page := Page(url, if rep.page.Some? then rep.page.value.source else s.page.source))
    case SwitchToWindow(h) =>
      s.(window := h, frameDepth := 0, page := rep.page.GetOr(s.page))
    case SwitchToFrame(_) =>
      s.(frameDepth := s.frameDepth + 1, page := rep.page.GetOr(s.page))
    case ParentFrame =>
      s.(frameDepth := if s.frameDepth > 0 then s.frameDepth - 1 else 0, page := rep.page.GetOr(s.page))
    case SetWindowSize(_, _) => s.(page := rep.page.GetOr(s.page))
    case ScrollScript(_) => s.(page := rep.page.GetOr(s.page))
    case ClearElement(_) => s.(page := rep.page.GetOr(s.page))
    case ClickElement(_) => s.(page := rep.page.GetOr(s.page))
    case SendKeys(_, _) => s.(page := rep.page.GetOr(s.page))
    case _ => s
  }

  /**
   * Send one command: it consumes the next reply and is logged; it fails with
   * the reply's fault, leaving the browser as it was, or succeeds with its effect.
   */
  function Issue(s: Session, c: Call): (r: (Option<Error>, Session))
    ensures r.0 == NextReply(s).fault
    ensures r.1.log == s.log + [c] && r.1.fuel == s.fuel && r.1.replies == Rest(s.replies)
    ensures r.1.windows == s.windows
    ensures r.0.Some? || IsQuery(c) ==>
      r.1.page == s.page && r.1.window == s.window && r.1.frameDepth == s.frameDepth
  {
    var rep := NextReply(s);
    var s1 := s.(replies := Rest(s.replies), log := s.log + [c]);
    (rep.fault, if rep.fault.None? then Effect(s1, c, rep) else s1)
  }
}
