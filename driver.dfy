/**
 * The interpreter of src/main.rs as it runs: a `Client` holds the session
 * state that the browser commands change in place, and its methods are the
 * interpreter's loops. Each method is proved to leave the client exactly as
 * the corresponding function of the Interpreter module says.
 */
module Driver {
  import opened Options
  import opened Commands
  import opened Browser
  import opened Interpreter

  class Client {
    var page: Page
    var windows: seq<Handle>
    var window: Handle
    var frameDepth: nat
    var replies: seq<Reply>
    var log: seq<Call>
    var fuel: nat

    /** The session this client is in. */
    function View(): Session
      reads this
    {
      Session(page, windows, window, frameDepth, replies, log, fuel)
    }

    constructor (s: Session)
      ensures View() == s
    {
      page, windows, window, frameDepth := s.page, s.windows, s.window, s.frameDepth;
      replies, log, fuel := s.replies, s.log, s.fuel;
    }

    /** Send one command to the browser and take its reply. */
    method Send(c: Call) returns (fault: Option<Error>, reply: Reply)
      modifies this
      ensures reply == NextReply(old(View()))
      ensures (fault, View()) == Issue(old(View()), c)
    {
      reply := if |replies| > 0 then replies[0] else Acknowledged;
      replies := Rest(replies);
      log := log + [c];
      fault := reply.fault;
      if fault.None? {
        match c {
          case Navigate(url) =>
            page := Page(url, if reply.page.Some? then reply.page.value.source else page.source);
          case SwitchToWindow(h) =>
            window, frameDepth, page := h, 0, reply.page.GetOr(page);
          case SwitchToFrame(_) =>
            frameDepth, page := frameDepth + 1, reply.page.GetOr(page);
          case ParentFrame =>
            if frameDepth > 0 {
              frameDepth := frameDepth - 1;
            }
            page := reply.page.GetOr(page);
          case SetWindowSize(_, _) | ScrollScript(_) | ClearElement(_) | ClickElement(_) | SendKeys(_, _) =>
            page := reply.page.GetOr(page);
          case _ =>  // queries leave the browser as it is
        }
      }
    }

    /** do_command_detail: one command, given the context its predecessor returned. */
    method Execute(ctx: Context, cmd: WebCommand) returns (r: Outcome<Context>)
      modifies this
      decreases fuel, Size(cmd), 1
      ensures (r, View()) == Exec(old(View()), ctx, cmd)
    {
      var sel := cmd.selector;
      match cmd.commandType {
        case GoTo(url) =>
          var fault, _ := Send(Navigate(url));
          r := Settled(fault, ctx);
        case Loop(body) =>
          assert KindSize(cmd.commandType) == SizeSeq(body);
          var o := RunLoop(body);
          r := match o
            case Ok(_) => Ok(ctx)
            case Err(e) => Err(e)
            case Stalled => Stalled
            case Panicked => Panicked;
        case ChangeWindowSize(w, h) =>
          var fault, _ := Send(SetWindowSize(w, h));
          r := Settled(fault, ctx);
        case ScrollIntoView =>
          if sel.None? {
            r := Err(Other(NeedsSelector));
          } else {
            var fault, _ := Send(ScrollScript(sel.value));
            r := Settled(fault, ctx);
          }
        case WaitForSeconds(sec) =>
          if !IsDuration(sec) {
            r := Panicked;  // Duration::from_secs_f64 panics before anything is sent
          } else if sel.Some? {
            var fault, _ := Send(WaitForFind(sel.value));
            r := Settled(fault, ctx);
          } else {
            r := Ok(ctx);  // a plain sleep; the browser is not asked
          }
        case ChangeWindow(i) =>
          var fault, _ := Send(ListWindows);
          if fault.Some? {
            r := Err(fault.value);
          } else if i < |windows| {
            var f, _ := Send(SwitchToWindow(windows[i]));
            r := Settled(f, ctx);
          } else {
            r := Err(Other(NoSuchWindowIndex));
          }
        case LeaveFrame =>
          var fault, _ := Send(ParentFrame);
          r := Settled(fault, ctx);
        case PrintSource =>
          var fault, _ := Send(GetSource);
          r := Settled(fault, ctx);
        case Wait =>
          if sel.None? {
            r := Err(Other(NeedsSelector));
          } else {
            var fault, _ := Send(WaitForFind(sel.value));
            r := Settled(fault, ctx);
          }
        case _ =>
          r := ActOnElement(ctx, cmd);
      }
    }

    /** The element-needing arm of do_command_detail. */
    method ActOnElement(ctx: Context, cmd: WebCommand) returns (r: Outcome<Context>)
      requires !IsContextFree(cmd.commandType)
      modifies this
      ensures (r, View()) == OnElement(old(View()), ctx, cmd)
    {
      if cmd.selector.None? {
        return Err(Other(NeedsSelector));
      }
      var sel := cmd.selector.value;
      var fault, found := Send(FindElement(ctx, sel));
      if fault.Some? {
        return Err(fault.value);
      }
      var e := found.elem;
      match cmd.commandType {
        case Clear =>
          var f, _ := Send(ClearElement(e));
          r := Settled(f, None);
        case EnterFrame =>
          var f, _ := Send(SwitchToFrame(e));
          r := Settled(f, None);
        case ClickUntilNavigation =>
          r := ClickUntilChanged(e, sel, Url);
        case ClickUntilDomChanged =>
          r := ClickUntilChanged(e, sel, Source);
        case Click =>
          var f, _ := Send(ClickElement(e));
          r := Settled(f, None);
        case Input(text) =>
          var f, _ := Send(SendKeys(e, text));
          r := Settled(f, None);
        case Recursive(_) =>
          r := Ok(Some(e));
        case Check =>
          r := Ok(None);
      }
    }

    /** The ClickUntilNavigation and ClickUntilDomChanged loops. */
    method ClickUntilChanged(first: Element, sel: string, w: Watch) returns (r: Outcome<Context>)
      modifies this
      ensures (r, View()) == ClickUntil(old(View()), first, sel, w)
    {
      var fault, _ := Send(Observe(w));
      if fault.Some? {
        return Err(fault.value);
      }
      var baseline := Observed(View(), w);
      var e := first;
      while true
        invariant Clicking(View(), e, sel, w, baseline) == ClickUntil(old(View()), first, sel, w)
        decreases fuel
      {
        if fuel == 0 {
          return Stalled;
        }
        var done: bool;
        r, done, e := ClickOnce(e, sel, w, baseline);
        if done {
          return;
        }
      }
    }

    /**
     * One pass of a click-until loop: click `e` and observe; when the
     * observation still equals `baseline`, find the element again from the
     * document root and hand it back as `next` for the following pass.
     */
    method ClickOnce(e: Element, sel: string, w: Watch, baseline: string) returns (r: Outcome<Context>, done: bool, next: Element)
      requires fuel > 0
      modifies this
      ensures fuel < old(fuel)
      ensures done ==> (r, View()) == Clicking(old(View()), e, sel, w, baseline)
      ensures !done ==> Clicking(View(), next, sel, w, baseline) == Clicking(old(View()), e, sel, w, baseline)
    {
      fuel := fuel - 1;
      next := e;
      var f1, _ := Send(ClickElement(e));
      if f1.Some? {
        return Err(f1.value), true, e;
      }
      var f2, _ := Send(Observe(w));
      if f2.Some? {
        return Err(f2.value), true, e;
      }
      if Observed(View(), w) != baseline {
        return Ok(None), true, e;
      }
      var f3, found := Send(FindElement(None, sel));
      if f3.Some? {
        return Err(f3.value), true, e;
      }
      return Ok(None), false, found.elem;
    }

    /** run_command: walk the `Recursive` chain with a cursor, threading the context. */
    method RunCommand(cmd: WebCommand) returns (r: Outcome<()>)
      modifies this
      decreases fuel, Size(cmd), 2
      ensures (r, View()) == RunFrom(old(View()), None, cmd)
    {
      var c := cmd;
      var ctx: Context := None;
      while true
        invariant Size(c) <= Size(cmd) && fuel <= old(fuel)
        invariant RunFrom(View(), ctx, c) == RunFrom(old(View()), None, cmd)
        decreases Size(c)
      {
        var o := Execute(ctx, c);
        match o {
          case Err(e) =>
            return Err(e);
          case Stalled =>
            return Stalled;
          case Panicked =>
            return Panicked;
          case Ok(next) =>
            if c.commandType.Recursive? {
              assert KindSize(c.commandType) == Size(c.commandType.command);
              ctx, c := next, c.commandType.command;
            } else {
              return Ok(());
            }
        }
      }
    }

    /** The Loop arm: run the body until one pass succeeds or a pass fails fatally. */
    method RunLoop(body: seq<WebCommand>) returns (r: Outcome<()>)
      modifies this
      decreases fuel, SizeSeq(body), 4
      ensures (r, View()) == Retry(old(View()), body)
    {
      while true
        invariant fuel <= old(fuel)
        invariant Retry(View(), body) == Retry(old(View()), body)
        decreases fuel
      {
        if fuel == 0 {
          return Stalled;
        }
        fuel := fuel - 1;
        var result := RunAll(body);
        match result {
          case Ok(_) =>
            return Ok(());
          case Stalled =>
            return Stalled;
          case Panicked =>
            return Panicked;
          case Err(e) =>
            if IsFatal(e) {
              return Err(LoopFailure(e));
            }
        }
      }
    }

    /**
     * Sibling commands in order, each from no context; the first failure
     * stops them: the command loop of `main`, and one pass of a Loop body.
     */
    method RunAll(cmds: seq<WebCommand>) returns (r: Outcome<()>)
      modifies this
      decreases fuel, SizeSeq(cmds), 3
      ensures (r, View()) == Pass(old(View()), cmds)
    {
      r := Ok(());
      for i := 0 to |cmds|
        invariant r == Ok(()) && fuel <= old(fuel)
        invariant SizeSeq(cmds[i..]) <= SizeSeq(cmds)
        invariant Pass(old(View()), cmds) == Pass(View(), cmds[i..])
      {
        assert cmds[i..][0] == cmds[i] && cmds[i..][1..] == cmds[i + 1..];
        var o := RunCommand(cmds[i]);
        if !o.Ok? {
          r := o;
          break;
        }
      }
    }
  }
}
