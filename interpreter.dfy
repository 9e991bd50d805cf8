/**
 * What the interpreter of src/main.rs does, as functions of the session it
 * starts from: `Exec` is one step (do_command_detail), `RunFrom` one command
 * with its chain of nested `Recursive` commands (run_command), `Pass` a list
 * of sibling commands each started with no element (the main loop and one pass
 * of a Loop body), `Retry` the Loop controller and `Clicking` the body of the
 * click-until loops. Each returns the outcome together with the session after.
 */
module Interpreter {
  import opened Options
  import opened Commands
  import opened Browser

  /** The element the next step of a chain searches within; None means the document root. */
  type Context = Option<Element>

  /**
   * The result of running something: a value, the error that stopped it,
   * `Stalled` when the retry budget ran out, which stands for a run that in the
   * source would go on looping, or `Panicked` when the program aborts, which no
   * Loop catches.
   */
  datatype Outcome<T> = Ok(value: T) | Err(error: Error) | Stalled | Panicked

  /** The page property a click-until loop compares. */
  datatype Watch = Url | Source

  const NeedsSelector := "A command needs a selector string"
  const NoSuchWindowIndex := "Couldn't find the window"
  const LoopFailedPrefix := "A loop has failed: "

  /** 2^64: Duration::from_secs_f64 overflows at this many seconds. */
  const DurationLimit: real := 18446744073709551616.0

  /** Whether Duration::from_secs_f64 accepts `sec`; it panics on a negative or overflowing number of seconds. */
  predicate IsDuration(sec: real) {
    0.0 <= sec < DurationLimit
  }

  /** Command types that act on the session and never look up an element. */
  predicate IsContextFree(k: CommandType) {
    k.GoTo? || k.Loop? || k.ChangeWindowSize? || k.ScrollIntoView? || k.WaitForSeconds? ||
    k.ChangeWindow? || k.LeaveFrame? || k.PrintSource? || k.Wait?
  }

  /** The failures a Loop does not retry: the window is gone or the session is no longer valid. */
  predicate IsFatal(e: Error) {
    e.Standard? && (e.status == NoSuchWindow || e.status == InvalidSessionId)
  }

  /** What a Loop reports after a fatal failure: a new message error, no longer a standard one. */
  function LoopFailure(e: Error): (f: Error)
    requires IsFatal(e)
    ensures f.Other? && !IsFatal(f)
  {
    Other(LoopFailedPrefix + Code(e.status))
  }

  /** A run never gains fuel and only appends to the log. */
  predicate Advances(s: Session, t: Session) {
    t.fuel <= s.fuel && s.log <= t.log
  }

  /** A browser command's fault as a step outcome, the context `ctx` on success. */
  function Settled(fault: Option<Error>, ctx: Context): (o: Outcome<Context>)
    ensures o.Ok? <==> fault.None?
  {
    if fault.Some? then Err(fault.value) else Ok(ctx)
  }

  function Settle(p: (Option<Error>, Session), ctx: Context): (Outcome<Context>, Session) {
    (Settled(p.0, ctx), p.1)
  }

  function Observe(w: Watch): Call {
    if w == Url then GetUrl else GetSource
  }

  /** What `Observe(w)` returns in session `s`. */
  function Observed(s: Session, w: Watch): string {
    if w == Url then s.page.url else s.page.source
  }

  /** One step: the command with the context its predecessor returned. */
  function Exec(s: Session, ctx: Context, cmd: WebCommand): (r: (Outcome<Context>, Session))
    decreases s.fuel, Size(cmd), 1
    ensures Advances(s, r.1)
    ensures r.0.Ok? && IsContextFree(cmd.commandType) ==> r.0.value == ctx
    ensures r.0.Ok? && !IsContextFree(cmd.commandType) ==> (r.0.value.Some? <==> cmd.commandType.Recursive?)
  {
    var sel := cmd.selector;
    match cmd.commandType
    case GoTo(url) => Settle(Issue(s, Navigate(url)), ctx)
    case Loop(body) =>
      assert KindSize(cmd.commandType) == SizeSeq(body);
      var (o, s1) := Retry(s, body);
      (match o
       case Ok(_) => Ok(ctx)
       case Err(e) => Err(e)
       case Stalled => Stalled
       case Panicked => Panicked, s1)
    case ChangeWindowSize(w, h) => Settle(Issue(s, SetWindowSize(w, h)), ctx)
    case ScrollIntoView =>
      if sel.None? then (Err(Other(NeedsSelector)), s)
      else Settle(Issue(s, ScrollScript(sel.value)), ctx)
    case WaitForSeconds(sec) =>
      if !IsDuration(sec) then (Panicked, s)
      else if sel.Some? then Settle(Issue(s, WaitForFind(sel.value)), ctx)
      else (Ok(ctx), s)
    case ChangeWindow(i) => SwitchWindow(s, ctx, i)
    case LeaveFrame => Settle(Issue(s, ParentFrame), ctx)
    case PrintSource => Settle(Issue(s, GetSource), ctx)
    case Wait =>
      if sel.None? then (Err(Other(NeedsSelector)), s)
      else Settle(Issue(s, WaitForFind(sel.value)), ctx)
    case _ => OnElement(s, ctx, cmd)
  }

  /** ChangeWindow(i): list the windows, switch to the i-th if there is one. */
  function SwitchWindow(s: Session, ctx: Context, i: Usize): (r: (Outcome<Context>, Session))
    ensures Advances(s, r.1)
  {
    var (f, s1) := Issue(s, ListWindows);
    if f.Some? then (Err(f.value), s1)
    else if i < |s1.windows| then Settle(Issue(s1, SwitchToWindow(s1.windows[i])), ctx)
    else (Err(Other(NoSuchWindowIndex)), s1)
  }

  /**
   * The element-needing kinds: the selector is required; it is looked up
   * within the context element if there is one, else from the document root.
   */
  function OnElement(s: Session, ctx: Context, cmd: WebCommand): (r: (Outcome<Context>, Session))
    requires !IsContextFree(cmd.commandType)
    ensures Advances(s, r.1)
    ensures r.0.Ok? ==> (r.0.value.Some? <==> cmd.commandType.Recursive?)
  {
    match cmd.selector
    case None => (Err(Other(NeedsSelector)), s)
    case Some(sel) =>
      var (f, s1) := Issue(s, FindElement(ctx, sel));
      if f.Some? then (Err(f.value), s1)
      else
        var e := NextReply(s).elem;
        match cmd.commandType
        case Clear => Settle(Issue(s1, ClearElement(e)), None)
        case EnterFrame => Settle(Issue(s1, SwitchToFrame(e)), None)
        case ClickUntilNavigation => ClickUntil(s1, e, sel, Url)
        case ClickUntilDomChanged => ClickUntil(s1, e, sel, Source)
        case Click => Settle(Issue(s1, ClickElement(e)), None)
        case Input(text) => Settle(Issue(s1, SendKeys(e, text)), None)
        case Recursive(_) => (Ok(Some(e)), s1)
        case Check => (Ok(None), s1)
  }

  /** ClickUntilNavigation / ClickUntilDomChanged: take the baseline, then click until it changes. */
  function ClickUntil(s: Session, e: Element, sel: string, w: Watch): (r: (Outcome<Context>, Session))
    ensures Advances(s, r.1)
    ensures r.0.Ok? ==> r.0.value == None && Observed(r.1, w) != Observed(s, w)
  {
    var (f, s1) := Issue(s, Observe(w));
    if f.Some? then (Err(f.value), s1)
    else Clicking(s1, e, sel, w, Observed(s1, w))
  }

  /**
   * One pass of the click-until loop costs one unit of fuel: click `e`,
   * observe; stop if the observation differs from `baseline`, else find the
   * element again from the document root and go on with it.
   */
  function Clicking(s: Session, e: Element, sel: string, w: Watch, baseline: string): (r: (Outcome<Context>, Session))
    decreases s.fuel
    ensures Advances(s, r.1)
    ensures r.0.Ok? ==> r.0.value == None && Observed(r.1, w) != baseline
  {
    if s.fuel == 0 then (Stalled, s)
    else
      var (f1, s1) := Issue(s.(fuel := s.fuel - 1), ClickElement(e));
      if f1.Some? then (Err(f1.value), s1)
      else
        var (f2, s2) := Issue(s1, Observe(w));
        if f2.Some? then (Err(f2.value), s2)
        else if Observed(s2, w) != baseline then (Ok(None), s2)
        else
          var (f3, s3) := Issue(s2, FindElement(None, sel));
          if f3.Some? then (Err(f3.value), s3)
          else Clicking(s3, NextReply(s2).elem, sel, w, baseline)
  }

  /**
   * run_command from the cursor `cmd` with context `ctx`: run the command and,
   * while it is a `Recursive` one, go on with its nested command and the
   * context it returned; the first failure ends the chain.
   */
  function RunFrom(s: Session, ctx: Context, cmd: WebCommand): (r: (Outcome<()>, Session))
    decreases s.fuel, Size(cmd), 2
    ensures Advances(s, r.1)
  {
    var (o, s1) := Exec(s, ctx, cmd);
    match o
    case Ok(next) =>
      if cmd.commandType.Recursive? then
        assert KindSize(cmd.commandType) == Size(cmd.commandType.command);
        RunFrom(s1, next, cmd.commandType.command)
      else (Ok(()), s1)
    case Err(e) => (Err(e), s1)
    case Stalled => (Stalled, s1)
    case Panicked => (Panicked, s1)
  }

  /** Sibling commands in order, each from no context; the first failure ends the pass. */
  function Pass(s: Session, cmds: seq<WebCommand>): (r: (Outcome<()>, Session))
    decreases s.fuel, SizeSeq(cmds), 3
    ensures Advances(s, r.1)
  {
    if cmds == [] then (Ok(()), s)
    else
      var (o, s1) := RunFrom(s, None, cmds[0]);
      if o.Ok? then Pass(s1, cmds[1..]) else (o, s1)
  }

  /**
   * The Loop controller: each pass costs one unit of fuel and runs the whole
   * body; a fully successful pass ends the Loop, a fatal failure ends it with
   * `LoopFailure`, any other failure starts the body again from its first command.
   */
  function Retry(s: Session, body: seq<WebCommand>): (r: (Outcome<()>, Session))
    decreases s.fuel, SizeSeq(body), 4
    ensures Advances(s, r.1)
    ensures r.0.Err? ==> exists e :: IsFatal(e) && r.0.error == LoopFailure(e)
  {
    if s.fuel == 0 then (Stalled, s)
    else
      var (o, s1) := Pass(s.(fuel := s.fuel - 1), body);
      match o
      case Ok(_) => (Ok(()), s1)
      case Stalled => (Stalled, s1)
      case Panicked => (Panicked, s1)
      case Err(e) => if IsFatal(e) then (Err(LoopFailure(e)), s1) else Retry(s1, body)
  }

  // ---------------------------------------------------------------- the chain as a sequence

  /**
   * The chain run_command builds: the command, then each nested `Recursive`
   * command in order, ending at the first command that is not `Recursive`.
   */
  function Flatten(cmd: WebCommand): (chain: seq<WebCommand>)
    decreases cmd
    ensures |chain| == Depth(cmd) + 1 && chain[0] == cmd
    ensures forall i :: 0 <= i < |chain| - 1 ==>
      chain[i].commandType.Recursive? && chain[i + 1] == chain[i].commandType.command
    ensures !chain[|chain| - 1].commandType.Recursive?
  {
    if cmd.commandType.Recursive? then [cmd] + Flatten(cmd.commandType.command) else [cmd]
  }

  /** The fold over a chain: each step gets the context the previous one returned; stops at the first failure. */
  function Fold(s: Session, ctx: Context, chain: seq<WebCommand>): (r: (Outcome<Context>, Session))
    decreases |chain|
  {
    if chain == [] then (Ok(ctx), s)
    else
      var (o, s1) := Exec(s, ctx, chain[0]);
      if o.Ok? then Fold(s1, o.value, chain[1..]) else (o, s1)
  }

  /** The fold's outcome with the final context dropped, as run_command does. */
  function Forget(o: Outcome<Context>): Outcome<()> {
    match o
    case Ok(_) => Ok(())
    case Err(e) => Err(e)
    case Stalled => Stalled
    case Panicked => Panicked
  }
}
