/** Properties of the interpreter, stated over the functions of the Interpreter module. */
module Properties {
  import opened Options
  import opened Commands
  import opened Browser
  import opened Interpreter

  // ---------------------------------------------------------------- the Recursive chain

  /** run_command is the fold over the flattened chain, seeded with the given context. */
  lemma {:induction false} RunFromIsFold(s: Session, ctx: Context, cmd: WebCommand)
    decreases cmd
    ensures var f := Fold(s, ctx, Flatten(cmd)); RunFrom(s, ctx, cmd) == (Forget(f.0), f.1)
  {
    var chain := Flatten(cmd);
    assert chain[0] == cmd;
    var (o, s1) := Exec(s, ctx, cmd);
    if o.Ok? && cmd.commandType.Recursive? {
      assert chain[1..] == Flatten(cmd.commandType.command);
      RunFromIsFold(s1, o.value, cmd.commandType.command);
    } else if o.Ok? {
      assert chain[1..] == [];
    }
  }

  /**
   * Folding a chain in two parts: the second part starts from the context and
   * session the first part ended with, and does not run at all if the first failed.
   */
  lemma {:induction false} FoldAppend(s: Session, ctx: Context, a: seq<WebCommand>, b: seq<WebCommand>)
    decreases |a|
    ensures var f := Fold(s, ctx, a);
      Fold(s, ctx, a + b) == if f.0.Ok? then Fold(f.1, f.0.value, b) else f
  {
    if a == [] {
      assert a + b == b;
    } else {
      assert (a + b)[0] == a[0] && (a + b)[1..] == a[1..] + b;
      var (o, s1) := Exec(s, ctx, a[0]);
      if o.Ok? {
        FoldAppend(s1, o.value, a[1..], b);
      }
    }
  }

  // ---------------------------------------------------------------- the step executor

  /** Kinds that need a selector fail without sending anything to the browser when it is missing. */
  lemma MissingSelectorFailsFirst(s: Session, ctx: Context, cmd: WebCommand)
    requires cmd.selector.None?
    requires !IsContextFree(cmd.commandType) || cmd.commandType.Wait? || cmd.commandType.ScrollIntoView?
    ensures Exec(s, ctx, cmd) == (Err(Other(NeedsSelector)), s)
  {
  }

  /**
   * An element-needing command first looks its selector up within the context
   * element when there is one, and from the document root otherwise.
   */
  lemma LookupUsesContext(s: Session, ctx: Context, cmd: WebCommand)
    requires !IsContextFree(cmd.commandType) && cmd.selector.Some?
    ensures var r := Exec(s, ctx, cmd);
      |r.1.log| > |s.log| && r.1.log[|s.log|] == FindElement(ctx, cmd.selector.value)
  {
    var (f, s1) := Issue(s, FindElement(ctx, cmd.selector.value));
    assert s1.log[|s.log|] == FindElement(ctx, cmd.selector.value);
  }

  /** `Recursive` returns the element its own lookup found; that is the next command's context. */
  lemma RecursiveReturnsFound(s: Session, ctx: Context, cmd: WebCommand)
    requires cmd.commandType.Recursive? && cmd.selector.Some?
    requires NextReply(s).fault.None?
    ensures Exec(s, ctx, cmd) == (Ok(Some(NextReply(s).elem)), Issue(s, FindElement(ctx, cmd.selector.value)).1)
  {
  }

  /**
   * WaitForSeconds with a selector waits for it (and may fail); without one it
   * only sleeps; a number of seconds that is no duration aborts the program first.
   */
  lemma WaitForSecondsBranches(s: Session, ctx: Context, cmd: WebCommand)
    requires cmd.commandType.WaitForSeconds?
    ensures !IsDuration(cmd.commandType.seconds) ==> Exec(s, ctx, cmd) == (Panicked, s)
    ensures IsDuration(cmd.commandType.seconds) && cmd.selector.None? ==> Exec(s, ctx, cmd) == (Ok(ctx), s)
    ensures IsDuration(cmd.commandType.seconds) && cmd.selector.Some? ==>
      Exec(s, ctx, cmd) == Settle(Issue(s, WaitForFind(cmd.selector.value)), ctx)
  {
  }

  // ---------------------------------------------------------------- windows and frames

  /** ChangeWindow(i) with i in range switches to the i-th listed window and its top-level frame. */
  lemma ChangeWindowInRange(s: Session, ctx: Context, cmd: WebCommand)
    requires cmd.commandType.ChangeWindow? && cmd.commandType.index < |s.windows|
    requires |s.replies| >= 2 && s.replies[0].fault.None? && s.replies[1].fault.None?
    ensures var r := Exec(s, ctx, cmd);
      r.0 == Ok(ctx) && r.1.window == s.windows[cmd.commandType.index] && r.1.frameDepth == 0 &&
      r.1.log == s.log + [ListWindows, SwitchToWindow(s.windows[cmd.commandType.index])]
  {
    var s1 := Issue(s, ListWindows).1;
    assert NextReply(s1) == s.replies[1];
  }

  /** ChangeWindow(i) past the end fails with "Couldn't find the window" and changes nothing but the exchange. */
  lemma ChangeWindowOutOfRange(s: Session, ctx: Context, cmd: WebCommand)
    requires cmd.commandType.ChangeWindow? && cmd.commandType.index >= |s.windows|
    requires NextReply(s).fault.None?
    ensures Exec(s, ctx, cmd) ==
      (Err(Other(NoSuchWindowIndex)), s.(replies := Rest(s.replies), log := s.log + [ListWindows]))
  {
  }

  /** EnterFrame then LeaveFrame, both answered with success, returns to the frame depth it started at. */
  lemma EnterThenLeaveFrame(s: Session, sel: string)
    requires |s.replies| >= 3 && forall i :: 0 <= i < 3 ==> s.replies[i].fault.None?
    ensures Pass(s, [WebCommand(Some(sel), EnterFrame), WebCommand(None, LeaveFrame)]).1.frameDepth == s.frameDepth
  {
    var cmds := [WebCommand(Some(sel), EnterFrame), WebCommand(None, LeaveFrame)];
    var s1 := Issue(s, FindElement(None, sel)).1;
    assert NextReply(s1) == s.replies[1];
    var s2 := Issue(s1, SwitchToFrame(s.replies[0].elem)).1;
    assert s2.frameDepth == s.frameDepth + 1;
    assert Exec(s, None, cmds[0]) == (Ok(None), s2);
    assert RunFrom(s, None, cmds[0]) == (Ok(()), s2);
    assert NextReply(s2) == s.replies[2];
    var s3 := Issue(s2, ParentFrame).1;
    assert s3.frameDepth == s.frameDepth;
    assert RunFrom(s2, None, cmds[1]) == (Ok(()), s3);
    assert cmds[1..] == [WebCommand(None, LeaveFrame)] && cmds[1..][1..] == [];
    assert Pass(s2, cmds[1..]) == (Ok(()), s3);
  }

  // ---------------------------------------------------------------- the Loop controller

  /** One turn of the Loop controller, by the outcome of the pass it runs. */
  lemma RetryTurn(s: Session, body: seq<WebCommand>)
    requires s.fuel > 0
    ensures var p := Pass(s.(fuel := s.fuel - 1), body);
      && (p.0.Ok? ==> Retry(s, body) == (Ok(()), p.1))
      && (p.0.Err? && IsFatal(p.0.error) ==> Retry(s, body) == (Err(LoopFailure(p.0.error)), p.1))
      && (p.0.Err? && !IsFatal(p.0.error) ==> Retry(s, body) == Retry(p.1, body))
      && (p.0.Stalled? ==> Retry(s, body) == (Stalled, p.1))
      && (p.0.Panicked? ==> Retry(s, body) == (Panicked, p.1))
  {
  }

  /**
   * A Loop directly inside a Loop: when the inner one gives up on a fatal
   * error, its failure is a plain message error, so the outer Loop runs its
   * body again instead of stopping.
   */
  lemma InnerLoopFailureIsRetried(s: Session, sel: Option<string>, inner: seq<WebCommand>)
    requires s.fuel > 0
    requires Pass(s.(fuel := s.fuel - 1), [WebCommand(sel, Loop(inner))]).0.Err?
    ensures var body := [WebCommand(sel, Loop(inner))];
      Retry(s, body) == Retry(Pass(s.(fuel := s.fuel - 1), body).1, body)
  {
    var body := [WebCommand(sel, Loop(inner))];
    var s0 := s.(fuel := s.fuel - 1);
    assert body[1..] == [];
    var (o, s1) := Exec(s0, None, body[0]);
    assert o.Err?;
    var e :| IsFatal(e) && o.error == LoopFailure(e);
    assert !IsFatal(o.error);
  }

  /** The GoTo command used in the Loop scenarios. */
  function GoToCmd(url: string): WebCommand {
    WebCommand(None, GoTo(url))
  }

  /** A pass over the one-command body [GoTo(url)] is one Navigate, failing exactly when the browser says so. */
  lemma GoToPass(s: Session, url: string)
    ensures Pass(s, [GoToCmd(url)]) ==
      (if NextReply(s).fault.Some? then Err(NextReply(s).fault.value) else Ok(()), Issue(s, Navigate(url)).1)
  {
    var body := [GoToCmd(url)];
    assert body[1..] == [];
    var (f, s1) := Issue(s, Navigate(url));
    assert Exec(s, None, body[0]) == (Settled(f, None), s1);
    assert RunFrom(s, None, body[0]) == (if f.Some? then Err(f.value) else Ok(()), s1);
  }

  /**
   * A Loop whose body fails twice with non-fatal errors and then succeeds runs
   * its body exactly three times and then succeeds with the incoming context.
   */
  lemma FailTwiceThenSucceed(s: Session, ctx: Context, url: string, e1: Error, e2: Error)
    requires !IsFatal(e1) && !IsFatal(e2) && s.fuel >= 3
    requires |s.replies| >= 3 && s.replies[0].fault == Some(e1) && s.replies[1].fault == Some(e2)
    requires s.replies[2].fault.None?
    ensures var r := Exec(s, ctx, WebCommand(None, Loop([GoToCmd(url)])));
      r.0 == Ok(ctx) && r.1.log == s.log + [Navigate(url), Navigate(url), Navigate(url)] &&
      r.1.fuel == s.fuel - 3 && r.1.replies == s.replies[3..]
  {
    var body := [GoToCmd(url)];
    GoToLoopTurn(s, url);
    var s1 := Issue(s.(fuel := s.fuel - 1), Navigate(url)).1;
    assert NextReply(s1) == s.replies[1];
    GoToLoopTurn(s1, url);
    var s2 := Issue(s1.(fuel := s1.fuel - 1), Navigate(url)).1;
    assert NextReply(s2) == s.replies[2];
    GoToLoopTurn(s2, url);
    var s3 := Issue(s2.(fuel := s2.fuel - 1), Navigate(url)).1;
    assert Retry(s, body) == (Ok(()), s3);
    assert s.replies[3..] == s.replies[1..][1..][1..];
  }

  /** One turn of a Loop over [GoTo(url)]: one Navigate, then stop or go round again. */
  lemma GoToLoopTurn(s: Session, url: string)
    requires s.fuel > 0
    ensures var s1 := Issue(s.(fuel := s.fuel - 1), Navigate(url)).1;
      var f := NextReply(s).fault;
      && (f.None? ==> Retry(s, [GoToCmd(url)]) == (Ok(()), s1))
      && (f.Some? && !IsFatal(f.value) ==> Retry(s, [GoToCmd(url)]) == Retry(s1, [GoToCmd(url)]))
  {
    GoToPass(s.(fuel := s.fuel - 1), url);
  }

  /** A Loop whose body fails with a session-fatal error stops after that one pass, with no retry. */
  lemma FatalFailureStopsLoop(s: Session, ctx: Context, url: string, e: Error)
    requires IsFatal(e) && s.fuel >= 1
    requires NextReply(s).fault == Some(e)
    ensures var r := Exec(s, ctx, WebCommand(None, Loop([GoToCmd(url)])));
      r.0 == Err(LoopFailure(e)) && r.1.log == s.log + [Navigate(url)]
  {
    var s0 := s.(fuel := s.fuel - 1);
    GoToPass(s0, url);
    assert Retry(s, [GoToCmd(url)]) == (Err(LoopFailure(e)), Issue(s0, Navigate(url)).1);
  }

  // ---------------------------------------------------------------- click until changed

  /** The session after click, observe and (when reached) the lookup of one click-until pass. */
  function AfterClick(s: Session, e: Element): Session
    requires s.fuel > 0
  {
    Issue(s.(fuel := s.fuel - 1), ClickElement(e)).1
  }

  /** The pass stops at the first observation that differs from the baseline. */
  lemma ClickingStopsAtChange(s: Session, e: Element, sel: string, w: Watch, baseline: string)
    requires s.fuel > 0 && |s.replies| >= 2 && s.replies[0].fault.None? && s.replies[1].fault.None?
    requires Observed(AfterClick(s, e), w) != baseline
    ensures var r := Clicking(s, e, sel, w, baseline);
      r.0 == Ok(None) && r.1.log == s.log + [ClickElement(e), Observe(w)]
  {
    assert NextReply(AfterClick(s, e)) == s.replies[1];
  }

  /**
   * When the observation is unchanged, the element is found again by its
   * selector from the document root (not within any context) and the loop
   * goes on with that element and the same baseline.
   */
  lemma ClickingRefindsFromRoot(s: Session, e: Element, sel: string, w: Watch, baseline: string)
    requires s.fuel > 0 && |s.replies| >= 3
    requires forall i :: 0 <= i < 3 ==> s.replies[i].fault.None?
    requires Observed(AfterClick(s, e), w) == baseline
    ensures var s2 := Issue(AfterClick(s, e), Observe(w)).1;
      var s3 := Issue(s2, FindElement(None, sel)).1;
      s3.log == s.log + [ClickElement(e), Observe(w), FindElement(None, sel)] &&
      Clicking(s, e, sel, w, baseline) == Clicking(s3, s.replies[2].elem, sel, w, baseline)
  {
    var s1 := AfterClick(s, e);
    assert NextReply(s1) == s.replies[1];
    var s2 := Issue(s1, Observe(w)).1;
    assert NextReply(s2) == s.replies[2];
  }

  /** A failing click ends the loop at once with that failure. */
  lemma ClickingStopsOnClickFailure(s: Session, e: Element, sel: string, w: Watch, baseline: string)
    requires s.fuel > 0 && NextReply(s).fault.Some?
    ensures Clicking(s, e, sel, w, baseline) == (Err(NextReply(s).fault.value), AfterClick(s, e))
  {
  }

  /** A click-until command whose baseline snapshot fails ends with that failure before any click. */
  lemma ClickUntilStopsOnSnapshotFailure(s: Session, e: Element, sel: string, w: Watch)
    requires NextReply(s).fault.Some?
    ensures ClickUntil(s, e, sel, w) == (Err(NextReply(s).fault.value), Issue(s, Observe(w)).1)
  {
  }

  /** A failing observation after the click ends the loop at once with that failure. */
  lemma ClickingStopsOnObserveFailure(s: Session, e: Element, sel: string, w: Watch, baseline: string)
    requires s.fuel > 0 && NextReply(s).fault.None? && NextReply(AfterClick(s, e)).fault.Some?
    ensures Clicking(s, e, sel, w, baseline) ==
      (Err(NextReply(AfterClick(s, e)).fault.value), Issue(AfterClick(s, e), Observe(w)).1)
  {
  }

  /** A failing lookup from the root, after an unchanged observation, ends the loop at once with that failure. */
  lemma ClickingStopsOnRefindFailure(s: Session, e: Element, sel: string, w: Watch, baseline: string)
    requires s.fuel > 0 && NextReply(s).fault.None? && NextReply(AfterClick(s, e)).fault.None?
    requires Observed(AfterClick(s, e), w) == baseline
    ensures var s2 := Issue(AfterClick(s, e), Observe(w)).1;
      NextReply(s2).fault.Some? ==>
        Clicking(s, e, sel, w, baseline) == (Err(NextReply(s2).fault.value), Issue(s2, FindElement(None, sel)).1)
  {
  }

  // ---------------------------------------------------------------- sequences of commands

  /** Running a + b is running a, then b from where a ended, unless a failed. */
  lemma {:induction false} PassAppend(s: Session, a: seq<WebCommand>, b: seq<WebCommand>)
    decreases |a|
    ensures var p := Pass(s, a);
      Pass(s, a + b) == if p.0.Ok? then Pass(p.1, b) else p
  {
    if a == [] {
      assert a + b == b;
    } else {
      assert (a + b)[0] == a[0] && (a + b)[1..] == a[1..] + b;
      var (o, s1) := RunFrom(s, None, a[0]);
      if o.Ok? {
        PassAppend(s1, a[1..], b);
      }
    }
  }

  /** If command k fails, the commands after it never run and the run's result is that failure. */
  lemma FailFast(s: Session, cmds: seq<WebCommand>, k: nat)
    requires k < |cmds|
    requires Pass(s, cmds[..k]).0.Ok?
    requires !RunFrom(Pass(s, cmds[..k]).1, None, cmds[k]).0.Ok?
    ensures Pass(s, cmds) == RunFrom(Pass(s, cmds[..k]).1, None, cmds[k])
  {
    assert cmds == cmds[..k] + cmds[k..];
    PassAppend(s, cmds[..k], cmds[k..]);
    assert cmds[k..][0] == cmds[k];
  }

  /**
   * [GoTo(url), Recursive "div" -> Click "a"]: "a" is looked up within the
   * element found for "div", not from the document root.
   */
  lemma DescendScopesNextLookup(s: Session, url: string)
    requires |s.replies| >= 4 && forall i :: 0 <= i < 4 ==> s.replies[i].fault.None?
    ensures var cmds := [GoToCmd(url), WebCommand(Some("div"), Recursive(WebCommand(Some("a"), Click)))];
      var r := Pass(s, cmds);
      r.0 == Ok(()) &&
      r.1.log == s.log + [Navigate(url), FindElement(None, "div"),
                          FindElement(Some(s.replies[1].elem), "a"), ClickElement(s.replies[2].elem)]
  {
    var click := WebCommand(Some("a"), Click);
    var descend := WebCommand(Some("div"), Recursive(click));
    var cmds := [GoToCmd(url), descend];
    var s1 := Issue(s, Navigate(url)).1;
    assert RunFrom(s, None, cmds[0]) == (Ok(()), s1);
    assert NextReply(s1) == s.replies[1];
    var s2 := Issue(s1, FindElement(None, "div")).1;
    assert Exec(s1, None, descend) == (Ok(Some(s.replies[1].elem)), s2);
    assert NextReply(s2) == s.replies[2];
    var s3 := Issue(s2, FindElement(Some(s.replies[1].elem), "a")).1;
    assert NextReply(s3) == s.replies[3];
    var s4 := Issue(s3, ClickElement(s.replies[2].elem)).1;
    assert Exec(s2, Some(s.replies[1].elem), click) == (Ok(None), s4);
    assert RunFrom(s2, Some(s.replies[1].elem), click) == (Ok(()), s4);
    assert RunFrom(s1, None, descend) == (Ok(()), s4);
    assert cmds[1..] == [descend] && cmds[1..][1..] == [];
    assert Pass(s1, cmds[1..]) == (Ok(()), s4);
  }
}
