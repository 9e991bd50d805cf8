# WebAutomator interpreter — a Dafny model

WebAutomator reads a YAML list of browser-automation commands and runs them against a browser driven over WebDriver. This project models the two core pieces:

- **The command vocabulary** of `yaml2commands` (`commands.dfy`, `encoding.dfy`). A `WebCommand` is an optional CSS selector plus one `CommandType`. The type is extended with the four variants the interpreter matches on but the library file does not show: `Loop`, `Clear`, `ClickUntilNavigation` and `ClickUntilDomChanged`. The serde encoding is modelled over a YAML value tree, not over YAML text. The encoding is externally tagged:
  - a unit variant is its bare tag;
  - a payload variant is a one-entry map from its tag to its payload;
  - a struct is a map of its fields;
  - `None` is null.

  Decoding an encoded command gives back that command.
- **The interpreter of `src/main.rs`**:
  - `do_command_detail` runs one step;
  - `run_command` walks a command and its chain of nested `Recursive` commands, threading the element context;
  - the Loop retry controller;
  - the click-until loops;
  - the command loop of `main`.

The browser is reached through the fantoccini client, whose code is not part of this model. It is replaced by an abstract session (`browser.dfy`) that works as a scripted oracle:

- Every command sent to the browser consumes the next `Reply`. The reply says whether the command failed (a standard WebDriver error status or any other error), which element a lookup found, and which page the browser shows after an action. A used-up script answers with success and no change.
- The session holds:
  - the page (URL and source);
  - the window list and the current window;
  - the frame depth;
  - the log of commands sent.
- Switching window goes to that window's top-level frame, as the W3C WebDriver "Switch To Window" command does.

The Loop controller and the click-until loops in the source have no bound. The model gives the session a retry budget (`fuel`). Each Loop pass and each click-until pass spends one unit. When the budget is gone the outcome is `Stalled`, which stands for a run that would go on looping.

`WaitForSeconds` turns its number of seconds into a `Duration` with `Duration::from_secs_f64` (src/main.rs:148, 151), which panics on a negative number of seconds and on one of 2^64 or more. The model gives that case the outcome `Panicked`. It happens before anything is sent to the browser, and no Loop catches it: it ends the whole run.

The model has two layers:

- `interpreter.dfy` states the behaviour as functions of the starting session.
- `driver.dfy` holds the imperative form. A `Client` class owns the session fields that the browser commands change in place. Its methods carry the source's loops:
  - the cursor walk of `run_command`;
  - the nested retry loops of the Loop arm;
  - the click-until loops;
  - the `for` loop of `main`.

  Each method is proved to end in exactly the outcome and session that the matching function gives. `properties.dfy` proves the interpreter's properties about those functions.

Behaviour of src/main.rs worth knowing, all of it modelled as the code does it:

- **Fatal errors under nested Loops.** A Loop that meets a fatal error (`NoSuchWindow` or `InvalidSessionId`) does not pass that error on. It fails with a new message error, "A loop has failed: …" (src/main.rs:123), and that error is no longer a standard WebDriver error. So a Loop inside another Loop turns a session-fatal failure into one that the outer Loop retries (`InnerLoopFailureIsRetried`).
- **Missing selectors inside a Loop.** A missing selector is an ordinary message error (src/main.rs:97). Inside a Loop it is retried like any other non-fatal failure.
- **`Wait` has no timeout.** `Wait` waits for its selector with no timeout of its own (src/main.rs:172-175). Only `WaitForSeconds` with a selector bounds the wait.
- **A failed Loop does not return its context.** A Loop returns the incoming context only when a pass succeeds (src/main.rs:132).

## Model

| member | source | states |
|---|---|---|
| `Commands.DepthBelowSize` | yaml2commands/src/lib.rs:16 | A boxed nested command is strictly smaller than its parent. So every `Recursive` chain is finite, and its depth is below the command's size. |
| `Encoding.EncodeKind` | yaml2commands/src/lib.rs:33-39 | External tagging: a command type encodes as a bare tag exactly when it is a unit variant. Otherwise it encodes as a one-entry map keyed by its tag. |
| `Encoding.EncodeCommand` | yaml2commands/src/lib.rs:67-78 | A command encodes as a map with `selector` then `command_type`. The selector entry is null exactly when the selector is `None`. |
| `Encoding.UnitVariantOfTag` | yaml2commands/src/lib.rs:5-19 | Every unit variant is read back from its bare tag. |
| `Encoding.DecodeEncodeScalarPayload` | yaml2commands/src/lib.rs:8-18 | `Input`, `WaitForSeconds`, `GoTo`, `ChangeWindow` and the `ChangeWindowSize { width, height }` struct variant decode back from their encoding. |
| `Encoding.DecodeEncodeKind` | yaml2commands/src/lib.rs:4-19 | Every command type decodes back from its encoding, including a nested `Recursive` and a `Loop` body. |
| `Encoding.DecodeEncodeCommand` | yaml2commands/src/lib.rs:21-25 | Decoding an encoded command gives back the same command. |
| `Encoding.DecodeEncodeList` | yaml2commands/src/lib.rs:102-121 | A list of commands decodes back from its encoding, element by element and in order. |
| `Encoding.DecodeEncodeCommands` | yaml2commands/src/lib.rs:88-121 | Decoding an encoded command file gives back the same commands. |
| `Encoding.EncodeInjective` | yaml2commands/src/lib.rs:4 | Two commands with the same encoding are equal, so equality is structural over the selector and the command type. |
| `Encoding.SerializeCommandTypesExample` | yaml2commands/src/lib.rs:32-40 | `[Click, Input("test"), Wait]` encodes as `[Click, {Input: test}, Wait]`. |
| `Encoding.SerializeWholeCommandExample` | yaml2commands/src/lib.rs:43-86 | The four commands of the serialisation test encode as that test's value tree: null selectors, the nested `width`/`height` map, and the nested `Recursive` command. |
| `Encoding.DeserializeExample` | yaml2commands/src/lib.rs:89-121 | The value tree of the deserialisation test decodes to its three commands, the last one a nested `Recursive`. |
| `Interpreter.Flatten` | src/main.rs:53-69 | The chain starts with the command and follows each nested `Recursive` command in order. It ends at the first non-`Recursive` command, so its length is the nesting depth + 1. |
| `Interpreter.Exec` | src/main.rs:101-233 | One step. It never gains fuel and only appends to the log. On success, a context-free kind returns the incoming context unchanged. On success, an element-needing kind returns an element exactly when it is `Recursive`. A `WaitForSeconds` whose seconds are no duration panics. |
| `Interpreter.OnElement` | src/main.rs:177-231 | The element-needing arm. On success it returns `Some(element)` exactly for `Recursive` and `None` for every other kind. |
| `Interpreter.LoopFailure` | src/main.rs:119-124 | The error a Loop reports after a fatal failure is a message error, and that error is not fatal itself. |
| `Interpreter.Retry` | src/main.rs:107-131 | A Loop fails only with `LoopFailure(e)` for some fatal `e`. A non-fatal failure of a pass never ends it; it starts the body again. |
| `Interpreter.ClickUntil` | src/main.rs:195-218 | A click-until command that succeeds returns the context `None`, and the watched URL or page source then differs from the value read before the first click. |
| `Interpreter.Clicking` | src/main.rs:197-217 | The click-until loop succeeds only when the last observation differs from the baseline taken before the first click, and then it returns `None`. |
| `Driver.Client.Execute` | src/main.rs:85-233 | Running one command on the client gives exactly the outcome and session that `Exec` gives. |
| `Driver.Client.ActOnElement` | src/main.rs:178-230 | The lookup within the context element or from the root, then the per-kind action, ends exactly as `OnElement` says. |
| `Driver.Client.ClickUntilChanged` | src/main.rs:195-218 | The baseline snapshot and the click, observe and re-find loop end exactly as `ClickUntil` says. |
| `Driver.Client.ClickOnce` | src/main.rs:198-204 | One pass of that loop spends fuel; when it ends the loop it ends it as `Clicking` says, and otherwise the rest of the loop from the element found again is the rest of `Clicking`. |
| `Driver.Client.RunCommand` | src/main.rs:48-83 | The cursor walk over the `Recursive` chain, seeded with no context, ends exactly as `RunFrom(s, None, cmd)` says. |
| `Driver.Client.RunLoop` | src/main.rs:107-133 | The retry loop, each turn running one pass of the body, ends exactly as `Retry` says. |
| `Driver.Client.RunAll` | src/main.rs:37-42 | The command loop of `main`, and equally one pass of a Loop body (src/main.rs:109-115), ends exactly as `Pass` says: each command starts from no context, and the first failure stops the run. |
| `Properties.RunFromIsFold` | src/main.rs:53-79 | `run_command` is the left fold of `Exec` over `Flatten(cmd)`, seeded with the given context. |
| `Properties.FoldAppend` | src/main.rs:72-79 | Each later command of a chain receives exactly the context its predecessor returned. The first failure stops the chain and is returned unchanged. |
| `Properties.MissingSelectorFailsFirst` | src/main.rs:93-99 | An element-needing kind, `Wait` or `ScrollIntoView` without a selector fails with "A command needs a selector string". It sends no command to the browser and leaves the session unchanged. |
| `Properties.LookupUsesContext` | src/main.rs:179-184 | The first command an element-needing step sends is the lookup of its selector. The lookup runs within the context element when there is one, and from the document root otherwise. |
| `Properties.RecursiveReturnsFound` | src/main.rs:227 | `Recursive` returns `Some` of the element that its own lookup found. |
| `Properties.WaitForSecondsBranches` | src/main.rs:146-153 | `WaitForSeconds` with a negative or overflowing number of seconds panics before sending anything. Otherwise, with a selector it is a wait-for-find that may fail, and without a selector it succeeds and sends nothing. |
| `Properties.ChangeWindowInRange` | src/main.rs:155-159 | `ChangeWindow(i)` with `i` below the number of windows switches to `windows[i]`, at frame depth 0, and passes the context through. |
| `Properties.ChangeWindowOutOfRange` | src/main.rs:160-162 | `ChangeWindow(i)` past the end fails with "Couldn't find the window". Only the window listing is added to the log, and the page, window and frame are unchanged. |
| `Properties.EnterThenLeaveFrame` | src/main.rs:164-167 | `EnterFrame` followed by `LeaveFrame` returns to the starting frame depth. |
| `Properties.RetryTurn` | src/main.rs:116-130 | A successful pass ends the Loop. A fatal failure ends it with `LoopFailure`. Any other failure starts the whole body again from the session the pass left. A pass that stalls or panics ends the Loop the same way. |
| `Properties.InnerLoopFailureIsRetried` | src/main.rs:119-128 | When an inner Loop fails inside an outer Loop's body, the outer Loop runs its body again. |
| `Properties.GoToPass` | src/main.rs:103-106 | A pass over `[GoTo(url)]` sends one `Navigate(url)` and fails exactly when the browser reports a fault. |
| `Properties.FailTwiceThenSucceed` | src/main.rs:107-133 | When a Loop's body fails twice with non-fatal errors and then succeeds, there are exactly three full passes. The Loop then succeeds with the incoming context. |
| `Properties.FatalFailureStopsLoop` | src/main.rs:119-124 | A session-fatal failure in the first pass ends the Loop with `LoopFailure` after that one pass, with no retry. |
| `Properties.ClickingStopsAtChange` | src/main.rs:198-201 | The click-until loop stops with `None` at the first post-click observation that differs from the baseline. |
| `Properties.ClickingRefindsFromRoot` | src/main.rs:202-204 | When the observation is unchanged, the element is found again from the document root, not within the context. The loop then goes on with that element and the same baseline. |
| `Properties.ClickingStopsOnClickFailure` | src/main.rs:198 | A failing click ends the loop at once with that failure. |
| `Properties.ClickUntilStopsOnSnapshotFailure` | src/main.rs:196 | A failing baseline read ends the command with that failure, before any click. |
| `Properties.ClickingStopsOnObserveFailure` | src/main.rs:199 | A failing observation after the click ends the loop at once with that failure. |
| `Properties.ClickingStopsOnRefindFailure` | src/main.rs:203 | A failing lookup from the root, after an unchanged observation, ends the loop at once with that failure. |
| `Properties.PassAppend` | src/main.rs:37-42 | Running `a + b` runs `a`, then runs `b` from where `a` ended, unless `a` failed. |
| `Properties.FailFast` | src/main.rs:38-40 | If command `k` fails, commands `k+1..` never run and the run's result is that failure. |
| `Properties.DescendScopesNextLookup` | src/main.rs:180-184 | In `[GoTo(url), Recursive "div" -> Click "a"]`, "a" is looked up within the element found for "div". |

## Left out

- Process and command-line plumbing is not modelled: option parsing, reading the input file, spawning geckodriver, connecting the client and killing it (src/main.rs:12-36, 43-45).
- The fantoccini client and the WebDriver wire protocol are external. They are replaced by the scripted session. No CSS selector matching or DOM is modelled, and element handles are numbers taken from the replies.
- The window list is fixed by the starting session. Windows that the page opens or closes are not modelled.
- The async machinery (`BoxFuture`, `stream::iter`, `try_fold`, `.boxed()`) is sequential in effect. It is modelled as ordinary calls and loops.
- Durations are not modelled. `WaitForSeconds` keeps its seconds as a `real`. The `tokio` timeout and the thread sleep are not modelled, only which branch runs and the panic of `Duration::from_secs_f64` on a negative or overflowing number of seconds. An elapsed timeout is one of the errors a reply can carry. The panic's message is not modelled.
- For `ScrollIntoView`, the session records the selector rather than the JavaScript text built from it.
- `eprintln!` logging is not modelled. `PrintSource` sends the source request, but the printed text is dropped.
- `main` prints the error that stopped the run and still returns `Ok(())`. `Driver.Client.RunAll` instead returns that error.
- Interpreter.LoopFailure: the message wraps the WebDriver error's W3C error code, not the full display text of the fantoccini error.
- Interpreter.Retry: the retry has no bound in the source. The model spends one unit of fuel per pass and reports `Stalled` when the fuel runs out, so a run that never ends is modelled only up to the fuel.
- Interpreter.Clicking: same bound as `Retry`, one unit of fuel per pass of the click-until loop.
- The YAML text is not modelled: the `---` header, quoting and indentation belong to serde_yaml's formatter. The value tree holds typed scalars, so YAML's resolution of plain scalars is not modelled either.
- The decoder's error messages describe the problem but are not serde's exact text. When several fields are wrong, which one serde reports first is not modelled. Unit variants are accepted only as bare tags, and unknown struct fields are ignored.
- `f64` is modelled as `real`, so NaN, infinities and rounding are not captured: `WaitForSeconds` with a NaN or infinite number of seconds, which also panics, cannot be written in the model.
