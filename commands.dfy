/**
 * The command vocabulary of yaml2commands: a `WebCommand` is one optional CSS
 * selector plus one `CommandType`. The type is extended with the four variants
 * that the interpreter matches on (Loop, Clear, ClickUntilNavigation,
 * ClickUntilDomChanged).
 */
module Commands {
  import opened Options

  /** Rust's `u32`. */
  type U32 = x: int | 0 <= x < 0x1_0000_0000

  /** Rust's `usize` on a 64-bit target. */
  type Usize = x: int | 0 <= x < 0x1_0000_0000_0000_0000

  datatype CommandType =
    | Click
    | Check
    | Input(text: string)
    | Wait
    | WaitForSeconds(seconds: real)
    | GoTo(url: string)
    | ChangeWindow(index: Usize)
    | EnterFrame
    | LeaveFrame
    | PrintSource
    | Recursive(command: WebCommand)
    | ScrollIntoView
    | ChangeWindowSize(width: U32, height: U32)
    | Loop(commands: seq<WebCommand>)
    | Clear
    | ClickUntilNavigation
    | ClickUntilDomChanged

  datatype WebCommand = WebCommand(selector: Option<string>, commandType: CommandType)

  /** Number of command nodes in a command tree; the measure every recursion over commands uses. */
  function Size(c: WebCommand): (n: nat)
    decreases c
    ensures n >= 1
  {
    1 + KindSize(c.commandType)
  }

  function KindSize(k: CommandType): nat
    decreases k
  {
    match k
    case Recursive(c) => Size(c)
    case Loop(cs) => SizeSeq(cs)
    case _ => 0
  }

  function SizeSeq(cs: seq<WebCommand>): nat
    decreases cs
  {
    if cs == [] then 0 else Size(cs[0]) + SizeSeq(cs[1..])
  }

  /** Number of `Recursive` wrappers on the way from `c` to the first non-`Recursive` command. */
  function Depth(c: WebCommand): nat
    decreases c
  {
    if c.commandType.Recursive? then 1 + Depth(c.commandType.command) else 0
  }

  /** A nested command is strictly smaller than the one that boxes it, so every `Recursive` chain is finite. */
  lemma {:induction false} DepthBelowSize(c: WebCommand)
    decreases c
    ensures Depth(c) < Size(c)
    ensures c.commandType.Recursive? ==> Size(c.commandType.command) < Size(c)
  {
    if c.commandType.Recursive? {
      DepthBelowSize(c.commandType.command);
    }
  }
}
