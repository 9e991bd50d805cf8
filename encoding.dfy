/**
 * The externally tagged serde encoding of commands, over a YAML value tree
 * (scalars, null, sequences and maps) rather than YAML text: a unit variant is
 * its bare tag, a payload variant a one-entry map from its tag to its payload,
 * a struct a map from field names to values, `None` is null.
 */
module Encoding {
  import opened Options
  import opened Commands

  datatype Value =
    | Null
    | Str(s: string)
    | Int(i: int)
    | Float(f: real)
    | List(items: seq<Value>)
    | Map(entries: seq<(string, Value)>)

  datatype Decoded<T> = Decoded(value: T) | Malformed(reason: string)

  /** The variant name serde writes for a command type. */
  function Tag(k: CommandType): string {
    match k
    case Click => "Click"
    case Check => "Check"
    case Input(_) => "Input"
    case Wait => "Wait"
    case WaitForSeconds(_) => "WaitForSeconds"
    case GoTo(_) => "GoTo"
    case ChangeWindow(_) => "ChangeWindow"
    case EnterFrame => "EnterFrame"
    case LeaveFrame => "LeaveFrame"
    case PrintSource => "PrintSource"
    case Recursive(_) => "Recursive"
    case ScrollIntoView => "ScrollIntoView"
    case ChangeWindowSize(_, _) => "ChangeWindowSize"
    case Loop(_) => "Loop"
    case Clear => "Clear"
    case ClickUntilNavigation => "ClickUntilNavigation"
    case ClickUntilDomChanged => "ClickUntilDomChanged"
  }

  /** Variants without a payload. */
  predicate IsUnitVariant(k: CommandType) {
    !(k.Input? || k.WaitForSeconds? || k.GoTo? || k.ChangeWindow? || k.Recursive? ||
      k.ChangeWindowSize? || k.Loop?)
  }

  // ---------------------------------------------------------------- encoding

  function EncodeSelector(sel: Option<string>): Value {
    match sel
    case None => Null
    case Some(s) => Str(s)
  }

  /** A command is a two-field struct: `selector` (null when absent) and `command_type`. */
  function EncodeCommand(c: WebCommand): (v: Value)
    decreases c, 1
    ensures v.Map? && |v.entries| == 2
    ensures v.entries[0] == ("selector", EncodeSelector(c.selector))
    ensures v.entries[1] == ("command_type", EncodeKind(c.commandType))
    ensures v.entries[0].1 == Null <==> c.selector.None?
  {
    Map([("selector", EncodeSelector(c.selector)), ("command_type", EncodeKind(c.commandType))])
  }

  /** Externally tagged: a unit variant is its bare tag, any other variant a one-entry map keyed by its tag. */
  function EncodeKind(k: CommandType): (v: Value)
    decreases k, 0
    ensures IsUnitVariant(k) <==> v.Str?
    ensures v.Str? ==> v.s == Tag(k)
    ensures v.Map? ==> |v.entries| == 1 && v.entries[0].0 == Tag(k)
    ensures !v.Str? ==> v.Map?
  {
    match k
    case Input(text) => Map([("Input", Str(text))])
    case WaitForSeconds(sec) => Map([("WaitForSeconds", Float(sec))])
    case GoTo(url) => Map([("GoTo", Str(url))])
    case ChangeWindow(i) => Map([("ChangeWindow", Int(i))])
    case Recursive(c) => Map([("Recursive", EncodeCommand(c))])
    case ChangeWindowSize(w, h) => Map([("ChangeWindowSize", Map([("width", Int(w)), ("height", Int(h))]))])
    case Loop(cs) => Map([("Loop", List(EncodeList(cs)))])
    case _ => Str(Tag(k))
  }

  function EncodeList(cs: seq<WebCommand>): (vs: seq<Value>)
    decreases cs
    ensures |vs| == |cs|
  {
    if cs == [] then [] else [EncodeCommand(cs[0])] + EncodeList(cs[1..])
  }

  /** A whole input file: a sequence of commands. */
  function EncodeCommands(cs: seq<WebCommand>): Value {
    List(EncodeList(cs))
  }

  // ---------------------------------------------------------------- decoding

  /** Index of the first entry with the given key. */
  function KeyIndex(es: seq<(string, Value)>, key: string): (r: Option<nat>)
    ensures r.Some? ==> r.value < |es| && es[r.value].0 == key
    ensures r.None? <==> forall j :: 0 <= j < |es| ==> es[j].0 != key
  {
    if es == [] then None
    else if es[0].0 == key then Some(0)
    else match KeyIndex(es[1..], key)
      case None => None
      case Some(j) => Some(j + 1)
  }

  /** serde rejects a struct in which a field appears twice. */
  predicate DistinctKeys(es: seq<(string, Value)>) {
    forall i, j :: 0 <= i < j < |es| ==> es[i].0 != es[j].0
  }

  function DecodeSelector(es: seq<(string, Value)>): Decoded<Option<string>> {
    match KeyIndex(es, "selector")
    case None => Decoded(None)  // a missing Option field is None
    case Some(i) =>
      match es[i].1
      case Null => Decoded(None)
      case Str(s) => Decoded(Some(s))
      case _ => Malformed("invalid type for `selector`: expected a string or null")
  }

  function DecodeCommand(v: Value): Decoded<WebCommand>
    decreases v, 0
  {
    if !v.Map? then Malformed("invalid type: expected struct WebCommand")
    else if !DistinctKeys(v.entries) then Malformed("duplicate field")
    else
      match KeyIndex(v.entries, "command_type")
      case None => Malformed("missing field `command_type`")
      case Some(i) =>
        match DecodeSelector(v.entries)
        case Malformed(m) => Malformed(m)
        case Decoded(sel) =>
          match DecodeKind(v.entries[i].1)
          case Malformed(m) => Malformed(m)
          case Decoded(k) => Decoded(WebCommand(sel, k))
  }

  /** The unit variant named by a bare tag. */
  function UnitVariant(tag: string): Option<CommandType> {
    if tag == "Click" then Some(Click)
    else if tag == "Check" then Some(Check)
    else if tag == "Wait" then Some(Wait)
    else if tag == "EnterFrame" then Some(EnterFrame)
    else if tag == "LeaveFrame" then Some(LeaveFrame)
    else if tag == "PrintSource" then Some(PrintSource)
    else if tag == "ScrollIntoView" then Some(ScrollIntoView)
    else if tag == "Clear" then Some(Clear)
    else if tag == "ClickUntilNavigation" then Some(ClickUntilNavigation)
    else if tag == "ClickUntilDomChanged" then Some(ClickUntilDomChanged)
    else None
  }

  function DecodeKind(v: Value): Decoded<CommandType>
    decreases v, 0
  {
    match v
    case Str(tag) =>
      (match UnitVariant(tag)
       case Some(k) => Decoded(k)
       case None => Malformed("unknown unit variant"))
    case Map(es) =>
      if |es| != 1 then Malformed("invalid type: expected a map with a single key")
      else DecodePayload(es[0].0, es[0].1)
    case _ => Malformed("invalid type: expected enum CommandType")
  }

  function DecodeU32(v: Value): Decoded<U32> {
    if v.Int? && 0 <= v.i < 0x1_0000_0000 then Decoded(v.i) else Malformed("invalid value: expected u32")
  }

  function DecodeWindowSize(p: Value): Decoded<CommandType> {
    if !p.Map? then Malformed("invalid type: expected struct variant ChangeWindowSize")
    else if !DistinctKeys(p.entries) then Malformed("duplicate field")
    else
      var (wi, hi) := (KeyIndex(p.entries, "width"), KeyIndex(p.entries, "height"));
      if wi.None? || hi.None? then Malformed("missing field `width` or `height`")
      else
        match (DecodeU32(p.entries[wi.value].1), DecodeU32(p.entries[hi.value].1))
        case (Decoded(w), Decoded(h)) => Decoded(ChangeWindowSize(w, h))
        case _ => Malformed("invalid value: expected u32")
  }

  /** The payload of a tagged variant; a unit variant has no payload form. */
  function DecodePayload(tag: string, p: Value): Decoded<CommandType>
    decreases p, 1
  {
    if tag == "Input" then
      if p.Str? then Decoded(Input(p.s)) else Malformed("invalid type: expected a string")
    else if tag == "WaitForSeconds" then
      (match p
       case Float(f) => Decoded(WaitForSeconds(f))
       case Int(i) => Decoded(WaitForSeconds(i as real))
       case _ => Malformed("invalid type: expected f64"))
    else if tag == "GoTo" then
      if p.Str? then Decoded(GoTo(p.s)) else Malformed("invalid type: expected a string")
    else if tag == "ChangeWindow" then
      if p.Int? && 0 <= p.i < 0x1_0000_0000_0000_0000 then Decoded(ChangeWindow(p.i))
      else Malformed("invalid value: expected usize")
    else if tag == "Recursive" then
      (match DecodeCommand(p)
       case Decoded(c) => Decoded(Recursive(c))
       case Malformed(m) => Malformed(m))
    else if tag == "ChangeWindowSize" then
      DecodeWindowSize(p)
    else if tag == "Loop" then
      (match p
       case List(items) =>
         (match DecodeList(items)
          case Decoded(cs) => Decoded(Loop(cs))
          case Malformed(m) => Malformed(m))
       case _ => Malformed("invalid type: expected a sequence"))
    else Malformed("unknown variant")
  }

  function DecodeList(vs: seq<Value>): (r: Decoded<seq<WebCommand>>)
    decreases vs
    ensures r.Decoded? ==> |r.value| == |vs|
  {
    if vs == [] then Decoded([])
    else match DecodeCommand(vs[0])
      case Malformed(m) => Malformed(m)
      case Decoded(c) =>
        match DecodeList(vs[1..])
        case Malformed(m) => Malformed(m)
        case Decoded(cs) => Decoded([c] + cs)
  }

  function DecodeCommands(v: Value): Decoded<seq<WebCommand>> {
    match v
    case List(items) => DecodeList(items)
    case _ => Malformed("invalid type: expected a sequence")
  }

  // ---------------------------------------------------------------- round trip

  lemma {:induction false} DecodeEncodeCommand(c: WebCommand)
    decreases c, 1
    ensures DecodeCommand(EncodeCommand(c)) == Decoded(c)
  {
    var es := EncodeCommand(c).entries;
    assert KeyIndex(es, "command_type") == Some(1);
    DecodeEncodeKind(c.commandType);
  }

  /** Every unit variant is recovered from its bare tag. */
  lemma UnitVariantOfTag(k: CommandType)
    requires IsUnitVariant(k)
    ensures UnitVariant(Tag(k)) == Some(k)
  {
    match k
    case Click =>
    case Check =>
    case Wait =>
    case EnterFrame =>
    case LeaveFrame =>
    case PrintSource =>
    case ScrollIntoView =>
    case Clear =>
    case ClickUntilNavigation =>
    case ClickUntilDomChanged =>
  }

  lemma {:induction false} DecodeEncodeKind(k: CommandType)
    decreases k, 0
    ensures DecodeKind(EncodeKind(k)) == Decoded(k)
  {
    if IsUnitVariant(k) {
      UnitVariantOfTag(k);
    } else if k.Recursive? {
      DecodeEncodeCommand(k.command);
      assert DecodePayload("Recursive", EncodeCommand(k.command)) == Decoded(k);
    } else if k.Loop? {
      DecodeEncodeList(k.commands);
      assert DecodePayload("Loop", List(EncodeList(k.commands))) == Decoded(k);
    } else {
      DecodeEncodeScalarPayload(k);
    }
  }

  /** The variants whose payload is a scalar or a struct of scalars. */
  lemma DecodeEncodeScalarPayload(k: CommandType)
    requires k.Input? || k.WaitForSeconds? || k.GoTo? || k.ChangeWindow? || k.ChangeWindowSize?
    ensures DecodeKind(EncodeKind(k)) == Decoded(k)
  {
    if k.ChangeWindowSize? {
      var es := [("width", Int(k.width)), ("height", Int(k.height))];
      assert KeyIndex(es, "height") == Some(1);
    }
  }

  lemma {:induction false} DecodeEncodeList(cs: seq<WebCommand>)
    decreases cs
    ensures DecodeList(EncodeList(cs)) == Decoded(cs)
  {
    if cs != [] {
      var vs := EncodeList(cs);
      assert vs[0] == EncodeCommand(cs[0]) && vs[1..] == EncodeList(cs[1..]);
      DecodeEncodeCommand(cs[0]);
      DecodeEncodeList(cs[1..]);
      assert [cs[0]] + cs[1..] == cs;
    }
  }

  /** Decoding an encoded command file gives back the same commands. */
  lemma DecodeEncodeCommands(cs: seq<WebCommand>)
    ensures DecodeCommands(EncodeCommands(cs)) == Decoded(cs)
  {
    DecodeEncodeList(cs);
  }

  /** Two commands with the same encoding are the same command. */
  lemma EncodeInjective(a: WebCommand, b: WebCommand)
    requires EncodeCommand(a) == EncodeCommand(b)
    ensures a == b
  {
    DecodeEncodeCommand(a);
    DecodeEncodeCommand(b);
  }
  // ---------------------------------------------------------------- the serde test vectors

  /** [Click, Input("test"), Wait] serialises as [Click, {Input: test}, Wait]. */
  lemma SerializeCommandTypesExample()
    ensures List([EncodeKind(Click), EncodeKind(Input("test")), EncodeKind(Wait)]) ==
      List([Str("Click"), Map([("Input", Str("test"))]), Str("Wait")])
  {
  }

  /** A struct variant nests a map of its fields under its tag; a None selector is null. */
  lemma SerializeWholeCommandExample()
    ensures EncodeCommands([
        WebCommand(None, GoTo("https://google.com")),
        WebCommand(None, ChangeWindowSize(800, 600)),
        WebCommand(Some("a#link"), Click),
        WebCommand(Some("div"), Recursive(WebCommand(Some("input"), Input("input text"))))]) ==
      List([
        Map([("selector", Null), ("command_type", Map([("GoTo", Str("https://google.com"))]))]),
        Map([("selector", Null), ("command_type",
          Map([("ChangeWindowSize", Map([("width", Int(800)), ("height", Int(600))]))]))]),
        Map([("selector", Str("a#link")), ("command_type", Str("Click"))]),
        Map([("selector", Str("div")), ("command_type", Map([("Recursive",
          Map([("selector", Str("input")), ("command_type", Map([("Input", Str("input text"))]))]))]))])])
  {
  }

  /** The deserialisation test: a nested Recursive command reads back as the expected value. */
  lemma DeserializeExample()
    ensures DecodeCommands(List([
        Map([("selector", Str("p.test")), ("command_type", Str("Wait"))]),
        Map([("selector", Str("a#link")), ("command_type", Str("Click"))]),
        Map([("selector", Str("div")), ("command_type", Map([("Recursive",
          Map([("selector", Str("input")), ("command_type", Map([("Input", Str("input text"))]))]))]))])])) ==
      Decoded([
        WebCommand(Some("p.test"), Wait),
        WebCommand(Some("a#link"), Click),
        WebCommand(Some("div"), Recursive(WebCommand(Some("input"), Input("input text"))))])
  {
    var cs := [
        WebCommand(Some("p.test"), Wait),
        WebCommand(Some("a#link"), Click),
        WebCommand(Some("div"), Recursive(WebCommand(Some("input"), Input("input text"))))];
    var vs := EncodeList(cs);
    assert vs[0] == Map([("selector", Str("p.test")), ("command_type", Str("Wait"))]);
    assert vs[1] == Map([("selector", Str("a#link")), ("command_type", Str("Click"))]);
    assert vs[2] == Map([("selector", Str("div")), ("command_type", Map([("Recursive",
          Map([("selector", Str("input")), ("command_type", Map([("Input", Str("input text"))]))]))]))]);
    DecodeEncodeCommands(cs);
  }
}
