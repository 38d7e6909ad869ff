/**
 * The `PurplePrefixRichHandler.emit` message rewrite and the level lookup of
 * server/config/rich_logger.py and client/config/rich_logger.py. A record's
 * arguments are modelled as already-converted strings and `%`-formatting as
 * its `%s` and `%%` directives.
 */
module RichLog {
  import opened Wrappers
  import opened Text

  /** `record.args`: None (or never set) or a tuple. */
  datatype Args = NoArgs | Tuple(items: seq<string>)

  /** `msg % tuple` for `%s` and `%%`; None where Python raises TypeError (too few or too many arguments, or another directive). */
  function Format(msg: string, items: seq<string>): Option<string>
    decreases |msg|
  {
    if msg == [] then
      if items == [] then Some([]) else None
    else if msg[0] != '%' then
      match Format(msg[1..], items)
      case Some(r) => Some([msg[0]] + r)
      case None => None
    else if |msg| >= 2 && msg[1] == '%' then
      match Format(msg[2..], items)
      case Some(r) => Some("%" + r)
      case None => None
    else if |msg| >= 2 && msg[1] == 's' && items != [] then
      match Format(msg[2..], items[1..])
      case Some(r) => Some(items[0] + r)
      case None => None
    else None
  }

  /** A message without directives formats to itself with no arguments, and fails with any. */
  lemma {:induction false} FormatPlain(msg: string, items: seq<string>)
    requires '%' !in msg
    ensures Format(msg, items) == if items == [] then Some(msg) else None
  {
    if msg != [] {
      FormatPlain(msg[1..], items);
      assert [msg[0]] + msg[1..] == msg;
    }
  }

  /** `LogRecord.getMessage`: `msg % args` when `args` is truthy, else `msg`. */
  function GetMessage(msg: string, args: Args): (r: Option<string>)
    ensures (args.NoArgs? || args.items == []) ==> r == Some(msg)
  {
    if args.NoArgs? || args.items == [] then Some(msg) else Format(msg, args.items)
  }

  /** Whether the regex `:\s` matches at `i`. */
  predicate SeparatorAt(s: string, i: int)
  {
    0 <= i && i + 1 < |s| && s[i] == ':' && IsSpace(s[i + 1])
  }

  /** Whether a newline occurs in `s[i..j]`. */
  predicate NewlineIn(s: string, i: int, j: int)
  {
    exists k :: i <= k < j && 0 <= k < |s| && s[k] == '\n'
  }

  /** The separator search from `i` on, given no newline and no separator before `i`. */
  function FindFrom(s: string, i: nat): (r: Option<nat>)
    requires i <= |s|
    ensures r.Some? ==>
      (i <= r.value && SeparatorAt(s, r.value) && !NewlineIn(s, i, r.value)
       && forall j :: i <= j < r.value ==> !SeparatorAt(s, j))
    ensures r.None? ==> forall j :: i <= j && SeparatorAt(s, j) ==> NewlineIn(s, i, j)
    decreases |s| - i
  {
    if i + 1 >= |s| then None
    else if s[i] == '\n' then None
    else if SeparatorAt(s, i) then Some(i)
    else FindFrom(s, i + 1)
  }

  /**
   * `re.match(r"^(.*?):\s(.*)", msg)`: the first `:` followed by a whitespace
   * character, provided no newline comes before it (`.` stops at newlines).
   */
  function FindSeparator(s: string): (r: Option<nat>)
    ensures r.Some? ==>
      (SeparatorAt(s, r.value) && !NewlineIn(s, 0, r.value)
       && forall j :: 0 <= j < r.value ==> !SeparatorAt(s, j))
    ensures r.None? ==> forall j :: SeparatorAt(s, j) ==> NewlineIn(s, 0, j)
  {
    FindFrom(s, 0)
  }

  /** The `(.*)` group: the text up to the first newline. */
  function TakeLine(s: string): (r: string)
    ensures r <= s && '\n' !in r
    ensures |r| < |s| ==> s[|r|] == '\n'
  {
    if s == [] || s[0] == '\n' then [] else [s[0]] + TakeLine(s[1..])
  }

  /** `f"{prefix:<20}"`: left-justified in `width` characters, never truncated. */
  function PadRight(p: string, width: nat): (r: string)
    ensures |r| == if |p| < width then width else |p|
    ensures r[..|p|] == p
    ensures forall k :: |p| <= k < |r| ==> r[k] == ' '
  {
    if |p| < width then p + seq(width - |p|, _ => ' ') else p
  }

  /** The message `emit` writes when the regex matches: None when it does not. */
  function Rewrite(original: string): (r: Option<string>)
    ensures r.Some? <==> FindSeparator(original).Some?
    ensures r.Some? ==>
      var i := FindSeparator(original).value;
      r.value == "[purple]" + PadRight(original[..i], 20) + "[/purple]: " + TakeLine(original[i + 2..])
  {
    match FindSeparator(original)
    case None => None
    case Some(i) => Some("[purple]" + PadRight(original[..i], 20) + "[/purple]: " + TakeLine(original[i + 2..]))
  }

  /** A component tag such as `rmq_manager_conn` is padded to 20 and the line after `": "` kept. */
  lemma RewriteTagged(tag: string, rest: string)
    requires ':' !in tag && '\n' !in tag && '\n' !in rest
    ensures Rewrite(tag + ": " + rest) == Some("[purple]" + PadRight(tag, 20) + "[/purple]: " + rest)
  {
    var s := tag + ": " + rest;
    assert SeparatorAt(s, |tag|);
    assert forall j :: 0 <= j < |tag| ==> s[j] == tag[j];
    assert !NewlineIn(s, 0, |tag|);
    assert FindSeparator(s) == Some(|tag|);
    assert s[..|tag|] == tag;
    assert s[|tag| + 2..] == rest;
    assert TakeLine(rest) == rest;
  }

  /** A line break before any `": "` means no rewrite. */
  lemma NewlineFirstNoRewrite(head: string, tail: string)
    requires ':' !in head
    ensures Rewrite(head + "\n" + tail) == None
  {
    var s := head + "\n" + tail;
    assert forall j :: 0 <= j < |head| ==> s[j] == head[j];
    assert s[|head|] == '\n';
  }

  /** `logging.LogRecord`, the fields `emit` reads and writes. */
  class LogRecord {
    var msg: string
    var args: Args

    constructor(msg: string, args: Args)
      ensures this.msg == msg && this.args == args
    {
      this.msg := msg;
      this.args := args;
    }
  }

  /**
   * The server's `emit` as written: the no-match branch keeps `record.args`,
   * so `RichHandler.emit` formats the already formatted message again.
   * `rendered` is what `RichHandler.emit` renders, None where it raises.
   */
  method ServerEmitAsWritten(record: LogRecord) returns (rendered: Option<string>)
    modifies record
    ensures var original := GetMessage(old(record.msg), old(record.args));
      match original
      case None => rendered == None && unchanged(record)
      case Some(o) =>
        match Rewrite(o)
        case Some(m) => record.msg == m && record.args == NoArgs && rendered == Some(m)
        case None => record.msg == o && record.args == old(record.args) && rendered == GetMessage(o, old(record.args))
  {
    var original := GetMessage(record.msg, record.args);
    if original.None? {
      return None;
    }
    match Rewrite(original.value) {
      case Some(m) =>
        record.msg := m;
        record.args := NoArgs;
      case None =>
        record.msg := original.value;
    }
    rendered := GetMessage(record.msg, record.args);
  }

  /**
   * The server's `emit` with the arguments cleared in both branches: what
   * is rendered is the rewrite, or else the original message.
   */
  method ServerEmit(record: LogRecord) returns (rendered: Option<string>)
    modifies record
    ensures var original := GetMessage(old(record.msg), old(record.args));
      match original
      case None => rendered == None && unchanged(record)
      case Some(o) =>
        record.args == NoArgs && rendered == Some(record.msg)
        && record.msg == (if Rewrite(o).Some? then Rewrite(o).value else o)
  {
    var original := GetMessage(record.msg, record.args);
    if original.None? {
      return None;
    }
    match Rewrite(original.value) {
      case Some(m) =>
        record.msg := m;
      case None =>
        record.msg := original.value;
    }
    record.args := NoArgs;
    rendered := GetMessage(record.msg, record.args);
  }

  /** The client's `emit`: `record.args = ()` in both branches. */
  method ClientEmit(record: LogRecord) returns (rendered: Option<string>)
    modifies record
    ensures var original := GetMessage(old(record.msg), old(record.args));
      match original
      case None => rendered == None && unchanged(record)
      case Some(o) =>
        record.args == Tuple([]) && rendered == Some(record.msg)
        && record.msg == (if Rewrite(o).Some? then Rewrite(o).value else o)
  {
    var original := GetMessage(record.msg, record.args);
    if original.None? {
      return None;
    }
    match Rewrite(original.value) {
      case Some(m) =>
        record.msg := m;
      case None =>
        record.msg := original.value;
    }
    record.args := Tuple([]);
    rendered := GetMessage(record.msg, record.args);
  }

  /**
   * `logger.info("%s", "ready")` on the server: the message has no `": "`,
   * keeps its argument, and the second formatting raises TypeError.
   */
  method ServerEmitCounterexample() returns (asWritten: Option<string>, corrected: Option<string>)
    ensures asWritten == None && corrected == Some("ready")
  {
    assert Format([], []) == Some([]);
    assert "%s"[0] == '%' && "%s"[1] == 's' && "%s"[2..] == [] && ["ready"][1..] == [];
    assert Format("%s", ["ready"]) == Some("ready" + []);
    assert "ready" + [] == "ready";
    assert GetMessage("%s", Tuple(["ready"])) == Some("ready");
    assert Rewrite("ready") == None;
    FormatPlain("ready", ["ready"]);
    var r1 := new LogRecord("%s", Tuple(["ready"]));
    asWritten := ServerEmitAsWritten(r1);
    var r2 := new LogRecord("%s", Tuple(["ready"]));
    corrected := ServerEmit(r2);
  }

  /** `log_level_map`. */
  const LevelMap: map<string, int> := map["DEBUG" := 10, "INFO" := 20, "WARNING" := 30, "ERROR" := 40, "CRITICAL" := 50]

  /** `log_level_map.get(CONFIG.get("LOG_LEVEL", "INFO").upper(), logging.INFO)`. */
  function LogLevel(config: map<string, string>): (level: int)
    ensures level in LevelMap.Values
    ensures var name := Upper(if "LOG_LEVEL" in config then config["LOG_LEVEL"] else "INFO");
      level == if name in LevelMap then LevelMap[name] else 20
  {
    var name := Upper(if "LOG_LEVEL" in config then config["LOG_LEVEL"] else "INFO");
    assert LevelMap["INFO"] == 20;
    if name in LevelMap then LevelMap[name] else 20
  }

  /** The level name is matched without regard to ASCII case; anything else, or no setting, is INFO. */
  lemma LogLevelExamples(config: map<string, string>)
    ensures LogLevel(map["LOG_LEVEL" := "debug"]) == 10
    ensures LogLevel(map["LOG_LEVEL" := "Warning"]) == 30
    ensures LogLevel(map["LOG_LEVEL" := "verbose"]) == 20
    ensures "LOG_LEVEL" !in config ==> LogLevel(config) == 20
  {
    assert Upper("debug") == "DEBUG";
    assert Upper("Warning") == "WARNING";
    assert Upper("verbose") == "VERBOSE";
    assert Upper("INFO") == "INFO";
  }
}
