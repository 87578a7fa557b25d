/**
 * `createMessage` and `createConsoleCallExpression` of src/index.js: the
 * warning text, and the `console.<severity>(message, { ... })` call node
 * carrying the source-location record. Each has a reader that takes its
 * output apart again.
 */
module ConsoleCall {
  import opened Results
  import opened JsText
  import opened Strings
  import opened BabelAst

  datatype SeverityCategory = Log | Info | Warn | Error {
    /** The `console` method the severity names. */
    function Name(): string {
      match this
      case Log => "log"
      case Info => "info"
      case Warn => "warn"
      case Error => "error"
    }
  }

  function SeverityNamed(name: string): (s: Option<SeverityCategory>)
    ensures s.Some? ==> s.value.Name() == name
  {
    if name == "log" then Some(Log)
    else if name == "info" then Some(Info)
    else if name == "warn" then Some(Warn)
    else if name == "error" then Some(Error)
    else None
  }

  /** The record every warning carries; a missing deprecation text is `null` (None). */
  datatype SourceLocation = SourceLocation(
    functionName: JsValue,
    message: Option<string>,
    packageName: JsValue,
    packageVersion: JsValue,
    scriptColumn: nat,
    scriptLine: nat,
    scriptPath: string)

  /** The property names of the record, in the order the object literal lists them. */
  const SourceLocationKeys: seq<string> :=
    ["functionName", "message", "packageName", "packageVersion", "scriptColumn", "scriptLine", "scriptPath"]

  function Property(key: string, value: Node): Node {
    ObjectProperty(Identifier(key), value)
  }

  /** The key name of an `ObjectProperty` with an identifier key. */
  function KeyName(property: Node): Option<string> {
    if property.ObjectProperty? && property.key.Identifier? then Some(property.key.name) else None
  }

  /** `createConsoleCallExpression(severityCategory, message, sourceLocation)`. */
  function CreateConsoleCallExpression(severity: SeverityCategory, message: string, location: SourceLocation): (call: Node)
    ensures call.CallExpression?
    ensures call.callee == MemberExpression(Identifier("console"), Identifier(severity.Name()))
    ensures |call.arguments| == 2 && call.arguments[0] == StringLiteral(Str(message))
    ensures call.arguments[1].ObjectExpression?
    ensures var properties := call.arguments[1].properties;
      && |properties| == |SourceLocationKeys|
      && (forall i :: 0 <= i < |properties| ==> KeyName(properties[i]) == Some(SourceLocationKeys[i]))
      && (properties[1].value == NullLiteral <==> location.message.None?)
      && (properties[1].value.StringLiteral? <==> location.message.Some?)
  {
    CallExpression(
      MemberExpression(Identifier("console"), Identifier(severity.Name())),
      [ StringLiteral(Str(message)),
        ObjectExpression([
          Property("functionName", StringLiteral(location.functionName)),
          Property("message", if location.message.None? then NullLiteral else StringLiteral(Str(location.message.value))),
          Property("packageName", StringLiteral(location.packageName)),
          Property("packageVersion", StringLiteral(location.packageVersion)),
          Property("scriptColumn", NumericLiteral(location.scriptColumn)),
          Property("scriptLine", NumericLiteral(location.scriptLine)),
          Property("scriptPath", StringLiteral(Str(location.scriptPath)))
        ])
      ])
  }

  /** A diagnostic call, as a consumer of the emitted code sees it. */
  datatype ConsoleCallParts = ConsoleCallParts(severity: SeverityCategory, message: string, location: SourceLocation)

  /** The value of `property` when its key is `key`. */
  function ValueAt(property: Node, key: string): Option<Node> {
    if KeyName(property) == Some(key) then Some(property.value) else None
  }

  function ReadText(value: Option<Node>): Option<JsValue> {
    if value.Some? && value.value.StringLiteral? then Some(value.value.text) else None
  }

  function ReadNumber(value: Option<Node>): Option<nat> {
    if value.Some? && value.value.NumericLiteral? then Some(value.value.number) else None
  }

  /** A string, or an explicit `null`; an absent key is not accepted. */
  function ReadNullableText(value: Option<Node>): Option<Option<string>> {
    if value == Some(NullLiteral) then Some(None)
    else if value.Some? && value.value.StringLiteral? && value.value.text.Str? then Some(Some(value.value.text.s))
    else None
  }

  /** Reads the record back from the seven properties of the object literal. */
  function ReadSourceLocation(properties: seq<Node>): Option<SourceLocation> {
    if |properties| != 7 then None
    else
      var functionName := ReadText(ValueAt(properties[0], "functionName"));
      var message := ReadNullableText(ValueAt(properties[1], "message"));
      var packageName := ReadText(ValueAt(properties[2], "packageName"));
      var packageVersion := ReadText(ValueAt(properties[3], "packageVersion"));
      var scriptColumn := ReadNumber(ValueAt(properties[4], "scriptColumn"));
      var scriptLine := ReadNumber(ValueAt(properties[5], "scriptLine"));
      var scriptPath := ReadText(ValueAt(properties[6], "scriptPath"));
      if functionName.None? || message.None? || packageName.None? || packageVersion.None?
         || scriptColumn.None? || scriptLine.None? || scriptPath.None? || scriptPath.value.Undefined?
      then None
      else Some(SourceLocation(functionName.value, message.value, packageName.value, packageVersion.value,
                               scriptColumn.value, scriptLine.value, scriptPath.value.s))
  }

  /** Reads `console.<severity>(message, { ...record })` back into its parts. */
  function ReadConsoleCall(node: Node): Option<ConsoleCallParts> {
    if !node.CallExpression? || !node.callee.MemberExpression? then None
    else if node.callee.obj != Identifier("console") || !node.callee.property.Identifier? then None
    else if |node.arguments| != 2 then None
    else
      var severity := SeverityNamed(node.callee.property.name);
      var message := ReadText(Some(node.arguments[0]));
      var location := if node.arguments[1].ObjectExpression? then ReadSourceLocation(node.arguments[1].properties) else None;
      if severity.None? || message.None? || message.value.Undefined? || location.None? then None
      else Some(ConsoleCallParts(severity.value, message.value.s, location.value))
  }

  /** The built call carries its severity, message and record intact, so two different inputs never build the same call. */
  lemma ReadCreatedCall(severity: SeverityCategory, message: string, location: SourceLocation)
    ensures ReadConsoleCall(CreateConsoleCallExpression(severity, message, location))
         == Some(ConsoleCallParts(severity, message, location))
  {
  }

  const MessageHead := "Deprecated: Function \""
  const MessageMiddle := "\" is deprecated in /"
  const MessageLineLabel := " on line "

  /** `createMessage(functionName, line, relativeScriptPath)`, with JavaScript's `+` coercions. */
  function CreateMessage(functionName: JsValue, line: nat, relativeScriptPath: string): (message: string)
    ensures MessageHead <= message
    ensures var digits := DecimalString(line);
      |digits| < |message| && message[|message| - |digits|..] == digits
  {
    MessageHead + ToJsString(functionName) + MessageMiddle + relativeScriptPath + MessageLineLabel + DecimalString(line)
  }

  /** The text of a warning taken apart again. */
  datatype MessageParts = MessageParts(functionName: string, scriptPath: string, line: nat)

  /** Splits off the longest run of decimal digits at the end of `s`. */
  function TrailingDigits(s: string): (split: (string, string))
    ensures split.0 + split.1 == s && AllDigits(split.1)
    ensures split.0 != [] ==> !IsDigit(split.0[|split.0| - 1])
  {
    if s != [] && IsDigit(s[|s| - 1]) then
      var (front, digits) := TrailingDigits(s[..|s| - 1]);
      (front, digits + [s[|s| - 1]])
    else (s, [])
  }

  /** Reads a warning text back: the function name, the script path and the line. */
  function ParseMessage(message: string): Option<MessageParts> {
    if MessageHead <= message then ParseAfterHead(message[|MessageHead|..]) else None
  }

  /** The function name runs up to the first double quote. */
  function ParseAfterHead(rest: string): Option<MessageParts> {
    if '"' !in rest then None
    else
      var q := IndexOf(rest, '"');
      var after := rest[q..];
      if !(MessageMiddle <= after) then None
      else
        match ParseTail(after[|MessageMiddle|..])
        case None => None
        case Some((path, line)) => Some(MessageParts(rest[..q], path, line))
  }

  /** The script path runs up to " on line ", which the digits of the line follow. */
  function ParseTail(tail: string): Option<(string, nat)> {
    var (front, digits) := TrailingDigits(tail);
    var n := |front| - |MessageLineLabel|;
    if digits == [] || n < 0 || front[n..] != MessageLineLabel then None
    else Some((front[..n], DecimalValue(digits)))
  }

  lemma {:induction false} TrailingDigitsOf(front: string, digits: string)
    requires AllDigits(digits)
    requires front != [] && !IsDigit(front[|front| - 1])
    ensures TrailingDigits(front + digits) == (front, digits)
  {
    if digits != [] {
      var s := front + digits;
      assert s[..|s| - 1] == front + digits[..|digits| - 1];
      TrailingDigitsOf(front, digits[..|digits| - 1]);
      assert digits[..|digits| - 1] + [digits[|digits| - 1]] == digits;
    } else {
      assert front + digits == front;
    }
  }

  lemma ParseTailOf(relativeScriptPath: string, line: nat)
    ensures ParseTail(relativeScriptPath + MessageLineLabel + DecimalString(line)) == Some((relativeScriptPath, line))
  {
    var front := relativeScriptPath + MessageLineLabel;
    TrailingDigitsOf(front, DecimalString(line));
    assert front[|relativeScriptPath|..] == MessageLineLabel;
    assert front[..|relativeScriptPath|] == relativeScriptPath;
    DecimalRoundTrip(line);
  }

  lemma ParseAfterHeadOf(name: string, tail: string)
    requires '"' !in name
    ensures ParseAfterHead(name + MessageMiddle + tail) == 
      match ParseTail(tail)
      case None => None
      case Some((path, line)) => Some(MessageParts(name, path, line))
  {
    var rest := name + MessageMiddle + tail;
    assert rest == name + ['"'] + (MessageMiddle[1..] + tail);
    IndexOfAfter(name, '"', MessageMiddle[1..] + tail);
    assert rest[..|name|] == name;
    assert rest[|name|..] == MessageMiddle + tail;
    assert (MessageMiddle + tail)[|MessageMiddle|..] == tail;
  }

  /**
   * The warning text determines the function name (when it holds no double
   * quote), the script path and the line it was made from.
   */
  lemma ParseCreatedMessage(functionName: JsValue, line: nat, relativeScriptPath: string)
    requires '"' !in ToJsString(functionName)
    ensures ParseMessage(CreateMessage(functionName, line, relativeScriptPath))
         == Some(MessageParts(ToJsString(functionName), relativeScriptPath, line))
  {
    var name := ToJsString(functionName);
    var tail := relativeScriptPath + MessageLineLabel + DecimalString(line);
    var message := CreateMessage(functionName, line, relativeScriptPath);
    assert message == MessageHead + (name + MessageMiddle + tail);
    assert message[|MessageHead|..] == name + MessageMiddle + tail;
    ParseAfterHeadOf(name, tail);
    ParseTailOf(relativeScriptPath, line);
  }
}
