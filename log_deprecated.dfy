/**
 * The plugin of src/index.js: for a function whose relevant leading comments
 * carry `@deprecated` tags, insert one `console.warn(...)` call per tag at the
 * front of the function's body. The filesystem, the package reader and the
 * comment parser are parameters (`Host`).
 */
module LogDeprecated {
  import opened Results
  import opened JsText
  import opened Paths
  import opened BabelAst
  import opened PackageLocator
  import opened DeprecatedTags
  import opened ConsoleCall

  datatype FunctionKind = ArrowFunctionExpression | FunctionExpression | FunctionDeclaration

  /** The target of an assignment or declarator: `.name` is only defined on an identifier. */
  datatype Target = IdentifierTarget(name: string) | PatternTarget

  /** `path.parent`, as far as the name resolver looks at it. */
  datatype ParentNode =
    | AssignmentExpression(left: Target)
    | VariableDeclarator(id: Target)
    | OtherParent

  /** A comment attached to a node; `value` is its text. */
  datatype Comment = Comment(value: string)

  /** `node.loc.start`: 1-based line, 0-based column. */
  datatype Position = Position(line: nat, column: nat)

  /** `leadingComments` is missing (None) or an array. */
  datatype FunctionNode = FunctionNode(
    kind: FunctionKind,
    id: Option<string>,
    start: Position,
    leadingComments: Option<seq<Comment>>,
    body: BlockStatement)

  /** A visited function: `path.node`, `path.parent`, and `path.parentPath.parent.leadingComments`. */
  datatype FunctionPath = FunctionPath(
    node: FunctionNode,
    parent: ParentNode,
    grandparentComments: Option<seq<Comment>>)

  /** `state.file.opts.filename`: the absolute path of the file being compiled. */
  datatype State = State(filename: Path)

  /** The fields read from `JSON.parse(readFileSync(packagePath))`; either may be missing. */
  datatype PackageConfiguration = PackageConfiguration(name: JsValue, version: JsValue)

  /** Everything outside the plugin it calls into. */
  datatype Host = Host(
    access: FileSystem,
    readPackage: Path -> PackageConfiguration,
    parseComment: CommentParser)

  /** The only error of the name resolver: reading `.name` of a `null` id. */
  datatype NameError = TypeError

  /** What processing a node can throw; each aborts the node before any change. */
  datatype ProcessError =
    | LocateFailed(locateError: LocateError)
    | NameFailed(nameError: NameError)
    | CommentParseFailed(parseError: string)

  const Anonymous := "anonymous"

  /** `target.name`: `undefined` unless the target is an identifier. */
  function NameOf(target: Target): JsValue {
    match target
    case IdentifierTarget(name) => Str(name)
    case PatternTarget => Undefined
  }

  /**
   * `getFunctionName(path)`: the declaration's own name, else the assigned
   * name, else the declared variable's name, else "anonymous". A declaration
   * without an id throws; a non-identifier target yields `undefined`.
   */
  function GetFunctionName(path: FunctionPath): (r: Result<JsValue, NameError>)
    ensures path.node.kind == FunctionDeclaration && path.node.id.Some? ==> r == Success(Str(path.node.id.value))
    ensures path.node.kind != FunctionDeclaration && path.parent.AssignmentExpression? ==>
      r == Success(NameOf(path.parent.left))
    ensures path.node.kind != FunctionDeclaration && path.parent.VariableDeclarator? ==>
      r == Success(NameOf(path.parent.id))
    ensures r.Failure? <==> path.node.kind == FunctionDeclaration && path.node.id.None?
    ensures r == Success(Undefined) <==>
      && path.node.kind != FunctionDeclaration
      && (path.parent == AssignmentExpression(PatternTarget) || path.parent == VariableDeclarator(PatternTarget))
    ensures r == Success(Str(Anonymous)) <==>
      || (path.node.kind == FunctionDeclaration && path.node.id == Some(Anonymous))
      || (path.node.kind != FunctionDeclaration && path.parent == AssignmentExpression(IdentifierTarget(Anonymous)))
      || (path.node.kind != FunctionDeclaration && path.parent == VariableDeclarator(IdentifierTarget(Anonymous)))
      || (path.node.kind != FunctionDeclaration && path.parent == OtherParent)
  {
    if path.node.kind == FunctionDeclaration then
      if path.node.id.None? then Failure(TypeError) else Success(Str(path.node.id.value))
    else if path.parent.AssignmentExpression? then Success(NameOf(path.parent.left))
    else if path.parent.VariableDeclarator? then Success(NameOf(path.parent.id))
    else Success(Str(Anonymous))
  }

  /** What every call inserted for one node shares. */
  datatype NodeContext = NodeContext(
    functionName: JsValue,
    packageName: JsValue,
    packageVersion: JsValue,
    relativeScriptPath: string,
    line: nat,
    column: nat)

  /**
   * The first lines of `processNode`: locate the package, read it, compute
   * the script path relative to the package directory, resolve the name.
   */
  function ResolveContext(path: FunctionPath, state: State, host: Host): (r: Result<NodeContext, ProcessError>)
    ensures var located := FindPackageJsonPath(host.access, Dirname(state.filename));
      && (located.Failure? ==> r == Failure(LocateFailed(located.error)))
      && (located.Success? && GetFunctionName(path).Failure? ==> r == Failure(NameFailed(GetFunctionName(path).error)))
      && (r.Success? <==> located.Success? && GetFunctionName(path).Success?)
      && (r.Success? ==>
        && r.value.functionName == GetFunctionName(path).value
        && r.value.packageName == host.readPackage(located.value).name
        && r.value.packageVersion == host.readPackage(located.value).version
        && IsAncestorOrSelf(Dirname(located.value), state.filename)
        && r.value.relativeScriptPath == Relative(Dirname(located.value), state.filename)
        && r.value.line == path.node.start.line
        && r.value.column == path.node.start.column)
  {
    match FindPackageJsonPath(host.access, Dirname(state.filename))
    case Failure(e) => Failure(LocateFailed(e))
    case Success(packagePath) =>
      var configuration := host.readPackage(packagePath);
      AncestorTransitive(Dirname(packagePath), Dirname(state.filename), state.filename);
      var relativeScriptPath := Relative(Dirname(packagePath), state.filename);
      match GetFunctionName(path)
      case Failure(e) => Failure(NameFailed(e))
      case Success(functionName) =>
        Success(NodeContext(functionName, configuration.name, configuration.version,
                            relativeScriptPath, path.node.start.line, path.node.start.column))
  }

  /**
   * `comments.map(value).map(getCommentDeprecatedTagDescriptions).reduce(concat)`:
   * the descriptions in comment order, then tag order; the first comment the
   * parser rejects aborts.
   */
  function DeprecationMessages(comments: seq<Comment>, parse: CommentParser): (r: Result<seq<Option<string>>, ProcessError>)
    ensures r.Failure? ==> r.error.CommentParseFailed?
  {
    if comments == [] then Success([])
    else
      match GetCommentDeprecatedTagDescriptions(parse, comments[0].value)
      case Failure(e) => Failure(CommentParseFailed(e))
      case Success(descriptions) =>
        match DeprecationMessages(comments[1..], parse)
        case Failure(e) => Failure(e)
        case Success(rest) => Success(descriptions + rest)
  }

  /** The record of one warning: the node's shared context and one deprecation text. */
  function Location(context: NodeContext, message: Option<string>): SourceLocation {
    SourceLocation(context.functionName, message, context.packageName, context.packageVersion,
                   context.column, context.line, context.relativeScriptPath)
  }

  /** The call the `forEach` callback builds for one deprecation text. */
  function CallFor(context: NodeContext, message: Option<string>): Node {
    CreateConsoleCallExpression(Warn, CreateMessage(context.functionName, context.line, context.relativeScriptPath),
                                Location(context, message))
  }

  /** One call per deprecation text, in discovery order. */
  function CallsFor(context: NodeContext, messages: seq<Option<string>>): (calls: seq<Node>)
    ensures |calls| == |messages|
  {
    seq(|messages|, k requires 0 <= k < |messages| => CallFor(context, messages[k]))
  }

  /** The calls `processNode` inserts, in discovery order, or what it throws. */
  function PlannedCalls(path: FunctionPath, state: State, comments: seq<Comment>, host: Host): (r: Result<seq<Node>, ProcessError>)
    ensures ResolveContext(path, state, host).Failure? ==> r == Failure(ResolveContext(path, state, host).error)
    ensures ResolveContext(path, state, host).Success? && DeprecationMessages(comments, host.parseComment).Failure? ==>
      r == Failure(DeprecationMessages(comments, host.parseComment).error)
    ensures r.Success? <==>
      ResolveContext(path, state, host).Success? && DeprecationMessages(comments, host.parseComment).Success?
    ensures r.Success? ==> |r.value| == |DeprecationMessages(comments, host.parseComment).value|
  {
    match ResolveContext(path, state, host)
    case Failure(e) => Failure(e)
    case Success(context) =>
      match DeprecationMessages(comments, host.parseComment)
      case Failure(e) => Failure(e)
      case Success(messages) => Success(CallsFor(context, messages))
  }

  /** `s` back to front. */
  function Reversed<T>(s: seq<T>): (r: seq<T>)
    ensures |r| == |s|
  {
    if s == [] then [] else [s[|s| - 1]] + Reversed(s[..|s| - 1])
  }

  /**
   * `processNode(path, state, comments)`: every failure happens before the
   * loop, so a failing node is left as it was; otherwise each call is
   * unshifted in turn, leaving them in reverse discovery order before the
   * original statements.
   */
  method ProcessNode(path: FunctionPath, state: State, comments: seq<Comment>, host: Host)
    returns (r: Result<(), ProcessError>)
    modifies path.node.body
    ensures var planned := PlannedCalls(path, state, comments, host);
      && (r.Success? <==> planned.Success?)
      && (planned.Success? ==> path.node.body.body == Reversed(planned.value) + old(path.node.body.body))
      && (planned.Failure? ==> r.error == planned.error && path.node.body.body == old(path.node.body.body))
  {
    var context := ResolveContext(path, state, host);
    if context.Failure? {
      return Failure(context.error);
    }
    var messages := DeprecationMessages(comments, host.parseComment);
    if messages.Failure? {
      return Failure(messages.error);
    }
    var block := path.node.body;
    ghost var calls := CallsFor(context.value, messages.value);
    assert PlannedCalls(path, state, comments, host) == Success(calls);
    ghost var original := block.body;
    var i := 0;
    while i < |messages.value|
      invariant i <= |messages.value|
      invariant block.body == Reversed(calls[..i]) + original
    {
      var call := CallFor(context.value, messages.value[i]);
      UnshiftStep(calls, i, original);
      block.UnshiftContainer(call);
      i := i + 1;
    }
    assert calls[..i] == calls;
    return Success(());
  }

  lemma UnshiftStep(calls: seq<Node>, i: nat, original: seq<Node>)
    requires i < |calls|
    ensures [calls[i]] + (Reversed(calls[..i]) + original) == Reversed(calls[..i + 1]) + original
  {
    assert calls[..i + 1][..i] == calls[..i];
  }

  /** The comments the visitor reads: the declaration's own, or for an expression those of its grandparent node (`path.parentPath.parent`). */
  function CommentsToRead(path: FunctionPath): Option<seq<Comment>> {
    if path.node.kind == FunctionDeclaration then path.node.leadingComments else path.grandparentComments
  }

  /** What visiting a function inserts (in discovery order), or throws. */
  function Transform(path: FunctionPath, state: State, host: Host): (r: Result<seq<Node>, ProcessError>)
    ensures CommentsToRead(path).None? || CommentsToRead(path) == Some([]) ==> r == Success([])
    ensures CommentsToRead(path).Some? && CommentsToRead(path).value != [] ==>
      r == PlannedCalls(path, state, CommentsToRead(path).value, host)
  {
    match CommentsToRead(path)
    case None => Success([])
    case Some(comments) => if |comments| == 0 then Success([]) else PlannedCalls(path, state, comments, host)
  }

  /** The 'ArrowFunctionExpression|FunctionExpression' handler. */
  method VisitFunctionExpression(path: FunctionPath, state: State, host: Host) returns (r: Result<(), ProcessError>)
    requires path.node.kind != FunctionDeclaration
    modifies path.node.body
    ensures var planned := Transform(path, state, host);
      && (r.Success? <==> planned.Success?)
      && (planned.Success? ==> path.node.body.body == Reversed(planned.value) + old(path.node.body.body))
      && (planned.Failure? ==> r.error == planned.error && path.node.body.body == old(path.node.body.body))
  {
    var comments := path.grandparentComments;
    if comments.None? || |comments.value| == 0 {
      return Success(());
    }
    r := ProcessNode(path, state, comments.value, host);
  }

  /** The 'FunctionDeclaration' handler. */
  method VisitFunctionDeclaration(path: FunctionPath, state: State, host: Host) returns (r: Result<(), ProcessError>)
    requires path.node.kind == FunctionDeclaration
    modifies path.node.body
    ensures var planned := Transform(path, state, host);
      && (r.Success? <==> planned.Success?)
      && (planned.Success? ==> path.node.body.body == Reversed(planned.value) + old(path.node.body.body))
      && (planned.Failure? ==> r.error == planned.error && path.node.body.body == old(path.node.body.body))
  {
    var comments := path.node.leadingComments;
    if comments.None? || |comments.value| == 0 {
      return Success(());
    }
    r := ProcessNode(path, state, comments.value, host);
  }

  // Properties of the transformation

  /** Every comment is accepted by the parser. */
  predicate AllParse(comments: seq<Comment>, parse: CommentParser) {
    forall i :: 0 <= i < |comments| ==> parse(comments[i].value).Success?
  }

  /** The number of "deprecated" tags over all comments that parse. */
  function TotalDeprecated(comments: seq<Comment>, parse: CommentParser): nat {
    if comments == [] then 0
    else
      (match parse(comments[0].value)
       case Success(tags) => CountDeprecated(tags)
       case Failure(_) => 0)
      + TotalDeprecated(comments[1..], parse)
  }

  /** When every comment parses, one text per "deprecated" tag over all comments. */
  lemma {:induction false} MessagesCount(comments: seq<Comment>, parse: CommentParser)
    requires AllParse(comments, parse)
    ensures DeprecationMessages(comments, parse).Success?
    ensures |DeprecationMessages(comments, parse).value| == TotalDeprecated(comments, parse)
  {
    if comments != [] {
      assert parse(comments[0].value).Success?;
      assert AllParse(comments[1..], parse) by {
        forall i | 0 <= i < |comments[1..]| ensures parse(comments[1..][i].value).Success? {
          assert comments[1..][i] == comments[i + 1];
        }
      }
      MessagesCount(comments[1..], parse);
    }
  }

  /** The first comment the parser rejects decides the error; nothing after it matters. */
  lemma {:induction false} FirstParseErrorWins(comments: seq<Comment>, parse: CommentParser, i: nat)
    requires i < |comments| && parse(comments[i].value).Failure?
    requires forall j :: 0 <= j < i ==> parse(comments[j].value).Success?
    ensures DeprecationMessages(comments, parse) == Failure(CommentParseFailed(parse(comments[i].value).error))
  {
    if i > 0 {
      assert parse(comments[0].value).Success?;
      forall j | 0 <= j < i - 1 ensures parse(comments[1..][j].value).Success? {
        assert comments[1..][j] == comments[j + 1];
      }
      FirstParseErrorWins(comments[1..], parse, i - 1);
    }
  }

  /** Parsing fails exactly when some comment is rejected. */
  lemma {:induction false} MessagesFailIff(comments: seq<Comment>, parse: CommentParser)
    ensures DeprecationMessages(comments, parse).Failure? <==> !AllParse(comments, parse)
  {
    if comments != [] {
      MessagesFailIff(comments[1..], parse);
      if !AllParse(comments, parse) && parse(comments[0].value).Success? {
        var i :| 0 <= i < |comments| && parse(comments[i].value).Failure?;
        assert comments[1..][i - 1] == comments[i];
      }
      if AllParse(comments, parse) {
        forall i | 0 <= i < |comments[1..]| ensures parse(comments[1..][i].value).Success? {
          assert comments[1..][i] == comments[i + 1];
        }
      }
    }
  }

  /** Flattening keeps comment order: the texts of `a` come before those of `b`. */
  lemma {:induction false} MessagesAppend(a: seq<Comment>, b: seq<Comment>, parse: CommentParser)
    requires DeprecationMessages(a, parse).Success? && DeprecationMessages(b, parse).Success?
    ensures DeprecationMessages(a + b, parse)
         == Success(DeprecationMessages(a, parse).value + DeprecationMessages(b, parse).value)
  {
    var mb := DeprecationMessages(b, parse).value;
    if a == [] {
      assert a + b == b;
      assert [] + mb == mb;
    } else {
      var c, rest := a[0], a[1..];
      assert a == [c] + rest;
      assert parse(c.value).Success?;
      var head := DeprecatedDescriptions(parse(c.value).value);
      var tail := DeprecationMessages(rest, parse).value;
      MessagesAppend(rest, b, parse);
      MessagesCons(c, rest, parse);
      MessagesCons(c, rest + b, parse);
      assert [c] + (rest + b) == a + b;
      assert head + (tail + mb) == (head + tail) + mb;
    }
  }

  /** One step of the flattening: the first comment's texts, then the rest's. */
  lemma MessagesCons(c: Comment, rest: seq<Comment>, parse: CommentParser)
    requires parse(c.value).Success? && DeprecationMessages(rest, parse).Success?
    ensures DeprecationMessages([c] + rest, parse)
         == Success(DeprecatedDescriptions(parse(c.value).value) + DeprecationMessages(rest, parse).value)
  {
    assert ([c] + rest)[1..] == rest;
  }

  /** The texts of one comment are its "deprecated" descriptions, in tag order. */
  lemma SingleCommentMessages(comment: Comment, parse: CommentParser)
    requires parse(comment.value).Success?
    ensures DeprecationMessages([comment], parse) == Success(DeprecatedDescriptions(parse(comment.value).value))
  {
    assert [comment][1..] == [];
    var descriptions := DeprecatedDescriptions(parse(comment.value).value);
    assert descriptions + [] == descriptions;
  }

  /** `processNode` inserts exactly one call per "deprecated" tag, summed over all comments. */
  lemma InsertedCount(path: FunctionPath, state: State, comments: seq<Comment>, host: Host)
    requires PlannedCalls(path, state, comments, host).Success?
    ensures |PlannedCalls(path, state, comments, host).value| == TotalDeprecated(comments, host.parseComment)
  {
    MessagesFailIff(comments, host.parseComment);
    MessagesCount(comments, host.parseComment);
  }

  /**
   * The k-th planned call is a `console.warn` whose record's `message` is
   * the k-th deprecation text found; every call of the node shares the
   * warning text and every other field of the record.
   */
  lemma CallsShareContext(path: FunctionPath, state: State, comments: seq<Comment>, host: Host, k: nat, l: nat)
    requires PlannedCalls(path, state, comments, host).Success?
    requires k < |PlannedCalls(path, state, comments, host).value|
    requires l < |PlannedCalls(path, state, comments, host).value|
    ensures var calls := PlannedCalls(path, state, comments, host).value;
      var messages := DeprecationMessages(comments, host.parseComment).value;
      var a, b := ReadConsoleCall(calls[k]), ReadConsoleCall(calls[l]);
      && a.Some? && b.Some?
      && a.value.severity == Warn
      && a.value.location.message == messages[k]
      && (var context := ResolveContext(path, state, host).value;
          && a.value.location == Location(context, messages[k])
          && a.value.message == CreateMessage(context.functionName, context.line, context.relativeScriptPath))
      && a.value.message == b.value.message
      && a.value.location.(message := None) == b.value.location.(message := None)
  {
    var context := ResolveContext(path, state, host).value;
    var messages := DeprecationMessages(comments, host.parseComment).value;
    var message := CreateMessage(context.functionName, context.line, context.relativeScriptPath);
    ReadCreatedCall(Warn, message, Location(context, messages[k]));
    ReadCreatedCall(Warn, message, Location(context, messages[l]));
  }

  /**
   * What the k-th planned call carries, in terms of the inputs: the resolved
   * function name, the `package.json` found above the file (its name and
   * version, and the file's path relative to its directory), the node's start
   * line and column, and the k-th deprecation text.
   */
  lemma CallCarriesContext(path: FunctionPath, state: State, comments: seq<Comment>, host: Host, k: nat)
    requires PlannedCalls(path, state, comments, host).Success?
    requires k < |PlannedCalls(path, state, comments, host).value|
    ensures var packagePath := FindPackageJsonPath(host.access, Dirname(state.filename)).value;
      var name := GetFunctionName(path).value;
      var line, column := path.node.start.line, path.node.start.column;
      && IsAncestorOrSelf(Dirname(packagePath), state.filename)
      && var relative := Relative(Dirname(packagePath), state.filename);
        ReadConsoleCall(PlannedCalls(path, state, comments, host).value[k])
        == Some(ConsoleCallParts(
             Warn,
             CreateMessage(name, line, relative),
             SourceLocation(name, DeprecationMessages(comments, host.parseComment).value[k],
                            host.readPackage(packagePath).name, host.readPackage(packagePath).version,
                            column, line, relative)))
  {
    var context := ResolveContext(path, state, host).value;
    var messages := DeprecationMessages(comments, host.parseComment).value;
    ReadCreatedCall(Warn, CreateMessage(context.functionName, context.line, context.relativeScriptPath),
                    Location(context, messages[k]));
  }

  /** Position `k` of the reversed sequence holds the element `k` places from the end. */
  lemma {:induction false} ReversedAt<T>(s: seq<T>, k: nat)
    requires k < |s|
    ensures Reversed(s)[k] == s[|s| - 1 - k]
  {
    if k > 0 {
      ReversedAt(s[..|s| - 1], k - 1);
    }
  }

  /**
   * After the unshifts, the first `|calls|` statements are the calls, last
   * discovered first, and the original statements follow unchanged and in order.
   */
  lemma UnshiftedBody(calls: seq<Node>, original: seq<Node>)
    ensures var body := Reversed(calls) + original;
      && |body| == |calls| + |original|
      && (forall k :: 0 <= k < |calls| ==> body[k] == calls[|calls| - 1 - k])
      && body[|calls|..] == original
  {
    forall k | 0 <= k < |calls| ensures (Reversed(calls) + original)[k] == calls[|calls| - 1 - k] {
      ReversedAt(calls, k);
    }
  }

  /** A function with no relevant leading comment, or an empty list of them, gets nothing. */
  lemma NoCommentsNoChange(path: FunctionPath, state: State, host: Host)
    requires CommentsToRead(path).None? || CommentsToRead(path) == Some([])
    ensures Transform(path, state, host) == Success([])
  {
  }

  /**
   * The recorded script path names the file below the nearest package root
   * (the nearest directory above the file whose `package.json` is readable);
   * it is never empty and never absolute.
   */
  lemma ScriptPathBelowNearestPackage(path: FunctionPath, state: State, host: Host)
    requires ValidPath(state.filename) && state.filename != []
    requires ResolveContext(path, state, host).Success?
    ensures var relative := ResolveContext(path, state, host).value.relativeScriptPath;
      var dir := Dirname(state.filename);
      && relative != "" && relative[0] != '/'
      && exists k :: (0 <= k <= |dir|
        && host.access(Resolve(dir[..k], PackageJson)) == Accessible
        && MissingBelow(host.access, dir, k)
        && Split(relative) == state.filename[k..])
  {
    var dir := Dirname(state.filename);
    var packagePath := FindPackageJsonPath(host.access, dir).value;
    FoundIsNearest(host.access, dir);
    var k := |packagePath| - 1;
    AncestorTransitive(Dirname(packagePath), dir, state.filename);
    RelativeIsRelative(Dirname(packagePath), state.filename);
    assert dir[..k] == state.filename[..k];
  }

  /** A function expression's own id is never its reported name; a declaration's parent never matters. */
  lemma NameIgnoresIrrelevantShape(path: FunctionPath, id: Option<string>, parent: ParentNode)
    ensures path.node.kind != FunctionDeclaration ==>
      GetFunctionName(path.(node := path.node.(id := id))) == GetFunctionName(path)
    ensures path.node.kind == FunctionDeclaration ==>
      GetFunctionName(path.(parent := parent)) == GetFunctionName(path)
  {
  }
}
