/**
 * Worked examples that call the visitor handlers on a small package tree:
 * one `@deprecated` function declaration, one arrow function bound by
 * `const`, and a comment with two `@deprecated` tags.
 */
module Scenarios {
  import opened Results
  import opened JsText
  import opened Paths
  import opened BabelAst
  import opened PackageLocator
  import opened DeprecatedTags
  import opened ConsoleCall
  import opened LogDeprecated

  /** `/pkg/package.json` is the only readable `package.json`; every other one is missing. */
  function PackageTree(): FileSystem {
    (p: Path) => if p == ["pkg", "package.json"] then Accessible else Raised(AccessError(ENOENT))
  }

  /** A parser that reports the given tags for every comment. */
  function Parser(tags: seq<Tag>): CommentParser {
    (comment: string) => Success(tags)
  }

  function PackageX(): Path -> PackageConfiguration {
    (p: Path) => PackageConfiguration(Str("x"), Str("1.0.0"))
  }

  /** The record fields of `/pkg/src/a.js`, line 1, column 0, in package x@1.0.0. */
  function Record(name: string, message: Option<string>): Node {
    ObjectExpression([
      ObjectProperty(Identifier("functionName"), StringLiteral(Str(name))),
      ObjectProperty(Identifier("message"), if message.None? then NullLiteral else StringLiteral(Str(message.value))),
      ObjectProperty(Identifier("packageName"), StringLiteral(Str("x"))),
      ObjectProperty(Identifier("packageVersion"), StringLiteral(Str("1.0.0"))),
      ObjectProperty(Identifier("scriptColumn"), NumericLiteral(0)),
      ObjectProperty(Identifier("scriptLine"), NumericLiteral(1)),
      ObjectProperty(Identifier("scriptPath"), StringLiteral(Str("src/a.js")))])
  }

  function Warning(name: string, message: Option<string>): Node {
    CallExpression(
      MemberExpression(Identifier("console"), Identifier("warn")),
      [StringLiteral(Str("Deprecated: Function \"" + name + "\" is deprecated in /src/a.js on line 1")),
       Record(name, message)])
  }

  lemma LocatesPackageAbove()
    ensures FindPackageJsonPath(PackageTree(), ["pkg", "src"]) == Success(["pkg", "package.json"])
  {
    assert Dirname(["pkg", "src"]) == ["pkg"];
  }

  lemma ScriptPathOfA()
    ensures Relative(["pkg"], ["pkg", "src", "a.js"]) == "src/a.js"
  {
    assert ["pkg", "src", "a.js"][|["pkg"]|..] == ["src", "a.js"];
    assert Join(["src", "a.js"]) == "src" + "/" + Join(["a.js"]);
  }

  const FileA: Path := ["pkg", "src", "a.js"]

  function HostFor(tags: seq<Tag>): Host {
    Host(PackageTree(), PackageX(), Parser(tags))
  }

  /** The context every warning in `/pkg/src/a.js` at line 1, column 0 shares. */
  function ContextA(name: string): NodeContext {
    NodeContext(Str(name), Str("x"), Str("1.0.0"), "src/a.js", 1, 0)
  }

  lemma CallForA(name: string, message: Option<string>)
    ensures CallFor(ContextA(name), message) == Warning(name, message)
  {
    assert DecimalString(1) == "1";
    var tail := "\" is deprecated in /src/a.js on line 1";
    assert MessageMiddle + "src/a.js" + MessageLineLabel + "1" == tail;
    assert CreateMessage(Str(name), 1, "src/a.js") == MessageHead + name + tail;
  }

  /** A function at line 1, column 0 of `/pkg/src/a.js` with one comment, whatever its tags. */
  lemma PlannedForA(path: FunctionPath, comment: Comment, tags: seq<Tag>, name: string)
    requires path.node.start == Position(1, 0)
    requires GetFunctionName(path) == Success(Str(name))
    ensures PlannedCalls(path, State(FileA), [comment], HostFor(tags))
         == Success(CallsFor(ContextA(name), DeprecatedDescriptions(tags)))
  {
    LocatesPackageAbove();
    ScriptPathOfA();
    assert Dirname(FileA) == ["pkg", "src"];
    assert Dirname(["pkg", "package.json"]) == ["pkg"];
    assert ResolveContext(path, State(FileA), HostFor(tags)) == Success(ContextA(name));
    SingleCommentMessages(comment, Parser(tags));
  }

  /**
   * `function foo() {}` with one existing statement, under a comment whose only tag is `@deprecated`,
   * at line 1 of `/pkg/src/a.js`: one warning with a `null` message is put before that statement.
   */
  method DeclarationScenario() returns (body: seq<Node>)
    ensures body == [Warning("foo", None), Statement(0)]
  {
    var block := new BlockStatement([Statement(0)]);
    var comments := Some([Comment("* @deprecated ")]);
    var node := FunctionNode(FunctionDeclaration, Some("foo"), Position(1, 0), comments, block);
    var path := FunctionPath(node, OtherParent, None);
    var tags := [Tag("deprecated", None)];
    PlannedForA(path, comments.value[0], tags, "foo");
    assert DeprecatedDescriptions(tags) == [None];
    CallForA("foo", None);
    var r := VisitFunctionDeclaration(path, State(FileA), HostFor(tags));
    body := block.body;
  }

  /** `const bar = () => {};` under `@deprecated use baz instead`: the name comes from the declarator. */
  method ArrowScenario() returns (body: seq<Node>)
    ensures body == [Warning("bar", Some("use baz instead"))]
  {
    var block := new BlockStatement([]);
    var node := FunctionNode(ArrowFunctionExpression, None, Position(1, 0), None, block);
    var comment := Comment("* @deprecated use baz instead ");
    var path := FunctionPath(node, VariableDeclarator(IdentifierTarget("bar")), Some([comment]));
    var tags := [Tag("deprecated", Some("use baz instead"))];
    PlannedForA(path, comment, tags, "bar");
    assert DeprecatedDescriptions(tags) == [Some("use baz instead")];
    CallForA("bar", Some("use baz instead"));
    var r := VisitFunctionExpression(path, State(FileA), HostFor(tags));
    body := block.body;
  }

  /**
   * Two `@deprecated` tags in one comment give two warnings; since each is
   * unshifted to the front, the second tag's warning ends up first.
   */
  method TwoTagsScenario() returns (body: seq<Node>)
    ensures body == [Warning("foo", Some("second")), Warning("foo", Some("first")), Statement(0)]
  {
    var block := new BlockStatement([Statement(0)]);
    var comments := Some([Comment("* @deprecated first\n * @deprecated second ")]);
    var node := FunctionNode(FunctionDeclaration, Some("foo"), Position(1, 0), comments, block);
    var path := FunctionPath(node, OtherParent, None);
    var tags := [Tag("deprecated", Some("first")), Tag("param", Some("x")), Tag("deprecated", Some("second"))];
    PlannedForA(path, comments.value[0], tags, "foo");
    assert DeprecatedDescriptions(tags) == [Some("first"), Some("second")] by {
      assert tags[..2] == [Tag("deprecated", Some("first")), Tag("param", Some("x"))];
      assert tags[..2][..1] == [Tag("deprecated", Some("first"))];
    }
    CallForA("foo", Some("first"));
    CallForA("foo", Some("second"));
    var r := VisitFunctionDeclaration(path, State(FileA), HostFor(tags));
    body := block.body;
  }

  /** A function without leading comments is left untouched. */
  method UncommentedScenario() returns (body: seq<Node>)
    ensures body == [Statement(0)]
  {
    var block := new BlockStatement([Statement(0)]);
    var node := FunctionNode(FunctionDeclaration, Some("foo"), Position(1, 0), None, block);
    var r := VisitFunctionDeclaration(FunctionPath(node, OtherParent, None), State(FileA), HostFor([Tag("deprecated", None)]));
    body := block.body;
  }
}
