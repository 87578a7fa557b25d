# babel-plugin-log-deprecated, modelled in Dafny

This project models the core of `babel-plugin-log-deprecated`. The plugin is a
Babel transform. It finds functions whose documentation comment carries
`@deprecated` tags. At the top of each such function's body it inserts one
`console.warn(...)` call per tag. Each call carries a fixed-format message
and a record: function name, deprecation text, package name and version,
column, line, and the script path relative to the package root.

Files and modules:

- `results.dfy` (`Results`): `Option` for JavaScript `null`, and `Result` for a value or what is thrown.
- `paths.dfy` (`Paths`): absolute paths as segment sequences. Covers `dirname` / `resolve(dir, '..')`, `resolve(dir, 'package.json')` and `relative` from an ancestor. `Split` reads a relative path back.
- `js_text.dfy` (`JsText`): JavaScript values that may be `undefined`, the `+` string coercion, and decimal printing of a line number. `DecimalValue` reads the number back.
- `strings.dfy` (`Strings`): first-occurrence search in a string, used to read printed paths and messages back.
- `package_locator.dfy` (`PackageLocator`): `findPackageJsonPath`, the upward search for a readable `package.json`.
- `deprecated_tags.dfy` (`DeprecatedTags`): `getCommentDeprecatedTagDescriptions`, the tag filter.
- `babel_ast.dfy` (`BabelAst`): the syntax-tree nodes the plugin builds. Also the function's block statement, a class whose `body` list is edited in place by `UnshiftContainer`.
- `console_call.dfy` (`ConsoleCall`): `createMessage` and `createConsoleCallExpression`. Each has a reader (`ParseMessage`, `ReadConsoleCall`) that takes its output apart.
- `log_deprecated.dfy` (`LogDeprecated`): `getFunctionName`, `processNode` (an imperative loop over the body), the two visitor handlers, and the lemmas that tie them together.
- `scenarios.dfy` (`Scenarios`): worked examples that call the visitor methods on a small package tree.

The filesystem, the package reader and the comment parser are parameters of
type `Host`. A function's source position is an opaque pair of naturals.

Where the intended behaviour and the code differ, the model follows the code:

- `getFunctionName` is not total. For a `FunctionDeclaration` whose `id` is `null` (`export default function () {}`), `path.node.id.name` throws a `TypeError`. The model returns `Failure(TypeError)`, and processing of that node aborts with `NameFailed`.
- `getFunctionName` reads `left.name` and `id.name` without checking for an identifier. A member-expression or destructuring target therefore yields `undefined`. Babel's validating `t.stringLiteral(sourceLocation.functionName)` (src/index.js:78) then throws, so in practice no warning is emitted for such a node. The model keeps the `undefined` value (see the builders line under "## Left out"), and its message would read `Function "undefined"`.
- Each warning is unshifted to the front of the body. The inserted calls therefore end up in reverse discovery order, ahead of the original statements. `ProcessNode` states this and `Scenarios.TwoTagsScenario` shows it.

## Model

| member | source | states |
|---|---|---|
| `PackageLocator.FindPackageJsonPath` | src/findPackageJsonPath.js:6-26 | Terminates: each recursive call is on a strictly shorter parent, and the root is the only fixed point. A found path is the readable `package.json` of an ancestor-or-self of the start. A re-thrown error never has code ENOENT. The locator's own error says 'package.json not found'. |
| `PackageLocator.FoundIsNearest` | src/findPackageJsonPath.js:7-21 | A found `package.json` belongs to the nearest ancestor-or-self whose access succeeds. Every directory between the start and it had ENOENT. |
| `PackageLocator.NearestIsFound` | src/findPackageJsonPath.js:7-21 | Converse of the above: if a directory's file is readable and every deeper directory had ENOENT, its `package.json` is returned, however deep the start lies. A readable file in the start directory is returned at once. |
| `PackageLocator.RethrownIsNearest` | src/findPackageJsonPath.js:22-24 | A re-thrown error is the unchanged error of the nearest directory whose access failed with another code. Everything below it had ENOENT. |
| `PackageLocator.NearestErrorIsRethrown` | src/findPackageJsonPath.js:14-24 | Converse: the first non-ENOENT error met on the way up is thrown unchanged, and no directory above it is tried. |
| `PackageLocator.NotFoundIffMissingEverywhere` | src/findPackageJsonPath.js:15-18 | The locator fails with 'package.json not found' exactly when every ancestor-or-self, the root included, had ENOENT. |
| `PackageLocator.ReResolutionIsIdempotent` | src/findPackageJsonPath.js:7-12 | Searching again from the directory of a found `package.json` returns the same path. |
| `Paths.Dirname` | src/findPackageJsonPath.js:15-17 | The parent of a directory equals the directory exactly at the root. Otherwise it is one segment shorter and an ancestor. |
| `Paths.Resolve` | src/findPackageJsonPath.js:7 | `resolve(dir, 'package.json')` is one segment longer than `dir`, ends in the file name, and its dirname is `dir`. |
| `Paths.SplitJoin` | src/index.js:121 | A relative path printed from valid segments reads back as exactly those segments. |
| `Paths.RelativeIsRelative` | src/index.js:121 | The path relative to an ancestor is empty only for the ancestor itself, never starts with '/', and names exactly the segments below the ancestor. |
| `JsText.ToJsString` | src/index.js:110 | `+` appends a string value unchanged; `undefined` appears as the text "undefined". |
| `JsText.DecimalString` | src/index.js:110 | `+ line` appends a non-empty run of decimal digits with no leading zero (except for 0). |
| `JsText.DecimalRoundTrip` | src/index.js:110 | The printed line number reads back as the same number. |
| `DeprecatedTags.GetCommentDeprecatedTagDescriptions` | src/index.js:27-41 | Fails exactly when the parser throws, with the parser's error. Otherwise it returns the filtered descriptions (`DeprecatedDescriptions` of the parsed tags), one per tag titled "deprecated". |
| `DeprecatedTags.DeprecatedDescriptions` | src/index.js:34-40 | At most one result per tag, and every result is the description of some tag titled "deprecated". |
| `DeprecatedTags.DeprecatedPositions` | src/index.js:35-37 | The positions of the "deprecated" tags: in range, strictly increasing, and containing a position exactly when its tag is titled "deprecated". |
| `DeprecatedTags.DescriptionsAtPositions` | src/index.js:34-40 | The k-th result is the description of the k-th "deprecated" tag, so tag order and duplicates are kept and nothing else is included. |
| `DeprecatedTags.DescriptionsCount` | src/index.js:34-40 | The number of results equals the number of tags titled "deprecated". |
| `DeprecatedTags.DescriptionsAppend` | src/index.js:34-40 | The filter distributes over concatenation of tag lists, so order is preserved. |
| `DeprecatedTags.OtherTagIgnored` | src/index.js:35-37 | Inserting a tag with any other title anywhere leaves the result unchanged. |
| `LogDeprecated.GetFunctionName` | src/index.js:48-65 | A declaration's name is its id's name, and it throws exactly for a declaration without an id. Otherwise an assignment parent gives its left target's name and a declarator parent its id's name, in that order of precedence. The result is `undefined` exactly for a non-declaration whose assignment or declarator target is not an identifier. The result is "anonymous" exactly when that is the chosen candidate's name, or no rule applies. |
| `LogDeprecated.NameIgnoresIrrelevantShape` | src/index.js:48-59 | A function expression's own id never decides its name. A declaration's parent never does. |
| `ConsoleCall.CreateConsoleCallExpression` | src/index.js:67-107 | The call's callee is `console.<severity>`. It has exactly two arguments: the message string literal, then an object whose seven keys appear in the fixed order. The `message` property is a null literal exactly when the record's message is null, and a string literal otherwise. |
| `ConsoleCall.ReadCreatedCall` | src/index.js:67-107 | Reading the built call gives back its severity, message and full record, so no field is lost or reordered. |
| `ConsoleCall.CreateMessage` | src/index.js:109-111 | The message begins with 'Deprecated: Function "' and ends with the decimal line number. |
| `ConsoleCall.ParseCreatedMessage` | src/index.js:109-111 | When the name holds no double quote, the message determines the function name, the script path and the line it was built from. |
| `LogDeprecated.DeprecationMessages` | src/index.js:124-131 | The flattened texts, in comment order and then tag order. The only possible failure is a comment parse error. |
| `LogDeprecated.MessagesFailIff` | src/index.js:124-131 | Flattening fails exactly when some comment is rejected by the parser. |
| `LogDeprecated.FirstParseErrorWins` | src/index.js:124-128 | The error is that of the first rejected comment, whatever follows it. |
| `LogDeprecated.MessagesCount` | src/index.js:124-131 | When every comment parses, there is one text per "deprecated" tag, summed over all comments. |
| `LogDeprecated.MessagesAppend` | src/index.js:129-131 | The texts of earlier comments come before those of later ones. |
| `LogDeprecated.SingleCommentMessages` | src/index.js:124-131 | A single comment contributes exactly its "deprecated" descriptions, in tag order. |
| `LogDeprecated.InsertedCount` | src/index.js:124-144 | `processNode` plans exactly one call per "deprecated" tag, summed over all leading comments. |
| `LogDeprecated.CallsShareContext` | src/index.js:132-141 | Every planned call is a `console.warn`. The k-th call's record message is the k-th text found. All calls of one node share the warning text and every other record field. The k-th call's record is the resolved context with the k-th text, and its warning text is `createMessage` of the context's name, line and script path. |
| `LogDeprecated.ResolveContext` | src/index.js:114-122 | A failed package search aborts first, then a name error. On success the context holds `getFunctionName`'s result, the name and version read from the located `package.json`, the path of the file relative to that file's directory, and the node's start line and column. |
| `LogDeprecated.PlannedCalls` | src/index.js:113-141 | Package and name errors come before comment parse errors. It succeeds exactly when both the context and every comment resolve, with one call per flattened text. |
| `LogDeprecated.CallCarriesContext` | src/index.js:113-141 | The k-th planned call reads back as a `console.warn` whose record holds the function's name, the k-th text, the located package's name and version, the node's column and line, and the script path relative to the package directory. |
| `LogDeprecated.ProcessNode` | src/index.js:113-145 | On success the new body is the reverse of the planned calls followed by the old body. On failure (package lookup, name, comment parse) the error is reported and the body is unchanged. |
| `LogDeprecated.ReversedAt` | src/index.js:143 | Repeated unshifting puts the element k places from the end of the discovery order at position k. |
| `LogDeprecated.UnshiftedBody` | src/index.js:132-144 | After the unshifts, the first statements are the calls, last-discovered first. The original statements follow, unchanged and in order. |
| `BabelAst.BlockStatement.UnshiftContainer` | src/index.js:143 | `unshiftContainer('body', node)` puts the node before every existing statement. |
| `LogDeprecated.ScriptPathBelowNearestPackage` | src/index.js:119-121 | The recorded script path is non-empty and not absolute. It names the file's segments below the nearest ancestor whose `package.json` is readable. |
| `LogDeprecated.VisitFunctionExpression` | src/index.js:149-155 | Arrow functions and function expressions read the leading comments of their grandparent node (`path.parentPath.parent`), whatever kind of node that is. Missing or empty comments leave the body unchanged; otherwise the handler acts as `processNode`. |
| `LogDeprecated.VisitFunctionDeclaration` | src/index.js:156-162 | Declarations read their own leading comments. Missing or empty comments leave the body unchanged; otherwise the handler acts as `processNode`. |
| `LogDeprecated.Transform` | src/index.js:149-162 | Missing or empty comments give no calls. Otherwise the handler plans the calls of `processNode` for the comments it reads. |
| `LogDeprecated.NoCommentsNoChange` | src/index.js:149-162 | A function whose relevant leading comments are missing or empty gets no calls. |
| `Scenarios.LocatesPackageAbove` | src/findPackageJsonPath.js:6-26 | From `/pkg/src`, with only `/pkg/package.json` present, the locator returns `/pkg/package.json`. |
| `Scenarios.DeclarationScenario` | src/index.js:113-162 | `function foo(){}` with one existing statement, in `/pkg/src/a.js`, line 1, package x@1.0.0, with a bare `@deprecated` tag, gets one warning before its statement. The warning reads 'Deprecated: Function "foo" is deprecated in /src/a.js on line 1' and its record has message null and script path "src/a.js". |
| `Scenarios.ArrowScenario` | src/index.js:113-155 | `const bar = () => {}` under `@deprecated use baz instead` gets a warning named "bar" whose message is "use baz instead". |
| `Scenarios.TwoTagsScenario` | src/index.js:124-144 | Two `@deprecated` tags in one comment give two warnings, the second tag's first; a tag with another title adds nothing. |
| `Scenarios.UncommentedScenario` | src/index.js:156-159 | A declaration without leading comments keeps its body as it was. |

## Left out

- Comment parsing with doctrine (`parseComment(comment, { unwrap: true })`) is external. It is the `Host.parseComment` parameter, which gives a comment's tags or the error it throws.
- `fs.accessSync` is the `Host.access` parameter. `readFileSync` and `JSON.parse` of `package.json` are the `Host.readPackage` parameter, which cannot fail. Read or JSON errors in `package.json` are not modelled.
- Babel's traversal, `NodePath` objects and visitor dispatch are not modelled. Each handler's `requires` on the node kind stands for the dispatch.
- Babel's builders are modelled as plain constructors. The type checks they run on their arguments are not modelled: a `t.stringLiteral` given `undefined` (a non-identifier name target, or a `package.json` without `name` or `version`) keeps `undefined` in the model.
- Arrow functions with an expression body (`() => x`) have no block for `unshiftContainer`. The model's function node always has a block body.
- Real `path` semantics are not modelled: normalisation, `..` segments, symbolic links, Windows drive roots, the working directory. Paths are normalised absolute segment sequences. `relative` is only used from an ancestor, which the locator guarantees.
- Source positions (`node.loc.start`) are opaque naturals supplied by the parser. The line number is printed as a non-negative integer.
- The plugin factory's `types` argument and the `state` object are reduced to what is read from them: the builders and `state.file.opts.filename`.
