/**
 * The slice of Babel's syntax tree the plugin reads and builds: the nodes
 * made by the `t.*` builders it calls, opaque statements of the original
 * program, and the block statement whose `body` list it edits in place.
 */
module BabelAst {
  import opened JsText

  /**
   * Field names follow Babel's except where Dafny needs distinct ones:
   * `obj` is Babel's `object` (a reserved word), and the literals' `value`
   * is `text` and `number` (a field name must keep one type across constructors).
   */
  datatype Node =
    | Identifier(name: string)
    | MemberExpression(obj: Node, property: Node)
    | CallExpression(callee: Node, arguments: seq<Node>)
    /** `t.stringLiteral(v)` keeps whatever `v` is, `undefined` included. */
    | StringLiteral(text: JsValue)
    | NumericLiteral(number: nat)
    | NullLiteral
    | ObjectExpression(properties: seq<Node>)
    | ObjectProperty(key: Node, value: Node)
    /** A statement already in the program; the plugin never looks inside it. */
    | Statement(id: nat)

  /** The `{ ... }` body of a function, whose statement list the plugin edits in place. */
  class BlockStatement {
    var body: seq<Node>

    constructor (body: seq<Node>)
      ensures this.body == body
    {
      this.body := body;
    }

    /** `unshiftContainer('body', node)`: insert `node` before every statement. */
    method UnshiftContainer(node: Node)
      modifies this
      ensures body == [node] + old(body)
    {
      body := [node] + body;
    }
  }
}
