/**
 * The subset of the parser's syntax tree that the classifier inspects, the
 * JavaScript property reads it performs on untyped nodes, and the order in
 * which the tree walker enters the nodes.
 */
module Ast {
  import opened Js

  /** Where a node ends: `endLine` is 1-based and `endColumn` 0-based, as the parser reports them. */
  datatype Loc = Loc(endLine: nat, endColumn: nat)

  /**
   * A syntax-tree node. Sub-nodes that the classifier guards before reading
   * are optional; a `TemplateLiteral` keeps, per segment, its raw text (absent
   * when the segment has no `value`); an optional-chaining member access
   * (`a?.b`) and a meta property (`import.meta`) are kept apart from a plain
   * member access because the checks read their `object` and `property`
   * while the walker's callback runs no visit for them; `Other` stands for
   * every other node type, with its children in walking order.
   */
  datatype Node =
    | Identifier(name: string)
    | StringLiteral(value: string)
    | TemplateLiteral(quasis: seq<Option<string>>, expressions: seq<Node>)
    | CallExpression(callee: Option<Node>, arguments: seq<Node>, loc: Loc)
    | MemberExpression(obj: Option<Node>, property: Option<Node>)
    | OptionalMemberExpression(obj: Option<Node>, property: Option<Node>)
    | MetaProperty(meta: Node, metaProperty: Node)
    | ExpressionStatement(expression: Option<Node>)
    | ObjectExpression(properties: seq<Node>)
    | ObjectProperty(key: Node, propertyValue: Node)
    | SpreadElement(argument: Node)
    | Other(children: seq<Node>)

  // Property reads on an untyped node: a node of another type has no such
  // property, and the read yields `undefined`.

  /** `node.callee` */
  function CalleeOf(n: Node): Option<Node>
  {
    if n.CallExpression? then n.callee else None
  }

  /** The node types that have an `object` and a `property`: `a.b` and `a?.b`. */
  predicate IsMemberAccess(n: Node)
  {
    n.MemberExpression? || n.OptionalMemberExpression?
  }

  /** `node.object` */
  function ObjectOf(n: Node): Option<Node>
  {
    if IsMemberAccess(n) then n.obj else None
  }

  /** `node.property`; a meta property has one too. */
  function PropertyOf(n: Node): Option<Node>
  {
    if IsMemberAccess(n) then n.property
    else if n.MetaProperty? then Some(n.metaProperty)
    else None
  }

  /** `node.expression` */
  function ExpressionOf(n: Node): Option<Node>
  {
    if n.ExpressionStatement? then n.expression else None
  }

  /** `node.key` */
  function KeyOf(n: Node): Option<Node>
  {
    if n.ObjectProperty? then Some(n.key) else None
  }

  /** `node.name` */
  function NameOf(n: Node): Option<string>
  {
    if n.Identifier? then Some(n.name) else None
  }

  function OptionToSeq(o: Option<Node>): seq<Node>
  {
    if o.Some? then [o.value] else []
  }

  /**
   * The direct children of a node in the order the walker visits them
   * (callee before arguments, object before property, key before value).
   * Template segments are left out: entering one changes nothing.
   */
  function Children(n: Node): seq<Node>
  {
    match n
    case TemplateLiteral(_, expressions) => expressions
    case CallExpression(callee, arguments, _) => OptionToSeq(callee) + arguments
    case MemberExpression(obj, property) => OptionToSeq(obj) + OptionToSeq(property)
    case OptionalMemberExpression(obj, property) => OptionToSeq(obj) + OptionToSeq(property)
    case MetaProperty(meta, metaProperty) => [meta, metaProperty]
    case ExpressionStatement(expression) => OptionToSeq(expression)
    case ObjectExpression(properties) => properties
    case ObjectProperty(key, propertyValue) => [key, propertyValue]
    case SpreadElement(argument) => [argument]
    case Other(children) => children
    case _ => []
  }

  /** The nodes of the tree rooted at `n`, each entered before its children. */
  function PreOrder(n: Node): seq<Node>
    decreases n
  {
    [n] + match n
      case TemplateLiteral(_, expressions) => PreOrderAll(expressions)
      case CallExpression(callee, arguments, _) => PreOrderOption(callee) + PreOrderAll(arguments)
      case MemberExpression(obj, property) => PreOrderOption(obj) + PreOrderOption(property)
      case OptionalMemberExpression(obj, property) => PreOrderOption(obj) + PreOrderOption(property)
      case MetaProperty(meta, metaProperty) => PreOrder(meta) + PreOrder(metaProperty)
      case ExpressionStatement(expression) => PreOrderOption(expression)
      case ObjectExpression(properties) => PreOrderAll(properties)
      case ObjectProperty(key, propertyValue) => PreOrder(key) + PreOrder(propertyValue)
      case SpreadElement(argument) => PreOrder(argument)
      case Other(children) => PreOrderAll(children)
      case _ => []
  }

  function PreOrderOption(o: Option<Node>): seq<Node>
    decreases o
  {
    if o.Some? then PreOrder(o.value) else []
  }

  /** The pre-order walks of a list of trees, one after the other. */
  function PreOrderAll(ns: seq<Node>): seq<Node>
    decreases ns
  {
    if ns == [] then [] else PreOrder(ns[0]) + PreOrderAll(ns[1..])
  }

  /** The walker enters every node below the root, but not the root itself. */
  function Descendants(root: Node): seq<Node>
  {
    PreOrderAll(Children(root))
  }

  lemma {:induction false} PreOrderAllAppend(a: seq<Node>, b: seq<Node>)
    ensures PreOrderAll(a + b) == PreOrderAll(a) + PreOrderAll(b)
    decreases |a|
  {
    if a != [] {
      AppendHeadTail(a, b);
      PreOrderAllAppend(a[1..], b);
      assert PreOrderAll(a + b) == PreOrder(a[0]) + PreOrderAll(a[1..] + b);
    } else {
      assert a + b == b;
    }
  }

  /** The head and the tail of a concatenation whose left part is not empty. */
  lemma AppendHeadTail<T>(a: seq<T>, b: seq<T>)
    requires a != []
    ensures (a + b)[0] == a[0] && (a + b)[1..] == a[1..] + b
  {
  }

  lemma PreOrderAllOption(o: Option<Node>)
    ensures PreOrderAll(OptionToSeq(o)) == PreOrderOption(o)
  {
    if o.Some? {
      assert OptionToSeq(o)[1..] == [];
    }
  }

  /** A pre-order walk enters the node, then walks its children in order. */
  lemma {:induction false} PreOrderChildren(n: Node)
    ensures PreOrder(n) == [n] + PreOrderAll(Children(n))
  {
    match n
    case CallExpression(callee, arguments, _) =>
      PreOrderAllAppend(OptionToSeq(callee), arguments);
      PreOrderAllOption(callee);
    case MemberExpression(obj, property) =>
      PreOrderAllAppend(OptionToSeq(obj), OptionToSeq(property));
      PreOrderAllOption(obj);
      PreOrderAllOption(property);
    case OptionalMemberExpression(obj, property) =>
      PreOrderAllAppend(OptionToSeq(obj), OptionToSeq(property));
      PreOrderAllOption(obj);
      PreOrderAllOption(property);
    case MetaProperty(meta, metaProperty) =>
      assert [meta, metaProperty] == [meta] + [metaProperty];
      PreOrderAllAppend([meta], [metaProperty]);
      PreOrderAllOption(Some(meta));
      PreOrderAllOption(Some(metaProperty));
    case ExpressionStatement(expression) =>
      PreOrderAllOption(expression);
    case ObjectProperty(key, propertyValue) =>
      assert [key, propertyValue] == [key] + [propertyValue];
      PreOrderAllAppend([key], [propertyValue]);
      PreOrderAllOption(Some(key));
      PreOrderAllOption(Some(propertyValue));
    case SpreadElement(argument) =>
      assert [argument][1..] == [];
    case _ =>
  }

  /**
   * The walk of a list is the walk of the trees before `ns[i]`, then the walk
   * of `ns[i]`, then the walk of the trees after it; so every tree in a list
   * is walked within the walk of the list.
   */
  lemma {:induction false} PreOrderAllCovers(ns: seq<Node>, i: nat)
    requires i < |ns|
    ensures PreOrderAll(ns) == PreOrderAll(ns[..i]) + PreOrder(ns[i]) + PreOrderAll(ns[i + 1..])
    ensures |PreOrder(ns[i])| <= |PreOrderAll(ns)|
    decreases i
  {
    if i == 0 {
      assert ns[..0] == [];
    } else {
      PreOrderAllCovers(ns[1..], i - 1);
      assert ns[1..][..i - 1] == ns[..i][1..];
      assert ns[1..][i - 1] == ns[i];
      assert ns[1..][i..] == ns[i + 1..];
      assert ns[..i][0] == ns[0];
    }
  }
}
