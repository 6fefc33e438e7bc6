/**
 * The classifier's structural checks. Each is a pattern match over one node
 * and the nodes below it. A check whose JavaScript reads a property of a
 * possibly absent sub-node without guarding it yields `Err(TypeError(..))`
 * on that path, as the JavaScript throws there.
 */
module Checks {
  import opened Js
  import opened Ast
  import opened Trigger

  /**
   * `name && name.includes(PLACEHOLDER)`. The empty string is falsy, and it
   * holds no marker either, so the truthiness test adds nothing.
   */
  predicate HasPlaceholder(name: Option<string>)
  {
    name.Some? && Includes(name.value, PLACEHOLDER)
  }

  /** `x && x.name === 'db'`: the node is the database-root identifier. */
  predicate IsDb(x: Option<Node>)
  {
    x.Some? && NameOf(x.value) == Some("db")
  }

  /** The call's only argument is a string literal holding the marker. */
  predicate SoleStringArgumentMarked(n: Node)
  {
    && n.CallExpression?
    && |n.arguments| == 1
    && n.arguments[0].StringLiteral?
    && HasPlaceholder(Some(n.arguments[0].value))
  }

  /** The call's only argument is a one-segment template literal whose raw text holds the marker. */
  predicate SoleTemplateArgumentMarked(n: Node)
  {
    && n.CallExpression?
    && |n.arguments| == 1
    && n.arguments[0].TemplateLiteral?
    && |n.arguments[0].quasis| == 1
    && HasPlaceholder(n.arguments[0].quasis[0])
  }

  /**
   * `_checkIsUseCall`. The callee's name is read first and unguarded. The
   * test for the name `use` only guards the string-literal case: the
   * template-literal case holds for any callee.
   */
  function IsUseCall(n: Node): Result<bool>
  {
    match CalleeOf(n)
    case None => Err(TypeError("node.callee.name"))
    case Some(callee) =>
      Ok((NameOf(callee) == Some("use") && SoleStringArgumentMarked(n)) || SoleTemplateArgumentMarked(n))
  }

  /** `_checkIsDbCall`: the statement's expression has the object `db` itself. */
  predicate IsDbCall(n: Node)
  {
    var expression := ExpressionOf(n);
    expression.Some? && IsDb(ObjectOf(expression.value))
  }

  /** `_checkIsObjectKey`: `node.properties.find(...)` over an object literal's properties. */
  function IsObjectKey(n: Node): Result<bool>
  {
    if n.ObjectExpression? then FindKey(n.properties)
    else Err(TypeError("node.properties.find"))
  }

  /**
   * The `find` over the properties: stops at the first property whose key's
   * name holds the marker; reading the key of a keyless item (a spread
   * element) throws.
   */
  function FindKey(items: seq<Node>): Result<bool>
  {
    if items == [] then Ok(false)
    else match KeyOf(items[0])
      case None => Err(TypeError("item.key.name"))
      case Some(key) => if HasPlaceholder(NameOf(key)) then Ok(true) else FindKey(items[1..])
  }

  /** The items before `i` all have keys, none of them holding the marker. */
  ghost predicate KeyedWithoutMarker(items: seq<Node>, i: nat)
    requires i <= |items|
  {
    forall j :: 0 <= j < i ==> KeyOf(items[j]).Some? && !HasPlaceholder(NameOf(KeyOf(items[j]).value))
  }

  /**
   * What the `find` decides: a match when some key holds the marker and
   * every item before it has a key; a throw when some item lacks a key and
   * every item before it has a key without the marker; otherwise no match.
   */
  lemma {:induction false} FindKeyFirstMatch(items: seq<Node>)
    ensures FindKey(items) == Ok(true) <==>
      exists i :: 0 <= i < |items| && KeyedWithoutMarker(items, i)
        && KeyOf(items[i]).Some? && HasPlaceholder(NameOf(KeyOf(items[i]).value))
    ensures FindKey(items).Err? <==>
      exists i :: 0 <= i < |items| && KeyedWithoutMarker(items, i) && KeyOf(items[i]).None?
    ensures FindKey(items) == Ok(false) <==> KeyedWithoutMarker(items, |items|)
  {
    if items != [] {
      var rest := items[1..];
      FindKeyFirstMatch(rest);
      forall i | 0 < i <= |items|
        ensures KeyedWithoutMarker(items, i) <==> KeyedWithoutMarker(items, 1) && KeyedWithoutMarker(rest, i - 1)
      {
        assert forall j :: 0 < j < i ==> items[j] == rest[j - 1];
      }
      if KeyOf(items[0]).Some? && !HasPlaceholder(NameOf(KeyOf(items[0]).value)) {
        if FindKey(items) == Ok(true) {
          var i :| 0 <= i < |rest| && KeyedWithoutMarker(rest, i)
            && KeyOf(rest[i]).Some? && HasPlaceholder(NameOf(KeyOf(rest[i]).value));
          assert KeyedWithoutMarker(items, i + 1);
        }
        if FindKey(items).Err? {
          var i :| 0 <= i < |rest| && KeyedWithoutMarker(rest, i) && KeyOf(rest[i]).None?;
          assert KeyedWithoutMarker(items, i + 1);
        }
      } else {
        assert KeyedWithoutMarker(items, 0);
        assert !KeyedWithoutMarker(items, |items|);
      }
    }
  }

  /**
   * `_checkIsCollectionName`: either `db.<marker>` as a member expression, or
   * a call on `db.<marker>.<method>`. In the second form the collection's
   * property name is read unguarded.
   */
  function IsCollectionName(n: Node): Result<bool>
  {
    if IsDb(ObjectOf(n)) && PropertyOf(n).Some? && HasPlaceholder(NameOf(PropertyOf(n).value)) then Ok(true)
    else match CalleeOf(n)
      case None => Ok(false)
      case Some(callee) =>
        match ObjectOf(callee)
        case None => Ok(false)
        case Some(collection) =>
          if !IsDb(ObjectOf(collection)) then Ok(false)
          else match PropertyOf(collection)
            case None => Err(TypeError("node.callee.object.property.name"))
            case Some(name) => Ok(HasPlaceholder(NameOf(name)) && PropertyOf(callee).Some?)
  }

  /**
   * The shared shape of `_checkHasAggregationCall` and `_checkHasFindCall`:
   * `<call>.<marker>` where the call's callee (a member access or a meta
   * property) has a property named `calledName`. The member's own property name and the callee's property
   * are read unguarded.
   */
  function HasCursorCall(n: Node, calledName: string): Result<bool>
  {
    match ObjectOf(n)
    case None => Ok(false)
    case Some(call) =>
      if !call.CallExpression? then Ok(false)
      else match PropertyOf(n)
        case None => Err(TypeError("node.property.name"))
        case Some(property) =>
          if !HasPlaceholder(NameOf(property)) then Ok(false)
          else match CalleeOf(call)
            case None => Ok(false)
            case Some(callee) =>
              match PropertyOf(callee)
              case None => Err(TypeError("node.object.callee.property.name"))
              case Some(called) => Ok(NameOf(called) == Some(calledName))
  }

  /** `_checkHasAggregationCall` */
  function HasAggregationCall(n: Node): Result<bool>
  {
    HasCursorCall(n, "aggregate")
  }

  /** `_checkHasFindCall` */
  function HasFindCall(n: Node): Result<bool>
  {
    HasCursorCall(n, "find")
  }

  /**
   * The cursor is at or after the end of a node that ends at `loc`: the
   * parser's 1-based end line becomes 0-based, and on that line the cursor
   * is at or past the end column.
   */
  predicate CursorAtOrAfter(pos: Position, loc: Loc)
  {
    pos.line > loc.endLine - 1 || (pos.line == loc.endLine - 1 && pos.character >= loc.endColumn)
  }

  /** `_checkHasDatabaseName`: `use('<name>')` ending at or before the cursor. */
  predicate HasDatabaseName(n: Node, pos: Position)
  {
    && CalleeOf(n).Some?
    && NameOf(CalleeOf(n).value) == Some("use")
    && |n.arguments| == 1
    && n.arguments[0].StringLiteral?
    && CursorAtOrAfter(pos, n.loc)
  }

  /** `_checkHasCollectionName`: `db.<collection>.<anything>`; the node's object is read unguarded. */
  function HasCollectionName(n: Node): Result<bool>
  {
    match ObjectOf(n)
    case None => Err(TypeError("node.object.object"))
    case Some(collection) => Ok(IsDb(ObjectOf(collection)) && PropertyOf(collection).Some?)
  }

  /**
   * `_checkIsShellMethod`: `db.<collection>.<marker>`. The node's object and,
   * once the root is `db`, its property name are read unguarded.
   */
  function IsShellMethod(n: Node): Result<bool>
  {
    match ObjectOf(n)
    case None => Err(TypeError("node.object.object"))
    case Some(collection) =>
      if !IsDb(ObjectOf(collection)) then Ok(false)
      else match PropertyOf(n)
        case None => Err(TypeError("node.property.name"))
        case Some(property) => Ok(HasPlaceholder(NameOf(property)))
  }

  // What the checks decide, stated against the shapes of the syntax tree.

  /**
   * A call whose only argument is a one-segment template holding the marker
   * is a database-selection call whatever its callee is.
   */
  lemma UseCallTemplateAnyCallee(n: Node, callee: Node)
    requires SoleTemplateArgumentMarked(n)
    ensures IsUseCall(n.(callee := Some(callee))) == Ok(true)
  {
  }

  /**
   * With a string-literal argument the callee must be the identifier `use`,
   * and the literal must hold the marker.
   */
  lemma UseCallStringNeedsUse(n: Node)
    requires n.CallExpression? && n.callee.Some?
    requires |n.arguments| == 1 && n.arguments[0].StringLiteral?
    ensures IsUseCall(n) == Ok(true) <==>
      n.callee.value == Identifier("use") && Includes(n.arguments[0].value, PLACEHOLDER)
  {
  }

  /**
   * With a callee present, the database-selection check holds in exactly two
   * shapes: `use('<..marker..>')`, or any callee applied to a one-segment
   * template whose raw text holds the marker.
   */
  lemma UseCallShapes(n: Node)
    requires n.CallExpression? && n.callee.Some?
    ensures IsUseCall(n) == Ok(true) <==>
      || (&& n.callee.value == Identifier("use")
          && |n.arguments| == 1 && n.arguments[0].StringLiteral?
          && Includes(n.arguments[0].value, PLACEHOLDER))
      || (&& |n.arguments| == 1 && n.arguments[0].TemplateLiteral?
          && |n.arguments[0].quasis| == 1 && n.arguments[0].quasis[0].Some?
          && Includes(n.arguments[0].quasis[0].value, PLACEHOLDER))
  {
  }

  /** A call without a callee makes the database-selection check throw. */
  lemma UseCallWithoutCalleeThrows(n: Node)
    requires n.CallExpression? && n.callee.None?
    ensures IsUseCall(n).Err?
  {
  }

  /**
   * The statement check looks one level deep: it holds exactly for a
   * statement `db.<x>` or `db?.<x>`; a statement that is a call, such as
   * `db.<collection>.find()`, never satisfies it.
   */
  lemma DbCallOneLevel(n: Node)
    ensures IsDbCall(n) <==>
      && n.ExpressionStatement? && n.expression.Some?
      && IsMemberAccess(n.expression.value)
      && n.expression.value.obj == Some(Identifier("db"))
  {
  }

  /**
   * The collection-name slot is exactly `db.<marker>` as a member access, or
   * `db.<marker>.<method>` as the callee of a call.
   */
  lemma CollectionNameShapes(n: Node)
    ensures IsCollectionName(n) == Ok(true) <==>
      || (IsMemberAccess(n) && n.obj == Some(Identifier("db"))
          && n.property.Some? && HasPlaceholder(NameOf(n.property.value)))
      || (n.CallExpression? && n.callee.Some? && IsMemberAccess(n.callee.value)
          && n.callee.value.property.Some?
          && n.callee.value.obj.Some? && IsMemberAccess(n.callee.value.obj.value)
          && n.callee.value.obj.value.obj == Some(Identifier("db"))
          && n.callee.value.obj.value.property.Some?
          && HasPlaceholder(NameOf(n.callee.value.obj.value.property.value)))
  {
  }

  /**
   * A cursor-method slot needs the marker in the member's own property, a
   * call as its object, and a callee property named exactly `calledName`:
   * the callee is a member access or a meta property (`import.meta`).
   */
  lemma CursorCallShape(n: Node, calledName: string)
    ensures HasCursorCall(n, calledName) == Ok(true) <==>
      && IsMemberAccess(n) && n.obj.Some? && n.obj.value.CallExpression?
      && n.property.Some? && HasPlaceholder(NameOf(n.property.value))
      && n.obj.value.callee.Some?
      && var callee := n.obj.value.callee.value;
        || (IsMemberAccess(callee) && callee.property == Some(Identifier(calledName)))
        || (callee.MetaProperty? && callee.metaProperty == Identifier(calledName))
  {
  }

  /** No member access is both an aggregation-cursor slot and a find-cursor slot. */
  lemma CursorCallsExclusive(n: Node)
    ensures !(HasAggregationCall(n) == Ok(true) && HasFindCall(n) == Ok(true))
  {
  }

  /**
   * `<f>().<marker>` with a bare identifier `f` as the inner callee throws:
   * the callee has no `property` to read a name from.
   */
  lemma CursorCallOnBareCalleeThrows(f: string, arguments: seq<Node>, loc: Loc, marked: string, calledName: string)
    requires Includes(marked, PLACEHOLDER)
    ensures HasCursorCall(
      MemberExpression(Some(CallExpression(Some(Identifier(f)), arguments, loc)), Some(Identifier(marked))),
      calledName) == Err(TypeError("node.object.callee.property.name"))
  {
  }

  /** The shell-method slot needs the marker in the member's own property. */
  lemma ShellMethodNeedsMarker(n: Node)
    ensures IsShellMethod(n) == Ok(true) <==>
      && IsMemberAccess(n) && n.obj.Some? && IsMemberAccess(n.obj.value)
      && n.obj.value.obj == Some(Identifier("db"))
      && n.property.Some? && HasPlaceholder(NameOf(n.property.value))
  {
  }

  /**
   * Capturing a collection name does not look at the member's own property:
   * any `db.<collection>.<anything>` captures, with or without the marker.
   */
  lemma CollectionCaptureIgnoresMarker(n: Node, property: Option<Node>)
    requires IsMemberAccess(n)
    ensures HasCollectionName(n.(property := property)) == HasCollectionName(n)
    ensures HasCollectionName(n) == Ok(true) <==>
      && n.obj.Some? && IsMemberAccess(n.obj.value)
      && n.obj.value.obj == Some(Identifier("db")) && n.obj.value.property.Some?
  {
  }

  /**
   * A database name is recorded exactly for a call `use(<string literal>)`
   * that the cursor is not before: comparing (line, character) with the
   * call's (end line - 1, end column) in lexicographic order. The literal
   * need not hold the marker.
   */
  lemma DatabaseNameShape(n: Node, pos: Position)
    ensures HasDatabaseName(n, pos) <==>
      && n.CallExpression? && n.callee == Some(Identifier("use"))
      && |n.arguments| == 1 && n.arguments[0].StringLiteral?
      && !(pos.line < n.loc.endLine - 1 || (pos.line == n.loc.endLine - 1 && pos.character < n.loc.endColumn))
  {
  }
}
