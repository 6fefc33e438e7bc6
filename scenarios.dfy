/**
 * Worked classifications. The walks are stated for whole families of
 * syntax trees (any collection, method or database name that does not
 * itself hold the marker, any location); each family is then instantiated
 * on a concrete editor text, where the parser is any function that returns
 * the family's tree for the text with the marker spliced in. Trees are
 * those a JavaScript parser yields, with the file and program nodes as
 * `Other` wrappers and an array literal as `Other([])`.
 */
module Scenarios {
  import opened Js
  import opened Ast
  import opened Trigger
  import opened Checks
  import opened Completion

  function Id(name: string): Node
  {
    Identifier(name)
  }

  function Member(obj: Node, property: Node): Node
  {
    MemberExpression(Some(obj), Some(property))
  }

  function Statement(expression: Node): Node
  {
    ExpressionStatement(Some(expression))
  }

  /** A file holding one program with the given statements. */
  function File(statements: seq<Node>): Node
  {
    Other([Other(statements)])
  }

  /** `db.<c>` */
  function Collection(c: string): Node
  {
    Member(Id("db"), Id(c))
  }

  /** `db.<c>.<m>(<arguments>)` */
  function CollectionCall(c: string, m: string, arguments: seq<Node>, loc: Loc): Node
  {
    CallExpression(Some(Member(Collection(c), Id(m))), arguments, loc)
  }

  /** `use('<d>')` */
  function UseCall(d: string, loc: Loc): Node
  {
    CallExpression(Some(Id("use")), [StringLiteral(d)], loc)
  }

  /** `{ <marker> }`: the parser reads the marker as a shorthand property. */
  function MarkedDocument(): Node
  {
    ObjectExpression([ObjectProperty(Id(PLACEHOLDER), Id(PLACEHOLDER))])
  }

  // ---------------------------------------------------------------------
  // Walking a tree piece by piece.

  /** Walking a tree enters its root, then, unless that threw, walks its children. */
  lemma FoldTree(s: CompletionState, pos: Position, n: Node)
    ensures Fold(s, pos, PreOrder(n)) ==
      (var o := Visit(s, pos, n); if o.thrown.Some? then o else Fold(o.state, pos, PreOrderAll(Children(n))))
  {
    PreOrderChildren(n);
    FoldAppend(s, pos, [n], PreOrderAll(Children(n)));
  }

  /** Walking a list of trees walks the first, then, unless that threw, the rest. */
  lemma FoldTrees(s: CompletionState, pos: Position, ns: seq<Node>)
    requires ns != []
    ensures Fold(s, pos, PreOrderAll(ns)) ==
      (var o := Fold(s, pos, PreOrder(ns[0])); if o.thrown.Some? then o else Fold(o.state, pos, PreOrderAll(ns[1..])))
  {
    FoldAppend(s, pos, PreOrder(ns[0]), PreOrderAll(ns[1..]));
  }

  /** Walking a one-tree list is walking that tree. */
  lemma FoldOne(s: CompletionState, pos: Position, n: Node)
    ensures Fold(s, pos, PreOrderAll([n])) == Fold(s, pos, PreOrder(n))
  {
    assert [n][1..] == [];
    FoldTrees(s, pos, [n]);
  }

  /** Walking a two-tree list walks the first, then, unless that threw, the second. */
  lemma FoldTwo(s: CompletionState, pos: Position, a: Node, b: Node)
    ensures Fold(s, pos, PreOrderAll([a, b])) ==
      (var o := Fold(s, pos, PreOrder(a)); if o.thrown.Some? then o else Fold(o.state, pos, PreOrder(b)))
  {
    assert [a, b][1..] == [b];
    FoldTrees(s, pos, [a, b]);
    FoldOne(Fold(s, pos, PreOrder(a)).state, pos, b);
  }

  /** An identifier or a string literal is entered without effect. */
  lemma LeafInert(s: CompletionState, pos: Position, n: Node)
    requires n.Identifier? || n.StringLiteral?
    ensures Fold(s, pos, PreOrder(n)) == Outcome(s, None)
  {
    FoldTree(s, pos, n);
  }

  /** Two such leaves side by side are walked without effect. */
  lemma LeavesInert(s: CompletionState, pos: Position, a: Node, b: Node)
    requires a.Identifier? || a.StringLiteral?
    requires b.Identifier? || b.StringLiteral?
    ensures Fold(s, pos, PreOrderAll([a, b])) == Outcome(s, None)
  {
    FoldTwo(s, pos, a, b);
    LeafInert(s, pos, a);
    LeafInert(s, pos, b);
  }

  /** Below the file node, the walk enters the program node without effect, then its statements. */
  lemma FileFold(s: CompletionState, pos: Position, statements: seq<Node>)
    ensures Fold(s, pos, Descendants(File(statements))) == Fold(s, pos, PreOrderAll(statements))
  {
    FoldOne(s, pos, Other(statements));
    FoldTree(s, pos, Other(statements));
  }

  /** A statement that is not `db.<x>` is entered without effect, then its expression is walked. */
  lemma StatementFold(s: CompletionState, pos: Position, e: Node)
    requires !IsDbCall(Statement(e))
    ensures Fold(s, pos, PreOrder(Statement(e))) == Fold(s, pos, PreOrder(e))
  {
    FoldTree(s, pos, Statement(e));
    FoldOne(s, pos, e);
  }

  /** A file of one such statement walks as the statement's expression. */
  lemma OneStatementFold(s: CompletionState, pos: Position, e: Node)
    requires !IsDbCall(Statement(e))
    ensures Fold(s, pos, Descendants(File([Statement(e)]))) == Fold(s, pos, PreOrder(e))
  {
    FileFold(s, pos, [Statement(e)]);
    FoldOne(s, pos, Statement(e));
    StatementFold(s, pos, e);
  }

  /** `db.<c>` is walked without effect when `c` does not hold the marker. */
  lemma CollectionInert(s: CompletionState, pos: Position, c: string)
    requires !Includes(c, PLACEHOLDER)
    ensures Fold(s, pos, PreOrder(Collection(c))) == Outcome(s, None)
  {
    assert Visit(s, pos, Collection(c)) == Outcome(s, None);
    FoldTree(s, pos, Collection(c));
    LeavesInert(s, pos, Id("db"), Id(c));
  }

  /** Walking the callee `db.<c>.<m>` records the collection name `c`. */
  lemma CalleeFold(s: CompletionState, pos: Position, c: string, m: string)
    requires !Includes(c, PLACEHOLDER) && !Includes(m, PLACEHOLDER)
    ensures Fold(s, pos, PreOrder(Member(Collection(c), Id(m)))) == Outcome(s.(collectionName := Some(c)), None)
  {
    var s1 := s.(collectionName := Some(c));
    var callee := Member(Collection(c), Id(m));
    assert Visit(s, pos, callee) == Outcome(s1, None);
    FoldTree(s, pos, callee);
    FoldTwo(s1, pos, Collection(c), Id(m));
    CollectionInert(s1, pos, c);
    LeafInert(s1, pos, Id(m));
  }

  /**
   * Walking the call `db.<c>.<m>(<arguments>)` records the collection name
   * `c` on the way through its callee, then walks the arguments.
   */
  lemma CallFold(s: CompletionState, pos: Position, c: string, m: string, arguments: seq<Node>, loc: Loc)
    requires !Includes(c, PLACEHOLDER) && !Includes(m, PLACEHOLDER)
    requires |arguments| != 1 || !arguments[0].TemplateLiteral?
    ensures Fold(s, pos, PreOrder(CollectionCall(c, m, arguments, loc))) ==
      Fold(s.(collectionName := Some(c)), pos, PreOrderAll(arguments))
  {
    var callee := Member(Collection(c), Id(m));
    var call := CollectionCall(c, m, arguments, loc);
    assert Visit(s, pos, call) == Outcome(s, None);
    FoldTree(s, pos, call);
    assert Children(call) == [callee] + arguments;
    assert ([callee] + arguments)[1..] == arguments;
    FoldTrees(s, pos, [callee] + arguments);
    CalleeFold(s, pos, c, m);
  }

  // ---------------------------------------------------------------------
  // Families of trees.

  /**
   * Inside the quotes of `use('')`, before the end of the call, the context
   * is a database selection and no database name is recorded.
   */
  lemma UseQuotedWalk(pos: Position, loc: Loc)
    requires !CursorAtOrAfter(pos, loc)
    ensures Fold(Default(), pos, Descendants(File([Statement(UseCall(PLACEHOLDER, loc))]))) ==
      Outcome(Default().(isUseCallExpression := true), None)
  {
    var s1 := Default().(isUseCallExpression := true);
    var call := UseCall(PLACEHOLDER, loc);
    assert OccursAt(PLACEHOLDER, PLACEHOLDER, 0);
    assert Visit(Default(), pos, call) == Outcome(s1, None);
    OneStatementFold(Default(), pos, call);
    FoldTree(Default(), pos, call);
    LeavesInert(s1, pos, Id("use"), StringLiteral(PLACEHOLDER));
  }

  /** Walking `use('<d>')`, with the cursor past the end of the call, records the name `d`. */
  lemma UseCallFold(s: CompletionState, pos: Position, d: string, loc: Loc)
    requires !Includes(d, PLACEHOLDER) && CursorAtOrAfter(pos, loc)
    ensures Fold(s, pos, PreOrder(UseCall(d, loc))) == Outcome(s.(databaseName := Some(d)), None)
  {
    var s1 := s.(databaseName := Some(d));
    assert Visit(s, pos, UseCall(d, loc)) == Outcome(s1, None);
    FoldTree(s, pos, UseCall(d, loc));
    LeavesInert(s1, pos, Id("use"), StringLiteral(d));
  }

  /** Walking the statement `db.<marker>` marks a database access with the cursor in a collection-name slot. */
  lemma DbAccessFold(s: CompletionState, pos: Position)
    ensures Fold(s, pos, PreOrder(Statement(Member(Id("db"), Id(PLACEHOLDER))))) ==
      Outcome(s.(isDbCallExpression := true, isCollectionName := true), None)
  {
    var access := Member(Id("db"), Id(PLACEHOLDER));
    var s1 := s.(isDbCallExpression := true);
    var s2 := s1.(isCollectionName := true);
    assert Visit(s, pos, Statement(access)) == Outcome(s1, None);
    FoldTree(s, pos, Statement(access));
    FoldOne(s1, pos, access);
    DbMarkerVisit(s1, pos);
    FoldTree(s1, pos, access);
    LeavesInert(s2, pos, Id("db"), Id(PLACEHOLDER));
  }

  /** Entering `db.<marker>` marks the collection-name slot. */
  lemma DbMarkerVisit(s: CompletionState, pos: Position)
    ensures Visit(s, pos, Member(Id("db"), Id(PLACEHOLDER))) == Outcome(s.(isCollectionName := true), None)
  {
    assert OccursAt(PLACEHOLDER, PLACEHOLDER, 0);
  }

  /**
   * After `use('<d>'); db.` with the cursor past the end of the `use` call,
   * the name `d` is recorded, and the cursor is in the collection-name slot
   * of a database-access statement.
   */
  lemma UseThenDbWalk(pos: Position, d: string, loc: Loc)
    requires !Includes(d, PLACEHOLDER) && CursorAtOrAfter(pos, loc)
    ensures Fold(Default(), pos, Descendants(File([Statement(UseCall(d, loc)), Statement(Member(Id("db"), Id(PLACEHOLDER)))]))) ==
      Outcome(Default().(databaseName := Some(d), isDbCallExpression := true, isCollectionName := true), None)
  {
    var call := UseCall(d, loc);
    var access := Member(Id("db"), Id(PLACEHOLDER));
    FileFold(Default(), pos, [Statement(call), Statement(access)]);
    FoldTwo(Default(), pos, Statement(call), Statement(access));
    StatementFold(Default(), pos, call);
    UseCallFold(Default(), pos, d, loc);
    DbAccessFold(Default().(databaseName := Some(d)), pos);
  }

  /** The tree of `db.<c>.<m>(<arguments>).<marker>`. */
  function CursorTree(c: string, m: string, arguments: seq<Node>, loc: Loc): Node
  {
    File([Statement(Member(CollectionCall(c, m, arguments, loc), Id(PLACEHOLDER)))])
  }

  /** The flag a cursor method raises: the find-cursor flag for `find`, the aggregation-cursor flag otherwise. */
  function CursorRaised(m: string): CompletionState
  {
    if m == "find" then Default().(isFindCursor := true) else Default().(isAggregationCursor := true)
  }

  /**
   * After `db.<c>.find().` or `db.<c>.aggregate([]).` the cursor is in the
   * slot of that cursor method, and the collection name `c` is recorded.
   */
  lemma CursorWalk(pos: Position, c: string, m: string, arguments: seq<Node>, loc: Loc)
    requires !Includes(c, PLACEHOLDER)
    requires m == "find" || m == "aggregate"
    requires arguments == [] || arguments == [Other([])]
    ensures Fold(Default(), pos, Descendants(CursorTree(c, m, arguments, loc))) ==
      Outcome(CursorRaised(m).(collectionName := Some(c)), None)
  {
    var access := Member(CollectionCall(c, m, arguments, loc), Id(PLACEHOLDER));
    var s1 := CursorRaised(m);
    var s2 := s1.(collectionName := Some(c));
    assert !Includes(m, PLACEHOLDER);
    OneStatementFold(Default(), pos, access);
    CursorAccessVisit(pos, c, m, arguments, loc);
    FoldTree(Default(), pos, access);
    FoldTwo(s1, pos, CollectionCall(c, m, arguments, loc), Id(PLACEHOLDER));
    CallFold(s1, pos, c, m, arguments, loc);
    EmptyArgumentsInert(s2, pos, arguments);
    LeafInert(s2, pos, Id(PLACEHOLDER));
  }

  /** Entering `db.<c>.<m>(<arguments>).<marker>` raises the flag of the cursor method `m`. */
  lemma CursorAccessVisit(pos: Position, c: string, m: string, arguments: seq<Node>, loc: Loc)
    requires m == "find" || m == "aggregate"
    ensures Visit(Default(), pos, Member(CollectionCall(c, m, arguments, loc), Id(PLACEHOLDER))) ==
      Outcome(CursorRaised(m), None)
  {
    assert OccursAt(PLACEHOLDER, PLACEHOLDER, 0);
  }

  /** Walking no arguments, or one empty array, changes nothing. */
  lemma EmptyArgumentsInert(s: CompletionState, pos: Position, arguments: seq<Node>)
    requires arguments == [] || arguments == [Other([])]
    ensures Fold(s, pos, PreOrderAll(arguments)) == Outcome(s, None)
  {
    if arguments != [] {
      FoldOne(s, pos, Other([]));
      FoldTree(s, pos, Other([]));
    }
  }

  /** Walking `{ <marker> }` raises `isObjectKey`. */
  lemma DocumentFold(s: CompletionState, pos: Position)
    ensures Fold(s, pos, PreOrder(MarkedDocument())) == Outcome(s.(isObjectKey := true), None)
  {
    var key := ObjectProperty(Id(PLACEHOLDER), Id(PLACEHOLDER));
    var s1 := s.(isObjectKey := true);
    assert OccursAt(PLACEHOLDER, PLACEHOLDER, 0);
    assert FindKey([key]) == Ok(true);
    FoldTree(s, pos, MarkedDocument());
    FoldOne(s1, pos, key);
    FoldTree(s1, pos, key);
    LeavesInert(s1, pos, Id(PLACEHOLDER), Id(PLACEHOLDER));
  }

  /**
   * Between the braces of a document passed to `db.<c>.<m>(...)` the
   * cursor is in an object key, and the collection name `c` is recorded.
   */
  lemma ObjectKeyWalk(pos: Position, c: string, m: string, loc: Loc)
    requires !Includes(c, PLACEHOLDER) && !Includes(m, PLACEHOLDER)
    ensures Fold(Default(), pos, Descendants(File([Statement(CollectionCall(c, m, [MarkedDocument()], loc))]))) ==
      Outcome(Default().(collectionName := Some(c), isObjectKey := true), None)
  {
    var call := CollectionCall(c, m, [MarkedDocument()], loc);
    var s1 := Default().(collectionName := Some(c));
    OneStatementFold(Default(), pos, call);
    CallFold(Default(), pos, c, m, [MarkedDocument()], loc);
    FoldOne(s1, pos, MarkedDocument());
    DocumentFold(s1, pos);
  }

  /**
   * After `<f>().`, with a bare identifier `f` as the callee, the cursor
   * checks read the property of that identifier, and the walk throws at
   * once, leaving the default state.
   */
  lemma BareCallCursorWalk(pos: Position, f: string, loc: Loc)
    ensures Fold(Default(), pos, Descendants(File([Statement(Member(CallExpression(Some(Id(f)), [], loc), Id(PLACEHOLDER)))]))) ==
      Outcome(Default(), Some(TypeError("node.object.callee.property.name")))
  {
    var access := Member(CallExpression(Some(Id(f)), [], loc), Id(PLACEHOLDER));
    assert OccursAt(PLACEHOLDER, PLACEHOLDER, 0);
    CursorCallOnBareCalleeThrows(f, [], loc, PLACEHOLDER, "aggregate");
    OneStatementFold(Default(), pos, access);
    FoldTree(Default(), pos, access);
  }

  /**
   * In an object literal whose first entry is a spread, the object-key
   * check reads the key of the spread first, and the walk throws, leaving
   * the default state.
   */
  lemma SpreadFirstWalk(pos: Position, spread: Node, rest: seq<Node>)
    ensures Fold(Default(), pos, Descendants(File([Statement(ObjectExpression([SpreadElement(spread)] + rest))]))) ==
      Outcome(Default(), Some(TypeError("item.key.name")))
  {
    var document := ObjectExpression([SpreadElement(spread)] + rest);
    OneStatementFold(Default(), pos, document);
    FoldTree(Default(), pos, document);
  }

  // ---------------------------------------------------------------------
  // Concrete editor texts.

  lemma UseQuotedMarked(text: string, pos: Position)
    requires text == "use('')" && pos == Position(0, 5)
    ensures '\n' !in text && pos.line == 0 && MarkedLine(text, pos.character) == "use('TRIGGER_CHARACTER')"
  {
  }

  /** `use('')` with the cursor between the quotes. */
  lemma UseQuoted(text: string, pos: Position, ast: Node, parse: string -> Option<Node>)
    requires text == "use('')" && pos == Position(0, 5)
    requires ast == File([Statement(UseCall(PLACEHOLDER, Loc(1, 24)))])
    requires parse("use('TRIGGER_CHARACTER')") == Some(ast)
    ensures Classify(text, pos, parse) == Ok(Default().(isUseCallExpression := true))
  {
    UseQuotedMarked(text, pos);
    SpliceOneLine(text, pos);
    UseQuotedWalk(pos, Loc(1, 24));
  }

  lemma UseThenDbMarked(text: string, pos: Position)
    requires text == "use('mydb'); db." && pos == Position(0, 16)
    ensures '\n' !in text && pos.line == 0 && MarkedLine(text, pos.character) == "use('mydb'); db.TRIGGER_CHARACTER"
  {
  }

  /** `use('mydb'); db.` with the cursor at the end. */
  lemma UseThenDb(text: string, pos: Position, ast: Node, parse: string -> Option<Node>)
    requires text == "use('mydb'); db." && pos == Position(0, 16)
    requires ast == File([Statement(UseCall("mydb", Loc(1, 11))), Statement(Member(Id("db"), Id(PLACEHOLDER)))])
    requires parse("use('mydb'); db.TRIGGER_CHARACTER") == Some(ast)
    ensures Classify(text, pos, parse) ==
      Ok(Default().(databaseName := Some("mydb"), isDbCallExpression := true, isCollectionName := true))
  {
    UseThenDbMarked(text, pos);
    SpliceOneLine(text, pos);
    assert !Includes("mydb", PLACEHOLDER);
    UseThenDbWalk(pos, "mydb", Loc(1, 11));
  }

  lemma FindCursorMarked(text: string, pos: Position)
    requires text == "db.accounts.find()." && pos == Position(0, 19)
    ensures '\n' !in text && pos.line == 0 && MarkedLine(text, pos.character) == "db.accounts.find().TRIGGER_CHARACTER"
  {
  }

  /** `db.accounts.find().` with the cursor at the end. */
  lemma FindCursor(text: string, pos: Position, ast: Node, parse: string -> Option<Node>)
    requires text == "db.accounts.find()." && pos == Position(0, 19)
    requires ast == CursorTree("accounts", "find", [], Loc(1, 18))
    requires parse("db.accounts.find().TRIGGER_CHARACTER") == Some(ast)
    ensures Classify(text, pos, parse) ==
      Ok(Default().(collectionName := Some("accounts"), isFindCursor := true))
  {
    FindCursorMarked(text, pos);
    SpliceOneLine(text, pos);
    assert !Includes("accounts", PLACEHOLDER);
    CursorWalk(pos, "accounts", "find", [], Loc(1, 18));
  }

  lemma AggregationCursorMarked(text: string, pos: Position)
    requires text == "db.accounts.aggregate([])." && pos == Position(0, 26)
    ensures '\n' !in text && pos.line == 0 && MarkedLine(text, pos.character) == "db.accounts.aggregate([]).TRIGGER_CHARACTER"
  {
  }

  /** `db.accounts.aggregate([]).` with the cursor at the end. */
  lemma AggregationCursor(text: string, pos: Position, ast: Node, parse: string -> Option<Node>)
    requires text == "db.accounts.aggregate([])." && pos == Position(0, 26)
    requires ast == CursorTree("accounts", "aggregate", [Other([])], Loc(1, 25))
    requires parse("db.accounts.aggregate([]).TRIGGER_CHARACTER") == Some(ast)
    ensures Classify(text, pos, parse) ==
      Ok(Default().(collectionName := Some("accounts"), isAggregationCursor := true))
  {
    AggregationCursorMarked(text, pos);
    SpliceOneLine(text, pos);
    assert !Includes("accounts", PLACEHOLDER);
    CursorWalk(pos, "accounts", "aggregate", [Other([])], Loc(1, 25));
  }

  lemma UnparsableMarked(text: string, pos: Position)
    requires text == "db.find({ }" && pos == Position(0, 11)
    ensures '\n' !in text && pos.line == 0 && MarkedLine(text, pos.character) == "db.find({ }TRIGGER_CHARACTER"
  {
  }

  /** `db.find({ }`, which lacks its closing parenthesis: the parser rejects it. */
  lemma Unparsable(text: string, pos: Position, parse: string -> Option<Node>)
    requires text == "db.find({ }" && pos == Position(0, 11)
    requires parse("db.find({ }TRIGGER_CHARACTER") == None
    ensures Classify(text, pos, parse) == Ok(Default())
  {
    UnparsableMarked(text, pos);
    SpliceOneLine(text, pos);
    ClassifyParseFailure(text, pos, parse);
  }

  lemma ObjectKeyMarked(text: string, pos: Position)
    requires text == "db.accounts.insertOne({ })" && pos == Position(0, 23)
    ensures '\n' !in text && pos.line == 0 && MarkedLine(text, pos.character) == "db.accounts.insertOne({TRIGGER_CHARACTER })"
  {
    assert SliceTo(text, 23) == "db.accounts.insertOne({";
    assert SliceFrom(text, 23) == " })";
  }

  /** `db.accounts.insertOne({ })` with the cursor between the braces. */
  lemma ObjectKeyScenario(text: string, pos: Position, ast: Node, parse: string -> Option<Node>)
    requires text == "db.accounts.insertOne({ })" && pos == Position(0, 23)
    requires ast == File([Statement(CollectionCall("accounts", "insertOne", [MarkedDocument()], Loc(1, 43)))])
    requires parse("db.accounts.insertOne({TRIGGER_CHARACTER })") == Some(ast)
    ensures Classify(text, pos, parse) ==
      Ok(Default().(collectionName := Some("accounts"), isObjectKey := true))
  {
    ObjectKeyMarked(text, pos);
    SpliceOneLine(text, pos);
    assert !Includes("accounts", PLACEHOLDER);
    assert !Includes("insertOne", PLACEHOLDER);
    ObjectKeyWalk(pos, "accounts", "insertOne", Loc(1, 43));
  }

  lemma BareCallCursorMarked(text: string, pos: Position)
    requires text == "foo()." && pos == Position(0, 6)
    ensures '\n' !in text && pos.line == 0 && MarkedLine(text, pos.character) == "foo().TRIGGER_CHARACTER"
  {
  }

  /** `foo().` with the cursor after the dot. */
  lemma BareCallCursorThrows(text: string, pos: Position, ast: Node, parse: string -> Option<Node>)
    requires text == "foo()." && pos == Position(0, 6)
    requires ast == File([Statement(Member(CallExpression(Some(Id("foo")), [], Loc(1, 5)), Id(PLACEHOLDER)))])
    requires parse("foo().TRIGGER_CHARACTER") == Some(ast)
    ensures Classify(text, pos, parse) == Err(TypeError("node.object.callee.property.name"))
  {
    BareCallCursorMarked(text, pos);
    SpliceOneLine(text, pos);
    BareCallCursorWalk(pos, "foo", Loc(1, 5));
  }

  lemma SpreadFirstMarked(text: string, pos: Position)
    requires text == "({...rest, })" && pos == Position(0, 11)
    ensures '\n' !in text && pos.line == 0 && MarkedLine(text, pos.character) == "({...rest, TRIGGER_CHARACTER})"
  {
  }

  /** `({...rest, })` with the cursor after the comma. */
  lemma SpreadFirstThrows(text: string, pos: Position, ast: Node, parse: string -> Option<Node>)
    requires text == "({...rest, })" && pos == Position(0, 11)
    requires ast == File([Statement(ObjectExpression([SpreadElement(Id("rest")), ObjectProperty(Id(PLACEHOLDER), Id(PLACEHOLDER))]))])
    requires parse("({...rest, TRIGGER_CHARACTER})") == Some(ast)
    ensures Classify(text, pos, parse) == Err(TypeError("item.key.name"))
  {
    SpreadFirstMarked(text, pos);
    SpliceOneLine(text, pos);
    assert [SpreadElement(Id("rest")), ObjectProperty(Id(PLACEHOLDER), Id(PLACEHOLDER))] ==
      [SpreadElement(Id("rest"))] + [ObjectProperty(Id(PLACEHOLDER), Id(PLACEHOLDER))];
    SpreadFirstWalk(pos, Id("rest"), [ObjectProperty(Id(PLACEHOLDER), Id(PLACEHOLDER))]);
  }
}
