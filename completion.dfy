/**
 * The completion state and what one classification computes: the state is
 * reset, the marker is spliced in, the text is parsed, and every node below
 * the root is entered in pre-order, each node kind running its checks and
 * setting flags or recording names. A check that throws ends the walk.
 */
module Completion {
  import opened Js
  import opened Ast
  import opened Trigger
  import opened Checks

  /** The seven boolean fields of the completion state. */
  datatype Flag =
    | ObjectKey | ShellMethod | UseCallExpression | DbCallExpression
    | CollectionName | AggregationCursor | FindCursor

  /** What the classifier reports about the cursor's context; `None` is `null` or `undefined`. */
  datatype CompletionState = CompletionState(
    databaseName: Option<string>,
    collectionName: Option<string>,
    isObjectKey: bool,
    isShellMethod: bool,
    isUseCallExpression: bool,
    isDbCallExpression: bool,
    isCollectionName: bool,
    isAggregationCursor: bool,
    isFindCursor: bool)
  {
    function Get(f: Flag): bool
    {
      match f
      case ObjectKey => isObjectKey
      case ShellMethod => isShellMethod
      case UseCallExpression => isUseCallExpression
      case DbCallExpression => isDbCallExpression
      case CollectionName => isCollectionName
      case AggregationCursor => isAggregationCursor
      case FindCursor => isFindCursor
    }
  }

  /** `_getDefaultNodesValues`: both names absent and every flag false. */
  function Default(): (s: CompletionState)
    ensures s.databaseName.None? && s.collectionName.None?
    ensures forall f :: !s.Get(f)
  {
    CompletionState(None, None, false, false, false, false, false, false, false)
  }

  /** The state after a step, and the TypeError that ended it, if one did. */
  datatype Outcome = Outcome(state: CompletionState, thrown: Option<Fault>)

  /** `s` with flag `f` set. */
  function Raise(s: CompletionState, f: Flag): (r: CompletionState)
    ensures forall g :: r.Get(g) == (s.Get(g) || g == f)
    ensures r.databaseName == s.databaseName && r.collectionName == s.collectionName
  {
    match f
    case ObjectKey => s.(isObjectKey := true)
    case ShellMethod => s.(isShellMethod := true)
    case UseCallExpression => s.(isUseCallExpression := true)
    case DbCallExpression => s.(isDbCallExpression := true)
    case CollectionName => s.(isCollectionName := true)
    case AggregationCursor => s.(isAggregationCursor := true)
    case FindCursor => s.(isFindCursor := true)
  }

  /**
   * One check of a visit, after the steps that led to `o`: once a check has
   * thrown the rest are not run; a check that throws ends the visit, and
   * one that matches sets `flag`.
   */
  function Check(o: Outcome, flag: Flag, check: Result<bool>): Outcome
  {
    if o.thrown.Some? then o
    else match check
      case Err(e) => Outcome(o.state, Some(e))
      case Ok(matched) => if matched then Outcome(Raise(o.state, flag), None) else o
  }

  /**
   * A check throws only if it is run and throws, sets only its own flag,
   * and only when it is run and matches; it leaves the names alone.
   */
  lemma CheckSpec(o: Outcome, flag: Flag, check: Result<bool>)
    ensures var r := Check(o, flag, check);
      && r.thrown == (if o.thrown.Some? then o.thrown else if check.Err? then Some(check.fault) else None)
      && (forall g :: r.state.Get(g) == (o.state.Get(g) || (o.thrown.None? && check == Ok(true) && g == flag)))
      && r.state.databaseName == o.state.databaseName && r.state.collectionName == o.state.collectionName
  {
  }

  /** `_visitCallExpression`: database selection, collection-name slot, database name. */
  function VisitCall(s: CompletionState, pos: Position, n: Node): Outcome
  {
    match IsUseCall(n)
    case Err(e) => Outcome(s, Some(e))
    case Ok(isUse) =>
      var s1 := if isUse then s.(isUseCallExpression := true) else s;
      match IsCollectionName(n)
      case Err(e) => Outcome(s1, Some(e))
      case Ok(isCollection) =>
        var s2 := if isCollection then s1.(isCollectionName := true) else s1;
        if HasDatabaseName(n, pos) then Outcome(s2.(databaseName := Some(n.arguments[0].value)), None)
        else Outcome(s2, None)
  }

  /**
   * `_visitMemberExpression`: aggregation and find cursor slots, shell
   * method slot, collection-name slot, collection name.
   */
  function VisitMember(s: CompletionState, n: Node): Outcome
  {
    var o := MemberFlagChecks(s, n);
    if o.thrown.Some? then o
    else match HasCollectionName(n)
      case Err(e) => Outcome(o.state, Some(e))
      case Ok(hasName) =>
        if hasName then Outcome(o.state.(collectionName := CollectionNameOf(n)), None)
        else o
  }

  /**
   * The name a member visit records, `node.object.property.name`; it is read
   * only once `HasCollectionName` has found both the object and its property.
   */
  function CollectionNameOf(n: Node): Option<string>
  {
    match ObjectOf(n)
    case None => None
    case Some(collection) => if PropertyOf(collection).Some? then NameOf(PropertyOf(collection).value) else None
  }

  /** The first four checks of a member visit, those that set flags. */
  function MemberFlagChecks(s: CompletionState, n: Node): Outcome
  {
    var o := Check(Outcome(s, None), AggregationCursor, HasAggregationCall(n));
    var o := Check(o, FindCursor, HasFindCall(n));
    var o := Check(o, ShellMethod, IsShellMethod(n));
    Check(o, CollectionName, IsCollectionName(n))
  }

  /** `_visitExpressionStatement` */
  function VisitStatement(s: CompletionState, n: Node): Outcome
  {
    if IsDbCall(n) then Outcome(s.(isDbCallExpression := true), None) else Outcome(s, None)
  }

  /** `_visitObjectExpression` */
  function VisitObject(s: CompletionState, n: Node): Outcome
  {
    match IsObjectKey(n)
    case Err(e) => Outcome(s, Some(e))
    case Ok(isKey) => Outcome(if isKey then s.(isObjectKey := true) else s, None)
  }

  /** Entering a node: the switch on the node's type in the walker's `enter` callback. */
  function Visit(s: CompletionState, pos: Position, n: Node): Outcome
  {
    match n
    case CallExpression(_, _, _) => VisitCall(s, pos, n)
    case MemberExpression(_, _) => VisitMember(s, n)
    case ExpressionStatement(_) => VisitStatement(s, n)
    case ObjectExpression(_) => VisitObject(s, n)
    case _ => Outcome(s, None)
  }

  /** Entering the nodes one after the other, stopping at the first throw. */
  function Fold(s: CompletionState, pos: Position, ns: seq<Node>): Outcome
    decreases |ns|
  {
    if ns == [] then Outcome(s, None)
    else
      var o := Visit(s, pos, ns[0]);
      if o.thrown.Some? then o else Fold(o.state, pos, ns[1..])
  }

  /**
   * `parseAST` as a function of its inputs: reset, splice (which may throw),
   * parse (a failure returns the reset state), then walk the tree below the
   * root. `parse` stands for the parser.
   */
  function Run(text: string, pos: Position, parse: string -> Option<Node>): Outcome
  {
    match Splice(text, pos)
    case Err(e) => Outcome(Default(), Some(e))
    case Ok(spliced) =>
      match parse(spliced)
      case None => Outcome(Default(), None)
      case Some(ast) => Fold(Default(), pos, Descendants(ast))
  }

  /** What `parseAST` returns, or the TypeError it throws. */
  function Classify(text: string, pos: Position, parse: string -> Option<Node>): Result<CompletionState>
  {
    var o := Run(text, pos, parse);
    if o.thrown.Some? then Err(o.thrown.value) else Ok(o.state)
  }

  // ---------------------------------------------------------------------
  // Reference definitions: which node sets which field.

  /** Entering `n` sets flag `f`: the node has the kind whose visit runs that check, and the check matches. */
  predicate Fires(f: Flag, pos: Position, n: Node)
  {
    match f
    case ObjectKey => n.ObjectExpression? && IsObjectKey(n) == Ok(true)
    case ShellMethod => n.MemberExpression? && IsShellMethod(n) == Ok(true)
    case UseCallExpression => n.CallExpression? && IsUseCall(n) == Ok(true)
    case DbCallExpression => n.ExpressionStatement? && IsDbCall(n)
    case CollectionName => (n.CallExpression? || n.MemberExpression?) && IsCollectionName(n) == Ok(true)
    case AggregationCursor => n.MemberExpression? && HasAggregationCall(n) == Ok(true)
    case FindCursor => n.MemberExpression? && HasFindCall(n) == Ok(true)
  }

  /** The database name entering `n` records, if it records one. */
  function DatabaseNameCapture(pos: Position, n: Node): Option<Option<string>>
  {
    if n.CallExpression? && HasDatabaseName(n, pos) then Some(Some(n.arguments[0].value)) else None
  }

  /**
   * The collection name entering `n` records (possibly `undefined`), if it
   * records one: the collection check must be reached, which takes the shell
   * method check not throwing, and must match.
   */
  function CollectionNameCapture(n: Node): Option<Option<string>>
  {
    if n.MemberExpression? && IsShellMethod(n).Ok? && HasCollectionName(n) == Ok(true) then
      Some(CollectionNameOf(n))
    else None
  }

  /** The value recorded by the last node of `ns` that records one, or `prior`. */
  function LastCapture(ns: seq<Node>, capture: Node -> Option<Option<string>>, prior: Option<string>): Option<string>
    decreases |ns|
  {
    if ns == [] then prior
    else match capture(ns[|ns| - 1])
      case Some(v) => v
      case None => LastCapture(ns[..|ns| - 1], capture, prior)
  }

  /** Every flag set in `a` is set in `b`. */
  predicate FlagsWithin(a: CompletionState, b: CompletionState)
  {
    forall f :: a.Get(f) ==> b.Get(f)
  }

  // ---------------------------------------------------------------------
  // One node.

  /** The field-by-field account of entering a node that moved `s` to `t`. */
  predicate Accounts(s: CompletionState, t: CompletionState, pos: Position, n: Node)
  {
    && (forall f :: t.Get(f) == (s.Get(f) || Fires(f, pos, n)))
    && t.databaseName == (match DatabaseNameCapture(pos, n) case Some(v) => v case None => s.databaseName)
    && t.collectionName == (match CollectionNameCapture(n) case Some(v) => v case None => s.collectionName)
  }

  /**
   * Entering a node sets exactly the flags whose checks match for that node
   * and records the names its captures record, whether or not a later check
   * then throws: a check that throws never matched, and every check that
   * matched has already run.
   */
  lemma VisitSpec(s: CompletionState, pos: Position, n: Node)
    ensures Accounts(s, Visit(s, pos, n).state, pos, n)
  {
    match n
    case CallExpression(_, _, _) => VisitCallAccounts(s, pos, n);
    case MemberExpression(_, _) => VisitMemberAccounts(s, pos, n);
    case ExpressionStatement(_) => VisitOtherAccounts(s, pos, n);
    case ObjectExpression(_) => VisitOtherAccounts(s, pos, n);
    case _ => VisitOtherAccounts(s, pos, n);
  }

  lemma VisitCallAccounts(s: CompletionState, pos: Position, n: Node)
    requires n.CallExpression?
    ensures Accounts(s, VisitCall(s, pos, n).state, pos, n)
  {
    VisitCallSpec(s, pos, n);
    var t := VisitCall(s, pos, n).state;
    forall f ensures t.Get(f) == (s.Get(f) || Fires(f, pos, n)) {
    }
  }

  lemma VisitMemberAccounts(s: CompletionState, pos: Position, n: Node)
    requires n.MemberExpression?
    ensures Accounts(s, VisitMember(s, n).state, pos, n)
  {
    MemberFlagsAccount(s, pos, n);
    MemberChecksMatchAfterNoThrow(n);
    var t := VisitMember(s, n).state;
    var o := MemberFlagChecks(s, n);
    forall f ensures t.Get(f) == o.state.Get(f) {
      match f
      case ObjectKey =>
      case ShellMethod =>
      case UseCallExpression =>
      case DbCallExpression =>
      case CollectionName =>
      case AggregationCursor =>
      case FindCursor =>
    }
  }

  /** The four flag checks of a member visit set exactly the flags that fire, and no name. */
  lemma MemberFlagsAccount(s: CompletionState, pos: Position, n: Node)
    requires n.MemberExpression?
    ensures var o := MemberFlagChecks(s, n);
      && (forall f :: o.state.Get(f) == (s.Get(f) || Fires(f, pos, n)))
      && o.state.databaseName == s.databaseName && o.state.collectionName == s.collectionName
      && (o.thrown.None? <==> HasAggregationCall(n).Ok? && HasFindCall(n).Ok? && IsShellMethod(n).Ok?)
  {
    MemberChecksMatchAfterNoThrow(n);
    var o1 := Check(Outcome(s, None), AggregationCursor, HasAggregationCall(n));
    var o2 := Check(o1, FindCursor, HasFindCall(n));
    var o3 := Check(o2, ShellMethod, IsShellMethod(n));
    CheckSpec(Outcome(s, None), AggregationCursor, HasAggregationCall(n));
    CheckSpec(o1, FindCursor, HasFindCall(n));
    CheckSpec(o2, ShellMethod, IsShellMethod(n));
    CheckSpec(o3, CollectionName, IsCollectionName(n));
    var o := MemberFlagChecks(s, n);
    forall f ensures o.state.Get(f) == (s.Get(f) || Fires(f, pos, n)) {
      match f
      case ObjectKey =>
      case ShellMethod =>
      case UseCallExpression =>
      case DbCallExpression =>
      case CollectionName =>
      case AggregationCursor =>
      case FindCursor =>
    }
  }

  lemma VisitOtherAccounts(s: CompletionState, pos: Position, n: Node)
    requires !n.CallExpression? && !n.MemberExpression?
    ensures Accounts(s, Visit(s, pos, n).state, pos, n)
  {
    var t := Visit(s, pos, n).state;
    forall f ensures t.Get(f) == (s.Get(f) || Fires(f, pos, n)) {
    }
  }

  /** Entering a call, in closed form: each field rises when its check matches. */
  lemma VisitCallSpec(s: CompletionState, pos: Position, n: Node)
    requires n.CallExpression?
    ensures VisitCall(s, pos, n).state == s.(
      isUseCallExpression := s.isUseCallExpression || IsUseCall(n) == Ok(true),
      isCollectionName := s.isCollectionName || IsCollectionName(n) == Ok(true),
      databaseName := match DatabaseNameCapture(pos, n) case Some(v) => v case None => s.databaseName)
    ensures VisitCall(s, pos, n).thrown.None? <==> IsUseCall(n).Ok? && IsCollectionName(n).Ok?
  {
    if DatabaseNameCapture(pos, n).Some? {
      assert IsCollectionName(n) == Ok(false);
    }
  }

  /**
   * On a member access, a check that throws is never followed by a flag
   * check that matches: the cursor checks throw together, only on
   * `<call>.<x>`, where every later check is false; a throwing shell-method
   * check leaves the collection-name check false; and the collection-name
   * check never throws.
   */
  lemma MemberChecksMatchAfterNoThrow(n: Node)
    requires n.MemberExpression?
    ensures HasAggregationCall(n).Err? || HasFindCall(n).Err? ==>
      IsShellMethod(n) == Ok(false) && IsCollectionName(n) == Ok(false) && HasCollectionName(n) == Ok(false)
    ensures HasAggregationCall(n).Err? <==> HasFindCall(n).Err?
    ensures IsShellMethod(n).Err? ==> IsCollectionName(n) == Ok(false)
    ensures IsCollectionName(n).Ok?
  {
    if HasAggregationCall(n).Err? || HasFindCall(n).Err? {
      assert n.obj.Some? && n.obj.value.CallExpression?;
    }
  }

  /** Entering a member access throws exactly when one of its five checks throws. */
  lemma VisitMemberThrows(s: CompletionState, n: Node)
    requires n.MemberExpression?
    ensures VisitMember(s, n).thrown.None? <==>
      && HasAggregationCall(n).Ok? && HasFindCall(n).Ok? && IsShellMethod(n).Ok?
      && IsCollectionName(n).Ok? && HasCollectionName(n).Ok?
  {
    MemberFlagsAccount(s, Position(0, 0), n);
    MemberChecksMatchAfterNoThrow(n);
  }

  /**
   * On a member access, once one check has matched no later check throws:
   * the matching shape has already shown that every sub-node a later check
   * reads without a guard is there.
   */
  lemma MemberChecksMatchBeforeThrowing(n: Node)
    requires n.MemberExpression?
    ensures HasAggregationCall(n) == Ok(true) || HasFindCall(n) == Ok(true) ==>
      && HasAggregationCall(n).Ok? && HasFindCall(n).Ok?
      && IsShellMethod(n) == Ok(false) && IsCollectionName(n) == Ok(false) && HasCollectionName(n).Ok?
    ensures IsShellMethod(n) == Ok(true) ==> IsCollectionName(n).Ok? && HasCollectionName(n).Ok?
    ensures IsCollectionName(n) == Ok(true) ==> HasCollectionName(n).Ok?
  {
  }

  /** No single node sets both cursor-slot flags. */
  lemma CursorSlotsExclusive(pos: Position, n: Node)
    ensures !(Fires(AggregationCursor, pos, n) && Fires(FindCursor, pos, n))
  {
    CursorCallsExclusive(n);
  }

  // ---------------------------------------------------------------------
  // A sequence of nodes.

  /** Walking `a + b` is walking `a`, then, unless it threw, walking `b`. */
  lemma {:induction false} FoldAppend(s: CompletionState, pos: Position, a: seq<Node>, b: seq<Node>)
    ensures Fold(s, pos, a + b) ==
      (var o := Fold(s, pos, a); if o.thrown.Some? then o else Fold(o.state, pos, b))
    decreases |a|
  {
    if a == [] {
      assert a + b == b;
    } else {
      assert (a + b)[0] == a[0];
      assert (a + b)[1..] == a[1..] + b;
      var o := Visit(s, pos, a[0]);
      if o.thrown.None? {
        FoldAppend(o.state, pos, a[1..], b);
      }
    }
  }

  /** Flags only ever go from false to true, whether or not the walk throws. */
  lemma {:induction false} FoldFlagsOnlyRise(s: CompletionState, pos: Position, ns: seq<Node>)
    ensures FlagsWithin(s, Fold(s, pos, ns).state)
    decreases |ns|
  {
    if ns != [] {
      var o := Visit(s, pos, ns[0]);
      VisitSpec(s, pos, ns[0]);
      if o.thrown.None? {
        FoldFlagsOnlyRise(o.state, pos, ns[1..]);
      }
    }
  }

  /**
   * A walk that throws stops at the first node whose visit throws: the
   * nodes before it are walked without a throw, and the walk's outcome is
   * that node's visit from the state they left.
   */
  lemma {:induction false} FoldStopsAtThrow(s: CompletionState, pos: Position, ns: seq<Node>)
    requires Fold(s, pos, ns).thrown.Some?
    ensures exists k ::
      && 0 <= k < |ns|
      && Fold(s, pos, ns[..k]).thrown.None?
      && Visit(Fold(s, pos, ns[..k]).state, pos, ns[k]) == Fold(s, pos, ns)
    decreases |ns|
  {
    var o := Visit(s, pos, ns[0]);
    assert ns[..0] == [];
    if o.thrown.None? {
      FoldStopsAtThrow(o.state, pos, ns[1..]);
      var k :| 0 <= k < |ns[1..]| && Fold(o.state, pos, ns[1..][..k]).thrown.None?
        && Visit(Fold(o.state, pos, ns[1..][..k]).state, pos, ns[1..][k]) == Fold(o.state, pos, ns[1..]);
      assert ns[..k + 1][1..] == ns[1..][..k];
      assert Fold(s, pos, ns[..k + 1]) == Fold(o.state, pos, ns[1..][..k]);
    }
  }

  /**
   * A walk that does not throw ends with exactly the flags that were set
   * before it or whose check matched at some node it entered.
   */
  lemma {:induction false} FoldFlags(s: CompletionState, pos: Position, ns: seq<Node>)
    requires Fold(s, pos, ns).thrown.None?
    ensures forall f :: Fold(s, pos, ns).state.Get(f) <==>
      (s.Get(f) || exists i :: 0 <= i < |ns| && Fires(f, pos, ns[i]))
    decreases |ns|
  {
    if ns != [] {
      var o := Visit(s, pos, ns[0]);
      VisitSpec(s, pos, ns[0]);
      FoldFlags(o.state, pos, ns[1..]);
      forall f ensures Fold(s, pos, ns).state.Get(f) <==>
        (s.Get(f) || exists i :: 0 <= i < |ns| && Fires(f, pos, ns[i]))
      {
        if exists i :: 0 <= i < |ns| && Fires(f, pos, ns[i]) {
          var i :| 0 <= i < |ns| && Fires(f, pos, ns[i]);
          if i > 0 {
            assert ns[1..][i - 1] == ns[i];
          }
        }
        if exists i :: 0 <= i < |ns[1..]| && Fires(f, pos, ns[1..][i]) {
          var i :| 0 <= i < |ns[1..]| && Fires(f, pos, ns[1..][i]);
          assert Fires(f, pos, ns[i + 1]);
        }
      }
    }
  }

  /**
   * A walk that does not throw ends with the database name recorded by the
   * last `use('<name>')` call it entered that ended before the cursor, or
   * with the name it started with.
   */
  lemma {:induction false} FoldDatabaseName(s: CompletionState, pos: Position, ns: seq<Node>)
    requires Fold(s, pos, ns).thrown.None?
    ensures Fold(s, pos, ns).state.databaseName ==
      LastCapture(ns, n => DatabaseNameCapture(pos, n), s.databaseName)
    decreases |ns|
  {
    if ns != [] {
      var init, last := ns[..|ns| - 1], ns[|ns| - 1];
      assert ns == init + [last];
      FoldAppend(s, pos, init, [last]);
      var o := Fold(s, pos, init);
      FoldDatabaseName(s, pos, init);
      VisitSpec(o.state, pos, last);
    }
  }

  /**
   * A walk that does not throw ends with the collection name recorded by
   * the last `db.<collection>.<x>` access it entered, or the name it started
   * with.
   */
  lemma {:induction false} FoldCollectionName(s: CompletionState, pos: Position, ns: seq<Node>)
    requires Fold(s, pos, ns).thrown.None?
    ensures Fold(s, pos, ns).state.collectionName ==
      LastCapture(ns, CollectionNameCapture, s.collectionName)
    decreases |ns|
  {
    if ns != [] {
      var init, last := ns[..|ns| - 1], ns[|ns| - 1];
      assert ns == init + [last];
      FoldAppend(s, pos, init, [last]);
      var o := Fold(s, pos, init);
      FoldCollectionName(s, pos, init);
      VisitSpec(o.state, pos, last);
    }
  }

  // ---------------------------------------------------------------------
  // A whole classification.

  /** A text the parser rejects yields exactly the default state. */
  lemma ClassifyParseFailure(text: string, pos: Position, parse: string -> Option<Node>)
    requires Splice(text, pos).Ok? && parse(Splice(text, pos).value).None?
    ensures Classify(text, pos, parse) == Ok(Default())
  {
  }

  /**
   * A cursor past the last line at a character other than 0 throws before
   * parsing; at character 0 past the last line nothing throws there.
   */
  lemma ClassifyCursorPastEnd(text: string, pos: Position, parse: string -> Option<Node>)
    requires pos.line >= |Split(text, '\n')|
    ensures pos.character > 0 ==>
      Classify(text, pos, parse) == Err(TypeError("textLines[position.line].slice"))
    ensures pos.character == 0 && parse(Splice(text, pos).value).None? ==>
      Classify(text, pos, parse) == Ok(Default())
  {
  }

  /**
   * A classification of a parsed text that throws reports the fault of the
   * first node below the root whose visit throws; the nodes before it were
   * all entered without a throw.
   */
  lemma ClassifyThrowsAtNode(text: string, pos: Position, parse: string -> Option<Node>, ast: Node)
    requires Splice(text, pos).Ok? && parse(Splice(text, pos).value) == Some(ast)
    requires Classify(text, pos, parse).Err?
    ensures var ns := Descendants(ast);
      exists k ::
        && 0 <= k < |ns|
        && Fold(Default(), pos, ns[..k]).thrown.None?
        && Visit(Fold(Default(), pos, ns[..k]).state, pos, ns[k]).thrown == Some(Classify(text, pos, parse).fault)
  {
    FoldStopsAtThrow(Default(), pos, Descendants(ast));
  }

  /**
   * A classification that returns a state sets exactly the flags whose
   * checks match at some node below the root, and records the names of
   * the last nodes below the root that record one.
   */
  lemma ClassifyReportsMatches(text: string, pos: Position, parse: string -> Option<Node>, ast: Node)
    requires Splice(text, pos).Ok? && parse(Splice(text, pos).value) == Some(ast)
    requires Classify(text, pos, parse).Ok?
    ensures var st := Classify(text, pos, parse).value;
      && (forall f :: st.Get(f) <==> exists i :: 0 <= i < |Descendants(ast)| && Fires(f, pos, Descendants(ast)[i]))
      && st.databaseName == LastCapture(Descendants(ast), n => DatabaseNameCapture(pos, n), None)
      && st.collectionName == LastCapture(Descendants(ast), CollectionNameCapture, None)
  {
    var ns := Descendants(ast);
    FoldFlags(Default(), pos, ns);
    FoldDatabaseName(Default(), pos, ns);
    FoldCollectionName(Default(), pos, ns);
  }
}
