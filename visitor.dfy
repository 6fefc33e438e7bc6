/**
 * The completion-context classifier as the object it is: a visitor that
 * holds the completion state and the cursor position, updates the state
 * field by field as it enters the nodes of the parsed editor text, and
 * returns it. Each method is proved against the functions of `Completion`
 * and `Trigger`, whose properties are proved there.
 */
module Classifier {
  import opened Js
  import opened Ast
  import opened Trigger
  import opened Checks
  import opened Completion

  class Visitor {
    /** The state being built by the current classification. */
    var state: CompletionState
    /** The cursor position of the current classification. */
    var position: Position

    /** A fresh visitor starts in the default state, with the cursor at the origin. */
    constructor()
      ensures state == Default() && position == Position(0, 0)
    {
      state := Default();
      position := Position(0, 0);
    }

    /**
     * `_handleTriggerCharacter`: split the text into lines, rebuild the
     * cursor's line with the marker between the text before and after the
     * cursor, store it back (past the end, the array of lines grows) and
     * join the lines again.
     */
    method HandleTriggerCharacter(text: string, pos: Position) returns (r: Result<string>)
      ensures r == Splice(text, pos)
    {
      var textLines := Split(text, '\n');
      var current: Option<string> := if pos.line < |textLines| then Some(textLines[pos.line]) else None;
      if pos.character != 0 && current.None? {
        assert Splice(text, pos) == Err(TypeError("textLines[position.line].slice"));
        return Err(TypeError("textLines[position.line].slice"));
      }
      var prefix := if pos.character == 0 then "" else SliceTo(current.value, pos.character);
      var postfix :=
        if pos.character != 0 then SliceFrom(current.value, pos.character)
        else if current.Some? then current.value
        else "undefined";
      var marked := prefix + PLACEHOLDER + postfix;
      if pos.line < |textLines| {
        assert marked == MarkedLine(textLines[pos.line], pos.character);
        SpliceReplacesLine(text, pos);
        textLines := textLines[pos.line := marked];
      } else {
        assert marked == PLACEHOLDER + "undefined";
        SplicePastEnd(text, pos);
        textLines := textLines + Holes(pos.line - |textLines|) + [marked];
      }
      r := Ok(Join(textLines, '\n'));
    }

    /** `_visitCallExpression` */
    method VisitCallExpression(node: Node) returns (thrown: Option<Fault>)
      modifies this`state
      ensures Outcome(state, thrown) == VisitCall(old(state), position, node)
    {
      var isUse := IsUseCall(node);
      if isUse.Err? {
        return Some(isUse.fault);
      }
      if isUse.value {
        state := state.(isUseCallExpression := true);
      }
      var isCollection := IsCollectionName(node);
      if isCollection.Err? {
        return Some(isCollection.fault);
      }
      if isCollection.value {
        state := state.(isCollectionName := true);
      }
      if HasDatabaseName(node, position) {
        state := state.(databaseName := Some(node.arguments[0].value));
      }
      return None;
    }

    /** `_visitMemberExpression` */
    method VisitMemberExpression(node: Node) returns (thrown: Option<Fault>)
      modifies this`state
      ensures Outcome(state, thrown) == VisitMember(old(state), node)
    {
      ghost var o := Outcome(state, None);
      thrown := ApplyCheck(AggregationCursor, HasAggregationCall(node));
      o := Check(o, AggregationCursor, HasAggregationCall(node));
      if thrown.Some? {
        return;
      }
      thrown := ApplyCheck(FindCursor, HasFindCall(node));
      o := Check(o, FindCursor, HasFindCall(node));
      if thrown.Some? {
        return;
      }
      thrown := ApplyCheck(ShellMethod, IsShellMethod(node));
      o := Check(o, ShellMethod, IsShellMethod(node));
      if thrown.Some? {
        return;
      }
      thrown := ApplyCheck(CollectionName, IsCollectionName(node));
      o := Check(o, CollectionName, IsCollectionName(node));
      if thrown.Some? {
        return;
      }
      assert o == MemberFlagChecks(old(state), node);
      match HasCollectionName(node)
      case Err(e) => return Some(e);
      case Ok(hasCollection) =>
        if hasCollection {
          state := state.(collectionName := CollectionNameOf(node));
        }
        return None;
    }

    /**
     * One flag-setting statement of a visit, `if (check) flag = true`: a
     * check that throws ends the visit, one that matches sets `flag`.
     */
    method ApplyCheck(flag: Flag, check: Result<bool>) returns (thrown: Option<Fault>)
      modifies this`state
      ensures Outcome(state, thrown) == Check(Outcome(old(state), None), flag, check)
    {
      match check
      case Err(e) => return Some(e);
      case Ok(matched) =>
        if matched {
          state := Raise(state, flag);
        }
        return None;
    }

    /** `_visitExpressionStatement` */
    method VisitExpressionStatement(node: Node) returns (thrown: Option<Fault>)
      modifies this`state
      ensures Outcome(state, thrown) == VisitStatement(old(state), node)
    {
      if IsDbCall(node) {
        state := state.(isDbCallExpression := true);
      }
      return None;
    }

    /** `_visitObjectExpression` */
    method VisitObjectExpression(node: Node) returns (thrown: Option<Fault>)
      modifies this`state
      ensures Outcome(state, thrown) == VisitObject(old(state), node)
    {
      var isKey := IsObjectKey(node);
      if isKey.Err? {
        return Some(isKey.fault);
      }
      if isKey.value {
        state := state.(isObjectKey := true);
      }
      return None;
    }

    /** The walker's `enter` callback: dispatch on the node's type. */
    method Enter(node: Node) returns (thrown: Option<Fault>)
      modifies this`state
      ensures Outcome(state, thrown) == Visit(old(state), position, node)
    {
      match node
      case CallExpression(_, _, _) => thrown := VisitCallExpression(node);
      case MemberExpression(_, _) => thrown := VisitMemberExpression(node);
      case ExpressionStatement(_) => thrown := VisitExpressionStatement(node);
      case ObjectExpression(_) => thrown := VisitObjectExpression(node);
      case _ => thrown := None;
    }

    /** Enter `node`, then walk its children; a throw ends the walk. */
    method Walk(node: Node) returns (thrown: Option<Fault>)
      modifies this`state
      ensures Outcome(state, thrown) == Fold(old(state), position, PreOrder(node))
      decreases |PreOrder(node)|, 0
    {
      PreOrderChildren(node);
      var rest := PreOrderAll(Children(node));
      assert PreOrder(node)[0] == node && PreOrder(node)[1..] == rest;
      thrown := Enter(node);
      if thrown.None? {
        thrown := WalkAll(Children(node));
      }
    }

    /** Walk the trees of `nodes` one after the other; a throw ends the walk. */
    method WalkAll(nodes: seq<Node>) returns (thrown: Option<Fault>)
      modifies this`state
      ensures Outcome(state, thrown) == Fold(old(state), position, PreOrderAll(nodes))
      decreases |PreOrderAll(nodes)|, 1
    {
      var i := 0;
      while i < |nodes|
        invariant 0 <= i <= |nodes|
        invariant Outcome(state, None) == Fold(old(state), position, PreOrderAll(nodes[..i]))
        decreases |nodes| - i
      {
        ghost var walked := PreOrderAll(nodes[..i]);
        PreOrderAllCovers(nodes, i);
        assert nodes[..i + 1] == nodes[..i] + [nodes[i]];
        PreOrderAllAppend(nodes[..i], [nodes[i]]);
        assert PreOrderAll([nodes[i]]) == PreOrder(nodes[i]);
        FoldAppend(old(state), position, walked, PreOrder(nodes[i]));
        var t := Walk(nodes[i]);
        if t.Some? {
          assert nodes == nodes[..i + 1] + nodes[i + 1..];
          PreOrderAllAppend(nodes[..i + 1], nodes[i + 1..]);
          FoldAppend(old(state), position, PreOrderAll(nodes[..i + 1]), PreOrderAll(nodes[i + 1..]));
          return t;
        }
        i := i + 1;
      }
      assert nodes[..i] == nodes;
      return None;
    }

    /**
     * `parseAST`: reset the state, remember the cursor, splice in the
     * marker, parse (a rejected text returns the reset state), walk every
     * node below the root, and return the state. `parse` stands for the
     * parser. Whatever the visitor held before, the outcome depends only on
     * the arguments.
     */
    method ParseAST(text: string, pos: Position, parse: string -> Option<Node>) returns (r: Result<CompletionState>)
      modifies this
      ensures position == pos
      ensures r == Classify(text, pos, parse)
      ensures state == Run(text, pos, parse).state
    {
      state := Default();
      position := pos;
      var spliced := HandleTriggerCharacter(text, pos);
      if spliced.Err? {
        return Err(spliced.fault);
      }
      var ast := parse(spliced.value);
      if ast.None? {
        return Ok(state);
      }
      var thrown := WalkAll(Children(ast.value));
      if thrown.Some? {
        return Err(thrown.value);
      }
      return Ok(state);
    }
  }
}
