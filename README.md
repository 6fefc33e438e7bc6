# Completion-context classifier for the MongoDB shell language

Before it offers completions in a MongoDB playground, the extension has to
know *where* the cursor is. Is it inside `use('…')`? After `db.`? After
`db.<collection>.find().`? Inside the keys of an object literal? The class
`Visitor` in `src/language/visitor.ts` works this out in four steps:

1. It splices a fixed marker, `TRIGGER_CHARACTER`, into the editor text at
   the cursor.
2. It parses the result with a JavaScript parser.
3. It walks every node of the syntax tree. Call expressions, member
   expressions, expression statements and object expressions each run a
   few shape checks, and a check that matches raises a flag or records a
   database or collection name.
4. It returns the resulting `CompletionState`.

This project models that class and proves what it computes.

- `js.dfy` (`Js`) covers the JavaScript primitives the class relies on:
  - the `Option`/`Result` wrappers;
  - the `TypeError` a read through `undefined` throws;
  - `split`, `join`, `slice` and `includes` on strings.
- `trigger.dfy` (`Trigger`) holds the marker, the cursor `Position`, and
  `Splice`. `Splice` is the text-level meaning of `_handleTriggerCharacter`.
- `ast.dfy` (`Ast`) models three things:
  - the part of the syntax tree the checks read;
  - the JavaScript property reads on untyped nodes;
  - the pre-order in which the tree walker enters nodes. The walker enters
    every node below the root, but not the root itself.
- `checks.dfy` (`Checks`) holds the nine `_check*` predicates, with lemmas
  that describe each one by the tree shapes it accepts. A check that reads
  through a missing sub-node returns `Err(TypeError(…))`, just as the
  JavaScript throws.
- `completion.dfy` (`Completion`) holds the state, its default, the four
  visits and the whole classification as functions (`Visit`, `Fold`, `Run`,
  `Classify`). It also gives an independent account of which node sets which
  field (`Fires`, `DatabaseNameCapture`, `CollectionNameCapture`) and proves
  the two agree.
- `visitor.dfy` (`Classifier`) holds the class `Visitor`, with the fields
  `state` and `position`. Its methods update the state field by field, as
  the source does. Each method is proved equal to the corresponding function
  of `Completion` or `Trigger`.
- `scenarios.dfy` (`Scenarios`) works through concrete editor texts from
  start to finish.

The class can throw: a `TypeError` escapes `parseAST` in two cases:

- the cursor is past the last line at a character other than 0;
- a check reads through a node that is not there. Examples are `foo().`
  with the cursor after the dot, and an object literal whose first entry
  is a spread.

The model follows the code. `Classify` returns `Err(TypeError(<the read
that failed>))` in those cases. State changes made before the throw are
kept, because the visits update the shared state in place.

## Model

| member | source | states |
|---|---|---|
| Classifier.Visitor.constructor | src/language/visitor.ts:23-26 | a new visitor holds the default state and the cursor at line 0, character 0 |
| Classifier.Visitor.HandleTriggerCharacter | src/language/visitor.ts:76-98 | the split / rebuild-line / store / join procedure returns exactly `Splice(text, pos)`, whose meaning the `Trigger` lemmas give; a cursor past the last line at a non-zero character throws |
| Trigger.SpliceReplacesLine | src/language/visitor.ts:80-97 | inside the text, the result is the lines joined back with only the cursor's line replaced by prefix + marker + postfix |
| Trigger.SplicePastEnd | src/language/visitor.ts:87-95 | past the last line at character 0, the array grows with empty holes and the new last line is the marker followed by `undefined` |
| Trigger.SpliceKeepsOtherLines | src/language/visitor.ts:80-97 | splicing inside the text keeps the line count, changes no line but the cursor's, puts the marker at the clamped column, and lengthens the text by exactly the marker's length |
| Trigger.SpliceOneLine | src/language/visitor.ts:80-97 | on a one-line text, the result is that line with the marker at the cursor |
| Trigger.SpliceHoldsMarker | src/language/visitor.ts:95 | every successful splice contains the marker |
| Trigger.Column | src/language/visitor.ts:85 | the marker's column is the cursor's character clamped to the line's length |
| Js.Split | src/language/visitor.ts:80 | `split('\n')` returns at least one line, no line contains the separator, and joining the lines gives back the text |
| Js.SplitJoin | src/language/visitor.ts:97 | splitting a join of separator-free lines gives back the lines, so the join at the end can be read line by line |
| Js.SliceTo | src/language/visitor.ts:85 | `slice(0, c)` is a prefix of the line whose length is `c` clamped to the line's length |
| Js.SliceFrom | src/language/visitor.ts:90 | `slice(c)` is the rest of the line after `slice(0, c)` |
| Js.Join | src/language/visitor.ts:97 | `join('\n')`; stated by `JoinAppend`, `JoinHoles` and `SplitJoin` |
| Js.Includes | src/language/visitor.ts:169 | `String.prototype.includes`, as used by every marker test; the checks' marker conditions are stated through it |
| Js.JoinHoles | src/language/visitor.ts:95-97 | joining holes followed by a line yields one separator per hole before the line |
| Ast.PreOrder | src/language/visitor.ts:122-141 | the order in which the walker enters a tree; stated by `PreOrderChildren` and `PreOrderAllAppend` |
| Ast.Descendants | src/language/visitor.ts:122-141 | the nodes the walker enters: every node below the root, in pre-order; stated by `PreOrderChildren`, `PreOrderAllAppend` and `PreOrderAllCovers` |
| Ast.PreOrderChildren | src/language/visitor.ts:122-141 | the walker enters a node before all of its children, and the children in source order |
| Ast.PreOrderAllCovers | src/language/visitor.ts:122-141 | the walk of a list of trees is the walk of the trees before any one of them, then its walk, then the walk of the trees after it |
| Ast.PreOrderAllAppend | src/language/visitor.ts:122-141 | walking two lists of trees is walking the first list, then the second |
| Checks.IsUseCall | src/language/visitor.ts:161-183 | `_checkIsUseCall`: the quoted-`use` and template-argument shapes, throwing on a missing callee; its meaning is stated by `UseCallShapes`, `UseCallTemplateAnyCallee`, `UseCallStringNeedsUse` and `UseCallWithoutCalleeThrows` |
| Checks.IsDbCall | src/language/visitor.ts:185-195 | `_checkIsDbCall`, all reads guarded; stated by `DbCallOneLevel` |
| Checks.IsObjectKey | src/language/visitor.ts:197-207 | `_checkIsObjectKey`: `properties.find` over the entries, throwing on an entry without a key; stated by `FindKeyFirstMatch` |
| Checks.FindKey | src/language/visitor.ts:199-201 | the `find` callback applied entry by entry, stopping at the first match or throw; stated by `FindKeyFirstMatch` |
| Checks.IsCollectionName | src/language/visitor.ts:210-229 | `_checkIsCollectionName`, whose unguarded `node.callee.object.property.name` read is reached only once `callee.object.object` exists; stated by `CollectionNameShapes` |
| Checks.HasCursorCall | src/language/visitor.ts:231-259 | the body shared by the aggregation and find checks, throwing on an unguarded `node.property.name` or `node.object.callee.property.name`; stated by `CursorCallShape` and `CursorCallOnBareCalleeThrows` |
| Checks.HasAggregationCall | src/language/visitor.ts:231-244 | `_checkHasAggregationCall`, the shared body with `aggregate`; stated by `CursorCallShape` and `CursorCallsExclusive` |
| Checks.HasFindCall | src/language/visitor.ts:246-259 | `_checkHasFindCall`, the shared body with `find`; stated by `CursorCallShape` and `CursorCallsExclusive` |
| Checks.HasDatabaseName | src/language/visitor.ts:261-277 | `_checkHasDatabaseName`, comparing the cursor with the call's end; stated by `DatabaseNameShape` |
| Checks.HasCollectionName | src/language/visitor.ts:279-289 | `_checkHasCollectionName`, throwing when the node has no `object`; stated by `CollectionCaptureIgnoresMarker` |
| Checks.IsShellMethod | src/language/visitor.ts:291-302 | `_checkIsShellMethod`, throwing when the node has no `object`, or when its object is a `db` access and the node has no `property`; stated by `ShellMethodNeedsMarker` |
| Checks.UseCallShapes | src/language/visitor.ts:161-183 | with a callee present, the check holds iff the callee is the identifier `use` and the only argument is a string literal holding the marker, or the only argument is a one-segment template whose raw text holds the marker |
| Checks.UseCallTemplateAnyCallee | src/language/visitor.ts:170-177 | a call whose only argument is a one-segment template containing the marker is a `use` call, whatever its callee |
| Checks.UseCallStringNeedsUse | src/language/visitor.ts:163-169 | with a single string-literal argument, the check holds iff the callee is the identifier `use` and the literal contains the marker |
| Checks.UseCallWithoutCalleeThrows | src/language/visitor.ts:163 | a call without a callee makes the check throw on `node.callee.name` |
| Checks.DbCallOneLevel | src/language/visitor.ts:185-195 | holds iff the node is a statement whose expression is a member access, plain or optional (`db.x`, `db?.x`), on the identifier `db` |
| Checks.FindKeyFirstMatch | src/language/visitor.ts:197-207 | `find` matches iff some key's name contains the marker and every earlier entry has a key whose name does not; it throws iff it reaches an entry without a key first; it reports false iff every entry has a key whose name does not contain the marker |
| Checks.CollectionNameShapes | src/language/visitor.ts:210-229 | the check holds iff the node is `db.<marker>` as a member access or `db.<marker>.<method>` as a call's callee, each access plain or optional |
| Checks.CursorCallShape | src/language/visitor.ts:231-259 | the aggregation and find checks hold iff the member's property contains the marker, its object is a call, and the call's callee, a member access or a meta property, has a property named `aggregate` (respectively `find`) |
| Checks.CursorCallsExclusive | src/language/visitor.ts:231-259 | no member access satisfies both the aggregation check and the find check |
| Checks.CursorCallOnBareCalleeThrows | src/language/visitor.ts:235-238 | `f().<marker>`, with a bare identifier `f`, throws on `node.object.callee.property.name` |
| Checks.DatabaseNameShape | src/language/visitor.ts:261-277 | holds iff the node is `use(<string literal>)` and the cursor is not before the call's end (lexicographic on line and column); the literal need not contain the marker |
| Checks.ShellMethodNeedsMarker | src/language/visitor.ts:291-302 | holds iff the node is `db.<x>.<marker>`, each access plain or optional |
| Checks.CollectionCaptureIgnoresMarker | src/language/visitor.ts:279-289 | the collection-capture check ignores the member's own property and holds iff the node is `db.<collection>.<anything>`, each access plain or optional |
| Completion.Default | src/language/visitor.ts:146-157 | both names are null and every flag is false |
| Completion.VisitCall | src/language/visitor.ts:28-40 | `_visitCallExpression` on a state value, a throw keeping the updates made before it; stated by `VisitCallSpec` and `VisitCallAccounts` |
| Completion.VisitMember | src/language/visitor.ts:42-62 | `_visitMemberExpression` on a state value; stated by `MemberFlagsAccount`, `VisitMemberAccounts` and `VisitMemberThrows` |
| Completion.VisitStatement | src/language/visitor.ts:64-68 | `_visitExpressionStatement` on a state value; stated by `VisitSpec` |
| Completion.VisitObject | src/language/visitor.ts:70-74 | `_visitObjectExpression` on a state value; stated by `VisitSpec` |
| Completion.Visit | src/language/visitor.ts:123-140 | the walker's callback, dispatching on the four visited node types and leaving every other node, optional member accesses included, unchanged; stated by `VisitSpec` |
| Completion.Fold | src/language/visitor.ts:122-141 | entering nodes in order until one throws; stated by `FoldAppend`, `FoldStopsAtThrow`, `FoldFlagsOnlyRise`, `FoldFlags`, `FoldDatabaseName` and `FoldCollectionName` |
| Completion.Run | src/language/visitor.ts:100-144 | reset, splice, parse and walk, as one value; stated by the `Classify*` lemmas |
| Completion.Classify | src/language/visitor.ts:100-144 | the state `parseAST` returns or the `TypeError` it throws; stated by `ClassifyParseFailure`, `ClassifyCursorPastEnd`, `ClassifyThrowsAtNode` and `ClassifyReportsMatches` |
| Completion.VisitSpec | src/language/visitor.ts:28-74 | entering any node sets exactly the flags whose checks match for its kind and records the names its captures record, even when a later check then throws |
| Completion.VisitCallSpec | src/language/visitor.ts:28-40 | a call visit raises `isUseCallExpression` and `isCollectionName` when their checks match, and records `arguments[0].value` when the database-name check holds; it throws iff one of the two guarded checks throws |
| Completion.MemberFlagsAccount | src/language/visitor.ts:42-58 | the four flag checks of a member visit set exactly the flags whose checks match, record no name, and throw iff a cursor check or the shell-method check throws |
| Completion.VisitMemberAccounts | src/language/visitor.ts:42-62 | a member visit sets exactly the flags whose checks match and records `object.property.name` exactly when the shell-method check does not throw and the collection-capture check holds, even when a later check throws |
| Completion.VisitMemberThrows | src/language/visitor.ts:42-62 | a member visit throws iff one of its five checks throws |
| Completion.MemberChecksMatchAfterNoThrow | src/language/visitor.ts:42-62 | on a member access, a throwing check is never followed by a flag check that matches: the two cursor checks throw together and leave the shell-method, collection-name and capture checks false; a throwing shell-method check leaves the collection-name check false; the collection-name check never throws. The capture check may still hold after a throwing shell-method check (`db.c` with no property) |
| Completion.MemberChecksMatchBeforeThrowing | src/language/visitor.ts:42-62 | once a check on a member access has matched, no later check on it throws |
| Completion.CursorSlotsExclusive | src/language/visitor.ts:43-49 | no single node raises both cursor flags |
| Completion.FoldAppend | src/language/visitor.ts:122-141 | walking two node lists is walking the first and, unless it threw, then the second |
| Completion.FoldFlagsOnlyRise | src/language/visitor.ts:28-74 | no flag is ever reset during a walk, whether or not it throws |
| Completion.FoldStopsAtThrow | src/language/visitor.ts:122-141 | a throwing walk stops at the first node whose visit throws, after entering all earlier nodes without a throw |
| Completion.FoldFlags | src/language/visitor.ts:122-141 | after a walk without a throw, a flag is set iff it was set before or its check matched at some entered node |
| Completion.FoldDatabaseName | src/language/visitor.ts:37-39 | after a walk without a throw, the database name is the one recorded by the last `use('<name>')` call entered that ends before the cursor, or else the prior name |
| Completion.FoldCollectionName | src/language/visitor.ts:59-61 | after a walk without a throw, the collection name is the one recorded by the last `db.<collection>.<x>` access entered, or else the prior name |
| Completion.ClassifyParseFailure | src/language/visitor.ts:113-120 | a text the parser rejects yields exactly the default state |
| Completion.ClassifyCursorPastEnd | src/language/visitor.ts:85-90 | a cursor past the last line at a non-zero character throws before parsing; at character 0 it does not |
| Completion.ClassifyThrowsAtNode | src/language/visitor.ts:122-141 | a parsed text whose classification throws reports the fault of the first node below the root whose visit throws |
| Completion.ClassifyReportsMatches | src/language/visitor.ts:100-144 | a returned state sets exactly the flags whose checks match at some node below the root, and holds the names recorded by the last recording nodes |
| Classifier.Visitor.VisitCallExpression | src/language/visitor.ts:28-40 | the in-place updates, and any throw, are exactly those of `Completion.VisitCall` |
| Classifier.Visitor.VisitMemberExpression | src/language/visitor.ts:42-62 | the in-place updates, and any throw, are exactly those of `Completion.VisitMember` |
| Classifier.Visitor.ApplyCheck | src/language/visitor.ts:43-57 | one `if (check) flag = true` statement of a member visit updates the state exactly as `Completion.Check` does |
| Classifier.Visitor.VisitExpressionStatement | src/language/visitor.ts:64-68 | the in-place update is exactly that of `Completion.VisitStatement` |
| Classifier.Visitor.VisitObjectExpression | src/language/visitor.ts:70-74 | the in-place update, and any throw, are exactly those of `Completion.VisitObject` |
| Classifier.Visitor.Enter | src/language/visitor.ts:123-140 | dispatching on the node type does what `Completion.Visit` does |
| Classifier.Visitor.Walk | src/language/visitor.ts:122-141 | walking one tree leaves the state and throw given by folding over its pre-order |
| Classifier.Visitor.WalkAll | src/language/visitor.ts:122-141 | walking a list of trees leaves the state and throw given by folding over their pre-orders in turn |
| Classifier.Visitor.ParseAST | src/language/visitor.ts:100-144 | resets the state and stores the cursor; the result (state or `TypeError`) is `Completion.Classify`, independent of earlier calls |
| Scenarios.UseQuotedWalk | src/language/visitor.ts:161-183 | in `use('<marker>')`, with the cursor before the call's end wherever the call ends, the walk sets only `isUseCallExpression` |
| Scenarios.UseThenDbWalk | src/language/visitor.ts:261-277 | for any database name `d` without the marker, `use('<d>'); db.<marker>` with the cursor past the call's end records `d` and sets `isDbCallExpression` and `isCollectionName` |
| Scenarios.CursorWalk | src/language/visitor.ts:231-259 | for any collection `c`, `db.<c>.find().<marker>` sets only `isFindCursor` and `db.<c>.aggregate([]).<marker>` only `isAggregationCursor`, and both record `c` |
| Scenarios.ObjectKeyWalk | src/language/visitor.ts:197-207 | for any collection `c` and method `m`, a document `{ <marker> }` passed to `db.<c>.<m>` sets `isObjectKey` and records `c` |
| Scenarios.BareCallCursorWalk | src/language/visitor.ts:235-238 | for any bare callee `f`, `f().<marker>` throws on `node.object.callee.property.name` before changing anything |
| Scenarios.SpreadFirstWalk | src/language/visitor.ts:197-207 | any object literal whose first entry is a spread throws on `item.key.name` before changing anything |
| Scenarios.UseQuoted | src/language/visitor.ts:161-183 | `use('')` with the cursor between the quotes sets only `isUseCallExpression` |
| Scenarios.UseThenDb | src/language/visitor.ts:261-277 | `use('mydb'); db.` with the cursor at the end records `mydb` and sets `isDbCallExpression` and `isCollectionName` |
| Scenarios.FindCursor | src/language/visitor.ts:246-259 | `db.accounts.find().` with the cursor at the end records `accounts` and sets `isFindCursor` |
| Scenarios.AggregationCursor | src/language/visitor.ts:231-244 | `db.accounts.aggregate([]).` with the cursor at the end records `accounts` and sets `isAggregationCursor` |
| Scenarios.Unparsable | src/language/visitor.ts:113-120 | a text the parser rejects yields the default state |
| Scenarios.ObjectKeyScenario | src/language/visitor.ts:197-207 | `db.accounts.insertOne({ })` with the cursor inside the braces records `accounts` and sets `isObjectKey` |
| Scenarios.BareCallCursorThrows | src/language/visitor.ts:231-244 | `foo().` with the cursor after the dot throws a `TypeError` on `node.object.callee.property.name` |
| Scenarios.SpreadFirstThrows | src/language/visitor.ts:197-207 | `({...rest, })` with the cursor before the closing brace throws a `TypeError` on `item.key.name` |

## Left out

- The JavaScript parser is not part of this model. It is the parameter
  `parse: string -> Option<Node>`, and `None` stands for the exception the
  parser throws on a text it rejects. The scenarios assume the tree a
  parser yields for their text, reduced to the node types the checks
  distinguish.
- The tree walker is our own pre-order walk (`Ast.PreOrder`). It enters
  nodes in the walker's order, callee before arguments and object before
  property, and it does not enter the root. Template-literal segments, type
  annotations and comments are not walked, because entering them changes
  nothing.
- `Ast.Node` keeps the four node types the walker's callback visits, and the
  node types whose fields the checks read: identifiers, string and template
  literals, object properties, spread elements, optional member accesses
  (`a?.b`) and meta properties (`import.meta`). The callback does not visit
  the last two, but the checks read their `object` and `property` when they
  meet them as sub-nodes: `db?.x` is a `db` statement, `(db?.c).x` captures
  `c`, and `import.meta().x` reads the name `meta` without a throw. `Other`
  stands for every other node, none of which has a field the checks read.
  `null` and `undefined` are both `None`.
- An object method (`{ m() {} }`) has a key just as a property does. It is
  written as an `ObjectProperty`, because the key is all the check reads.
- `Ast.Loc` keeps only `loc.end`.
- The checks are modelled on the tree shapes a parser produces, not on
  arbitrary JavaScript objects. A getter that throws, or a property a
  real node never has, is outside the model.
- JavaScript truthiness of names and values is modelled as "present".
  The empty string is falsy in JavaScript, so a check that needs a name to
  contain the marker already rejects it.
- The field `_connection` is declared but never used by the class, and is
  not modelled.
- `parseAST` returns the visitor's own state object. A later call resets
  the visitor's field to a fresh object, so a caller's earlier result is
  never mutated. The model returns a value and does not capture that
  aliasing.
- A `char` here is a Unicode code point, while the editor's character
  offset and JavaScript's `slice` count UTF-16 code units. The model agrees
  with the class only when no character outside the Basic Multilingual Plane
  precedes the cursor on its line.
- Cursor positions are non-negative integers (`nat`), as the editor
  reports them. Fractional or negative positions are not modelled.
- `src/test/suite/language/languageServerController.test.ts` and
  `src/editors/partialExecutionCodeLensProvider.ts` are not part of this
  model.
