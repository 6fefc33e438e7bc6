/**
 * The cursor marker: before parsing, the classifier splices a fixed marker
 * into the editor text at the cursor, so that "where is the cursor" becomes
 * "which node's name or value contains the marker".
 */
module Trigger {
  import opened Js

  /** The marker spliced in at the cursor. */
  const PLACEHOLDER: string := "TRIGGER_CHARACTER"

  /** A zero-based cursor position, as the editor reports it. */
  datatype Position = Position(line: nat, character: nat)

  /** The text before line `i` of `Join(lines, sep)`, its separator included. */
  function Preceding(lines: seq<string>, sep: char, i: nat): string
    requires i <= |lines|
  {
    if i == 0 then "" else Join(lines[..i], sep) + [sep]
  }

  /** The text after line `i` of `Join(lines, sep)`, its separator included. */
  function Following(lines: seq<string>, sep: char, i: nat): string
    requires i < |lines|
  {
    if i + 1 == |lines| then "" else [sep] + Join(lines[i + 1..], sep)
  }

  /** A joined text is the lines before `i`, line `i`, and the lines after it. */
  lemma JoinAround(lines: seq<string>, sep: char, i: nat)
    requires i < |lines|
    ensures Join(lines, sep) == Preceding(lines, sep, i) + lines[i] + Following(lines, sep, i)
  {
    var rest := lines[i..];
    assert rest[1..] == lines[i + 1..];
    if i > 0 {
      assert lines == lines[..i] + rest;
      JoinAppend(lines[..i], rest, sep);
    }
  }

  /** Replacing line `i` changes the joined text in exactly that line's place. */
  lemma JoinUpdate(lines: seq<string>, sep: char, i: nat, x: string)
    requires i < |lines|
    ensures Join(lines[i := x], sep) == Preceding(lines, sep, i) + x + Following(lines, sep, i)
  {
    var updated := lines[i := x];
    assert updated[..i] == lines[..i];
    assert updated[i + 1..] == lines[i + 1..];
    JoinAround(updated, sep, i);
  }

  /** The column the marker goes to: the cursor's character, clamped to the line's length. */
  function Column(line: string, character: nat): (c: nat)
    ensures c <= |line| && (c == character || c == |line| < character)
  {
    if character < |line| then character else |line|
  }

  /**
   * The text with the marker inserted at the cursor: at the cursor's column
   * of the cursor's line. Past the last line a cursor at character 0 yields
   * the text, the missing line breaks, the marker and the word `undefined`
   * (the absent line is rendered by a template string, and the array of
   * lines grows to reach the assigned index); any other character past the
   * last line throws.
   */
  function Splice(text: string, pos: Position): Result<string>
  {
    var lines := Split(text, '\n');
    if pos.line < |lines| then
      JoinAround(lines, '\n', pos.line);
      var at := |Preceding(lines, '\n', pos.line)| + Column(lines[pos.line], pos.character);
      Ok(text[..at] + PLACEHOLDER + text[at..])
    else if pos.character == 0 then
      Ok(text + Repeat('\n', pos.line - |lines| + 1) + PLACEHOLDER + "undefined")
    else
      Err(TypeError("textLines[position.line].slice"))
  }

  /** The cursor's line with the marker at the cursor's column. */
  function MarkedLine(line: string, character: nat): string
  {
    SliceTo(line, character) + PLACEHOLDER + SliceFrom(line, character)
  }

  /** Inserting `x` at the boundary between `a` and `b` of a text `before + a + b + after`. */
  lemma InsertBetween(before: string, a: string, b: string, after: string, x: string)
    ensures var t := before + a + b + after;
            t[..|before| + |a|] + x + t[|before| + |a|..] == before + (a + x + b) + after
  {
    var t := before + a + b + after;
    assert t[..|before| + |a|] == before + a;
    assert t[|before| + |a|..] == b + after;
  }

  /** Inside the text, splicing is replacing the cursor's line by its marked copy. */
  lemma SpliceReplacesLine(text: string, pos: Position)
    requires pos.line < |Split(text, '\n')|
    ensures var lines := Split(text, '\n');
            Splice(text, pos) == Ok(Join(lines[pos.line := MarkedLine(lines[pos.line], pos.character)], '\n'))
  {
    var lines := Split(text, '\n');
    var line := lines[pos.line];
    var before := Preceding(lines, '\n', pos.line);
    var after := Following(lines, '\n', pos.line);
    var a, b := SliceTo(line, pos.character), SliceFrom(line, pos.character);
    JoinAround(lines, '\n', pos.line);
    JoinUpdate(lines, '\n', pos.line, MarkedLine(line, pos.character));
    assert text == before + a + b + after;
    assert |a| == Column(line, pos.character);
    InsertBetween(before, a, b, after, PLACEHOLDER);
  }

  /** Past the last line, at character 0, splicing is appending holes and the marked `undefined`. */
  lemma SplicePastEnd(text: string, pos: Position)
    requires pos.line >= |Split(text, '\n')| && pos.character == 0
    ensures var lines := Split(text, '\n');
            Splice(text, pos) == Ok(Join(lines + Holes(pos.line - |lines|) + [PLACEHOLDER + "undefined"], '\n'))
  {
    var lines := Split(text, '\n');
    var k := pos.line - |lines|;
    var x := PLACEHOLDER + "undefined";
    assert lines + Holes(k) + [x] == lines + (Holes(k) + [x]);
    JoinAppend(lines, Holes(k) + [x], '\n');
    JoinHoles(k, x, '\n');
    assert Repeat('\n', k + 1) == ['\n'] + Repeat('\n', k);
    assert text + ['\n'] + (Repeat('\n', k) + x) == text + Repeat('\n', k + 1) + x;
    assert text + Repeat('\n', k + 1) + x == text + Repeat('\n', k + 1) + PLACEHOLDER + "undefined";
    assert Join(lines, '\n') == text;
  }

  /**
   * Splicing inside the text keeps the number of lines, changes only the
   * cursor's line (which gets the marker at the clamped column), and makes
   * the text exactly one marker longer.
   */
  lemma {:induction false} SpliceKeepsOtherLines(text: string, pos: Position)
    requires pos.line < |Split(text, '\n')|
    ensures Splice(text, pos).Ok?
    ensures var lines := Split(text, '\n');
            var r := Splice(text, pos).value;
            && Split(r, '\n') == lines[pos.line := MarkedLine(lines[pos.line], pos.character)]
            && |Split(r, '\n')| == |lines|
            && (forall i :: 0 <= i < |lines| && i != pos.line ==> Split(r, '\n')[i] == lines[i])
            && |r| == |text| + |PLACEHOLDER|
  {
    var lines := Split(text, '\n');
    var line := lines[pos.line];
    var marked := MarkedLine(line, pos.character);
    SpliceReplacesLine(text, pos);
    JoinAround(lines, '\n', pos.line);
    assert '\n' !in PLACEHOLDER;
    var a, b := SliceTo(line, pos.character), SliceFrom(line, pos.character);
    assert line == a + b;
    assert '\n' !in a && '\n' !in b by {
      assert forall c :: c in a ==> c in line;
      assert forall c :: c in b ==> c in line;
    }
    assert '\n' !in marked;
    var updated := lines[pos.line := marked];
    assert forall i :: 0 <= i < |updated| ==> '\n' !in updated[i];
    SplitJoin(updated, '\n');
  }

  /** On a text of one line, splicing marks that line. */
  lemma SpliceOneLine(text: string, pos: Position)
    requires '\n' !in text && pos.line == 0
    ensures Splice(text, pos) == Ok(MarkedLine(text, pos.character))
  {
    SplitSingle(text, '\n');
    SpliceReplacesLine(text, pos);
    assert [text][0 := MarkedLine(text, pos.character)] == [MarkedLine(text, pos.character)];
  }

  /** Whenever splicing succeeds, the result holds the marker. */
  lemma SpliceHoldsMarker(text: string, pos: Position)
    requires Splice(text, pos).Ok?
    ensures Includes(Splice(text, pos).value, PLACEHOLDER)
  {
    var lines := Split(text, '\n');
    var r := Splice(text, pos).value;
    if pos.line < |lines| {
      var at := |Preceding(lines, '\n', pos.line)| + Column(lines[pos.line], pos.character);
      JoinAround(lines, '\n', pos.line);
      assert OccursAt(r, PLACEHOLDER, at);
    } else {
      assert OccursAt(r, PLACEHOLDER, |text| + pos.line - |lines| + 1);
    }
  }
}
