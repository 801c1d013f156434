/**
 * A prompt's line as a text and a cursor (`Line` of fux-wire/src/act.rs): what each edit is to them, and
 * what a key types.
 */
module Lines {
  import opened Keys
  import opened Modes
  import opened KeymapLookups
  import opened Acts
  import opened Screens
  import opened Presses

  function TextOf(line: Line): string { line.before + line.after }

  function CursorOf(line: Line): nat { |line.before| }

  /** A line is its text and where the cursor is in it. */
  lemma {:induction false} LineIs(a: Line, b: Line)
    ensures a == b <==> TextOf(a) == TextOf(b) && CursorOf(a) == CursorOf(b)
  {
    assert TextOf(a)[..CursorOf(a)] == a.before && TextOf(a)[CursorOf(a)..] == a.after;
    assert TextOf(b)[..CursorOf(b)] == b.before && TextOf(b)[CursorOf(b)..] == b.after;
  }

  // ------------------------------------------------------------------------- what is inserted

  /** Of one character, nothing if it is a control character; of texts joined, what there is of each. */
  lemma {:induction false} WithoutControlsIs(a: string, b: string, c: char)
    ensures WithoutControls([c]) == if c as int < 32 || 127 <= c as int <= 159 then [] else [c]
    ensures WithoutControls(a + b) == WithoutControls(a) + WithoutControls(b)
    decreases |a|
  {
    assert [c][1..] == [];
    if a == [] {
      assert a + b == b;
    } else {
      assert (a + b)[1..] == a[1..] + b;
      WithoutControlsIs(a[1..], b, c);
    }
  }

  /** One line end is left off, the longest there is. */
  lemma {:induction false} WithoutLineEndIs(text: string, line: string)
    ensures var r := WithoutLineEnd(text); text == r || text == r + "\n" || text == r + "\r" || text == r + "\r\n"
    ensures WithoutLineEnd(line + "\r\n") == line
    ensures line == [] || line[|line| - 1] != '\r' ==> WithoutLineEnd(line + "\n") == line
    ensures WithoutLineEnd(line + "\r") == line
    ensures '\n' !in text && '\r' !in text ==> WithoutLineEnd(text) == text
  {
    assert (line + "\r\n")[..|line|] == line && (line + "\n")[..|line|] == line && (line + "\r")[..|line|] == line;
  }

  // ------------------------------------------------------------------------------------ edits

  /** What each edit is to the text and the cursor; an insert that spans lines is none. */
  lemma {:induction false} EditIs(line: Line, edit: Edit)
    ensures var (text, at) := (TextOf(line), CursorOf(line));
            match edit
            case Insert(typed) =>
              var one := WithoutLineEnd(typed);
              var shown := WithoutControls(one);
              && (EditLine(line, edit).None? <==> '\n' in one || '\r' in one)
              && (EditLine(line, edit).Some? ==>
                 IsLine(EditLine(line, edit), text[..at] + shown + text[at..], at + |shown|))
            case Backspace =>
              if at == 0 then IsLine(EditLine(line, edit), text, at)
              else IsLine(EditLine(line, edit), text[..at - 1] + text[at..], at - 1)
            case Delete =>
              if at == |text| then IsLine(EditLine(line, edit), text, at)
              else IsLine(EditLine(line, edit), text[..at] + text[at + 1..], at)
            case Left => IsLine(EditLine(line, edit), text, if at == 0 then 0 else at - 1)
            case Right => IsLine(EditLine(line, edit), text, if at == |text| then at else at + 1)
            case Home => IsLine(EditLine(line, edit), text, 0)
            case End => IsLine(EditLine(line, edit), text, |text|)
  {
    var (text, at) := (TextOf(line), CursorOf(line));
    assert text[..at] == line.before && text[at..] == line.after;
    if at > 0 {
      assert text[..at - 1] == line.before[..at - 1];
      assert line.before[..at - 1] + ([line.before[at - 1]] + line.after) == text;
    }
    if at < |text| {
      assert text[at + 1..] == line.after[1..];
      assert line.before + [line.after[0]] + line.after[1..] == text;
    }
    assert text + [] == text && [] + text == text;
  }

  ghost predicate IsLine(line: Option<Line>, text: string, at: nat) {
    line.Some? && TextOf(line.value) == text && CursorOf(line.value) == at
  }

  // ------------------------------------------------------------------------------------- keys

  /** What a table does for a press: its own key's action first, then a named key's without modifiers. */
  function Looked<A>(table: Table<A>, press: KeyPress, escape: A): Option<A> {
    var (own, plain) := (Found(table, press), Found(table, KeyPress(press.key, NO_MODIFIERS)));
    if press.key == Escape then Some(escape)
    else if own.Some? then Some(own.value.act)
    else if plain.Some? && !press.key.Char? then Some(plain.value.act)
    else None
  }

  lemma {:induction false} LookedIs<A>(table: Table<A>, press: KeyPress, escape: A)
    ensures TableGet(table, press, escape) == Looked(table, press, escape)
  {
    TableGetFinds(table, press, escape);
  }

  /** A press that types a character: no key of the table, nor held with Ctrl or Alt, nor a control character. */
  predicate Types(modes: Modes, press: KeyPress, c: char) {
    && press.key == Char(c) && !press.mods.ctrl && !press.mods.alt && WithoutControls([c]) == [c]
    && Found(modes.line, press).None?
  }

  /** A press in a prompt is its table's, or types its character, or is nothing. */
  lemma {:induction false} TypingIs(modes: Modes, press: KeyPress)
    ensures Looked<LineAct>(modes.line, press, CancelLine).Some? ==>
              Typing(modes, press) == Looked<LineAct>(modes.line, press, CancelLine)
    ensures Looked<LineAct>(modes.line, press, CancelLine).None? && press.key.Char? ==>
              Typing(modes, press) ==
              if Types(modes, press, press.key.c) then Some(Edits(Edit.Insert([press.key.c]))) else None
    ensures Looked<LineAct>(modes.line, press, CancelLine).None? && !press.key.Char? ==> Typing(modes, press).None?
  {
    LookedIs<LineAct>(modes.line, press, CancelLine);
    if press.key.Char? {
      WithoutControlsIs([], [], press.key.c);
    }
  }

  /** A character typed goes in at the cursor. */
  lemma {:induction false} TypedIs(line: Line, c: char)
    requires WithoutControls([c]) == [c]
    ensures EditLine(line, Edit.Insert([c])) == Some(line.(before := line.before + [c]))
  {
    WithoutControlsIs([], [], c);
    WithoutLineEndIs([c], []);
  }
}
