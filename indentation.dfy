/** Tab / Shift+Tab in the three code editors. Tab inserts two spaces at the
    selection start; Shift+Tab cuts the selected text into lines and strips up
    to two leading spaces from each. The first "line" begins at the selection
    start, not at the start of the line that holds it. */
module Indentation {
  import opened Lines

  /** The indentation unit: two spaces. */
  const Tab: string := "  "
  const Space: char := ' '

  function Min(a: nat, b: nat): nat
  {
    if a <= b then a else b
  }

  function Spaces(n: nat): (r: string)
    ensures |r| == n && forall i :: 0 <= i < n ==> r[i] == Space
  {
    if n == 0 then "" else [Space] + Spaces(n - 1)
  }

  /** How many spaces `s` starts with. */
  function LeadingSpaces(s: string): (n: nat)
    ensures n <= |s|
    ensures forall i :: 0 <= i < n ==> s[i] == Space
    ensures n < |s| ==> s[n] != Space
  {
    if s != [] && s[0] == Space then 1 + LeadingSpaces(s[1..]) else 0
  }

  /** The outcome of stripping: the text left over and how many characters
      were taken off. */
  datatype Stripped = Stripped(text: string, removed: nat)

  /** The callback mapped over the selected lines: two leading spaces go if
      there are two, otherwise one if there is one. */
  function StripLine(line: string): (r: Stripped)
    ensures line == Spaces(r.removed) + r.text
    ensures r.removed == Min(2, LeadingSpaces(line))
  {
    if |line| >= 2 && line[..2] == Tab then Stripped(line[2..], 2)
    else if |line| >= 1 && line[0] == Space then Stripped(line[1..], 1)
    else Stripped(line, 0)
  }

  /** `lines.map(...)`: every line stripped, in order. */
  function StripAll(lines: seq<string>): (r: seq<string>)
    ensures |r| == |lines|
    ensures forall i :: 0 <= i < |lines| ==> r[i] == StripLine(lines[i]).text
  {
    if lines == [] then []
    else StripAll(lines[..|lines| - 1]) + [StripLine(lines[|lines| - 1]).text]
  }

  /** The final value of the `removed` counter after the map: no line
      adds more than two to it. */
  function TotalRemoved(lines: seq<string>): (r: nat)
    ensures r <= 2 * |lines|
  {
    if lines == [] then 0
    else TotalRemoved(lines[..|lines| - 1]) + StripLine(lines[|lines| - 1]).removed
  }

  /** Shift+Tab on the selected text alone: the rejoined lines and the
      number of characters removed, which is exactly how much shorter the
      text became. */
  function UnindentSelection(selected: string): (u: Stripped)
    ensures |selected| == |u.text| + u.removed
  {
    var lines := Split(selected);
    JoinOfSplit(selected);
    RemovedIsLengthDrop(lines);
    Stripped(Join(StripAll(lines)), TotalRemoved(lines))
  }

  /** The counter equals the drop in length of the joined text. */
  lemma {:induction false} RemovedIsLengthDrop(lines: seq<string>)
    requires |lines| >= 1
    ensures |Join(lines)| == |Join(StripAll(lines))| + TotalRemoved(lines)
  {
    var n := |lines|;
    var last := lines[n - 1];
    if n == 1 {
      assert StripAll(lines) == [StripLine(last).text];
    } else {
      var init := lines[..n - 1];
      RemovedIsLengthDrop(init);
      assert lines == init + [last];
      JoinSnoc(init, last);
      assert StripAll(lines) == StripAll(init) + [StripLine(last).text];
      JoinSnoc(StripAll(init), StripLine(last).text);
    }
  }

  /** Stripping does not add or merge lines: splitting the rejoined text
      gives exactly the stripped lines. */
  lemma StripAllKeepsLines(lines: seq<string>)
    requires |lines| >= 1
    requires forall i :: 0 <= i < |lines| ==> NewLine !in lines[i]
    ensures Split(Join(StripAll(lines))) == StripAll(lines)
  {
    var r := StripAll(lines);
    forall i | 0 <= i < |r|
      ensures NewLine !in r[i]
    {
      var s := StripLine(lines[i]);
      assert lines[i] == Spaces(s.removed) + s.text;
      assert r[i] == lines[i][s.removed..];
    }
    SplitOfJoin(r);
  }

  /** Lines that do not start with a space are left alone. */
  lemma {:induction false} StripAllIdentity(lines: seq<string>)
    requires forall i :: 0 <= i < |lines| ==> LeadingSpaces(lines[i]) == 0
    ensures StripAll(lines) == lines && TotalRemoved(lines) == 0
  {
    if lines != [] {
      StripAllIdentity(lines[..|lines| - 1]);
      assert StripLine(lines[|lines| - 1]).removed == 0;
      assert lines == lines[..|lines| - 1] + [lines[|lines| - 1]];
    }
  }

  /** Shift+Tab removes at most two characters per selected line. */
  lemma UnindentSelectionPerLine(selected: string)
    ensures UnindentSelection(selected).removed <= 2 * (CountNewLines(selected) + 1)
  {
    SplitCount(selected);
  }

  /** The lines of the rewritten selection are its old lines, each stripped:
      their number does not change. */
  lemma UnindentSelectionLines(selected: string)
    ensures var u := UnindentSelection(selected);
      && Split(u.text) == StripAll(Split(selected))
      && |Split(u.text)| == |Split(selected)|
  {
    StripAllKeepsLines(Split(selected));
  }

  /** When no selected line starts with a space, Shift+Tab changes nothing. */
  lemma UnindentSelectionIdentity(selected: string)
    requires forall i :: 0 <= i < |Split(selected)| ==> LeadingSpaces(Split(selected)[i]) == 0
    ensures UnindentSelection(selected) == Stripped(selected, 0)
  {
    JoinOfSplit(selected);
    StripAllIdentity(Split(selected));
  }

  /** The text of an editor and its selection. */
  datatype TextState = TextState(value: string, selStart: nat, selEnd: nat)
  {
    /** A selection as a browser keeps it: ordered and inside the text. */
    predicate Valid()
    {
      selStart <= selEnd <= |value|
    }
  }

  /** Tab: two spaces go in at the selection start and the selection
      collapses to just after them. */
  function IndentKey(t: TextState): (r: TextState)
    requires t.Valid()
    ensures r.Valid() && |r.value| == |t.value| + |Tab|
    ensures r.selStart == r.selEnd == t.selStart + |Tab|
  {
    var v, start, end := t.value, t.selStart, t.selEnd;
    TextState(v[..start] + Tab + v[start..end] + v[end..], start + |Tab|, start + |Tab|)
  }

  /** Shift+Tab: only the selected slice is rewritten; the selection keeps
      its start and its end moves back by the number of removed characters. */
  function UnindentKey(t: TextState): (r: TextState)
    requires t.Valid()
    ensures r.Valid() && r.selStart == t.selStart && r.selEnd <= t.selEnd
    ensures |t.value| - |r.value| == t.selEnd - r.selEnd
  {
    var v, start, end := t.value, t.selStart, t.selEnd;
    var u := UnindentSelection(v[start..end]);
    TextState(v[..start] + u.text + v[end..], start, end - u.removed)
  }

  /** Tab inserts exactly two spaces at the selection start and nothing else. */
  lemma IndentInsertsTab(t: TextState)
    requires t.Valid()
    ensures var r := IndentKey(t);
      && r.value == t.value[..t.selStart] + "  " + t.value[t.selStart..]
      && |r.value| == |t.value| + 2
      && r.selStart == r.selEnd == t.selStart + 2
      && r.Valid()
  {
    var v, start, end := t.value, t.selStart, t.selEnd;
    assert v[start..end] + v[end..] == v[start..];
    assert v[..start] + Tab + v[start..end] + v[end..] == v[..start] + Tab + (v[start..end] + v[end..]);
  }

  /** Shift+Tab leaves a valid selection with the same start, an end never
      before the start, and a text shorter by exactly the distance the end
      moved back: at most two characters per selected line. */
  lemma UnindentSelectionBounds(t: TextState)
    requires t.Valid()
    ensures var r := UnindentKey(t);
      && r.Valid()
      && r.selStart == t.selStart
      && |t.value| - |r.value| == t.selEnd - r.selEnd <= 2 * (CountNewLines(t.value[t.selStart..t.selEnd]) + 1)
  {
    UnindentSelectionPerLine(t.value[t.selStart..t.selEnd]);
  }

  /** Cutting a text at two points and gluing the parts gives it back. */
  lemma Rejoin(v: string, start: nat, end: nat)
    requires start <= end <= |v|
    ensures v[..start] + v[start..end] + v[end..] == v
  {
    var w := v[..start] + v[start..end] + v[end..];
    forall k | 0 <= k < |v| ensures w[k] == v[k] {}
  }

  /** Replacing the slice [start, end) of `v` by a text `removed` characters
      shorter keeps what comes before `start` and what comes after `end`,
      which now begins at `end - removed`. */
  lemma Splice(v: string, start: nat, end: nat, u: Stripped)
    requires start <= end <= |v| && end - start == |u.text| + u.removed
    ensures var w := v[..start] + u.text + v[end..];
      && start <= end - u.removed <= |w|
      && w[..start] == v[..start]
      && w[end - u.removed..] == v[end..]
  {
    var w := v[..start] + u.text + v[end..];
    forall k | 0 <= k < start ensures w[k] == v[k] {}
    forall k | 0 <= k < |v| - end ensures w[start + |u.text| + k] == v[end..][k] {}
  }

  /** Shift+Tab keeps the text before the selection and the text after it. */
  lemma UnindentKeepsOutside(t: TextState)
    requires t.Valid()
    ensures var r := UnindentKey(t);
      && t.selStart <= |r.value| && r.value[..t.selStart] == t.value[..t.selStart]
      && r.selEnd <= |r.value| && r.value[r.selEnd..] == t.value[t.selEnd..]
  {
    var v, start, end := t.value, t.selStart, t.selEnd;
    var u := UnindentSelection(v[start..end]);
    Splice(v, start, end, u);
  }

  /** Shift+Tab on exactly two spaces removes both. */
  lemma UnindentTab()
    ensures UnindentSelection(Tab) == Stripped("", 2)
  {
    SplitOfJoin([Tab]);
    assert Split(Tab) == [Tab];
    assert StripAll([Tab]) == [""];
  }

  /** Shift+Tab over the two spaces that Tab just inserted takes them out again. */
  lemma UnindentUndoesIndent(t: TextState)
    requires t.Valid()
    ensures var s := t.selStart;
      UnindentKey(TextState(IndentKey(t).value, s, s + 2)) == TextState(t.value, s, s)
  {
    var v, s := t.value, t.selStart;
    IndentInsertsTab(t);
    var w := IndentKey(t).value;
    assert w == v[..s] + Tab + v[s..];
    assert w[s..s + 2] == Tab;
    UnindentTab();
    assert w[..s] == v[..s];
    assert w[s + 2..] == v[s..];
    assert v[..s] + "" + v[s..] == v;
  }

  /** When no selected line starts with a space, Shift+Tab leaves the text
      and the selection as they were. */
  lemma UnindentKeyIdentity(t: TextState)
    requires t.Valid()
    requires var lines := Split(t.value[t.selStart..t.selEnd]);
      forall i :: 0 <= i < |lines| ==> LeadingSpaces(lines[i]) == 0
    ensures UnindentKey(t) == t
  {
    var v, start, end := t.value, t.selStart, t.selEnd;
    var selected := v[start..end];
    UnindentSelectionIdentity(selected);
    var u := UnindentSelection(selected);
    assert u.text == selected && u.removed == 0;
    assert UnindentKey(t) == TextState(v[..start] + u.text + v[end..], start, end - u.removed);
    Rejoin(v, start, end);
  }

  /** Shift+Tab right after Tab changes nothing: Tab leaves a collapsed
      caret, so no line is selected to strip. The two keys undo each other
      only when the inserted spaces are selected (`UnindentUndoesIndent`). */
  lemma ShiftTabAfterTab(t: TextState)
    requires t.Valid()
    ensures UnindentKey(IndentKey(t)) == IndentKey(t)
  {
    var r := IndentKey(t);
    assert r.value[r.selStart..r.selEnd] == "";
    assert Split("") == [""];
    UnindentSelectionIdentity("");
    assert r.value[..r.selStart] + "" + r.value[r.selEnd..] == r.value;
  }

  /** The first line starts at the selection start: selecting from inside a
      line's indentation strips relative to that point. In "  x" with the
      selection [1, 3), only one of the line's two spaces goes. */
  lemma FirstLineStartsAtSelection()
    ensures UnindentKey(TextState("  x", 1, 3)) == TextState(" x", 1, 2)
  {
    var t := TextState("  x", 1, 3);
    assert t.value[1..3] == " x";
    SplitOfJoin([" x"]);
    assert Split(" x") == [" x"];
    assert StripLine(" x") == Stripped("x", 1);
    assert StripAll([" x"]) == ["x"];
    assert t.value[..1] + "x" + t.value[3..] == " x";
  }

  /** The `map` over the selected lines: each line is stripped in turn while
      a counter accumulates the removed characters. */
  method StripLines(lines: seq<string>) returns (newLines: seq<string>, removed: nat)
    ensures newLines == StripAll(lines) && removed == TotalRemoved(lines)
  {
    removed := 0;
    newLines := [];
    var i := 0;
    while i < |lines|
      invariant 0 <= i <= |lines|
      invariant newLines == StripAll(lines[..i])
      invariant removed == TotalRemoved(lines[..i])
    {
      var line := lines[i];
      assert lines[..i + 1][..i] == lines[..i];
      if |line| >= 2 && line[..2] == Tab {
        removed := removed + |Tab|;
        newLines := newLines + [line[|Tab|..]];
      } else if |line| >= 1 && line[0] == Space {
        removed := removed + 1;
        newLines := newLines + [line[1..]];
      } else {
        newLines := newLines + [line];
      }
      i := i + 1;
    }
    assert lines[..|lines|] == lines;
  }

  /** A `<textarea>`: its text and its selection, edited in place. */
  class Textarea {
    var value: string
    var selStart: nat
    var selEnd: nat

    ghost predicate Valid()
      reads this
    {
      State().Valid()
    }

    ghost function State(): TextState
      reads this
    {
      TextState(value, selStart, selEnd)
    }

    constructor (text: string)
      ensures Valid() && State() == TextState(text, |text|, |text|)
    {
      value, selStart, selEnd := text, |text|, |text|;
    }

    /** Assigning `value`: when the text changes, the browser puts the caret
        at the end of the new text; assigning the same text changes nothing. */
    method SetValue(text: string)
      requires Valid()
      modifies this
      ensures Valid() && value == text
      ensures text != old(value) ==> State() == TextState(text, |text|, |text|)
      ensures text == old(value) ==> State() == old(State())
    {
      if text != value {
        value, selStart, selEnd := text, |text|, |text|;
      }
    }

    /** Tab without Shift. */
    method Indent()
      requires Valid()
      modifies this
      ensures Valid() && State() == IndentKey(old(State()))
    {
      IndentInsertsTab(State());
      var start, end := selStart, selEnd;
      value := value[..start] + Tab + value[start..end] + value[end..];
      selStart, selEnd := start + |Tab|, start + |Tab|;
    }

    /** Shift+Tab: the selection is cut into lines, stripped and rejoined. */
    method Unindent()
      requires Valid()
      modifies this
      ensures Valid() && State() == UnindentKey(old(State()))
    {
      var start, end := selStart, selEnd;
      var before := value[..start];
      var selected := value[start..end];
      var after := value[end..];
      ghost var u := UnindentSelection(selected);
      var newLines, removed := StripLines(Split(selected));
      assert Join(newLines) == u.text && removed == u.removed;
      assert |before| == start && |selected| == end - start && |after| == |value| - end;
      assert |Join(newLines)| + removed == end - start;
      value := before + Join(newLines) + after;
      selStart := start;
      selEnd := end - removed;
    }

    /** `handleTabKey`: any other key is ignored; Tab indents and Shift+Tab
        unindents. Reports whether the key was handled. */
    method HandleTabKey(key: string, shift: bool) returns (handled: bool)
      requires Valid()
      modifies this
      ensures Valid() && handled == (key == "Tab")
      ensures State() == if !handled then old(State())
                         else if shift then UnindentKey(old(State()))
                         else IndentKey(old(State()))
    {
      if key != "Tab" {
        return false;
      }
      if shift {
        Unindent();
      } else {
        Indent();
      }
      handled := true;
    }
  }
}
