/** Wrapping the selection of the chat text box in a pair of formatting tags
    (`insertTag` in index.js), and the text box itself. */
module TagInsertion {

  /** A text box's value and selection, as a value. */
  datatype Field = Field(value: string, selStart: nat, selEnd: nat)

  /** The selection lies inside the value and does not run backwards. */
  predicate WellFormed(f: Field) {
    f.selStart <= f.selEnd <= |f.value|
  }

  /** `s` with the `n` characters starting at index `at` removed. */
  function Delete(s: string, at: nat, n: nat): (r: string)
    requires at + n <= |s|
    ensures |r| == |s| - n
    ensures r[..at] == s[..at]
    ensures r[at..] == s[at + n..]
  {
    s[..at] + s[at + n..]
  }

  /** The value and selection that wrapping the selection `[start, end)` of
      `v` in `startTag` and `endTag` produces: afterwards either the caret
      sits right after `startTag` (an empty selection) or the selection runs
      from there over as many characters as were selected. */
  function Wrap(v: string, start: nat, end: nat, startTag: string, endTag: string): (r: Field)
    requires start <= end <= |v|
    ensures WellFormed(r)
    ensures |r.value| == |v| + |startTag| + |endTag|
    ensures r.selStart == start + |startTag|
    ensures r.selEnd - r.selStart == end - start
    ensures start == end ==> r.selStart == r.selEnd == start + |startTag|
  {
    var selectedText := v[start..end];
    var caret := start + |startTag|;
    var newCursorPos := start + |startTag| + |selectedText|;
    var value := v[..start] + startTag + selectedText + endTag + v[end..];
    if start == end then Field(value, caret, caret) else Field(value, caret, newCursorPos)
  }

  /** Where everything lands in the wrapped value: the text before the
      selection stays in front, `startTag` follows, the new selection holds
      exactly the originally selected text, `endTag` comes right after it and
      the text after the selection closes the value. */
  lemma WrapLayout(v: string, start: nat, end: nat, startTag: string, endTag: string)
    requires start <= end <= |v|
    ensures var r := Wrap(v, start, end, startTag, endTag);
            && r.value[..start] == v[..start]
            && r.value[start..r.selStart] == startTag
            && r.value[r.selStart..r.selEnd] == v[start..end]
            && r.value[r.selEnd..r.selEnd + |endTag|] == endTag
            && r.value[r.selEnd + |endTag|..] == v[end..]
  {
    var r := Wrap(v, start, end, startTag, endTag);
    var value := v[..start] + startTag + v[start..end] + endTag + v[end..];
    assert r.value == value;
    var caret := start + |startTag|;
    var after := caret + (end - start);
    assert value[..start] == v[..start];
    assert value[start..caret] == startTag;
    assert value[caret..after] == v[start..end];
    assert value[after..after + |endTag|] == endTag;
    assert value[after + |endTag|..] == v[end..];
  }

  /** Deleting the end tag after the new selection and then the start tag
      before it gives back the original value: wrapping only adds the tags. */
  lemma WrapThenDeleteTags(v: string, start: nat, end: nat, startTag: string, endTag: string)
    requires start <= end <= |v|
    ensures var r := Wrap(v, start, end, startTag, endTag);
            var once := Delete(r.value, r.selEnd, |endTag|);
            start + |startTag| <= |once| &&
            Delete(once, start, |startTag|) == v
  {
    WrapLayout(v, start, end, startTag, endTag);
    var r := Wrap(v, start, end, startTag, endTag);
    var once := Delete(r.value, r.selEnd, |endTag|);
    assert once[..r.selEnd] == r.value[..r.selEnd];
    assert once[r.selEnd..] == v[end..];
    var twice := Delete(once, start, |startTag|);
    assert twice[..start] == v[..start];
    assert twice[start..] == once[r.selStart..];
    assert once[r.selStart..] == r.value[r.selStart..r.selEnd] + once[r.selEnd..];
    assert v == v[..start] + v[start..end] + v[end..];
    assert twice == twice[..start] + twice[start..];
  }

  /** `Wrap` as the text box computes it: the selection is replaced by the
      tagged text, and the new selection runs from after `startTag` over as
      many characters as were selected. */
  lemma WrapAsRangeText(v: string, start: nat, end: nat, startTag: string, endTag: string)
    requires start <= end <= |v|
    ensures Wrap(v, start, end, startTag, endTag)
            == Field(v[..start] + (startTag + v[start..end] + endTag) + v[end..],
                     start + |startTag|, start + |startTag| + (end - start))
  {
    assert v[..start] + (startTag + v[start..end] + endTag) + v[end..]
        == v[..start] + startTag + v[start..end] + endTag + v[end..];
  }

  /** Wrapping again with another pair of tags keeps the same text selected:
      pressing several format buttons in a row nests their tags around it. */
  lemma WrapTwiceKeepsSelection(v: string, start: nat, end: nat,
                                startTag: string, endTag: string,
                                outerStart: string, outerEnd: string)
    requires start <= end <= |v|
    ensures var r := Wrap(v, start, end, startTag, endTag);
            var r2 := Wrap(r.value, r.selStart, r.selEnd, outerStart, outerEnd);
            r2.value[r2.selStart..r2.selEnd] == v[start..end] &&
            r2.selStart == start + |startTag| + |outerStart|
  {
    var r := Wrap(v, start, end, startTag, endTag);
    WrapLayout(v, start, end, startTag, endTag);
    WrapLayout(r.value, r.selStart, r.selEnd, outerStart, outerEnd);
  }

  /** The chat text box (`send_textarea`): its value, its selection and
      whether it has the focus. */
  class TextArea {
    var value: string
    var selectionStart: nat
    var selectionEnd: nat
    var focused: bool

    ghost predicate Valid()
      reads this
    {
      WellFormed(Snapshot())
    }

    /** The value and selection of the box. */
    function Snapshot(): Field
      reads this
    {
      Field(value, selectionStart, selectionEnd)
    }

    constructor (value: string, start: nat, end: nat)
      requires start <= end <= |value|
      ensures Valid() && Snapshot() == Field(value, start, end) && !focused
    {
      this.value := value;
      this.selectionStart := start;
      this.selectionEnd := end;
      this.focused := false;
    }

    /** Gives the box the focus; value and selection stay. */
    method Focus()
      requires Valid()
      modifies this
      ensures Valid() && focused && Snapshot() == old(Snapshot())
    {
      focused := true;
    }

    /** Replaces the characters `[start, end)` by `replacement` and selects
      the replacement (`setRangeText` in `'select'` mode). */
    method SetRangeText(replacement: string, start: nat, end: nat)
      requires Valid() && start <= end <= |value|
      modifies this
      ensures Valid() && focused == old(focused)
      ensures value == old(value)[..start] + replacement + old(value)[end..]
      ensures selectionStart == start && selectionEnd == start + |replacement|
    {
      value := value[..start] + replacement + value[end..];
      selectionStart := start;
      selectionEnd := start + |replacement|;
    }

    /** Sets the selection, clamping an end past the value to its length and
        a start past the end to the end (`setSelectionRange`). */
    method SetSelectionRange(start: nat, end: nat)
      requires Valid()
      modifies this
      ensures Valid() && value == old(value) && focused == old(focused)
      ensures selectionEnd == if end <= |value| then end else |value|
      ensures selectionStart == if start <= selectionEnd then start else selectionEnd
    {
      selectionEnd := if end <= |value| then end else |value|;
      selectionStart := if start <= selectionEnd then start else selectionEnd;
    }
  }

  /** One button of the toolbar: its caption, the tags it inserts and its
      tooltip. */
  datatype ButtonConfig = ButtonConfig(caption: string, startTag: string, endTag: string, title: string)

  /** The four buttons the toolbar is built with. */
  const Buttons: seq<ButtonConfig> := [
    ButtonConfig("*", "*", "*", "Action / Description"),
    ButtonConfig("\"\"", "\"", "\"", "Dialogue"),
    ButtonConfig("(OOC)", "(OOC: ", ")", "Out Of Character"),
    ButtonConfig("```", "```", "```", "Thoughts / Code")
  ]

  /** The dialogue button on `hello *world*` with `world` selected quotes
      the word and keeps it selected. */
  lemma DialogueButtonExample()
    ensures Wrap("hello *world*", 7, 12, Buttons[1].startTag, Buttons[1].endTag)
            == Field("hello *\"world\"*", 8, 13)
  {
    assert "hello *world*"[..7] == "hello *";
    assert "hello *world*"[7..12] == "world";
    assert "hello *world*"[12..] == "*";
  }
}
