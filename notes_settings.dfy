/** The notes widget's settings form: alignment and placeholder buttons, the markdown box and the keybind. */
module NotesSettings {

  datatype Alignment = Left | Center | Right
  datatype PlaceholderStyle = IconPlaceholder | TextPlaceholder

  /** The fields of the notes settings that this form reads and writes. */
  datatype NotesData = NotesData(markdownEnabled: bool, textAlign: Alignment, iconAlign: Alignment,
                                 placeholderStyle: PlaceholderStyle, keyBind: string)

  /** The buttons of each alignment row, in order. */
  const Alignments: seq<Alignment> := [Left, Center, Right]

  /** The three buttons stand for three different alignments, and every alignment has one. */
  lemma AlignmentButtonsCoverAll(a: Alignment)
    ensures |Alignments| == 3 && a in Alignments
    ensures forall i, j :: 0 <= i < j < |Alignments| ==> Alignments[i] != Alignments[j]
  {
  }

  /** A button is highlighted (`primary`) when it shows the stored value. */
  predicate IsPrimary<T(==)>(button: T, stored: T) {
    button == stored
  }

  /** Exactly one button of an alignment row is highlighted. */
  lemma ExactlyOneAlignmentPrimary(stored: Alignment)
    ensures exists i :: 0 <= i < |Alignments| && IsPrimary(Alignments[i], stored)
    ensures forall i, j ::
      (0 <= i < |Alignments| && 0 <= j < |Alignments|
       && IsPrimary(Alignments[i], stored) && IsPrimary(Alignments[j], stored)) ==> i == j
  {
    match stored
    case Left => assert IsPrimary(Alignments[0], stored);
    case Center => assert IsPrimary(Alignments[1], stored);
    case Right => assert IsPrimary(Alignments[2], stored);
  }

  function SetMarkdownEnabled(d: NotesData, checked: bool): (r: NotesData)
    ensures r.markdownEnabled == checked
    ensures r.textAlign == d.textAlign && r.iconAlign == d.iconAlign
    ensures r.placeholderStyle == d.placeholderStyle && r.keyBind == d.keyBind
  {
    d.(markdownEnabled := checked)
  }

  function SetTextAlign(d: NotesData, a: Alignment): (r: NotesData)
    ensures IsPrimary(a, r.textAlign)
    ensures forall b :: IsPrimary(b, r.textAlign) ==> b == a
    ensures r.markdownEnabled == d.markdownEnabled && r.iconAlign == d.iconAlign
    ensures r.placeholderStyle == d.placeholderStyle && r.keyBind == d.keyBind
  {
    d.(textAlign := a)
  }

  function SetIconAlign(d: NotesData, a: Alignment): (r: NotesData)
    ensures IsPrimary(a, r.iconAlign)
    ensures forall b :: IsPrimary(b, r.iconAlign) ==> b == a
    ensures r.markdownEnabled == d.markdownEnabled && r.textAlign == d.textAlign
    ensures r.placeholderStyle == d.placeholderStyle && r.keyBind == d.keyBind
  {
    d.(iconAlign := a)
  }

  function SetPlaceholderStyle(d: NotesData, s: PlaceholderStyle): (r: NotesData)
    ensures IsPrimary(s, r.placeholderStyle)
    ensures IsPrimary(IconPlaceholder, r.placeholderStyle) <==> s == IconPlaceholder
    ensures IsPrimary(TextPlaceholder, r.placeholderStyle) <==> s == TextPlaceholder
    ensures r.markdownEnabled == d.markdownEnabled && r.textAlign == d.textAlign
    ensures r.iconAlign == d.iconAlign && r.keyBind == d.keyBind
  {
    d.(placeholderStyle := s)
  }

  function SetKeyBind(d: NotesData, key: string): (r: NotesData)
    ensures r.keyBind == key
    ensures r.markdownEnabled == d.markdownEnabled && r.textAlign == d.textAlign
    ensures r.iconAlign == d.iconAlign && r.placeholderStyle == d.placeholderStyle
  {
    d.(keyBind := key)
  }

  /** Choosing the alignment already stored changes nothing. */
  lemma ReselectIsNoOp(d: NotesData)
    ensures SetTextAlign(d, d.textAlign) == d
    ensures SetIconAlign(d, d.iconAlign) == d
    ensures SetPlaceholderStyle(d, d.placeholderStyle) == d
  {
  }
}
