/** The form label: its target is the raw label and its text has the first letter upper-cased. */
module Label {
  import opened Theme

  predicate IsLowerAscii(c: char) { 'a' <= c <= 'z' }

  /** `toUpperCase` on one character, over ASCII. */
  function UpperChar(c: char): (r: char)
    ensures !IsLowerAscii(r)
    ensures LowerChar(r) == LowerChar(c)
    ensures !IsLowerAscii(c) ==> r == c
  {
    if IsLowerAscii(c) then (c as int - 'a' as int + 'A' as int) as char else c
  }

  /** `charAt(0).toUpperCase() + slice(1)`: the empty label stays empty. */
  function Capitalize(caption: string): (r: string)
    ensures |r| == |caption|
    ensures forall i :: 0 < i < |r| ==> r[i] == caption[i]
    ensures r != [] ==> !IsLowerAscii(r[0]) && LowerChar(r[0]) == LowerChar(caption[0])
    ensures r != [] && !IsLowerAscii(caption[0]) ==> r[0] == caption[0]
  {
    if caption == "" then "" else [UpperChar(caption[0])] + caption[1..]
  }

  /** Capitalising twice is capitalising once. */
  lemma CapitalizeIdempotent(caption: string)
    ensures Capitalize(Capitalize(caption)) == Capitalize(caption)
  {
  }

  /** Capitalising only changes the case of the label: lower-cased, the text is the label's. */
  lemma CapitalizeKeepsLetters(caption: string)
    ensures Lower(Capitalize(caption)) == Lower(caption)
  {
    var r := Capitalize(caption);
    assert forall i :: 0 <= i < |r| ==> LowerChar(r[i]) == LowerChar(caption[i]);
  }

  /** The rendered label. */
  datatype LabelView = LabelView(htmlFor: string, text: string)

  function LabelComponent(caption: string): (r: LabelView)
    ensures r.htmlFor == caption
    ensures r.text == Capitalize(caption)
  {
    LabelView(caption, Capitalize(caption))
  }
}
