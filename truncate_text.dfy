/** Word-boundary truncation of text (src/utils/truncateText.ts), an exported
    helper that no other file of the program calls. */
module Truncate {
  import opened Js

  const Ellipsis: string := "..."

  /** `truncateText(text, maxLength)`: text that fits is returned as it is;
      longer text is cut to `maxLength` characters, pulled back to the last
      space of that cut when the space is not at index 0, and marked with
      an ellipsis. The kept part never ends in the middle of a word unless
      the cut holds no usable space. */
  function TruncateText(text: string, maxLength: nat): (r: string)
    ensures |text| <= maxLength ==> r == text
    ensures |text| > maxLength ==>
      && |r| >= |Ellipsis| && r[|r| - |Ellipsis|..] == Ellipsis
      && |r| <= maxLength + |Ellipsis|
      && r[..|r| - |Ellipsis|] == text[..|r| - |Ellipsis|]
    ensures |text| > maxLength ==>
      var kept := |r| - |Ellipsis|;
      kept == maxLength || (0 < kept && text[kept] == ' ')
  {
    if |text| <= maxLength then text
    else
      var truncated := Slice(text, 0, maxLength);
      var lastSpaceIndex := LastIndexOf(truncated, ' ');
      var kept := if lastSpaceIndex > 0 then Slice(truncated, 0, lastSpaceIndex) else truncated;
      kept + Ellipsis
  }

  /** When the first `maxLength` characters hold a space after index 0, the
      cut lands exactly before the last such space. */
  lemma CutAtLastSpace(text: string, maxLength: nat, j: nat)
    requires |text| > maxLength
    requires 0 < j < maxLength && text[j] == ' '
    requires forall k :: j < k < maxLength ==> text[k] != ' '
    ensures TruncateText(text, maxLength) == text[..j] + Ellipsis
  {
  }

  /** When the cut holds no space, or only one at index 0, the whole cut of
      `maxLength` characters is kept. */
  lemma CutWithoutInnerSpace(text: string, maxLength: nat)
    requires |text| > maxLength
    requires forall k :: 0 < k < maxLength ==> text[k] != ' '
    ensures TruncateText(text, maxLength) == text[..maxLength] + Ellipsis
  {
  }
}
