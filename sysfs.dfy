/**
 * `_read_text` of src/inkycal/ups.py and src/inkycal/network.py (the two
 * copies are identical): the contents of a sysfs attribute file, stripped,
 * with an unreadable file reading as "". A file is given by its contents,
 * `None` standing for an `OSError` on reading.
 */
module Sysfs {
  import opened Wrappers
  import opened Text

  function ReadText(content: Option<string>): (r: string)
    ensures content.None? ==> r == ""
    ensures content.Some? ==> r == Strip(content.value)
    ensures r == [] || (!IsSpace(r[0]) && !IsSpace(r[|r| - 1]))
  {
    match content
    case None => ""
    case Some(text) => Strip(text)
  }

  /** Reading a file whose contents are already stripped gives them back. */
  lemma ReadTextOfTrimmed(text: string)
    requires text == [] || (!IsSpace(text[0]) && !IsSpace(text[|text| - 1]))
    ensures ReadText(Some(text)) == text
  {
    StripOfTrimmed(text);
  }

  /** `Lower` keeps the first and last characters' whitespace status, so stripped text stays stripped. */
  lemma LowerKeepsTrimmed(s: string)
    requires s == [] || (!IsSpace(s[0]) && !IsSpace(s[|s| - 1]))
    ensures Strip(Lower(s)) == Lower(s)
  {
    StripOfTrimmed(Lower(s));
  }

  /** Lower-casing twice is lower-casing once. */
  lemma LowerIdempotent(s: string)
    ensures Lower(Lower(s)) == Lower(s)
  {
    LowerOfLowered(Lower(s));
  }
}
