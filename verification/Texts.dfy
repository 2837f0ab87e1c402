/** White space and trimming, as JavaScript's `trim` and \s have them. */
module Texts {
  /** The white space of `trim` and of the pattern \s. */
  predicate IsSpace(c: char) {
    || c in {'\t', '\n', '\r', ' ', '\U{0b}', '\U{0c}', '\U{a0}', '\U{1680}', '\U{2028}', '\U{2029}', '\U{202f}', '\U{205f}',
             '\U{3000}', '\U{feff}'}
    || '\U{2000}' <= c <= '\U{200a}'
  }

  function TrimStart(text: string): string {
    if text != "" && IsSpace(text[0]) then TrimStart(text[1..]) else text
  }

  function TrimEnd(text: string): string {
    if text != "" && IsSpace(text[|text| - 1]) then TrimEnd(text[..|text| - 1]) else text
  }

  function Trim(text: string): string {
    TrimEnd(TrimStart(text))
  }

  /** Not empty, and no white space at either end. */
  predicate IsSegment(text: string) {
    text != "" && !IsSpace(text[0]) && !IsSpace(text[|text| - 1])
  }

  lemma TrimStartTrims(text: string)
    ensures TrimStart(text) == "" || !IsSpace(TrimStart(text)[0])
  {
  }

  lemma TrimEndTrims(text: string)
    ensures TrimEnd(text) == "" || (!IsSpace(TrimEnd(text)[|TrimEnd(text)| - 1]) && TrimEnd(text)[0] == text[0])
  {
  }

  lemma TrimTrims(text: string)
    ensures Trim(text) == "" || IsSegment(Trim(text))
  {
    TrimStartTrims(text);
    TrimEndTrims(TrimStart(text));
  }
}
