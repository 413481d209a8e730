/** `capitalize` of js/app.js, used to title a food family's tab. */
module Text {

  /** `text.charAt(0).toUpperCase() + text.slice(1)`, with the per-character
      upper-casing given as `upper`. */
  function Capitalize(text: string, upper: char -> char): (r: string)
    ensures |r| == |text|
    ensures text == [] ==> r == []
    ensures text != [] ==> r[0] == upper(text[0]) && r[1..] == text[1..]
  {
    if text == [] then [] else [upper(text[0])] + text[1..]
  }

  /** Capitalizing twice is capitalizing once, when upper-casing the first
      character is itself idempotent. */
  lemma CapitalizeIdempotent(text: string, upper: char -> char)
    requires text != [] ==> upper(upper(text[0])) == upper(text[0])
    ensures Capitalize(Capitalize(text, upper), upper) == Capitalize(text, upper)
  {
  }

  /** A text whose first character is already upper case is left unchanged. */
  lemma CapitalizeKeepsCapitalized(text: string, upper: char -> char)
    requires text != [] ==> upper(text[0]) == text[0]
    ensures Capitalize(text, upper) == text
  {
  }

  /** Upper-casing restricted to the ASCII letters, enough for the family
      names the page uses ("cereales", "verduras", ...). */
  function AsciiUpper(c: char): (u: char)
    ensures !('a' <= u <= 'z')
    ensures 'a' <= c <= 'z' ==> 'A' <= u <= 'Z' && u as int - 'A' as int == c as int - 'a' as int
    ensures !('a' <= c <= 'z') ==> u == c
  {
    if 'a' <= c <= 'z' then (c as int - 'a' as int + 'A' as int) as char else c
  }

  /** With ASCII upper-casing, the title of a family is capitalized once and for all. */
  lemma AsciiCapitalizeIdempotent(text: string)
    ensures Capitalize(Capitalize(text, AsciiUpper), AsciiUpper) == Capitalize(text, AsciiUpper)
  {
    CapitalizeIdempotent(text, AsciiUpper);
  }

  /** The tab title of the initial family: "cereales" becomes "Cereales". */
  lemma CerealesTitle()
    ensures Capitalize("cereales", AsciiUpper) == "Cereales"
  {
  }
}
