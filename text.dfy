/** The two string operations the program applies to names coming from the
    API: Python's `str.title()` and `str.replace('-', ' ')`, restricted to ASCII. */
module Text {

  predicate IsUpper(c: char) { 'A' <= c <= 'Z' }
  predicate IsLower(c: char) { 'a' <= c <= 'z' }

  /** The cased characters of `str.title()`; in ASCII these are the letters. */
  predicate IsLetter(c: char) { IsUpper(c) || IsLower(c) }

  function Upper(c: char): char
  {
    if IsLower(c) then (c as int - 32) as char else c
  }

  function Lower(c: char): char
  {
    if IsUpper(c) then (c as int + 32) as char else c
  }

  /** Character `i` of the title-cased string: lower-cased when the character
      before it (or, for the first one, `afterLetter`) is cased, upper-cased
      otherwise. */
  function TitledAt(s: string, i: nat, afterLetter: bool): char
    requires i < |s|
  {
    if (if i == 0 then afterLetter else IsLetter(s[i - 1])) then Lower(s[i]) else Upper(s[i])
  }

  /** The character loop of `str.title()`, started in the state `afterLetter`
      (whether the character before `s` was cased). */
  function TitleAfter(s: string, afterLetter: bool): (r: string)
    ensures |r| == |s|
    ensures forall i :: 0 <= i < |s| ==> r[i] == TitledAt(s, i, afterLetter)
  {
    if s == [] then []
    else [if afterLetter then Lower(s[0]) else Upper(s[0])] + TitleAfter(s[1..], IsLetter(s[0]))
  }

  /** Python's `str.title()` on ASCII: a letter is upper case exactly when it
      starts the string or follows a non-letter; every other character is
      unchanged. So `Title("lightning-rod") == "Lightning-Rod"`. */
  function Title(s: string): (r: string)
    ensures |r| == |s|
    ensures forall i :: 0 <= i < |s| ==> r[i] == TitledAt(s, i, false)
  {
    TitleAfter(s, false)
  }

  /** Title-casing keeps every non-letter where it was, and a letter a letter. */
  lemma TitleKeepsNonLetters(s: string)
    ensures forall i :: 0 <= i < |s| ==> IsLetter(Title(s)[i]) == IsLetter(s[i])
    ensures forall i :: 0 <= i < |s| && !IsLetter(s[i]) ==> Title(s)[i] == s[i]
  {
  }

  /** Title-casing is idempotent. */
  lemma TitleIdempotent(s: string)
    ensures Title(Title(s)) == Title(s)
  {
  }

  /** `s.replace('-', ' ')`: every hyphen becomes a space, all else is kept. */
  function ReplaceHyphens(s: string): (r: string)
    ensures |r| == |s|
    ensures forall i :: 0 <= i < |s| ==> r[i] == if s[i] == '-' then ' ' else s[i]
    ensures '-' !in r
  {
    if s == [] then []
    else [if s[0] == '-' then ' ' else s[0]] + ReplaceHyphens(s[1..])
  }
}
