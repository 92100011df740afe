/** Case folding and trimming of strings, for ASCII letters and white space. */
module Text {
  function LowerChar(c: char): char {
    if 'A' <= c <= 'Z' then (c as int + 32) as char else c
  }

  function Lower(s: string): (r: string)
    ensures |r| == |s|
  {
    seq(|s|, i requires 0 <= i < |s| => LowerChar(s[i]))
  }

  predicate IsSpace(c: char) {
    c in {' ', '\t', '\n', '\r'}
  }

  function Trim(s: string): (r: string)
    ensures |r| <= |s|
    ensures r == "" || (!IsSpace(r[0]) && !IsSpace(r[|r|-1]))
  {
    if s == "" then ""
    else if IsSpace(s[0]) then Trim(s[1..])
    else if IsSpace(s[|s|-1]) then Trim(s[..|s|-1])
    else s
  }

  /** A string without white space at its ends is not trimmed. */
  lemma TrimKeeps(s: string)
    requires s == "" || (!IsSpace(s[0]) && !IsSpace(s[|s|-1]))
    ensures Trim(s) == s
  {
  }

  /** What is left after trimming is a part of the string. */
  lemma {:induction false} TrimIsPart(s: string)
    ensures forall c <- Trim(s) :: c in s
    decreases |s|
  {
    if s != "" && IsSpace(s[0]) {
      TrimIsPart(s[1..]);
    } else if s != "" && IsSpace(s[|s|-1]) {
      TrimIsPart(s[..|s|-1]);
    }
  }
}
