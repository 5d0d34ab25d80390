/** ASCII letter case, as `toUpperCase`/`toLowerCase` act on the English
    keys and keywords the pages compare. */
module Ascii {

  predicate IsUpper(c: char) {
    'A' <= c <= 'Z'
  }

  predicate IsLower(c: char) {
    'a' <= c <= 'z'
  }

  function UpperChar(c: char): (u: char)
    ensures IsLower(c) ==> IsUpper(u) && u as int == c as int - 32
    ensures !IsLower(c) ==> u == c
  {
    if IsLower(c) then (c as int - 32) as char else c
  }

  function LowerChar(c: char): (l: char)
    ensures IsUpper(c) ==> IsLower(l) && l as int == c as int + 32
    ensures !IsUpper(c) ==> l == c
    ensures !IsUpper(l)
  {
    if IsUpper(c) then (c as int + 32) as char else c
  }

  /** Lower-casing undoes upper-casing on a lower-case letter. */
  lemma LowerUndoesUpper(c: char)
    requires IsLower(c)
    ensures LowerChar(UpperChar(c)) == c
  {
  }

  /** The string with every upper-case letter lowered and all else kept. */
  function ToLower(s: string): (r: string)
    ensures |r| == |s|
    ensures forall i :: 0 <= i < |s| ==> r[i] == LowerChar(s[i])
  {
    if s == [] then [] else [LowerChar(s[0])] + ToLower(s[1..])
  }

  /** A lowered string has no upper-case letter left, so lowering twice is
      lowering once. */
  lemma ToLowerIdempotent(s: string)
    ensures forall i :: 0 <= i < |s| ==> !IsUpper(ToLower(s)[i])
    ensures ToLower(ToLower(s)) == ToLower(s)
  {
  }
}
