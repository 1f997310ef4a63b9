/** The on/off decision that SwitchOnOff makes from the free-form string
    payload of a "set input" command. A payload "0", or one that reads
    "off" or "false" in any mix of upper and lower case, switches OFF;
    every other string, including the empty one, switches ON. Nothing is
    trimmed, and the decision never fails.
 */
module Payload {

  predicate IsUpper(c: char) {
    'A' <= c <= 'Z'
  }

  predicate IsLower(c: char) {
    'a' <= c <= 'z'
  }

  /** Lower-case folding of one character, as strings.ToLower does it for
      ASCII: 'A'..'Z' become 'a'..'z', everything else is kept. */
  function LowerChar(c: char): char {
    if IsUpper(c) then (c as int + 32) as char else c
  }

  /** Upper-case partner of a lower-case ASCII letter. */
  function UpperChar(c: char): (r: char)
    requires IsLower(c)
    ensures IsUpper(r) && LowerChar(r) == c
  {
    (c as int - 32) as char
  }

  /** strings.ToLower over the characters of the payload. */
  function ToLower(s: string): (r: string)
    ensures |r| == |s|
    ensures forall i :: 0 <= i < |s| ==> r[i] == LowerChar(s[i])
  {
    if s == [] then [] else [LowerChar(s[0])] + ToLower(s[1..])
  }

  /** A word made of lower-case letters only, such as "off" and "false". */
  predicate IsLowerWord(w: string) {
    forall i :: 0 <= i < |w| ==> IsLower(w[i])
  }

  /** Reference definition of "s spells w in any casing": s has w's length
      and each of its characters is the letter of w at that place, written
      either in lower or in upper case. It does not mention ToLower. */
  predicate SpellsInAnyCase(s: string, w: string)
    requires IsLowerWord(w)
  {
    |s| == |w| && forall i :: 0 <= i < |s| ==> s[i] == w[i] || s[i] == UpperChar(w[i])
  }

  /** The payloads that mean OFF, stated without ToLower. */
  predicate IsOffPayload(s: string) {
    s == "0" || SpellsInAnyCase(s, "off") || SpellsInAnyCase(s, "false")
  }

  /** Lower-casing a string gives a lower-case word exactly when the
      string spells that word in some casing. */
  lemma LowerEqualsWordIff(s: string, w: string)
    requires IsLowerWord(w)
    ensures ToLower(s) == w <==> SpellsInAnyCase(s, w)
  {
  }

  /** The payload mapping of SwitchOnOff: true means ON. */
  function ParseOnOff(onOffString: string): (on: bool)
    ensures !on <==> IsOffPayload(onOffString)
  {
    LowerEqualsWordIff(onOffString, "off");
    LowerEqualsWordIff(onOffString, "false");
    !(onOffString == "0" || ToLower(onOffString) == "off" || ToLower(onOffString) == "false")
  }

  /** The spellings named in SwitchOnOff's doc comment, and other casings
      of them, switch OFF. */
  lemma OffPayloads()
    ensures !ParseOnOff("0") && !ParseOnOff("off") && !ParseOnOff("OFF") && !ParseOnOff("oFf")
    ensures !ParseOnOff("false") && !ParseOnOff("False") && !ParseOnOff("FALSE")
  {
  }

  /** The liberal-ON policy: anything else switches ON, including the empty
      payload and a payload with a surrounding space. */
  lemma OnPayloads()
    ensures ParseOnOff("") && ParseOnOff("1") && ParseOnOff("on") && ParseOnOff("true")
    ensures ParseOnOff(" off") && ParseOnOff("off ") && ParseOnOff("00") && ParseOnOff("anything-else")
  {
  }

  /** Payloads that agree up to the casing of ASCII letters switch the same
      way: the matching is case-insensitive. */
  lemma CaseInsensitive(s: string, t: string)
    requires |s| == |t|
    requires forall i :: 0 <= i < |s| ==> LowerChar(s[i]) == LowerChar(t[i])
    ensures ParseOnOff(s) == ParseOnOff(t)
  {
  }

  /** The characters an OFF payload can be made of. */
  const OffAlphabet: set<char> := {'0', 'o', 'f', 'a', 'l', 's', 'e', 'O', 'F', 'A', 'L', 'S', 'E'}

  /** An OFF payload has length 1, 3 or 5 and uses only the characters of
      "0", "off" and "false" in either case; so a payload holding any other
      character (a space, a digit other than 0, ...) switches ON. */
  lemma OffPayloadShape(s: string)
    ensures !ParseOnOff(s) ==> |s| in {1, 3, 5}
    ensures !ParseOnOff(s) ==> forall i :: 0 <= i < |s| ==> s[i] in OffAlphabet
  {
  }
}
