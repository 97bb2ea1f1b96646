/** The string operations the builder relies on: Python's `str.upper()`
    (restricted to ASCII letters) and `str.startswith('$')`. */
module Text {

  /** Upper-case of one character; only `a`..`z` change. */
  function UpperChar(c: char): char {
    if 'a' <= c <= 'z' then (c as int - 32) as char else c
  }

  /** `s.upper()`, character by character. */
  function Upper(s: string): string {
    seq(|s|, i requires 0 <= i < |s| => UpperChar(s[i]))
  }

  /** Independent definition of "equals NONE ignoring case". */
  predicate IsNoneIgnoringCase(s: string) {
    |s| == 4 && s[0] in "nN" && s[1] in "oO" && s[2] in "nN" && s[3] in "eE"
  }

  lemma UpperCharIs(c: char, u: char)
    requires 'A' <= u <= 'Z'
    ensures UpperChar(c) == u <==> c == u || c == (u as int + 32) as char
  {
  }

  /** `s.upper() == 'NONE'` exactly when `s` spells "none" in any mix of cases. */
  lemma UpperIsNone(s: string)
    ensures Upper(s) == "NONE" <==> IsNoneIgnoringCase(s)
  {
    if |s| == 4 {
      UpperCharIs(s[0], 'N');
      UpperCharIs(s[1], 'O');
      UpperCharIs(s[2], 'N');
      UpperCharIs(s[3], 'E');
      if Upper(s) == "NONE" {
        assert Upper(s)[0] == 'N' && Upper(s)[1] == 'O' && Upper(s)[2] == 'N' && Upper(s)[3] == 'E';
      }
      if IsNoneIgnoringCase(s) {
        assert Upper(s) == "NONE";
      }
    } else {
      assert |Upper(s)| != |"NONE"|;
    }
  }

  /** `name.startswith('$')`: the scalar-variable sigil. */
  predicate IsScalarName(name: string) {
    |name| > 0 && name[0] == '$'
  }
}
