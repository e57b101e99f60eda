/**
 * The string helpers of pkg/cliutls/util.go: token masking for display and
 * case-insensitive search for any of several substrings.
 */
module CliUtils {

  /** `n` copies of `c` (strings.Repeat). */
  function Repeat(c: char, n: nat): (r: string)
    ensures |r| == n
    ensures forall i :: 0 <= i < n ==> r[i] == c
  {
    if n == 0 then [] else [c] + Repeat(c, n - 1)
  }

  /** A token longer than 4 characters keeps its first 4 and has every
      other character replaced by '*'; a shorter one becomes "****". */
  function MaskToken(token: string): (r: string)
    ensures |token| > 4 ==> |r| == |token| && r[..4] == token[..4]
    ensures |token| > 4 ==> forall i :: 4 <= i < |r| ==> r[i] == '*'
    ensures |token| <= 4 ==> r == "****"
  {
    if |token| > 4 then token[..4] + Repeat('*', |token| - 4) else "****"
  }

  /** The mask depends on nothing but the first 4 characters and the
      length: no character after the fourth can be read from it. */
  lemma MaskHidesSuffix(a: string, b: string)
    requires |a| == |b|
    requires |a| > 4 ==> a[..4] == b[..4]
    ensures MaskToken(a) == MaskToken(b)
  {
    if |a| > 4 {
      var ma, mb := MaskToken(a), MaskToken(b);
      assert forall i :: 0 <= i < |ma| ==> ma[i] == mb[i] by {
        forall i | 0 <= i < |ma| ensures ma[i] == mb[i] {
          if i < 4 {
            assert ma[i] == ma[..4][i] == mb[..4][i] == mb[i];
          }
        }
      }
    }
  }

  /** Lower-casing of one character; letters outside ASCII are left as
      they are. */
  function ToLowerChar(c: char): (r: char)
    ensures 'A' <= c <= 'Z' ==> r as int == c as int + 32
    ensures !('A' <= c <= 'Z') ==> r == c
  {
    if 'A' <= c <= 'Z' then (c as int + 32) as char else c
  }

  function ToLower(s: string): (r: string)
    ensures |r| == |s|
    ensures forall i :: 0 <= i < |s| ==> r[i] == ToLowerChar(s[i])
  {
    seq(|s|, i requires 0 <= i < |s| => ToLowerChar(s[i]))
  }

  /** Lower-casing twice is lower-casing once. */
  lemma ToLowerIdempotent(s: string)
    ensures ToLower(ToLower(s)) == ToLower(s)
  {
    var l := ToLower(s);
    assert forall i :: 0 <= i < |l| ==> ToLowerChar(l[i]) == l[i];
  }

  /** `sub` occurs in `s` starting at position `i`. */
  predicate OccursAt(s: string, sub: string, i: int)
  {
    0 <= i <= |s| - |sub| && s[i..i + |sub|] == sub
  }

  /** strings.Contains: `sub` occurs in `s` at some position. */
  predicate HasSubstring(s: string, sub: string)
  {
    exists i :: 0 <= i <= |s| - |sub| && OccursAt(s, sub, i)
  }

  /** Some substring occurs in `s`, both lower-cased. */
  predicate ContainsAny(s: string, substrings: seq<string>)
  {
    exists j :: 0 <= j < |substrings| && HasSubstring(ToLower(s), ToLower(substrings[j]))
  }

  /** Contains: lower-cases `s`, then tries the substrings in order and
      stops at the first that occurs. */
  method Contains(s: string, substrings: seq<string>) returns (found: bool)
    ensures found <==> ContainsAny(s, substrings)
  {
    var lower := ToLower(s);
    for j := 0 to |substrings|
      invariant forall k :: 0 <= k < j ==> !HasSubstring(lower, ToLower(substrings[k]))
    {
      var substring := ToLower(substrings[j]);
      if HasSubstring(lower, substring) {
        return true;
      }
    }
    return false;
  }

  /** No substrings: never found. */
  lemma ContainsNothing(s: string)
    ensures !ContainsAny(s, [])
  {
  }

  /** The empty substring occurs in every string. */
  lemma ContainsEmptySubstring(s: string, substrings: seq<string>, j: nat)
    requires j < |substrings| && substrings[j] == ""
    ensures ContainsAny(s, substrings)
  {
    assert ToLower(substrings[j]) == [];
    assert OccursAt(ToLower(s), ToLower(substrings[j]), 0);
  }

  /** The search ignores the case of `s`. */
  lemma ContainsIgnoresCase(s: string, substrings: seq<string>)
    ensures ContainsAny(ToLower(s), substrings) <==> ContainsAny(s, substrings)
  {
    ToLowerIdempotent(s);
  }

  /** A substring found in `s` is still found once more substrings are
      given, in front or behind. */
  lemma ContainsMonotone(s: string, a: seq<string>, b: seq<string>)
    requires ContainsAny(s, a)
    ensures ContainsAny(s, a + b) && ContainsAny(s, b + a)
  {
    var j :| 0 <= j < |a| && HasSubstring(ToLower(s), ToLower(a[j]));
    assert (a + b)[j] == a[j];
    assert (b + a)[|b| + j] == a[j];
  }
}
