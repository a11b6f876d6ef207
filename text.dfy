/** Option, and the two string operations the page's JavaScript relies on:
    `toLowerCase` (restricted to ASCII) and `includes` (substring search). */
module Text {

  datatype Option<+T> = None | Some(value: T)

  predicate IsUpper(c: char) {
    'A' <= c <= 'Z'
  }

  /** `String.prototype.toLowerCase` on one character, ASCII letters only. */
  function LowerChar(c: char): char {
    if IsUpper(c) then (c as int + 32) as char else c
  }

  /** `String.prototype.toLowerCase`, ASCII letters only. */
  function Lower(s: string): (r: string)
    ensures |r| == |s|
    ensures forall i :: 0 <= i < |r| ==> !IsUpper(r[i])
    ensures forall i :: 0 <= i < |r| && !IsUpper(s[i]) ==> r[i] == s[i]
    ensures forall i :: 0 <= i < |s| && IsUpper(s[i]) ==> r[i] == (s[i] as int + 32) as char
  {
    seq(|s|, i requires 0 <= i < |s| => LowerChar(s[i]))
  }

  /** `a` and `b` spell the same text up to the case of ASCII letters. */
  predicate SameUpToCase(a: string, b: string) {
    |a| == |b| && forall i :: 0 <= i < |a| ==> LowerChar(a[i]) == LowerChar(b[i])
  }

  /** Strings that differ only in the case of ASCII letters lower to the
      same string, and only they do. */
  lemma LowerEqualIffSameUpToCase(a: string, b: string)
    ensures Lower(a) == Lower(b) <==> SameUpToCase(a, b)
  {
    if Lower(a) == Lower(b) {
      forall i | 0 <= i < |a| ensures LowerChar(a[i]) == LowerChar(b[i]) {
        assert Lower(a)[i] == Lower(b)[i];
      }
    }
  }

  /** `needle` occurs in `hay` starting at position `i`. */
  predicate OccursAt(hay: string, needle: string, i: int) {
    0 <= i <= |hay| - |needle| && hay[i..i + |needle|] == needle
  }

  /** `hay.includes(needle)`: `needle` is a prefix of `hay` or of one of
      its suffixes.  A needle longer than the string is never found, and a
      prefix (the empty string, the string itself) always is. */
  predicate Contains(hay: string, needle: string): (r: bool)
    ensures r ==> |needle| <= |hay|
    ensures needle <= hay ==> r
    decreases |hay|
  {
    |needle| <= |hay| && (needle <= hay || Contains(hay[1..], needle))
  }

  /** The search finds the needle exactly when it occurs at some position. */
  lemma {:induction false} ContainsIffOccurs(hay: string, needle: string)
    ensures Contains(hay, needle) <==> exists i :: OccursAt(hay, needle, i)
    decreases |hay|
  {
    if |needle| > |hay| {
    } else if needle <= hay {
      assert OccursAt(hay, needle, 0);
    } else {
      var tail := hay[1..];
      ContainsIffOccurs(tail, needle);
      if i :| OccursAt(hay, needle, i) {
        assert i != 0;
        assert tail[i - 1..i - 1 + |needle|] == hay[i..i + |needle|];
        assert OccursAt(tail, needle, i - 1);
      }
      if j :| OccursAt(tail, needle, j) {
        assert tail[j..j + |needle|] == hay[j + 1..j + 1 + |needle|];
        assert OccursAt(hay, needle, j + 1);
      }
    }
  }
}
