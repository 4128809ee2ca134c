/** Strings as sequences of characters, and Java's String.contains on them. */
module Text {

  type String = seq<char>

  /** `w` occurs in `s` starting at index `i`. */
  predicate OccursAt(s: String, w: String, i: int)
  {
    0 <= i && i + |w| <= |s| && s[i..i + |w|] == w
  }

  /** `s` begins with `w`. */
  predicate StartsWith(s: String, w: String)
  {
    |w| <= |s| && s[..|w|] == w
  }

  /**
   * Case-sensitive substring test, as String.contains: try every start
   * position from the left; the empty word is found at position 0.
   */
  predicate Contains(s: String, w: String)
    decreases |s|
  {
    StartsWith(s, w) || (s != [] && Contains(s[1..], w))
  }

  /** Contains agrees with the positional definition of an occurrence. */
  lemma {:induction false} ContainsIffOccurs(s: String, w: String)
    ensures Contains(s, w) <==> exists i :: OccursAt(s, w, i)
    decreases |s|
  {
    if StartsWith(s, w) {
      assert OccursAt(s, w, 0);
    } else if s != [] {
      ContainsIffOccurs(s[1..], w);
      if Contains(s[1..], w) {
        var i :| OccursAt(s[1..], w, i);
        assert s[1..][i..i + |w|] == s[i + 1..i + 1 + |w|];
        assert OccursAt(s, w, i + 1);
      }
      if exists i :: OccursAt(s, w, i) {
        var i :| OccursAt(s, w, i) && i != 0;
        assert s[1..][i - 1..i - 1 + |w|] == s[i..i + |w|];
        assert OccursAt(s[1..], w, i - 1);
      }
    }
  }

  /** The empty word is contained in every string. */
  lemma EmptyWordContained(s: String)
    ensures Contains(s, [])
  {
  }

  /** A word longer than the string is never contained in it. */
  lemma {:induction false} LongerWordNotContained(s: String, w: String)
    requires |w| > |s|
    ensures !Contains(s, w)
    decreases |s|
  {
    if s != [] {
      LongerWordNotContained(s[1..], w);
    }
  }

  /** A word contained in a string stays contained when the string is extended on either side. */
  lemma {:induction false} ContainedInExtension(s: String, w: String, pre: String, post: String)
    requires Contains(s, w)
    ensures Contains(pre + s + post, w)
  {
    ContainsIffOccurs(s, w);
    var i :| OccursAt(s, w, i);
    var t := pre + s + post;
    assert t[|pre| + i..|pre| + i + |w|] == s[i..i + |w|];
    assert OccursAt(t, w, |pre| + i);
    ContainsIffOccurs(t, w);
  }
}
