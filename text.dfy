/**
 * Case-insensitive substring matching, the meaning the search handler gives
 * to its query: a literal piece of text looked for in a field, letters
 * compared without regard to case.
 */
module Text {

  /** The lower-case form of an ASCII letter; every other character is its own. */
  function Lower(c: char): char
  {
    if 'A' <= c <= 'Z' then (c as int + 32) as char else c
  }

  /** The specification: `q` occurs in `text` starting at offset `i`, up to case. */
  ghost predicate OccursAt(text: string, q: string, i: int)
  {
    0 <= i && i + |q| <= |text| &&
    forall k :: 0 <= k < |q| ==> Lower(text[i + k]) == Lower(q[k])
  }

  /** `text` begins with `q`, up to case. */
  predicate StartsWithIgnoreCase(text: string, q: string)
  {
    q == [] ||
    (text != [] && Lower(text[0]) == Lower(q[0]) && StartsWithIgnoreCase(text[1..], q[1..]))
  }

  /** `q` occurs somewhere in `text`, up to case. */
  predicate ContainsIgnoreCase(text: string, q: string)
  {
    StartsWithIgnoreCase(text, q) || (text != [] && ContainsIgnoreCase(text[1..], q))
  }

  lemma {:induction false} StartsWithIgnoreCaseSpec(text: string, q: string)
    ensures StartsWithIgnoreCase(text, q) <==> OccursAt(text, q, 0)
  {
    if q != [] && text != [] {
      StartsWithIgnoreCaseSpec(text[1..], q[1..]);
      if OccursAt(text, q, 0) {
        assert forall k :: 0 <= k < |q| - 1 ==> text[1..][k] == text[k + 1] && q[1..][k] == q[k + 1];
        assert OccursAt(text[1..], q[1..], 0);
      }
      if StartsWithIgnoreCase(text, q) {
        forall k | 0 <= k < |q| ensures Lower(text[k]) == Lower(q[k]) {
          if k > 0 {
            assert text[1..][k - 1] == text[k] && q[1..][k - 1] == q[k];
          }
        }
      }
    }
  }

  lemma OccursAtShift(text: string, q: string, i: int)
    requires text != [] && i >= 1
    ensures OccursAt(text, q, i) <==> OccursAt(text[1..], q, i - 1)
  {
    if OccursAt(text[1..], q, i - 1) {
      forall k | 0 <= k < |q| ensures Lower(text[i + k]) == Lower(q[k]) {
        assert text[1..][i - 1 + k] == text[i + k];
      }
    }
  }

  /** The search predicate means exactly "the query occurs at some offset, up to case". */
  lemma {:induction false} ContainsIgnoreCaseSpec(text: string, q: string)
    ensures ContainsIgnoreCase(text, q) <==> exists i :: OccursAt(text, q, i)
  {
    StartsWithIgnoreCaseSpec(text, q);
    if text == [] {
      if exists i :: OccursAt(text, q, i) {
        var i :| OccursAt(text, q, i);
        assert i == 0;
      }
    } else {
      ContainsIgnoreCaseSpec(text[1..], q);
      if ContainsIgnoreCase(text, q) && !StartsWithIgnoreCase(text, q) {
        var j :| OccursAt(text[1..], q, j);
        OccursAtShift(text, q, j + 1);
      }
      if exists i :: OccursAt(text, q, i) {
        var i :| OccursAt(text, q, i);
        if i > 0 {
          OccursAtShift(text, q, i);
        }
      }
    }
  }

  /** A query whose first letter appears nowhere in the text, in either case, does not match it. */
  lemma MissingLetterNoMatch(text: string, q: string)
    requires q != []
    requires forall k :: 0 <= k < |text| ==> Lower(text[k]) != Lower(q[0])
    ensures !ContainsIgnoreCase(text, q)
  {
    ContainsIgnoreCaseSpec(text, q);
    forall i ensures !OccursAt(text, q, i) {
      if 0 <= i && i + |q| <= |text| {
        assert Lower(text[i + 0]) != Lower(q[0]);
      }
    }
  }
}
