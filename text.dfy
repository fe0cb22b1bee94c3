/** Case folding and substring search on strings, as Chatbot.py uses them
    through Python's `str.lower()` and the `in` operator on strings. */
module Text {

  /** Lower-cases one character. Besides 'A'..'Z' this maps KELVIN SIGN (U+212A)
      to 'k', the only other single character whose Python lower-case form is an
      ASCII letter; every other character is kept as it is. */
  function LowerChar(c: char): char
  {
    if 'A' <= c <= 'Z' then (c as int + 32) as char
    else if c == '\U{212A}' then 'k'
    else c
  }

  /** `s.lower()`, character by character. */
  function Lower(s: string): (r: string)
    ensures |r| == |s|
    ensures forall i :: 0 <= i < |s| ==> r[i] == LowerChar(s[i])
  {
    if s == [] then [] else [LowerChar(s[0])] + Lower(s[1..])
  }

  predicate IsLowerLetter(c: char)
  {
    'a' <= c <= 'z'
  }

  /** A keyword or command word: a non-empty run of lower-case ASCII letters. */
  predicate IsWord(w: string)
  {
    |w| > 0 && forall j :: 0 <= j < |w| ==> IsLowerLetter(w[j])
  }

  /** No character of `u` becomes a lower-case ASCII letter when lower-cased. */
  predicate LetterFree(u: string)
  {
    forall j :: 0 <= j < |u| ==> !IsLowerLetter(LowerChar(u[j]))
  }

  /** `w` occurs in `s` starting at index `i`. */
  predicate OccursAt(s: string, w: string, i: int)
  {
    0 <= i <= |s| - |w| && s[i..i + |w|] == w
  }

  /** Python's `w in s` for strings (true for the empty `w`). */
  function Contains(s: string, w: string): bool
    decreases |s|
  {
    if |w| > |s| then false
    else if s[..|w|] == w then true
    else Contains(s[1..], w)
  }

  /** `Contains` is substring search: it holds exactly when `w` occurs somewhere in `s`. */
  lemma {:induction false} ContainsIff(s: string, w: string)
    ensures Contains(s, w) <==> exists i :: OccursAt(s, w, i)
    decreases |s|
  {
    if |w| > |s| {
    } else if s[..|w|] == w {
      assert OccursAt(s, w, 0);
    } else {
      ContainsIff(s[1..], w);
      if Contains(s[1..], w) {
        var i :| OccursAt(s[1..], w, i);
        assert s[1..][i..i + |w|] == s[i + 1..i + 1 + |w|];
        assert OccursAt(s, w, i + 1);
      }
      if i :| OccursAt(s, w, i) {
        assert i != 0;
        assert s[1..][i - 1..i - 1 + |w|] == s[i..i + |w|];
        assert OccursAt(s[1..], w, i - 1);
      }
    }
  }

  /** Lower-casing distributes over concatenation. */
  lemma LowerAppend(a: string, b: string)
    ensures Lower(a + b) == Lower(a) + Lower(b)
  {
    var l, r := Lower(a + b), Lower(a) + Lower(b);
    assert |l| == |r|;
    forall i | 0 <= i < |l| ensures l[i] == r[i] {
      if i < |a| {
        assert (a + b)[i] == a[i];
      } else {
        assert (a + b)[i] == b[i - |a|];
      }
    }
  }

  /** Lower-casing twice is lower-casing once. */
  lemma LowerIdempotent(s: string)
    ensures Lower(Lower(s)) == Lower(s)
  {
    var l := Lower(s);
    forall i | 0 <= i < |l| ensures Lower(l)[i] == l[i] {
    }
  }

  /** An occurrence in `a` is an occurrence in `a + b`. */
  lemma OccursInPrefix(a: string, b: string, w: string, i: int)
    requires OccursAt(a, w, i)
    ensures OccursAt(a + b, w, i)
  {
    assert (a + b)[i..i + |w|] == a[i..i + |w|];
  }

  /** An occurrence of a word in `a + b`, where `b` holds no character a-z,
      lies inside `a`. */
  lemma OccursBeforeLetterFree(a: string, b: string, w: string, i: int)
    requires IsWord(w) && forall j :: 0 <= j < |b| ==> !IsLowerLetter(b[j])
    requires OccursAt(a + b, w, i)
    ensures OccursAt(a, w, i)
  {
    var last := i + |w| - 1;
    assert (a + b)[i..i + |w|][|w| - 1] == (a + b)[last];
    assert IsLowerLetter((a + b)[last]);
    assert last < |a|;
    assert (a + b)[i..i + |w|] == a[i..i + |w|];
  }

  /** Appending text none of whose characters lower-cases to a-z to `t` neither creates nor
      destroys an occurrence of a word in the lower-cased text: an occurrence that
      reached into the appended part would end on a character that is not in a-z. */
  lemma LetterFreeAppendKeepsWords(t: string, u: string, w: string)
    requires IsWord(w) && LetterFree(u)
    ensures Contains(Lower(t + u), w) <==> Contains(Lower(t), w)
  {
    var lt, lu := Lower(t), Lower(u);
    LowerAppend(t, u);
    ContainsIff(lt + lu, w);
    ContainsIff(lt, w);
    if i :| OccursAt(lt, w, i) {
      OccursInPrefix(lt, lu, w, i);
    }
    if i :| OccursAt(lt + lu, w, i) {
      OccursBeforeLetterFree(lt, lu, w, i);
    }
  }
}
