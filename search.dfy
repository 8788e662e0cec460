/**
 * The case-insensitive substring test shared by the search boxes of the
 * chat, user and permission pages: `text.toLowerCase().includes(query.toLowerCase())`.
 */
module Search {
  import opened Text

  predicate Matches(text: string, query: string)
  {
    Includes(Lower(text), Lower(query))
  }

  /** Lower-casing distributes over concatenation. */
  lemma LowerAppend(a: string, b: string)
    ensures Lower(a + b) == Lower(a) + Lower(b)
  {
    assert forall i :: 0 <= i < |a + b| ==> Lower(a + b)[i] == (Lower(a) + Lower(b))[i];
  }

  /** A text containing `q + more` contains `q`. */
  lemma IncludesPrefix(s: string, q: string, more: string)
    ensures Includes(s, q + more) ==> Includes(s, q)
  {
    if Includes(s, q + more) {
      var i: nat :| OccursAt(s, q + more, i);
      assert s[i..i + |q|] == s[i..i + |q + more|][..|q|];
      assert OccursAt(s, q, i);
    }
  }

  /** Typing more characters into the search box can only narrow what matches. */
  lemma NarrowingQuery(text: string, q: string, more: string)
    ensures Matches(text, q + more) ==> Matches(text, q)
  {
    LowerAppend(q, more);
    IncludesPrefix(Lower(text), Lower(q), Lower(more));
  }

  /** The case of the query does not matter. */
  lemma QueryCase(text: string, q: string)
    ensures Matches(text, Lower(q)) <==> Matches(text, q)
  {
    LowerIdempotent(q);
  }

  /** The case of the text does not matter either. */
  lemma TextCase(text: string, q: string)
    ensures Matches(Lower(text), q) <==> Matches(text, q)
  {
    LowerIdempotent(text);
  }
}
