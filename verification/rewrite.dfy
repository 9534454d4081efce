/** The document rewrite rule: the body the caller submitted, minus the
    percolate query, plus the percolate matches, is what gets indexed. */
module DocumentRewrite {
  import opened Json

  /** The reserved key holding the query to percolate; it is never indexed. */
  const QUERY: string := "query"

  /** The reserved key the percolate matches are stored under. */
  const PERCOSERT: string := "percosert"

  /** The document to index, given the submitted body and the percolate matches:
      `query` is gone, `percosert` holds the matches (replacing any value the
      caller put there, and present even when there are no matches), and every
      other key keeps its value. */
  function Rewrite(source: map<string, Value>, matches: seq<string>): (doc: map<string, Value>)
    ensures QUERY !in doc
    ensures PERCOSERT in doc && doc[PERCOSERT] == StringArray(matches)
    ensures doc.Keys == source.Keys - {QUERY} + {PERCOSERT}
    ensures forall k :: k in source && k != QUERY && k != PERCOSERT ==> doc[k] == source[k]
  {
    (source - {QUERY})[PERCOSERT := StringArray(matches)]
  }

  /** The three properties in Rewrite's contract determine the indexed document:
      any map that has them is the rewrite. */
  lemma RewriteCharacterised(source: map<string, Value>, matches: seq<string>, doc: map<string, Value>)
    requires QUERY !in doc
    requires PERCOSERT in doc && doc[PERCOSERT] == StringArray(matches)
    requires forall k :: k != QUERY && k != PERCOSERT ==> (k in doc <==> k in source)
    requires forall k :: k in source && k != QUERY && k != PERCOSERT ==> doc[k] == source[k]
    ensures doc == Rewrite(source, matches)
  {
    var r := Rewrite(source, matches);
    assert doc.Keys == r.Keys;
    forall k | k in doc
      ensures doc[k] == r[k]
    {
      if k != PERCOSERT {
        assert k in source;
      }
    }
  }

  /** What the caller put under `query` or `percosert` has no influence on the
      indexed document. */
  lemma RewriteIgnoresReservedKeys(s1: map<string, Value>, s2: map<string, Value>, matches: seq<string>)
    requires forall k :: k != QUERY && k != PERCOSERT ==> (k in s1 <==> k in s2)
    requires forall k :: k in s1 && k in s2 && k != QUERY && k != PERCOSERT ==> s1[k] == s2[k]
    ensures Rewrite(s1, matches) == Rewrite(s2, matches)
  {
    var r1, r2 := Rewrite(s1, matches), Rewrite(s2, matches);
    assert r1.Keys == r2.Keys;
    forall k | k in r1
      ensures r1[k] == r2[k]
    {
      if k != PERCOSERT {
        assert k in s1 && k in s2;
      }
    }
  }

  /** Rewriting an already rewritten document with the same matches changes nothing. */
  lemma RewriteIdempotent(source: map<string, Value>, matches: seq<string>)
    ensures Rewrite(Rewrite(source, matches), matches) == Rewrite(source, matches)
  {
    var once := Rewrite(source, matches);
    RewriteIgnoresReservedKeys(once, source, matches);
  }
}
