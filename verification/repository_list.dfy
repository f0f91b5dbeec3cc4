/**
 * The list logic shared by the three settings stores: the repository list is a
 * sequence of URLs, `AddRepositoryUrl` appends to it and `DeleteRepositoryUrl`
 * keeps every entry that differs from the deleted URL, in order.
 * `Without` is the value that deletion computes; the lemmas below are what a
 * caller may rely on about it.
 */
module RepositoryList {

  /** The repository list with every entry equal to `url` dropped. */
  function Without(repositories: seq<string>, url: string): (r: seq<string>)
    ensures |r| <= |repositories|
    ensures forall x :: x in r <==> x in repositories && x != url
  {
    if repositories == [] then []
    else if repositories[0] == url then Without(repositories[1..], url)
    else [repositories[0]] + Without(repositories[1..], url)
  }

  /** `sub` can be obtained from `s` by dropping entries, without reordering the rest. */
  ghost predicate SubsequenceOf(sub: seq<string>, s: seq<string>)
    decreases |s|
  {
    sub == [] ||
    (s != [] &&
     ((sub[0] == s[0] && SubsequenceOf(sub[1..], s[1..])) || SubsequenceOf(sub, s[1..])))
  }

  /** Deletion works entry by entry: it distributes over concatenation. */
  lemma {:induction false} WithoutConcat(a: seq<string>, b: seq<string>, url: string)
    ensures Without(a + b, url) == Without(a, url) + Without(b, url)
  {
    if a == [] {
      assert a + b == b;
    } else {
      assert (a + b)[1..] == a[1..] + b;
      WithoutConcat(a[1..], b, url);
    }
  }

  /** Deleting from a list extended by one entry: the entry survives exactly when it differs from `url`. */
  lemma WithoutSnoc(s: seq<string>, x: string, url: string)
    ensures Without(s + [x], url) == Without(s, url) + (if x == url then [] else [x])
  {
    WithoutConcat(s, [x], url);
  }

  /** The surviving entries keep their relative order. */
  lemma {:induction false} WithoutIsSubsequence(s: seq<string>, url: string)
    ensures SubsequenceOf(Without(s, url), s)
  {
    if s != [] {
      WithoutIsSubsequence(s[1..], url);
      if s[0] != url {
        assert Without(s, url)[1..] == Without(s[1..], url);
      }
    }
  }

  /** Every entry other than `url` is kept as many times as it occurred; `url` not at all. */
  lemma {:induction false} WithoutCounts(s: seq<string>, url: string)
    ensures multiset(Without(s, url)) == multiset(s)[url := 0]
  {
    if s != [] {
      WithoutCounts(s[1..], url);
      assert s == [s[0]] + s[1..];
      assert multiset(s) == multiset{s[0]} + multiset(s[1..]);
    }
  }

  /** Deleting a URL that is not in the list leaves the list as it was. */
  lemma {:induction false} WithoutAbsent(s: seq<string>, url: string)
    requires url !in s
    ensures Without(s, url) == s
  {
    if s != [] {
      WithoutAbsent(s[1..], url);
      assert s == [s[0]] + s[1..];
    }
  }

  /** Deleting a URL that is in the list makes the list shorter. */
  lemma {:induction false} WithoutShrinks(s: seq<string>, url: string)
    requires url in s
    ensures |Without(s, url)| < |s|
  {
    if s[0] != url {
      WithoutShrinks(s[1..], url);
    }
  }

  /** Deleting the same URL twice is the same as deleting it once. */
  lemma WithoutIdempotent(s: seq<string>, url: string)
    ensures Without(Without(s, url), url) == Without(s, url)
  {
    WithoutAbsent(Without(s, url), url);
  }

  /** Deleting the URL that was just appended undoes the append when the URL was new. */
  lemma WithoutUndoesAppend(s: seq<string>, url: string)
    requires url !in s
    ensures Without(s + [url], url) == s
  {
    WithoutSnoc(s, url, url);
    WithoutAbsent(s, url);
  }
}
