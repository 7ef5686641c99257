/** What both stores decide over a listing of backup names: which names
    retention deletes and which name is the latest. Listings are sorted with
    `sort.Strings` (S3) or come sorted by name from `ioutil.ReadDir` (filesystem). */
module Retention {
  import opened Lex

  /** The first `len - keep` names of a sorted listing, or none when at most
      `keep` names are listed. */
  function Oldest(sorted: seq<string>, keep: nat): (r: seq<string>)
    ensures |r| == if |sorted| > keep then |sorted| - keep else 0
  {
    if |sorted| > keep then sorted[..|sorted| - keep] else []
  }

  /** The names retention leaves in place. */
  function Kept(sorted: seq<string>, keep: nat): seq<string>
  {
    sorted[|Oldest(sorted, keep)|..]
  }

  /** Retention over a listing: `min(len, keep)` names are kept, the others are
      deleted, together they are the listing, and every deleted name sorts
      before every kept one. */
  lemma RetentionSplit(files: seq<string>, keep: nat)
    ensures var s := Sort(files);
      var gone := Oldest(s, keep);
      var kept := Kept(s, keep);
      && |kept| == (if |files| > keep then keep else |files|)
      && |gone| + |kept| == |files|
      && multiset(gone) + multiset(kept) == multiset(files)
      && (forall x, y :: x in gone && y in kept ==> LessEq(x, y))
  {
    var s := Sort(files);
    var k := |Oldest(s, keep)|;
    SortedSplit(s, k);
    assert Oldest(s, keep) == s[..k];
  }

  /** `sort.Sort(sort.Reverse(sort.StringSlice(files)))` followed by `files[0]`. */
  function Latest(files: seq<string>): string
    requires |files| > 0
  {
    Reverse(Sort(files))[0]
  }

  /** The latest name is listed and no listed name sorts after it. */
  lemma LatestIsMax(files: seq<string>)
    requires |files| > 0
    ensures Latest(files) in files
    ensures forall f :: f in files ==> LessEq(f, Latest(files))
  {
    var s := Sort(files);
    SortedLastIsMax(s);
    assert Latest(files) == s[|s| - 1];
    assert s[|s| - 1] in multiset(s);
    forall f | f in files ensures LessEq(f, Latest(files)) {
      assert f in multiset(files);
      assert f in s;
    }
  }

  /** The last name of a sorted listing is the one `Latest` picks. */
  lemma LastOfSortedIsLatest(sorted: seq<string>)
    requires Sorted(sorted) && |sorted| > 0
    ensures sorted[|sorted| - 1] == Latest(sorted)
  {
    SortedUnique(Sort(sorted), sorted);
  }
}
