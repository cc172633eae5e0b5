/**
 * The page-view counters of src/lib/db/view.ts: one integer per slug under
 * the key 'pageviews:' + slug. A store call can fail (`failing`); a failed
 * call changes nothing.
 */
module ViewDb {
  import opened Wrappers

  /** The key of a slug's counter. */
  function ViewsKey(slug: string): (key: string)
    ensures |key| == 10 + |slug| && key[..10] == "pageviews:" && key[10..] == slug
  {
    "pageviews:" + slug
  }

  /** Different slugs have different counters. */
  lemma ViewsKeyInjective(s: string, t: string)
    ensures ViewsKey(s) == ViewsKey(t) <==> s == t
  {
    if ViewsKey(s) == ViewsKey(t) {
      assert s == ViewsKey(s)[10..] == ViewsKey(t)[10..] == t;
    }
  }

  /** A counter that was never incremented reads as 0. */
  function CountOf(counts: map<string, int>, slug: string): (n: int)
    ensures ViewsKey(slug) in counts ==> n == counts[ViewsKey(slug)]
    ensures ViewsKey(slug) !in counts ==> n == 0
  {
    var key := ViewsKey(slug);
    if key in counts then counts[key] else 0
  }

  /** The counter map after an increment of `slug`. */
  function Incremented(counts: map<string, int>, slug: string): map<string, int> {
    counts[ViewsKey(slug) := CountOf(counts, slug) + 1]
  }

  class ViewStore {
    /** The store's counters by key. */
    var counts: map<string, int>

    constructor ()
      ensures counts == map[]
    {
      counts := map[];
    }

    /** `getViews`: the slug's count, 0 when it is missing or the read fails. */
    method GetViews(slug: string, failing: bool) returns (views: int)
      ensures failing ==> views == 0
      ensures !failing ==> views == CountOf(counts, slug)
    {
      if failing {
        return 0;
      }
      var key := ViewsKey(slug);
      views := if key in counts then counts[key] else 0;
    }

    /**
     * `incrementViews`: `incr` of the slug's counter, returning the new
     * count; a failure is rethrown and changes nothing. No other counter
     * changes.
     */
    method IncrementViews(slug: string, failing: bool) returns (r: Outcome<int>)
      modifies this
      ensures failing ==> r == Threw && counts == old(counts)
      ensures !failing ==> r == Returned(old(CountOf(counts, slug)) + 1)
      ensures !failing ==> counts == Incremented(old(counts), slug)
    {
      if failing {
        return Threw;
      }
      var key := ViewsKey(slug);
      var next := (if key in counts then counts[key] else 0) + 1;
      counts := counts[key := next];
      r := Returned(next);
    }
  }

  /** An increment adds one to its own slug and leaves every other slug's count as it was. */
  lemma IncrementIsolated(counts: map<string, int>, slug: string, other: string)
    ensures CountOf(Incremented(counts, slug), slug) == CountOf(counts, slug) + 1
    ensures other != slug ==> CountOf(Incremented(counts, slug), other) == CountOf(counts, other)
  {
    ViewsKeyInjective(slug, other);
  }

  /** The count after `k` increments of a fresh slug is `k`. */
  function IncrementTimes(counts: map<string, int>, slug: string, k: nat): map<string, int> {
    if k == 0 then counts else Incremented(IncrementTimes(counts, slug, k - 1), slug)
  }

  lemma {:induction false} IncrementTimesCount(counts: map<string, int>, slug: string, k: nat)
    ensures CountOf(IncrementTimes(counts, slug, k), slug) == CountOf(counts, slug) + k
  {
    if k > 0 {
      IncrementTimesCount(counts, slug, k - 1);
    }
  }
}
