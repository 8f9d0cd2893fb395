/**
 * The page-by-page listing that both `getAllProjects` and `getChangedLines`
 * perform: pages 1, 2, 3, ... are requested until one is an error or empty.
 * A listing is described by the function `pages` from page number to what
 * that page decodes to.
 */
module Paging {
  import opened Wrappers

  /** A page ends the listing when it is an error or holds no items. */
  predicate Stops<T, E>(r: Result<seq<T>, E>)
  {
    r.Failure? || |r.value| == 0
  }

  /** Some page at or after page 1 ends the listing. */
  ghost predicate Ends<T, E>(pages: nat -> Result<seq<T>, E>)
  {
    exists n: nat :: 1 <= n && Stops(pages(n))
  }

  /** `n` is the first page that ends the listing. */
  ghost predicate IsFirstStop<T, E>(pages: nat -> Result<seq<T>, E>, n: nat)
  {
    1 <= n && Stops(pages(n)) && forall m: nat :: 1 <= m < n ==> !Stops(pages(m))
  }

  lemma {:induction false} FirstStopAtOrBelow<T, E>(pages: nat -> Result<seq<T>, E>, k: nat)
    requires 1 <= k && Stops(pages(k))
    ensures exists n: nat :: n <= k && IsFirstStop(pages, n)
    decreases k
  {
    if forall m: nat :: 1 <= m < k ==> !Stops(pages(m)) {
      assert IsFirstStop(pages, k);
    } else {
      var m: nat :| 1 <= m < k && Stops(pages(m));
      FirstStopAtOrBelow(pages, m);
    }
  }

  /** The page at which the listing loop leaves. */
  ghost function FirstStop<T, E>(pages: nat -> Result<seq<T>, E>): (n: nat)
    requires Ends(pages)
    ensures IsFirstStop(pages, n)
  {
    var k: nat :| 1 <= k && Stops(pages(k));
    FirstStopAtOrBelow(pages, k);
    var n: nat :| n <= k && IsFirstStop(pages, n);
    n
  }

  /** The items of pages 1 .. hi-1, page by page and within a page in listed order. */
  function Collected<T, E>(pages: nat -> Result<seq<T>, E>, hi: nat): seq<T>
    decreases hi
  {
    if hi <= 1 then [] else Collected(pages, hi - 1) + Items(pages(hi - 1))
  }

  /** The items of a page; a failed page has none. */
  function Items<T, E>(r: Result<seq<T>, E>): seq<T>
  {
    if r.Success? then r.value else []
  }

  /**
   * What a listing yields: the error of the first stopping page if it is one,
   * otherwise every item of the pages before it.
   */
  ghost function Listing<T, E>(pages: nat -> Result<seq<T>, E>): Result<seq<T>, E>
    requires Ends(pages)
  {
    var n := FirstStop(pages);
    if pages(n).Failure? then Failure(pages(n).error) else Success(Collected(pages, n))
  }

  /** The page numbers 1, 2, ..., n in order. */
  function PagesUpTo(n: nat): (r: seq<nat>)
    ensures |r| == n && forall i :: 0 <= i < n ==> r[i] == i + 1
  {
    if n == 0 then [] else PagesUpTo(n - 1) + [n]
  }

  /** A loop that reaches a stopping page without passing the first one is at the first one. */
  lemma ListingStopsAt<T, E>(pages: nat -> Result<seq<T>, E>, n: nat)
    requires Ends(pages)
    requires 1 <= n <= FirstStop(pages) && Stops(pages(n))
    ensures FirstStop(pages) == n
    ensures Listing(pages) == if pages(n).Failure? then Failure(pages(n).error) else Success(Collected(pages, n))
  {
  }

  /** A loop that passes a non-stopping page may go on to the next one. */
  lemma ListingContinues<T, E>(pages: nat -> Result<seq<T>, E>, n: nat)
    requires Ends(pages)
    requires 1 <= n <= FirstStop(pages) && !Stops(pages(n))
    ensures n + 1 <= FirstStop(pages)
    ensures Collected(pages, n + 1) == Collected(pages, n) + pages(n).value
  {
  }

  /** An item is collected exactly when some earlier page lists it. */
  lemma {:induction false} CollectedMembers<T, E>(pages: nat -> Result<seq<T>, E>, hi: nat, x: T)
    ensures x in Collected(pages, hi) <==> exists m: nat :: 1 <= m < hi && x in Items(pages(m))
    decreases hi
  {
    if hi > 1 {
      CollectedMembers(pages, hi - 1, x);
      if x in Items(pages(hi - 1)) {
        assert x in Collected(pages, hi);
      }
    }
  }

  /** The collected items only depend on the pages before `hi`. */
  lemma {:induction false} CollectedAgree<T, E>(pages: nat -> Result<seq<T>, E>, other: nat -> Result<seq<T>, E>, hi: nat)
    requires forall m: nat :: 1 <= m < hi ==> other(m) == pages(m)
    ensures Collected(pages, hi) == Collected(other, hi)
    decreases hi
  {
    if hi > 1 {
      CollectedAgree(pages, other, hi - 1);
    }
  }

  /**
   * Pages after the first stopping one are never looked at: two servers that
   * agree up to that page give the same listing.
   */
  lemma ListingIgnoresLaterPages<T, E>(pages: nat -> Result<seq<T>, E>, other: nat -> Result<seq<T>, E>)
    requires Ends(pages)
    requires forall m: nat :: 1 <= m <= FirstStop(pages) ==> other(m) == pages(m)
    ensures Ends(other) && FirstStop(other) == FirstStop(pages)
    ensures Listing(other) == Listing(pages)
  {
    var n := FirstStop(pages);
    assert Stops(other(n));
    assert FirstStop(other) == n;
    CollectedAgree(pages, other, n);
  }

  /**
   * A page that fails before any page has come back empty makes the whole
   * listing fail with that page's error, and nothing collected is kept.
   */
  lemma ListingFails<T, E>(pages: nat -> Result<seq<T>, E>, n: nat)
    requires Ends(pages)
    requires 1 <= n && pages(n).Failure?
    requires forall m: nat :: 1 <= m < n ==> pages(m).Success? && |pages(m).value| > 0
    ensures Listing(pages) == Failure(pages(n).error)
  {
    assert IsFirstStop(pages, n);
  }
}
