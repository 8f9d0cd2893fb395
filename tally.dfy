/**
 * Per-author tallies: the map `email -> {added, removed, total}` that
 * `getChangedLines` builds for one project (main.go:77-83) and that `main`
 * merges across projects (main.go:214-221) and sums (main.go:233-238).
 * Go keeps each entry as a `map[string]int` with the keys "added",
 * "removed" and "total"; here an entry is a `Counts` record.
 */
module Tally {
  import opened Wrappers
  import opened Api

  datatype Counts = Counts(added: int, removed: int, total: int)

  /** The entry a first-seen author starts from. */
  const Zero := Counts(0, 0, 0)

  function Plus(a: Counts, b: Counts): Counts
  {
    Counts(a.added + b.added, a.removed + b.removed, a.total + b.total)
  }

  /** A commit's statistics as counts: additions, deletions, total. */
  function OfStats(s: DiffStats): Counts
  {
    Counts(s.additions, s.deletions, s.total)
  }

  type Tally = map<string, Counts>

  /** An author's entry, reading an absent author as zero. */
  function Get(t: Tally, author: string): Counts
  {
    if author in t then t[author] else Zero
  }

  /** Add `c` to the author's entry field by field, an absent entry starting at zero. */
  function Add(t: Tally, author: string, c: Counts): Tally
  {
    t[author := Plus(Get(t, author), c)]
  }

  /**
   * Folding commits into a tally, in order; `diff` is what fetching and
   * decoding a commit's statistics gives, `None` for either failure.
   */
  function Tallied(t: Tally, commits: seq<Commit>, diff: Commit -> Option<DiffStats>): Tally
  {
    if commits == [] then t
    else
      var last := commits[|commits| - 1];
      var t' := Tallied(t, commits[..|commits| - 1], diff);
      match diff(last)
      case None => t'
      case Some(s) => Add(t', last.authorEmail, OfStats(s))
  }

  /** The authors of the commits whose statistics were obtained. */
  function Contributors(commits: seq<Commit>, diff: Commit -> Option<DiffStats>): set<string>
  {
    set i | 0 <= i < |commits| && diff(commits[i]).Some? :: commits[i].authorEmail
  }

  /** The summed statistics of `author`'s commits whose statistics were obtained. */
  function AuthorSum(commits: seq<Commit>, diff: Commit -> Option<DiffStats>, author: string): Counts
  {
    if commits == [] then Zero
    else
      var last := commits[|commits| - 1];
      var rest := AuthorSum(commits[..|commits| - 1], diff, author);
      if last.authorEmail == author && diff(last).Some? then Plus(rest, OfStats(diff(last).value)) else rest
  }

  /** Adding to one author changes that author's entry only, and creates it if needed. */
  lemma AddAt(t: Tally, author: string, c: Counts, other: string)
    ensures Add(t, author, c).Keys == t.Keys + {author}
    ensures Get(Add(t, author, c), other) == if other == author then Plus(Get(t, author), c) else Get(t, other)
  {
  }

  /**
   * Every author's entry after the fold is what it was before plus the sum
   * of that author's successfully fetched commits; failed commits add nothing.
   */
  lemma {:induction false} TalliedAt(t: Tally, commits: seq<Commit>, diff: Commit -> Option<DiffStats>, author: string)
    ensures Get(Tallied(t, commits, diff), author) == Plus(Get(t, author), AuthorSum(commits, diff, author))
    decreases |commits|
  {
    if commits != [] {
      var last := commits[|commits| - 1];
      TalliedAt(t, commits[..|commits| - 1], diff, author);
      if diff(last).Some? {
        AddAt(Tallied(t, commits[..|commits| - 1], diff), last.authorEmail, OfStats(diff(last).value), author);
      }
    }
  }

  /**
   * The authors in a tally after the fold are those before it and the
   * authors of the successfully fetched commits, no others.
   */
  lemma {:induction false} TalliedKeys(t: Tally, commits: seq<Commit>, diff: Commit -> Option<DiffStats>)
    ensures Tallied(t, commits, diff).Keys == t.Keys + Contributors(commits, diff)
    decreases |commits|
  {
    if commits != [] {
      var init := commits[..|commits| - 1];
      var last := commits[|commits| - 1];
      TalliedKeys(t, init, diff);
      var c := Contributors(commits, diff);
      var c' := Contributors(init, diff);
      assert c == c' + (if diff(last).Some? then {last.authorEmail} else {}) by {
        forall a | a in c ensures a in c' + (if diff(last).Some? then {last.authorEmail} else {}) {
          var i :| 0 <= i < |commits| && diff(commits[i]).Some? && commits[i].authorEmail == a;
          if i < |init| {
            assert init[i] == commits[i];
          }
        }
        forall a | a in c' ensures a in c {
          var i :| 0 <= i < |init| && diff(init[i]).Some? && init[i].authorEmail == a;
          assert commits[i] == init[i];
        }
        if diff(last).Some? {
          assert commits[|commits| - 1] == last;
        }
      }
      if diff(last).Some? {
        AddAt(Tallied(t, init, diff), last.authorEmail, OfStats(diff(last).value), last.authorEmail);
      }
    }
  }

  /** Folding two runs of commits is folding the first, then the second. */
  lemma {:induction false} TalliedAppend(t: Tally, a: seq<Commit>, b: seq<Commit>, diff: Commit -> Option<DiffStats>)
    ensures Tallied(t, a + b, diff) == Tallied(Tallied(t, a, diff), b, diff)
    decreases |b|
  {
    if b == [] {
      assert a + b == a;
    } else {
      var b' := b[..|b| - 1];
      assert (a + b)[..|a + b| - 1] == a + b';
      assert (a + b)[|a + b| - 1] == b[|b| - 1];
      TalliedAppend(t, a, b', diff);
    }
  }

  /**
   * Merging tally `n` into `m`: every author of either, each field the sum
   * of the two entries (an absent entry counting as zero).
   */
  function Merge(m: Tally, n: Tally): (r: Tally)
    ensures r.Keys == m.Keys + n.Keys
  {
    map a | a in m.Keys + n.Keys :: Plus(Get(m, a), Get(n, a))
  }

  lemma MergeAt(m: Tally, n: Tally, a: string)
    ensures Get(Merge(m, n), a) == Plus(Get(m, a), Get(n, a))
  {
  }

  /** The order in which two tallies are merged does not matter. */
  lemma MergeCommutes(m: Tally, n: Tally)
    ensures Merge(m, n) == Merge(n, m)
  {
    assert forall a | a in Merge(m, n) :: Merge(m, n)[a] == Merge(n, m)[a];
  }

  lemma MergeAssociates(a: Tally, b: Tally, c: Tally)
    ensures Merge(Merge(a, b), c) == Merge(a, Merge(b, c))
  {
    forall x | x in Merge(Merge(a, b), c)
      ensures Merge(Merge(a, b), c)[x] == Merge(a, Merge(b, c))[x]
    {
      MergeAt(Merge(a, b), c, x);
      MergeAt(a, b, x);
      MergeAt(a, Merge(b, c), x);
      MergeAt(b, c, x);
      PlusRegroup(Get(a, x), Get(b, x), Get(c, x));
    }
  }

  /** Merging an empty tally (a project that failed) changes nothing. */
  lemma MergeEmpty(m: Tally)
    ensures Merge(m, map[]) == m
  {
    assert forall a | a in Merge(m, map[]) :: Merge(m, map[])[a] == m[a];
  }

  /** Two merges can be done in either order. */
  lemma MergeSwap(m: Tally, a: Tally, b: Tally)
    ensures Merge(Merge(m, a), b) == Merge(Merge(m, b), a)
  {
    MergeAssociates(m, a, b);
    MergeCommutes(a, b);
    MergeAssociates(m, b, a);
  }

  /** The field-wise sum of the entries of `authors` (absent ones count as zero). */
  ghost function SumOver(t: Tally, authors: set<string>): Counts
  {
    if authors == {} then Zero
    else
      var a :| a in authors;
      Plus(Get(t, a), SumOver(t, authors - {a}))
  }

  /** The grand totals: the field-wise sum over every author of the tally. */
  ghost function Sum(t: Tally): Counts
  {
    SumOver(t, t.Keys)
  }

  lemma PlusSwap(x: Counts, y: Counts, z: Counts)
    ensures Plus(y, Plus(x, z)) == Plus(x, Plus(y, z))
  {
  }

  lemma PlusRegroup(x: Counts, y: Counts, z: Counts)
    ensures Plus(Plus(x, y), z) == Plus(x, Plus(y, z))
    ensures Plus(Plus(x, y), z) == Plus(x, Plus(z, y))
  {
  }

  /** The authors may be summed in any order: any one of them can be taken first. */
  lemma {:induction false} SumOverTake(t: Tally, authors: set<string>, a: string)
    requires a in authors
    ensures SumOver(t, authors) == Plus(Get(t, a), SumOver(t, authors - {a}))
    decreases authors
  {
    var b :| b in authors && SumOver(t, authors) == Plus(Get(t, b), SumOver(t, authors - {b}));
    if b != a {
      var rest := authors - {a} - {b};
      var x, y, z := Get(t, a), Get(t, b), SumOver(t, rest);
      assert SumOver(t, authors - {b}) == Plus(x, z) by {
        assert authors - {b} - {a} == rest;
        SumOverTake(t, authors - {b}, a);
      }
      assert SumOver(t, authors - {a}) == Plus(y, z) by {
        SumOverTake(t, authors - {a}, b);
      }
      PlusSwap(x, y, z);
    }
  }

  /** The sum only reads the entries of the authors summed. */
  lemma {:induction false} SumOverAgree(t: Tally, u: Tally, authors: set<string>)
    requires forall a | a in authors :: Get(t, a) == Get(u, a)
    ensures SumOver(t, authors) == SumOver(u, authors)
    decreases authors
  {
    if authors != {} {
      var a :| a in authors && SumOver(t, authors) == Plus(Get(t, a), SumOver(t, authors - {a}));
      SumOverTake(u, authors, a);
      SumOverAgree(t, u, authors - {a});
    }
  }

  /** Adding `c` to one author raises the grand totals by `c`. */
  lemma SumAdd(t: Tally, author: string, c: Counts)
    ensures Sum(Add(t, author, c)) == Plus(Sum(t), c)
  {
    var t' := Add(t, author, c);
    var rest := t.Keys - {author};
    assert t'.Keys - {author} == rest;
    var x, y := Get(t, author), SumOver(t, rest);
    assert SumOver(t', rest) == y by {
      SumOverAgree(t', t, rest);
    }
    assert Sum(t') == Plus(Plus(x, c), y) by {
      SumOverTake(t', t'.Keys, author);
    }
    assert Sum(t) == Plus(x, y) by {
      if author in t {
        SumOverTake(t, t.Keys, author);
      } else {
        assert rest == t.Keys;
      }
    }
    PlusSwap(c, y, x);
  }

  /** Adding one author's counts of `n` into `m` is one step of merging `n`. */
  lemma MergeStep(m: Tally, n: Tally, pending: set<string>, author: string)
    requires author in pending && pending <= n.Keys
    ensures Merge(m, n - (pending - {author})) == Add(Merge(m, n - pending), author, n[author])
  {
    var lhs := Merge(m, n - (pending - {author}));
    var rhs := Add(Merge(m, n - pending), author, n[author]);
    assert lhs.Keys == rhs.Keys;
    forall x | x in lhs ensures lhs[x] == rhs[x] {
      MergeAt(m, n - (pending - {author}), x);
      MergeAt(m, n - pending, x);
    }
  }

  /** Merging `n` is merging all of `n` but one author, then adding that author's counts. */
  lemma MergeTake(m: Tally, n: Tally, author: string)
    requires author in n
    ensures Merge(m, n) == Add(Merge(m, n - {author}), author, n[author])
  {
    var lhs := Merge(m, n);
    var rhs := Add(Merge(m, n - {author}), author, n[author]);
    assert lhs.Keys == rhs.Keys;
    forall x | x in lhs ensures lhs[x] == rhs[x] {
      MergeAt(m, n, x);
      MergeAt(m, n - {author}, x);
    }
  }

  /** The grand totals of a merge are the sum of the grand totals of its parts. */
  lemma {:induction false} SumMerge(m: Tally, n: Tally)
    ensures Sum(Merge(m, n)) == Plus(Sum(m), Sum(n))
    decreases |n|
  {
    if |n| == 0 {
      assert n == map[];
      MergeEmpty(m);
      assert Sum(n) == Zero;
    } else {
      var a :| a in n;
      var rest := Merge(m, n - {a});
      assert Sum(rest) == Plus(Sum(m), Sum(n - {a})) by {
        SumMerge(m, n - {a});
      }
      assert Sum(Merge(m, n)) == Plus(Sum(rest), n[a]) by {
        MergeTake(m, n, a);
        SumAdd(rest, a, n[a]);
      }
      assert Sum(n) == Plus(n[a], Sum(n - {a})) by {
        assert (n - {a}).Keys == n.Keys - {a};
        SumOverTake(n, n.Keys, a);
        SumOverAgree(n, n - {a}, n.Keys - {a});
      }
      PlusRegroup(Sum(m), Sum(n - {a}), n[a]);
    }
  }
}
