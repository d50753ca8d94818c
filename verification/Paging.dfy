/** The provider search loops: which results of a provider's fixed list they process. */
module Paging {
  import opened Wrappers
  import opened Discovery

  function Min(a: int, b: int): int {
    if a <= b then a else b
  }

  function Max(a: int, b: int): int {
    if a >= b then a else b
  }

  // 0, 1, .., n - 1
  function Range(n: int): seq<nat> {
    seq(if n > 0 then n else 0, i requires 0 <= i => i)
  }

  // A provider that may answer with fewer results than asked, but not with none while
  // there are some.
  function PageLength(short: (nat, nat) -> nat, total: nat, offset: nat, limit: nat): nat {
    if offset >= total || limit == 0 then 0
    else
      var most := Min(limit, total - offset);
      var answer := short(offset, limit);
      if answer < 1 then 1 else Min(answer, most)
  }

  predicate RanksArePositions(log: seq<Visit>) {
    forall i :: 0 <= i < |log| ==> log[i].rank == log[i].position + 1
  }

  function Positions(log: seq<Visit>): seq<nat> {
    seq(|log|, i requires 0 <= i < |log| => log[i].position)
  }

  // Every result up to the limit, once each and in order, under its own rank.
  predicate Covers(log: seq<Visit>, n: int) {
    Positions(log) == Range(n) && RanksArePositions(log)
  }

  // For which limits and result counts the OpenAlex loop covers the list: its page size
  // shrinks for the last page, which moves that page's window.
  predicate WindowStaysPut(maxPapers: int, total: nat) {
    maxPapers <= 50 || maxPapers % 50 == 0 || total <= maxPapers / 50 * 50
  }

  // Appending the next page keeps a covered prefix covered.
  lemma CoversMore(log: seq<Visit>, offset: nat, length: nat)
    requires Covers(log, offset)
    ensures Covers(log + PageVisits(offset, length, offset + 1), offset + length)
  {
    var after := log + PageVisits(offset, length, offset + 1);
    assert |log| == |Positions(log)| == offset;
    forall i | 0 <= i < |after| ensures after[i].position == i && after[i].rank == i + 1 {
      if i < offset {
        assert Positions(log)[i] == i;
      }
    }
  }

  // A log that strays from the list's order covers no prefix of it.
  lemma StrayCoversNothing(log: seq<Visit>, i: nat, n: int)
    requires i < |log| && log[i].position != i
    ensures !Covers(log, n)
  {
    assert Positions(log)[i] != i;
    assert i < |Range(n)| ==> Range(n)[i] == i;
  }

  lemma {:induction false} AdmitConcat(t: Tables, a: seq<Record>, b: seq<Record>, now: real)
    ensures var (u, n) := AdmitAll(t, a, now);
            var (v, m) := AdmitAll(u, b, now);
            AdmitAll(t, a + b, now) == (v, n + m)
  {
    if b == [] {
      assert a + b == a;
    } else {
      AdmitConcat(t, a, b[..|b| - 1], now);
      LastOf(a, b);
    }
  }

  lemma LastOf(a: seq<Record>, b: seq<Record>)
    requires b != []
    ensures (a + b)[..|a + b| - 1] == a + b[..|b| - 1] && (a + b)[|a + b| - 1] == b[|b| - 1]
  {
  }

  // What processing a list has done: the results visited, the tables, the new papers.
  datatype Progress = Progress(log: seq<Visit>, tables: Tables, newPapers: nat)

  // The first `n` results have been processed, in order, and nothing else.
  ghost predicate Processed(t: Tables, results: seq<Record>, n: nat, done: Progress, now: real) {
    n <= |results| && Covers(done.log, n) && AdmitAll(t, results[..n], now) == (done.tables, done.newPapers)
  }

  // The next page, taken from where the last one ended.
  lemma NextPage(t: Tables, results: seq<Record>, offset: nat, length: nat, done: Progress,
                 after: Tables, n: nat, now: real)
    requires Processed(t, results, offset, done, now) && offset + length <= |results|
    requires AdmitAll(done.tables, results[offset..offset + length], now) == (after, n)
    ensures Processed(t, results, offset + length,
      Progress(done.log + PageVisits(offset, length, offset + 1), after, done.newPapers + n), now)
  {
    CoversMore(done.log, offset, length);
    AdmitMore(t, results, offset, length, now);
  }

  lemma AdmitMore(t: Tables, results: seq<Record>, offset: nat, length: nat, now: real)
    requires offset + length <= |results|
    ensures var (u, n) := AdmitAll(t, results[..offset], now);
            var (v, m) := AdmitAll(u, results[offset..offset + length], now);
            AdmitAll(t, results[..offset + length], now) == (v, n + m)
  {
    AdmitConcat(t, results[..offset], results[offset..offset + length], now);
    assert results[..offset] + results[offset..offset + length] == results[..offset + length];
  }

  // Semantic Scholar (pages of 100) and Crossref (pages of 50): advance by what each page
  // actually held. They process exactly the first results, up to the limit.
  method DiscoverByOffset(
    store: DiscoveryStore, results: seq<Record>, maxPapers: int, pageSize: nat,
    short: (nat, nat) -> nat, now: real)
    returns (found: nat, newPapers: nat)
    requires pageSize >= 1 && store.log == []
    modifies store
    ensures found == Max(0, Min(maxPapers, |results|))
    ensures Processed(old(store.tables), results, found, Progress(store.log, store.tables, newPapers), now)
  {
    found, newPapers := 0, 0;
    var total := |results|;
    var offset := 0;
    while offset < maxPapers
      invariant found == offset <= Max(0, Min(maxPapers, total))
      invariant Processed(old(store.tables), results, offset, Progress(store.log, store.tables, newPapers), now)
      decreases maxPapers - offset
    {
      var limit := Min(pageSize, maxPapers - offset);
      var length := PageLength(short, total, offset, limit);
      if length == 0 {
        break;
      }
      ghost var before := Progress(store.log, store.tables, newPapers);
      var n := store.IngestPage(results[offset..offset + length], offset, offset + 1, now);
      NextPage(old(store.tables), results, offset, length, before, store.tables, n, now);
      newPapers := newPapers + n;
      found := found + length;
      offset := offset + length;
      if offset >= total {
        break;
      }
    }
  }

  // OpenAlex asks for page `page`, of the size still wanted.
  function PageSize(maxPapers: int, found: int): int {
    Min(50, maxPapers - found)
  }

  function PageOffset(maxPapers: int, found: int, page: int): int {
    (page - 1) * PageSize(maxPapers, found)
  }

  // While whole pages lie behind, the next page begins where they end, unless it is short:
  // then it begins too early, for limits above 50 that are not multiples of 50.
  lemma NextWindow(maxPapers: int, page: int)
    requires page >= 1 && 50 * (page - 1) < maxPapers
    ensures var found := 50 * (page - 1);
            var offset := PageOffset(maxPapers, found, page);
      && (offset == found <==> page == 1 || 50 * page <= maxPapers)
      && (offset != found ==> 0 <= offset < found && maxPapers > 50 && maxPapers % 50 != 0
                              && maxPapers / 50 * 50 == found)
  {
    var k := page - 1;
    if maxPapers - 50 * k >= 50 {
      assert PageSize(maxPapers, 50 * k) == 50;
      SmallerProduct(k, 50);
    } else {
      var r := maxPapers - 50 * k;
      assert PageSize(maxPapers, 50 * k) == r;
      SmallerProduct(k, r);
      QuotientOf(maxPapers, k, r);
    }
  }

  lemma SmallerProduct(k: nat, r: nat)
    requires 0 < r <= 50
    ensures 0 <= k * r <= 50 * k
    ensures k * r == 50 * k <==> k == 0 || r == 50
  {
  }

  lemma QuotientOf(n: int, k: nat, r: nat)
    requires n == 50 * k + r && 0 < r < 50
    ensures n / 50 * 50 == 50 * k && n % 50 == r
  {
  }

  // Where a page in place leaves the loop.
  lemma LastWindow(maxPapers: int, page: int, total: nat)
    requires page >= 1 && (page == 1 || 50 * page <= maxPapers) && 50 * (page - 1) < maxPapers
    requires total <= 50 * page || maxPapers <= 50 * page
    ensures WindowStaysPut(maxPapers, total)
  {
  }

  // Whole pages have been processed in place and something is left of both list and limit.
  ghost predicate Straight(maxPapers: int, total: nat, found: int, page: int) {
    page >= 1 && found == 50 * (page - 1) && (found < total || page == 1) && found < maxPapers
  }

  // All there is of the list, or of the limit, has been processed in place.
  predicate AllDone(maxPapers: int, total: nat, found: int) {
    WindowStaysPut(maxPapers, total) && found == Max(0, Min(maxPapers, total))
  }

  lemma PageInPlace(maxPapers: int, total: nat, found: nat, page: int, length: nat)
    requires Straight(maxPapers, total, found, page) && PageOffset(maxPapers, found, page) == found
    requires length == Min(PageSize(maxPapers, found), total - found) || (length == 0 && found >= total)
    ensures AllDone(maxPapers, total, found + length) || Straight(maxPapers, total, found + length, page + 1)
    ensures found + length >= total || found + length >= maxPapers ==> AllDone(maxPapers, total, found + length)
  {
    NextWindow(maxPapers, page);
    if found + length >= total || found + length >= maxPapers {
      LastWindow(maxPapers, page, total);
    }
  }

  // Some result was visited out of place, because the limit is not one that keeps the
  // last window in place.
  ghost predicate Strayed(maxPapers: int, total: nat, log: seq<Visit>, at: nat) {
    at < |log| && log[at].position != at && !WindowStaysPut(maxPapers, total)
  }

  lemma Strays(log: seq<Visit>, offset: nat, length: nat, rank: int, found: nat)
    requires Covers(log, found) && length > 0
    ensures var after := log + PageVisits(offset, length, rank);
            found < |after| && after[found].position == offset
  {
    assert |log| == |Positions(log)| == found;
  }

  // One page: still in place afterwards, or strayed.
  method OpenAlexPage(store: DiscoveryStore, ghost t: Tables, results: seq<Record>, maxPapers: int,
                      found: nat, page: int, newPapers: nat, ghost strayed: Option<nat>, now: real)
    returns (length: nat, newAfter: nat, ghost strayedAfter: Option<nat>)
    requires found < maxPapers && page >= 1
    requires strayed.None? ==>
      && Straight(maxPapers, |results|, found, page)
      && Processed(t, results, found, Progress(store.log, store.tables, newPapers), now)
    requires strayed.Some? ==> Strayed(maxPapers, |results|, store.log, strayed.value)
    modifies store
    ensures found + length <= maxPapers
    ensures strayedAfter.Some? ==> Strayed(maxPapers, |results|, store.log, strayedAfter.value)
    ensures strayedAfter.None? ==>
      && strayed.None?
      && Processed(t, results, found + length, Progress(store.log, store.tables, newAfter), now)
      && (AllDone(maxPapers, |results|, found + length) || Straight(maxPapers, |results|, found + length, page + 1))
      && (length == 0 || found + length >= |results| || found + length >= maxPapers ==>
            AllDone(maxPapers, |results|, found + length))
  {
    var total := |results|;
    var pageSize := PageSize(maxPapers, found);
    var offset := PageOffset(maxPapers, found, page);
    SmallerProduct(page - 1, pageSize);
    length := if offset >= total then 0 else Min(pageSize, total - offset);
    ghost var inPlace := strayed.None? && offset == found;
    if strayed.None? {
      NextWindow(maxPapers, page);
      if inPlace {
        PageInPlace(maxPapers, total, found, page, length);
      }
    }
    strayedAfter := strayed;
    newAfter := newPapers;
    if length > 0 {
      ghost var before := Progress(store.log, store.tables, newPapers);
      var n := store.IngestPage(results[offset..offset + length], offset, (page - 1) * 50 + 1, now);
      newAfter := newPapers + n;
      if inPlace {
        NextPage(t, results, offset, length, before, store.tables, n, now);
      } else if strayed.None? {
        strayedAfter := Some(found);
        Strays(before.log, offset, length, (page - 1) * 50 + 1, found);
      }
    }
  }

  // OpenAlex: numbered pages of at most 50. With full pages the loop covers the list if and
  // only if the last page's window stays put.
  method DiscoverOpenAlex(store: DiscoveryStore, results: seq<Record>, maxPapers: int, now: real)
    returns (found: nat, newPapers: nat)
    requires store.log == []
    modifies store
    ensures Covers(store.log, Min(maxPapers, |results|)) <==> WindowStaysPut(maxPapers, |results|)
    ensures WindowStaysPut(maxPapers, |results|) ==>
      && found == Max(0, Min(maxPapers, |results|))
      && Processed(old(store.tables), results, found, Progress(store.log, store.tables, newPapers), now)
  {
    found, newPapers := 0, 0;
    var total := |results|;
    var page := 1;
    ghost var strayed: Option<nat> := None;
    while found < maxPapers
      invariant page >= 1 && found <= Max(0, maxPapers)
      invariant strayed.None? ==>
        && (if found < maxPapers then Straight(maxPapers, total, found, page) else AllDone(maxPapers, total, found))
        && Processed(old(store.tables), results, found, Progress(store.log, store.tables, newPapers), now)
      invariant strayed.Some? ==> Strayed(maxPapers, total, store.log, strayed.value)
      decreases maxPapers - found
    {
      var length;
      length, newPapers, strayed :=
        OpenAlexPage(store, old(store.tables), results, maxPapers, found, page, newPapers, strayed, now);
      found := found + length;
      if length == 0 || found >= total || found >= maxPapers {
        break;
      }
      page := page + 1;
    }
    if strayed.Some? {
      StrayCoversNothing(store.log, strayed.value, Min(maxPapers, total));
    }
  }
}
