/** The checksummed migration ledger: what it is compared with, and what an upgrade does. */
module Migrate {
  import opened Wrappers

  datatype Migration = Migration(revision: int, sql: string, checksum: string)
  datatype Row = Row(revision: int, checksum: string)

  datatype Status = Current | Pending | Drift | Ahead
  datatype Report = Report(current: int, target: int, status: Status, pending: seq<int>, problems: nat)

  // ---------- The packaged files ----------

  // Numbered `first`, `first` + 1, and so on.
  ghost predicate NumberedFrom(ms: seq<Migration>, first: int) {
    forall i :: 0 <= i < |ms| ==> ms[i].revision == first + i
  }

  ghost predicate Packaged(ms: seq<Migration>) {
    |ms| >= 1 && NumberedFrom(ms, 1)
  }

  ghost predicate Sorted(ms: seq<Migration>) {
    forall i, j :: 0 <= i < j < |ms| ==> ms[i].revision <= ms[j].revision
  }

  lemma HeadsAgree(a: seq<Migration>, b: seq<Migration>, first: int)
    requires a != [] && b != [] && a[0] in b && b[0] in a && Sorted(a) && NumberedFrom(b, first)
    ensures a[0] == b[0]
  {
  }

  lemma SplitHead(a: seq<Migration>)
    requires a != []
    ensures multiset(a) == multiset{a[0]} + multiset(a[1..]) && a[0] in multiset(a)
  {
    assert a == [a[0]] + a[1..];
  }

  // Two arrangements of the same files, one sorted and one numbered, are the same.
  lemma {:induction false} SortedIsNumbered(a: seq<Migration>, b: seq<Migration>, first: int)
    requires multiset(a) == multiset(b) && Sorted(a) && NumberedFrom(b, first)
    ensures a == b
  {
    assert |a| == |multiset(a)| == |multiset(b)| == |b|;
    if a == [] {
    } else {
      SplitHead(a);
      SplitHead(b);
      HeadsAgree(a, b, first);
      assert multiset(a[1..]) == multiset(a) - multiset{a[0]};
      SortedIsNumbered(a[1..], b[1..], first + 1);
    }
  }

  function Inserted(ms: seq<Migration>, k: nat, m: Migration): seq<Migration>
    requires k <= |ms|
  {
    ms[..k] + [m] + ms[k..]
  }

  lemma InsertedContents(ms: seq<Migration>, k: nat, m: Migration)
    requires k <= |ms|
    ensures multiset(Inserted(ms, k, m)) == multiset(ms) + multiset{m}
  {
    assert ms == ms[..k] + ms[k..];
  }

  lemma InsertedSorted(ms: seq<Migration>, k: nat, m: Migration)
    requires k <= |ms| && Sorted(ms)
    requires forall i :: 0 <= i < k ==> ms[i].revision <= m.revision
    requires forall i :: k <= i < |ms| ==> m.revision <= ms[i].revision
    ensures Sorted(Inserted(ms, k, m))
  {
  }

  method InsertSorted(ms: seq<Migration>, m: Migration) returns (r: seq<Migration>)
    requires Sorted(ms)
    ensures Sorted(r) && multiset(r) == multiset(ms) + multiset{m}
  {
    var k := |ms|;
    while k > 0 && ms[k - 1].revision > m.revision
      invariant 0 <= k <= |ms|
      invariant forall i :: k <= i < |ms| ==> ms[i].revision > m.revision
    {
      k := k - 1;
    }
    InsertedContents(ms, k, m);
    InsertedSorted(ms, k, m);
    r := Inserted(ms, k, m);
  }

  // The files sorted by revision.
  method SortByRevision(found: seq<Migration>) returns (sorted: seq<Migration>)
    ensures Sorted(sorted) && multiset(sorted) == multiset(found)
  {
    sorted := [];
    for i := 0 to |found|
      invariant Sorted(sorted) && multiset(sorted) == multiset(found[..i])
    {
      assert found[..i + 1] == found[..i] + [found[i]];
      sorted := InsertSorted(sorted, found[i]);
    }
    assert found[..|found|] == found;
  }

  // Accepts the files found, in whatever order, if and only if they can be arranged as
  // 1..current; the result is that arrangement.
  method Migrations(found: seq<Migration>, current: int) returns (r: Result<seq<Migration>, string>)
    ensures r.Ok? ==> Packaged(r.value) && |r.value| == current && multiset(r.value) == multiset(found)
    ensures r.Ok? <==> exists ms :: multiset(ms) == multiset(found) && Packaged(ms) && |ms| == current
  {
    var sorted := SortByRevision(found);
    forall ms | multiset(ms) == multiset(found) && Packaged(ms) ensures ms == sorted {
      SortedIsNumbered(sorted, ms, 1);
    }
    for i := 0 to |sorted|
      invariant forall k :: 0 <= k < i ==> sorted[k].revision == k + 1
    {
      if sorted[i].revision != i + 1 {
        return Err("migration files must be numbered 001..N");
      }
    }
    if sorted == [] || sorted[|sorted| - 1].revision != current {
      return Err("CURRENT_REVISION is not the last packaged file");
    }
    r := Ok(sorted);
  }

  // ---------- The ledger ----------

  function Rows(ledger: Option<seq<Row>>): seq<Row> {
    if ledger.Some? then ledger.value else []
  }

  // PRIMARY KEY (revision), read ORDER BY revision.
  ghost predicate LedgerOk(rows: seq<Row>) {
    forall i, j :: 0 <= i < j < |rows| ==> rows[i].revision < rows[j].revision
  }

  function RowOf(m: Migration): Row {
    Row(m.revision, m.checksum)
  }

  function RowsOf(ms: seq<Migration>): seq<Row> {
    seq(|ms|, i requires 0 <= i < |ms| => RowOf(ms[i]))
  }

  function SqlOf(ms: seq<Migration>): seq<string> {
    seq(|ms|, i requires 0 <= i < |ms| => ms[i].sql)
  }

  // The ledger holds exactly the first files of the package.
  ghost predicate IsPrefix(rows: seq<Row>, ms: seq<Migration>) {
    |rows| <= |ms| && forall i :: 0 <= i < |rows| ==> rows[i] == RowOf(ms[i])
  }

  // Some applied revision is not packaged.
  ghost predicate HasUnknown(rows: seq<Row>, ms: seq<Migration>) {
    exists i :: 0 <= i < |rows| && !(1 <= rows[i].revision <= |ms|)
  }

  // from, from + 1, .., to
  function Revisions(from: int, to: int): seq<int> {
    seq(if from <= to then to - from + 1 else 0, i => from + i)
  }

  // The row's revision is packaged, with the checksum that was applied.
  predicate MatchesPackage(row: Row, ms: seq<Migration>) {
    1 <= row.revision <= |ms| && ms[row.revision - 1].checksum == row.checksum
  }

  // What `inspect` looks for, row by row, adds up to being a prefix of the package.
  lemma PrefixIffNoProblems(rows: seq<Row>, ms: seq<Migration>)
    requires Packaged(ms)
    ensures IsPrefix(rows, ms) <==>
      forall k :: 0 <= k < |rows| ==> MatchesPackage(rows[k], ms) && rows[k].revision == k + 1
  {
    if IsPrefix(rows, ms) {
      forall k | 0 <= k < |rows| ensures MatchesPackage(rows[k], ms) && rows[k].revision == k + 1 {
        assert rows[k] == RowOf(ms[k]);
      }
    }
    if forall k :: 0 <= k < |rows| ==> MatchesPackage(rows[k], ms) && rows[k].revision == k + 1 {
      if rows != [] {
        assert rows[|rows| - 1].revision == |rows|;
      }
      forall k | 0 <= k < |rows| ensures rows[k] == RowOf(ms[k]) {
        assert MatchesPackage(rows[k], ms);
      }
    }
  }

  lemma FullPrefix(rows: seq<Row>, ms: seq<Migration>)
    ensures rows == RowsOf(ms) <==> IsPrefix(rows, ms) && |rows| == |ms|
  {
  }

  // The packaged revisions after `current`, in order.
  method PendingAfter(ms: seq<Migration>, current: int) returns (pending: seq<int>)
    requires Packaged(ms)
    ensures 0 <= current <= |ms| ==> pending == Revisions(current + 1, |ms|)
  {
    pending := [];
    for i := 0 to |ms|
      invariant 0 <= current <= |ms| ==> pending == Revisions(current + 1, i)
    {
      if ms[i].revision > current {
        pending := pending + [ms[i].revision];
      }
    }
  }

  // The row-by-row comparison: unknown revisions, edited files, and gaps in the numbering.
  method Compare(ms: seq<Migration>, rows: seq<Row>) returns (ahead: bool, problems: nat, current: int)
    ensures ahead <==> HasUnknown(rows, ms)
    ensures ahead ==> problems > 0
    ensures problems == 0 <==>
      forall k :: 0 <= k < |rows| ==> MatchesPackage(rows[k], ms) && rows[k].revision == k + 1
    ensures current == if rows == [] then 0 else rows[|rows| - 1].revision
  {
    ahead, problems, current := false, 0, 0;
    var contiguous := true;
    for i := 0 to |rows|
      invariant problems == 0 <==> forall k :: 0 <= k < i ==> MatchesPackage(rows[k], ms)
      invariant ahead <==> exists k :: 0 <= k < i && !(1 <= rows[k].revision <= |ms|)
      invariant ahead ==> problems > 0
      invariant current == if i == 0 then 0 else rows[i - 1].revision
      invariant contiguous <==> forall k :: 0 <= k < i ==> rows[k].revision == k + 1
    {
      var row := rows[i];
      if !(1 <= row.revision <= |ms|) {
        ahead := true;
        problems := problems + 1;
      } else if ms[row.revision - 1].checksum != row.checksum {
        problems := problems + 1;
      }
      contiguous := contiguous && row.revision == i + 1;
      current := row.revision;
    }
    if !contiguous {
      problems := problems + 1;
    }
  }

  // Compares the ledger with the packaged files. The classification is exact.
  method Inspect(ms: seq<Migration>, ledger: Option<seq<Row>>) returns (r: Report)
    requires Packaged(ms) && LedgerOk(Rows(ledger))
    ensures r.target == |ms|
    ensures r.problems == 0 <==> IsPrefix(Rows(ledger), ms)
    ensures r.status.Current? <==> Rows(ledger) == RowsOf(ms)
    ensures r.status.Pending? <==> IsPrefix(Rows(ledger), ms) && |Rows(ledger)| < |ms|
    ensures r.status.Ahead? <==> HasUnknown(Rows(ledger), ms)
    ensures IsPrefix(Rows(ledger), ms) ==>
      r.current == |Rows(ledger)| && r.pending == Revisions(r.current + 1, |ms|)
  {
    var rows := if ledger.Some? then ledger.value else [];
    var ahead, problems, current := Compare(ms, rows);
    PrefixIffNoProblems(rows, ms);
    FullPrefix(rows, ms);
    var pending := PendingAfter(ms, current);
    var status :=
      if ahead then Ahead
      else if problems > 0 then Drift
      else if current < |ms| then Pending
      else Current;
    r := Report(current, |ms|, status, pending, problems);
  }

  // Plugin code runs only against a database at exactly the packaged revision.
  method RequireCurrent(ms: seq<Migration>, ledger: Option<seq<Row>>) returns (accepted: bool)
    requires Packaged(ms) && LedgerOk(Rows(ledger))
    ensures accepted <==> Rows(ledger) == RowsOf(ms)
  {
    var report := Inspect(ms, ledger);
    accepted := report.status == Current;
  }

  lemma OneMoreFile(ms: seq<Migration>, k: nat, i: nat)
    requires k <= i < |ms|
    ensures RowsOf(ms[..i + 1]) == RowsOf(ms[..i]) + [RowOf(ms[i])]
    ensures SqlOf(ms[k..i + 1]) == SqlOf(ms[k..i]) + [ms[i].sql]
    ensures Revisions(k + 1, i + 1) == Revisions(k + 1, i) + [i + 1]
  {
  }

  // ---------- One upgrade with the database to itself ----------

  class Database {
    var ledger: Option<seq<Row>>
    var schema: seq<string>    // the files whose statements have been run, in order

    constructor (ledger: Option<seq<Row>>, schema: seq<string>)
      ensures this.ledger == ledger && this.schema == schema
    {
      this.ledger := ledger;
      this.schema := schema;
    }

    // Applies exactly the missing files in order, or refuses and changes nothing.
    method Upgrade(ms: seq<Migration>) returns (r: Result<seq<int>, string>)
      requires Packaged(ms) && LedgerOk(Rows(ledger))
      modifies this
      ensures r.Ok? <==> IsPrefix(old(Rows(ledger)), ms)
      ensures r.Ok? ==>
        var k := old(|Rows(ledger)|);
        && Rows(ledger) == RowsOf(ms)
        && schema == old(schema) + SqlOf(ms[k..])
        && r.value == Revisions(k + 1, |ms|)
      ensures r.Err? ==> Rows(ledger) == old(Rows(ledger)) && schema == old(schema)
    {
      if ledger.None? {
        ledger := Some([]);
      }
      var report := Inspect(ms, ledger);
      if report.problems > 0 {
        return Err("academic-journal refuses to migrate");
      }
      var k := report.current;
      var applied: seq<int> := [];
      for i := 0 to |ms|
        invariant ledger.Some? && 0 <= k <= |ms|
        invariant var n := if i <= k then k else i;
          && ledger.value == RowsOf(ms[..n]) && schema == old(schema) + SqlOf(ms[k..n])
          && applied == Revisions(k + 1, n)
      {
        var m := ms[i];
        if m.revision > k {
          schema := schema + [m.sql];
          ledger := Some(ledger.value + [RowOf(m)]);
          applied := applied + [m.revision];
          OneMoreFile(ms, k, i);
        }
      }
      assert ms[..|ms|] == ms && ms[k..|ms|] == ms[k..];
      assert LedgerOk(Rows(ledger));
      report := Inspect(ms, ledger);
      r := Ok(applied);
    }
  }
}
