/** Ingesting search results: de-duplication against the identifier table. */
module Discovery {
  import opened Wrappers
  import opened Stages
  import opened Jobs

  datatype Source = OpenAlexId | SemanticScholarId | DoiId | ArxivId | PubMedId

  // One search result, reduced to its identifiers; "" where the provider gives none.
  datatype Record =
    | OpenAlex(id: string, doi: string)
    | SemanticScholar(id: string, doi: string, arxiv: string, pmid: string)
    | Crossref(doi: string)

  type Key = (Source, string)

  // max_attempts of a new job
  const MAX_ATTEMPTS: nat := 5

  datatype Tables = Tables(
    papers: nat,                 // rows of acad_papers
    ids: map<Key, PaperId>,      // acad_external_identifiers, UNIQUE (source, external_id)
    jobs: seq<Job>)

  // ON CONFLICT DO NOTHING
  function InsertId(ids: map<Key, PaperId>, source: Source, id: string, paper: PaperId): map<Key, PaperId> {
    if (source, id) in ids then ids else ids[(source, id) := paper]
  }

  function InsertIfGiven(ids: map<Key, PaperId>, source: Source, id: string, paper: PaperId): map<Key, PaperId> {
    if id == "" then ids else InsertId(ids, source, id, paper)
  }

  // The identifier a provider's results are told apart by.
  function Primary(r: Record): Key {
    match r
    case OpenAlex(id, _) => (OpenAlexId, id)
    case SemanticScholar(id, _, _, _) => (SemanticScholarId, id)
    case Crossref(doi) => (DoiId, doi)
  }

  // All identifiers stored with a new paper, in the order they are inserted.
  function AllIds(ids: map<Key, PaperId>, r: Record, paper: PaperId): map<Key, PaperId> {
    var first := InsertId(ids, Primary(r).0, Primary(r).1, paper);
    match r
    case OpenAlex(_, doi) => InsertIfGiven(first, DoiId, doi, paper)
    case SemanticScholar(_, doi, arxiv, pmid) =>
      InsertIfGiven(InsertIfGiven(InsertIfGiven(first, DoiId, doi, paper), ArxivId, arxiv, paper), PubMedId, pmid, paper)
    case Crossref(_) => first
  }

  // One result: whether it is a new paper, and the tables afterwards.
  function Admit(t: Tables, r: Record, now: real): (Tables, bool) {
    if Primary(r).1 == "" || Primary(r) in t.ids then (t, false)
    else if !r.Crossref? && r.doi != "" && (DoiId, r.doi) in t.ids then
      (t.(ids := InsertId(t.ids, Primary(r).0, Primary(r).1, t.ids[(DoiId, r.doi)])), false)
    else
      (Tables(t.papers + 1, AllIds(t.ids, r, t.papers),
              Enqueued(t.jobs, t.papers, Resolved, 0, MAX_ATTEMPTS, now)), true)
  }

  // A list of results, one after the other, and how many were new.
  function AdmitAll(t: Tables, rs: seq<Record>, now: real): (Tables, nat) {
    if rs == [] then (t, 0)
    else
      var (before, n) := AdmitAll(t, rs[..|rs| - 1], now);
      var (after, isNew) := Admit(before, rs[|rs| - 1], now);
      (after, if isNew then n + 1 else n)
  }

  // ---------- What the tables keep ----------

  // Identifiers and jobs belong to existing papers, and every paper owns some primary
  // identifier: one of the kind a provider's results are told apart by.
  ghost predicate TablesOk(t: Tables) {
    && (forall key :: key in t.ids ==> t.ids[key] < t.papers)
    && (forall j :: 0 <= j < |t.jobs| ==> t.jobs[j].paper < t.papers)
    && (forall p: PaperId :: p < t.papers ==> OwnsPrimary(t, p))
  }

  ghost predicate OwnsPrimary(t: Tables, p: PaperId) {
    exists r: Record :: Primary(r).1 != "" && Primary(r) in t.ids && t.ids[Primary(r)] == p
  }

  // No identifier is ever given to another paper.
  ghost predicate KeepsIds(a: map<Key, PaperId>, b: map<Key, PaperId>) {
    forall key :: key in a ==> key in b && b[key] == a[key]
  }

  lemma AdmitCounts(t: Tables, r: Record, now: real)
    requires TablesOk(t)
    ensures var (u, isNew) := Admit(t, r, now);
      && KeepsIds(t.ids, u.ids)
      && u.papers == t.papers + (if isNew then 1 else 0)
      && |u.jobs| == |t.jobs| + (if isNew then 1 else 0)
      && (isNew ==> Primary(r) in u.ids && u.ids[Primary(r)] == t.papers && u.jobs[|t.jobs|].paper == t.papers)
  {
  }

  lemma StillOwns(t: Tables, u: Tables, p: PaperId)
    requires OwnsPrimary(t, p) && KeepsIds(t.ids, u.ids)
    ensures OwnsPrimary(u, p)
  {
  }

  // One result keeps the tables in order; a new paper owns its primary identifier and has
  // its first job.
  lemma IngestKeeps(t: Tables, r: Record, now: real)
    requires TablesOk(t)
    ensures var (u, isNew) := Admit(t, r, now);
      && TablesOk(u) && KeepsIds(t.ids, u.ids)
      && u.papers == t.papers + (if isNew then 1 else 0)
      && |u.jobs| == |t.jobs| + (if isNew then 1 else 0)
      && (isNew ==> u.ids[Primary(r)] == t.papers && u.jobs[|t.jobs|].paper == t.papers)
  {
    var (u, isNew) := Admit(t, r, now);
    AdmitCounts(t, r, now);
    forall p: PaperId | p < u.papers ensures OwnsPrimary(u, p) {
      if p < t.papers {
        StillOwns(t, u, p);
      } else {
        assert Primary(r) in u.ids && u.ids[Primary(r)] == p;
      }
    }
  }

  // After any list of results: the number of new papers reported is the number of rows and
  // of jobs added, identifiers never move, and every paper owns its primary identifier.
  lemma {:induction false} NewPapersAreCounted(t: Tables, rs: seq<Record>, now: real)
    requires TablesOk(t)
    ensures var (u, n) := AdmitAll(t, rs, now);
      TablesOk(u) && KeepsIds(t.ids, u.ids) && u.papers == t.papers + n && |u.jobs| == |t.jobs| + n
  {
    if rs == [] {
    } else {
      NewPapersAreCounted(t, rs[..|rs| - 1], now);
      IngestKeeps(AdmitAll(t, rs[..|rs| - 1], now).0, rs[|rs| - 1], now);
    }
  }

  // ---------- De-duplication ----------

  function DoiOf(r: Record): string {
    match r
    case OpenAlex(_, doi) => doi
    case SemanticScholar(_, doi, _, _) => doi
    case Crossref(doi) => doi
  }

  // Every identifier the record gives.
  function IdsOf(r: Record): set<Key> {
    var ids: set<Key> :=
      match r
      case OpenAlex(id, doi) => {(OpenAlexId, id), (DoiId, doi)}
      case SemanticScholar(id, doi, arxiv, pmid) =>
        {(SemanticScholarId, id), (DoiId, doi), (ArxivId, arxiv), (PubMedId, pmid)}
      case Crossref(doi) => {(DoiId, doi)};
    set key | key in ids && key.1 != ""
  }

  // The record's own identifier or its DOI is stored.
  predicate Known(ids: map<Key, PaperId>, r: Record) {
    Primary(r) in ids || (DoiOf(r) != "" && (DoiId, DoiOf(r)) in ids)
  }

  // Nothing is added but, where the DOI is what told it, the record's own identifier, which
  // then belongs to the DOI's paper.
  ghost predicate Merged(t: Tables, r: Record, u: Tables) {
    && u.papers == t.papers && u.jobs == t.jobs && KeepsIds(t.ids, u.ids)
    && Primary(r) in u.ids
    && (Primary(r) !in t.ids ==>
          (DoiId, DoiOf(r)) in t.ids && u.ids[Primary(r)] == t.ids[(DoiId, DoiOf(r))])
    && (forall key :: key in u.ids && key !in t.ids ==> key == Primary(r))
  }

  // One paper is added, which gets every identifier of the record that nobody had, and one
  // job to resolve it, which claims may take at once.
  ghost predicate Inserted(t: Tables, r: Record, u: Tables, now: real) {
    && u.papers == t.papers + 1 && KeepsIds(t.ids, u.ids)
    && (forall key :: key in IdsOf(r) ==> key in u.ids && (key !in t.ids ==> u.ids[key] == t.papers))
    && (forall key :: key in u.ids && key !in t.ids ==> key in IdsOf(r))
    && t.jobs <= u.jobs && |u.jobs| == |t.jobs| + 1
    && var job := u.jobs[|t.jobs|];
       && job.paper == t.papers && job.stage == Resolved && job.attempts == 0
       && job.status.Pending? && ClaimableExactlyFrom(job, now)
  }

  lemma KnownIsMerged(t: Tables, r: Record, now: real)
    requires Primary(r).1 != "" && Known(t.ids, r)
    ensures Merged(t, r, Admit(t, r, now).0) && !Admit(t, r, now).1
  {
  }

  lemma UnknownIsInserted(t: Tables, r: Record, now: real)
    requires TablesOk(t) && Primary(r).1 != "" && !Known(t.ids, r)
    ensures Inserted(t, r, Admit(t, r, now).0, now) && Admit(t, r, now).1
  {
    assert !HasPending(t.jobs, t.papers, Resolved);
    StoresEach(t.ids, r, t.papers);
  }

  // The new paper gets these identifiers, as far as nobody had them, and no others.
  ghost predicate Gets(ids: map<Key, PaperId>, keys: set<Key>, paper: PaperId, after: map<Key, PaperId>) {
    && (forall key :: key in after <==> key in ids || key in keys)
    && (forall key :: key in after ==> after[key] == if key in ids then ids[key] else paper)
  }

  lemma GetsOneMore(ids: map<Key, PaperId>, keys: set<Key>, paper: PaperId, so: map<Key, PaperId>, source: Source, id: string)
    requires Gets(ids, keys, paper, so)
    ensures Gets(ids, if id == "" then keys else keys + {(source, id)}, paper, InsertIfGiven(so, source, id, paper))
  {
  }

  lemma StoresEach(ids: map<Key, PaperId>, r: Record, paper: PaperId)
    requires Primary(r).1 != "" && Primary(r) !in ids
    ensures Gets(ids, IdsOf(r), paper, AllIds(ids, r, paper))
  {
    var first, keys := InsertId(ids, Primary(r).0, Primary(r).1, paper), {Primary(r)};
    assert Gets(ids, keys, paper, first);
    match r
    case OpenAlex(_, doi) => GetsOneMore(ids, keys, paper, first, DoiId, doi);
    case SemanticScholar(_, doi, arxiv, pmid) =>
      GetsOneMore(ids, keys, paper, first, DoiId, doi);
      var second := InsertIfGiven(first, DoiId, doi, paper);
      keys := if doi == "" then keys else keys + {(DoiId, doi)};
      GetsOneMore(ids, keys, paper, second, ArxivId, arxiv);
      var third := InsertIfGiven(second, ArxivId, arxiv, paper);
      keys := if arxiv == "" then keys else keys + {(ArxivId, arxiv)};
      GetsOneMore(ids, keys, paper, third, PubMedId, pmid);
      keys := if pmid == "" then keys else keys + {(PubMedId, pmid)};
      assert keys == IdsOf(r);
    case Crossref(_) =>
  }

  // What one result does, by its identifiers alone: without one of its own it is passed
  // over, a known one adds no paper and no job, any other adds one of each.
  lemma AdmitsByIdentifiers(t: Tables, r: Record, now: real)
    requires TablesOk(t)
    ensures var (u, isNew) := Admit(t, r, now);
      if Primary(r).1 == "" then u == t && !isNew
      else if Known(t.ids, r) then Merged(t, r, u) && !isNew
      else Inserted(t, r, u, now) && isNew
  {
    if Primary(r).1 != "" {
      if Known(t.ids, r) {
        KnownIsMerged(t, r, now);
      } else {
        UnknownIsInserted(t, r, now);
      }
    }
  }

  // Whether the i-th result of a list was new.
  function NewAt(t: Tables, rs: seq<Record>, i: nat, now: real): bool
    requires i < |rs|
  {
    Admit(AdmitAll(t, rs[..i], now).0, rs[i], now).1
  }

  lemma {:induction false} IdsStay(t: Tables, rs: seq<Record>, i: nat, now: real)
    requires i <= |rs|
    ensures KeepsIds(AdmitAll(t, rs[..i], now).0.ids, AdmitAll(t, rs, now).0.ids)
    decreases |rs|
  {
    if i == |rs| {
      assert rs[..i] == rs;
    } else {
      var front := rs[..|rs| - 1];
      IdsStay(t, front, i, now);
      assert front[..i] == rs[..i];
    }
  }

  // A new result's DOI is stored with it.
  lemma NewStoresDoi(t: Tables, r: Record, now: real)
    requires DoiOf(r) != "" && Admit(t, r, now).1
    ensures !Known(t.ids, r) && (DoiId, DoiOf(r)) in Admit(t, r, now).0.ids
  {
  }

  // Of two results of a list with the same DOI, whatever their providers and whatever comes
  // between them, at most one is new.
  lemma OneNewPerDoi(t: Tables, rs: seq<Record>, i: nat, j: nat, now: real)
    requires i < j < |rs| && DoiOf(rs[i]) == DoiOf(rs[j]) != ""
    ensures !(NewAt(t, rs, i, now) && NewAt(t, rs, j, now))
  {
    if NewAt(t, rs, i, now) && NewAt(t, rs, j, now) {
      NewStoresDoi(AdmitAll(t, rs[..i], now).0, rs[i], now);
      assert rs[..i + 1][..i] == rs[..i];
      assert rs[..j][..i + 1] == rs[..i + 1];
      IdsStay(t, rs[..j], i + 1, now);
      NewStoresDoi(AdmitAll(t, rs[..j], now).0, rs[j], now);
      assert false;
    }
  }

  // Results that share a DOI add one paper between them if it was unknown and the first of
  // them has an identifier that was, none if it was known, and never more than one.
  lemma {:induction false} SharedDoiAddsOnePaper(t: Tables, rs: seq<Record>, doi: string, now: real)
    requires doi != "" && forall r :: r in rs ==> DoiOf(r) == doi
    ensures AdmitAll(t, rs, now).1 <= 1
    ensures (DoiId, doi) in t.ids ==> AdmitAll(t, rs, now).1 == 0
    ensures AdmitAll(t, rs, now).1 == 1 ==> (DoiId, doi) in AdmitAll(t, rs, now).0.ids
    ensures rs != [] && Primary(rs[0]).1 != "" && !Known(t.ids, rs[0]) ==> AdmitAll(t, rs, now).1 == 1
  {
    if rs != [] {
      var front, last := rs[..|rs| - 1], rs[|rs| - 1];
      assert last in rs && forall r :: r in front ==> r in rs;
      SharedDoiAddsOnePaper(t, front, doi, now);
      IdsStay(t, front, 0, now);
      assert front[..0] == [];
      if Admit(AdmitAll(t, front, now).0, last, now).1 {
        NewStoresDoi(AdmitAll(t, front, now).0, last, now);
      }
    }
  }

  // ---------- Rediscovery ----------

  // The result would be recognised.
  predicate Recognised(t: Tables, r: Record) {
    Primary(r).1 == "" || Primary(r) in t.ids
  }

  lemma IngestRecognises(t: Tables, r: Record, now: real)
    ensures Recognised(Admit(t, r, now).0, r)
    ensures forall q: Record :: Recognised(t, q) ==> Recognised(Admit(t, r, now).0, q)
  {
  }

  lemma {:induction false} AllRecognised(t: Tables, rs: seq<Record>, now: real)
    ensures forall r :: r in rs ==> Recognised(AdmitAll(t, rs, now).0, r)
    ensures forall r: Record :: Recognised(t, r) ==> Recognised(AdmitAll(t, rs, now).0, r)
  {
    if rs == [] {
    } else {
      var front, last := rs[..|rs| - 1], rs[|rs| - 1];
      AllRecognised(t, front, now);
      IngestRecognises(AdmitAll(t, front, now).0, last, now);
      assert rs == front + [last];
    }
  }

  lemma {:induction false} RecognisedChangesNothing(t: Tables, rs: seq<Record>, now: real)
    requires forall r :: r in rs ==> Recognised(t, r)
    ensures AdmitAll(t, rs, now) == (t, 0)
  {
    if rs == [] {
    } else {
      var front, last := rs[..|rs| - 1], rs[|rs| - 1];
      forall r | r in front ensures r in rs {
      }
      assert last in rs;
      RecognisedChangesNothing(t, front, now);
    }
  }

  // Seeing results again, in any order and any mix of providers, inserts and enqueues nothing.
  lemma RediscoveryIsIdempotent(t: Tables, rs: seq<Record>, again: seq<Record>, now: real, later: real)
    requires forall r :: r in again ==> r in rs
    ensures var u := AdmitAll(t, rs, now).0; AdmitAll(u, again, later) == (u, 0)
  {
    AllRecognised(t, rs, now);
    RecognisedChangesNothing(AdmitAll(t, rs, now).0, again, later);
  }

  // ---------- The tables as an object ----------

  // What was processed: the result's position in the provider's list, and the rank stored.
  datatype Visit = Visit(position: nat, rank: int)

  function PageVisits(offset: nat, length: nat, rank: int): seq<Visit> {
    seq(length, i requires 0 <= i => Visit(offset + i, rank + i))
  }

  class DiscoveryStore {
    var tables: Tables
    ghost var log: seq<Visit>

    constructor (tables: Tables)
      ensures this.tables == tables && log == []
    {
      this.tables := tables;
      log := [];
    }

    method FindPaper(source: Source, id: string) returns (paper: Option<PaperId>)
      ensures paper == if (source, id) in tables.ids then Some(tables.ids[(source, id)]) else None
    {
      paper := if (source, id) in tables.ids then Some(tables.ids[(source, id)]) else None;
    }

    method InsertPaper() returns (paper: PaperId)
      modifies this`tables
      ensures paper == old(tables.papers) && tables == old(tables).(papers := old(tables.papers) + 1)
    {
      paper := tables.papers;
      tables := tables.(papers := tables.papers + 1);
    }

    method InsertExternalId(paper: PaperId, source: Source, id: string)
      modifies this`tables
      ensures tables == old(tables).(ids := InsertId(old(tables.ids), source, id, paper))
    {
      if (source, id) !in tables.ids {
        tables := tables.(ids := tables.ids[(source, id) := paper]);
      }
    }

    method Enqueue(paper: PaperId, now: real)
      modifies this`tables
      ensures tables == old(tables).(jobs := Enqueued(old(tables.jobs), paper, Resolved, 0, MAX_ATTEMPTS, now))
    {
      tables := tables.(jobs := Enqueued(tables.jobs, paper, Resolved, 0, MAX_ATTEMPTS, now));
    }

    method IngestOpenAlex(r: Record, now: real) returns (isNew: bool)
      requires r.OpenAlex?
      modifies this`tables
      ensures (tables, isNew) == Admit(old(tables), r, now)
    {
      if r.id == "" {
        return false;
      }
      var existing := FindPaper(OpenAlexId, r.id);
      if existing.Some? {
        return false;
      }
      if r.doi != "" {
        existing := FindPaper(DoiId, r.doi);
        if existing.Some? {
          InsertExternalId(existing.value, OpenAlexId, r.id);
          return false;
        }
      }
      var paper := InsertPaper();
      InsertExternalId(paper, OpenAlexId, r.id);
      if r.doi != "" {
        InsertExternalId(paper, DoiId, r.doi);
      }
      Enqueue(paper, now);
      isNew := true;
    }

    method IngestSemanticScholar(r: Record, now: real) returns (isNew: bool)
      requires r.SemanticScholar?
      modifies this`tables
      ensures (tables, isNew) == Admit(old(tables), r, now)
    {
      if r.id == "" {
        return false;
      }
      var existing := FindPaper(SemanticScholarId, r.id);
      if existing.Some? {
        return false;
      }
      if r.doi != "" {
        existing := FindPaper(DoiId, r.doi);
        if existing.Some? {
          InsertExternalId(existing.value, SemanticScholarId, r.id);
          return false;
        }
      }
      var paper := InsertPaper();
      InsertExternalId(paper, SemanticScholarId, r.id);
      if r.doi != "" {
        InsertExternalId(paper, DoiId, r.doi);
      }
      if r.arxiv != "" {
        InsertExternalId(paper, ArxivId, r.arxiv);
      }
      if r.pmid != "" {
        InsertExternalId(paper, PubMedId, r.pmid);
      }
      Enqueue(paper, now);
      isNew := true;
    }

    method IngestCrossref(r: Record, now: real) returns (isNew: bool)
      requires r.Crossref?
      modifies this`tables
      ensures (tables, isNew) == Admit(old(tables), r, now)
    {
      if r.doi == "" {
        return false;
      }
      var existing := FindPaper(DoiId, r.doi);
      if existing.Some? {
        return false;
      }
      var paper := InsertPaper();
      InsertExternalId(paper, DoiId, r.doi);
      Enqueue(paper, now);
      isNew := true;
    }

    // One result: passed over without an identifier of its own, merged into the paper that
    // has that identifier or its DOI, or inserted.
    method Ingest(r: Record, now: real) returns (isNew: bool)
      modifies this`tables
      ensures (tables, isNew) == Admit(old(tables), r, now)
      ensures TablesOk(old(tables)) ==>
        if Primary(r).1 == "" then tables == old(tables) && !isNew
        else if Known(old(tables.ids), r) then Merged(old(tables), r, tables) && !isNew
        else Inserted(old(tables), r, tables, now) && isNew
    {
      if TablesOk(tables) {
        AdmitsByIdentifiers(tables, r, now);
      }
      match r
      case OpenAlex(_, _) => isNew := IngestOpenAlex(r, now);
      case SemanticScholar(_, _, _, _) => isNew := IngestSemanticScholar(r, now);
      case Crossref(_) => isNew := IngestCrossref(r, now);
    }

    // One page of results, the first of them at `offset` of the list and ranked `rank`. A
    // page whose results all have one DOI adds one paper at most.
    method IngestPage(page: seq<Record>, ghost offset: nat, rank: int, now: real) returns (n: nat)
      modifies this
      ensures AdmitAll(old(tables), page, now) == (tables, n)
      ensures page != [] && DoiOf(page[0]) != "" && (forall r :: r in page ==> DoiOf(r) == DoiOf(page[0])) ==> n <= 1
      ensures log == old(log) + PageVisits(offset, |page|, rank)
    {
      n := 0;
      for i := 0 to |page|
        invariant AdmitAll(old(tables), page[..i], now) == (tables, n)
        invariant log == old(log) + PageVisits(offset, i, rank)
      {
        assert page[..i + 1][..i] == page[..i];
        var isNew := Ingest(page[i], now);
        log := log + [Visit(offset + i, rank + i)];
        if isNew {
          n := n + 1;
        }
      }
      assert page[..|page|] == page;
      if page != [] && DoiOf(page[0]) != "" && forall r :: r in page ==> DoiOf(r) == DoiOf(page[0]) {
        SharedDoiAddsOnePaper(old(tables), page, DoiOf(page[0]), now);
      }
    }

    // The paper with this DOI: one already known, or the one a lookup of the DOI brings in
    // (none when the lookup fails). No paper when what it brought in has another DOI.
    method DiscoverByDoi(doi: string, lookup: Option<Record>, now: real) returns (paper: Option<PaperId>)
      requires lookup.Some? ==> lookup.value.OpenAlex?
      modifies this`tables
      ensures paper.Some? <==> (DoiId, doi) in tables.ids && ((DoiId, doi) in old(tables.ids) || lookup.Some?)
      ensures paper.Some? ==> tables.ids[(DoiId, doi)] == paper.value
      ensures (DoiId, doi) in old(tables.ids) || lookup.None? ==> tables == old(tables)
      ensures (DoiId, doi) !in old(tables.ids) && lookup.Some? ==>
        && tables == Admit(old(tables), lookup.value, now).0
        && (lookup.value.doi == doi && doi != "" && lookup.value.id != "" ==>
              (paper.Some? <==> (OpenAlexId, lookup.value.id) !in old(tables.ids))
              && (paper.Some? ==> paper == Some(old(tables.papers)) && tables.papers == old(tables.papers) + 1))
    {
      paper := FindPaper(DoiId, doi);
      if paper.Some? || lookup.None? {
        return;
      }
      var isNew := IngestOpenAlex(lookup.value, now);
      paper := FindPaper(DoiId, doi);
    }
  }
}
