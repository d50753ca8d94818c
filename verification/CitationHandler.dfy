/**
 * The citation handler as the program it is: the flush loop and the loop over the
 * bibliography, working statement by statement on the tables. Between any two of its
 * statements ingestion may link documents, users may add papers, other citation workers may
 * take any steps of their own, and the handler may be cut short. Every execution is a run of
 * the state machine in Citations.dfy.
 */
module CitationHandler {
  import opened Wrappers
  import opened Citations

  // What another citation worker does next; `ok` says whether the edge is created.
  datatype Act =
    | Begins(paper: PaperId)
    | Fetches
    | MakesEdge(ok: bool)
    | Deletes
    | Extracts
    | Finds(doi: Doi)
    | Discovers(doi: Doi)
    | Stores(ok: bool)
    | Ends

  datatype Event =
    | Links(paper: PaperId, doc: DocId)
    | Adds(doi: Option<Doi>)
    | Acts(w: WorkerId, act: Act)

  // What a handler finds when it reaches an entry.
  datatype Reached = Reached(dois: map<Doi, PaperId>, spawned: int)

  // What becomes of an entry that was reached as given, when the handler goes on: a known
  // DOI is processed; an unknown one is discovered and processed, if the paper is at depth
  // 0 or 1, the budget allows it and the lookup does not fail, and otherwise left.
  ghost predicate EntryDone(
    s: State, budget: int, paper: PaperId, depth: nat, doi: Doi, seen: Reached, spawned: int, lookupsWork: bool)
  {
    && SameOrMore(seen.dois, s.dois)
    && (spawned == seen.spawned || spawned == seen.spawned + 1)
    && (doi in seen.dois ==> spawned == seen.spawned && (paper, s.dois[doi]) in s.processed)
    && (doi !in seen.dois && spawned == seen.spawned + 1 ==>
          && depth <= 1 && seen.spawned < budget && doi in s.dois && (paper, s.dois[doi]) in s.processed
          && s.dois[doi] < |s.papers| && s.papers[s.dois[doi]].depth == Some(depth + 1))
    && (doi !in seen.dois && depth <= 1 && seen.spawned < budget && lookupsWork ==> spawned == seen.spawned + 1)
  }

  // The first n entries are done, each reached with the count the one before it left; one
  // without a DOI leaves it as it was.
  ghost predicate EntriesDone(
    s: State, budget: int, paper: PaperId, depth: nat, entries: seq<Doi>, reached: seq<Reached>, n: nat, lookupsWork: bool)
    requires n <= |entries| && n < |reached|
  {
    && (forall i :: 0 <= i < n && entries[i] != "" ==>
          EntryDone(s, budget, paper, depth, entries[i], reached[i], reached[i + 1].spawned, lookupsWork))
    && (forall i :: 0 <= i < n && entries[i] == "" ==> reached[i + 1].spawned == reached[i].spawned)
  }

  lemma EntryStaysDone(
    s: State, t: State, budget: int, paper: PaperId, depth: nat, doi: Doi, seen: Reached, spawned: int, lookupsWork: bool)
    requires EntryDone(s, budget, paper, depth, doi, seen, spawned, lookupsWork) && Advances(s, t)
    ensures EntryDone(t, budget, paper, depth, doi, seen, spawned, lookupsWork)
  {
  }

  lemma EntriesStayDone(
    s: State, t: State, budget: int, paper: PaperId, depth: nat, entries: seq<Doi>, reached: seq<Reached>, n: nat,
    lookupsWork: bool)
    requires n <= |entries| && n < |reached| && EntriesDone(s, budget, paper, depth, entries, reached, n, lookupsWork)
    requires Advances(s, t)
    ensures EntriesDone(t, budget, paper, depth, entries, reached, n, lookupsWork)
  {
    forall i | 0 <= i < n && entries[i] != ""
      ensures EntryDone(t, budget, paper, depth, entries[i], reached[i], reached[i + 1].spawned, lookupsWork)
    {
      EntryStaysDone(s, t, budget, paper, depth, entries[i], reached[i], reached[i + 1].spawned, lookupsWork);
    }
  }

  // One more, done when the tables had come from s to t.
  lemma OneMoreDone(
    s: State, t: State, budget: int, paper: PaperId, depth: nat, entries: seq<Doi>, reached: seq<Reached>, n: nat,
    seen: Reached, next: Reached, lookupsWork: bool)
    requires n < |entries| && |reached| == n + 1 && Advances(s, t)
    requires EntriesDone(s, budget, paper, depth, entries, reached, n, lookupsWork) && seen.spawned == reached[n].spawned
    requires if entries[n] == "" then next.spawned == seen.spawned
             else EntryDone(t, budget, paper, depth, entries[n], seen, next.spawned, lookupsWork)
    ensures EntriesDone(t, budget, paper, depth, entries, reached[n := seen] + [next], n + 1, lookupsWork)
  {
    EntriesStayDone(s, t, budget, paper, depth, entries, reached, n, lookupsWork);
    var after := reached[n := seen] + [next];
    assert forall i :: 0 <= i <= n ==> after[i].spawned == reached[i].spawned;
    assert forall i :: 0 <= i < n ==> after[i] == reached[i];
  }

  // What looking an entry up has led to: the paper with its DOI, found in s or added to it.
  ghost predicate Resolved(s: State, t: State, budget: int, depth: nat, doi: Doi, spawned: int, after: int) {
    && doi in t.dois && t.dois[doi] < |t.papers|
    && (if doi in s.dois then t.dois == s.dois && after == spawned
        else && t.papers == s.papers + [Paper(None, Some(depth + 1))] && t.dois[doi] == |s.papers|
             && after == spawned + 1 && depth <= 1 && spawned < budget)
  }

  // The entry reached as given is resolved, and has still to be stored.
  ghost predicate HalfDone(s: State, budget: int, depth: nat, doi: Doi, seen: Reached, spawned: int) {
    && SameOrMore(seen.dois, s.dois) && doi in s.dois
    && (doi in seen.dois ==> spawned == seen.spawned)
    && (doi !in seen.dois ==>
          && spawned == seen.spawned + 1 && depth <= 1 && seen.spawned < budget
          && s.dois[doi] < |s.papers| && s.papers[s.dois[doi]].depth == Some(depth + 1))
  }

  lemma ResolvedIsHalfDone(s: State, t: State, budget: int, depth: nat, doi: Doi, spawned: int, after: int)
    requires Resolved(s, t, budget, depth, doi, spawned, after) && SameOrMore(s.dois, t.dois)
    ensures HalfDone(t, budget, depth, doi, Reached(s.dois, spawned), after)
  {
  }

  lemma StoredIsDone(
    s: State, t: State, budget: int, paper: PaperId, depth: nat, doi: Doi, seen: Reached, spawned: int, lookupsWork: bool)
    requires HalfDone(s, budget, depth, doi, seen, spawned) && Advances(s, t) && (paper, s.dois[doi]) in t.processed
    ensures EntryDone(t, budget, paper, depth, doi, seen, spawned, lookupsWork)
  {
  }

  class CitationStore {
    var papers: seq<Paper>
    var dois: map<Doi, PaperId>
    var edges: set<(DocId, DocId)>
    var pending: set<(PaperId, PaperId)>
    var handlers: map<WorkerId, Handler>   // what each worker's running handler has in hand
    const budget: int

    // What the rest of the system does: at the n-th pause, the events that happen then,
    // whether the handler is cut short there, and whether a provider lookup or the creation
    // of an edge then fails.
    const events: nat -> seq<Event>
    const cuts: set<nat>
    const lookupsFail: set<nat>
    const edgesFail: set<nat>

    // Whether edges created in a flush, and those created at once, can fail at all.
    const flushMayFail: bool
    const directMayFail: bool
    var pauses: nat

    ghost var run: seq<Label>
    ghost var found: set<(PaperId, PaperId)>
    ghost var processed: set<(PaperId, PaperId)>
    ghost var flushed: set<PaperId>

    ghost function View(): State
      reads this
    {
      State(papers, dois, edges, pending, handlers, found, processed, flushed)
    }

    // The tables are where a run of the state machine from an empty database has brought
    // them, in which only such edges fail as may, so every theorem about runs holds of them.
    ghost predicate Valid()
      reads this
    {
      Exec(budget, EMPTY, run) == Some(View()) && Within(flushMayFail, directMayFail, run)
    }

    // The run goes on from where it was.
    twostate predicate Onward()
      reads this
    {
      old(run) <= run && old(pauses) <= pauses
    }

    // No pause from the n-th up to the present cuts the handler short.
    ghost predicate NotCutSince(n: nat)
      reads this
    {
      forall k :: n <= k < pauses ==> k !in cuts
    }

    // The last pause, no earlier than the n-th, has cut the handler short.
    ghost predicate CutNow(n: nat)
      reads this
    {
      n < pauses && pauses - 1 in cuts
    }

    // No edge fails from the n-th pause on.
    ghost predicate EdgesWork(n: nat) {
      forall k :: n <= k ==> k !in edgesFail
    }

    // No lookup fails from the n-th pause on.
    ghost predicate LookupsWork(n: nat) {
      forall k :: n <= k ==> k !in lookupsFail
    }

    lemma Facts()
      requires Valid()
      ensures Sound(View())
      ensures !directMayFail ==> Kept(View())
      ensures !flushMayFail && AtMost(budget, 1, EMPTY, run) ==> FlushedClean(View())
    {
      SoundRun(budget, run);
      if !directMayFail {
        assert Within(true, false, run);
        KeptRun(budget, run);
      }
      if !flushMayFail && AtMost(budget, 1, EMPTY, run) {
        assert Within(false, true, run);
        FlushedRun(budget, run);
      }
    }

    // What the run has kept since it was there.
    lemma Since(s: State, before: seq<Label>)
      requires Valid() && before <= run && Exec(budget, EMPTY, before) == Some(s)
      ensures Advances(s, View())
    {
      assert run[..|before|] == before;
      RunAdvances(budget, run, |before|);
    }

    // The worker's paper still has the document it had when its handler began.
    lemma PaperLinked(w: WorkerId)
      requires Valid() && w in handlers
      ensures HandlerSound(View(), handlers[w])
    {
      Facts();
    }

    constructor (budget: int, events: nat -> seq<Event>, cuts: set<nat>,
                 lookupsFail: set<nat>, edgesFail: set<nat>, flushMayFail: bool, directMayFail: bool)
      ensures Valid() && View() == EMPTY && this.budget == budget
      ensures this.flushMayFail == flushMayFail && this.directMayFail == directMayFail
    {
      papers, dois, edges, pending, pauses := [], map[], {}, {}, 0;
      this.budget, this.events, this.cuts := budget, events, cuts;
      this.lookupsFail, this.edgesFail := lookupsFail, edgesFail;
      this.flushMayFail, this.directMayFail := flushMayFail, directMayFail;
      handlers, run := map[], [];
      found, processed, flushed := {}, {}, {};
    }

    // The tables and the history have been changed as the step says.
    ghost method Took(before: State, l: Label)
      requires Exec(budget, EMPTY, run) == Some(before) && Within(flushMayFail, directMayFail, run)
      requires Enabled(budget, before, l) && View() == Apply(budget, before, l)
      requires (l.EdgeFails? ==> flushMayFail) && (l.StoreFails? ==> directMayFail)
      modifies this`run
      ensures Valid() && run == old(run) + [l]
    {
      assert (run + [l])[..|run|] == run;
      run := run + [l];
    }

    // ---------- The statements, for any worker ----------

    method BeginAt(w: WorkerId, paper: PaperId)
      requires Valid() && w !in handlers && paper < |papers| && papers[paper].doc.Some?
      modifies this`handlers, this`run
      ensures Valid() && Onward()
      ensures handlers == old(handlers)[w := Reading(paper, papers[paper].doc.value, DepthOf(papers[paper]))]
    {
      ghost var before := View();
      handlers := handlers[w := Reading(paper, papers[paper].doc.value, DepthOf(papers[paper]))];
      Took(before, Start(w, paper));
    }

    // The pending rows of the worker's paper joined with their citing papers' documents.
    method FetchAt(w: WorkerId) returns (rows: seq<PendingRow>)
      requires Valid() && w in handlers && handlers[w].Reading?
      modifies this`handlers, this`run
      ensures Valid() && Onward() && FetchedFor(old(View()), old(handlers)[w].paper, rows)
      ensures var h := old(handlers)[w];
              handlers == old(handlers)[w := Flushing(h.paper, h.doc, h.depth, rows, false)]
    {
      Facts();
      var h := handlers[w];
      var todo := set pair | pair in pending && pair.1 == h.paper :: pair.0;
      rows := [];
      while todo != {}
        invariant forall c :: c in todo ==> (c, h.paper) in pending
        invariant forall i :: 0 <= i < |rows| ==>
          && (rows[i].citing, h.paper) in pending && rows[i].citing < |papers|
          && rows[i].citingDoc == papers[rows[i].citing].doc
        invariant forall c :: (c, h.paper) in pending ==> c in todo || exists i :: 0 <= i < |rows| && rows[i].citing == c
      {
        var c :| c in todo;
        todo := todo - {c};
        assert HasDoc(View(), c);
        ghost var shorter := rows;
        rows := rows + [PendingRow(c, papers[c].doc)];
        assert rows[|shorter|].citing == c;
        assert forall i :: 0 <= i < |shorter| ==> rows[i] == shorter[i];
      }
      ghost var before := View();
      handlers := handlers[w := Flushing(h.paper, h.doc, h.depth, rows, false)];
      Took(before, Fetch(w, rows));
    }

    // The edge of the row in hand, unless it fails: then the row is passed over. The branch
    // that passes it over for want of a citing document is never taken.
    method EdgeAt(w: WorkerId, ok: bool)
      requires Valid() && Flushes(View(), w, false) && (!ok ==> flushMayFail)
      modifies this`edges, this`handlers, this`run
      ensures Valid() && Onward()
      ensures var h := old(handlers)[w];
        && handlers == old(handlers)[w := if ok then h.(edged := true) else h.(rows := h.rows[1..])]
        && (ok ==> IsEdge(View(), h.rows[0].citing, h.paper))
    {
      var h := handlers[w];
      PaperLinked(w);
      assert RowOk(View(), h.rows[0]);
      ghost var before := View();
      if ok {
        edges := edges + {(h.rows[0].citingDoc.value, h.doc)};
        handlers := handlers[w := h.(edged := true)];
        Took(before, EdgeRow(w));
      } else {
        handlers := handlers[w := h.(rows := h.rows[1..])];
        Took(before, EdgeFails(w));
      }
    }

    // A row is deleted only when its edge is there.
    method DeleteAt(w: WorkerId)
      requires Valid() && Flushes(View(), w, true)
      modifies this`pending, this`handlers, this`run
      ensures Valid() && Onward()
      ensures var h := old(handlers)[w];
        && IsEdge(View(), h.rows[0].citing, h.paper)
        && pending == old(pending) - {(h.rows[0].citing, h.paper)}
        && handlers == old(handlers)[w := h.(rows := h.rows[1..], edged := false)]
    {
      var h := handlers[w];
      PaperLinked(w);
      ghost var before := View();
      pending := pending - {(h.rows[0].citing, h.paper)};
      handlers := handlers[w := h.(rows := h.rows[1..], edged := false)];
      Took(before, DeleteRow(w));
    }

    // How many papers snowballing has created.
    method CountSnowballed() returns (n: nat)
      ensures n == Count(papers)
    {
      n := 0;
      for i := 0 to |papers|
        invariant n == Count(papers[..i])
      {
        assert papers[..i + 1][..i] == papers[..i];
        if papers[i].depth.Some? {
          n := n + 1;
        }
      }
      assert papers[..|papers|] == papers;
    }

    method ExtractAt(w: WorkerId)
      requires Valid() && w in handlers && handlers[w].Flushing? && handlers[w].rows == []
      modifies this`handlers, this`flushed, this`run
      ensures Valid() && Onward() && old(handlers)[w].paper in flushed
      ensures var h := old(handlers)[w];
              handlers == old(handlers)[w := Extracting(h.paper, h.doc, h.depth, Count(papers))]
    {
      var h := handlers[w];
      var spawned := CountSnowballed();
      ghost var before := View();
      handlers := handlers[w := Extracting(h.paper, h.doc, h.depth, spawned)];
      flushed := flushed + {h.paper};
      Took(before, Extract(w));
    }

    // The paper that has the DOI.
    method FindAt(w: WorkerId, doi: Doi)
      requires Valid() && w in handlers && handlers[w].Extracting? && doi in dois
      modifies this`handlers, this`found, this`run
      ensures Valid() && Onward() && dois[doi] < |papers|
      ensures var h := old(handlers)[w];
        handlers == old(handlers)[w := Storing(h.paper, h.doc, h.depth, h.spawned, dois[doi], papers[dois[doi]].doc)]
    {
      Facts();
      ghost var before := View();
      var h, cited := handlers[w], dois[doi];
      handlers := handlers[w := Storing(h.paper, h.doc, h.depth, h.spawned, cited, papers[cited].doc)];
      found := found + {(h.paper, cited)};
      Took(before, Lookup(w, doi));
    }

    // Discovers the DOI's paper and sets its crawl depth.
    method DiscoverAt(w: WorkerId, doi: Doi)
      requires Valid() && w in handlers && CanSpawn(budget, handlers[w]) && doi !in dois
      modifies this`handlers, this`found, this`run, this`papers, this`dois
      ensures Valid() && Onward()
      ensures var h := old(handlers)[w];
        && papers == old(papers) + [Paper(None, Some(h.depth + 1))] && dois == old(dois)[doi := |old(papers)|]
        && handlers == old(handlers)[w := Storing(h.paper, h.doc, h.depth, h.spawned + 1, |old(papers)|, None)]
    {
      ghost var before := View();
      var h, cited := handlers[w], |papers|;
      papers := papers + [Paper(None, Some(h.depth + 1))];
      dois := dois[doi := cited];
      handlers := handlers[w := Storing(h.paper, h.doc, h.depth, h.spawned + 1, cited, None)];
      found := found + {(h.paper, cited)};
      Took(before, Discover(w, doi));
    }

    // Stores the citation as an edge or as a pending row. An edge that cannot be created
    // leaves neither.
    method StoreAt(w: WorkerId, ok: bool)
      requires Valid() && w in handlers && handlers[w].Storing?
      requires !ok ==> directMayFail && handlers[w].citedDoc.Some?
      modifies this`edges, this`pending, this`processed, this`handlers, this`run
      ensures Valid() && Onward()
      ensures var h := old(handlers)[w];
        && handlers == old(handlers)[w := Extracting(h.paper, h.doc, h.depth, h.spawned)]
        && processed == old(processed) + {(h.paper, h.cited)}
        && (ok ==> IsEdge(View(), h.paper, h.cited) || (h.paper, h.cited) in pending)
    {
      var h := handlers[w];
      PaperLinked(w);
      ghost var before := View();
      if ok {
        if h.citedDoc.Some? {
          edges := edges + {(h.doc, h.citedDoc.value)};
        } else {
          pending := pending + {(h.paper, h.cited)};
        }
      }
      handlers := handlers[w := Extracting(h.paper, h.doc, h.depth, h.spawned)];
      processed := processed + {(h.paper, h.cited)};
      Took(before, if ok then Store(w) else StoreFails(w));
    }

    method EndAt(w: WorkerId)
      requires Valid() && w in handlers
      modifies this`handlers, this`run
      ensures Valid() && Onward() && handlers == old(handlers) - {w}
    {
      ghost var before := View();
      handlers := handlers - {w};
      Took(before, Label.End(w));
    }

    // ---------- The rest of the system ----------

    // Another worker's step, if it is at that point.
    method OtherActs(w: WorkerId, act: Act)
      requires Valid()
      modifies this
      ensures Valid() && Onward() && pauses == old(pauses)
      ensures forall v :: v != w ==>
        (v in handlers <==> v in old(handlers)) && (v in handlers ==> handlers[v] == old(handlers)[v])
    {
      if act.Begins? {
        if w !in handlers && act.paper < |papers| && papers[act.paper].doc.Some? {
          BeginAt(w, act.paper);
        }
      } else if w in handlers {
        var h := handlers[w];
        match act
        case Begins(_) =>
        case Fetches =>
          if h.Reading? {
            var rows := FetchAt(w);
          }
        case MakesEdge(ok) =>
          if h.Flushing? && h.rows != [] && !h.edged {
            EdgeAt(w, ok || !flushMayFail);
          }
        case Deletes =>
          if h.Flushing? && h.rows != [] && h.edged {
            DeleteAt(w);
          }
        case Extracts =>
          if h.Flushing? && h.rows == [] {
            ExtractAt(w);
          }
        case Finds(doi) =>
          if h.Extracting? && doi in dois {
            FindAt(w, doi);
          }
        case Discovers(doi) =>
          if CanSpawn(budget, h) && doi !in dois {
            DiscoverAt(w, doi);
          }
        case Stores(ok) =>
          if h.Storing? {
            StoreAt(w, ok || !directMayFail || h.citedDoc.None?);
          }
        case Ends => EndAt(w);
      }
    }

    method EnvironmentActs(now: Event, me: WorkerId)
      requires Valid()
      modifies this
      ensures Valid() && Onward() && pauses == old(pauses)
      ensures (me in handlers <==> me in old(handlers)) && (me in handlers ==> handlers[me] == old(handlers)[me])
    {
      ghost var before := View();
      match now
      case Links(paper, doc) =>
        if paper < |papers| && papers[paper].doc.None? {
          papers := papers[paper := papers[paper].(doc := Some(doc))];
          Took(before, Link(paper, doc));
        }
      case Adds(doi) =>
        if doi.None? || doi.value !in dois {
          dois := if doi.Some? then dois[doi.value := |papers|] else dois;
          papers := papers + [Paper(None, None)];
          Took(before, AddPaper(doi));
        }
      case Acts(w, act) =>
        if w != me {
          OtherActs(w, act);
        }
    }

    // A pause of worker `me` at a database or provider call: whatever happens then, its
    // handler still has in hand what it had.
    method Pause(me: WorkerId) returns (goesOn: bool)
      requires Valid() && me in handlers
      modifies this
      ensures Valid() && Onward()
      ensures me in handlers && handlers[me] == old(handlers)[me]
      ensures pauses == old(pauses) + 1 && (goesOn <==> old(pauses) !in cuts)
    {
      var now := events(pauses);
      for i := 0 to |now|
        invariant Valid() && Onward() && pauses == old(pauses)
        invariant me in handlers && handlers[me] == old(handlers)[me]
      {
        EnvironmentActs(now[i], me);
      }
      goesOn := pauses !in cuts;
      pauses := pauses + 1;
    }

    // ---------- The handler ----------

    // A pause that may cut it short.
    method PauseOrEnd(me: WorkerId) returns (goesOn: bool)
      requires Valid() && me in handlers
      modifies this
      ensures Valid() && Onward() && pauses == old(pauses) + 1 && (goesOn <==> old(pauses) !in cuts)
      ensures if goesOn then me in handlers && handlers[me] == old(handlers)[me] else me !in handlers
    {
      goesOn := Pause(me);
      if !goesOn {
        EndAt(me);
      }
    }

    // One fetched row: the edge, then the deletion of the pending row.
    method FlushRow(me: WorkerId) returns (made: bool, goesOn: bool)
      requires Valid() && Flushes(View(), me, false)
      modifies this
      ensures Valid() && Onward()
      ensures var h := old(handlers)[me];
        if goesOn then
          && me in handlers && handlers[me] == h.(rows := h.rows[1..])
          && (made ==> IsEdge(View(), h.rows[0].citing, h.paper) && (h.rows[0].citing, h.paper) !in pending)
          && (made <==> !(flushMayFail && old(pauses) + 1 in edgesFail))
        else me !in handlers
      ensures if goesOn then NotCutSince(old(pauses)) else CutNow(old(pauses))
    {
      made := false;
      ghost var h := handlers[me];
      goesOn := PauseOrEnd(me);
      if !goesOn {
        return;
      }
      made := !(flushMayFail && pauses in edgesFail);
      EdgeAt(me, made);
      if !made {
        return;
      }
      goesOn := PauseOrEnd(me);
      if !goesOn {
        return;
      }
      DeleteAt(me);
    }

    // Turns the citations that waited for the worker's paper into edges, row by row.
    method FlushPendingTo(me: WorkerId) returns (flushedRows: nat, goesOn: bool)
      requires Valid() && me in handlers && handlers[me].Reading?
      modifies this
      ensures Valid() && Onward()
      ensures var h := old(handlers)[me];
        if goesOn then me in handlers && handlers[me] == Flushing(h.paper, h.doc, h.depth, [], false)
        else me !in handlers
      ensures if goesOn then NotCutSince(old(pauses)) else CutNow(old(pauses))
      ensures goesOn && (!flushMayFail || EdgesWork(old(pauses))) ==>
        forall c :: (c, old(handlers)[me].paper) in old(pending) ==> IsEdge(View(), c, old(handlers)[me].paper)
    {
      var rows := FetchAt(me);
      ghost var h := handlers[me];
      flushedRows := 0;
      goesOn := true;
      for i := 0 to |rows|
        invariant Valid() && Onward() && goesOn && NotCutSince(old(pauses))
        invariant me in handlers && handlers[me] == h.(rows := rows[i..])
        invariant !flushMayFail || EdgesWork(old(pauses)) ==> flushedRows == i && forall k :: 0 <= k < i ==> IsEdge(View(), rows[k].citing, h.paper)
      {
        assert rows[i..][0] == rows[i] && rows[i..][1..] == rows[i + 1..];
        ghost var before, ran := View(), run;
        var made;
        made, goesOn := FlushRow(me);
        if !goesOn {
          return;
        }
        Since(before, ran);
        EdgesStay(before, View());
        if made {
          flushedRows := flushedRows + 1;
        }
      }
    }

    // What there is when an entry is looked up: the DOIs known, and how many papers
    // snowballing had created when the handler counted them plus its own since.
    ghost function Seen(me: WorkerId): Reached
      reads this
      requires me in handlers && handlers[me].Extracting?
    {
      Reached(dois, handlers[me].spawned)
    }

    // The entry's target: the paper that has the DOI, or a new one if snowballing allows:
    // from a paper of depth 0 or 1, while the count is below the budget.
    method ResolveEntry(me: WorkerId, doi: Doi) returns (known: bool)
      requires Valid() && me in handlers && handlers[me].Extracting?
      modifies this
      ensures Valid() && Onward() && me in handlers && pauses == old(pauses)
      ensures !known ==> View() == old(View()) && doi !in dois
      ensures old(handlers)[me].depth <= 1 && old(handlers)[me].spawned < budget && pauses !in lookupsFail ==> known
      ensures var h, after := old(handlers)[me], handlers[me];
        known ==>
          && after.Storing? && after.paper == h.paper && after.doc == h.doc && after.depth == h.depth
          && Resolved(old(View()), View(), budget, h.depth, doi, h.spawned, after.spawned) && after.cited == dois[doi]
          && after.spawned + Count(old(papers)) <= h.spawned + Count(papers)
    {
      known := true;
      if doi in dois {
        FindAt(me, doi);
      } else if CanSpawn(budget, handlers[me]) && pauses !in lookupsFail {
        CountAppend(papers, Paper(None, Some(handlers[me].depth + 1)));
        DiscoverAt(me, doi);
      } else {
        known := false;
      }
    }

    // The second half of an entry: its edge or pending row.
    method StoreEntry(me: WorkerId) returns (goesOn: bool)
      requires Valid() && me in handlers && handlers[me].Storing?
      modifies this
      ensures Valid() && Onward() && pauses == old(pauses) + 1 && (goesOn <==> old(pauses) !in cuts)
      ensures var h := old(handlers)[me];
        if goesOn then
          && me in handlers && handlers[me] == Extracting(h.paper, h.doc, h.depth, h.spawned)
          && (h.paper, h.cited) in processed
          && (!directMayFail || old(pauses) + 1 !in edgesFail || h.citedDoc.None? ==>
                IsEdge(View(), h.paper, h.cited) || (h.paper, h.cited) in pending)
        else me !in handlers
    {
      goesOn := PauseOrEnd(me);
      if goesOn {
        StoreAt(me, handlers[me].citedDoc.None? || !(directMayFail && pauses in edgesFail));
      }
    }

    // The first half: its target. One that is left is done with.
    method LookUpEntry(me: WorkerId, doi: Doi, ghost lookupsWork: bool)
      returns (goesOn: bool, known: bool, ghost seen: Reached)
      requires Valid() && me in handlers && handlers[me].Extracting? && handlers[me].spawned <= Count(papers)
      requires lookupsWork ==> LookupsWork(pauses)
      modifies this
      ensures Valid() && Onward() && pauses == old(pauses) + 1 && (goesOn <==> old(pauses) !in cuts)
      ensures !goesOn ==> me !in handlers
      ensures goesOn ==>
        && me in handlers && SameOrMore(old(dois), seen.dois) && seen.spawned == old(handlers)[me].spawned
        && (handlers[me].Extracting? || handlers[me].Storing?) && handlers[me].spawned <= Count(papers)
      ensures var h := old(handlers)[me];
        && (goesOn && !known ==>
              && handlers[me] == h
              && EntryDone(View(), budget, h.paper, h.depth, doi, seen, h.spawned, lookupsWork))
        && (goesOn && known ==>
              && handlers[me].Storing? && handlers[me].paper == h.paper && handlers[me].doc == h.doc
              && handlers[me].depth == h.depth && doi in dois && handlers[me].cited == dois[doi]
              && HalfDone(View(), budget, h.depth, doi, seen, handlers[me].spawned))
    {
      ghost var s, ran := View(), run;
      known, seen := false, Reached(dois, 0);
      goesOn := PauseOrEnd(me);
      Since(s, ran);
      if goesOn {
        seen := Seen(me);
        ghost var h := handlers[me];
        s, ran := View(), run;
        known := ResolveEntry(me, doi);
        Since(s, ran);
        if known {
          ResolvedIsHalfDone(s, View(), budget, h.depth, doi, h.spawned, handlers[me].spawned);
        }
      }
    }

    // One bibliography entry, from its lookup to its edge or pending row.
    method ProcessEntry(me: WorkerId, doi: Doi, ghost lookupsWork: bool)
      returns (goesOn: bool, ghost seen: Reached)
      requires Valid() && me in handlers && handlers[me].Extracting? && handlers[me].spawned <= Count(papers)
      requires lookupsWork ==> LookupsWork(pauses)
      modifies this
      ensures Valid() && Onward()
      ensures if goesOn then NotCutSince(old(pauses)) else CutNow(old(pauses))
      ensures var h := old(handlers)[me];
        if goesOn then
          && me in handlers && handlers[me].Extracting?
          && handlers[me] == Extracting(h.paper, h.doc, h.depth, handlers[me].spawned)
          && SameOrMore(old(dois), seen.dois) && seen.spawned == h.spawned && handlers[me].spawned <= Count(papers)
          && EntryDone(View(), budget, h.paper, h.depth, doi, seen, handlers[me].spawned, lookupsWork)
        else me !in handlers
    {
      ghost var h := handlers[me];
      var known;
      goesOn, known, seen := LookUpEntry(me, doi, lookupsWork);
      if goesOn && known {
        ghost var mid, ran, spawned := View(), run, handlers[me].spawned;
        goesOn := StoreEntry(me);
        Since(mid, ran);
        if goesOn {
          StoredIsDone(mid, View(), budget, h.paper, h.depth, doi, seen, spawned, lookupsWork);
        }
      }
    }

    // Flushes the citations waiting for this paper, then counts what snowballing has made.
    method BeginExtracting(me: WorkerId, paper: PaperId) returns (goesOn: bool)
      requires Valid() && me !in handlers && paper < |papers| && papers[paper].doc.Some?
      modifies this
      ensures Valid() && Onward()
      ensures if goesOn then
          && me in handlers && handlers[me].Extracting? && handlers[me].paper == paper && paper in flushed
          && handlers[me].depth == DepthOf(old(papers)[paper])
          && Count(old(papers)) <= handlers[me].spawned <= Count(papers)
        else me !in handlers
      ensures if goesOn then NotCutSince(old(pauses)) else CutNow(old(pauses))
    {
      ghost var s, ran := View(), run;
      BeginAt(me, paper);
      var n;
      n, goesOn := FlushPendingTo(me);
      if goesOn {
        Since(s, ran);
        ExtractAt(me);
      }
    }

    // The loop over the bibliography.
    method ProcessEntries(me: WorkerId, entries: seq<Doi>, ghost lookupsWork: bool)
      returns (goesOn: bool, ghost reached: seq<Reached>)
      requires Valid() && me in handlers && handlers[me].Extracting? && handlers[me].spawned <= Count(papers)
      requires lookupsWork ==> LookupsWork(pauses)
      modifies this
      ensures Valid() && Onward()
      ensures if goesOn then NotCutSince(old(pauses)) else CutNow(old(pauses))
      ensures var h := old(handlers)[me];
        if goesOn then
          && me in handlers && handlers[me].Extracting?
          && handlers[me] == Extracting(h.paper, h.doc, h.depth, handlers[me].spawned)
          && |reached| == |entries| + 1 && reached[0].spawned == h.spawned
          && reached[|entries|].spawned == handlers[me].spawned <= Count(papers)
          && (forall i :: 0 <= i < |entries| ==> SameOrMore(old(dois), reached[i].dois))
          && EntriesDone(View(), budget, h.paper, h.depth, entries, reached, |entries|, lookupsWork)
        else me !in handlers
    {
      ghost var s, ran, h := View(), run, handlers[me];
      goesOn := true;
      reached := [Seen(me)];
      for i := 0 to |entries|
        invariant Valid() && Onward() && NotCutSince(old(pauses)) && goesOn
        invariant me in handlers && handlers[me].Extracting?
        invariant handlers[me] == Extracting(h.paper, h.doc, h.depth, handlers[me].spawned)
        invariant handlers[me].spawned <= Count(papers)
        invariant |reached| == i + 1 && reached[i] == Seen(me) && reached[0].spawned == h.spawned
        invariant forall k :: 0 <= k <= i ==> SameOrMore(old(dois), reached[k].dois)
        invariant EntriesDone(View(), budget, h.paper, h.depth, entries, reached, i, lookupsWork)
      {
        ghost var before, ranBefore, seen := View(), run, Seen(me);
        if entries[i] != "" {
          goesOn, seen := ProcessEntry(me, entries[i], lookupsWork);
          if !goesOn {
            return;
          }
        }
        Since(before, ranBefore);
        Since(s, ran);
        OneMoreDone(before, View(), budget, h.paper, h.depth, entries, reached, i, seen, Seen(me), lookupsWork);
        reached := reached[i := seen] + [Seen(me)];
      }
    }

    // The loop, and the end of the handler.
    method ProcessAndEnd(me: WorkerId, entries: seq<Doi>, ghost lookupsWork: bool)
      returns (goesOn: bool, ghost reached: seq<Reached>)
      requires Valid() && me in handlers && handlers[me].Extracting? && handlers[me].spawned <= Count(papers)
      requires lookupsWork ==> LookupsWork(pauses)
      modifies this
      ensures Valid() && Onward() && me !in handlers
      ensures if goesOn then NotCutSince(old(pauses)) else CutNow(old(pauses))
      ensures goesOn ==>
        var h := old(handlers)[me];
        && |reached| == |entries| + 1 && reached[0].spawned == h.spawned && reached[|entries|].spawned <= Count(papers)
        && (forall i :: 0 <= i < |entries| ==> SameOrMore(old(dois), reached[i].dois))
        && EntriesDone(View(), budget, h.paper, h.depth, entries, reached, |entries|, lookupsWork)
    {
      ghost var h := handlers[me];
      goesOn, reached := ProcessEntries(me, entries, lookupsWork);
      if goesOn {
        ghost var before, ran := View(), run;
        EndAt(me);
        Since(before, ran);
        EntriesStayDone(before, View(), budget, h.paper, h.depth, entries, reached, |entries|, lookupsWork);
      }
    }

    // The handler of one job of worker `me`; `entries` are the DOIs the extraction service
    // finds, "" where an entry has none. It runs to its end exactly when no pause cuts it
    // short. Then every entry whose DOI was known when it was reached has been processed: it
    // is an edge or a pending row, unless an edge created at once may fail. One whose DOI was
    // not has been discovered one level deeper, and processed, if the paper is a seed or at
    // depth 1, the budget allows it and no lookup fails. No citation is left waiting for this
    // paper, unless an edge of a flush may fail or another citation handler has run beside
    // some handler.
    method Handle(me: WorkerId, paper: PaperId, entries: seq<Doi>) returns (ranToEnd: bool, ghost reached: seq<Reached>)
      requires Valid() && me !in handlers && paper < |papers|
      modifies this
      ensures Valid() && Onward() && me !in handlers
      ensures ranToEnd <==> NotCutSince(old(pauses))
      ensures ranToEnd && old(papers)[paper].doc.Some? ==>
        && paper in flushed && |reached| == |entries| + 1
        && Count(old(papers)) <= reached[0].spawned && reached[|entries|].spawned <= Count(papers)
        && (forall i :: 0 <= i < |entries| ==> SameOrMore(old(dois), reached[i].dois))
        && EntriesDone(View(), budget, paper, DepthOf(old(papers)[paper]), entries, reached, |entries|,
                       LookupsWork(old(pauses)))
      ensures ranToEnd && old(papers)[paper].doc.Some? ==>
        && (!directMayFail ==> forall d :: (paper, d) in processed ==> IsEdge(View(), paper, d) || (paper, d) in pending)
        && (!flushMayFail && AtMost(budget, 1, EMPTY, run) ==> forall c :: (c, paper) !in pending)
      ensures old(papers)[paper].doc.None? ==> ranToEnd && View() == old(View())
      ensures Advances(old(View()), View())
    {
      ghost var s, ran := View(), run;
      reached := [];
      if papers[paper].doc.None? {
        Since(s, ran);
        return true, [];
      }
      ranToEnd := BeginExtracting(me, paper);
      Since(s, ran);
      if ranToEnd {
        ghost var mid, ranMid := View(), run;
        ranToEnd, reached := ProcessAndEnd(me, entries, LookupsWork(old(pauses)));
        Since(mid, ranMid);
        AdvancesOn(s, mid, View());
        Facts();
      }
    }
  }
}
