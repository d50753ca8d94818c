/**
 * The citation graph. A citation becomes an edge at once when the cited paper has a
 * document, and otherwise waits in a pending table until the cited paper's own handler
 * flushes it. Any number of citation workers run handlers at once; ingestion may link a
 * paper to its document, and users may add papers, between any two statements, and a
 * handler may be cut short at any of them. Creating an edge may fail: then a citation that
 * waited stays waiting, and one that did not is dropped.
 */
module Citations {
  import opened Wrappers

  type PaperId = nat
  type DocId = nat
  type WorkerId = nat
  type Doi = string

  const MAX_CRAWL_DEPTH := 2

  datatype Paper = Paper(doc: Option<DocId>, depth: Option<nat>)

  // A pending row as fetched, joined with its citing paper's document id.
  datatype PendingRow = PendingRow(citing: PaperId, citingDoc: Option<DocId>)

  // What a worker's running handler is at.
  datatype Handler =
    | Reading(paper: PaperId, doc: DocId, depth: nat)
    | Flushing(paper: PaperId, doc: DocId, depth: nat, rows: seq<PendingRow>, edged: bool)
    | Extracting(paper: PaperId, doc: DocId, depth: nat, spawned: nat)
    | Storing(paper: PaperId, doc: DocId, depth: nat, spawned: nat, cited: PaperId, citedDoc: Option<DocId>)

  datatype State = State(
    papers: seq<Paper>,
    dois: map<Doi, PaperId>,              // acad_external_identifiers of source doi
    edges: set<(DocId, DocId)>,
    pending: set<(PaperId, PaperId)>,     // (citing, cited)
    handlers: map<WorkerId, Handler>,     // the running handlers
    found: set<(PaperId, PaperId)>,       // history: bibliography entries resolved to a paper
    processed: set<(PaperId, PaperId)>,   // history: entries the handler has gone through
    flushed: set<PaperId>)                // history: papers some handler of which has flushed their rows

  const EMPTY := State([], map[], {}, {}, map[], {}, {}, {})

  datatype Label =
    | AddPaper(newDoi: Option<Doi>)
    | Link(paper: PaperId, newDoc: DocId)
    | Start(w: WorkerId, paper: PaperId)
    | Fetch(w: WorkerId, rows: seq<PendingRow>)
    | LeavePending(w: WorkerId)
    | EdgeRow(w: WorkerId)
    | EdgeFails(w: WorkerId)
    | DeleteRow(w: WorkerId)
    | Extract(w: WorkerId)
    | Lookup(w: WorkerId, doi: Doi)
    | Discover(w: WorkerId, doi: Doi)
    | Store(w: WorkerId)
    | StoreFails(w: WorkerId)
    | End(w: WorkerId)

  function DepthOf(p: Paper): nat {
    if p.depth.Some? then p.depth.value else 0
  }

  // Papers created by snowballing.
  function Count(papers: seq<Paper>): nat {
    if papers == [] then 0
    else Count(papers[..|papers| - 1]) + if papers[|papers| - 1].depth.Some? then 1 else 0
  }

  predicate CanSpawn(budget: int, h: Handler) {
    h.Extracting? && h.depth < MAX_CRAWL_DEPTH && h.spawned < budget
  }

  // The rows are exactly the pending citations of the paper, in some order.
  ghost predicate FetchedFor(s: State, paper: PaperId, rows: seq<PendingRow>) {
    && (forall i :: 0 <= i < |rows| ==>
          && rows[i].citing < |s.papers| && (rows[i].citing, paper) in s.pending
          && rows[i].citingDoc == s.papers[rows[i].citing].doc)
    && (forall c :: (c, paper) in s.pending ==> exists i :: 0 <= i < |rows| && rows[i].citing == c)
  }

  predicate Flushes(s: State, w: WorkerId, edged: bool) {
    w in s.handlers && s.handlers[w].Flushing? && s.handlers[w].rows != [] && s.handlers[w].edged == edged
  }

  ghost predicate Enabled(budget: int, s: State, l: Label) {
    match l
    case AddPaper(doi) => doi.Some? ==> doi.value !in s.dois
    case Link(paper, newDoc) =>
      paper < |s.papers| && (s.papers[paper].doc.None? || s.papers[paper].doc == Some(newDoc))
    case Start(w, paper) => w !in s.handlers && paper < |s.papers| && s.papers[paper].doc.Some?
    case Fetch(w, rows) =>
      w in s.handlers && s.handlers[w].Reading? && FetchedFor(s, s.handlers[w].paper, rows)
    case LeavePending(w) => Flushes(s, w, false) && s.handlers[w].rows[0].citingDoc.None?
    case EdgeRow(w) => Flushes(s, w, false) && s.handlers[w].rows[0].citingDoc.Some?
    case EdgeFails(w) => Flushes(s, w, false)
    case DeleteRow(w) => Flushes(s, w, true)
    case Extract(w) => w in s.handlers && s.handlers[w].Flushing? && s.handlers[w].rows == []
    case Lookup(w, doi) =>
      w in s.handlers && s.handlers[w].Extracting? && doi in s.dois && s.dois[doi] < |s.papers|
    case Discover(w, doi) => w in s.handlers && CanSpawn(budget, s.handlers[w]) && doi !in s.dois
    case Store(w) => w in s.handlers && s.handlers[w].Storing?
    case StoreFails(w) => w in s.handlers && s.handlers[w].Storing? && s.handlers[w].citedDoc.Some?
    case End(w) => w in s.handlers
  }

  function With(s: State, w: WorkerId, h: Handler): State {
    s.(handlers := s.handlers[w := h])
  }

  ghost function Apply(budget: int, s: State, l: Label): State
    requires Enabled(budget, s, l)
  {
    match l
    case AddPaper(doi) =>
      s.(papers := s.papers + [Paper(None, None)],
         dois := if doi.Some? then s.dois[doi.value := |s.papers|] else s.dois)
    case Link(paper, newDoc) => s.(papers := s.papers[paper := s.papers[paper].(doc := Some(newDoc))])
    case Start(w, paper) => With(s, w, Reading(paper, s.papers[paper].doc.value, DepthOf(s.papers[paper])))
    case Fetch(w, rows) =>
      var h := s.handlers[w];
      With(s, w, Flushing(h.paper, h.doc, h.depth, rows, false))
    case LeavePending(w) => With(s, w, s.handlers[w].(rows := s.handlers[w].rows[1..]))
    case EdgeRow(w) =>
      var h := s.handlers[w];
      With(s, w, h.(edged := true)).(edges := s.edges + {(h.rows[0].citingDoc.value, h.doc)})
    case EdgeFails(w) => With(s, w, s.handlers[w].(rows := s.handlers[w].rows[1..]))
    case DeleteRow(w) =>
      var h := s.handlers[w];
      With(s, w, h.(rows := h.rows[1..], edged := false)).(pending := s.pending - {(h.rows[0].citing, h.paper)})
    case Extract(w) =>
      var h := s.handlers[w];
      With(s, w, Extracting(h.paper, h.doc, h.depth, Count(s.papers))).(flushed := s.flushed + {h.paper})
    case Lookup(w, doi) =>
      var h, cited := s.handlers[w], s.dois[doi];
      With(s, w, Storing(h.paper, h.doc, h.depth, h.spawned, cited, s.papers[cited].doc))
        .(found := s.found + {(h.paper, cited)})
    case Discover(w, doi) =>
      var h, cited := s.handlers[w], |s.papers|;
      With(s, w, Storing(h.paper, h.doc, h.depth, h.spawned + 1, cited, None))
        .(papers := s.papers + [Paper(None, Some(h.depth + 1))], dois := s.dois[doi := cited],
          found := s.found + {(h.paper, cited)})
    case Store(w) =>
      var h := s.handlers[w];
      var t := With(s, w, Extracting(h.paper, h.doc, h.depth, h.spawned))
        .(processed := s.processed + {(h.paper, h.cited)});
      if h.citedDoc.Some? then t.(edges := s.edges + {(h.doc, h.citedDoc.value)})
      else t.(pending := s.pending + {(h.paper, h.cited)})
    case StoreFails(w) =>
      var h := s.handlers[w];
      With(s, w, Extracting(h.paper, h.doc, h.depth, h.spawned)).(processed := s.processed + {(h.paper, h.cited)})
    case End(w) => s.(handlers := s.handlers - {w})
  }

  // The state a run from `s` ends in, if every step of it could be taken.
  ghost function Exec(budget: int, s: State, run: seq<Label>): Option<State>
    decreases |run|, 0
  {
    if run == [] then Some(s) else Extended(budget, s, run[..|run| - 1], run[|run| - 1])
  }

  // The state one more step leads to.
  ghost function Extended(budget: int, s: State, front: seq<Label>, l: Label): Option<State>
    decreases |front|, 1
  {
    match Exec(budget, s, front)
    case None => None
    case Some(t) => if Enabled(budget, t, l) then Some(Apply(budget, t, l)) else None
  }

  // ---------- Conservation ----------

  predicate HasDoc(s: State, p: PaperId) {
    p < |s.papers| && s.papers[p].doc.Some?
  }

  predicate IsEdge(s: State, c: PaperId, d: PaperId) {
    HasDoc(s, c) && HasDoc(s, d) && (s.papers[c].doc.value, s.papers[d].doc.value) in s.edges
  }

  predicate RowOk(s: State, r: PendingRow) {
    HasDoc(s, r.citing) && r.citingDoc == s.papers[r.citing].doc
  }

  // Whatever fails: the handler's paper keeps its document, rows carry the documents of
  // their citing papers, and a row about to be deleted has its edge.
  ghost predicate HandlerSound(s: State, h: Handler) {
    && h.paper < |s.papers| && s.papers[h.paper].doc == Some(h.doc)
    && (h.Flushing? ==>
          && (forall i :: 0 <= i < |h.rows| ==> RowOk(s, h.rows[i]))
          && (h.edged ==> h.rows != [] && IsEdge(s, h.rows[0].citing, h.paper)))
    && (h.Storing? ==>
          h.cited < |s.papers| && (h.citedDoc.Some? ==> h.citedDoc == s.papers[h.cited].doc))
  }

  ghost predicate Sound(s: State) {
    && (forall w :: w in s.handlers ==> HandlerSound(s, s.handlers[w]))
    && (forall doi :: doi in s.dois ==> s.dois[doi] < |s.papers|)
    && (forall c, d :: (c, d) in s.pending ==> HasDoc(s, c) && d < |s.papers|)
    && (forall d :: d in s.flushed ==> HasDoc(s, d))
  }

  // No processed citation has been dropped.
  ghost predicate Kept(s: State) {
    forall c, d :: (c, d) in s.processed ==> IsEdge(s, c, d) || (c, d) in s.pending
  }

  // No citation waits for a paper whose handler has already flushed.
  ghost predicate NoneWaits(s: State) {
    forall c, d :: (c, d) in s.pending ==> d !in s.flushed
  }

  // Nor will one: a flush under way has every citation that waits for its paper in hand,
  // and no citation about to be stored would wait for such a paper.
  ghost predicate FlushedClean(s: State) {
    NoneWaits(s) && forall w :: w in s.handlers ==> NoneWillWait(s, s.handlers[w])
  }

  ghost predicate NoneWillWait(s: State, h: Handler) {
    && (h.Flushing? ==>
          forall c :: (c, h.paper) in s.pending ==> exists i :: 0 <= i < |h.rows| && h.rows[i].citing == c)
    && (h.Storing? && h.citedDoc.None? ==> h.cited !in s.flushed)
  }

  // At most one handler runs.
  predicate Single(s: State) {
    forall w, v :: w in s.handlers && v in s.handlers ==> w == v
  }

  // Documents once linked, edges once made and papers once added stay.
  ghost predicate Grows(s: State, t: State) {
    && |s.papers| <= |t.papers|
    && (forall p :: 0 <= p < |s.papers| && s.papers[p].doc.Some? ==> t.papers[p].doc == s.papers[p].doc)
    && s.edges <= t.edges
  }

  lemma StepGrows(budget: int, s: State, l: Label)
    requires Sound(s) && Enabled(budget, s, l)
    ensures Grows(s, Apply(budget, s, l))
  {
  }

  lemma EdgesStay(s: State, t: State)
    requires Grows(s, t)
    ensures forall c, d :: IsEdge(s, c, d) ==> IsEdge(t, c, d)
  {
  }

  // What a handler not concerned by the step relies on stays.
  lemma StaysSound(s: State, t: State, h: Handler)
    requires HandlerSound(s, h) && Grows(s, t)
    ensures HandlerSound(t, h)
  {
    if h.Flushing? {
      forall i | 0 <= i < |h.rows| ensures RowOk(t, h.rows[i]) {
        assert RowOk(s, h.rows[i]);
      }
    }
  }

  // The handler the step belongs to.
  lemma ActingSound(budget: int, s: State, l: Label)
    requires Sound(s) && Enabled(budget, s, l) && !l.AddPaper? && !l.Link? && !l.End?
    ensures var t := Apply(budget, s, l); l.w in t.handlers && HandlerSound(t, t.handlers[l.w])
  {
    var t := Apply(budget, s, l);
    if l.Fetch? {
      forall i | 0 <= i < |l.rows| ensures RowOk(t, l.rows[i]) {
        assert (l.rows[i].citing, s.handlers[l.w].paper) in s.pending;
      }
    } else if l.w in s.handlers {
      assert HandlerSound(s, s.handlers[l.w]);
      StepGrows(budget, s, l);
      if s.handlers[l.w].Flushing? && s.handlers[l.w].rows != [] {
        assert RowOk(s, s.handlers[l.w].rows[0]);
      }
    }
  }

  lemma TablesSound(budget: int, s: State, l: Label)
    requires Sound(s) && Enabled(budget, s, l)
    ensures var t := Apply(budget, s, l);
      && (forall doi :: doi in t.dois ==> t.dois[doi] < |t.papers|)
      && (forall c, d :: (c, d) in t.pending ==> HasDoc(t, c) && d < |t.papers|)
      && (forall d :: d in t.flushed ==> HasDoc(t, d))
  {
    StepGrows(budget, s, l);
    if l.Store? || l.Extract? {
      assert HandlerSound(s, s.handlers[l.w]);
    }
  }

  lemma SoundStep(budget: int, s: State, l: Label)
    requires Sound(s) && Enabled(budget, s, l)
    ensures Sound(Apply(budget, s, l))
  {
    var t := Apply(budget, s, l);
    TablesSound(budget, s, l);
    StepGrows(budget, s, l);
    forall w | w in t.handlers ensures HandlerSound(t, t.handlers[w]) {
      if w in s.handlers && t.handlers[w] == s.handlers[w] {
        StaysSound(s, t, s.handlers[w]);
      } else {
        ActingSound(budget, s, l);
      }
    }
  }

  lemma KeptStep(budget: int, s: State, l: Label)
    requires Sound(s) && Kept(s) && Enabled(budget, s, l) && !l.StoreFails?
    ensures Kept(Apply(budget, s, l))
  {
    var t := Apply(budget, s, l);
    StepGrows(budget, s, l);
    if l.Store? || l.DeleteRow? {
      assert HandlerSound(s, s.handlers[l.w]);
    }
    forall c, d | (c, d) in t.processed ensures IsEdge(t, c, d) || (c, d) in t.pending {
      if (c, d) in s.processed {
        assert IsEdge(s, c, d) || (c, d) in s.pending;
      }
    }
  }

  // With one handler at a time, a target found without a document has not been flushed when
  // its citation is stored, even if it has been linked in between.
  lemma FlushedCleanStep(budget: int, s: State, l: Label)
    requires Sound(s) && FlushedClean(s) && Single(s) && Enabled(budget, s, l) && !l.EdgeFails?
    ensures FlushedClean(Apply(budget, s, l))
  {
    var t := Apply(budget, s, l);
    if !l.AddPaper? && !l.Link? && l.w in s.handlers {
      assert HandlerSound(s, s.handlers[l.w]) && NoneWillWait(s, s.handlers[l.w]);
    }
    forall w | w in t.handlers ensures NoneWillWait(t, t.handlers[w]) {
      if w in s.handlers {
        assert NoneWillWait(s, s.handlers[w]) && HandlerSound(s, s.handlers[w]);
        if l.DeleteRow? {
          RestCovers(s, s.handlers[w]);
        }
      }
    }
  }

  // A row deleted, the others still cover what waits.
  lemma RestCovers(s: State, h: Handler)
    requires h.Flushing? && h.rows != [] && NoneWillWait(s, h)
    ensures forall c :: (c, h.paper) in s.pending && c != h.rows[0].citing ==>
      exists i :: 0 <= i < |h.rows[1..]| && h.rows[1..][i].citing == c
  {
    forall c | (c, h.paper) in s.pending && c != h.rows[0].citing
      ensures exists i :: 0 <= i < |h.rows[1..]| && h.rows[1..][i].citing == c
    {
      var i :| 0 <= i < |h.rows| && h.rows[i].citing == c;
      assert h.rows[1..][i - 1].citing == c;
    }
  }

  // ---------- Runs, with and without failing edges, with one handler at a time or more ----------

  // Edges created for waiting citations, and those created at once, may fail or not.
  predicate Within(flushFails: bool, directFails: bool, run: seq<Label>) {
    forall i :: 0 <= i < |run| ==> (run[i].EdgeFails? ==> flushFails) && (run[i].StoreFails? ==> directFails)
  }

  // At most n handlers at a time, all along the run from s.
  ghost predicate AtMost(budget: int, n: nat, s: State, run: seq<Label>) {
    && (Exec(budget, s, run).Some? ==> |Exec(budget, s, run).value.handlers| <= n)
    && (run != [] ==> AtMost(budget, n, s, run[..|run| - 1]))
  }

  lemma SubsetCount(a: set<WorkerId>, b: set<WorkerId>)
    requires a <= b
    ensures |a| <= |b|
  {
    assert b == a + (b - a);
  }

  lemma OneIsSingle(s: State)
    requires |s.handlers| <= 1
    ensures Single(s)
  {
    forall w, v | w in s.handlers && v in s.handlers ensures w == v {
      assert |s.handlers.Keys| == |s.handlers|;
      SubsetCount({w, v}, s.handlers.Keys);
    }
  }

  lemma {:induction false} SoundRun(budget: int, run: seq<Label>)
    requires Exec(budget, EMPTY, run).Some?
    ensures Sound(Exec(budget, EMPTY, run).value)
  {
    if run != [] {
      SoundRun(budget, run[..|run| - 1]);
      SoundStep(budget, Exec(budget, EMPTY, run[..|run| - 1]).value, run[|run| - 1]);
    }
  }

  lemma {:induction false} KeptRun(budget: int, run: seq<Label>)
    requires Exec(budget, EMPTY, run).Some? && Within(true, false, run)
    ensures Kept(Exec(budget, EMPTY, run).value)
  {
    if run != [] {
      KeptRun(budget, run[..|run| - 1]);
      SoundRun(budget, run[..|run| - 1]);
      KeptStep(budget, Exec(budget, EMPTY, run[..|run| - 1]).value, run[|run| - 1]);
    }
  }

  lemma {:induction false} FlushedRun(budget: int, run: seq<Label>)
    requires Exec(budget, EMPTY, run).Some? && Within(false, true, run) && AtMost(budget, 1, EMPTY, run)
    ensures FlushedClean(Exec(budget, EMPTY, run).value)
  {
    if run != [] {
      FlushedRun(budget, run[..|run| - 1]);
      SoundRun(budget, run[..|run| - 1]);
      OneIsSingle(Exec(budget, EMPTY, run[..|run| - 1]).value);
      FlushedCleanStep(budget, Exec(budget, EMPTY, run[..|run| - 1]).value, run[|run| - 1]);
    }
  }

  // When no edge creation fails: in every run, however many handlers run at once, a
  // processed citation is an edge or a pending row; and when only one runs at a time, once
  // the cited paper's own handler has flushed it is an edge and no pending row of that paper
  // is left.
  lemma CitationsAreConserved(budget: int, run: seq<Label>)
    requires Exec(budget, EMPTY, run).Some? && Within(false, false, run)
    ensures var s := Exec(budget, EMPTY, run).value;
      && (forall c, d :: (c, d) in s.processed ==> IsEdge(s, c, d) || (c, d) in s.pending)
      && (forall c, d :: (c, d) in s.pending ==> HasDoc(s, c))
      && (AtMost(budget, 1, EMPTY, run) ==>
            && (forall c, d :: (c, d) in s.processed && d in s.flushed ==> IsEdge(s, c, d))
            && (forall c, d :: (c, d) in s.pending ==> d !in s.flushed))
  {
    SoundRun(budget, run);
    KeptRun(budget, run);
    if AtMost(budget, 1, EMPTY, run) {
      FlushedRun(budget, run);
    }
  }

  // A row fetched for a flush always has its citing paper's document, whichever edges fail
  // and however many handlers run: in no run is the branch taken that leaves a row pending
  // for want of one.
  lemma NothingLeftPending(budget: int, run: seq<Label>, w: WorkerId)
    requires Exec(budget, EMPTY, run).Some?
    ensures !Enabled(budget, Exec(budget, EMPTY, run).value, LeavePending(w))
  {
    SoundRun(budget, run);
    var s := Exec(budget, EMPTY, run).value;
    if Flushes(s, w, false) {
      assert HandlerSound(s, s.handlers[w]) && RowOk(s, s.handlers[w].rows[0]);
    }
  }

  // ---------- Which citations are dropped ----------

  // Citations some step of the run has stored without its edge failing.
  ghost function Stored(budget: int, run: seq<Label>): set<(PaperId, PaperId)> {
    if run == [] then {}
    else
      var s := Exec(budget, EMPTY, run[..|run| - 1]);
      Stored(budget, run[..|run| - 1]) + if s.Some? then StoredBy(s.value, run[|run| - 1]) else {}
  }

  ghost function StoredBy(s: State, l: Label): set<(PaperId, PaperId)> {
    if l.Store? && l.w in s.handlers && s.handlers[l.w].Storing?
    then {(s.handlers[l.w].paper, s.handlers[l.w].cited)} else {}
  }

  // The edge joins the documents of a stored citation.
  ghost predicate EdgeOf(s: State, stored: set<(PaperId, PaperId)>, e: (DocId, DocId)) {
    exists c, d :: (c, d) in stored && Joins(s, c, d, e)
  }

  predicate Joins(s: State, c: PaperId, d: PaperId, e: (DocId, DocId)) {
    HasDoc(s, c) && HasDoc(s, d) && e == (s.papers[c].doc.value, s.papers[d].doc.value)
  }

  ghost predicate Accounted(s: State, stored: set<(PaperId, PaperId)>) {
    && (forall c, d :: (c, d) in stored ==> IsEdge(s, c, d) || (c, d) in s.pending)
    && s.pending <= stored <= s.processed
    && (forall w :: w in s.handlers ==> RowsStored(s.handlers[w], stored))
    && (forall e :: e in s.edges ==> EdgeOf(s, stored, e))
  }

  ghost predicate RowsStored(h: Handler, stored: set<(PaperId, PaperId)>) {
    h.Flushing? ==> forall i :: 0 <= i < |h.rows| ==> (h.rows[i].citing, h.paper) in stored
  }

  lemma EdgesAccounted(budget: int, s: State, l: Label, stored: set<(PaperId, PaperId)>, e: (DocId, DocId))
    requires Sound(s) && Accounted(s, stored) && Enabled(budget, s, l) && e in Apply(budget, s, l).edges
    ensures EdgeOf(Apply(budget, s, l), stored + StoredBy(s, l), e)
  {
    var t, after := Apply(budget, s, l), stored + StoredBy(s, l);
    StepGrows(budget, s, l);
    if e in s.edges {
      var c, d :| (c, d) in stored && Joins(s, c, d, e);
      assert (c, d) in after && Joins(t, c, d, e);
      return;
    }
    var h := s.handlers[l.w];
    assert HandlerSound(s, h) && RowsStored(h, stored);
    if l.EdgeRow? {
      assert RowOk(s, h.rows[0]);
      assert (h.rows[0].citing, h.paper) in after && Joins(t, h.rows[0].citing, h.paper, e);
    } else {
      assert (h.paper, h.cited) in after && Joins(t, h.paper, h.cited, e);
    }
  }

  lemma StillThere(budget: int, s: State, l: Label, stored: set<(PaperId, PaperId)>, c: PaperId, d: PaperId)
    requires Sound(s) && Accounted(s, stored) && Enabled(budget, s, l) && (c, d) in stored + StoredBy(s, l)
    ensures IsEdge(Apply(budget, s, l), c, d) || (c, d) in Apply(budget, s, l).pending
  {
    StepGrows(budget, s, l);
    if l.Store? || l.DeleteRow? {
      assert HandlerSound(s, s.handlers[l.w]);
    }
    if (c, d) in stored {
      assert IsEdge(s, c, d) || (c, d) in s.pending;
    }
  }

  lemma AccountedStep(budget: int, s: State, l: Label, stored: set<(PaperId, PaperId)>)
    requires Sound(s) && Accounted(s, stored) && Enabled(budget, s, l)
    ensures Accounted(Apply(budget, s, l), stored + StoredBy(s, l))
  {
    var t, after := Apply(budget, s, l), stored + StoredBy(s, l);
    StepGrows(budget, s, l);
    forall c, d | (c, d) in after ensures IsEdge(t, c, d) || (c, d) in t.pending {
      StillThere(budget, s, l, stored, c, d);
    }
    forall e | e in t.edges ensures EdgeOf(t, after, e) {
      EdgesAccounted(budget, s, l, stored, e);
    }
    forall w | w in t.handlers ensures RowsStored(t.handlers[w], after) {
      if w in s.handlers {
        assert RowsStored(s.handlers[w], stored);
      }
    }
  }

  lemma {:induction false} AccountedRun(budget: int, run: seq<Label>)
    requires Exec(budget, EMPTY, run).Some?
    ensures Sound(Exec(budget, EMPTY, run).value) && Accounted(Exec(budget, EMPTY, run).value, Stored(budget, run))
  {
    if run == [] {
    } else {
      var front := run[..|run| - 1];
      AccountedRun(budget, front);
      AccountedStep(budget, Exec(budget, EMPTY, front).value, run[|run| - 1], Stored(budget, front));
      SoundStep(budget, Exec(budget, EMPTY, front).value, run[|run| - 1]);
    }
  }

  // No two papers share a document.
  predicate OwnDocuments(s: State) {
    forall c, d :: 0 <= c < d < |s.papers| && s.papers[c].doc.Some? ==> s.papers[c].doc != s.papers[d].doc
  }

  lemma StoredIffKept(s: State, stored: set<(PaperId, PaperId)>, c: PaperId, d: PaperId)
    requires Accounted(s, stored) && OwnDocuments(s)
    ensures IsEdge(s, c, d) || (c, d) in s.pending <==> (c, d) in stored
  {
    if IsEdge(s, c, d) {
      var e := (s.papers[c].doc.value, s.papers[d].doc.value);
      assert EdgeOf(s, stored, e);
      var a, b :| (a, b) in stored && Joins(s, a, b, e);
      assert a == c && b == d;
    }
  }

  // In any run, whatever fails, a citation that was stored once is an edge or a pending row
  // for good, and where every paper has its own document a processed citation is neither
  // exactly when every step that came to store it had its edge fail.
  lemma DroppedIffEveryEdgeFailed(budget: int, run: seq<Label>, c: PaperId, d: PaperId)
    requires Exec(budget, EMPTY, run).Some? && (c, d) in Exec(budget, EMPTY, run).value.processed
    ensures var s := Exec(budget, EMPTY, run).value;
      && ((c, d) in Stored(budget, run) ==> IsEdge(s, c, d) || (c, d) in s.pending)
      && (OwnDocuments(s) ==>
            (!IsEdge(s, c, d) && (c, d) !in s.pending <==> (c, d) !in Stored(budget, run)))
  {
    AccountedRun(budget, run);
    var s := Exec(budget, EMPTY, run).value;
    if OwnDocuments(s) {
      StoredIffKept(s, Stored(budget, run), c, d);
    }
  }

  // ---------- Witnesses ----------

  // A run being built, all the while with handlers of the first n workers only.
  ghost predicate Builds(budget: int, n: nat, flushFails: bool, directFails: bool, run: seq<Label>, s: State) {
    Exec(budget, EMPTY, run) == Some(s) && Within(flushFails, directFails, run) && AtMost(budget, n, EMPTY, run)
  }

  lemma Begin(budget: int, n: nat, flushFails: bool, directFails: bool)
    ensures Builds(budget, n, flushFails, directFails, [], EMPTY)
  {
  }

  lemma Append(budget: int, n: nat, flushFails: bool, directFails: bool, run: seq<Label>, l: Label, s: State, t: State)
    requires Builds(budget, n, flushFails, directFails, run, s) && Enabled(budget, s, l) && Apply(budget, s, l) == t
    requires (l.EdgeFails? ==> flushFails) && (l.StoreFails? ==> directFails)
    requires forall w :: w in t.handlers ==> w < n
    ensures Builds(budget, n, flushFails, directFails, run + [l], t)
  {
    assert (run + [l])[..|run|] == run;
    FewIds(t.handlers, n);
  }

  function FirstIds(n: nat): set<WorkerId> {
    if n == 0 then {} else FirstIds(n - 1) + {n - 1}
  }

  lemma {:induction false} CountIds(n: nat)
    ensures |FirstIds(n)| == n && forall w: WorkerId :: w in FirstIds(n) <==> w < n
  {
    if n > 0 {
      CountIds(n - 1);
    }
  }

  lemma FewIds(handlers: map<WorkerId, Handler>, n: nat)
    requires forall w :: w in handlers ==> w < n
    ensures |handlers| <= n
  {
    CountIds(n);
    SubsetCount(handlers.Keys, FirstIds(n));
    assert |handlers.Keys| == |handlers|;
  }

  // A paper with a document that cites itself, about to be stored.
  const SELF_CITED := State([Paper(Some(0), None)], map["a" := 0], {}, {},
    map[0 := Storing(0, 0, 0, 0, 0, Some(0))], {(0, 0)}, {}, {0})

  const LINKED := State([Paper(Some(0), None)], map["a" := 0], {}, {}, map[], {}, {}, {})

  lemma ReachLinked(budget: int) returns (run: seq<Label>)
    ensures Builds(budget, 1, false, true, run, LINKED)
  {
    Begin(budget, 1, false, true);
    var added := LINKED.(papers := [Paper(None, None)]);
    Append(budget, 1, false, true, [], AddPaper(Some("a")), EMPTY, added);
    run := [] + [AddPaper(Some("a"))];
    assert added.papers[0 := Paper(Some(0), None)] == LINKED.papers;
    Append(budget, 1, false, true, run, Link(0, 0), added, LINKED);
    run := run + [Link(0, 0)];
  }

  lemma ReachSelfCited(budget: int) returns (run: seq<Label>)
    ensures Builds(budget, 1, false, true, run, SELF_CITED)
  {
    run := ReachLinked(budget);
    run := BeginsReading(budget, 1, false, true, run, LINKED, 0, 0);
    var extracting := With(LINKED, 0, Extracting(0, 0, 0, Count(LINKED.papers))).(flushed := LINKED.flushed + {0});
    assert Count(LINKED.papers) == 0;
    assert {} + {0} == {0} && {} + {(0, 0)} == {(0, 0)};
    assert extracting.handlers[0 := Storing(0, 0, 0, 0, 0, Some(0))] == SELF_CITED.handlers;
    Append(budget, 1, false, true, run, Lookup(0, "a"), extracting, SELF_CITED);
    run := run + [Lookup(0, "a")];
  }

  // A handler begins and finds nothing waiting.
  lemma FindsNothing(budget: int, n: nat, flushFails: bool, directFails: bool, run: seq<Label>, s: State,
                     w: WorkerId, paper: PaperId) returns (longer: seq<Label>)
    requires Builds(budget, n, flushFails, directFails, run, s) && w < n && w !in s.handlers
    requires (forall v :: v in s.handlers ==> v < n) && HasDoc(s, paper) && s.papers[paper].depth.None?
    requires forall c :: (c, paper) !in s.pending
    ensures Builds(budget, n, flushFails, directFails, longer,
                   With(s, w, Flushing(paper, s.papers[paper].doc.value, 0, [], false)))
  {
    var doc := s.papers[paper].doc.value;
    var reading := With(s, w, Reading(paper, doc, 0));
    Append(budget, n, flushFails, directFails, run, Start(w, paper), s, reading);
    longer := run + [Start(w, paper)];
    var flushing := With(s, w, Flushing(paper, doc, 0, [], false));
    assert reading.handlers[w := Flushing(paper, doc, 0, [], false)] == flushing.handlers;
    Append(budget, n, flushFails, directFails, longer, Fetch(w, []), reading, flushing);
    longer := longer + [Fetch(w, [])];
  }

  // And is at the bibliography.
  lemma BeginsReading(budget: int, n: nat, flushFails: bool, directFails: bool, run: seq<Label>, s: State,
                      w: WorkerId, paper: PaperId) returns (longer: seq<Label>)
    requires Builds(budget, n, flushFails, directFails, run, s) && w < n && w !in s.handlers
    requires (forall v :: v in s.handlers ==> v < n) && HasDoc(s, paper) && s.papers[paper].depth.None?
    requires forall c :: (c, paper) !in s.pending
    ensures var doc := s.papers[paper].doc.value;
      Builds(budget, n, flushFails, directFails, longer,
        With(s, w, Extracting(paper, doc, 0, Count(s.papers))).(flushed := s.flushed + {paper}))
  {
    longer := FindsNothing(budget, n, flushFails, directFails, run, s, w, paper);
    var doc := s.papers[paper].doc.value;
    var flushing := With(s, w, Flushing(paper, doc, 0, [], false));
    var extracting := With(s, w, Extracting(paper, doc, 0, Count(s.papers)));
    assert flushing.handlers[w := Extracting(paper, doc, 0, Count(s.papers))] == extracting.handlers;
    Append(budget, n, flushFails, directFails, longer, Extract(w), flushing,
           extracting.(flushed := s.flushed + {paper}));
    longer := longer + [Extract(w)];
  }

  // A citation whose edge could not be created at once is an edge no more than a pending row.
  lemma DroppedCitation(budget: int) returns (run: seq<Label>)
    ensures Exec(budget, EMPTY, run).Some? && Within(false, true, run) && !Kept(Exec(budget, EMPTY, run).value)
  {
    var before := ReachSelfCited(budget);
    var t := Apply(budget, SELF_CITED, StoreFails(0));
    Append(budget, 1, false, true, before, StoreFails(0), SELF_CITED, t);
    run := before + [StoreFails(0)];
    assert (0, 0) in t.processed;
  }

  // Paper 0, which has a document, cites paper 1, which has none.
  const TWO_PAPERS := State([Paper(Some(0), None), Paper(None, None)], map["b" := 1], {}, {}, map[], {}, {}, {})

  lemma ReachTwoPapers(budget: int, n: nat, flushFails: bool) returns (run: seq<Label>)
    ensures Builds(budget, n, flushFails, false, run, TWO_PAPERS)
  {
    Begin(budget, n, flushFails, false);
    var one := EMPTY.(papers := [Paper(None, None)]);
    Append(budget, n, flushFails, false, [], AddPaper(None), EMPTY, one);
    run := [] + [AddPaper(None)];
    var two := one.(papers := [Paper(None, None), Paper(None, None)], dois := map["b" := 1]);
    Append(budget, n, flushFails, false, run, AddPaper(Some("b")), one, two);
    run := run + [AddPaper(Some("b"))];
    assert two.papers[0 := Paper(Some(0), None)] == TWO_PAPERS.papers;
    Append(budget, n, flushFails, false, run, Link(0, 0), two, TWO_PAPERS);
    run := run + [Link(0, 0)];
  }

  // Paper 0's handler has found paper 1 without a document and is about to store that.
  const TO_STORE := TWO_PAPERS.(handlers := map[0 := Storing(0, 0, 0, 0, 1, None)], found := {(0, 1)}, flushed := {0})

  lemma ReachToStore(budget: int, n: nat, flushFails: bool) returns (run: seq<Label>)
    requires n >= 1
    ensures Builds(budget, n, flushFails, false, run, TO_STORE)
  {
    run := ReachTwoPapers(budget, n, flushFails);
    run := BeginsReading(budget, n, flushFails, false, run, TWO_PAPERS, 0, 0);
    assert Count(TWO_PAPERS.papers) == 0 by {
      assert TWO_PAPERS.papers[..1] == [Paper(Some(0), None)] && TWO_PAPERS.papers[..1][..0] == [];
    }
    var extracting := With(TWO_PAPERS, 0, Extracting(0, 0, 0, 0)).(flushed := TWO_PAPERS.flushed + {0});
    assert {} + {0} == {0} && {} + {(0, 1)} == {(0, 1)};
    assert extracting.handlers[0 := Storing(0, 0, 0, 0, 1, None)] == TO_STORE.handlers;
    Append(budget, n, flushFails, false, run, Lookup(0, "b"), extracting, TO_STORE);
    run := run + [Lookup(0, "b")];
  }

  // ---------- A flush edge that fails ----------

  // The citation waits, and paper 1 has got its document.
  const WAITING := TWO_PAPERS.(papers := [Paper(Some(0), None), Paper(Some(1), None)],
    pending := {(0, 1)}, found := {(0, 1)}, processed := {(0, 1)}, flushed := {0})

  lemma ReachWaiting(budget: int, n: nat) returns (run: seq<Label>)
    requires n >= 1
    ensures Builds(budget, n, true, false, run, WAITING)
  {
    run := ReachToStore(budget, n, true);
    var stored := TO_STORE.(handlers := map[0 := Extracting(0, 0, 0, 0)], pending := {(0, 1)}, processed := {(0, 1)});
    assert {} + {(0, 1)} == {(0, 1)};
    assert TO_STORE.handlers[0 := Extracting(0, 0, 0, 0)] == stored.handlers;
    Append(budget, n, true, false, run, Store(0), TO_STORE, stored);
    run := run + [Store(0)];
    var ended := stored.(handlers := map[]);
    assert stored.handlers - {0} == map[];
    Append(budget, n, true, false, run, End(0), stored, ended);
    run := run + [End(0)];
    assert ended.papers[1 := Paper(Some(1), None)] == WAITING.papers;
    Append(budget, n, true, false, run, Link(1, 1), ended, WAITING);
    run := run + [Link(1, 1)];
  }

  function InHand(rows: seq<PendingRow>): State {
    WAITING.(handlers := map[0 := Flushing(1, 1, 0, rows, false)])
  }

  lemma ReachInHand(budget: int, n: nat) returns (run: seq<Label>)
    requires n >= 1
    ensures Builds(budget, n, true, false, run, InHand([PendingRow(0, Some(0))]))
  {
    run := ReachWaiting(budget, n);
    var reading := WAITING.(handlers := map[0 := Reading(1, 1, 0)]);
    Append(budget, n, true, false, run, Start(0, 1), WAITING, reading);
    run := run + [Start(0, 1)];
    var rows := [PendingRow(0, Some(0))];
    assert FetchedFor(reading, 1, rows) by {
      assert rows[0].citing == 0;
    }
    assert reading.handlers[0 := Flushing(1, 1, 0, rows, false)] == InHand(rows).handlers;
    Append(budget, n, true, false, run, Fetch(0, rows), reading, InHand(rows));
    run := run + [Fetch(0, rows)];
  }

  // A waiting citation whose edge could not be created in the flush goes on waiting for a
  // paper whose handler has come and gone.
  lemma LeftByFailure(budget: int, n: nat) returns (run: seq<Label>, s: State)
    requires n >= 1
    ensures Builds(budget, n, true, false, run, s) && !NoneWaits(s)
  {
    var rows := [PendingRow(0, Some(0))];
    run := ReachInHand(budget, n);
    assert rows[1..] == [];
    assert InHand(rows).handlers[0 := Flushing(1, 1, 0, [], false)] == InHand([]).handlers;
    Append(budget, n, true, false, run, EdgeFails(0), InHand(rows), InHand([]));
    run := run + [EdgeFails(0)];
    s := Apply(budget, InHand([]), Extract(0));
    Append(budget, n, true, false, run, Extract(0), InHand([]), s);
    run := run + [Extract(0)];
    assert (0, 1) in s.pending && 1 in s.flushed;
  }

  // ---------- A second handler ----------

  // No edge fails: between one handler's finding paper 1 without a document and its storing
  // the citation, paper 1 gets its document and a second handler flushes it.
  lemma LeftByAnother(budget: int, n: nat) returns (run: seq<Label>, s: State)
    requires n >= 2
    ensures Builds(budget, n, false, false, run, s) && !NoneWaits(s)
  {
    run := ReachToStore(budget, n, false);
    var linked := TO_STORE.(papers := [Paper(Some(0), None), Paper(Some(1), None)]);
    assert TO_STORE.papers[1 := Paper(Some(1), None)] == linked.papers;
    Append(budget, n, false, false, run, Link(1, 1), TO_STORE, linked);
    run := run + [Link(1, 1)];
    run := BeginsReading(budget, n, false, false, run, linked, 1, 1);
    var flushed := With(linked, 1, Extracting(1, 1, 0, Count(linked.papers))).(flushed := linked.flushed + {1});
    s := Apply(budget, flushed, Store(0));
    Append(budget, n, false, false, run, Store(0), flushed, s);
    run := run + [Store(0)];
    assert (0, 1) in s.pending && 1 in s.flushed;
  }

  // ---------- Exactly when ----------

  // No processed citation is ever dropped, in any run, if and only if edges created at once
  // cannot fail; edges of a flush may fail, and any number of handlers run, without dropping any.
  lemma KeptIffDirectEdgesSucceed(budget: int, flushFails: bool, directFails: bool)
    ensures !directFails <==>
      forall run :: Within(flushFails, directFails, run) && Exec(budget, EMPTY, run).Some?
        ==> Kept(Exec(budget, EMPTY, run).value)
  {
    if !directFails {
      forall run | Within(flushFails, directFails, run) && Exec(budget, EMPTY, run).Some?
        ensures Kept(Exec(budget, EMPTY, run).value)
      {
        KeptRun(budget, run);
      }
    } else {
      var run := DroppedCitation(budget);
      assert Within(flushFails, directFails, run);
    }
  }

  lemma {:induction false} NoHandlerNothingWaits(budget: int, run: seq<Label>)
    requires Exec(budget, EMPTY, run).Some? && AtMost(budget, 0, EMPTY, run)
    ensures Exec(budget, EMPTY, run).value.handlers == map[] && Exec(budget, EMPTY, run).value.pending == {}
  {
    if run != [] {
      NoHandlerNothingWaits(budget, run[..|run| - 1]);
    }
  }

  ghost predicate AlwaysNoneWaits(budget: int, n: nat, flushFails: bool, directFails: bool) {
    forall run, s :: Builds(budget, n, flushFails, directFails, run, s) ==> NoneWaits(s)
  }

  // In all runs with at most n handlers at a time, no citation waits for a paper whose
  // handler has flushed, if and only if there are no handlers at all, or there is one at a
  // time and the edges of a flush cannot fail.
  lemma NoneWaitsIffAloneAndEdgesSucceed(budget: int, n: nat, flushFails: bool, directFails: bool)
    ensures AlwaysNoneWaits(budget, n, flushFails, directFails) <==> n == 0 || (n == 1 && !flushFails)
  {
    if n == 0 || (n == 1 && !flushFails) {
      forall run, s | Builds(budget, n, flushFails, directFails, run, s) ensures NoneWaits(s) {
        if n == 0 {
          NoHandlerNothingWaits(budget, run);
        } else {
          FlushedRun(budget, run);
        }
      }
    } else if n == 1 {
      var run, s := LeftByFailure(budget, n);
      assert Builds(budget, n, flushFails, directFails, run, s);
    } else {
      var run, s := LeftByAnother(budget, n);
      assert Builds(budget, n, flushFails, directFails, run, s);
    }
  }

  // ---------- Snowballing ----------

  // A chain of citations of length k leads from a seed paper to x.
  ghost predicate Chain(s: State, x: PaperId, k: nat)
    decreases k
  {
    && x < |s.papers|
    && if k == 0 then s.papers[x].depth.None?
       else exists q: PaperId :: (q, x) in s.found && Chain(s, q, k - 1)
  }

  predicate DepthInRange(p: Paper) {
    p.depth.Some? ==> 1 <= p.depth.value <= MAX_CRAWL_DEPTH
  }

  ghost predicate DepthOk(s: State) {
    && (forall x: PaperId :: x < |s.papers| && s.papers[x].depth.Some? ==>
          DepthInRange(s.papers[x]) && Chain(s, x, s.papers[x].depth.value))
    && (forall w :: w in s.handlers ==> HandlerDepth(s, s.handlers[w]))
  }

  predicate HandlerDepth(s: State, h: Handler) {
    h.paper < |s.papers| && h.depth == DepthOf(s.papers[h.paper])
  }

  // Every handler's copy of the count is right, and the count is within bounds.
  ghost predicate CountOk(budget: int, initial: nat, s: State) {
    && (forall w :: w in s.handlers && (s.handlers[w].Extracting? || s.handlers[w].Storing?) ==>
          s.handlers[w].spawned == Count(s.papers))
    && Count(s.papers) <= (if initial < budget then budget else initial)
  }

  lemma {:induction false} ChainStays(s: State, t: State, x: PaperId, k: nat)
    requires Chain(s, x, k) && |s.papers| <= |t.papers| && s.found <= t.found
    requires forall p :: 0 <= p < |s.papers| ==> t.papers[p].depth == s.papers[p].depth
    ensures Chain(t, x, k)
    decreases k
  {
    if k > 0 {
      var q: PaperId :| (q, x) in s.found && Chain(s, q, k - 1);
      ChainStays(s, t, q, k - 1);
    }
  }

  lemma CountAppend(papers: seq<Paper>, p: Paper)
    ensures Count(papers + [p]) == Count(papers) + if p.depth.Some? then 1 else 0
  {
  }

  ghost function Snowballed(papers: seq<Paper>): set<PaperId> {
    set x | 0 <= x < |papers| && papers[x].depth.Some?
  }

  // The count is of papers with a depth, each once.
  lemma {:induction false} CountIsNumber(papers: seq<Paper>)
    ensures Count(papers) == |Snowballed(papers)|
  {
    if papers != [] {
      var last := |papers| - 1;
      CountIsNumber(papers[..last]);
      assert Snowballed(papers) == Snowballed(papers[..last]) + if papers[last].depth.Some? then {last} else {};
    }
  }

  // Depths once set stay, and so does having none.
  ghost predicate KeepsDepths(a: seq<Paper>, b: seq<Paper>) {
    |a| <= |b| && forall x :: 0 <= x < |a| ==> b[x].depth == a[x].depth
  }

  lemma {:induction false} CountLink(papers: seq<Paper>, i: nat, doc: Option<DocId>)
    requires i < |papers|
    ensures Count(papers[i := papers[i].(doc := doc)]) == Count(papers)
  {
    var last := |papers| - 1;
    var after := papers[i := papers[i].(doc := doc)];
    if i == last {
      assert after[..last] == papers[..last];
    } else {
      CountLink(papers[..last], i, doc);
      assert after[..last] == papers[..last][i := papers[i].(doc := doc)];
    }
  }

  predicate SameOrMore(a: map<Doi, PaperId>, b: map<Doi, PaperId>) {
    forall doi :: doi in a ==> doi in b && b[doi] == a[doi]
  }

  // What no part of the system ever undoes.
  ghost predicate Advances(s: State, t: State) {
    && Grows(s, t) && SameOrMore(s.dois, t.dois) && s.processed <= t.processed && s.flushed <= t.flushed
    && KeepsDepths(s.papers, t.papers) && Count(s.papers) <= Count(t.papers)
  }

  lemma StepAdvances(budget: int, s: State, l: Label)
    requires Sound(s) && Enabled(budget, s, l)
    ensures Advances(s, Apply(budget, s, l))
  {
    StepGrows(budget, s, l);
    if l.Discover? {
      CountAppend(s.papers, Paper(None, Some(s.handlers[l.w].depth + 1)));
    } else {
      CountStays(budget, s, l);
    }
  }

  lemma AdvancesOn(s: State, t: State, u: State)
    requires Advances(s, t) && Advances(t, u)
    ensures Advances(s, u)
  {
  }

  // From any state of a run to its last.
  lemma {:induction false} RunAdvances(budget: int, run: seq<Label>, n: nat)
    requires n <= |run| && Exec(budget, EMPTY, run).Some?
    ensures Exec(budget, EMPTY, run[..n]).Some?
    ensures Advances(Exec(budget, EMPTY, run[..n]).value, Exec(budget, EMPTY, run).value)
    decreases |run|
  {
    if n == |run| {
      assert run[..n] == run;
    } else {
      var front := run[..|run| - 1];
      RunAdvances(budget, front, n);
      assert front[..n] == run[..n];
      SoundRun(budget, front);
      var s := Exec(budget, EMPTY, front).value;
      StepAdvances(budget, s, run[|run| - 1]);
      AdvancesOn(Exec(budget, EMPTY, run[..n]).value, s, Exec(budget, EMPTY, run).value);
    }
  }

  // A depth is written only when its paper is created.
  lemma {:induction false} DepthIsSetOnce(budget: int, s: State, run: seq<Label>, x: PaperId)
    requires Exec(budget, s, run).Some? && x < |s.papers|
    ensures var t := Exec(budget, s, run).value; x < |t.papers| && t.papers[x].depth == s.papers[x].depth
  {
    if run != [] {
      DepthIsSetOnce(budget, s, run[..|run| - 1], x);
    }
  }

  lemma NewChain(budget: int, s: State, w: WorkerId, doi: Doi)
    requires DepthOk(s) && Enabled(budget, s, Discover(w, doi))
    ensures Chain(Apply(budget, s, Discover(w, doi)), |s.papers|, s.handlers[w].depth + 1)
  {
    var h, t := s.handlers[w], Apply(budget, s, Discover(w, doi));
    assert HandlerDepth(s, h) && Chain(s, h.paper, h.depth);
    ChainStays(s, t, h.paper, h.depth);
    assert (h.paper, |s.papers|) in t.found;
  }

  lemma DepthStep(budget: int, s: State, l: Label)
    requires DepthOk(s) && Enabled(budget, s, l)
    ensures DepthOk(Apply(budget, s, l))
  {
    var t := Apply(budget, s, l);
    forall x: PaperId | x < |t.papers| && t.papers[x].depth.Some?
      ensures DepthInRange(t.papers[x]) && Chain(t, x, t.papers[x].depth.value)
    {
      if x < |s.papers| {
        ChainStays(s, t, x, s.papers[x].depth.value);
      } else {
        NewChain(budget, s, l.w, l.doi);
        assert HandlerDepth(s, s.handlers[l.w]);
      }
    }
    forall w | w in t.handlers ensures HandlerDepth(t, t.handlers[w]) {
      if w in s.handlers {
        assert HandlerDepth(s, s.handlers[w]);
      }
    }
  }

  lemma CountStays(budget: int, s: State, l: Label)
    requires Enabled(budget, s, l) && !l.Discover?
    ensures Count(Apply(budget, s, l).papers) == Count(s.papers)
  {
    if l.AddPaper? {
      CountAppend(s.papers, Paper(None, None));
    } else if l.Link? {
      CountLink(s.papers, l.paper, Some(l.newDoc));
    }
  }

  lemma CountStep(budget: int, initial: nat, s: State, l: Label)
    requires CountOk(budget, initial, s) && Single(s) && Enabled(budget, s, l)
    ensures CountOk(budget, initial, Apply(budget, s, l))
  {
    if l.Discover? {
      CountAppend(s.papers, Paper(None, Some(s.handlers[l.w].depth + 1)));
    } else {
      CountStays(budget, s, l);
    }
  }

  lemma {:induction false} DepthRun(budget: int, s: State, run: seq<Label>)
    requires DepthOk(s) && Exec(budget, s, run).Some?
    ensures DepthOk(Exec(budget, s, run).value)
  {
    if run != [] {
      DepthRun(budget, s, run[..|run| - 1]);
      DepthStep(budget, Exec(budget, s, run[..|run| - 1]).value, run[|run| - 1]);
    }
  }

  lemma {:induction false} CountRun(budget: int, s: State, run: seq<Label>)
    requires CountOk(budget, Count(s.papers), s) && Exec(budget, s, run).Some? && AtMost(budget, 1, s, run)
    ensures CountOk(budget, Count(s.papers), Exec(budget, s, run).value)
  {
    if run != [] {
      var t := Exec(budget, s, run[..|run| - 1]).value;
      CountRun(budget, s, run[..|run| - 1]);
      OneIsSingle(t);
      CountStep(budget, Count(s.papers), t, run[|run| - 1]);
    }
  }

  // From any state whose depths are in order, however many handlers run at once, every depth
  // stays between 1 and 2 and is the length of a citation chain from a seed, and no paper's
  // depth changes. With one handler at a time snowballing never takes the number of
  // snowballed papers above the budget, or above what it was if that was more.
  lemma SnowballIsBounded(budget: int, s: State, run: seq<Label>, x: PaperId)
    requires DepthOk(s) && Exec(budget, s, run).Some?
    ensures var t := Exec(budget, s, run).value;
      && (x < |t.papers| && t.papers[x].depth.Some? ==>
            1 <= t.papers[x].depth.value <= 2 && Chain(t, x, t.papers[x].depth.value))
      && (x < |s.papers| ==> x < |t.papers| && t.papers[x].depth == s.papers[x].depth)
      && (CountOk(budget, Count(s.papers), s) && AtMost(budget, 1, s, run) ==>
            Count(t.papers) <= (if Count(s.papers) < budget then budget else Count(s.papers)))
  {
    DepthRun(budget, s, run);
    if x < |s.papers| {
      DepthIsSetOnce(budget, s, run, x);
    }
    if CountOk(budget, Count(s.papers), s) && AtMost(budget, 1, s, run) {
      CountRun(budget, s, run);
    }
  }

  // From an empty database.
  lemma SnowballFromEmpty(budget: int, run: seq<Label>, x: PaperId)
    requires Exec(budget, EMPTY, run).Some?
    ensures var t := Exec(budget, EMPTY, run).value;
      && (x < |t.papers| && t.papers[x].depth.Some? ==>
            1 <= t.papers[x].depth.value <= 2 && Chain(t, x, t.papers[x].depth.value))
      && (AtMost(budget, 1, EMPTY, run) ==> Count(t.papers) <= (if budget > 0 then budget else 0))
  {
    SnowballIsBounded(budget, EMPTY, run, x);
  }
}
