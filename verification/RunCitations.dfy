/** Where cited ids come from: every link of an answer leads back to a tool artifact of the
thread or of an ancestor's visible prefix, so links never dangle. */
module RunCitations {
  import opened Store
  import opened Forks
  import opened Runs

  /** Some message the thread sees is linked to the citation. */
  ghost predicate Linked(db: Db, t: ThreadId, c: CitationId)
    requires t < |db.threads| && TablesOk(db)
  {
    exists i: nat :: i < |db.messages| && Visible(db, t, i) && c in db.messages[i].cites
  }

  lemma ThreadCitationsAreLinked(db: Db, t: ThreadId, c: CitationId)
    requires t < |db.threads| && TablesOk(db)
    ensures c in ThreadCitations(db, t) <==> Linked(db, t, c) && c in db.citations
  {
    QueryIsHistory(db, t);
    forall i: nat | i < |db.messages| ensures i in ThreadMessages(db, t) <==> Visible(db, t, i) {
      HistoryIsVisible(db, t, i);
    }
  }

  lemma LinkedStays(db: Db, later: Db, t: ThreadId, c: CitationId)
    requires t < |db.threads| && TablesOk(db) && TablesOk(later) && Extends(db, later) && Linked(db, t, c)
    ensures Linked(later, t, c)
  {
    var i: nat :| i < |db.messages| && Visible(db, t, i) && c in db.messages[i].cites;
    VisibleStays(db, later, t, i);
    assert SameCell(db.messages[i], later.messages[i]);
  }

  // ---- the invariant -----------------------------------------------------

  /** Message `n` is where citation `c` of message `m` comes from: `m`'s thread sees it, it is no
  later than `m`, it links `c` too, and its own run took `c` from a tool artifact. */
  ghost predicate Source(s: System, m: MessageId, c: CitationId, n: MessageId)
    requires TablesOk(s.db) && m < |s.db.messages|
  {
    n < |s.db.messages| && Visible(s.db, s.db.messages[m].thread, n)
    && s.db.messages[n].seqNo <= s.db.messages[m].seqNo
    && c in s.db.messages[n].cites && (s.db.messages[n].run, c) in s.frozenBy
  }

  ghost predicate Sourced(s: System, m: MessageId, c: CitationId)
    requires TablesOk(s.db) && m < |s.db.messages|
  {
    exists n: nat :: Source(s, m, c, n)
  }

  ghost predicate LinksOk(s: System)
    requires TablesOk(s.db)
  {
    forall m: nat, c :: m < |s.db.messages| && c in s.db.messages[m].cites ==> c in s.db.citations && Sourced(s, m, c)
  }

  /** What a worker has frozen, and what it is about to link. */
  ghost predicate WorkerCites(s: System, w: Worker)
    requires TablesOk(s.db) && WorkerOk(s.db, w)
  {
    && (forall c :: c in w.frozen ==> c in s.db.citations && (w.run, c) in s.frozenBy)
    && (w.pc.Lookup? ==> w.frozen == {})
    && (w.pc.CommitCas? ==> forall c :: c in w.pc.cited ==>
          c in w.frozen || (c in s.db.citations && Linked(s.db, w.thread, c)))
  }

  ghost predicate CitesOk(s: System) {
    SystemOk(s) && LinksOk(s) && forall i :: 0 <= i < |s.workers| ==> WorkerCites(s, s.workers[i])
  }

  // ---- what a step adds --------------------------------------------------

  /** A worker adds at most one cell, and links exactly the cited ids when it commits an answer. */
  lemma WorkerLinks(db: Db, w: Worker, act: Action)
    requires TablesOk(db) && WorkerOk(db, w) && CanAct(w.pc, act)
    ensures var later := WorkerStep(db, w, act).db;
            && |db.messages| <= |later.messages| <= |db.messages| + 1
            && (|later.messages| == |db.messages| + 1 ==>
                  var m := later.messages[|db.messages|];
                  m.thread == w.thread && m.run == w.run && m.cites == if w.pc.CommitCas? then w.pc.cited else {})
  {
  }

  lemma WorkerFreezes(db: Db, w: Worker, act: Action)
    requires TablesOk(db) && WorkerOk(db, w) && CanAct(w.pc, act)
    ensures var out := WorkerStep(db, w, act);
            && (out.worker.frozen == w.frozen
                || (act.Freeze? && w.pc.Loop? && out.worker.frozen == w.frozen + {act.citation}
                    && act.citation in out.db.citations))
            && !out.worker.pc.Lookup?
            && (out.worker.pc.CommitCas? ==>
                  w.pc.Verify? && out.worker.pc.cited <= w.frozen + ThreadCitations(db, w.thread) && out.db == db)
  {
  }

  /** Nothing that has been established about citations is lost later. */
  ghost predicate Later(s: System, later: System) {
    TablesOk(s.db) && TablesOk(later.db) && Extends(s.db, later.db) && s.frozenBy <= later.frozenBy
  }

  lemma SourcedStays(s: System, later: System, m: MessageId, c: CitationId)
    requires Later(s, later) && m < |s.db.messages| && Sourced(s, m, c)
    ensures Sourced(later, m, c)
  {
    var n: nat :| Source(s, m, c, n);
    assert SameCell(s.db.messages[m], later.db.messages[m]) && SameCell(s.db.messages[n], later.db.messages[n]);
    VisibleStays(s.db, later.db, s.db.messages[m].thread, n);
    assert Source(later, m, c, n);
  }

  lemma WorkerCitesStays(s: System, later: System, w: Worker)
    requires Later(s, later) && WorkerOk(s.db, w) && WorkerOk(later.db, w) && WorkerCites(s, w)
    ensures WorkerCites(later, w)
  {
    if w.pc.CommitCas? {
      forall c | c in w.pc.cited && c !in w.frozen ensures Linked(later.db, w.thread, c) {
        LinkedStays(s.db, later.db, w.thread, c);
      }
    }
  }

  lemma OldLinksStay(s: System, later: System)
    requires Later(s, later) && LinksOk(s)
    ensures forall m: nat, c :: m < |s.db.messages| && c in later.db.messages[m].cites ==>
              c in later.db.citations && Sourced(later, m, c)
  {
    forall m: nat, c | m < |s.db.messages| && c in later.db.messages[m].cites
      ensures c in later.db.citations && Sourced(later, m, c)
    {
      assert SameCell(s.db.messages[m], later.db.messages[m]);
      SourcedStays(s, later, m, c);
    }
  }

  /** A committed link has a source: the answer itself if its run froze the citation, and
  otherwise the source of the earlier message that the thread sees. */
  lemma CommittedLinkIsSourced(s: System, later: System, w: Worker, m: MessageId, c: CitationId)
    requires Later(s, later) && LinksOk(s) && WorkerOk(s.db, w) && WorkerCites(s, w) && w.pc.CommitCas?
    requires m == |s.db.messages| < |later.db.messages|
    requires later.db.messages[m].thread == w.thread && later.db.messages[m].run == w.run
    requires later.db.messages[m].cites == w.pc.cited && c in w.pc.cited
    ensures c in later.db.citations && Sourced(later, m, c)
  {
    hide TablesOk;
    if c in w.frozen {
      assert Source(later, m, c, m);
    } else {
      var i: nat :| i < |s.db.messages| && Visible(s.db, w.thread, i) && c in s.db.messages[i].cites;
      var n: nat :| Source(s, i, c, n);
      VisibleComposes(s.db, w.thread, i, n);
      VisibleStays(s.db, later.db, w.thread, n);
      assert SameCell(s.db.messages[n], later.db.messages[n]);
      VisibleIsEarlier(s, later, w.thread, n);
      assert Source(later, m, c, n);
    }
  }

  /** What a thread sees is numbered below anything inserted in it later. */
  lemma VisibleIsEarlier(s: System, later: System, t: ThreadId, n: MessageId)
    requires Later(s, later) && t < |s.db.threads| && n < |s.db.messages| && Visible(s.db, t, n)
    ensures forall m: nat :: |s.db.messages| <= m < |later.db.messages| && later.db.messages[m].thread == t ==>
              s.db.messages[n].seqNo <= later.db.messages[m].seqNo
  {
    assert SameCell(s.db.messages[n], later.db.messages[n]);
    if s.db.messages[n].thread != t {
      assert SameCell(s.db.messages[s.db.threads[t].fork.value.point],
          later.db.messages[s.db.threads[t].fork.value.point]);
      assert Base(later.db, t) == Base(s.db, t);
    }
  }

  lemma ActingWorkerCites(s: System, i: WorkerId, act: Action)
    requires CitesOk(s) && CanStep(s, Act(i, act)) && SystemOk(ActStep(s, i, act)) && Later(s, ActStep(s, i, act))
    ensures WorkerCites(ActStep(s, i, act), ActStep(s, i, act).workers[i])
  {
    var w := s.workers[i];
    WorkerFreezes(s.db, w, act);
    WorkerKeepsPlace(s.db, w, act);
    var out := WorkerStep(s.db, w, act);
    if out.worker.pc.CommitCas? {
      forall c | c in out.worker.pc.cited && c !in w.frozen ensures c in s.db.citations && Linked(s.db, w.thread, c) {
        ThreadCitationsAreLinked(s.db, w.thread, c);
      }
    }
  }

  lemma ActKeepsLinks(s: System, i: WorkerId, act: Action)
    requires CitesOk(s) && CanStep(s, Act(i, act)) && Later(s, ActStep(s, i, act))
    ensures LinksOk(ActStep(s, i, act))
  {
    hide TablesOk, Extends;
    var later := ActStep(s, i, act);
    var w := s.workers[i];
    OldLinksStay(s, later);
    WorkerLinks(s.db, w, act);
    forall m: nat, c | |s.db.messages| <= m < |later.db.messages| && c in later.db.messages[m].cites
      ensures c in later.db.citations && Sourced(later, m, c)
    {
      CommittedLinkIsSourced(s, later, w, m, c);
    }
  }

  lemma OldWorkersCite(s: System, later: System)
    requires CitesOk(s) && SystemOk(later) && Later(s, later)
    ensures forall i :: 0 <= i < |s.workers| ==> WorkerOk(later.db, s.workers[i]) && WorkerCites(later, s.workers[i])
  {
    forall i | 0 <= i < |s.workers| ensures WorkerOk(later.db, s.workers[i]) && WorkerCites(later, s.workers[i]) {
      WorkerCitesStays(s, later, s.workers[i]);
    }
  }

  lemma ActKeepsCites(s: System, i: WorkerId, act: Action)
    requires CitesOk(s) && CanStep(s, Act(i, act)) && SystemOk(ActStep(s, i, act)) && Later(s, ActStep(s, i, act))
    ensures CitesOk(ActStep(s, i, act))
  {
    OldWorkersCite(s, ActStep(s, i, act));
    ActKeepsLinks(s, i, act);
    ActingWorkerCites(s, i, act);
  }

  /** Other steps insert no cell; a worker they add has frozen nothing. */
  lemma QuietStep(s: System, step: Step)
    requires SystemOk(s) && CanStep(s, step) && !step.Act?
    ensures var later := NextState(s, step);
            && |later.db.messages| == |s.db.messages| && later.frozenBy == s.frozenBy
            && |s.workers| <= |later.workers|
            && (forall i :: 0 <= i < |s.workers| ==> later.workers[i] == s.workers[i]
                                                     || later.workers[i] == s.workers[i].(pc := Gone))
            && (forall i :: |s.workers| <= i < |later.workers| ==>
                  later.workers[i].frozen == {} && !later.workers[i].pc.CommitCas?)
  {
  }

  lemma QuietKeepsCites(s: System, later: System)
    requires CitesOk(s) && SystemOk(later) && Later(s, later)
    requires |later.db.messages| == |s.db.messages| && |s.workers| <= |later.workers|
    requires forall i :: 0 <= i < |s.workers| ==> later.workers[i] == s.workers[i]
                                                  || later.workers[i] == s.workers[i].(pc := Gone)
    requires forall i :: |s.workers| <= i < |later.workers| ==>
               later.workers[i].frozen == {} && !later.workers[i].pc.CommitCas?
    ensures CitesOk(later)
  {
    OldLinksStay(s, later);
    OldWorkersCite(s, later);
    forall i | 0 <= i < |later.workers| ensures WorkerCites(later, later.workers[i]) {
      if i < |s.workers| { assert WorkerCites(later, s.workers[i]); }
    }
  }

  lemma StepKeepsCites(s: System, step: Step)
    requires CitesOk(s) && CanStep(s, step)
    ensures CitesOk(NextState(s, step))
  {
    StepKeepsSystem(s, step);
    if step.Act? {
      ActKeepsCites(s, step.worker, step.act);
    } else {
      QuietStep(s, step);
      QuietKeepsCites(s, NextState(s, step));
    }
  }

  lemma {:induction false} AlwaysCites(steps: seq<Step>)
    requires StateAfter(steps).Some?
    ensures CitesOk(StateAfter(steps).value)
  {
    if steps != [] {
      AlwaysCites(steps[..|steps| - 1]);
      StepKeepsCites(StateAfter(steps[..|steps| - 1]).value, steps[|steps| - 1]);
    }
  }

  // ---- main results ------------------------------------------------------

  lemma LinkIsSourced(s: System, m: MessageId, c: CitationId)
    requires CitesOk(s) && m < |s.db.messages| && c in s.db.messages[m].cites
    ensures c in s.db.citations && Sourced(s, m, c)
  {
  }

  /** Main result: every citation linked to a message was frozen from a tool artifact by the run of
  some message that links it too and lies in the visible prefix. */
  lemma CitationProvenance(steps: seq<Step>, m: MessageId, c: CitationId)
    requires StateAfter(steps).Some?
    requires m < |StateAfter(steps).value.db.messages| && c in StateAfter(steps).value.db.messages[m].cites
    ensures c in StateAfter(steps).value.db.citations && Sourced(StateAfter(steps).value, m, c)
  {
    AlwaysCites(steps);
    LinkIsSourced(StateAfter(steps).value, m, c);
  }

  lemma LinkResolves(s: System, t: ThreadId, m: MessageId, c: CitationId)
    requires CitesOk(s) && t < |s.db.threads| && m < |s.db.messages| && c in s.db.messages[m].cites
    requires m in ThreadMessages(s.db, t)
    ensures c in ThreadCitations(s.db, t)
  {
    LinkIsSourced(s, m, c);
  }

  /** Main result: a link resolves in every thread, fork or not, that sees its message. */
  lemma CitationResolvesWhereSeen(steps: seq<Step>, t: ThreadId, m: MessageId, c: CitationId)
    requires StateAfter(steps).Some? && t < |StateAfter(steps).value.db.threads|
    requires m < |StateAfter(steps).value.db.messages| && c in StateAfter(steps).value.db.messages[m].cites
    requires m in ThreadMessages(StateAfter(steps).value.db, t)
    ensures c in ThreadCitations(StateAfter(steps).value.db, t)
  {
    AlwaysCites(steps);
    LinkResolves(StateAfter(steps).value, t, m, c);
  }

  /** Main result: the foreign key of the link table never fails when an answer is committed. */
  lemma CommitNeverDangles(s: System, i: WorkerId, now: int)
    requires CitesOk(s) && i < |s.workers| && s.workers[i].pc.CommitCas?
    ensures var w := s.workers[i];
            !CommitAnswer(s.db, w.thread, w.run, "", w.pc.cited, now).ForeignKeyViolation?
  {
    assert WorkerCites(s, s.workers[i]);
  }
}
