/** What clients hold: views brought forward by the events they are sent, and
    when a view is the collection. */
module ClientTheorems {
  import opened Prelude
  import opened JsonValues
  import opened Store
  import opened History
  import opened Realtime
  import opened Protocol
  import opened ProtocolInvariant
  import opened ProtocolTheorems

  // ---- Convergence ----------------------------------------------------------

  function At(view: View, id: string): Option<Json> {
    if id in view then Some(view[id]) else None
  }

  predicate Concerns(h: seq<LogRow>, coll: string, filter: Option<EqFilter>, id: string, j: nat)
    requires j < |h|
  {
    Matching(coll, filter, h[j].change) && h[j].change.id == id
  }

  /** The last event of a document that the filter passes, in (lo, hi]. */
  function LastEvent(h: seq<LogRow>, coll: string, filter: Option<EqFilter>, id: string, lo: int, hi: int): (r: Option<nat>)
    ensures r.Some? ==> r.value < |h| && lo <= r.value < hi && Concerns(h, coll, filter, id, r.value)
    decreases Max(0, hi - lo)
  {
    if hi <= lo then None
    else if 0 < hi <= |h| && Concerns(h, coll, filter, id, hi - 1) then Some(hi - 1)
    else LastEvent(h, coll, filter, id, lo, hi - 1)
  }

  lemma {:induction false} NoneLater(h: seq<LogRow>, coll: string, filter: Option<EqFilter>, id: string, lo: int, hi: int, k: nat)
    requires k < |h| && lo <= k < hi && Concerns(h, coll, filter, id, k)
    ensures LastEvent(h, coll, filter, id, lo, hi).Some? && LastEvent(h, coll, filter, id, lo, hi).value >= k
    decreases Max(0, hi - lo)
  {
    if !(0 < hi <= |h| && Concerns(h, coll, filter, id, hi - 1)) {
      NoneLater(h, coll, filter, id, lo, hi - 1, k);
    }
  }

  /** The last event decides a document; without one it stays as it was. */
  lemma {:induction false} OverlayDecides(v: View, h: seq<LogRow>, coll: string, filter: Option<EqFilter>, lo: int, hi: int, id: string)
    ensures var last := LastEvent(h, coll, filter, id, lo, hi);
            At(Overlay(v, h, coll, filter, lo, hi), id) == if last.Some? then h[last.value].change.doc else At(v, id)
    decreases Max(0, hi - lo)
  {
    hide Matching;
    if lo < hi {
      OverlayDecides(v, h, coll, filter, lo, hi - 1, id);
    }
  }

  lemma SameView(v: View, w: View)
    requires forall id :: At(v, id) == At(w, id)
    ensures v == w
  {
    assert forall id :: id in v ==> At(v, id) == At(w, id);
    assert forall id :: id in w ==> At(v, id) == At(w, id);
  }

  lemma DocsAbsorb(rows: Table, row: LogRow)
    ensures DocsOf(AbsorbRow(rows, row)) == ApplyChange(DocsOf(rows), row.change) ||
            (row.change.op.Delete? && row.change.doc.Some?)
  {
  }

  lemma NoDocInDeletes(h: seq<LogRow>, i: nat)
    requires WellTyped(h) && i < |h|
    ensures h[i].change.op.Delete? <==> h[i].change.doc.None?
  {
    assert FitsAt(h, i);
  }

  /** One more event brings the documents forward by one. */
  lemma DocsAtNext(h: seq<LogRow>, coll: string, n: nat)
    requires WellTyped(h) && n < |h|
    ensures DocsAt(h, coll, n + 1) ==
            if h[n].change.coll == coll then ApplyChange(DocsAt(h, coll, n), h[n].change) else DocsAt(h, coll, n)
  {
    hide Replay, WellTyped, AbsorbRow, ApplyChange, DocsOf;
    assert h[..n + 1] == h[..n] + [h[n]];
    ReplayGrows(h[..n], h[n], coll);
    NoDocInDeletes(h, n);
    DocsAbsorb(Replay(h[..n], coll), h[n]);
  }

  lemma {:induction false} OverlayIsReplay(h: seq<LogRow>, coll: string, lo: nat, hi: nat)
    requires WellTyped(h) && lo <= hi <= |h|
    ensures Overlay(DocsAt(h, coll, lo), h, coll, None, lo, hi) == DocsAt(h, coll, hi)
    decreases hi - lo
  {
    hide WellTyped, DocsAt, ApplyChange;
    if lo < hi {
      OverlayIsReplay(h, coll, lo, hi - 1);
      DocsAtNext(h, coll, hi - 1);
    }
  }

  lemma {:induction false} OverlayConcat(v: View, h: seq<LogRow>, coll: string, filter: Option<EqFilter>, lo: int, mid: int, hi: int)
    requires lo <= mid <= hi
    ensures Overlay(v, h, coll, filter, lo, hi) == Overlay(Overlay(v, h, coll, filter, lo, mid), h, coll, filter, mid, hi)
    decreases hi - mid
  {
    hide Matching, ApplyChange;
    if mid < hi {
      OverlayConcat(v, h, coll, filter, lo, mid, hi - 1);
    }
  }

  /** A document at seq `n` is as its last event left it. */
  lemma DocAt(h: seq<LogRow>, coll: string, n: nat, id: string)
    requires WellTyped(h) && n <= |h|
    ensures var last := LastEvent(h, coll, None, id, 0, n);
            At(DocsAt(h, coll, n), id) == if last.Some? then h[last.value].change.doc else None
  {
    OverlayIsReplay(h, coll, 0, n);
    OverlayDecides(DocsAt(h, coll, 0), h, coll, None, 0, n, id);
    assert h[..0] == [];
    hide WellTyped, LastEvent, Overlay;
  }

  /** Applying the events (i..m] again to the documents at m changes nothing. */
  lemma OverlayIdempotent(h: seq<LogRow>, coll: string, i: nat, m: nat)
    requires WellTyped(h) && i <= m <= |h|
    ensures Overlay(DocsAt(h, coll, m), h, coll, None, i, m) == DocsAt(h, coll, m)
  {
    var start, end := DocsAt(h, coll, i), DocsAt(h, coll, m);
    OverlayIsReplay(h, coll, i, m);
    hide WellTyped, DocsAt, Overlay, LastEvent;
    forall id
      ensures At(Overlay(end, h, coll, None, i, m), id) == At(end, id)
    {
      OverlayDecides(end, h, coll, None, i, m, id);
      OverlayDecides(start, h, coll, None, i, m, id);
    }
    SameView(Overlay(end, h, coll, None, i, m), end);
  }

  /** Catching up from a stale position: the events (i..n] applied to the
      documents at m, for any i <= m <= n, give the documents at n. */
  lemma CatchUp(h: seq<LogRow>, coll: string, i: nat, m: nat, n: nat)
    requires WellTyped(h) && i <= m <= n <= |h|
    ensures Overlay(DocsAt(h, coll, m), h, coll, None, i, n) == DocsAt(h, coll, n)
  {
    hide WellTyped, DocsAt, Overlay;
    OverlayConcat(DocsAt(h, coll, m), h, coll, None, i, m, n);
    OverlayIdempotent(h, coll, i, m);
    OverlayIsReplay(h, coll, m, n);
  }

  /** A client that has read everything its stream sent, whose stream has nothing
      left to receive. */
  predicate CaughtUp(w: World, s: Sub) {
    s.stage.Live? && s.read == |s.out| && s.pos == |w.channel| && w.phase.Idle?
  }

  /** A caught-up client has applied every event from where its stream went on to
      the end of the history to what its view was built on. */
  lemma CaughtUpView(cfg: Config, cap: nat, run: seq<Action>, id: nat) returns (w: World, s: Sub)
    requires Exec(cfg, cap, run).Some? && id in Exec(cfg, cap, run).value.subs
    requires var w := Exec(cfg, cap, run).value; CaughtUp(w, w.subs[id]) && w.subs[id].view.Some?
    ensures w == Exec(cfg, cap, run).value && s == w.subs[id] && Consistent(cfg, w.history, w.db)
    ensures 0 <= s.asOf <= |w.history| && Based(w.history, s)
    ensures s.view.value == Overlay(Brought(w.history, s), w.history, s.coll, s.filter, ResumedAt(s), |w.history|)
    ensures !s.loaded ==> ReplayedFrom(w, s)
  {
    HonestOnEveryRun(cfg, cap, run);
    w, s := LiveSubKnown(cfg, cap, run, id);
    var h := w.history;
    assert w.base + s.pos == |h|;
    hide *;
    ViewParts(h, s);
    CaughtUpParts(w, s);
    QuietEnd(h, s, |h|);
    if Mark(s, |s.out|) <= |h| {
      OverlayQuiet(Brought(h, s), h, s, ResumedAt(s), Mark(s, |s.out|), |h|);
    } else {
      NoOverlay(Brought(h, s), h, s.coll, s.filter, ResumedAt(s), |h|);
      NoOverlay(Brought(h, s), h, s.coll, s.filter, ResumedAt(s), ResumedAt(s));
    }
    if !s.loaded {
      PickedUp(w, s);
    }
  }

  /** A stream that goes on from the view the client brought along. */
  predicate ReplayedFrom(w: World, s: Sub) {
    && s.last.Some? && s.minCut <= Max(s.last.value, 0)
    && s.start == ReplayStart(s.last.value, s.rowsCut, w.base + s.attached, s.found)
  }

  lemma PickedUp(w: World, s: Sub)
    requires Started(w.history, w.base, s) && Based(w.history, s) && !s.loaded && (s.read > 0 || s.out == [])
    ensures ReplayedFrom(w, s)
  {
    hide ReplayStart;
  }

  lemma ViewParts(h: seq<LogRow>, s: Sub)
    requires ViewInv(h, s) && s.view.Some?
    ensures s.read <= |s.out| && 0 <= s.asOf <= |h| && Based(h, s) && Anchored(s)
    ensures ResumedAt(s) <= Mark(s, s.read) <= Max(|h|, ResumedAt(s))
    ensures s.view.value == Overlay(Brought(h, s), h, s.coll, s.filter, ResumedAt(s), Mark(s, s.read))
  {
    hide Brought, Anchored, Based, Overlay;
  }

  lemma NoOverlay(v: View, h: seq<LogRow>, coll: string, filter: Option<EqFilter>, lo: int, hi: int)
    requires hi <= lo
    ensures Overlay(v, h, coll, filter, lo, hi) == v
  {
  }

  lemma CaughtUpParts(w: World, s: Sub)
    requires CaughtUp(w, s)
    ensures s.read == |s.out| && s.stage.Live? && (s.read > 0 || s.out == [])
  {
  }

  lemma QuietEnd(h: seq<LogRow>, s: Sub, reached: int)
    requires Settled(h, s, reached) && reached == |h|
    ensures Quiet(h, s, Mark(s, |s.out|), |h|)
  {
    hide MessageSettles, Matching;
  }

  /** An event of its collection that a client missed: at the time it loaded, the
      history had not reached the seq it had named, and its stream skips everything
      up to that; or the event was lost to a trim before the replay read. */
  predicate Missed(w: World, s: Sub, j: int) {
    && 0 <= j < |w.history| && w.history[j].change.coll == s.coll && s.last.Some?
    && if s.loaded then s.asOf < j + 1 <= s.last.value else s.last.value < j + 1 && Lost(w, s, j)
  }

  /** Client convergence, exactly: a caught-up unfiltered client, which applied
      every change it was sent, holds the current collection if and only if each
      document whose latest change it missed was already current in what its view
      was built on. */
  lemma ConvergesExactlyWhen(cfg: Config, cap: nat, run: seq<Action>, id: nat)
    requires Exec(cfg, cap, run).Some? && id in Exec(cfg, cap, run).value.subs
    requires var w := Exec(cfg, cap, run).value;
             var s := w.subs[id];
             CaughtUp(w, s) && s.filter.None? && s.view.Some?
    ensures var w := Exec(cfg, cap, run).value;
            var s := w.subs[id];
            && 0 <= s.asOf <= |w.history|
            && (s.view.value == DocsOf(Rows(w.db.tables, s.coll)) <==>
                forall j :: Missed(w, s, j) && LastTouch(w.history, s.coll, w.history[j].change.id, j) ==>
                  At(Brought(w.history, s), w.history[j].change.id) == w.history[j].change.doc)
  {
    var w, s := CaughtUpView(cfg, cap, run, id);
    NowIsEnd(cfg, w, s.coll);
    hide *;
    ConsistentTyped(cfg, w.history, w.db);
    var view, now := s.view.value, DocsAt(w.history, s.coll, |w.history|);
    if view == now {
      forall j | Missed(w, s, j) && LastTouch(w.history, s.coll, w.history[j].change.id, j)
        ensures At(Brought(w.history, s), w.history[j].change.id) == w.history[j].change.doc
      {
        MissedDoc(w, s, w.history[j].change.id, j);
      }
    } else if forall j :: Missed(w, s, j) && LastTouch(w.history, s.coll, w.history[j].change.id, j) ==>
                At(Brought(w.history, s), w.history[j].change.id) == w.history[j].change.doc {
      forall doc
        ensures At(view, doc) == At(now, doc)
      {
        ViewOfDoc(w, s, doc);
      }
      SameView(view, now);
    }
  }

  lemma LastIsTouch(h: seq<LogRow>, coll: string, doc: string)
    ensures var last := LastEvent(h, coll, None, doc, 0, |h|);
            if last.Some? then LastTouch(h, coll, doc, last.value)
            else forall j :: 0 <= j < |h| ==> !(h[j].change.coll == coll && h[j].change.id == doc)
  {
    hide LastEvent;
    forall j | 0 <= j < |h| && h[j].change.coll == coll && h[j].change.id == doc
      ensures LastEvent(h, coll, None, doc, 0, |h|).Some? && j <= LastEvent(h, coll, None, doc, 0, |h|).value
    {
      assert Concerns(h, coll, None, doc, j);
      NoneLater(h, coll, None, doc, 0, |h|, j);
    }
  }

  /** The latest change of a document decides it, unless it was missed. */
  lemma ViewOfDoc(w: World, s: Sub, doc: string)
    requires WellTyped(w.history) && 0 <= s.asOf <= |w.history| && Based(w.history, s) && s.filter.None?
    requires !s.loaded ==> ReplayedFrom(w, s)
    requires s.view.Some? && s.view.value == Overlay(Brought(w.history, s), w.history, s.coll, s.filter, ResumedAt(s), |w.history|)
    requires forall j :: Missed(w, s, j) && LastTouch(w.history, s.coll, w.history[j].change.id, j) ==>
               At(Brought(w.history, s), w.history[j].change.id) == w.history[j].change.doc
    ensures At(s.view.value, doc) == At(DocsAt(w.history, s.coll, |w.history|), doc)
  {
    var h := w.history;
    hide *;
    DocAt(h, s.coll, |h|, doc);
    LastIsTouch(h, s.coll, doc);
    OverlayDecides(Brought(h, s), h, s.coll, s.filter, ResumedAt(s), |h|, doc);
    var last := LastEvent(h, s.coll, None, doc, 0, |h|);
    AppliedLast(h, s.coll, doc, ResumedAt(s));
    if last.Some? {
      TouchParts(h, s.coll, doc, last.value);
      if last.value < ResumedAt(s) {
        BroughtOrMissed(w, s, doc, last.value);
      }
    } else {
      BroughtNone(h, s, doc);
    }
  }

  lemma TouchParts(h: seq<LogRow>, coll: string, doc: string, j: nat)
    requires LastTouch(h, coll, doc, j)
    ensures j < |h| && h[j].change.coll == coll && h[j].change.id == doc && Concerns(h, coll, None, doc, j)
    ensures LastEvent(h, coll, None, doc, 0, |h|) == Some(j)
  {
    hide LastEvent;
    assert Concerns(h, coll, None, doc, j);
    NoneLater(h, coll, None, doc, 0, |h|, j);
  }

  /** From where a stream goes on, the last event applied is the last there is. */
  lemma AppliedLast(h: seq<LogRow>, coll: string, doc: string, from: int)
    ensures var last := LastEvent(h, coll, None, doc, 0, |h|);
            LastEvent(h, coll, None, doc, from, |h|) == if last.Some? && last.value >= from then last else None
  {
    hide *;
    var last, applied := LastEvent(h, coll, None, doc, 0, |h|), LastEvent(h, coll, None, doc, from, |h|);
    if applied.Some? {
      NoneLater(h, coll, None, doc, 0, |h|, applied.value);
    }
    if last.Some? && last.value >= from {
      NoneLater(h, coll, None, doc, from, |h|, last.value);
    }
  }

  /** What a view was built on has every change before the missed ones. */
  lemma BroughtOrMissed(w: World, s: Sub, doc: string, j: nat)
    requires WellTyped(w.history) && 0 <= s.asOf <= |w.history| && Based(w.history, s) && s.filter.None?
    requires !s.loaded ==> ReplayedFrom(w, s)
    requires LastTouch(w.history, s.coll, doc, j) && j < ResumedAt(s)
    ensures Missed(w, s, j) || At(Brought(w.history, s), doc) == w.history[j].change.doc
  {
    var h := w.history;
    TouchParts(h, s.coll, doc, j);
    var from := if s.loaded then s.asOf else s.last.value;
    if j < from {
      hide *;
      BroughtLast(h, s, doc, j, from);
    } else if !s.loaded {
      LostBelowStart(w, s, j);
    }
  }

  lemma BroughtIs(h: seq<LogRow>, s: Sub)
    requires 0 <= s.asOf <= |h| && s.filter.None?
    ensures Brought(h, s) == if s.loaded || s.last.None? then DocsAt(h, s.coll, s.asOf)
                             else Overlay(DocsAt(h, s.coll, s.asOf), h, s.coll, None, s.since, s.last.value)
  {
    AllShown(DocsAt(h, s.coll, s.asOf));
    hide Overlay, Shown, DocsAt;
  }

  lemma BroughtLast(h: seq<LogRow>, s: Sub, doc: string, j: nat, from: int)
    requires WellTyped(h) && 0 <= s.asOf <= |h| && s.filter.None? && j < |h|
    requires s.loaded || (s.last.Some? && s.since <= s.asOf && s.last.value <= |h|)
    requires LastEvent(h, s.coll, None, doc, 0, |h|) == Some(j) && Concerns(h, s.coll, None, doc, j)
    requires j < from && from == if s.loaded then s.asOf else s.last.value
    ensures At(Brought(h, s), doc) == h[j].change.doc
  {
    hide *;
    BroughtIs(h, s);
    DocAt(h, s.coll, s.asOf, doc);
    if j < s.asOf {
      LoadedLast(h, s.coll, doc, s.asOf, j);
    }
    if !s.loaded {
      OverlayDecides(DocsAt(h, s.coll, s.asOf), h, s.coll, None, s.since, s.last.value, doc);
      var sent := LastEvent(h, s.coll, None, doc, s.since, s.last.value);
      if sent.Some? {
        NoneLater(h, s.coll, None, doc, 0, |h|, sent.value);
      }
      if j >= s.since {
        NoneLater(h, s.coll, None, doc, s.since, s.last.value, j);
      }
    }
  }

  lemma BroughtNone(h: seq<LogRow>, s: Sub, doc: string)
    requires WellTyped(h) && 0 <= s.asOf <= |h| && s.filter.None?
    requires LastEvent(h, s.coll, None, doc, 0, |h|).None?
    ensures At(Brought(h, s), doc) == None
  {
    hide *;
    BroughtIs(h, s);
    DocAt(h, s.coll, s.asOf, doc);
    if LastEvent(h, s.coll, None, doc, 0, s.asOf).Some? {
      NoneLater(h, s.coll, None, doc, 0, |h|, LastEvent(h, s.coll, None, doc, 0, s.asOf).value);
    }
    if !s.loaded && s.last.Some? {
      OverlayDecides(DocsAt(h, s.coll, s.asOf), h, s.coll, None, s.since, s.last.value, doc);
      if LastEvent(h, s.coll, None, doc, s.since, s.last.value).Some? {
        NoneLater(h, s.coll, None, doc, 0, |h|, LastEvent(h, s.coll, None, doc, s.since, s.last.value).value);
      }
    }
  }

  /** A missed document is as it was in what the view was built on. */
  lemma MissedDoc(w: World, s: Sub, doc: string, j: nat)
    requires WellTyped(w.history) && 0 <= s.asOf <= |w.history| && Based(w.history, s) && s.filter.None?
    requires !s.loaded ==> ReplayedFrom(w, s)
    requires s.view.Some? && s.view.value == Overlay(Brought(w.history, s), w.history, s.coll, s.filter, ResumedAt(s), |w.history|)
    requires Missed(w, s, j) && LastTouch(w.history, s.coll, doc, j)
    ensures At(s.view.value, doc) == At(Brought(w.history, s), doc)
    ensures At(DocsAt(w.history, s.coll, |w.history|), doc) == w.history[j].change.doc
  {
    var h := w.history;
    if !s.loaded {
      LostBelowStart(w, s, j);
    }
    assert j < ResumedAt(s);
    hide *;
    TouchParts(h, s.coll, doc, j);
    DocAt(h, s.coll, |h|, doc);
    AppliedLast(h, s.coll, doc, ResumedAt(s));
    OverlayDecides(Brought(h, s), h, s.coll, s.filter, ResumedAt(s), |h|, doc);
  }

  /** The client has loaded its view when the history had reached the seq it named,
      if any; or the rows after that seq were all there at the replay read. */
  predicate Trusted(s: Sub) {
    s.last.Some? ==> if s.loaded then s.last.value <= s.asOf else s.rowsCut <= Max(s.last.value, 0)
  }

  /** So an unfiltered client that loads the collection when it connects afresh and
      after every resync holds exactly the current collection whenever it is caught
      up, and so does a client that resumes with a view of its own unless rows after
      the seq it named were gone at the replay read. */
  lemma ClientConverges(cfg: Config, cap: nat, run: seq<Action>, id: nat)
    requires Exec(cfg, cap, run).Some? && id in Exec(cfg, cap, run).value.subs
    requires var w := Exec(cfg, cap, run).value;
             var s := w.subs[id];
             CaughtUp(w, s) && s.filter.None? && s.view.Some? && Trusted(s)
    ensures var w := Exec(cfg, cap, run).value;
            var s := w.subs[id];
            s.view.value == DocsOf(Rows(w.db.tables, s.coll))
  {
    ConvergesExactlyWhen(cfg, cap, run, id);
    hide Exec, CaughtUp, Brought, LastTouch, Rows, DocsOf;
  }

  lemma NowIsEnd(cfg: Config, w: World, coll: string)
    requires Consistent(cfg, w.history, w.db)
    ensures DocsOf(Rows(w.db.tables, coll)) == DocsAt(w.history, coll, |w.history|)
  {
    hide Replay, Rows, DocsOf, WellTyped, Gapless, Retains, Unique;
    assert w.history[..|w.history|] == w.history;
    assert Rows(w.db.tables, coll) == Replay(w.history, coll);
  }

  lemma ConsistentTyped(cfg: Config, h: seq<LogRow>, db: Db)
    requires Consistent(cfg, h, db)
    ensures WellTyped(h)
  {
    hide WellTyped, Gapless, Explained, Retains, Unique;
  }

  lemma AllShown(view: View)
    ensures Shown(view, None) == view
  {
  }

  lemma {:induction false} NoEarlyEvents(v: View, h: seq<LogRow>, coll: string, filter: Option<EqFilter>, lo: int, hi: int)
    requires hi <= 0
    ensures Overlay(v, h, coll, filter, lo, hi) == v
    decreases Max(0, hi - lo)
  {
    if lo < hi {
      NoEarlyEvents(v, h, coll, filter, lo, hi - 1);
    }
  }

  /** A trusted view: what was loaded at `asOf`, brought forward from `since` on. */
  lemma TrustedView(h: seq<LogRow>, w: World, s: Sub, upTo: int)
    requires Trusted(s) && 0 <= s.asOf <= |h| && Based(h, s) && ResumedAt(s) <= upTo
    requires !s.loaded ==> ReplayedFrom(w, s)
    ensures s.since <= s.asOf && ResumedAt(s) <= |h|
    ensures Overlay(Brought(h, s), h, s.coll, s.filter, ResumedAt(s), upTo) == Forwarded(h, s.coll, s.filter, s.asOf, s.since, upTo)
  {
    hide Overlay, Shown, DocsAt;
    if !s.loaded {
      var loaded, last := Shown(DocsAt(h, s.coll, s.asOf), s.filter), s.last.value;
      if last < s.start {
        NoEarlyEvents(Brought(h, s), h, s.coll, s.filter, last, s.start);
      } else {
        NoOverlay(Brought(h, s), h, s.coll, s.filter, last, s.start);
      }
      OverlayConcat(loaded, h, s.coll, s.filter, s.since, last, s.start);
      OverlayConcat(loaded, h, s.coll, s.filter, s.since, s.start, upTo);
    }
  }

  // ---- Filtered clients -----------------------------------------------------

  /** The event stored a document that the filter admits, and since then only
      updates came that it does not: they are not forwarded. */
  ghost predicate StoppedMatching(h: seq<LogRow>, coll: string, filter: Option<EqFilter>, id: string, j: int) {
    && 0 <= j < |h| && h[j].change.coll == coll && h[j].change.id == id
    && h[j].change.doc.Some? && Admits(filter, h[j].change.doc.value)
    && forall k :: j < k < |h| && h[k].change.coll == coll && h[k].change.id == id ==>
         h[k].change.doc.Some? && !Admits(filter, h[k].change.doc.value)
  }

  /** The client was shown what the event stored: it was sent the event, or loaded
      the documents while that was the state of this one. */
  ghost predicate WasShown(h: seq<LogRow>, coll: string, id: string, since: int, asOf: int, j: int) {
    j >= since || forall k :: j < k < asOf && 0 <= k < |h| && h[k].change.coll == coll ==> h[k].change.id != id
  }

  /** Filtered clients: a caught-up view agrees with the collection on every
      document that the filter admits now. Beyond these it holds exactly the
      documents that stopped matching after the client was shown them, as they
      were when they last matched. */
  lemma FilteredClientView(cfg: Config, cap: nat, run: seq<Action>, id: nat, doc: string)
    requires Exec(cfg, cap, run).Some? && id in Exec(cfg, cap, run).value.subs
    requires var w := Exec(cfg, cap, run).value;
             CaughtUp(w, w.subs[id]) && w.subs[id].view.Some? && Trusted(w.subs[id])
    ensures var w := Exec(cfg, cap, run).value;
            var s := w.subs[id];
            var now := At(DocsOf(Rows(w.db.tables, s.coll)), doc);
            if now.Some? && Admits(s.filter, now.value) then At(s.view.value, doc) == now
            else
              && (doc in s.view.value <==>
                    exists j :: StoppedMatching(w.history, s.coll, s.filter, doc, j) && WasShown(w.history, s.coll, doc, s.since, s.asOf, j))
              && (forall j :: StoppedMatching(w.history, s.coll, s.filter, doc, j) && WasShown(w.history, s.coll, doc, s.since, s.asOf, j) ==>
                    At(s.view.value, doc) == w.history[j].change.doc)
  {
    var w, s := CaughtUpView(cfg, cap, run, id);
    NowIsEnd(cfg, w, s.coll);
    hide *;
    ConsistentTyped(cfg, w.history, w.db);
    ResumedWithin(w, s);
    TrustedView(w.history, w, s, |w.history|);
    ViewByEvents(w.history, s, doc);
  }

  lemma ResumedWithin(w: World, s: Sub)
    requires Trusted(s) && 0 <= s.asOf <= |w.history| && Based(w.history, s) && (!s.loaded ==> ReplayedFrom(w, s))
    ensures ResumedAt(s) <= |w.history|
  {
  }

  /** The view of one document, by its events. */
  lemma ViewByEvents(h: seq<LogRow>, s: Sub, doc: string)
    requires WellTyped(h) && 0 <= s.asOf <= |h| && s.since <= s.asOf
    ensures var view := Forwarded(h, s.coll, s.filter, s.asOf, s.since, |h|);
            var now := At(DocsAt(h, s.coll, |h|), doc);
            if now.Some? && Admits(s.filter, now.value) then At(view, doc) == now
            else
              && (doc in view <==> exists j :: StoppedMatching(h, s.coll, s.filter, doc, j) && WasShown(h, s.coll, doc, s.since, s.asOf, j))
              && (forall j :: StoppedMatching(h, s.coll, s.filter, doc, j) && WasShown(h, s.coll, doc, s.since, s.asOf, j) ==>
                    At(view, doc) == h[j].change.doc)
  {
    var now := At(DocsAt(h, s.coll, |h|), doc);
    var view := Forwarded(h, s.coll, s.filter, s.asOf, s.since, |h|);
    hide *;
    if now.Some? && Admits(s.filter, now.value) {
      AdmittedNow(h, s, doc);
    } else {
      if doc in view {
        HeldWasShown(h, s, doc);
      }
      forall j | StoppedMatching(h, s.coll, s.filter, doc, j) && WasShown(h, s.coll, doc, s.since, s.asOf, j)
        ensures At(view, doc) == h[j].change.doc && doc in view
      {
        ShownIsHeld(h, s, doc, j);
      }
    }
  }

  /** The events that decide the view: the last one that passes from `since` on,
      or else what was loaded. */
  lemma ViewCases(h: seq<LogRow>, s: Sub, doc: string)
    requires WellTyped(h) && 0 <= s.asOf <= |h|
    ensures var view := Forwarded(h, s.coll, s.filter, s.asOf, s.since, |h|);
            var sent := LastEvent(h, s.coll, s.filter, doc, s.since, |h|);
            var loaded := LastEvent(h, s.coll, None, doc, 0, s.asOf);
            At(view, doc) ==
            if sent.Some? then h[sent.value].change.doc
            else if loaded.Some? && h[loaded.value].change.doc.Some? && Admits(s.filter, h[loaded.value].change.doc.value)
            then h[loaded.value].change.doc else None
  {
    hide WellTyped, Overlay, LastEvent, DocsAt, Admits;
    var loaded := DocsAt(h, s.coll, s.asOf);
    OverlayDecides(Shown(loaded, s.filter), h, s.coll, s.filter, s.since, |h|, doc);
    DocAt(h, s.coll, s.asOf, doc);
  }

  lemma PassesWhen(filter: Option<EqFilter>, c: Change)
    requires c.op.Delete? <==> c.doc.None?
    ensures Passes(filter, c) <==> c.doc.None? || Admits(filter, c.doc.value)
  {
  }

  /** An event concerns a filtered client if it deletes the document or stores one
      that is admitted. */
  lemma ConcernsWhen(h: seq<LogRow>, coll: string, filter: Option<EqFilter>, doc: string, j: nat)
    requires WellTyped(h) && j < |h|
    ensures var c := h[j].change;
            && (Concerns(h, coll, filter, doc, j) <==> c.coll == coll && c.id == doc && (c.doc.None? || Admits(filter, c.doc.value)))
            && (Concerns(h, coll, None, doc, j) <==> c.coll == coll && c.id == doc)
  {
    NoDocInDeletes(h, j);
    hide WellTyped, Passes, Admits;
    PassesWhen(filter, h[j].change);
    PassesWhen(None, h[j].change);
    AllAdmitted(h[j].change);
  }

  lemma AllAdmitted(c: Change)
    ensures c.doc.Some? ==> Admits(None, c.doc.value)
  {
  }

  lemma AdmittedNow(h: seq<LogRow>, s: Sub, doc: string)
    requires WellTyped(h) && 0 <= s.asOf <= |h| && s.since <= s.asOf
    requires var now := At(DocsAt(h, s.coll, |h|), doc); now.Some? && Admits(s.filter, now.value)
    ensures At(Forwarded(h, s.coll, s.filter, s.asOf, s.since, |h|), doc) == At(DocsAt(h, s.coll, |h|), doc)
  {
    ViewCases(h, s, doc);
    DocAt(h, s.coll, |h|, doc);
    hide *;
    var j := LastEvent(h, s.coll, None, doc, 0, |h|).value;
    ConcernsWhen(h, s.coll, s.filter, doc, j);
    NoneSentLater(h, s, doc, j);
    if j >= s.since {
      NoneLater(h, s.coll, s.filter, doc, s.since, |h|, j);
    } else {
      LoadedLast(h, s.coll, doc, s.asOf, j);
    }
  }

  lemma NoneSentLater(h: seq<LogRow>, s: Sub, doc: string, j: nat)
    requires WellTyped(h) && LastEvent(h, s.coll, None, doc, 0, |h|) == Some(j)
    ensures var sent := LastEvent(h, s.coll, s.filter, doc, s.since, |h|);
            sent.Some? ==> s.since <= sent.value <= j
  {
    hide *;
    var sent := LastEvent(h, s.coll, s.filter, doc, s.since, |h|);
    if sent.Some? {
      ConcernsWhen(h, s.coll, s.filter, doc, sent.value);
      NoneLater(h, s.coll, None, doc, 0, |h|, sent.value);
    }
  }

  lemma LoadedLast(h: seq<LogRow>, coll: string, doc: string, asOf: nat, j: nat)
    requires LastEvent(h, coll, None, doc, 0, |h|) == Some(j) && j < asOf <= |h|
    ensures LastEvent(h, coll, None, doc, 0, asOf) == Some(j)
  {
    hide *;
    NoneLater(h, coll, None, doc, 0, asOf, j);
    NoneLater(h, coll, None, doc, 0, |h|, LastEvent(h, coll, None, doc, 0, asOf).value);
  }

  /** Whatever the view holds that is not admitted now, stopped matching after it
      was shown. */
  lemma HeldWasShown(h: seq<LogRow>, s: Sub, doc: string)
    requires WellTyped(h) && 0 <= s.asOf <= |h| && s.since <= s.asOf
    requires var now := At(DocsAt(h, s.coll, |h|), doc); !(now.Some? && Admits(s.filter, now.value))
    requires doc in Forwarded(h, s.coll, s.filter, s.asOf, s.since, |h|)
    ensures exists j :: StoppedMatching(h, s.coll, s.filter, doc, j) && WasShown(h, s.coll, doc, s.since, s.asOf, j)
  {
    ViewCases(h, s, doc);
    var sent := LastEvent(h, s.coll, s.filter, doc, s.since, |h|);
    var loaded := LastEvent(h, s.coll, None, doc, 0, s.asOf);
    hide WellTyped, LastEvent, Forwarded, DocsAt, Concerns, Admits;
    var j := if sent.Some? then sent.value else loaded.value;
    ConcernsWhen(h, s.coll, s.filter, doc, j);
    forall k | j < k < |h| && h[k].change.coll == s.coll && h[k].change.id == doc
      ensures h[k].change.doc.Some? && !Admits(s.filter, h[k].change.doc.value) && (sent.None? ==> k >= s.asOf)
    {
      ConcernsWhen(h, s.coll, s.filter, doc, k);
      if sent.None? && k < s.asOf {
        NoneLater(h, s.coll, None, doc, 0, s.asOf, k);
      }
      if Concerns(h, s.coll, s.filter, doc, k) && k >= s.since {
        NoneLater(h, s.coll, s.filter, doc, s.since, |h|, k);
      }
    }
    assert StoppedMatching(h, s.coll, s.filter, doc, j);
    assert WasShown(h, s.coll, doc, s.since, s.asOf, j);
  }

  lemma ShownIsHeld(h: seq<LogRow>, s: Sub, doc: string, j: nat)
    requires WellTyped(h) && 0 <= s.asOf <= |h| && s.since <= s.asOf
    requires StoppedMatching(h, s.coll, s.filter, doc, j) && WasShown(h, s.coll, doc, s.since, s.asOf, j)
    ensures At(Forwarded(h, s.coll, s.filter, s.asOf, s.since, |h|), doc) == h[j].change.doc
    ensures doc in Forwarded(h, s.coll, s.filter, s.asOf, s.since, |h|)
  {
    ViewCases(h, s, doc);
    StoppedParts(h, s.coll, s.filter, doc, j);
    hide *;
    SentNoLater(h, s, doc, j);
    if j >= s.since {
      NoneLater(h, s.coll, s.filter, doc, s.since, |h|, j);
    } else {
      LoadedWhenShown(h, s, doc, j);
    }
    AtIsIn(Forwarded(h, s.coll, s.filter, s.asOf, s.since, |h|), doc);
  }

  lemma AtIsIn(view: View, doc: string)
    ensures doc in view <==> At(view, doc).Some?
  {
  }

  lemma StoppedParts(h: seq<LogRow>, coll: string, filter: Option<EqFilter>, doc: string, j: nat)
    requires WellTyped(h) && StoppedMatching(h, coll, filter, doc, j)
    ensures j < |h| && Concerns(h, coll, filter, doc, j) && Concerns(h, coll, None, doc, j)
    ensures h[j].change.doc.Some? && Admits(filter, h[j].change.doc.value)
  {
    hide WellTyped, Admits, Concerns;
    ConcernsWhen(h, coll, filter, doc, j);
  }

  /** No event that passes comes after the one that last matched. */
  lemma SentNoLater(h: seq<LogRow>, s: Sub, doc: string, j: nat)
    requires WellTyped(h) && StoppedMatching(h, s.coll, s.filter, doc, j)
    ensures var sent := LastEvent(h, s.coll, s.filter, doc, s.since, |h|);
            sent.Some? ==> s.since <= sent.value <= j
  {
    hide WellTyped, Admits, Concerns, LastEvent;
    var sent := LastEvent(h, s.coll, s.filter, doc, s.since, |h|);
    if sent.Some? {
      ConcernsWhen(h, s.coll, s.filter, doc, sent.value);
    }
  }

  lemma LoadedWhenShown(h: seq<LogRow>, s: Sub, doc: string, j: nat)
    requires WellTyped(h) && j < |h| && Concerns(h, s.coll, None, doc, j) && j < s.since <= s.asOf <= |h|
    requires WasShown(h, s.coll, doc, s.since, s.asOf, j)
    ensures LastEvent(h, s.coll, None, doc, 0, s.asOf) == Some(j)
  {
    hide WellTyped, Concerns, LastEvent;
    NoneLater(h, s.coll, None, doc, 0, s.asOf, j);
    ConcernsWhen(h, s.coll, None, doc, LastEvent(h, s.coll, None, doc, 0, s.asOf).value);
  }

  // ---- Reconnecting ---------------------------------------------------------

  /** From which seq on the view that a client leaves with is brought forward. */
  function LeavesSince(s: Sub, seen: int): int {
    if s.loaded && Mark(s, s.read) == s.since then seen else s.since
  }

  lemma SeenFirst(out: seq<Msg>, last: Option<int>)
    ensures LastSeen(out, 0, last) == last
  {
  }

  lemma LeavesHonest(w: World, s: Sub, seen: int)
    requires ViewInv(w.history, s) && Started(w.history, w.base, s) && s.view.Some? && Trusted(s)
    requires LastSeen(s.out, s.read, s.last) == Some(seen)
    ensures seen <= |w.history| && 0 <= s.asOf <= |w.history| && LeavesSince(s, seen) <= Min(s.asOf, seen)
    ensures s.view.value == Forwarded(w.history, s.coll, s.filter, s.asOf, LeavesSince(s, seen), seen)
  {
    var h := w.history;
    ViewParts(h, s);
    hide ViewInv, Overlay, Shown, DocsAt, LastSeen, Started, ReplayStart;
    SeenFirst(s.out, s.last);
    if s.loaded || s.read > 0 {
      if !s.loaded {
        PickedUp(w, s);
      }
      TrustedView(h, w, s, Mark(s, s.read));
      if LeavesSince(s, seen) != s.since {
        NoOverlay(Shown(DocsAt(h, s.coll, s.asOf), s.filter), h, s.coll, s.filter, seen, seen);
        NoOverlay(Shown(DocsAt(h, s.coll, s.asOf), s.filter), h, s.coll, s.filter, s.since, s.since);
      }
    } else {
      NoOverlay(Brought(h, s), h, s.coll, s.filter, s.start, s.start);
    }
  }

  lemma LaterHonest(h: seq<LogRow>, later: World, s: Sub, seen: int, since: int)
    requires h <= later.history && s.view.Some? && seen <= |h| && 0 <= s.asOf <= |h| && since <= Min(s.asOf, seen)
    requires s.view.value == Forwarded(h, s.coll, s.filter, s.asOf, since, seen)
    ensures HonestView(later, s.coll, s.filter, Some(seen), Some(Held(s.view.value, since, s.asOf)))
  {
    hide Shown, DocsAt, Overlay;
    var more := later.history[|h|..];
    assert later.history == h + more;
    ForwardedGrows(h, more, s.coll, s.filter, s.asOf, since, seen);
  }

  /** A client that leaves takes along an honest view, which it may reconnect with
      at any later time: its own, with the last seq it saw. So convergence holds
      across reconnects. */
  lemma ReconnectIsHonest(cfg: Config, cap: nat, run: seq<Action>, id: nat, longer: seq<Action>)
    requires Exec(cfg, cap, run).Some? && id in Exec(cfg, cap, run).value.subs
    requires var s := Exec(cfg, cap, run).value.subs[id];
             s.stage.Live? && s.view.Some? && Trusted(s) && LastSeen(s.out, s.read, s.last).Some?
    requires run <= longer && Exec(cfg, cap, longer).Some?
    ensures var s := Exec(cfg, cap, run).value.subs[id];
            var seen := LastSeen(s.out, s.read, s.last);
            && 0 <= s.asOf
            && HonestView(Exec(cfg, cap, longer).value, s.coll, s.filter, seen,
                          Some(Held(s.view.value, LeavesSince(s, seen.value), s.asOf)))
  {
    var w, s := LiveSubKnown(cfg, cap, run, id);
    var seen := LastSeen(s.out, s.read, s.last).value;
    assert longer[..|run|] == run;
    NothingForgotten(cfg, cap, longer, |run|);
    hide *;
    LeavesHonest(w, s, seen);
    LaterHonest(w.history, Exec(cfg, cap, longer).value, s, seen, LeavesSince(s, seen));
  }
}
