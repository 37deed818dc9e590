/** The drivers around the batch processor: the WP-CLI simulate and migrate
    commands, which call it batch after batch until it reports nothing more,
    and the admin page's migration step with its completion bookkeeping and
    resume test. */
module Orchestration {
  import opened Money
  import opened Wrappers
  import opened Config
  import opened Records
  import opened Processor

  /** Why a command stops with WP_CLI::error. */
  datatype Refusal = NoDependencies | NoBackup | BatchLocked

  /** How a command ends: an error, or the totals it reports. */
  datatype CliResult = Refused(reason: Refusal) | Completed(totals: Tally)

  /** Nothing of the store changed. */
  twostate predicate Untouched(store: Store)
    reads store, store.records
  {
    KeptAll(store.records) &&
    store.lock == old(store.lock) && store.savedOffset == old(store.savedOffset) &&
    store.lastActivity == old(store.lastActivity) && store.exportBuffer == old(store.exportBuffer) &&
    store.executed == old(store.executed) && store.migratedCount == old(store.migratedCount) &&
    store.partialCount == old(store.partialCount)
  }

  /** The subscriptions e still hold the snapshots orig. */
  predicate Stored(e: seq<Subscription>, orig: seq<Snapshot>)
    reads e
  {
    |orig| == |e| && forall j :: 0 <= j < |e| ==> SnapOf(e[j]) == orig[j]
  }

  /** ps lists the first |ps| snapshots of orig, each with its decision. */
  predicate Decided(ps: seq<Processed>, orig: seq<Snapshot>, run: Run)
  {
    |ps| <= |orig| &&
    forall i :: 0 <= i < |ps| ==> ps[i].snap == orig[i] && ps[i].outcome == Decide(orig[i].id, orig[i].state, run)
  }

  lemma Concatenation<T>(a: seq<T>, b: seq<T>, c: seq<T>)
    ensures (a + b) + c == a + (b + c)
  {
  }

  lemma NothingJoin(t: Tally)
    ensures Join(NoTally, t) == t
  {
    assert [] + t.details == t.details && [] + t.errorsList == t.errorsList;
    assert [] + t.warnings == t.warnings && [] + t.csv == t.csv;
  }

  /** The persisted options of the store. */
  datatype Progress = Progress(executed: bool, count: nat, partial: nat, offset: nat, lastActivity: int)

  function ProgressOf(store: Store): (p: Progress)
    reads store
    ensures p.executed == store.executed && p.count == store.migratedCount && p.partial == store.partialCount
    ensures p.offset == store.savedOffset && p.lastActivity == store.lastActivity
  {
    Progress(store.executed, store.migratedCount, store.partialCount, store.savedOffset, store.lastActivity)
  }

  /** The subscriptions rs hold the states states. */
  predicate StatesAre(rs: seq<Subscription>, states: seq<State>)
    reads rs
  {
    |states| == |rs| && forall i :: 0 <= i < |rs| ==> rs[i].Current() == states[i]
  }

  /** What the simulate loop started from: the options, the lock, the export
      buffer, every subscription's state, the eligible subscriptions and their
      snapshots, and the run parameters of its batches. */
  datatype Start = Start(progress: Progress, lock: bool, buffer: seq<ExportRow>, states: seq<State>,
                         e: seq<Subscription>, orig: seq<Snapshot>, run: Run)

  /** The store side of the simulate loop's invariant after the batches
      before offset whose tallies add up to totals: nothing but the lock and
      the export buffer changed, and the export buffer grew by the rows of
      the tallies. */
  predicate SimHeap(store: Store, s: Start, offset: nat, totals: Tally)
    reads store, store.records, s.e
  {
    StatesAre(store.records, s.states) && Stored(s.e, s.orig) && ProgressOf(store) == s.progress &&
    (offset == 0 ==> store.lock == s.lock) &&
    (offset > 0 ==> !store.lock && !s.lock) &&
    store.exportBuffer == s.buffer + totals.csv
  }

  /** The value side: the batches before offset covered the first offset
      eligible subscriptions, each decided on as it was stored, and their
      tallies add up to totals. */
  predicate SimPlan(cfg: Settings, s: Start, offset: nat, more: bool, totals: Tally, ps: seq<Processed>)
  {
    (offset == 0 ==> more && totals == NoTally && ps == []) &&
    (more ==> offset <= |s.e|) &&
    (cfg.rateId.None? && offset > 0 ==> !more && totals == MissingRate.tally) &&
    (cfg.rateId.Some? ==>
       |ps| == Min(offset, |s.e|) && (!more ==> |ps| == |s.e|) && totals == TallyOf(ps, s.run) && Decided(ps, s.orig, s.run))
  }

  /** One pass of the simulate loop: wc_tax_retrofit_process(true, offset),
      the totals updated, the offset advanced. */
  method SimulateBatch(store: Store, cfg: Settings, recalc: (nat, seq<LineItem>) -> Recalc,
                       actor: string, now: int, stamp: string, ghost s: Start,
                       offset: nat, totals: Tally, ghost ps: seq<Processed>)
    returns (res: BatchResult, totals': Tally, ghost ps': seq<Processed>)
    requires AscendingIds(store.records) && s.e == Eligible(store.records, cfg)
    requires SimHeap(store, s, offset, totals) && SimPlan(cfg, s, offset, true, totals, ps)
    requires cfg.rateId.Some? ==> s.run == RunFor(cfg, cfg.rateId.value, true, recalc, actor, stamp)
    modifies store, store.records
    ensures res.locked ==>
      offset == 0 && s.lock && store.lock && StatesAre(store.records, s.states) &&
      ProgressOf(store) == s.progress && store.exportBuffer == s.buffer
    ensures !res.locked ==>
      SimHeap(store, s, offset + BatchSize, totals') && SimPlan(cfg, s, offset + BatchSize, res.hasMore, totals', ps')
  {
    ghost var processed;
    ghost var buffer := store.exportBuffer;
    assert buffer == s.buffer + totals.csv && (!store.lock ==> !s.lock);
    if store.lock { assert totals.csv == []; assert buffer == s.buffer; }
    res, processed := DryProcess(store, cfg, recalc, actor, now, stamp, s, offset);
    ps' := if !old(store.lock) && cfg.rateId.Some? then ps + processed else ps;
    totals' := Join(totals, res.tally);
    if old(store.lock) {
      assert store.exportBuffer == buffer;
    } else {
      HeapStep(store, s, offset, totals, res);
      if cfg.rateId.None? {
        RatelessPlan(cfg, s, offset, totals, ps, res, totals');
      } else {
        PagePlan(cfg, s, offset, totals, ps, res, processed, totals');
      }
    }
  }

  /** wc_tax_retrofit_process(true, offset) as the simulate loop sees it:
      the subscriptions it lists are the eligible ones from offset on, as
      they were stored, and nothing but the lock and the buffer changes. */
  method DryProcess(store: Store, cfg: Settings, recalc: (nat, seq<LineItem>) -> Recalc,
                    actor: string, now: int, stamp: string, ghost s: Start, offset: nat)
    returns (res: BatchResult, ghost processed: seq<Processed>)
    requires AscendingIds(store.records) && s.e == Eligible(store.records, cfg) && offset <= |s.e|
    requires StatesAre(store.records, s.states) && Stored(s.e, s.orig)
    requires cfg.rateId.Some? ==> s.run == RunFor(cfg, cfg.rateId.value, true, recalc, actor, stamp)
    modifies store, store.records
    ensures StatesAre(store.records, s.states) && Stored(s.e, s.orig)
    ensures ProgressOf(store) == old(ProgressOf(store))
    ensures store.exportBuffer == old(store.exportBuffer) + res.tally.csv
    ensures old(store.lock) ==> res == LockedOut && store.lock
    ensures !old(store.lock) ==> !store.lock && !res.locked
    ensures !old(store.lock) && cfg.rateId.None? ==> res == MissingRate
    ensures !old(store.lock) && cfg.rateId.Some? ==>
      |processed| == Min(offset + BatchSize, |s.e|) - offset &&
      (forall i :: 0 <= i < |processed| ==> processed[i].snap == s.orig[offset + i]) &&
      (forall i :: 0 <= i < |processed| ==>
         processed[i].outcome == Decide(processed[i].snap.id, processed[i].snap.state, s.run)) &&
      res.tally == TallyOf(processed, s.run) && res.hasMore == (|processed| == BatchSize)
  {
    ghost var page;
    res, page, processed := store.Process(true, offset, cfg, true, recalc, actor, now, stamp);
    StillStored(store, s);
    if !old(store.lock) && cfg.rateId.Some? {
      PageSnaps(s, offset, page, processed);
    }
  }

  /** A dry run leaves every subscription as the loop found it. */
  twostate lemma StillStored(store: Store, new s: Start)
    requires old(allocated(s))
    requires old(StatesAre(store.records, s.states)) && old(Stored(s.e, s.orig))
    requires forall j :: 0 <= j < |s.e| ==> s.e[j] in store.records
    requires KeptAll(store.records)
    ensures StatesAre(store.records, s.states) && Stored(s.e, s.orig)
  {
    forall j | 0 <= j < |s.e| ensures SnapOf(s.e[j]) == s.orig[j] {
      assert s.e[j] in store.records;
      assert old(SnapOf(s.e[j])) == s.orig[j];
    }
    forall j | 0 <= j < |store.records| ensures store.records[j].Current() == s.states[j] {
      assert store.records[j] in store.records;
    }
  }

  /** A batch that was not locked out keeps the store side of the invariant. */
  lemma HeapStep(store: Store, s: Start, offset: nat, totals: Tally, res: BatchResult)
    requires StatesAre(store.records, s.states) && Stored(s.e, s.orig)
    requires ProgressOf(store) == s.progress && !store.lock && !s.lock
    requires store.exportBuffer == s.buffer + totals.csv + res.tally.csv
    ensures SimHeap(store, s, offset + BatchSize, Join(totals, res.tally))
  {
    Concatenation(s.buffer, totals.csv, res.tally.csv);
  }

  /** A batch without a located rate ends the simulate loop. */
  lemma RatelessPlan(cfg: Settings, s: Start, offset: nat, totals: Tally, ps: seq<Processed>, res: BatchResult,
                     totals': Tally)
    requires SimPlan(cfg, s, offset, true, totals, ps) && cfg.rateId.None? && res == MissingRate
    requires totals' == Join(totals, res.tally)
    ensures SimPlan(cfg, s, offset + BatchSize, res.hasMore, totals', ps)
  {
    assert offset == 0 && totals == NoTally;
    NothingJoin(res.tally);
    RatelessEnd(cfg, s, offset, ps, totals');
  }

  lemma RatelessEnd(cfg: Settings, s: Start, offset: nat, ps: seq<Processed>, totals': Tally)
    requires cfg.rateId.None? && totals' == MissingRate.tally
    ensures SimPlan(cfg, s, offset + BatchSize, false, totals', ps)
  {
  }

  /** The subscriptions of a dry-run page are the eligible ones from offset on,
      as they were stored. */
  twostate lemma PageSnaps(s: Start, new offset: nat, new page: seq<Subscription>, new processed: seq<Processed>)
    requires old(allocated(page))
    requires old(Stored(s.e, s.orig)) && offset <= |s.e|
    requires page == PageAt(s.e, offset) && |processed| == |page|
    requires forall i :: 0 <= i < |page| ==> processed[i].snap == old(SnapOf(page[i]))
    ensures |processed| == Min(offset + BatchSize, |s.e|) - offset
    ensures forall i :: 0 <= i < |processed| ==> processed[i].snap == s.orig[offset + i]
  {
    forall i | 0 <= i < |page| ensures processed[i].snap == s.orig[offset + i] {
      assert page[i] == s.e[offset + i];
    }
  }

  /** A dry-run batch that ran continues the list of decisions. */
  lemma PagePlan(cfg: Settings, s: Start, offset: nat, totals: Tally, ps: seq<Processed>,
                 res: BatchResult, processed: seq<Processed>, totals': Tally)
    requires SimPlan(cfg, s, offset, true, totals, ps) && cfg.rateId.Some? && |s.orig| == |s.e|
    requires |processed| == Min(offset + BatchSize, |s.e|) - offset
    requires forall i :: 0 <= i < |processed| ==> processed[i].snap == s.orig[offset + i]
    requires forall i :: 0 <= i < |processed| ==>
      processed[i].outcome == Decide(processed[i].snap.id, processed[i].snap.state, s.run)
    requires res.hasMore == (|processed| == BatchSize) && res.tally == TallyOf(processed, s.run)
    requires totals' == Join(totals, res.tally)
    ensures SimPlan(cfg, s, offset + BatchSize, res.hasMore, totals', ps + processed)
  {
    assert |ps| == offset && Decided(ps, s.orig, s.run);
    DecidedAppend(ps, processed, s.orig, s.run, offset);
    TallyAppend(ps, processed, s.run);
  }

  /** Decisions on the next stored subscriptions extend a list of decisions. */
  lemma DecidedAppend(ps: seq<Processed>, processed: seq<Processed>, orig: seq<Snapshot>, run: Run, offset: nat)
    requires Decided(ps, orig, run) && |ps| == offset && offset + |processed| <= |orig|
    requires forall i :: 0 <= i < |processed| ==> processed[i].snap == orig[offset + i]
    requires forall i :: 0 <= i < |processed| ==>
      processed[i].outcome == Decide(processed[i].snap.id, processed[i].snap.state, run)
    ensures Decided(ps + processed, orig, run)
  {
    var all := ps + processed;
    forall i | 0 <= i < |all|
      ensures all[i].snap == orig[i] && all[i].outcome == Decide(orig[i].id, orig[i].state, run)
    {
      if i >= offset { assert all[i] == processed[i - offset]; }
    }
  }

  /** wp tax-retrofit simulate: dry-run batches from offset 0, 100, 200, ...
      until one reports no more, adding up counters and lists. The totals
      are those of every eligible subscription, each decided on once as it
      was stored, and no subscription changes. */
  method Simulate(store: Store, cfg: Settings, depsOk: bool, recalc: (nat, seq<LineItem>) -> Recalc,
                  actor: string, now: int, stamp: string)
    returns (r: CliResult, ghost ps: seq<Processed>)
    requires AscendingIds(store.records)
    modifies store, store.records
    ensures KeptAll(store.records)
    ensures ProgressOf(store) == old(ProgressOf(store))
    ensures !depsOk ==> r == Refused(NoDependencies) && Untouched(store)
    ensures depsOk && old(store.lock) ==> r == Refused(BatchLocked) && Untouched(store)
    ensures depsOk && !old(store.lock) ==>
      r.Completed? && !store.lock && store.exportBuffer == old(store.exportBuffer) + r.totals.csv
    ensures depsOk && !old(store.lock) && cfg.rateId.None? ==> r == Completed(MissingRate.tally)
    ensures depsOk && !old(store.lock) && cfg.rateId.Some? ==>
      var e := Eligible(store.records, cfg);
      var run := RunFor(cfg, cfg.rateId.value, true, recalc, actor, stamp);
      r == Completed(TallyOf(ps, run)) && |ps| == |e| &&
      forall i :: 0 <= i < |e| ==>
        ps[i].snap == old(SnapOf(e[i])) && ps[i].outcome == Decide(ps[i].snap.id, ps[i].snap.state, run)
  {
    ps := [];
    if !depsOk {
      return Refused(NoDependencies), [];
    }
    ghost var e := Eligible(store.records, cfg);
    ghost var s := StartOf(store, cfg, RunFor(cfg, if cfg.rateId.Some? then cfg.rateId.value else 0, true, recalc, actor, stamp));
    var locked, totals;
    locked, totals, ps := SimulateLoop(store, cfg, recalc, actor, now, stamp, s);
    SimulateEnds(store, s);
    if locked {
      return Refused(BatchLocked), [];
    }
    r := Completed(totals);
    if cfg.rateId.Some? {
      forall i | 0 <= i < |e| ensures ps[i].snap == old(SnapOf(e[i])) {
      }
    }
  }

  /** The store as a loop finds it, with the run its batches use. */
  function StartOf(store: Store, cfg: Settings, run: Run): (s: Start)
    reads store, store.records
    ensures s.e == Eligible(store.records, cfg) && s.run == run
    ensures s.progress == ProgressOf(store) && s.lock == store.lock && s.buffer == store.exportBuffer
    ensures |s.orig| == |s.e| && forall i :: 0 <= i < |s.e| ==> s.orig[i] == SnapOf(s.e[i])
    ensures SimHeap(store, s, 0, NoTally)
  {
    var e := Eligible(store.records, cfg);
    Start(ProgressOf(store), store.lock, store.exportBuffer,
          seq(|store.records|, i requires 0 <= i < |store.records| reads store.records => store.records[i].Current()),
          e, seq(|e|, i requires 0 <= i < |e| reads store.records => SnapOf(e[i])), run)
  }

  /** The simulate loop proper, from offset 0 until a batch reports no more
      or is locked out, stated against the store as the loop found it. */
  method SimulateLoop(store: Store, cfg: Settings, recalc: (nat, seq<LineItem>) -> Recalc,
                      actor: string, now: int, stamp: string, ghost s: Start)
    returns (locked: bool, totals: Tally, ghost ps: seq<Processed>)
    requires AscendingIds(store.records) && s.e == Eligible(store.records, cfg)
    requires SimHeap(store, s, 0, NoTally)
    requires cfg.rateId.Some? ==> s.run == RunFor(cfg, cfg.rateId.value, true, recalc, actor, stamp)
    modifies store, store.records
    ensures StatesAre(store.records, s.states) && ProgressOf(store) == s.progress
    ensures locked ==> s.lock && store.lock && store.exportBuffer == s.buffer
    ensures !locked ==> !s.lock && !store.lock && store.exportBuffer == s.buffer + totals.csv
    ensures !locked && cfg.rateId.None? ==> totals == MissingRate.tally
    ensures !locked && cfg.rateId.Some? ==>
      |ps| == |s.e| && totals == TallyOf(ps, s.run) && Decided(ps, s.orig, s.run)
  {
    ps := [];
    totals := NoTally;
    var offset: nat := 0;
    var more := true;
    while more
      invariant SimHeap(store, s, offset, totals) && SimPlan(cfg, s, offset, more, totals, ps)
      decreases if more then |s.e| + 1 - offset else 0
    {
      var res;
      res, totals, ps := SimulateBatch(store, cfg, recalc, actor, now, stamp, s, offset, totals, ps);
      if res.locked {
        return true, totals, ps;
      }
      offset := offset + BatchSize;
      more := res.hasMore;
    }
    locked := false;
  }

  /** The subscriptions hold the states they held when the loop started. */
  twostate lemma SimulateEnds(store: Store, new s: Start)
    requires old(allocated(s))
    requires old(StatesAre(store.records, s.states)) && StatesAre(store.records, s.states)
    ensures KeptAll(store.records)
  {
    forall r | r in store.records ensures r.Current() == old(r.Current()) {
      var i :| 0 <= i < |store.records| && store.records[i] == r;
    }
  }
}
