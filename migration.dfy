/** The real runs: the WP-CLI migrate command, which calls the batch
    processor from the requested offset on until a batch reports no more,
    and the admin page's migration step, one batch per click, with the
    bookkeeping that marks the migration done and the test whether an
    interrupted one can be resumed. */
module Migration {
  import opened Money
  import opened Wrappers
  import opened Config
  import opened Records
  import opened Processor
  import opened Orchestration

  /** The tallies of consecutive batches added up. */
  function BatchTotals(rs: seq<BatchResult>): Tally
  {
    if rs == [] then NoTally else Join(BatchTotals(rs[..|rs| - 1]), rs[|rs| - 1].tally)
  }

  /** The batches of a migrate run that got past its refusals: the first
      starts where wc_tax_retrofit_process resumes for the requested offset,
      the k-th at requested + 100 k; each covers the page of the eligible
      subscriptions e at its offset, reports more exactly when that page is
      full, and only the last reports no more. */
  predicate Visited(bs: seq<BatchResult>, requested: nat, saved: nat, e: seq<Subscription>)
  {
    |bs| > 0 &&
    (forall k :: 0 <= k < |bs| ==>
       bs[k].offset == (if k == 0 then Resumed(false, requested, saved) else requested + BatchSize * k) &&
       bs[k].batchSize == |PageAt(e, bs[k].offset)| && bs[k].hasMore == (bs[k].batchSize == BatchSize) &&
       !bs[k].locked) &&
    (forall k :: 0 <= k < |bs| - 1 ==> bs[k].hasMore) &&
    !bs[|bs| - 1].hasMore
  }

  /** One pass of the migrate loop: wc_tax_retrofit_process(false, offset),
      seen through what the loop needs of it. */
  method MigrateBatch(store: Store, cfg: Settings, recalc: (nat, seq<LineItem>) -> Recalc,
                      actor: string, now: int, stamp: string, offset: nat)
    returns (res: BatchResult)
    requires AscendingIds(store.records)
    modifies store, store.records
    ensures store.executed == old(store.executed) && store.migratedCount == old(store.migratedCount)
    ensures store.partialCount == old(store.partialCount)
    ensures old(store.lock) ==> res == LockedOut && Untouched(store)
    ensures !old(store.lock) ==> !store.lock && store.exportBuffer == old(store.exportBuffer) + res.tally.csv
    ensures !old(store.lock) && cfg.rateId.None? ==> res == MissingRate
    ensures !old(store.lock) && cfg.rateId.Some? ==>
      res.offset == Resumed(false, offset, old(store.savedOffset)) &&
      res.batchSize == |PageAt(Eligible(store.records, cfg), res.offset)| &&
      res.hasMore == (res.batchSize == BatchSize) && !res.locked
  {
    ghost var page, processed;
    res, page, processed := store.Process(false, offset, cfg, true, recalc, actor, now, stamp);
  }

  /** The store side of the migrate loop: unlocked, the migration records
      as the command found them, the export buffer grown by the batches' rows. */
  predicate MigHeap(store: Store, p: Progress, buffer: seq<ExportRow>, totals: Tally)
    reads store
  {
    !store.lock && store.executed == p.executed && store.migratedCount == p.count &&
    store.partialCount == p.partial && store.exportBuffer == buffer + totals.csv
  }

  /** The value side: the batches run so far, the offset of the next one,
      whether one is due, and the totals added up. */
  predicate MigPlan(cfg: Settings, bs: seq<BatchResult>, requested: nat, saved: nat, e: seq<Subscription>,
                    offset: nat, more: bool, totals: Tally)
  {
    |bs| > 0 && offset == requested + BatchSize * |bs| && more == bs[|bs| - 1].hasMore &&
    (more ==> offset <= |e|) &&
    (cfg.rateId.None? ==> bs == [MissingRate] && totals == MissingRate.tally) &&
    (cfg.rateId.Some? ==> totals == BatchTotals(bs) && MidVisit(bs, requested, saved, e))
  }

  /** Visited, for the batches run so far. */
  predicate MidVisit(bs: seq<BatchResult>, requested: nat, saved: nat, e: seq<Subscription>)
  {
    (forall k :: 0 <= k < |bs| ==>
       bs[k].offset == (if k == 0 then Resumed(false, requested, saved) else requested + BatchSize * k) &&
       bs[k].batchSize == |PageAt(e, bs[k].offset)| && bs[k].hasMore == (bs[k].batchSize == BatchSize) &&
       !bs[k].locked) &&
    (forall k :: 0 <= k < |bs| - 1 ==> bs[k].hasMore)
  }

  /** The first batch of a migrate run that was not locked out. */
  lemma FirstPlan(cfg: Settings, requested: nat, saved: nat, e: seq<Subscription>, res: BatchResult, totals: Tally)
    requires cfg.rateId.None? ==> res == MissingRate
    requires cfg.rateId.Some? ==>
      res.offset == Resumed(false, requested, saved) && res.batchSize == |PageAt(e, res.offset)| &&
      res.hasMore == (res.batchSize == BatchSize) && !res.locked
    requires totals == res.tally
    ensures MigPlan(cfg, [res], requested, saved, e, requested + BatchSize, res.hasMore, totals)
  {
    if cfg.rateId.Some? {
      BatchTotalsOne(res);
      FirstVisit(requested, saved, e, res);
    }
  }

  /** A single batch's totals are its tally. */
  lemma BatchTotalsOne(res: BatchResult)
    ensures BatchTotals([res]) == res.tally
  {
    assert [res][..0] == [];
    NothingJoin(res.tally);
  }

  lemma FirstVisit(requested: nat, saved: nat, e: seq<Subscription>, res: BatchResult)
    requires res.offset == Resumed(false, requested, saved) && res.batchSize == |PageAt(e, res.offset)|
    requires res.hasMore == (res.batchSize == BatchSize) && !res.locked
    ensures MidVisit([res], requested, saved, e)
    ensures res.hasMore ==> requested + BatchSize <= |e|
  {
    assert requested <= res.offset;
    forall k | 0 <= k < 1
      ensures [res][k] == res
    {
    }
  }

  /** A later batch continues the plan. */
  lemma NextPlan(cfg: Settings, bs: seq<BatchResult>, requested: nat, saved: nat, e: seq<Subscription>,
                 offset: nat, totals: Tally, res: BatchResult, totals': Tally)
    requires MigPlan(cfg, bs, requested, saved, e, offset, true, totals)
    requires res.offset == offset && res.batchSize == |PageAt(e, offset)|
    requires res.hasMore == (res.batchSize == BatchSize) && !res.locked
    requires totals' == Join(totals, res.tally)
    ensures MigPlan(cfg, bs + [res], requested, saved, e, offset + BatchSize, res.hasMore, totals')
  {
    assert (bs + [res])[..|bs|] == bs;
  }

  /** A real batch after the first: its offset is positive, so it does not resume. */
  method MigrateNext(store: Store, cfg: Settings, recalc: (nat, seq<LineItem>) -> Recalc,
                     actor: string, now: int, stamp: string, ghost p: Progress, ghost buffer: seq<ExportRow>,
                     ghost requested: nat, ghost saved: nat, ghost e: seq<Subscription>,
                     offset: nat, totals: Tally, ghost bs: seq<BatchResult>)
    returns (res: BatchResult, totals': Tally, ghost bs': seq<BatchResult>)
    requires AscendingIds(store.records) && e == Eligible(store.records, cfg)
    requires MigHeap(store, p, buffer, totals) && MigPlan(cfg, bs, requested, saved, e, offset, true, totals)
    modifies store, store.records
    ensures MigHeap(store, p, buffer, totals')
    ensures MigPlan(cfg, bs', requested, saved, e, offset + BatchSize, res.hasMore, totals')
  {
    res := MigrateBatch(store, cfg, recalc, actor, now, stamp, offset);
    bs' := bs + [res];
    totals' := Join(totals, res.tally);
    Concatenation(buffer, totals.csv, res.tally.csv);
    NextPlan(cfg, bs, requested, saved, e, offset, totals, res, totals');
  }

  /** What a migrate run that was not locked out reports: the batches of
      Visited, or the single batch that found no rate, and their totals. */
  predicate Reported(cfg: Settings, bs: seq<BatchResult>, requested: nat, saved: nat, e: seq<Subscription>,
                     totals: Tally)
  {
    (cfg.rateId.None? ==> bs == [MissingRate] && totals == MissingRate.tally) &&
    (cfg.rateId.Some? ==> totals == BatchTotals(bs) && Visited(bs, requested, saved, e))
  }

  /** A plan with no batch due is what the run reports. */
  lemma PlanReported(cfg: Settings, bs: seq<BatchResult>, requested: nat, saved: nat, e: seq<Subscription>,
                     offset: nat, totals: Tally)
    requires MigPlan(cfg, bs, requested, saved, e, offset, false, totals)
    ensures Reported(cfg, bs, requested, saved, e, totals)
  {
  }

  /** The first batch of the migrate command, at the requested offset. */
  method MigrateFirst(store: Store, cfg: Settings, requested: nat, recalc: (nat, seq<LineItem>) -> Recalc,
                      actor: string, now: int, stamp: string, ghost e: seq<Subscription>)
    returns (res: BatchResult, ghost batches: seq<BatchResult>)
    requires AscendingIds(store.records) && e == Eligible(store.records, cfg)
    modifies store, store.records
    ensures res.locked == old(store.lock)
    ensures res.locked ==> Untouched(store)
    ensures !res.locked ==>
      MigHeap(store, old(ProgressOf(store)), old(store.exportBuffer), res.tally) &&
      MigPlan(cfg, batches, requested, old(store.savedOffset), e, requested + BatchSize, res.hasMore, res.tally)
  {
    ghost var saved: nat := store.savedOffset;
    res := MigrateBatch(store, cfg, recalc, actor, now, stamp, requested);
    batches := [res];
    if !res.locked {
      FirstPlan(cfg, requested, saved, e, res, res.tally);
    }
  }

  /** The batches of the migrate command, from the requested offset on. */
  method MigrateRun(store: Store, cfg: Settings, requested: nat, recalc: (nat, seq<LineItem>) -> Recalc,
                    actor: string, now: int, stamp: string)
    returns (locked: bool, totals: Tally, ghost batches: seq<BatchResult>)
    requires AscendingIds(store.records)
    modifies store, store.records
    ensures locked == old(store.lock)
    ensures locked ==> Untouched(store)
    ensures !locked ==>
      MigHeap(store, old(ProgressOf(store)), old(store.exportBuffer), totals) &&
      Reported(cfg, batches, requested, old(store.savedOffset), Eligible(store.records, cfg), totals)
  {
    ghost var e := Eligible(store.records, cfg);
    ghost var p := ProgressOf(store);
    ghost var saved: nat := store.savedOffset;
    ghost var buffer := store.exportBuffer;
    var res;
    res, batches := MigrateFirst(store, cfg, requested, recalc, actor, now, stamp, e);
    if res.locked {
      return true, NoTally, batches;
    }
    totals := res.tally;
    var offset: nat := requested + BatchSize;
    var more := res.hasMore;
    while more
      invariant MigHeap(store, p, buffer, totals) && MigPlan(cfg, batches, requested, saved, e, offset, more, totals)
      decreases more, if offset <= |e| then |e| + 1 - offset else 0
    {
      res, totals, batches := MigrateNext(store, cfg, recalc, actor, now, stamp, p, buffer,
                                          requested, saved, e, offset, totals, batches);
      offset := offset + BatchSize;
      more := res.hasMore;
    }
    PlanReported(cfg, batches, requested, saved, e, offset, totals);
    locked := false;
  }

  /** wp tax-retrofit migrate: refused without the dependencies or without
      --yes-i-have-a-backup; otherwise real batches from the requested offset,
      offset += 100 after each, until one reports no more, and then the
      migration is recorded as executed with the batches' updated count and
      the resume data deleted. A batch locked out by another one ends the
      command with an error before anything is recorded. */
  method Migrate(store: Store, cfg: Settings, depsOk: bool, backupConfirmed: bool, requested: nat,
                 recalc: (nat, seq<LineItem>) -> Recalc, actor: string, now: int, stamp: string)
    returns (r: CliResult, ghost batches: seq<BatchResult>)
    requires AscendingIds(store.records)
    modifies store, store.records
    ensures !depsOk ==> r == Refused(NoDependencies) && Untouched(store)
    ensures depsOk && !backupConfirmed ==> r == Refused(NoBackup) && Untouched(store)
    ensures depsOk && backupConfirmed && old(store.lock) ==> r == Refused(BatchLocked) && Untouched(store)
    ensures depsOk && backupConfirmed && !old(store.lock) ==>
      r.Completed? && !store.lock &&
      ProgressOf(store) == Progress(true, r.totals.updated, 0, 0, 0) &&
      store.exportBuffer == old(store.exportBuffer) + r.totals.csv
    ensures depsOk && backupConfirmed && !old(store.lock) && cfg.rateId.None? ==>
      batches == [MissingRate] && r == Completed(MissingRate.tally)
    ensures depsOk && backupConfirmed && !old(store.lock) && cfg.rateId.Some? ==>
      r == Completed(BatchTotals(batches)) &&
      Visited(batches, requested, old(store.savedOffset), Eligible(store.records, cfg))
  {
    batches := [];
    if !depsOk {
      return Refused(NoDependencies), [];
    }
    if !backupConfirmed {
      return Refused(NoBackup), [];
    }
    var locked, totals;
    locked, totals, batches := MigrateRun(store, cfg, requested, recalc, actor, now, stamp);
    if locked {
      return Refused(BatchLocked), [];
    }
    store.executed, store.migratedCount := true, totals.updated;
    store.partialCount, store.savedOffset, store.lastActivity := 0, 0, 0;
    r := Completed(totals);
  }

  /** The pages of n batches at off, off + 100, off + 200, ... one after the other. */
  function PagesFrom(e: seq<Subscription>, off: nat, n: nat): seq<Subscription>
  {
    if n == 0 then [] else PagesFrom(e, off, n - 1) + PageAt(e, off + BatchSize * (n - 1))
  }

  /** Consecutive pages are consecutive slices. */
  lemma {:induction false} PagesFromSlice(e: seq<Subscription>, off: nat, n: nat)
    ensures PagesFrom(e, off, n) == e[Min(off, |e|)..Min(off + BatchSize * n, |e|)]
  {
    if n > 0 {
      PagesFromSlice(e, off, n - 1);
      var a, b, c := Min(off, |e|), Min(off + BatchSize * (n - 1), |e|), Min(off + BatchSize * n, |e|);
      assert a <= b <= c;
      assert e[a..b] + e[b..c] == e[a..c];
    }
  }

  /** The pages the batches bs went through, one after the other. */
  function Covered(e: seq<Subscription>, bs: seq<BatchResult>): seq<Subscription>
  {
    if bs == [] then [] else Covered(e, bs[..|bs| - 1]) + PageAt(e, bs[|bs| - 1].offset)
  }

  lemma {:induction false} CoveredFrom(e: seq<Subscription>, bs: seq<BatchResult>, off: nat)
    requires forall k :: 0 <= k < |bs| ==> bs[k].offset == off + BatchSize * k
    ensures Covered(e, bs) == PagesFrom(e, off, |bs|)
    decreases |bs|
  {
    if bs != [] {
      var p := bs[..|bs| - 1];
      assert forall k :: 0 <= k < |p| ==> p[k] == bs[k];
      CoveredFrom(e, p, off);
    }
  }

  /** The batches of Visited continue until the one whose offset passes the
      end: from the k-th offset off + 100 k, the run ends exactly past |e|. */
  lemma LastPastEnd(bs: seq<BatchResult>, requested: nat, saved: nat, e: seq<Subscription>, off: nat)
    requires Visited(bs, requested, saved, e)
    requires forall k :: 0 <= k < |bs| ==> bs[k].offset == off + BatchSize * k
    ensures off + BatchSize * |bs| > |e|
    ensures |bs| > 1 ==> off + BatchSize * (|bs| - 1) <= |e|
  {
    var n := |bs|;
    assert bs[n - 1].offset + BatchSize > |e|;
    assert off + BatchSize * (n - 1) + BatchSize == off + BatchSize * n;
    if n > 1 {
      assert bs[n - 2].hasMore;
      assert off + BatchSize * (n - 2) + BatchSize == off + BatchSize * (n - 1);
    }
  }

  /** A migrate run that does not resume goes through every eligible
      subscription from the requested offset on, each once and in id order,
      in (|e| - requested) / 100 + 1 batches (the last one short, possibly empty). */
  lemma RunCoversRest(bs: seq<BatchResult>, requested: nat, saved: nat, e: seq<Subscription>)
    requires Visited(bs, requested, saved, e) && Resumed(false, requested, saved) == requested
    ensures Covered(e, bs) == e[Min(requested, |e|)..]
    ensures requested <= |e| ==> |bs| == (|e| - requested) / BatchSize + 1
    ensures requested > |e| ==> |bs| == 1
  {
    var n := |bs|;
    forall k | 0 <= k < n ensures bs[k].offset == requested + BatchSize * k {
    }
    CoveredFrom(e, bs, requested);
    PagesFromSlice(e, requested, n);
    LastPastEnd(bs, requested, saved, e, requested);
    if requested <= |e| {
      var q := n - 1;
      DivBy(|e| - requested, BatchSize, q, |e| - requested - BatchSize * q);
    }
  }

  /** A migrate run called without --offset while an interrupted run's offset
      saved > 0 is stored starts at saved, as wc_tax_retrofit_process resumes,
      but its own offset then goes to 100: the later batches go through the
      eligible subscriptions from 100 on, so those of the first page are
      fetched again when saved >= 100. */
  lemma ResumedRunRevisits(bs: seq<BatchResult>, saved: nat, e: seq<Subscription>)
    requires Visited(bs, 0, saved, e) && saved > 0
    ensures bs[0].offset == saved
    ensures |bs| > 1 ==> PageAt(e, saved) == e[saved..saved + BatchSize]
    ensures |bs| > 1 ==> Covered(e, bs[1..]) == e[BatchSize..]
  {
    if |bs| > 1 {
      var later := bs[1..];
      forall k | 0 <= k < |later| ensures later[k].offset == BatchSize + BatchSize * k {
        assert later[k] == bs[k + 1];
      }
      assert Visited(later, BatchSize, 0, e) by {
        forall k | 0 <= k < |later| - 1 ensures later[k].hasMore {
          assert later[k] == bs[k + 1];
        }
      }
      RunCoversRest(later, BatchSize, 0, e);
    }
  }

  // The admin page: one batch per submitted form.

  /** The migration records after a step whose batch was processed: a batch
      that reports no more marks the migration executed with the partial
      count plus this batch's updates as its count, and clears the partial
      count, the resume offset and the last activity; one that reports more
      adds its updates to the partial count. The admin page as written does
      this after every batch, including one locked out by a running batch. */
  function CompleteAsWritten(p: Progress, res: BatchResult): Progress
  {
    if !res.hasMore then Progress(true, p.partial + res.tally.updated, 0, 0, 0)
    else p.(partial := p.partial + res.tally.updated)
  }

  /** The bookkeeping of a step, except that a locked-out step leaves the
      migration records alone. */
  function Complete(p: Progress, res: BatchResult): Progress
  {
    if res.locked then p else CompleteAsWritten(p, res)
  }

  /** What the batch processor itself records of a real batch: one that
      reports more saves the offset after its page and the time. */
  function Saved(p: Progress, res: BatchResult, now: int): Progress
  {
    if res.hasMore then p.(offset := res.offset + res.batchSize, lastActivity := now) else p
  }

  /** The offset the page's continue form submits after a batch with more. */
  function NextOffset(res: BatchResult): nat
  {
    res.offset + BatchSize
  }

  /** Whether the admin page offers to resume an interrupted migration:
      a saved offset, a migration not marked executed, and activity less
      than an hour ago. */
  predicate CanResume(p: Progress, now: int)
  {
    p.offset > 0 && !p.executed && now - p.lastActivity < 3600
  }

  /** One submission of the migration form at offset: the export buffer is
      cleared when the offset is 0, the batch is processed for real, and
      the migration records are brought up to date. The admin page returns
      before the form is handled when a dependency is missing, so the batch
      always runs with its dependencies present. */
  method MigrateStep(store: Store, cfg: Settings, offset: nat,
                     recalc: (nat, seq<LineItem>) -> Recalc, actor: string, now: int, stamp: string)
    returns (res: BatchResult)
    requires AscendingIds(store.records)
    modifies store, store.records
    ensures ProgressOf(store) == Complete(Saved(old(ProgressOf(store)), res, now), res)
    ensures store.lock == old(store.lock)
    ensures store.exportBuffer == (if offset == 0 then [] else old(store.exportBuffer)) + res.tally.csv
    ensures old(store.lock) ==> res == LockedOut && KeptAll(store.records)
    ensures !old(store.lock) && cfg.rateId.None? ==> res == MissingRate && KeptAll(store.records)
    ensures !old(store.lock) && cfg.rateId.Some? ==>
      res.offset == Resumed(false, offset, old(store.savedOffset)) &&
      res.batchSize == |PageAt(Eligible(store.records, cfg), res.offset)| &&
      res.hasMore == (res.batchSize == BatchSize) && !res.locked
  {
    if offset == 0 {
      store.exportBuffer := [];
    }
    res := StepBatch(store, cfg, offset, recalc, actor, now, stamp);
    if res.locked {
      return;
    }
    var partial := store.partialCount;
    if !res.hasMore {
      store.executed, store.migratedCount := true, partial + res.tally.updated;
      store.partialCount, store.savedOffset, store.lastActivity := 0, 0, 0;
    } else {
      store.partialCount := partial + res.tally.updated;
    }
  }

  /** The batch of a migration step, seen through what the step records. */
  method StepBatch(store: Store, cfg: Settings, offset: nat,
                   recalc: (nat, seq<LineItem>) -> Recalc, actor: string, now: int, stamp: string)
    returns (res: BatchResult)
    requires AscendingIds(store.records)
    modifies store, store.records
    ensures ProgressOf(store) == Saved(old(ProgressOf(store)), res, now)
    ensures store.lock == old(store.lock)
    ensures store.exportBuffer == old(store.exportBuffer) + res.tally.csv
    ensures old(store.lock) ==> res == LockedOut && KeptAll(store.records)
    ensures !old(store.lock) && cfg.rateId.None? ==> res == MissingRate && KeptAll(store.records)
    ensures !old(store.lock) && cfg.rateId.Some? ==>
      res.offset == Resumed(false, offset, old(store.savedOffset)) &&
      res.batchSize == |PageAt(Eligible(store.records, cfg), res.offset)| &&
      res.hasMore == (res.batchSize == BatchSize) && !res.locked
  {
    ghost var page, processed;
    res, page, processed := store.Process(false, offset, cfg, true, recalc, actor, now, stamp);
  }

  /** The full reset: every migration record, the user's export and the
      batch lock are deleted. */
  method FullReset(store: Store, now: int)
    modifies store
    ensures ProgressOf(store) == Progress(false, 0, 0, 0, 0)
    ensures store.exportBuffer == [] && !store.lock
    ensures !CanResume(ProgressOf(store), now)
  {
    store.executed, store.migratedCount, store.partialCount := false, 0, 0;
    store.savedOffset, store.lastActivity := 0, 0;
    store.exportBuffer, store.lock := [], false;
  }

  /** After a real batch that reports more, the continue form submits the
      very offset the batch processor saved, and the migration can be
      resumed from it for the next hour. */
  lemma StepWithMoreResumable(p: Progress, res: BatchResult, now: int, later: int)
    requires !p.executed && !res.locked && res.hasMore && res.batchSize == BatchSize
    requires now <= later < now + 3600
    ensures var q := Complete(Saved(p, res, now), res);
      q.offset == NextOffset(res) && CanResume(q, later) &&
      q.partial == p.partial + res.tally.updated && q.count == p.count
  {
  }

  /** After a batch that reports no more, the migration is marked executed
      and cannot be resumed. */
  lemma FinishedStepNotResumable(p: Progress, res: BatchResult, now: int, later: int)
    requires !res.locked && !res.hasMore
    ensures var q := Complete(Saved(p, res, now), res);
      q.executed && q.count == p.partial + res.tally.updated && q.partial == 0 &&
      !CanResume(q, later)
  {
  }

  /** The migration records after the steps rs, all at time now. */
  function Session(p: Progress, rs: seq<BatchResult>, now: int): Progress
  {
    if rs == [] then p
    else Complete(Saved(Session(p, rs[..|rs| - 1], now), rs[|rs| - 1], now), rs[|rs| - 1])
  }

  /** Steps whose batches ran and reported more add their updates to the
      partial count; the step that reports no more then records the
      updates of the whole session as the migration's count. */
  lemma {:induction false} SessionCount(p: Progress, rs: seq<BatchResult>, now: int)
    requires !p.executed
    requires forall k :: 0 <= k < |rs| ==> !rs[k].locked
    requires forall k :: 0 <= k < |rs| - 1 ==> rs[k].hasMore
    ensures rs == [] || rs[|rs| - 1].hasMore ==>
      !Session(p, rs, now).executed && Session(p, rs, now).partial == p.partial + BatchTotals(rs).updated
    ensures rs != [] && !rs[|rs| - 1].hasMore ==>
      Session(p, rs, now) == Progress(true, p.partial + BatchTotals(rs).updated, 0, 0, 0)
  {
    if rs != [] {
      var init := rs[..|rs| - 1];
      SessionCount(p, init, now);
    }
  }

  /** As written, a step locked out by a batch in progress ends an
      interrupted migration: it is marked executed, counted with only the
      partial count, and its resume offset is deleted. */
  lemma LockedStepEndsMigration(p: Progress, now: int)
    requires CanResume(p, now)
    ensures var q := CompleteAsWritten(Saved(p, LockedOut, now), LockedOut);
      q.executed && q.count == p.partial && q.offset == 0 && !CanResume(q, now)
  {
  }

  /** A resumable migration 300 subscriptions in, with 250 updated so far,
      hit by a locked-out step: recorded as finished with 250. */
  lemma LockedStepExample()
    ensures var p := Progress(false, 0, 250, 300, 1000);
      CanResume(p, 1100) &&
      CompleteAsWritten(Saved(p, LockedOut, 1100), LockedOut) == Progress(true, 250, 0, 0, 0)
  {
  }

  /** With the locked case kept apart, a locked-out step leaves the
      migration records as they were, so it stays resumable. */
  lemma LockedStepKeepsMigration(p: Progress, now: int)
    ensures Complete(Saved(p, LockedOut, now), LockedOut) == p
    ensures CanResume(p, now) ==> CanResume(Complete(Saved(p, LockedOut, now), LockedOut), now)
  {
  }
}
