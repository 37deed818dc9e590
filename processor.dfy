/** The batch processor: one page of eligible subscriptions is retrofitted from
    tax-inclusive totals to a pre-tax amount plus a tax line, with per-line and
    per-record tolerance checks, a transaction per record, a resume offset, a
    lock and an export buffer. */
module Processor {
  import opened Money
  import opened Wrappers
  import opened Validators
  import opened Config
  import opened Records

  /** Subscriptions fetched per call. */
  const BatchSize: nat := 100

  /** What the store's calculate_totals/save produce for a subscription id and
      its new items: the new total and total tax, or an exception. */
  datatype Recalc = Totals(total: Amount, tax: Amount) | Throws(message: string)

  /** The parameters of one batch after configuration was resolved. */
  datatype Run = Run(
    dryRun: bool,
    rate: Rate,
    tolerance: Dec,
    rateId: nat,
    recalc: (nat, seq<LineItem>) -> Recalc,
    actor: string,
    stamp: string)

  /** wc_tax_retrofit_validate_subscription: a positive total and at least one item. */
  predicate ValidRecord(st: State)
  {
    st.total > 0 && |st.items| > 0
  }

  /** What happens to one subscription. */
  datatype Outcome =
    | Invalid
    | AlreadyMigrated(tax: Amount)
    | LineDrift(key: ItemKey, diff: nat, ttc: Amount, ht: Amount, tax: Amount)
    | Unchanged
    | Previewed(ht: Amount, tax: Amount)
    | TotalOver(newTotal: Amount, diff: nat)
    | Failed(message: string)
    | Committed(newTotal: Amount, newTax: Amount)

  /** The decision for one subscription with stored state st. */
  function Decide(id: nat, st: State, run: Run): Outcome
  {
    if !ValidRecord(st) then Invalid
    else if st.totalTax > UnitsPerCent then AlreadyMigrated(st.totalTax)
    else
      match ScanLines(st.items, run.rate, run.tolerance)
      case LineOver(k, d, ttc, ht, tax) => LineDrift(k, d, ttc, ht, tax)
      case Split(rs, sum) =>
        if rs == [] then Unchanged
        else if run.dryRun then Previewed(PreTax(st.total, run.rate), sum)
        else
          match run.recalc(id, Rebuilt(st.items, rs, run.rateId))
          case Throws(m) => Failed(m)
          case Totals(t, x) =>
            if AtLeast(Abs(t - st.total), run.tolerance) then TotalOver(t, Abs(t - st.total))
            else Committed(t, x)
  }

  /** Invalid records and records already carrying more than 0.01 of tax are
      skipped before their lines are looked at. */
  lemma SkipConditions(id: nat, st: State, run: Run)
    ensures Decide(id, st, run).Invalid? <==> !ValidRecord(st)
    ensures Decide(id, st, run).AlreadyMigrated? <==> ValidRecord(st) && st.totalTax > UnitsPerCent
  {
  }

  /** A record is skipped for a line drift exactly when it is valid, not yet
      migrated, and one of its positive lines drifts by at least the tolerance;
      the reported line is the first such line. */
  lemma LineDriftCondition(id: nat, st: State, run: Run)
    ensures Decide(id, st, run).LineDrift? <==>
      (ValidRecord(st) && st.totalTax <= UnitsPerCent &&
       exists i :: 0 <= i < |st.items| && Overshoots(st.items[i], run.rate, run.tolerance))
    ensures Decide(id, st, run).LineDrift? ==>
      var x := st.items[FirstOvershoot(st.items, run.rate, run.tolerance)];
      Decide(id, st, run).key == x.key && Decide(id, st, run).diff == Drift(x.total, run.rate)
  {
    ScanAbortsIffOvershoot(st.items, run.rate, run.tolerance);
    if Decide(id, st, run).LineDrift? {
      ScanReportsFirstOvershoot(st.items, run.rate, run.tolerance);
    }
  }

  /** A valid untaxed record with no positive line changes no counter. */
  lemma QuietCondition(id: nat, st: State, run: Run)
    ensures Decide(id, st, run).Unchanged? <==>
      (ValidRecord(st) && st.totalTax <= UnitsPerCent &&
       forall i :: 0 <= i < |st.items| ==> st.items[i].total <= 0)
  {
    var s := ScanLines(st.items, run.rate, run.tolerance);
    ScanAbortsIffOvershoot(st.items, run.rate, run.tolerance);
    NoPositiveLine(st.items);
    if s.Split? {
      ScanListsPositiveLines(st.items, run.rate, run.tolerance);
      assert |Positive(st.items)| == |s.recreate|;
    }
  }

  /** A dry run only previews: it never reaches the transaction, and its
      preview takes ht from the record total and the tax from the lines. */
  lemma DryRunOnlyPreviews(id: nat, st: State, run: Run)
    requires run.dryRun
    ensures var o := Decide(id, st, run);
      !o.TotalOver? && !o.Failed? && !o.Committed? &&
      (o.Previewed? ==> o.ht == PreTax(st.total, run.rate) &&
                        o.tax == SumTax(Recreations(Positive(st.items), run.rate)))
  {
    if ScanLines(st.items, run.rate, run.tolerance).Split? {
      ScanListsPositiveLines(st.items, run.rate, run.tolerance);
    }
  }

  /** The stored state after the subscription was processed: only a commit
      changes it, to the new totals, the rebuilt items and one more note. */
  function After(id: nat, st: State, run: Run): State
  {
    match Decide(id, st, run)
    case Committed(t, x) =>
      State(t, x, Rebuilt(st.items, ScanLines(st.items, run.rate, run.tolerance).recreate, run.rateId),
            st.notes + [Note(t, x, run.actor)])
    case _ => st
  }

  /** A committed subscription carries the new totals, keeps its inclusive
      total within the tolerance, gains one note and holds the rebuilt item
      list (Records.RebuiltShape and
      Records.NewLinesOfSplits give its shape). */
  lemma CommittedRecordShape(id: nat, st: State, run: Run)
    requires UniqueKeys(st.items) && Decide(id, st, run).Committed?
    ensures var o := Decide(id, st, run);
      var a := After(id, st, run);
      a.total == o.newTotal && a.totalTax == o.newTax &&
      !AtLeast(Abs(a.total - st.total), run.tolerance) &&
      a.notes == st.notes + [Note(o.newTotal, o.newTax, run.actor)] &&
      a.items == Rebuilt(st.items, ScanLines(st.items, run.rate, run.tolerance).recreate, run.rateId) &&
      ScanLines(st.items, run.rate, run.tolerance).Split?
  {
  }

  /** A dry run never changes a subscription. */
  lemma DryRunNeverMutates(id: nat, st: State, run: Run)
    requires run.dryRun
    ensures After(id, st, run) == st
  {
  }

  /** A subscription whose tax exceeds 0.01 is skipped and left as it is. */
  lemma MigratedRecordsUntouched(id: nat, st: State, run: Run)
    requires ValidRecord(st) && st.totalTax > UnitsPerCent
    ensures Decide(id, st, run) == AlreadyMigrated(st.totalTax)
    ensures After(id, st, run) == st
  {
  }

  /** A store whose new total is the sum of line totals and line taxes, as
      WooCommerce totals a subscription without shipping or fees. */
  function LineSumTotals(id: nat, items: seq<LineItem>): Recalc
  {
    Totals(ItemsTotal(items) + ItemsTax(items), ItemsTax(items))
  }

  /** A record that splits exactly commits: with untaxed whole-cent lines whose
      totals add up to the record total, unique keys, a line-summing store and a
      positive tolerance, a real run commits with the total unchanged and the
      tax the lines' tax parts add up to. */
  lemma WholeCentRecordCommits(id: nat, st: State, run: Run)
    requires !run.dryRun && run.tolerance.mantissa > 0
    requires run.recalc == LineSumTotals
    requires ValidRecord(st) && st.totalTax <= UnitsPerCent && UniqueKeys(st.items)
    requires forall i :: 0 <= i < |st.items| ==> st.items[i].taxes == [] && st.items[i].total % UnitsPerCent == 0
    requires st.total == ItemsTotal(st.items)
    requires exists i :: 0 <= i < |st.items| && st.items[i].total > 0
    ensures Decide(id, st, run) == Committed(st.total, SumTax(Recreations(Positive(st.items), run.rate)))
  {
    var items := st.items;
    WholeCentLinesNeverOvershoot(items, run.rate, run.tolerance);
    var rs := ScanLines(items, run.rate, run.tolerance).recreate;
    RebuiltSums(items, run.rate, run.tolerance, run.rateId);
    RebuiltShape(items, run.rate, run.tolerance, run.rateId);
    NoPositiveLine(items);
    ZeroBelowPositive(run.tolerance);
  }

  /** Re-running over a committed subscription whose new tax exceeds 0.01
      does nothing: it is skipped as already migrated. */
  lemma SecondRunSkips(id: nat, st: State, run: Run, again: Run)
    requires Decide(id, st, run).Committed? && Decide(id, st, run).newTax > UnitsPerCent
    requires Decide(id, st, run).newTotal > 0
    ensures Decide(id, After(id, st, run), again).AlreadyMigrated?
    ensures After(id, After(id, st, run), again) == After(id, st, run)
  {
    var rs := ScanLines(st.items, run.rate, run.tolerance).recreate;
    assert |NewLines(rs, run.rateId)| > 0;
  }

  /// The tally of a page

  datatype Detail =
    | IgnoredInvalid(id: nat)
    | IgnoredMigrated(id: nat, status: string, tax: Amount)
    | IgnoredLine(id: nat, key: ItemKey, diff: nat)
    | IgnoredTotal(id: nat, diff: nat)
    | Preview(id: nat, status: string, total: Amount, ht: Amount, tax: Amount)
    | Updated(id: nat, status: string, total: Amount, tax: Amount)

  datatype Warning =
    | LineWarning(key: ItemKey, id: nat, diff: nat, tolerance: Dec, ttc: Amount, ht: Amount, tax: Amount)
    | TotalWarning(id: nat, diff: nat, tolerance: Dec, before: Amount, after: Amount)

  datatype Failure = DependenciesMissing | RateNotFound | TransactionFailed(id: nat, message: string)

  /** One row of csv_data. */
  datatype ExportRow = ExportRow(
    subscriptionId: nat,
    status: string,
    customerId: nat,
    email: string,
    originalTotal: Amount,
    newHt: Amount,
    newTax: Amount,
    newTtc: Amount,
    date: string)

  /** The counters and lists of $stats. */
  datatype Tally = Tally(
    updated: nat,
    skipped: nat,
    errors: nat,
    details: seq<Detail>,
    errorsList: seq<Failure>,
    warnings: seq<Warning>,
    csv: seq<ExportRow>)

  const NoTally: Tally := Tally(0, 0, 0, [], [], [], [])

  /** A subscription as it was read: identity and stored state. */
  datatype Snapshot = Snapshot(id: nat, status: string, customerId: nat, email: string, state: State)

  /** A subscription as it was read, with what happened to it. */
  datatype Processed = Processed(snap: Snapshot, outcome: Outcome)

  /** Two tallies added up: counters summed, lists concatenated. */
  function Join(a: Tally, b: Tally): Tally
  {
    Tally(a.updated + b.updated, a.skipped + b.skipped, a.errors + b.errors,
          a.details + b.details, a.errorsList + b.errorsList, a.warnings + b.warnings, a.csv + b.csv)
  }

  /** What one subscription adds to $stats. */
  function Effect(p: Processed, run: Run): Tally
  {
    var s := p.snap;
    match p.outcome
    case Invalid => Tally(0, 1, 0, [IgnoredInvalid(s.id)], [], [], [])
    case AlreadyMigrated(x) => Tally(0, 1, 0, [IgnoredMigrated(s.id, s.status, x)], [], [], [])
    case LineDrift(k, d, ttc, ht, tax) =>
      Tally(0, 1, 0, [IgnoredLine(s.id, k, d)], [], [LineWarning(k, s.id, d, run.tolerance, ttc, ht, tax)], [])
    case Unchanged => NoTally
    case Previewed(ht, x) =>
      Tally(1, 0, 0, [Preview(s.id, s.status, s.state.total, ht, x)], [], [],
            [ExportRow(s.id, s.status, s.customerId, s.email, s.state.total, ht, x, s.state.total, run.stamp)])
    case TotalOver(nt, d) =>
      Tally(0, 1, 0, [IgnoredTotal(s.id, d)], [], [TotalWarning(s.id, d, run.tolerance, s.state.total, nt)], [])
    case Failed(m) => Tally(0, 0, 1, [], [TransactionFailed(s.id, m)], [], [])
    case Committed(nt, nx) =>
      Tally(1, 0, 0, [Updated(s.id, s.status, nt, nx)], [], [],
            [ExportRow(s.id, s.status, s.customerId, s.email, s.state.total, nt - nx, nx, nt, run.stamp)])
  }

  /** The $stats of a sequence of processed subscriptions. */
  function TallyOf(ps: seq<Processed>, run: Run): Tally
  {
    if ps == [] then NoTally else Join(TallyOf(ps[..|ps| - 1], run), Effect(ps[|ps| - 1], run))
  }

  /** The subscriptions that change no counter (valid, untaxed, no positive line). */
  function Quiet(ps: seq<Processed>): nat
  {
    if ps == [] then 0 else Quiet(ps[..|ps| - 1]) + (if ps[|ps| - 1].outcome.Unchanged? then 1 else 0)
  }

  /** The subscriptions skipped for a line or total overshoot. */
  function Overshooting(ps: seq<Processed>): nat
  {
    if ps == [] then 0
    else
      var o := ps[|ps| - 1].outcome;
      Overshooting(ps[..|ps| - 1]) + (if o.LineDrift? || o.TotalOver? then 1 else 0)
  }

  /** Every subscription increments at most one counter: updated, skipped and
      errors together count the page minus the quiet ones. Every updated one has
      an export row and a detail, every skipped one a detail, every error a
      message, every overshoot exactly one warning. */
  lemma {:induction false} TallyCounts(ps: seq<Processed>, run: Run)
    ensures var t := TallyOf(ps, run);
      t.updated + t.skipped + t.errors + Quiet(ps) == |ps| &&
      |t.csv| == t.updated && |t.details| == t.updated + t.skipped &&
      |t.errorsList| == t.errors && |t.warnings| == Overshooting(ps) <= t.skipped
  {
    if ps != [] {
      TallyCounts(ps[..|ps| - 1], run);
    }
  }

  lemma JoinAssociative(a: Tally, b: Tally, c: Tally)
    ensures Join(Join(a, b), c) == Join(a, Join(b, c))
  {
    assert (a.details + b.details) + c.details == a.details + (b.details + c.details);
    assert (a.errorsList + b.errorsList) + c.errorsList == a.errorsList + (b.errorsList + c.errorsList);
    assert (a.warnings + b.warnings) + c.warnings == a.warnings + (b.warnings + c.warnings);
    assert (a.csv + b.csv) + c.csv == a.csv + (b.csv + c.csv);
  }

  lemma JoinNothing(t: Tally)
    ensures Join(t, NoTally) == t
  {
    assert t.details + [] == t.details && t.errorsList + [] == t.errorsList;
    assert t.warnings + [] == t.warnings && t.csv + [] == t.csv;
  }

  /** The tally of consecutive pages is the join of their tallies. */
  lemma {:induction false} TallyAppend(a: seq<Processed>, b: seq<Processed>, run: Run)
    ensures TallyOf(a + b, run) == Join(TallyOf(a, run), TallyOf(b, run))
    decreases |b|
  {
    if b == [] {
      assert a + b == a;
      JoinNothing(TallyOf(a, run));
    } else {
      var b', p := b[..|b| - 1], b[|b| - 1];
      assert (a + b)[..|a + b| - 1] == a + b';
      assert (a + b)[|a + b| - 1] == p;
      TallyAppend(a, b', run);
      JoinAssociative(TallyOf(a, run), TallyOf(b', run), Effect(p, run));
    }
  }

  /** A committed subscription's export row adds up, ht + tax == the new total;
      a previewed one keeps the original total as its inclusive total. */
  lemma ExportRows(p: Processed, run: Run)
    ensures p.outcome.Committed? ==>
      |Effect(p, run).csv| == 1 && Effect(p, run).csv[0].newHt + Effect(p, run).csv[0].newTax == p.outcome.newTotal &&
      Effect(p, run).csv[0].newTtc == p.outcome.newTotal
    ensures p.outcome.Previewed? ==>
      |Effect(p, run).csv| == 1 && Effect(p, run).csv[0].newTtc == p.snap.state.total &&
      Effect(p, run).csv[0].newHt == p.outcome.ht
  {
  }

  /** The dry-run row takes ht from the record total rather than from the
      lines, so it need not add up: two 10.00 lines at 20 % preview
      16.67 + 3.34 for a total of 20.00, while the lines split into 8.33 + 1.67 each. */
  lemma DryRunRowMayNotAddUp()
    ensures var l := LineItem(Saved(1), 5, 0, 1, "A", 100000, 100000, [], []);
      var m := l.(key := Saved(2));
      var st := State(200000, 0, [l, m], []);
      var run := Run(true, 200000, Dec(1, 2), 3, LineSumTotals, "WP-CLI", "");
      Decide(7, st, run) == Previewed(166700, 33400) && 166700 + 33400 != st.total
  {
    var l := LineItem(Saved(1), 5, 0, 1, "A", 100000, 100000, [], []);
    var m := l.(key := Saved(2));
    var tol := Dec(1, 2);
    ExampleTenAtTwenty();
    assert Drift(100000, 200000) == 0;
    ZeroBelowPositive(tol);
    assert [l, m][..1] == [l] && [l][..0] == [];
    assert ScanLines([l], 200000, tol) == Split([RecreateOf(l, 200000)], 16700);
    assert ScanLines([l, m], 200000, tol) == Split([RecreateOf(l, 200000), RecreateOf(m, 200000)], 33400);
    assert PreTax(200000, 200000) == 166700;
  }

  /// The store

  /** ORDER BY ID ASC: the store lists subscriptions by strictly ascending id. */
  predicate AscendingIds(rs: seq<Subscription>)
  {
    forall i, j :: 0 <= i < j < |rs| ==> rs[i].id < rs[j].id
  }

  /** 'date_created' => '<=' limit, on Y-m-d strings (lexicographic order). */
  predicate LexLeq(a: string, b: string)
    decreases |a|
  {
    a == [] || (b != [] && (a[0] < b[0] || (a[0] == b[0] && LexLeq(a[1..], b[1..]))))
  }

  /** The query's filter: a configured status and a creation date up to the limit. */
  predicate Selected(r: Subscription, cfg: Settings)
  {
    Str(r.status) in cfg.statuses && LexLeq(r.created, cfg.dateLimit)
  }

  /** All subscriptions the query selects, in id order. */
  function Eligible(rs: seq<Subscription>, cfg: Settings): (e: seq<Subscription>)
    ensures forall i :: 0 <= i < |e| ==> e[i] in rs && Selected(e[i], cfg)
    ensures forall i :: 0 <= i < |rs| && Selected(rs[i], cfg) ==> rs[i] in e
  {
    if rs == [] then []
    else
      var p, x := rs[..|rs| - 1], rs[|rs| - 1];
      var e := Eligible(p, cfg);
      assert forall i :: 0 <= i < |p| ==> rs[i] == p[i];
      if Selected(x, cfg) then e + [x] else e
  }

  /** The selection keeps the id order. */
  lemma {:induction false} EligibleAscending(rs: seq<Subscription>, cfg: Settings)
    requires AscendingIds(rs)
    ensures AscendingIds(Eligible(rs, cfg))
  {
    if rs != [] {
      var p, x := rs[..|rs| - 1], rs[|rs| - 1];
      EligibleAscending(p, cfg);
      var e := Eligible(p, cfg);
      forall j | 0 <= j < |e| ensures e[j].id < x.id {
        var k :| 0 <= k < |p| && p[k] == e[j];
        assert rs[k] == e[j];
      }
    }
  }

  function Min(a: int, b: int): int { if a <= b then a else b }

  /** LIMIT 100 OFFSET off over the eligible subscriptions. */
  function PageAt(e: seq<Subscription>, off: nat): (page: seq<Subscription>)
    ensures |page| <= BatchSize
    ensures |page| == BatchSize <==> off + BatchSize <= |e|
    ensures forall i :: 0 <= i < |page| ==> page[i] in e
    ensures AscendingIds(e) ==> AscendingIds(page)
  {
    e[Min(off, |e|)..Min(off + BatchSize, |e|)]
  }

  /** The offset a batch starts from: a real run called with offset 0 resumes
      from the saved offset when one is stored. */
  function Resumed(dryRun: bool, offset: nat, saved: nat): nat
  {
    if !dryRun && offset == 0 && saved > 0 then saved else offset
  }

  function SnapOf(r: Subscription): Snapshot
    reads r
  {
    Snapshot(r.id, r.status, r.customerId, r.email, r.Current())
  }

  /** The run parameters of a batch with resolved settings and a located rate id. */
  function RunFor(cfg: Settings, rateId: nat, dryRun: bool, recalc: (nat, seq<LineItem>) -> Recalc,
                  actor: string, stamp: string): Run
  {
    Run(dryRun, cfg.rate, cfg.tolerance, rateId, recalc, actor, stamp)
  }

  /** The array wc_tax_retrofit_process returns. */
  datatype BatchResult = BatchResult(
    locked: bool,
    total: Option<nat>,
    batchSize: nat,
    offset: nat,
    tally: Tally,
    hasMore: bool)

  const MissingDependencies: BatchResult :=
    BatchResult(false, Some(0), 0, 0, Tally(0, 0, 1, [], [DependenciesMissing], [], []), false)
  const LockedOut: BatchResult := BatchResult(true, Some(0), 0, 0, NoTally, false)
  const MissingRate: BatchResult :=
    BatchResult(false, Some(0), 0, 0, Tally(0, 0, 1, [], [RateNotFound], [], []), false)

  /** The item loop: splits the positive lines and stops at the first one that overshoots. */
  method ScanItems(items: seq<LineItem>, rate: Rate, tol: Dec) returns (s: Scan)
    ensures s == ScanLines(items, rate, tol)
  {
    var rec: seq<Recreate> := [];
    var sum: Amount := 0;
    var i := 0;
    while i < |items|
      invariant 0 <= i <= |items|
      invariant ScanLines(items[..i], rate, tol) == Split(rec, sum)
    {
      var x := items[i];
      assert items[..i + 1][..i] == items[..i];
      if x.total > 0 {
        var ht := PreTax(x.total, rate);
        var tax := TaxPart(x.total, ht);
        var diff := Abs(ht + tax - x.total);
        if AtLeast(diff, tol) {
          s := LineOver(x.key, diff, x.total, ht, tax);
          OvershootPersists(items, i + 1, rate, tol);
          return;
        }
        sum := sum + tax;
        rec := rec + [Recreate(x.key, x.productId, x.variationId, x.quantity, x.name, ht, tax, x.total, x.meta)];
      }
      i := i + 1;
    }
    assert items[..i] == items;
    s := Split(rec, sum);
  }

  lemma WithoutNothing(items: seq<LineItem>)
    ensures Without(items, {}) == items
  {
    if items != [] {
      WithoutNothing(items[..|items| - 1]);
      assert items == items[..|items| - 1] + [items[|items| - 1]];
    }
  }

  /** Inside the transaction, first: remove every line that is recreated. */
  method RemoveLines(sub: Subscription, rs: seq<Recreate>)
    modifies sub
    ensures sub.Current() == old(sub.Current()).(items := Without(old(sub.items), OldKeys(rs)))
  {
    ghost var st := sub.Current();
    WithoutNothing(st.items);
    var k := 0;
    while k < |rs|
      invariant 0 <= k <= |rs|
      invariant sub.Current() == st.(items := Without(st.items, OldKeys(rs[..k])))
    {
      assert rs[..k + 1][..k] == rs[..k];
      WithoutTwice(st.items, OldKeys(rs[..k]), rs[k].oldKey);
      sub.RemoveItem(rs[k].oldKey);
      k := k + 1;
    }
    assert rs[..k] == rs;
  }

  /** Inside the transaction, then: add one new line per recreated line. */
  method AddLines(sub: Subscription, rs: seq<Recreate>, rateId: nat)
    modifies sub
    ensures sub.Current() == old(sub.Current()).(items := old(sub.items) + NewLines(rs, rateId))
  {
    ghost var st := sub.Current();
    var k := 0;
    assert st.items + NewLines(rs[..0], rateId) == st.items;
    while k < |rs|
      invariant 0 <= k <= |rs|
      invariant sub.Current() == st.(items := st.items + NewLines(rs[..k], rateId))
    {
      assert rs[..k + 1][..k] == rs[..k];
      sub.AddItem(NewLine(rs[k], k, rateId));
      k := k + 1;
    }
    assert rs[..k] == rs;
  }

  /** One subscription: the checks, then in a real run the transaction that
      replaces its lines, recomputes its totals and commits or rolls back. */
  method ProcessRecord(sub: Subscription, run: Run) returns (o: Outcome)
    modifies sub
    ensures o == Decide(sub.id, old(sub.Current()), run)
    ensures sub.Current() == After(sub.id, old(sub.Current()), run)
  {
    var st := sub.Current();
    if !(sub.total > 0 && |sub.items| > 0) {
      return Invalid;
    }
    if sub.totalTax > UnitsPerCent {
      return AlreadyMigrated(sub.totalTax);
    }
    var scan := ScanItems(sub.items, run.rate, run.tolerance);
    if scan.LineOver? {
      return LineDrift(scan.key, scan.diff, scan.ttc, scan.ht, scan.tax);
    }
    var rs := scan.recreate;
    if rs == [] {
      return Unchanged;
    }
    if run.dryRun {
      return Previewed(PreTax(sub.total, run.rate), scan.taxSum);
    }
    // START TRANSACTION: st is the state a rollback returns to.
    RemoveLines(sub, rs);
    AddLines(sub, rs, run.rateId);
    var r := run.recalc(sub.id, sub.items);
    match r
    case Throws(m) =>
      sub.Restore(st);
      o := Failed(m);
    case Totals(t, x) =>
      sub.SetTotals(t, x);
      var diff := Abs(t - st.total);
      if AtLeast(diff, run.tolerance) {
        sub.Restore(st);
        o := TotalOver(t, diff);
      } else {
        // COMMIT, then the audit note.
        sub.AddNote(Note(t, x, run.actor));
        o := Committed(t, x);
      }
  }

  /** Each subscription of the page was decided on as it was read and now
      holds the state that decision leaves. */
  predicate Handled(page: seq<Subscription>, ps: seq<Processed>, run: Run)
    reads page
  {
    |ps| == |page| &&
    forall i :: 0 <= i < |page| ==>
      ps[i].outcome == Decide(ps[i].snap.id, ps[i].snap.state, run) &&
      page[i].Current() == After(ps[i].snap.id, ps[i].snap.state, run)
  }

  /** The foreach over the page: each subscription is processed in turn and
      listed as it was read, with its decision. */
  method ProcessPage(page: seq<Subscription>, run: Run) returns (ps: seq<Processed>)
    requires AscendingIds(page)
    modifies page
    ensures |ps| == |page|
    ensures forall i :: 0 <= i < |page| ==> ps[i].snap == old(SnapOf(page[i]))
    ensures Handled(page, ps, run)
    ensures run.dryRun ==> forall i :: 0 <= i < |page| ==> page[i].Current() == old(page[i].Current())
  {
    assert forall j, k :: 0 <= j < k < |page| ==> page[j] != page[k];
    ps := [];
    var i := 0;
    while i < |page|
      invariant 0 <= i <= |page| && |ps| == i
      invariant forall j :: 0 <= j < i ==>
        ps[j].snap == old(SnapOf(page[j])) && ps[j].outcome == Decide(ps[j].snap.id, ps[j].snap.state, run) &&
        page[j].Current() == After(ps[j].snap.id, ps[j].snap.state, run)
      invariant forall j :: i <= j < |page| ==> page[j].Current() == old(page[j].Current())
    {
      var snap := SnapOf(page[i]);
      var o := ProcessRecord(page[i], run);
      if run.dryRun {
        DryRunNeverMutates(snap.id, snap.state, run);
      }
      ps := ps + [Processed(snap, o)];
      i := i + 1;
    }
  }

  /** The $stats updates of the foreach, in page order: each subscription's
      counters and list entries are added to those before it. */
  method AddUpStats(ps: seq<Processed>, run: Run) returns (t: Tally)
    ensures t == TallyOf(ps, run)
  {
    t := NoTally;
    var i := 0;
    while i < |ps|
      invariant 0 <= i <= |ps|
      invariant t == TallyOf(ps[..i], run)
    {
      assert ps[..i + 1][..i] == ps[..i];
      t := Join(t, Effect(ps[i], run));
      i := i + 1;
    }
    assert ps[..i] == ps;
  }

  /** The subscriptions of rs outside page hold the state they held before. */
  twostate predicate KeptOutside(rs: seq<Subscription>, page: seq<Subscription>)
    reads rs
  {
    forall r :: r in rs && r !in page ==> r.Current() == old(r.Current())
  }

  /** Every subscription of rs holds the state it held before. */
  twostate predicate KeptAll(rs: seq<Subscription>)
    reads rs
  {
    forall r :: r in rs ==> r.Current() == old(r.Current())
  }

  /** The record store together with the plugin's persisted options. */
  class Store {
    const records: seq<Subscription>
    /** The wc_tax_retrofit_running transient. */
    var lock: bool
    /** wc_tax_retrofit_current_offset; 0 when the option is absent. */
    var savedOffset: nat
    /** wc_tax_retrofit_last_activity. */
    var lastActivity: int
    /** The current user's CSV transient. */
    var exportBuffer: seq<ExportRow>
    /** wc_tax_retrofit_executed, _count and _partial_count. */
    var executed: bool
    var migratedCount: nat
    var partialCount: nat

    constructor (records: seq<Subscription>)
      requires AscendingIds(records)
      ensures this.records == records
      ensures !lock && savedOffset == 0 && lastActivity == 0 && exportBuffer == []
      ensures !executed && migratedCount == 0 && partialCount == 0
    {
      this.records := records;
      lock, savedOffset, lastActivity, exportBuffer := false, 0, 0, [];
      executed, migratedCount, partialCount := false, 0, 0;
    }

    /** The query and the foreach: the page at offset eff of the subscriptions
        cfg selects, processed one by one. */
    method ProcessSelected(cfg: Settings, eff: nat, run: Run)
      returns (page: seq<Subscription>, processed: seq<Processed>, t: Tally)
      requires AscendingIds(records)
      modifies records
      ensures page == PageAt(Eligible(records, cfg), eff)
      ensures t == TallyOf(processed, run)
      ensures |processed| == |page|
      ensures forall i :: 0 <= i < |page| ==> processed[i].snap == old(SnapOf(page[i]))
      ensures Handled(page, processed, run)
      ensures KeptOutside(records, page)
      ensures run.dryRun ==> KeptAll(records)
    {
      var all := Eligible(records, cfg);
      EligibleAscending(records, cfg);
      page := PageAt(all, eff);
      processed := ProcessPage(page, run);
      t := AddUpStats(processed, run);
    }

    /** The part of wc_tax_retrofit_process that runs under the lock: the page,
        the resume offset of a real run with more to do, the lock's release
        and the export rows. */
    method RunBatch(cfg: Settings, eff: nat, run: Run, now: int)
      returns (res: BatchResult, ghost page: seq<Subscription>, ghost processed: seq<Processed>)
      requires AscendingIds(records)
      modifies this, records
      ensures executed == old(executed) && migratedCount == old(migratedCount) && partialCount == old(partialCount)
      ensures page == PageAt(Eligible(records, cfg), eff)
      ensures |processed| == |page|
      ensures forall i :: 0 <= i < |page| ==> processed[i].snap == old(SnapOf(page[i]))
      ensures Handled(page, processed, run)
      ensures KeptOutside(records, page)
      ensures run.dryRun ==> KeptAll(records)
      ensures var more := |page| == BatchSize;
        res == BatchResult(false, if eff == 0 then Some(|Eligible(records, cfg)|) else None, |page|, eff,
                           TallyOf(processed, run), more) &&
        !lock &&
        savedOffset == (if !run.dryRun && more then eff + |page| else old(savedOffset)) &&
        lastActivity == (if !run.dryRun && more then now else old(lastActivity)) &&
        exportBuffer == old(exportBuffer) + res.tally.csv
    {
      lock := true;
      var pg, ps, t := ProcessSelected(cfg, eff, run);
      page, processed := pg, ps;
      var total: Option<nat> := if eff == 0 then Some(|Eligible(records, cfg)|) else None;
      var more := |pg| == BatchSize;
      Finish(!run.dryRun && more, eff + |pg|, now, t.csv);
      res := BatchResult(false, total, |pg|, eff, t, more);
    }

    /** After the page: a real run with more to do saves the next offset and
        the activity time; the lock is deleted; the export rows are appended. */
    method Finish(saveOffset: bool, next: nat, now: int, rows: seq<ExportRow>)
      modifies this
      ensures executed == old(executed) && migratedCount == old(migratedCount) && partialCount == old(partialCount)
      ensures !lock && exportBuffer == old(exportBuffer) + rows
      ensures savedOffset == (if saveOffset then next else old(savedOffset))
      ensures lastActivity == (if saveOffset then now else old(lastActivity))
    {
      if saveOffset {
        savedOffset := next;
        lastActivity := now;
      }
      lock := false;
      if rows != [] {
        exportBuffer := exportBuffer + rows;
      }
    }

    /** wc_tax_retrofit_process(dry_run, offset) with the resolved settings cfg;
        depsOk is the dependency check, recalc the store's totals, now the
        clock and stamp the date written into export rows. The ghost results
        are the page and its subscriptions as they were read, each with its
        decision. */
    method Process(dryRun: bool, offset: nat, cfg: Settings, depsOk: bool,
                   recalc: (nat, seq<LineItem>) -> Recalc, actor: string, now: int, stamp: string)
      returns (res: BatchResult, ghost page: seq<Subscription>, ghost processed: seq<Processed>)
      requires AscendingIds(records)
      modifies this, records
      ensures executed == old(executed) && migratedCount == old(migratedCount) && partialCount == old(partialCount)
      ensures !depsOk || old(lock) || cfg.rateId.None? ==>
        page == [] && processed == [] && lastActivity == old(lastActivity) && savedOffset == old(savedOffset) &&
        exportBuffer == old(exportBuffer) && KeptAll(records)
      ensures dryRun ==> KeptAll(records)
      ensures !depsOk ==> res == MissingDependencies && lock == old(lock)
      ensures depsOk && old(lock) ==> res == LockedOut && lock
      ensures depsOk && !old(lock) && cfg.rateId.None? ==> res == MissingRate && !lock
      ensures depsOk && !old(lock) && cfg.rateId.Some? ==>
        var eff := Resumed(dryRun, offset, old(savedOffset));
        var run := RunFor(cfg, cfg.rateId.value, dryRun, recalc, actor, stamp);
        var more := |page| == BatchSize;
        page == PageAt(Eligible(records, cfg), eff) &&
        res == BatchResult(false, if eff == 0 then Some(|Eligible(records, cfg)|) else None, |page|, eff,
                           TallyOf(processed, run), more) &&
        |processed| == |page| &&
        (forall i :: 0 <= i < |page| ==> processed[i].snap == old(SnapOf(page[i]))) &&
        Handled(page, processed, run) &&
        KeptOutside(records, page) &&
        !lock &&
        savedOffset == (if !dryRun && more then eff + |page| else old(savedOffset)) &&
        lastActivity == (if !dryRun && more then now else old(lastActivity)) &&
        exportBuffer == old(exportBuffer) + res.tally.csv
    {
      page, processed := [], [];
      if !depsOk {
        return MissingDependencies, [], [];
      }
      var eff := offset;
      if !dryRun && offset == 0 && savedOffset > 0 {
        eff := savedOffset;
      }
      if lock {
        return LockedOut, [], [];
      }
      // The lock is taken before the rate lookup and released when it finds
      // nothing; the lookup changes nothing, so the lock is taken only once
      // the rate is known.
      if cfg.rateId.None? {
        return MissingRate, [], [];
      }
      var run := RunFor(cfg, cfg.rateId.value, dryRun, recalc, actor, stamp);
      res, page, processed := RunBatch(cfg, eff, run, now);
    }
  }
}
