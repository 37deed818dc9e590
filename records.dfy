/** Subscriptions and their line items, the per-line split of inclusive
    totals, and the rebuilt item list a real run writes back. */
module Records {
  import opened Money

  /** An item's key in the subscription's item array: a stored id, or the
      placeholder WooCommerce gives an item added since the last load. */
  datatype ItemKey = Saved(id: nat) | Pending(index: nat)

  /** Item metadata, copied as key/value pairs. */
  datatype Meta = Meta(key: string, value: string)

  /** One entry of an item's tax array: rate id => amount. */
  datatype TaxEntry = TaxEntry(rateId: nat, amount: Amount)

  datatype LineItem = LineItem(
    key: ItemKey,
    productId: nat,
    variationId: nat,
    quantity: int,
    name: string,
    subtotal: Amount,
    total: Amount,
    taxes: seq<TaxEntry>,
    meta: seq<Meta>)

  /** The audit note added to a committed subscription. */
  datatype Note = Note(total: Amount, tax: Amount, actor: string)

  /** The mutable part of a subscription, as a value. */
  datatype State = State(total: Amount, totalTax: Amount, items: seq<LineItem>, notes: seq<Note>)

  /** A subscription of the record store. Identity, status, creation date and
      customer never change; totals, items and notes are updated in place. */
  class Subscription {
    const id: nat
    const status: string
    const created: string
    const customerId: nat
    const email: string
    var total: Amount
    var totalTax: Amount
    var items: seq<LineItem>
    var notes: seq<Note>

    function Current(): State
      reads this
    {
      State(total, totalTax, items, notes)
    }

    constructor (id: nat, status: string, created: string, customerId: nat, email: string, s: State)
      ensures this.id == id && this.status == status && this.created == created
      ensures this.customerId == customerId && this.email == email
      ensures Current() == s
    {
      this.id, this.status, this.created, this.customerId, this.email := id, status, created, customerId, email;
      total, totalTax, items, notes := s.total, s.totalTax, s.items, s.notes;
    }

    /** remove_item: drops the item stored under the key. */
    method RemoveItem(k: ItemKey)
      modifies this
      ensures Current() == old(Current()).(items := Without(old(items), {k}))
    {
      items := Without(items, {k});
    }

    /** add_item: appends an item. */
    method AddItem(x: LineItem)
      modifies this
      ensures Current() == old(Current()).(items := old(items) + [x])
    {
      items := items + [x];
    }

    /** calculate_totals and save: stores the totals the store computed. */
    method SetTotals(t: Amount, x: Amount)
      modifies this
      ensures Current() == old(Current()).(total := t, totalTax := x)
    {
      total, totalTax := t, x;
    }

    /** add_order_note. */
    method AddNote(n: Note)
      modifies this
      ensures Current() == old(Current()).(notes := old(notes) + [n])
    {
      notes := notes + [n];
    }

    /** ROLLBACK: the transaction's snapshot becomes the stored state again. */
    method Restore(s: State)
      modifies this
      ensures Current() == s
    {
      total, totalTax, items, notes := s.total, s.totalTax, s.items, s.notes;
    }
  }

  /** The items whose key is not in ks, in order. */
  function Without(items: seq<LineItem>, ks: set<ItemKey>): (r: seq<LineItem>)
    ensures |r| <= |items|
  {
    if items == [] then []
    else
      var x := items[|items| - 1];
      assert items == items[..|items| - 1] + [x];
      Without(items[..|items| - 1], ks) + (if x.key in ks then [] else [x])
  }

  /** Removing keys one at a time is removing them all at once. */
  lemma {:induction false} WithoutTwice(items: seq<LineItem>, ks: set<ItemKey>, k: ItemKey)
    ensures Without(Without(items, ks), {k}) == Without(items, ks + {k})
  {
    if items != [] {
      var p, x := items[..|items| - 1], items[|items| - 1];
      WithoutTwice(p, ks, k);
      var w := Without(p, ks);
      if x.key in ks {
        assert Without(items, ks) == w;
      } else {
        assert Without(items, ks) == w + [x];
        assert (w + [x])[..|w + [x]| - 1] == w;
      }
    }
  }

  lemma {:induction false} WithoutMembers(items: seq<LineItem>, ks: set<ItemKey>)
    ensures forall x :: x in Without(items, ks) <==> x in items && x.key !in ks
  {
    if items != [] {
      WithoutMembers(items[..|items| - 1], ks);
      assert items == items[..|items| - 1] + [items[|items| - 1]];
    }
  }

  predicate UniqueKeys(items: seq<LineItem>)
  {
    forall i, j :: 0 <= i < j < |items| ==> items[i].key != items[j].key
  }

  /** The lines with a positive inclusive total, in order (the only ones recreated). */
  function Positive(items: seq<LineItem>): (r: seq<LineItem>)
  {
    if items == [] then []
    else
      var x := items[|items| - 1];
      assert items == items[..|items| - 1] + [x];
      Positive(items[..|items| - 1]) + (if x.total > 0 then [x] else [])
  }

  /** The lines with total <= 0, which the run leaves on the subscription untouched. */
  function NonPositive(items: seq<LineItem>): (r: seq<LineItem>)
  {
    if items == [] then []
    else
      var x := items[|items| - 1];
      assert items == items[..|items| - 1] + [x];
      NonPositive(items[..|items| - 1]) + (if x.total > 0 then [] else [x])
  }

  lemma {:induction false} PositiveMembers(items: seq<LineItem>)
    ensures forall x :: x in Positive(items) <==> x in items && x.total > 0
    ensures forall x :: x in NonPositive(items) <==> x in items && x.total <= 0
  {
    if items != [] {
      PositiveMembers(items[..|items| - 1]);
      assert items == items[..|items| - 1] + [items[|items| - 1]];
    }
  }

  /** No line is positive exactly when the positive filter is empty. */
  lemma {:induction false} NoPositiveLine(items: seq<LineItem>)
    ensures Positive(items) == [] <==> forall i :: 0 <= i < |items| ==> items[i].total <= 0
  {
    if items != [] {
      var p := items[..|items| - 1];
      NoPositiveLine(p);
      assert forall i :: 0 <= i < |p| ==> p[i] == items[i];
    }
  }

  /** Every positive line of whole-cent lines is a whole-cent line. */
  lemma {:induction false} PositiveWholeCents(items: seq<LineItem>)
    requires forall i :: 0 <= i < |items| ==> items[i].total % UnitsPerCent == 0
    ensures forall j :: 0 <= j < |Positive(items)| ==> Positive(items)[j].total % UnitsPerCent == 0
  {
    if items != [] {
      var p := items[..|items| - 1];
      assert forall i :: 0 <= i < |p| ==> p[i] == items[i];
      PositiveWholeCents(p);
    }
  }

  /** The keys of a list of items. */
  function KeySet(items: seq<LineItem>): (ks: set<ItemKey>)
    ensures forall x :: x in items ==> x.key in ks
    ensures forall k :: k in ks ==> exists i :: 0 <= i < |items| && items[i].key == k
  {
    if items == [] then {}
    else
      var ks := KeySet(items[..|items| - 1]) + {items[|items| - 1].key};
      assert items == items[..|items| - 1] + [items[|items| - 1]];
      ks
  }

  /** With unique keys, removing the keys of the positive lines keeps exactly the others. */
  lemma RemovingPositiveKeysKeepsTheRest(items: seq<LineItem>)
    requires UniqueKeys(items)
    ensures Without(items, KeySet(Positive(items))) == NonPositive(items)
  {
    var ks := KeySet(Positive(items));
    PositiveMembers(items);
    assert forall y :: y in items && y.total <= 0 ==> y.key !in ks;
    WithoutPartition(items, ks);
  }

  lemma {:induction false} WithoutPartition(items: seq<LineItem>, ks: set<ItemKey>)
    requires forall x :: x in items && x.total > 0 ==> x.key in ks
    requires forall x :: x in items && x.total <= 0 ==> x.key !in ks
    ensures Without(items, ks) == NonPositive(items)
  {
    if items != [] {
      var p := items[..|items| - 1];
      assert forall x :: x in p ==> x in items;
      WithoutPartition(p, ks);
    }
  }

  /// The split of one line

  /** One entry of $items_to_recreate: the old line's identity and the new amounts. */
  datatype Recreate = Recreate(
    oldKey: ItemKey,
    productId: nat,
    variationId: nat,
    quantity: int,
    name: string,
    ht: Amount,
    tax: Amount,
    ttc: Amount,
    meta: seq<Meta>)

  /** A positive line split into ht = round2(ttc / (1 + rate)) and tax = round2(ttc - ht). */
  function RecreateOf(x: LineItem, rate: Rate): (r: Recreate)
    ensures r.ttc == x.total && r.oldKey == x.key
    ensures r.ht == PreTax(x.total, rate) && r.tax == TaxPart(x.total, r.ht)
  {
    var ht := PreTax(x.total, rate);
    Recreate(x.key, x.productId, x.variationId, x.quantity, x.name, ht, TaxPart(x.total, ht), x.total, x.meta)
  }

  function Recreations(xs: seq<LineItem>, rate: Rate): (r: seq<Recreate>)
    ensures |r| == |xs|
    ensures forall i :: 0 <= i < |xs| ==> r[i] == RecreateOf(xs[i], rate)
  {
    if xs == [] then [] else Recreations(xs[..|xs| - 1], rate) + [RecreateOf(xs[|xs| - 1], rate)]
  }

  function SumTax(rs: seq<Recreate>): Amount
  {
    if rs == [] then 0 else SumTax(rs[..|rs| - 1]) + rs[|rs| - 1].tax
  }

  function SumHt(rs: seq<Recreate>): Amount
  {
    if rs == [] then 0 else SumHt(rs[..|rs| - 1]) + rs[|rs| - 1].ht
  }

  function SumTtc(rs: seq<Recreate>): Amount
  {
    if rs == [] then 0 else SumTtc(rs[..|rs| - 1]) + rs[|rs| - 1].ttc
  }

  /** A positive line whose split drifts by at least the tolerance. */
  predicate Overshoots(x: LineItem, rate: Rate, tol: Dec)
  {
    x.total > 0 && AtLeast(Drift(x.total, rate), tol)
  }

  /** The first line that overshoots, or |items| when none does. */
  function FirstOvershoot(items: seq<LineItem>, rate: Rate, tol: Dec): (k: nat)
    ensures k <= |items|
    ensures k < |items| ==> Overshoots(items[k], rate, tol)
    ensures forall j :: 0 <= j < k && j < |items| ==> !Overshoots(items[j], rate, tol)
  {
    if items == [] then 0
    else
      var k := FirstOvershoot(items[..|items| - 1], rate, tol);
      if k < |items| - 1 then k
      else if Overshoots(items[|items| - 1], rate, tol) then |items| - 1
      else |items|
  }

  /** The result of the item loop: the whole subscription aborted at the
      first overshooting line, or the list of lines to recreate and their tax sum. */
  datatype Scan =
    | LineOver(key: ItemKey, diff: nat, ttc: Amount, ht: Amount, tax: Amount)
    | Split(recreate: seq<Recreate>, taxSum: Amount)

  function OverAt(x: LineItem, rate: Rate): Scan
  {
    var ht := PreTax(x.total, rate);
    LineOver(x.key, Drift(x.total, rate), x.total, ht, TaxPart(x.total, ht))
  }

  /** The item loop of the batch processor, as a value. */
  function ScanLines(items: seq<LineItem>, rate: Rate, tol: Dec): Scan
  {
    if items == [] then Split([], 0)
    else
      var x := items[|items| - 1];
      match ScanLines(items[..|items| - 1], rate, tol)
      case LineOver(k, d, ttc, ht, tax) => LineOver(k, d, ttc, ht, tax)
      case Split(rec, sum) =>
        if x.total <= 0 then Split(rec, sum)
        else if Overshoots(x, rate, tol) then OverAt(x, rate)
        else
          var r := RecreateOf(x, rate);
          Split(rec + [r], sum + r.tax)
  }

  /** The scan aborts exactly when some positive line overshoots. */
  lemma {:induction false} ScanAbortsIffOvershoot(items: seq<LineItem>, rate: Rate, tol: Dec)
    ensures ScanLines(items, rate, tol).Split? <==> forall i :: 0 <= i < |items| ==> !Overshoots(items[i], rate, tol)
  {
    if items != [] {
      var p := items[..|items| - 1];
      ScanAbortsIffOvershoot(p, rate, tol);
      assert forall i :: 0 <= i < |p| ==> p[i] == items[i];
    }
  }

  /** When it does not abort, the scan lists every positive line's split, in
      order, and the sum of their tax parts. */
  lemma {:induction false} ScanListsPositiveLines(items: seq<LineItem>, rate: Rate, tol: Dec)
    requires ScanLines(items, rate, tol).Split?
    ensures ScanLines(items, rate, tol).recreate == Recreations(Positive(items), rate)
    ensures ScanLines(items, rate, tol).taxSum == SumTax(ScanLines(items, rate, tol).recreate)
  {
    if items != [] {
      var p, x := items[..|items| - 1], items[|items| - 1];
      ScanListsPositiveLines(p, rate, tol);
      var s := ScanLines(p, rate, tol);
      if x.total > 0 {
        var r := RecreateOf(x, rate);
        assert Positive(items) == Positive(p) + [x];
        assert Recreations(Positive(items), rate)[..|Positive(p)|] == Recreations(Positive(p), rate);
        assert (s.recreate + [r])[..|s.recreate|] == s.recreate;
      }
    }
  }

  /** When it aborts, the scan reports the first overshooting line. */
  lemma {:induction false} ScanReportsFirstOvershoot(items: seq<LineItem>, rate: Rate, tol: Dec)
    requires ScanLines(items, rate, tol).LineOver?
    ensures FirstOvershoot(items, rate, tol) < |items|
    ensures ScanLines(items, rate, tol) == OverAt(items[FirstOvershoot(items, rate, tol)], rate)
  {
    var p := items[..|items| - 1];
    if ScanLines(p, rate, tol).LineOver? {
      ScanReportsFirstOvershoot(p, rate, tol);
    } else {
      ScanAbortsIffOvershoot(p, rate, tol);
    }
  }

  /** Once a prefix has overshot, more lines do not change the outcome. */
  lemma {:induction false} OvershootPersists(items: seq<LineItem>, n: nat, rate: Rate, tol: Dec)
    requires n <= |items| && ScanLines(items[..n], rate, tol).LineOver?
    ensures ScanLines(items, rate, tol) == ScanLines(items[..n], rate, tol)
  {
    if n == |items| {
      assert items[..n] == items;
    } else {
      var p := items[..|items| - 1];
      assert p[..n] == items[..n];
      OvershootPersists(p, n, rate, tol);
    }
  }

  /** With whole-cent lines and a positive tolerance no line overshoots. */
  lemma WholeCentLinesNeverOvershoot(items: seq<LineItem>, rate: Rate, tol: Dec)
    requires tol.mantissa > 0
    requires forall i :: 0 <= i < |items| && items[i].total > 0 ==> items[i].total % UnitsPerCent == 0
    ensures ScanLines(items, rate, tol).Split?
  {
    ScanAbortsIffOvershoot(items, rate, tol);
    forall i | 0 <= i < |items| ensures !Overshoots(items[i], rate, tol) {
      if items[i].total > 0 {
        WholeCentsSplitExactly(items[i].total, rate);
        ZeroBelowPositive(tol);
      }
    }
  }

  /** The new line for one entry: same product, variation, quantity, name and
      metadata; subtotal and total are the pre-tax part; the tax goes to the rate id. */
  function NewLine(r: Recreate, index: nat, rateId: nat): (x: LineItem)
    ensures x.productId == r.productId && x.variationId == r.variationId
    ensures x.quantity == r.quantity && x.name == r.name && x.meta == r.meta
    ensures x.subtotal == r.ht && x.total == r.ht && x.taxes == [TaxEntry(rateId, r.tax)]
  {
    LineItem(Pending(index), r.productId, r.variationId, r.quantity, r.name, r.ht, r.ht, [TaxEntry(rateId, r.tax)], r.meta)
  }

  function NewLines(rs: seq<Recreate>, rateId: nat): (xs: seq<LineItem>)
    ensures |xs| == |rs|
    ensures forall i :: 0 <= i < |rs| ==> xs[i] == NewLine(rs[i], i, rateId)
  {
    if rs == [] then [] else NewLines(rs[..|rs| - 1], rateId) + [NewLine(rs[|rs| - 1], |rs| - 1, rateId)]
  }

  function OldKeys(rs: seq<Recreate>): (ks: set<ItemKey>)
  {
    if rs == [] then {} else OldKeys(rs[..|rs| - 1]) + {rs[|rs| - 1].oldKey}
  }

  /** The item list after the recreated lines were removed and their
      replacements appended. */
  function Rebuilt(items: seq<LineItem>, rs: seq<Recreate>, rateId: nat): seq<LineItem>
  {
    Without(items, OldKeys(rs)) + NewLines(rs, rateId)
  }

  lemma {:induction false} OldKeysOfRecreations(xs: seq<LineItem>, rate: Rate)
    ensures OldKeys(Recreations(xs, rate)) == KeySet(xs)
  {
    if xs != [] {
      var p := xs[..|xs| - 1];
      OldKeysOfRecreations(p, rate);
      assert Recreations(xs, rate)[..|xs| - 1] == Recreations(p, rate);
    }
  }

  /** With unique keys, the rebuilt list is the non-positive lines, in order,
      followed by one new line per positive line. */
  lemma RebuiltShape(items: seq<LineItem>, rate: Rate, tol: Dec, rateId: nat)
    requires UniqueKeys(items) && ScanLines(items, rate, tol).Split?
    ensures var rs := ScanLines(items, rate, tol).recreate;
      rs == Recreations(Positive(items), rate) &&
      Rebuilt(items, rs, rateId) == NonPositive(items) + NewLines(rs, rateId) &&
      |rs| == |Positive(items)|
  {
    ScanListsPositiveLines(items, rate, tol);
    OldKeysOfRecreations(Positive(items), rate);
    RemovingPositiveKeysKeepsTheRest(items);
  }

  /** The new line for each split line keeps its product, variation,
      quantity, name and metadata, with the pre-tax part as subtotal and total
      and the tax part under the given rate id. */
  lemma NewLinesOfSplits(xs: seq<LineItem>, rate: Rate, rateId: nat)
    ensures var nl := NewLines(Recreations(xs, rate), rateId);
      |nl| == |xs| &&
      forall i :: 0 <= i < |xs| ==>
        nl[i].productId == xs[i].productId && nl[i].variationId == xs[i].variationId &&
        nl[i].quantity == xs[i].quantity && nl[i].name == xs[i].name && nl[i].meta == xs[i].meta &&
        nl[i].subtotal == PreTax(xs[i].total, rate) && nl[i].total == nl[i].subtotal &&
        nl[i].taxes == [TaxEntry(rateId, TaxPart(xs[i].total, nl[i].total))]
  {
  }

  /// Sums used by a store that totals lines and taxes

  function TaxesSum(ts: seq<TaxEntry>): Amount
  {
    if ts == [] then 0 else TaxesSum(ts[..|ts| - 1]) + ts[|ts| - 1].amount
  }

  function ItemsTotal(items: seq<LineItem>): Amount
  {
    if items == [] then 0 else ItemsTotal(items[..|items| - 1]) + items[|items| - 1].total
  }

  function ItemsTax(items: seq<LineItem>): Amount
  {
    if items == [] then 0 else ItemsTax(items[..|items| - 1]) + TaxesSum(items[|items| - 1].taxes)
  }

  lemma {:induction false} ItemsSumsAppend(a: seq<LineItem>, b: seq<LineItem>)
    ensures ItemsTotal(a + b) == ItemsTotal(a) + ItemsTotal(b)
    ensures ItemsTax(a + b) == ItemsTax(a) + ItemsTax(b)
    decreases |b|
  {
    if b == [] {
      assert a + b == a;
    } else {
      var b' := b[..|b| - 1];
      assert (a + b)[..|a + b| - 1] == a + b';
      assert (a + b)[|a + b| - 1] == b[|b| - 1];
      ItemsSumsAppend(a, b');
    }
  }

  /** Splitting lines by sign splits their inclusive total. */
  lemma {:induction false} TotalBySign(items: seq<LineItem>)
    ensures ItemsTotal(items) == ItemsTotal(NonPositive(items)) + ItemsTotal(Positive(items))
  {
    if items != [] {
      var p, x := items[..|items| - 1], items[|items| - 1];
      TotalBySign(p);
      ItemsSumsAppend(NonPositive(p), if x.total > 0 then [] else [x]);
      ItemsSumsAppend(Positive(p), if x.total > 0 then [x] else []);
      assert ItemsTotal([x]) == x.total by { assert [x][..0] == []; }
    }
  }

  lemma {:induction false} UntaxedParts(items: seq<LineItem>)
    requires forall i :: 0 <= i < |items| ==> items[i].taxes == []
    ensures ItemsTax(NonPositive(items)) == 0
  {
    if items != [] {
      var p, x := items[..|items| - 1], items[|items| - 1];
      UntaxedParts(p);
      ItemsSumsAppend(NonPositive(p), if x.total > 0 then [] else [x]);
      assert ItemsTax([x]) == 0 by { assert [x][..0] == []; }
    }
  }

  /** The new lines carry the pre-tax parts as totals and the tax parts as taxes. */
  lemma {:induction false} NewLinesSums(rs: seq<Recreate>, rateId: nat)
    ensures ItemsTotal(NewLines(rs, rateId)) == SumHt(rs)
    ensures ItemsTax(NewLines(rs, rateId)) == SumTax(rs)
  {
    if rs != [] {
      var p := rs[..|rs| - 1];
      NewLinesSums(p, rateId);
      var xs := NewLines(rs, rateId);
      assert xs[..|xs| - 1] == NewLines(p, rateId);
      var t := [TaxEntry(rateId, rs[|rs| - 1].tax)];
      assert TaxesSum(t) == rs[|rs| - 1].tax by { assert t[..0] == []; }
    }
  }

  /** Whole-cent lines split exactly, so the parts add up to the inclusive totals. */
  lemma {:induction false} WholeCentRecreationsAddUp(xs: seq<LineItem>, rate: Rate)
    requires forall i :: 0 <= i < |xs| ==> xs[i].total % UnitsPerCent == 0
    ensures SumHt(Recreations(xs, rate)) + SumTax(Recreations(xs, rate)) == ItemsTotal(xs)
  {
    if xs != [] {
      var p := xs[..|xs| - 1];
      WholeCentRecreationsAddUp(p, rate);
      WholeCentsSplitExactly(xs[|xs| - 1].total, rate);
      assert Recreations(xs, rate)[..|xs| - 1] == Recreations(p, rate);
    }
  }

  /** Untaxed whole-cent lines with unique keys, once rebuilt, carry the same
      inclusive total, and their tax is the sum of the positive lines' tax parts. */
  lemma RebuiltSums(items: seq<LineItem>, rate: Rate, tol: Dec, rateId: nat)
    requires UniqueKeys(items) && ScanLines(items, rate, tol).Split?
    requires forall i :: 0 <= i < |items| ==> items[i].taxes == [] && items[i].total % UnitsPerCent == 0
    ensures var r := Rebuilt(items, ScanLines(items, rate, tol).recreate, rateId);
      ItemsTotal(r) + ItemsTax(r) == ItemsTotal(items) &&
      ItemsTax(r) == SumTax(Recreations(Positive(items), rate))
  {
    var rs := ScanLines(items, rate, tol).recreate;
    RebuiltShape(items, rate, tol, rateId);
    ScanListsPositiveLines(items, rate, tol);
    ItemsSumsAppend(NonPositive(items), NewLines(rs, rateId));
    NewLinesSums(rs, rateId);
    UntaxedParts(items);
    TotalBySign(items);
    PositiveWholeCents(items);
    WholeCentRecreationsAddUp(Positive(items), rate);
  }
}
