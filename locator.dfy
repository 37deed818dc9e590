/** The tax-rate locator: picks, from WooCommerce's tax-rate table, the rate
    identifier that new tax lines are tagged with. */
module Locator {
  import opened Money
  import opened Wrappers

  /** One row of the tax-rate table. The rate is WooCommerce's four-decimal
      percentage scaled by 10000 (20.0000 % is 200000), so it shares its unit
      with Money.Rate; the empty class is the standard class. */
  datatype TaxRate = TaxRate(id: nat, country: string, rate: nat, taxClass: string, priority: int)

  /** The jurisdiction searched first. */
  const Preferred: string := "FR"

  /** |rate - target| < 0.01 percentage point, in the table's unit. */
  const Epsilon: int := 100

  /** A standard-class rate within epsilon of the target. */
  predicate Matches(r: TaxRate, target: Rate)
  {
    r.taxClass == "" && Abs(r.rate - target) < Epsilon
  }

  /** The candidates of one query: French matches only, or matches of any country. */
  predicate Candidate(r: TaxRate, target: Rate, frenchOnly: bool)
  {
    Matches(r, target) && (frenchOnly ==> r.country == Preferred)
  }

  /** 0 for the preferred jurisdiction, 1 for any other: CASE WHEN ... THEN 0 ELSE 1 END. */
  function CountryRank(r: TaxRate): int
  {
    if r.country == Preferred then 0 else 1
  }

  /** The query order: preferred jurisdiction first, then ascending priority. */
  predicate RanksBefore(a: TaxRate, b: TaxRate)
  {
    CountryRank(a) < CountryRank(b) || (CountryRank(a) == CountryRank(b) && a.priority <= b.priority)
  }

  /** ORDER BY ... LIMIT 1 over the candidates: the index of the first candidate
      that ranks before every other candidate (ties go to the earlier row). */
  function Best(rows: seq<TaxRate>, target: Rate, frenchOnly: bool): (r: Option<nat>)
    ensures r.Some? ==> r.value < |rows| && Candidate(rows[r.value], target, frenchOnly)
    ensures r.Some? ==> forall j :: 0 <= j < |rows| && Candidate(rows[j], target, frenchOnly) ==>
      RanksBefore(rows[r.value], rows[j])
    ensures r.Some? ==> forall j :: 0 <= j < r.value && Candidate(rows[j], target, frenchOnly) ==>
      !RanksBefore(rows[j], rows[r.value])
    ensures r.None? <==> forall j :: 0 <= j < |rows| ==> !Candidate(rows[j], target, frenchOnly)
  {
    if rows == [] then None
    else
      var rest := Best(rows[1..], target, frenchOnly);
      if Candidate(rows[0], target, frenchOnly) &&
         (rest.None? || RanksBefore(rows[0], rows[1 + rest.value]))
      then Some(0)
      else if rest.None? then None
      else Some(1 + rest.value)
  }

  /** wc_tax_retrofit_get_tax_rate_id, the two database queries: a French
      standard rate first, then any country in the query order; None when no
      standard rate lies within epsilon of the target. */
  function LocateRateId(rows: seq<TaxRate>, target: Rate): (r: Option<nat>)
  {
    match Best(rows, target, true)
    case Some(i) => Some(rows[i].id)
    case None =>
      match Best(rows, target, false)
      case Some(i) => Some(rows[i].id)
      case None => None
  }

  /** A located identifier names a standard-class rate within epsilon of the
      target; if a French such rate exists, the located one is French and of
      the lowest priority among the French ones; otherwise its priority is the
      lowest among all matches. Nothing is located when nothing matches. */
  lemma LocatedRateMatches(rows: seq<TaxRate>, target: Rate)
    ensures LocateRateId(rows, target).None? <==> forall j :: 0 <= j < |rows| ==> !Matches(rows[j], target)
    ensures LocateRateId(rows, target).Some? ==>
      exists i :: 0 <= i < |rows| && rows[i].id == LocateRateId(rows, target).value && Matches(rows[i], target) &&
        (forall j :: 0 <= j < |rows| && Matches(rows[j], target) && rows[j].country == Preferred ==>
           rows[i].country == Preferred && rows[i].priority <= rows[j].priority) &&
        (forall j :: 0 <= j < |rows| && Matches(rows[j], target) ==>
           rows[i].country == Preferred || rows[i].priority <= rows[j].priority)
  {
    var fr := Best(rows, target, true);
    var any := Best(rows, target, false);
    if fr.Some? {
      var i := fr.value;
      assert rows[i].id == LocateRateId(rows, target).value;
    } else if any.Some? {
      var i := any.value;
      assert rows[i].country != Preferred;
      assert rows[i].id == LocateRateId(rows, target).value;
    } else {
      forall j | 0 <= j < |rows| ensures !Matches(rows[j], target) {
        assert !Candidate(rows[j], target, false);
      }
    }
  }

  /** The first query is subsumed by the second: the French-first order already
      prefers a French match, so the single all-countries query locates the same rate. */
  lemma {:induction false} FrenchQueryRedundant(rows: seq<TaxRate>, target: Rate)
    ensures Best(rows, target, true).Some? ==> Best(rows, target, false) == Best(rows, target, true)
    ensures LocateRateId(rows, target) ==
      match Best(rows, target, false) case Some(i) => Some(rows[i].id) case None => None
  {
    if rows != [] {
      FrenchQueryRedundant(rows[1..], target);
      var fr := Best(rows[1..], target, true);
      var any := Best(rows[1..], target, false);
      if fr.None? && any.Some? {
        assert rows[1..][any.value].country != Preferred;
      }
    }
  }

  /** SELECT tax_rate WHERE tax_rate_id = id: the first row with that identifier. */
  function RateById(rows: seq<TaxRate>, id: nat): (r: Option<nat>)
    ensures r.Some? ==> exists i :: 0 <= i < |rows| && rows[i].id == id && rows[i].rate == r.value
    ensures r.None? <==> forall i :: 0 <= i < |rows| ==> rows[i].id != id
  {
    if rows == [] then None
    else if rows[0].id == id then Some(rows[0].rate)
    else
      RateById(rows[1..], id)
  }

  /** A French 20 % row of priority 2 is preferred to a German 20 % row of priority 1
      and to a French 20 % row of a reduced class. */
  lemma LocatorExample()
    ensures LocateRateId([TaxRate(7, "DE", 200000, "", 1), TaxRate(8, "FR", 200000, "reduced-rate", 1),
                          TaxRate(9, "FR", 200050, "", 2)], 200000) == Some(9)
    ensures LocateRateId([TaxRate(7, "DE", 200000, "", 1)], 200100) == None
  {
  }
}
