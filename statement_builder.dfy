/** The refactored billing code: genre-specific calculators chosen by a factory,
    and the builder that turns an invoice into enriched statement data with its
    two totals. Everything here is a pure function of the invoice and the
    catalog; an enriched performance is a new value, so the build cannot change
    its inputs and building twice gives the same result. */
module StatementBuilder {
  import opened Theatre

  /** The credit rule of the `PerformanceCalculator` base class: one point per
      seat beyond the thirtieth. */
  function BaseVolumeCredits(audience: nat): (c: nat)
    ensures audience <= 30 ==> c == 0
    ensures audience > 30 ==> c == audience - 30
  {
    Max(audience - 30, 0)
  }

  /** A calculator bound to one performance and its play; one variant per
      subclass of `PerformanceCalculator`. */
  datatype Calculator =
    | TragedyCalculator(performance: Performance, play: Play)
    | ComedyCalculator(performance: Performance, play: Play)
  {
    /** The `amount` getter of each subclass, in cents. */
    function Amount(): (r: nat)
      ensures TragedyCalculator? && performance.audience <= 30 ==> r == 40000
      ensures TragedyCalculator? && performance.audience > 30 ==>
                r == 40000 + 1000 * (performance.audience - 30)
      ensures ComedyCalculator? && performance.audience <= 20 ==>
                r == 30000 + 300 * performance.audience
      ensures ComedyCalculator? && performance.audience > 20 ==>
                r == 30000 + 10000 + 500 * (performance.audience - 20) + 300 * performance.audience
    {
      var audience := performance.audience;
      match this
      case TragedyCalculator(_, _) =>
        40000 + (if audience > 30 then 1000 * (audience - 30) else 0)
      case ComedyCalculator(_, _) =>
        30000 + (if audience > 20 then 10000 + 500 * (audience - 20) else 0) + 300 * audience
    }

    /** The `volumeCredits` getter: a tragedy inherits the base rule, a comedy
        adds a point for every five seats. */
    function VolumeCredits(): (c: nat)
      ensures TragedyCalculator? ==> c == BaseVolumeCredits(performance.audience)
      ensures ComedyCalculator? ==> c == BaseVolumeCredits(performance.audience) + performance.audience / 5
      ensures c >= BaseVolumeCredits(performance.audience)
    {
      match this
      case TragedyCalculator(perf, _) => BaseVolumeCredits(perf.audience)
      case ComedyCalculator(perf, _) => BaseVolumeCredits(perf.audience) + perf.audience / 5
    }
  }

  /** `createPerformanceCalculator`: picks the calculator for the play's type and
      fails, naming the type, for any other. */
  function CreatePerformanceCalculator(perf: Performance, play: Play): (r: Result<Calculator>)
    ensures r.Ok? <==> KnownGenre(play.kind)
    ensures r.Ok? ==> r.value.performance == perf && r.value.play == play
    ensures r.Ok? ==> (r.value.TragedyCalculator? <==> play.kind == "tragedy")
    ensures r.Err? ==> r.error == UnknownGenre(play.kind)
  {
    var genre :- ParseGenre(play.kind);
    match genre
    case Tragedy => Ok(TragedyCalculator(perf, play))
    case Comedy => Ok(ComedyCalculator(perf, play))
  }

  /** A performance with its play, charge (cents) and credits filled in. */
  datatype EnrichedPerformance =
    EnrichedPerformance(playID: string, audience: nat, play: Play, amount: nat, volumeCredits: nat)

  /** What the builder hands to the renderers. */
  datatype StatementData =
    StatementData(customer: string, performances: seq<EnrichedPerformance>,
                  totalAmount: nat, totalVolumeCredits: nat)

  /** `enrichPerformance`: resolve the play, pick its calculator, and build a new
      record holding the raw fields, the play and the two computed values. */
  function EnrichPerformance(plays: Catalog, perf: Performance): (r: Result<EnrichedPerformance>)
    ensures r.Ok? <==> perf.playID in plays && KnownGenre(plays[perf.playID].kind)
    ensures perf.playID !in plays ==> r == Err(UnknownPlay(perf.playID))
    ensures perf.playID in plays && !KnownGenre(plays[perf.playID].kind) ==>
              r == Err(UnknownGenre(plays[perf.playID].kind))
    ensures r.Ok? ==> r.value.playID == perf.playID && r.value.audience == perf.audience
                      && r.value.play == plays[perf.playID]
    ensures r.Ok? ==>
              var calculator := CreatePerformanceCalculator(perf, plays[perf.playID]).value;
              r.value.amount == calculator.Amount() && r.value.volumeCredits == calculator.VolumeCredits()
  {
    var play :- PlayFor(plays, perf);
    var calculator :- CreatePerformanceCalculator(perf, play);
    Ok(EnrichedPerformance(perf.playID, perf.audience, play, calculator.Amount(), calculator.VolumeCredits()))
  }

  /** `invoice.performances.map(enrichPerformance)`: front to back, in order; the
      first performance that cannot be enriched aborts the whole map. */
  function EnrichAll(plays: Catalog, ps: seq<Performance>): (r: Result<seq<EnrichedPerformance>>)
    ensures r.Ok? <==> forall i :: 0 <= i < |ps| ==> EnrichPerformance(plays, ps[i]).Ok?
    ensures r.Ok? ==> |r.value| == |ps|
    ensures r.Ok? ==> forall i :: 0 <= i < |ps| ==> EnrichPerformance(plays, ps[i]) == Ok(r.value[i])
  {
    if ps == [] then Ok([])
    else
      var head :- EnrichPerformance(plays, ps[0]);
      var tail :- EnrichAll(plays, ps[1..]);
      assert forall i :: 1 <= i < |ps| ==> ps[i] == ps[1..][i - 1];
      Ok([head] + tail)
  }

  /** The failure of the map is the failure of its first performance that
      cannot be enriched. */
  lemma {:induction false} EnrichAllStopsAtFirstFailure(plays: Catalog, ps: seq<Performance>, k: nat)
    requires k < |ps|
    requires forall j :: 0 <= j < k ==> EnrichPerformance(plays, ps[j]).Ok?
    requires EnrichPerformance(plays, ps[k]).Err?
    ensures EnrichAll(plays, ps) == Err(EnrichPerformance(plays, ps[k]).error)
  {
    if k > 0 {
      assert forall j :: 0 <= j < k - 1 ==> ps[1..][j] == ps[j + 1];
      EnrichAllStopsAtFirstFailure(plays, ps[1..], k - 1);
    }
  }

  /** The charges of a sequence of records, in order. */
  function Amounts(es: seq<EnrichedPerformance>): seq<nat>
  {
    seq(|es|, i requires 0 <= i < |es| => es[i].amount)
  }

  /** One more record adds its charge to the total charge. */
  lemma SumAmountsSnoc(records: seq<EnrichedPerformance>, record: EnrichedPerformance)
    ensures Sum(Amounts(records + [record])) == Sum(Amounts(records)) + record.amount
  {
    assert Amounts(records + [record]) == Amounts(records) + [record.amount];
    SumSnoc(Amounts(records), record.amount);
  }

  /** The credits of a sequence of records, in order. */
  function Credits(es: seq<EnrichedPerformance>): seq<nat>
  {
    seq(|es|, i requires 0 <= i < |es| => es[i].volumeCredits)
  }

  /** `reduce((total, x) => total + x, total)`: a left fold with an accumulator. */
  function Reduce(xs: seq<nat>, total: nat): nat {
    if xs == [] then total else Reduce(xs[1..], total + xs[0])
  }

  /** The accumulating fold adds up exactly the sum of its elements. */
  lemma {:induction false} ReduceIsSum(xs: seq<nat>, total: nat)
    ensures Reduce(xs, total) == total + Sum(xs)
  {
    if xs != [] {
      ReduceIsSum(xs[1..], total + xs[0]);
    }
  }

  /** `totalAmount(data)`: reduce over the enriched charges, starting at 0. */
  function TotalAmount(es: seq<EnrichedPerformance>): (t: nat)
    ensures t == Sum(Amounts(es))
  {
    ReduceIsSum(Amounts(es), 0);
    Reduce(Amounts(es), 0)
  }

  /** `totalVolumeCredits(data)`: reduce over the enriched credits, starting at 0. */
  function TotalVolumeCredits(es: seq<EnrichedPerformance>): (t: nat)
    ensures t == Sum(Credits(es))
  {
    ReduceIsSum(Credits(es), 0);
    Reduce(Credits(es), 0)
  }

  /** `createStatementData`: copy the customer, enrich every performance in
      order, then total the enriched records. */
  function CreateStatementData(invoice: Invoice, plays: Catalog): (r: Result<StatementData>)
    ensures r.Ok? <==> forall i :: 0 <= i < |invoice.performances| ==>
                         invoice.performances[i].playID in plays
                         && KnownGenre(plays[invoice.performances[i].playID].kind)
    ensures r.Ok? ==> r.value.customer == invoice.customer
    ensures r.Ok? ==> |r.value.performances| == |invoice.performances|
    ensures r.Ok? ==> forall i :: 0 <= i < |invoice.performances| ==>
                        EnrichPerformance(plays, invoice.performances[i]) == Ok(r.value.performances[i])
    ensures r.Ok? ==> r.value.totalAmount == Sum(Amounts(r.value.performances))
    ensures r.Ok? ==> r.value.totalVolumeCredits == Sum(Credits(r.value.performances))
    ensures invoice.performances == [] ==> r == Ok(StatementData(invoice.customer, [], 0, 0))
  {
    var performances :- EnrichAll(plays, invoice.performances);
    Ok(StatementData(invoice.customer, performances,
                     TotalAmount(performances), TotalVolumeCredits(performances)))
  }

  /** When every performance enriches to the matching record, the build
      succeeds with exactly those records and their totals. */
  lemma StatementOfRecords(invoice: Invoice, plays: Catalog, records: seq<EnrichedPerformance>)
    requires |records| == |invoice.performances|
    requires forall j :: 0 <= j < |records| ==> EnrichPerformance(plays, invoice.performances[j]) == Ok(records[j])
    ensures CreateStatementData(invoice, plays)
            == Ok(StatementData(invoice.customer, records, TotalAmount(records), TotalVolumeCredits(records)))
  {
    assert EnrichAll(plays, invoice.performances).value == records;
  }

  /** No partial statement: the build fails with the error of the first
      performance whose play is missing or has no price rule. */
  lemma CreateStatementDataFailsAtFirstBadPerformance(invoice: Invoice, plays: Catalog, k: nat)
    requires k < |invoice.performances|
    requires forall j :: 0 <= j < k ==> EnrichPerformance(plays, invoice.performances[j]).Ok?
    requires EnrichPerformance(plays, invoice.performances[k]).Err?
    ensures CreateStatementData(invoice, plays) == Err(EnrichPerformance(plays, invoice.performances[k]).error)
  {
    EnrichAllStopsAtFirstFailure(plays, invoice.performances, k);
  }

  /** A worked invoice: a tragedy for 25 seats and a comedy for 35. */
  lemma BigCoStatement()
    ensures
      var hamlet := Play("Hamlet", "tragedy");
      var asLike := Play("As You Like It", "comedy");
      CreateStatementData(
        Invoice("BigCo", [Performance("hamlet", 25), Performance("as-like", 35)]),
        map["hamlet" := hamlet, "as-like" := asLike])
      == Ok(StatementData("BigCo",
                          [EnrichedPerformance("hamlet", 25, hamlet, 40000, 0),
                           EnrichedPerformance("as-like", 35, asLike, 58000, 12)],
                          98000, 12))
  {
    var hamlet := Play("Hamlet", "tragedy");
    var asLike := Play("As You Like It", "comedy");
    var plays := map["hamlet" := hamlet, "as-like" := asLike];
    var ps := [Performance("hamlet", 25), Performance("as-like", 35)];
    var first := EnrichedPerformance("hamlet", 25, hamlet, 40000, 0);
    var second := EnrichedPerformance("as-like", 35, asLike, 58000, 12);
    assert EnrichPerformance(plays, ps[0]) == Ok(first);
    assert EnrichPerformance(plays, ps[1]) == Ok(second);
    assert EnrichAll(plays, ps).value == [first, second];
    assert Amounts([first, second]) == [40000, 58000];
    assert Credits([first, second]) == [0, 12];
    assert Sum([40000, 58000]) == 98000 by {
      assert [40000, 58000][1..] == [58000];
      assert [58000][1..] == [];
    }
    assert Sum([0, 12]) == 12 by {
      assert [0, 12][1..] == [12];
      assert [12][1..] == [];
    }
  }
}
