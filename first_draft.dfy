/** The billing code before refactoring: the helpers nested in `renderPlainText`,
    which switch on the play's type and accumulate into local variables. Each
    method is proved against the refactored calculators and statement builder,
    so that the two versions agree. */
module FirstDraft {
  import opened Theatre
  import opened StatementBuilder

  /** `amountFor`: the charge of one performance, in cents. */
  method AmountFor(plays: Catalog, perf: Performance) returns (r: Result<nat>)
    ensures perf.playID !in plays ==> r == Err(UnknownPlay(perf.playID))
    ensures perf.playID in plays && plays[perf.playID].kind == "tragedy" ==>
              r == Ok(TragedyCalculator(perf, plays[perf.playID]).Amount())
    ensures perf.playID in plays && plays[perf.playID].kind == "comedy" ==>
              r == Ok(ComedyCalculator(perf, plays[perf.playID]).Amount())
    ensures perf.playID in plays && !KnownGenre(plays[perf.playID].kind) ==>
              r == Err(UnknownGenre(plays[perf.playID].kind))
    ensures EnrichPerformance(plays, perf).Ok? ==> r == Ok(EnrichPerformance(plays, perf).value.amount)
    ensures EnrichPerformance(plays, perf).Err? ==> r == Err(EnrichPerformance(plays, perf).error)
  {
    var play :- PlayFor(plays, perf);
    var result: nat := 0;
    if play.kind == "tragedy" {
      result := 40000;
      if perf.audience > 30 {
        result := result + 1000 * (perf.audience - 30);
      }
    } else if play.kind == "comedy" {
      result := 30000;
      if perf.audience > 20 {
        result := result + 10000 + 500 * (perf.audience - 20);
      }
      result := result + 300 * perf.audience;
    } else {
      return Err(UnknownGenre(play.kind));
    }
    return Ok(result);
  }

  /** `volumeCreditsFor`: the base credits, plus a point for every five seats
      when the type is exactly "comedy". Unlike the refactored factory it does
      not reject a type without a price rule; only a missing play fails it. */
  method VolumeCreditsFor(plays: Catalog, perf: Performance) returns (r: Result<nat>)
    ensures perf.playID !in plays ==> r == Err(UnknownPlay(perf.playID))
    ensures perf.playID in plays && plays[perf.playID].kind == "tragedy" ==>
              r == Ok(TragedyCalculator(perf, plays[perf.playID]).VolumeCredits())
    ensures perf.playID in plays && plays[perf.playID].kind == "comedy" ==>
              r == Ok(ComedyCalculator(perf, plays[perf.playID]).VolumeCredits())
    ensures perf.playID in plays && !KnownGenre(plays[perf.playID].kind) ==>
              r == Ok(BaseVolumeCredits(perf.audience))
  {
    var volumeCredits: nat := 0;
    volumeCredits := volumeCredits + Max(perf.audience - 30, 0);
    var play :- PlayFor(plays, perf);
    if play.kind == "comedy" {
      volumeCredits := volumeCredits + perf.audience / 5;
    }
    return Ok(volumeCredits);
  }

  /** `totalAmount`: add up `amountFor` over the invoice's performances. It
      returns what the refactored builder puts in `totalAmount`, and fails
      exactly when the build fails, with the same error. */
  method TotalAmount(plays: Catalog, data: Invoice) returns (r: Result<nat>)
    ensures CreateStatementData(data, plays).Ok? ==>
              r == Ok(CreateStatementData(data, plays).value.totalAmount)
    ensures CreateStatementData(data, plays).Err? ==>
              r == Err(CreateStatementData(data, plays).error)
  {
    var ps := data.performances;
    var result: nat := 0;
    ghost var records: seq<EnrichedPerformance> := [];
    for i := 0 to |ps|
      invariant |records| == i
      invariant forall j :: 0 <= j < i ==> EnrichPerformance(plays, ps[j]) == Ok(records[j])
      invariant result == Sum(Amounts(records))
    {
      var amount := AmountFor(plays, ps[i]);
      if amount.Err? {
        CreateStatementDataFailsAtFirstBadPerformance(data, plays, i);
        return Err(amount.error);
      }
      SumAmountsSnoc(records, EnrichPerformance(plays, ps[i]).value);
      records := records + [EnrichPerformance(plays, ps[i]).value];
      result := result + amount.value;
    }
    StatementOfRecords(data, plays, records);
    return Ok(result);
  }

  /** Every performance's play is in the catalog. */
  predicate AllPlaysListed(plays: Catalog, ps: seq<Performance>) {
    forall i :: 0 <= i < |ps| ==> ps[i].playID in plays
  }

  /** The position of the first performance whose play is not in the catalog,
      or the number of performances when every play is listed. */
  function FirstUnlisted(plays: Catalog, ps: seq<Performance>): (k: nat)
    ensures k <= |ps|
    ensures forall j :: 0 <= j < k ==> ps[j].playID in plays
    ensures k < |ps| ==> ps[k].playID !in plays
    ensures k == |ps| <==> AllPlaysListed(plays, ps)
  {
    if ps == [] || ps[0].playID !in plays then 0
    else
      assert forall j :: 1 <= j < |ps| ==> ps[j] == ps[1..][j - 1];
      1 + FirstUnlisted(plays, ps[1..])
  }

  /** The credits `volumeCreditsFor` awards a performance of a play found in the
      catalog: its calculator's credits when the type has a price rule, the
      base credits otherwise. */
  function CreditsAwarded(perf: Performance, play: Play): nat {
    match CreatePerformanceCalculator(perf, play)
    case Ok(calculator) => calculator.VolumeCredits()
    case Err(_) => BaseVolumeCredits(perf.audience)
  }

  /** `CreditsAwarded` for each performance, in order. */
  function AwardedCredits(plays: Catalog, ps: seq<Performance>): seq<nat>
    requires AllPlaysListed(plays, ps)
  {
    seq(|ps|, i requires 0 <= i < |ps| => CreditsAwarded(ps[i], plays[ps[i].playID]))
  }

  /** One more listed performance adds its awarded credits to the prefix's sum. */
  lemma AwardedCreditsStep(plays: Catalog, ps: seq<Performance>, i: nat)
    requires i < |ps| && AllPlaysListed(plays, ps[..i]) && ps[i].playID in plays
    ensures AllPlaysListed(plays, ps[..i + 1])
    ensures Sum(AwardedCredits(plays, ps[..i + 1]))
            == Sum(AwardedCredits(plays, ps[..i])) + CreditsAwarded(ps[i], plays[ps[i].playID])
  {
    assert ps[..i + 1] == ps[..i] + [ps[i]];
    assert AwardedCredits(plays, ps[..i + 1])
           == AwardedCredits(plays, ps[..i]) + [CreditsAwarded(ps[i], plays[ps[i].playID])];
    SumSnoc(AwardedCredits(plays, ps[..i]), CreditsAwarded(ps[i], plays[ps[i].playID]));
  }

  /** On an invoice the refactored builder accepts, the first version's credits
      are the enriched records' credits, so their sums agree. */
  lemma CreditsAgreeWithStatement(plays: Catalog, invoice: Invoice)
    requires CreateStatementData(invoice, plays).Ok?
    ensures AllPlaysListed(plays, invoice.performances)
    ensures Sum(AwardedCredits(plays, invoice.performances))
            == CreateStatementData(invoice, plays).value.totalVolumeCredits
  {
    var s := CreateStatementData(invoice, plays).value;
    assert AwardedCredits(plays, invoice.performances) == Credits(s.performances);
  }

  /** `totalVolumeCredits`: add up `volumeCreditsFor` over the invoice's
      performances. It fails only on a missing play, naming the first one; on an
      invoice the refactored builder accepts it returns `totalVolumeCredits`. */
  method TotalVolumeCredits(plays: Catalog, data: Invoice) returns (r: Result<nat>)
    ensures r.Ok? <==> AllPlaysListed(plays, data.performances)
    ensures AllPlaysListed(plays, data.performances) ==>
              r == Ok(Sum(AwardedCredits(plays, data.performances)))
    ensures !AllPlaysListed(plays, data.performances) ==>
              r == Err(UnknownPlay(data.performances[FirstUnlisted(plays, data.performances)].playID))
    ensures CreateStatementData(data, plays).Ok? ==>
              r == Ok(CreateStatementData(data, plays).value.totalVolumeCredits)
  {
    var ps := data.performances;
    var result: nat := 0;
    for i := 0 to |ps|
      invariant AllPlaysListed(plays, ps[..i])
      invariant result == Sum(AwardedCredits(plays, ps[..i]))
    {
      var credits := VolumeCreditsFor(plays, ps[i]);
      if credits.Err? {
        return credits;
      }
      AwardedCreditsStep(plays, ps, i);
      result := result + credits.value;
    }
    assert ps[..|ps|] == ps;
    if CreateStatementData(data, plays).Ok? {
      CreditsAgreeWithStatement(plays, data);
    }
    return Ok(result);
  }
}
