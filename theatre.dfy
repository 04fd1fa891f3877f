/** The values both versions of the billing code work on: the play catalog, the
    invoice, the two ways building a statement can fail, and the sum that every
    total is. */
module Theatre {

  /** A catalog entry. `kind` holds the catalog's raw `type` string (`type` is a
      Dafny keyword); only "tragedy" and "comedy" have a price. */
  datatype Play = Play(name: string, kind: string)

  /** One line of an invoice: which play was performed, and for how many seats. */
  datatype Performance = Performance(playID: string, audience: nat)

  datatype Invoice = Invoice(customer: string, performances: seq<Performance>)

  /** The play catalog, keyed by play identifier. */
  type Catalog = map<string, Play>

  datatype Error =
    | UnknownPlay(playID: string)   // the identifier is not in the catalog
    | UnknownGenre(kind: string)    // the play's type has no price rule

  datatype Result<T> = Ok(value: T) | Err(error: Error) {
    predicate IsFailure() { Err? }

    function PropagateFailure<U>(): Result<U>
      requires Err?
    {
      Err(error)
    }

    function Extract(): T
      requires Ok?
    {
      value
    }
  }

  /** The genres that have a price rule. */
  datatype Genre = Tragedy | Comedy

  /** The genre named by a play's raw type; any other type fails, naming it. */
  function ParseGenre(kind: string): (r: Result<Genre>)
    ensures r == Ok(Tragedy) <==> kind == "tragedy"
    ensures r == Ok(Comedy) <==> kind == "comedy"
    ensures r.Err? ==> r.error == UnknownGenre(kind)
  {
    match kind
    case "tragedy" => Ok(Tragedy)
    case "comedy" => Ok(Comedy)
    case _ => Err(UnknownGenre(kind))
  }

  /** The play types that have a price rule. */
  predicate KnownGenre(kind: string) {
    ParseGenre(kind).Ok?
  }

  /** `playFor`: the catalog entry of the performance's play. Reading the type
      of a missing entry throws, which the model reports as UnknownPlay. */
  function PlayFor(plays: Catalog, perf: Performance): (r: Result<Play>)
    ensures r.Ok? <==> perf.playID in plays
    ensures r.Ok? ==> r.value == plays[perf.playID]
    ensures r.Err? ==> r.error == UnknownPlay(perf.playID)
  {
    if perf.playID in plays then Ok(plays[perf.playID]) else Err(UnknownPlay(perf.playID))
  }

  /** `Math.max` on integers. */
  function Max(a: int, b: int): (m: int)
    ensures m >= a && m >= b
    ensures m == a || m == b
  {
    if a >= b then a else b
  }

  /** The sum of a sequence of non-negative numbers. */
  function Sum(xs: seq<nat>): nat {
    if xs == [] then 0 else xs[0] + Sum(xs[1..])
  }

  /** Adding one more element at the end adds it to the sum; this is the step of
      every accumulating loop over performances. */
  lemma {:induction false} SumSnoc(xs: seq<nat>, x: nat)
    ensures Sum(xs + [x]) == Sum(xs) + x
  {
    if xs == [] {
      assert [] + [x] == [x];
    } else {
      assert (xs + [x])[1..] == xs[1..] + [x];
      SumSnoc(xs[1..], x);
    }
  }
}
