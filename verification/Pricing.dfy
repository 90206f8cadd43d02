/** Token prices and the arithmetic of costs, in exact units of 1e-7 USD. */
module Pricing {

  /** Units per input and output token: 1 USD per million tokens is 10 units of 1e-7 USD each. */
  const PRICES: map<string, (int, int)> := map[
    "claude-opus-4-7" := (150, 750),
    "claude-opus-4-6" := (150, 750),
    "claude-sonnet-4-6" := (30, 150),
    "claude-sonnet-4-5" := (30, 150),
    "claude-haiku-4-5" := (8, 40),
    "scripted" := (0, 0),
    "echo" := (0, 0)
  ]

  /** compute_cost, before any rounding. */
  function Cost(model: string, inputTokens: int, outputTokens: int): int {
    if model !in PRICES then 0
    else inputTokens * PRICES[model].0 + outputTokens * PRICES[model].1
  }

  /** round(cost, 6): to whole micro-dollars, ties to even. */
  function Micros(cost: int): int {
    var q, r := cost / 10, cost % 10;
    if r < 5 || (r == 5 && q % 2 == 0) then q else q + 1
  }

  /** Costs are linear: the cost of token totals is the total of the costs. */
  lemma CostAdds(model: string, i1: int, o1: int, i2: int, o2: int)
    ensures Cost(model, i1 + i2, o1 + o2) == Cost(model, i1, o1) + Cost(model, i2, o2)
  {
    if model in PRICES {
      var (p, q) := PRICES[model];
      assert (i1 + i2) * p == i1 * p + i2 * p;
      assert (o1 + o2) * q == o1 * q + o2 * q;
    }
  }

  /** What a million tokens cost, in whole cents of a dollar: input tokens, output tokens. A model that
      is not in the table costs nothing. */
  lemma MillionTokens(model: string)
    ensures var input, output := Cost(model, 1_000_000, 0), Cost(model, 0, 1_000_000);
            var cent := 100_000;
            match model
            case "claude-opus-4-7" => input == 1500 * cent && output == 7500 * cent
            case "claude-opus-4-6" => input == 1500 * cent && output == 7500 * cent
            case "claude-sonnet-4-6" => input == 300 * cent && output == 1500 * cent
            case "claude-sonnet-4-5" => input == 300 * cent && output == 1500 * cent
            case "claude-haiku-4-5" => input == 80 * cent && output == 400 * cent
            case _ => input == 0 && output == 0
  {
  }

  /** Rounding goes to the nearest micro-dollar, and to the even one of two. */
  lemma RoundsToNearest(cost: int, micros: int)
    ensures micros == Micros(cost) <==>
              if (10 * micros - cost) in {-5, 5} then micros % 2 == 0 else -5 < 10 * micros - cost < 5
  {
  }

  /** Rounding moves a cost by at most half a micro-dollar. */
  lemma RoundingError(cost: int)
    ensures -5 <= 10 * Micros(cost) - cost <= 5
    ensures cost % 10 == 0 ==> 10 * Micros(cost) == cost
  {
  }

  /** Prices of whole dollars per million tokens make every cost a whole number of micro-dollars. */
  predicate WholeDollars(model: string) {
    model in PRICES ==> PRICES[model].0 % 10 == 0 && PRICES[model].1 % 10 == 0
  }

  lemma WholeCost(model: string, i: int, o: int)
    requires WholeDollars(model)
    ensures Cost(model, i, o) % 10 == 0
  {
    if model in PRICES {
      var (p, q) := PRICES[model];
      assert i * p == (i * (p / 10)) * 10;
      assert o * q == (o * (q / 10)) * 10;
    }
  }

  lemma ZeroCost(model: string)
    ensures Cost(model, 0, 0) == 0
  {
    if model in PRICES {
      var (p, q) := PRICES[model];
      assert 0 * p == 0 && 0 * q == 0;
    }
  }
}
