/** The usage-cost arithmetic of app/cost_tracker.py: a static price table in
    US dollars per million tokens, a linear cost, and the choice of display
    precision. Costs are exact reals here (see README). */
module CostTracker {

  /** Dollars per million input tokens and per million output tokens. */
  datatype Rates = Rates(input: real, output: real)

  const DefaultModel: string := "gpt-4o-mini"

  const Pricing: map<string, Rates> := map[
    "gpt-4o-mini" := Rates(0.150, 0.600),
    "gpt-4o" := Rates(2.50, 10.00),
    "gpt-4-turbo" := Rates(10.00, 30.00),
    "gpt-4" := Rates(30.00, 60.00)]

  const TokensPerUnit: real := 1000000.0

  /** The rates of a model, falling back to gpt-4o-mini's for any model the
      table does not list. Every rate in the table is positive. */
  function RatesFor(model: string): (r: Rates)
    ensures model in Pricing ==> r == Pricing[model]
    ensures model !in Pricing ==> r == Rates(0.150, 0.600)
    ensures r.input > 0.0 && r.output > 0.0
  {
    if model in Pricing then Pricing[model] else Pricing[DefaultModel]
  }

  /** calculate_cost: input and output tokens, each priced per million at the
      model's rate. No call costs anything when no token is used, and no call
      with token counts of zero or more has a negative cost. */
  function CalculateCost(inputTokens: int, outputTokens: int, model: string): (cost: real)
    ensures inputTokens == 0 && outputTokens == 0 ==> cost == 0.0
    ensures inputTokens >= 0 && outputTokens >= 0 ==> cost >= 0.0
    ensures inputTokens > 0 && outputTokens >= 0 ==> cost > 0.0
    ensures inputTokens >= 0 && outputTokens > 0 ==> cost > 0.0
  {
    var rates := RatesFor(model);
    (inputTokens as real / TokensPerUnit) * rates.input + (outputTokens as real / TokensPerUnit) * rates.output
  }

  /** The price of one million input tokens is the table's input rate. */
  lemma MillionInputTokensCostTheRate(model: string)
    ensures CalculateCost(1000000, 0, model) == RatesFor(model).input
    ensures CalculateCost(1000000, 0, DefaultModel) == 0.15
  {
  }

  /** The price of one million output tokens is the table's output rate. */
  lemma MillionOutputTokensCostTheRate(model: string)
    ensures CalculateCost(0, 1000000, model) == RatesFor(model).output
    ensures CalculateCost(0, 1000000, DefaultModel) == 0.6
  {
  }

  /** The cost is the input rate per input token plus the output rate per
      output token, each rate being the price of a million tokens. */
  lemma {:induction false} CostIsLinear(inputTokens: int, outputTokens: int, model: string)
    ensures CalculateCost(inputTokens, outputTokens, model)
         == inputTokens as real * CalculateCost(1, 0, model) + outputTokens as real * CalculateCost(0, 1, model)
  {
    var r := RatesFor(model);
    assert inputTokens as real / TokensPerUnit * r.input == inputTokens as real * (1 as real / TokensPerUnit * r.input);
    assert outputTokens as real / TokensPerUnit * r.output == outputTokens as real * (1 as real / TokensPerUnit * r.output);
  }

  /** A model the table does not list is charged exactly as gpt-4o-mini. */
  lemma UnknownModelCostsAsDefault(inputTokens: int, outputTokens: int, model: string)
    requires model !in Pricing
    ensures CalculateCost(inputTokens, outputTokens, model) == CalculateCost(inputTokens, outputTokens, DefaultModel)
  {
  }

  /** Costs add up across turns: pricing two turns together gives the sum of
      pricing each. */
  lemma {:induction false} CostAdditive(input1: int, output1: int, input2: int, output2: int, model: string)
    ensures CalculateCost(input1 + input2, output1 + output2, model)
         == CalculateCost(input1, output1, model) + CalculateCost(input2, output2, model)
  {
    var r := RatesFor(model);
    assert (input1 + input2) as real / TokensPerUnit * r.input
        == input1 as real / TokensPerUnit * r.input + input2 as real / TokensPerUnit * r.input;
    assert (output1 + output2) as real / TokensPerUnit * r.output
        == output1 as real / TokensPerUnit * r.output + output2 as real / TokensPerUnit * r.output;
  }

  /** More tokens of either kind never cost less. */
  lemma {:induction false} CostMonotone(input1: int, output1: int, input2: int, output2: int, model: string)
    requires input1 <= input2 && output1 <= output2
    ensures CalculateCost(input1, output1, model) <= CalculateCost(input2, output2, model)
  {
    CostAdditive(input1, output1, input2 - input1, output2 - output1, model);
  }

  /** What format_cost decides: the currency sign, the number of decimals and
      the amount shown. The rounding and the digits themselves are not modelled. */
  datatype Display = Display(sign: string, decimals: nat, amount: real)

  /** format_cost: four decimals exactly for costs below one cent, two otherwise,
      always after a dollar sign. */
  function FormatCost(cost: real): (shown: Display)
    ensures shown.sign == "$" && shown.amount == cost
    ensures shown.decimals == 4 <==> cost < 0.01
    ensures shown.decimals == 2 <==> cost >= 0.01
  {
    if cost < 0.01 then Display("$", 4, cost) else Display("$", 2, cost)
  }

  /** A dearer amount is never shown with more decimals than a cheaper one. */
  lemma PrecisionNeverGrowsWithCost(cheaper: real, dearer: real)
    requires cheaper <= dearer
    ensures FormatCost(dearer).decimals <= FormatCost(cheaper).decimals
  {
  }

  /** A call that used no tokens is shown with four decimals on every model. */
  lemma FreeCallShowsFourDecimals(model: string)
    ensures FormatCost(CalculateCost(0, 0, model)).decimals == 4
  {
  }
}
