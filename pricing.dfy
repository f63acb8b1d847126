/** Token prices per provider and model, and the cost of one call. Prices
    are US dollars per million tokens; costs are reals. */
module Pricing {
  import opened Wrappers

  /** One table entry: `{"input": ..., "output": ...}`. */
  datatype Rate = Rate(input: real, output: real)

  /** `PRICING_PER_MILLION`. */
  const Table: map<string, map<string, Rate>> := map[
    "openai" := map[
      "gpt-5" := Rate(1.25, 10.00),
      "gpt-5.2" := Rate(2.50, 15.00),
      "gpt-5-mini" := Rate(0.25, 2.00),
      "gpt-5-nano" := Rate(0.05, 0.40)],
    "google" := map[
      "gemini-2.5-flash" := Rate(0.30, 2.50),
      "gemini-2.5-flash-image" := Rate(0.30, 2.50),
      "gemini-3-flash-preview" := Rate(0.30, 2.50)],
    "bedrock" := map[
      "amazon.nova-pro-v1:0" := Rate(0.80, 3.20),
      "qwen.qwen3-vl-235b-a22b" := Rate(0.18, 0.54),
      "google.gemma-3-27b-it" := Rate(0.15, 0.60),
      "nvidia.nemotron-nano-12b-v2" := Rate(0.06, 0.24)],
    "anthropic" := map[
      "claude-sonnet-4-5-20250929" := Rate(3.00, 15.00),
      "claude-haiku-4-5-20251001" := Rate(0.80, 4.00)],
    "deepseek" := map[
      "deepseek-ocr" := Rate(0.0, 0.0)]
  ]

  /** `get_pricing`: `PRICING_PER_MILLION.get(provider, {}).get(model)`. */
  function GetPricing(provider: string, model: string): (r: Option<Rate>)
    ensures r.Some? <==> provider in Table && model in Table[provider]
  {
    var models := if provider in Table then Table[provider] else map[];
    if model in models then Some(models[model]) else None
  }

  /** `calculate_cost`: zero for an unknown pair, otherwise each token count
      in millions times its rate. A table entry is never an empty dict, so
      `not pricing` holds only when the pair is missing. */
  function CalculateCost(provider: string, model: string, inputTokens: int, outputTokens: int): real
  {
    match GetPricing(provider, model)
    case None => 0.0
    case Some(p) => (inputTokens as real / 1000000.0) * p.input + (outputTokens as real / 1000000.0) * p.output
  }

  /** Every rate in the table is non-negative. */
  lemma RatesNonNegative(provider: string, model: string)
    requires GetPricing(provider, model).Some?
    ensures GetPricing(provider, model).value.input >= 0.0
    ensures GetPricing(provider, model).value.output >= 0.0
  {
    var m := Table[provider];
    assert provider in {"openai", "google", "bedrock", "anthropic", "deepseek"};
  }

  /** A pair the table does not know costs nothing, and `get_pricing`
      answers `None` for exactly those pairs. */
  lemma UnknownCostsNothing(provider: string, model: string, inputTokens: int, outputTokens: int)
    requires !(provider in Table && model in Table[provider])
    ensures GetPricing(provider, model) == None
    ensures CalculateCost(provider, model, inputTokens, outputTokens) == 0.0
  {
  }

  /** Cost is never negative for non-negative token counts. */
  lemma CostNonNegative(provider: string, model: string, inputTokens: int, outputTokens: int)
    requires inputTokens >= 0 && outputTokens >= 0
    ensures CalculateCost(provider, model, inputTokens, outputTokens) >= 0.0
  {
    if GetPricing(provider, model).Some? {
      RatesNonNegative(provider, model);
    }
  }

  /** No tokens, no cost. */
  lemma NoTokensNoCost(provider: string, model: string)
    ensures CalculateCost(provider, model, 0, 0) == 0.0
  {
  }

  /** The local OCR model is free whatever the token counts. */
  lemma DeepseekOcrFree(inputTokens: int, outputTokens: int)
    ensures GetPricing("deepseek", "deepseek-ocr") == Some(Rate(0.0, 0.0))
    ensures CalculateCost("deepseek", "deepseek-ocr", inputTokens, outputTokens) == 0.0
  {
    assert "deepseek" in Table;
  }

  /** Cost is additive in the token counts: two calls cost what one call
      with the summed counts costs. */
  lemma CostAdditive(provider: string, model: string, i1: int, o1: int, i2: int, o2: int)
    ensures CalculateCost(provider, model, i1 + i2, o1 + o2)
         == CalculateCost(provider, model, i1, o1) + CalculateCost(provider, model, i2, o2)
  {
  }

  /** A known pair costs its rates applied to the counts: one million input
      tokens of `gpt-5` cost 1.25. */
  lemma Gpt5Example()
    ensures CalculateCost("openai", "gpt-5", 1000000, 0) == 1.25
    ensures CalculateCost("openai", "gpt-5", 0, 1000000) == 10.0
  {
    assert "openai" in Table && "gpt-5" in Table["openai"];
  }
}
