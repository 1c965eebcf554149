/**
 * The check an AI trading answer must pass before it becomes a trading
 * decision. The answer is a parsed JSON value; the decision copies the
 * player from the trading context, keeps or defaults the answer's fields,
 * and turns a trade that would lose coins after the 5% transfer tax into
 * a hold.
 */
module AiTrader {
  import opened Js
  import opened Json

  /** The player the decision is about, as the trading context carries it. */
  datatype ContextPlayer = ContextPlayer(id: int, eaId: int, name: string, price: real)

  datatype TradingDecision = TradingDecision(
    playerId: int,
    eaId: int,
    playerName: string,
    currentPrice: real,
    action: string,
    confidence: int,
    targetBuyPrice: Option<Json>,
    targetSellPrice: Option<Json>,
    expectedProfit: Option<Json>,
    reasoning: seq<Json>,
    riskLevel: Json,
    timeframe: Json)

  const Actions: seq<string> := ["buy", "sell", "hold"]
  const Medium: string := "medium"
  const UnprofitableNote: string := "Tax calculation shows unprofitable trade"

  /** The seller's share of a sale after the 5% tax. */
  const AfterTax: real := 0.95

  /** `value.key`: `None` is `undefined` (arrays have no such named property). */
  function Get(j: Json, key: string): (r: Option<Json>)
    ensures r.Some? <==> j.JObj? && key in j.fields
  {
    if j.JObj? && key in j.fields then Some(j.fields[key]) else None
  }

  /** `!!value.key` */
  predicate FieldTruthy(j: Json, key: string) {
    Get(j, key).Some? && Truthy(Get(j, key).value)
  }

  /** `value.key || fallback` */
  function FieldOr(j: Json, key: string, fallback: Json): (r: Json)
    ensures FieldTruthy(j, key) ==> r == j.fields[key]
    ensures !FieldTruthy(j, key) ==> r == fallback
  {
    if FieldTruthy(j, key) then Get(j, key).value else fallback
  }

  /** `value.key || undefined` */
  function FieldIfTruthy(j: Json, key: string): (r: Option<Json>)
    ensures r.Some? <==> FieldTruthy(j, key)
    ensures r.Some? ==> r.value == j.fields[key] && Truthy(r.value)
  {
    if FieldTruthy(j, key) then Get(j, key) else None
  }

  /** `!aiResponse || typeof aiResponse !== "object"`: only objects and arrays pass. */
  predicate IsObject(j: Json) {
    Truthy(j) && (j.JObj? || j.JArr?)
  }

  predicate ValidAction(j: Json) {
    Get(j, "action").Some? && Get(j, "action").value.JStr? && Get(j, "action").value.s in Actions
  }

  predicate ValidConfidence(j: Json) {
    Get(j, "confidence").Some? && Get(j, "confidence").value.JNum?
    && 0.0 <= Get(j, "confidence").value.n <= 100.0
  }

  predicate ValidReasoning(j: Json) {
    Get(j, "reasoning").Some? && Get(j, "reasoning").value.JArr?
  }

  /** The required fields are present and well-typed. */
  predicate WellFormed(j: Json) {
    IsObject(j) && ValidAction(j) && ValidConfidence(j) && ValidReasoning(j)
  }

  /** `netReceived - targetBuyPrice` when both targets are truthy; `None` for `NaN`. */
  function AfterTaxProfit(j: Json): Option<real>
    requires FieldTruthy(j, "targetBuyPrice") && FieldTruthy(j, "targetSellPrice")
  {
    var buy := ToNumber(j.fields["targetBuyPrice"]);
    var sell := ToNumber(j.fields["targetSellPrice"]);
    if buy.Some? && sell.Some? then Some(sell.value * AfterTax - buy.value) else None
  }

  /** Both targets are set and a resale at the target sell price loses coins after tax. */
  predicate Unprofitable(j: Json) {
    && FieldTruthy(j, "targetBuyPrice") && FieldTruthy(j, "targetSellPrice")
    && AfterTaxProfit(j).Some? && AfterTaxProfit(j).value < 0.0
  }

  /** The expected profit the decision reports: the recomputed one when both targets are set. */
  function CorrectedProfit(j: Json): Option<Json> {
    if FieldTruthy(j, "targetBuyPrice") && FieldTruthy(j, "targetSellPrice") then
      match AfterTaxProfit(j)
      case Some(p) => if p != 0.0 then Some(JNum(p)) else None
      case None => None
    else FieldIfTruthy(j, "expectedProfit")
  }

  function Max(a: int, b: int): int {
    if a >= b then a else b
  }

  /** `validateAIResponse` */
  function ValidateAIResponse(aiResponse: Json, player: ContextPlayer): Option<TradingDecision> {
    if !WellFormed(aiResponse) then None
    else
      var confidence := aiResponse.fields["confidence"].n;
      var reasoning := aiResponse.fields["reasoning"].xs;
      var timeframe := FieldOr(aiResponse, "timeframe", JStr(Medium));
      if Unprofitable(aiResponse) then
        Some(TradingDecision(
          player.id, player.eaId, player.name, player.price,
          "hold",
          Max(50, Round(confidence - 20.0)),
          None, None, None,
          [JStr(UnprofitableNote)] + reasoning[..if |reasoning| < 4 then |reasoning| else 4],
          JStr(Medium),
          timeframe))
      else
        Some(TradingDecision(
          player.id, player.eaId, player.name, player.price,
          aiResponse.fields["action"].s,
          Round(confidence),
          FieldIfTruthy(aiResponse, "targetBuyPrice"),
          FieldIfTruthy(aiResponse, "targetSellPrice"),
          CorrectedProfit(aiResponse),
          reasoning[..if |reasoning| < 5 then |reasoning| else 5],
          FieldOr(aiResponse, "riskLevel", JStr(Medium)),
          timeframe))
  }

  /**
   * The answer is rejected exactly when it is not an object, its action is
   * not buy, sell or hold, its confidence is not a number in `[0, 100]`, or
   * its reasoning is not an array.
   */
  lemma RejectsExactly(aiResponse: Json, player: ContextPlayer)
    ensures ValidateAIResponse(aiResponse, player).None? <==>
      || !IsObject(aiResponse)
      || !(aiResponse.JObj? && "action" in aiResponse.fields && aiResponse.fields["action"] in [JStr("buy"), JStr("sell"), JStr("hold")])
      || !(aiResponse.JObj? && "confidence" in aiResponse.fields && aiResponse.fields["confidence"].JNum?
           && 0.0 <= aiResponse.fields["confidence"].n <= 100.0)
      || !(aiResponse.JObj? && "reasoning" in aiResponse.fields && aiResponse.fields["reasoning"].JArr?)
  {
    if aiResponse.JObj? && "action" in aiResponse.fields {
      var a := aiResponse.fields["action"];
      assert a in [JStr("buy"), JStr("sell"), JStr("hold")] <==> a.JStr? && a.s in Actions;
    }
  }

  /** Arrays, `null` and other non-objects are never accepted. */
  lemma OnlyObjectsAccepted(aiResponse: Json, player: ContextPlayer)
    ensures ValidateAIResponse(aiResponse, player).Some? ==> aiResponse.JObj?
  {
  }

  /**
   * A trade that would lose coins after tax becomes a hold: confidence
   * lowered by 20 but not below 50, no targets or profit, the note ahead
   * of the first four reasons, medium risk, and the answer's timeframe or
   * "medium".
   */
  lemma UnprofitableBecomesHold(aiResponse: Json, player: ContextPlayer)
    requires WellFormed(aiResponse) && Unprofitable(aiResponse)
    ensures var d := ValidateAIResponse(aiResponse, player);
      var c := aiResponse.fields["confidence"].n;
      var reasons := aiResponse.fields["reasoning"].xs;
      && d.Some?
      && d.value.action == "hold"
      && d.value.confidence == Max(50, Round(c - 20.0))
      && 50 <= d.value.confidence <= 80
      && d.value.targetBuyPrice.None? && d.value.targetSellPrice.None? && d.value.expectedProfit.None?
      && d.value.reasoning[0] == JStr(UnprofitableNote)
      && d.value.reasoning[1..] == reasons[..if |reasons| < 4 then |reasons| else 4]
      && d.value.riskLevel == JStr(Medium)
      && (FieldTruthy(aiResponse, "timeframe") ==> d.value.timeframe == aiResponse.fields["timeframe"])
      && (!FieldTruthy(aiResponse, "timeframe") ==> d.value.timeframe == JStr(Medium))
  {
  }

  /**
   * Any other well-formed answer keeps its action and truthy targets,
   * rounds its confidence, keeps at most five reasons, and defaults risk
   * and timeframe to "medium".
   */
  lemma OtherwiseKept(aiResponse: Json, player: ContextPlayer)
    requires WellFormed(aiResponse) && !Unprofitable(aiResponse)
    ensures var d := ValidateAIResponse(aiResponse, player);
      var c := aiResponse.fields["confidence"].n;
      var reasons := aiResponse.fields["reasoning"].xs;
      && d.Some?
      && d.value.action == aiResponse.fields["action"].s
      && d.value.confidence == Round(c)
      && 0 <= d.value.confidence <= 100
      && d.value.reasoning == reasons[..if |reasons| < 5 then |reasons| else 5]
      && (FieldTruthy(aiResponse, "targetBuyPrice") ==> d.value.targetBuyPrice == Some(aiResponse.fields["targetBuyPrice"]))
      && (!FieldTruthy(aiResponse, "targetBuyPrice") ==> d.value.targetBuyPrice.None?)
      && (FieldTruthy(aiResponse, "targetSellPrice") ==> d.value.targetSellPrice == Some(aiResponse.fields["targetSellPrice"]))
      && (!FieldTruthy(aiResponse, "targetSellPrice") ==> d.value.targetSellPrice.None?)
      && (FieldTruthy(aiResponse, "riskLevel") ==> d.value.riskLevel == aiResponse.fields["riskLevel"])
      && (!FieldTruthy(aiResponse, "riskLevel") ==> d.value.riskLevel == JStr(Medium))
      && (!FieldTruthy(aiResponse, "timeframe") ==> d.value.timeframe == JStr(Medium))
  {
  }

  /**
   * Every decision is about the context's player, has an action among
   * buy, sell and hold, a confidence in `[0, 100]` and at most five
   * reasons; and a buy or sell with two numeric targets never loses coins
   * after tax.
   */
  lemma DecisionInvariant(aiResponse: Json, player: ContextPlayer)
    ensures var d := ValidateAIResponse(aiResponse, player);
      d.Some? ==>
        && d.value.playerId == player.id && d.value.eaId == player.eaId
        && d.value.action in Actions
        && 0 <= d.value.confidence <= 100
        && |d.value.reasoning| <= 5
        && (d.value.action != "hold" && d.value.targetBuyPrice.Some? && d.value.targetSellPrice.Some?
            && d.value.targetBuyPrice.value.JNum? && d.value.targetSellPrice.value.JNum? ==>
              d.value.targetSellPrice.value.n * AfterTax - d.value.targetBuyPrice.value.n >= 0.0)
  {
    if WellFormed(aiResponse) {
      if Unprofitable(aiResponse) {
        UnprofitableBecomesHold(aiResponse, player);
      } else {
        OtherwiseKept(aiResponse, player);
      }
    }
  }

  /** With both targets numeric, the reported profit is what the sale brings after tax less the buy price, unless that is 0. */
  lemma ProfitRecomputed(aiResponse: Json, player: ContextPlayer)
    requires WellFormed(aiResponse)
    requires FieldTruthy(aiResponse, "targetBuyPrice") && FieldTruthy(aiResponse, "targetSellPrice")
    requires aiResponse.fields["targetBuyPrice"].JNum? && aiResponse.fields["targetSellPrice"].JNum?
    ensures var profit := aiResponse.fields["targetSellPrice"].n * 0.95 - aiResponse.fields["targetBuyPrice"].n;
      var d := ValidateAIResponse(aiResponse, player);
      && d.Some?
      && (profit < 0.0 ==> d.value.action == "hold" && d.value.expectedProfit.None?)
      && (profit > 0.0 ==> d.value.expectedProfit == Some(JNum(profit)) && d.value.action == aiResponse.fields["action"].s)
  {
  }
}
