/**
 * The billing ledger's records and arithmetic: accounts holding purchased
 * funds (`balance_cents`) and a promotional grant (`credit_cents`), both in
 * integer cents; the static per-model rate table; the cost of a request;
 * and the two-bucket debit that spends the credit first.
 */
module Billing {
  import opened Common
  import opened Numerals

  datatype AccountType = Trial | Developer | Business | Enterprise
  {
    /** The enum's string value. */
    function Name(): string
    {
      match this
      case Trial => "trial"
      case Developer => "developer"
      case Business => "business"
      case Enterprise => "enterprise"
    }
  }

  /** `AccountType(value)`; any other string is rejected. */
  function AccountTypeNamed(name: string): (r: Option<AccountType>)
    ensures r.Some? ==> r.value.Name() == name
  {
    if name == "trial" then Some(Trial)
    else if name == "developer" then Some(Developer)
    else if name == "business" then Some(Business)
    else if name == "enterprise" then Some(Enterprise)
    else None
  }

  lemma AccountTypeNamesRoundTrip(t: AccountType)
    ensures AccountTypeNamed(t.Name()) == Some(t)
  {
  }

  datatype PaymentStatus = Pending | Completed | Failed | Refunded
  {
    function Name(): string
    {
      match this
      case Pending => "pending"
      case Completed => "completed"
      case Failed => "failed"
      case Refunded => "refunded"
    }
  }

  /** Times are epoch seconds on the model's clock. */
  datatype Account = Account(
    id: Option<string>,
    userId: string,
    accountType: AccountType,
    balanceCents: int,
    creditCents: int,
    monthlySpendingLimitCents: Option<int>,
    dailySpendingLimitCents: Option<int>,
    totalSpentCents: int,
    monthlySpentCents: int,
    dailySpentCents: int,
    createdAt: int,
    updatedAt: int)
  {
    /** What the account can still pay with. */
    function Funds(): int { balanceCents + creditCents }
  }

  /** `Account(user_id=..., account_type=..., balance_cents=..., credit_cents=..., ...)` with every other field defaulted. */
  function NewAccount(userId: string, accountType: AccountType, balanceCents: int, creditCents: int, now: int): Account
  {
    Account(None, userId, accountType, balanceCents, creditCents, None, None, 0, 0, 0, now, now)
  }

  datatype UsageRecord = UsageRecord(
    id: Option<string>,
    apiKeyId: Option<string>,
    userId: string,
    endpoint: string,
    httpMethod: string,
    promptTokens: int,
    completionTokens: int,
    totalTokens: int,
    costCents: int,
    model: Option<string>,
    timestamp: int)

  datatype BillingRate = BillingRate(model: string, promptPricePer1k: int, completionPricePer1k: int)

  const DefaultModel: string := "gpt-3.5-turbo"

  /** `BillingRate.get_default_rates()`: cents per 1000 tokens. */
  function DefaultRates(): map<string, BillingRate>
  {
    map[
      "gpt-3.5-turbo" := BillingRate("gpt-3.5-turbo", 50, 150),
      "gpt-4" := BillingRate("gpt-4", 3000, 6000),
      "claude-3-sonnet" := BillingRate("claude-3-sonnet", 300, 1500)]
  }

  /** The table has exactly three rows, each filed under its own model name, with positive prices. */
  lemma DefaultRatesTable()
    ensures DefaultRates().Keys == {"gpt-3.5-turbo", "gpt-4", "claude-3-sonnet"}
    ensures forall m :: m in DefaultRates() ==> DefaultRates()[m].model == m
    ensures forall m :: m in DefaultRates() ==>
              DefaultRates()[m].promptPricePer1k > 0 && DefaultRates()[m].completionPricePer1k > 0
    ensures DefaultRates()["gpt-3.5-turbo"] == BillingRate("gpt-3.5-turbo", 50, 150)
    ensures DefaultRates()["gpt-4"] == BillingRate("gpt-4", 3000, 6000)
    ensures DefaultRates()["claude-3-sonnet"] == BillingRate("claude-3-sonnet", 300, 1500)
  {
  }

  /** `rates.get(model, rates["gpt-3.5-turbo"])`. */
  function RateFor(model: string): (r: BillingRate)
    ensures model in DefaultRates() ==> r == DefaultRates()[model]
    ensures model !in DefaultRates() ==> r == DefaultRates()[DefaultModel]
    ensures r.promptPricePer1k > 0 && r.completionPricePer1k > 0
  {
    if model in DefaultRates() then DefaultRates()[model] else DefaultRates()[DefaultModel]
  }

  /**
   * `int(prompt/1000 * prompt_price + completion/1000 * completion_price)`,
   * read as the exact quotient truncated toward zero.
   */
  function Cost(promptTokens: int, completionTokens: int, rate: BillingRate): (cents: int)
    ensures var exact := promptTokens * rate.promptPricePer1k + completionTokens * rate.completionPricePer1k;
            exact >= 0 ==> 0 <= cents && cents * 1000 <= exact < cents * 1000 + 1000
  {
    TruncDiv(promptTokens * rate.promptPricePer1k + completionTokens * rate.completionPricePer1k, 1000)
  }

  /** With non-negative prices, more tokens never cost less. */
  lemma CostMonotone(p1: int, c1: int, p2: int, c2: int, rate: BillingRate)
    requires 0 <= p1 <= p2 && 0 <= c1 <= c2
    requires rate.promptPricePer1k >= 0 && rate.completionPricePer1k >= 0
    ensures 0 <= Cost(p1, c1, rate) <= Cost(p2, c2, rate)
  {
    var e1 := p1 * rate.promptPricePer1k + c1 * rate.completionPricePer1k;
    var e2 := p2 * rate.promptPricePer1k + c2 * rate.completionPricePer1k;
    assert p1 * rate.promptPricePer1k <= p2 * rate.promptPricePer1k by {
      MulMonotone(p1, p2, rate.promptPricePer1k);
    }
    assert c1 * rate.completionPricePer1k <= c2 * rate.completionPricePer1k by {
      MulMonotone(c1, c2, rate.completionPricePer1k);
    }
    assert 0 <= e1 <= e2;
  }

  lemma MulMonotone(a: int, b: int, k: int)
    requires 0 <= a <= b && 0 <= k
    ensures 0 <= a * k <= b * k
  {
  }

  /**
   * `charge_account`'s two branches as one step on the account: when the
   * credit covers the cost it alone pays; otherwise the credit is used up
   * and the balance pays the rest. Every spend counter grows by the cost.
   */
  function Charge(a: Account, cost: int, now: int): (r: Account)
    ensures r.Funds() == a.Funds() - cost
    ensures a.creditCents >= cost ==> r.creditCents == a.creditCents - cost && r.balanceCents == a.balanceCents
    ensures a.creditCents < cost ==> r.creditCents == 0 && r.balanceCents == a.balanceCents - (cost - a.creditCents)
    ensures r.totalSpentCents == a.totalSpentCents + cost
    ensures r.monthlySpentCents == a.monthlySpentCents + cost
    ensures r.dailySpentCents == a.dailySpentCents + cost
    ensures r == a.(balanceCents := r.balanceCents, creditCents := r.creditCents, totalSpentCents := r.totalSpentCents,
                    monthlySpentCents := r.monthlySpentCents, dailySpentCents := r.dailySpentCents, updatedAt := now)
  {
    var spent := a.(totalSpentCents := a.totalSpentCents + cost,
                    monthlySpentCents := a.monthlySpentCents + cost,
                    dailySpentCents := a.dailySpentCents + cost,
                    updatedAt := now);
    if a.creditCents >= cost then spent.(creditCents := a.creditCents - cost)
    else spent.(creditCents := 0, balanceCents := a.balanceCents - (cost - a.creditCents))
  }

  /**
   * A debit never makes the credit negative, never touches the balance while
   * the credit suffices, and takes from the balance only what the credit
   * could not cover.
   */
  lemma ChargeKeepsCreditNonNegative(a: Account, cost: int, now: int)
    requires a.creditCents >= 0 && cost >= 0
    ensures Charge(a, cost, now).creditCents >= 0
    ensures Charge(a, cost, now).creditCents <= a.creditCents
    ensures Charge(a, cost, now).balanceCents <= a.balanceCents
    ensures Charge(a, cost, now).balanceCents < a.balanceCents ==> Charge(a, cost, now).creditCents == 0
  {
  }

  /** Two debits take exactly what one debit of their sum takes, bucket by bucket. */
  lemma {:induction false} ChargeAdditive(a: Account, c1: int, c2: int, t1: int, t2: int)
    requires a.creditCents >= 0 && c1 >= 0 && c2 >= 0
    ensures var twice := Charge(Charge(a, c1, t1), c2, t2);
            var once := Charge(a, c1 + c2, t2);
            twice.creditCents == once.creditCents && twice.balanceCents == once.balanceCents
            && twice.totalSpentCents == once.totalSpentCents && twice == once
  {
  }
}
