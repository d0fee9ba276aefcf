/**
 * The matching rule of `verify_transaction` (adminBot/main.py): a payment
 * counts when the block explorer reports a USDT transfer to the bot's wallet
 * of exactly the expected amount.
 */
module Payment {
  import opened Wrappers
  import opened Text

  /** The `tokenTransferInfo` object the explorer returns for a transaction hash. */
  datatype Transfer = Transfer(symbol: string, toAddress: string, amountStr: string)

  const Asset: string := "USDT"

  /**
   * The string the amount is compared with: the price in micro-units
   * (`int(float(price) * 1e6)`, taken here as already integral) printed in decimal.
   */
  function ExpectedAmount(price: int): string {
    ShowInt(price)
  }

  /** `verify_transaction(hash, price)` given the explorer's answer; `None` is a failed or empty response. */
  predicate VerifyTransaction(info: Option<Transfer>, wallet: string, price: int) {
    && info.Some?
    && info.value.symbol == Asset
    && info.value.toAddress == wallet
    && info.value.amountStr == ExpectedAmount(price)
  }

  /** A verified transfer carries, in decimal, exactly the price it was checked against. */
  lemma VerifiedAmountIsPrice(info: Option<Transfer>, wallet: string, price: int)
    requires VerifyTransaction(info, wallet, price)
    ensures ParseInt(info.value.amountStr) == Some(price)
  {
    ParseShowInt(price);
  }

  /** One transfer cannot pay for two different prices. */
  lemma VerifiedPriceIsUnique(info: Option<Transfer>, wallet: string, p: int, q: int)
    requires VerifyTransaction(info, wallet, p) && VerifyTransaction(info, wallet, q)
    ensures p == q
  {
    ShowIntInjective(p, q);
  }
}
