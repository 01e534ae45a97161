/** What identifies a basket row, and the states it can be in. */
module Baskets {
  datatype Action = OPEN | CLOSE

  datatype BasketKey = BasketKey(accountId: nat, tradeId: string, action: Action)

  datatype BasketState = PENDING | EXECUTING | OPENED | CLOSED | UNWINDING | COMPENSATED | CRITICAL | RECOVERED
}
