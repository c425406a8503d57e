/**
 The values the trading-platform library hands to the workflow, and the
 machine-integer conversions the workflow applies to them.

 Every platform call is an input to the model: its reply is a `Result`,
 `Ok(value)` when the call returned no error and `Err` when it did.
 */
module Platform {

  datatype Option<+T> = None | Some(value: T)

  /** The outcome of one platform call. */
  datatype Result<+T> = Ok(value: T) | Err

  type uint16 = x: int | 0 <= x < 0x1_0000
  type uint32 = x: int | 0 <= x < 0x1_0000_0000
  type int64 = x: int | -0x8000_0000_0000_0000 <= x < 0x8000_0000_0000_0000

  const NanosPerSecond: int := 1_000_000_000

  /** Go's conversion `uint16(n)`: keep the low 16 bits. */
  function Truncate16(n: int): (r: uint16)
    ensures 0 <= n < 0x1_0000 ==> r == n
    ensures (n - r) % 0x1_0000 == 0
  {
    n % 0x1_0000
  }

  /** Signed 64-bit two's-complement wrap-around of Go's `int64` arithmetic. */
  function Wrap64(x: int): (r: int64)
    ensures -0x8000_0000_0000_0000 <= x < 0x8000_0000_0000_0000 ==> r == x
    ensures (x - r) % 0x1_0000_0000_0000_0000 == 0
  {
    (x + 0x8000_0000_0000_0000) % 0x1_0000_0000_0000_0000 - 0x8000_0000_0000_0000
  }

  /** `Time.Unix()`: whole seconds of an instant given in Unix nanoseconds, rounded down. */
  function Unix(nanos: int): (s: int)
    ensures s * NanosPerSecond <= nanos < (s + 1) * NanosPerSecond
  {
    nanos / NanosPerSecond
  }

  /** An item as the inventory listing reports it. */
  datatype InventoryItem = InventoryItem(assetId: nat, appId: nat, contextId: nat, amount: int)

  /** An item as it is put into a trade offer; the amount is a 16-bit quantity. */
  datatype EconItem = EconItem(assetId: nat, appId: nat, contextId: nat, amount: uint16)

  /** A pending approval the platform lists after an offer that needs confirmation. */
  datatype Confirmation = Confirmation(id: nat, key: nat, offerId: nat)

  datatype TradeState = Active | Accepted | OtherState

  datatype ConfirmationMethod = NoMethod | Email | MobileApp

  /** A received offer, as the offer listing reports it. */
  datatype TradeOffer = TradeOffer(
    id: nat,
    partner: nat,
    state: TradeState,
    confirmationMethod: ConfirmationMethod,
    sendItems: seq<EconItem>,
    receiveItems: seq<EconItem>)

  /** The arguments of one call to the platform's login. */
  datatype LoginCall = LoginCall(username: string, password: string, sharedSecret: string, offset: int64)
}
