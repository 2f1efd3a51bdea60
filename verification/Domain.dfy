/** Values shared by every component: coins, keys, addresses, invoices and transactions. */
module Domain {

  datatype Option<+T> = None | Some(value: T)

  type UserId = nat
  type InvoiceId = nat
  type TxId = nat

  /** A SMALLINT column. */
  type SmallInt = x: int | -0x8000 <= x < 0x8000

  /** The coins that have a processor of their own. */
  datatype BaseCoin = XMR | BTC | LTC | ETH | BNB

  /** The coin column of an invoice: a base coin, a token carried by ETH or BNB, or a coin no processor supports. */
  datatype Coin = Base(base: BaseCoin) | Erc20(symbol: nat) | Bep20(symbol: nat) | Unsupported(symbol: nat)

  /** The only processor whose supportsCoin accepts the coin. */
  function Home(c: Coin): Option<BaseCoin> {
    match c
    case Base(b) => Some(b)
    case Erc20(_) => Some(ETH)
    case Bep20(_) => Some(BNB)
    case Unsupported(_) => None
  }

  /** BTC and LTC share the daemon client that answers with one transaction per id and never reports a double spend. */
  predicate Utxo(b: BaseCoin) {
    b == BTC || b == LTC
  }

  /** Address encodings; ETH and BNB share theirs. */
  datatype Format = FXmr | FBtc | FLtc | FEvm

  function FormatOf(b: BaseCoin): Format {
    match b
    case XMR => FXmr
    case BTC => FBtc
    case LTC => FLtc
    case ETH => FEvm
    case BNB => FEvm
  }

  /** The key material of a user for one coin. */
  datatype Key = Hd(masterPubKey: nat) | Monero(privView: nat, pubSpend: nat)

  /** The last_major_index and last_minor_index columns. */
  datatype Indices = Indices(major: int, minor: int)

  /** An address is the injective image of an encoding, a key and a pair of child indices. */
  datatype Address = Derived(format: Format, key: Key, at: Indices)

  datatype Status = PENDING | PENDING_MEMPOOL | CONFIRMED | EXPIRED

  predicate IsPending(s: Status) {
    s == PENDING || s == PENDING_MEMPOOL
  }

  /** A row of the invoices table. */
  datatype Invoice = Invoice(
    id: InvoiceId,
    address: Address,
    coin: Coin,
    required: int,
    actual: Option<nat>,
    confirmations: SmallInt,
    status: Status,
    expiresAt: int,
    txId: Option<TxId>,
    user: UserId)

  /** A transaction output with the two script address forms that the LTC processor looks at. */
  datatype Output = Output(address: Option<Address>, addresses: seq<Address>, value: nat)
}
