/** Slips, transactions and blocks, with the figures that are derived from a transaction alone. */
module Types {
  import opened Sums

  datatype Option<+T> = None | Some(value: T)

  datatype Result<+T> = Ok(value: T) | Err(message: string)

  /** Keys and hashes are fixed-width byte arrays in the source; here they are numbers and 0 is the all-zero array. */
  type PublicKey = nat
  type Hash = nat
  type Currency = nat

  const BURN_KEY: PublicKey := 0

  const TRANSACTION_SIZE := 93
  const SLIP_SIZE := 59
  const HOP_SIZE := 130
  const TICKET_SIZE := 97

  datatype SlipType =
    | Normal | ATR | VipInput | VipOutput | MinerInput | MinerOutput
    | RouterInput | RouterOutput | BlockStake | Bound

  /**
   * A slip. The utxoset key is the fixed-width concatenation of exactly these six fields, so the
   * slip value itself serves as the key.
   */
  datatype Slip = Slip(
    publicKey: PublicKey,
    amount: Currency,
    slipIndex: nat,
    blockId: nat,
    txOrdinal: nat,
    kind: SlipType)

  datatype TransactionType = Normal | Fee | GoldenTicket | ATR | Vip | SPV | Issuance | BlockStake | Bound

  datatype Hop = Hop(sender: PublicKey, receiver: PublicKey)

  /** The data field: opaque bytes, a golden ticket, or (in a rebroadcast) the original transaction. */
  datatype Payload =
    | Bytes(length: nat)
    | Ticket(target: Hash, random: Hash, solver: PublicKey)
    | Wrapped(original: Transaction)

  datatype Transaction = Transaction(
    kind: TransactionType,
    timestamp: nat,
    inputs: seq<Slip>,
    outputs: seq<Slip>,
    data: Payload,
    path: seq<Hop>,
    replacements: nat,
    signature: nat)

  /** How many ordinals a transaction takes up: a placeholder as many as it replaces. */
  function Spans(tx: Transaction): nat {
    if tx.kind.SPV? then tx.replacements else 1
  }

  /** Bound slips carry no value. */
  function Value(s: Slip): Currency {
    if s.kind.Bound? then 0 else s.amount
  }

  function Values(slips: seq<Slip>): Currency {
    Along(slips, Value)
  }

  /** total_fees of a transaction: zero when the outputs exceed the inputs. */
  function FeeOf(tx: Transaction): Currency {
    var (paid, created) := (Values(tx.inputs), Values(tx.outputs));
    if paid > created then paid - created else 0
  }

  function SerializedSize(tx: Transaction): nat {
    TRANSACTION_SIZE + SLIP_SIZE * |tx.inputs| + SLIP_SIZE * |tx.outputs| + HOP_SIZE * |tx.path|
    + PayloadSize(tx.data)
  }

  function PayloadSize(p: Payload): nat {
    match p
    case Bytes(n) => n
    case Ticket(_, _, _) => TICKET_SIZE
    case Wrapped(tx) => SerializedSize(tx)
  }

  /** The 22 figures of a block that `validate` recomputes and compares. */
  datatype Figures = Figures(
    totalFees: Currency, totalFeesNew: Currency, totalFeesAtr: Currency, totalFeesCumulative: Currency,
    avgTotalFees: Currency, avgTotalFeesNew: Currency, avgTotalFeesAtr: Currency,
    payoutRouting: Currency, payoutMining: Currency, payoutTreasury: Currency,
    payoutGraveyard: Currency, payoutAtr: Currency,
    avgPayoutRouting: Currency, avgPayoutMining: Currency, avgPayoutTreasury: Currency,
    avgPayoutGraveyard: Currency, avgPayoutAtr: Currency,
    avgFeePerByte: Currency, feePerByte: Currency, avgNolanRebroadcast: Currency,
    burnfee: Currency, difficulty: nat)

  datatype Block = Block(
    id: nat,
    timestamp: nat,
    previousHash: Hash,
    creator: PublicKey,
    merkleRoot: Hash,
    treasury: Currency,
    graveyard: Currency,
    previousUnpaid: Currency,
    figures: Figures,
    transactions: seq<Transaction>)

  predicate HasGoldenTicket(txs: seq<Transaction>) {
    exists i :: 0 <= i < |txs| && txs[i].kind.GoldenTicket?
  }

  /**
   * What the model leaves open: the genesis period, the floating-point caps (1.5 times an average,
   * 5% of the treasury), the burn-fee curve, the hash of a 32-byte value, and the verdict of
   * `Transaction::validate` on a transaction against a utxoset.
   */
  datatype Rules = Rules(
    genesisPeriod: nat,
    feeCap: Currency -> Currency,
    treasuryShare: Currency -> Currency,
    nextBurnfee: (Currency, nat, nat) -> Currency,
    rehash: Hash -> Hash,
    validates: (Transaction, set<Slip>) -> bool)
  {
    predicate Valid() {
      genesisPeriod > 0 && treasuryShare(0) == 0
    }
  }
}
