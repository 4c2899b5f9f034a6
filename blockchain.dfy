/**
 * The mock ledger: every "transaction" is a fresh random 64-digit hex hash
 * with a random block number on the Mumbai test network; nothing is sent
 * anywhere. The random draws (`Math.random()`, a real in [0, 1)) and the
 * clock reading are parameters.
 */
module Blockchain {
  import opened Wrappers

  const HexDigits: string := "0123456789abcdef"
  const PolygonscanBase: string := "https://mumbai.polygonscan.com/tx/"
  const BaseBlock: int := 30000000
  const BlockSpread: int := 1000000

  /** How many hex digits follow the `0x` of a hash. */
  const HashDigits: nat := 64

  predicate IsRandomDraw(r: real)
  {
    0.0 <= r < 1.0
  }

  predicate IsLowerHexDigit(c: char)
  {
    ('0' <= c <= '9') || ('a' <= c <= 'f')
  }

  /** `Math.floor(r * n)` for a draw `r`: an index below `n`. */
  function ScaledDraw(r: real, n: nat): (k: nat)
    requires IsRandomDraw(r) && n > 0
    ensures k < n
    ensures k as real <= r * n as real < k as real + 1.0
  {
    var x := r * n as real;
    assert 0.0 <= x < n as real by {
      assert x == n as real - (1.0 - r) * n as real;
      assert (1.0 - r) * n as real > 0.0;
      assert r * n as real >= 0.0;
    }
    x.Floor
  }

  lemma HexDigitsAreLowerHex(k: nat)
    requires k < 16
    ensures IsLowerHexDigit(HexDigits[k])
  {
  }

  /**
   * `generateTxHash`: `0x` followed by 64 characters, the i-th drawn from
   * `0123456789abcdef` with the i-th random draw.
   */
  method GenerateTxHash(draws: seq<real>) returns (hash: string)
    requires |draws| == HashDigits
    requires forall i :: 0 <= i < |draws| ==> IsRandomDraw(draws[i])
    ensures |hash| == 2 + HashDigits && hash[..2] == "0x"
    ensures forall i :: 0 <= i < HashDigits ==> hash[2 + i] == HexDigits[ScaledDraw(draws[i], 16)]
    ensures forall i :: 2 <= i < |hash| ==> IsLowerHexDigit(hash[i])
  {
    hash := "0x";
    var i := 0;
    while i < HashDigits
      invariant 0 <= i <= HashDigits
      invariant |hash| == 2 + i && hash[..2] == "0x"
      invariant forall k :: 0 <= k < i ==> hash[2 + k] == HexDigits[ScaledDraw(draws[k], 16)]
      invariant forall k :: 2 <= k < |hash| ==> IsLowerHexDigit(hash[k])
    {
      var d := ScaledDraw(draws[i], |HexDigits|);
      HexDigitsAreLowerHex(d);
      hash := hash + [HexDigits[d]];
      i := i + 1;
    }
  }

  /** `generateBlockNumber`: 30,000,000 plus a random offset below 1,000,000. */
  function GenerateBlockNumber(draw: real): (n: int)
    requires IsRandomDraw(draw)
    ensures BaseBlock <= n < BaseBlock + BlockSpread
  {
    BaseBlock + ScaledDraw(draw, BlockSpread)
  }

  /** `verifyTransaction`: the hash starts with `0x` and is 66 characters long. */
  predicate VerifyTransaction(hash: string)
  {
    |hash| >= 2 && hash[..2] == "0x" && |hash| == 66
  }

  /** `verifyTransaction` looks only at the prefix and the length: non-hex digits pass. */
  lemma VerifyAcceptsAnyDigits(digits: string)
    requires |digits| == HashDigits
    ensures VerifyTransaction("0x" + digits)
  {
    assert ("0x" + digits)[..2] == "0x";
  }

  /**
   * The shortened display form `<first 6>...<last 4>` of a hash; like
   * `slice`, each end takes the whole string when it is shorter than that.
   */
  function ShortHash(hash: string): (r: string)
    ensures |hash| >= 6 ==> |r| == 13 && r[..6] == hash[..6] && r[6..9] == "..." && r[9..] == hash[|hash| - 4..]
    ensures 4 <= |hash| < 6 ==> r == hash + "..." + hash[|hash| - 4..]
    ensures |hash| < 4 ==> r == hash + "..." + hash
  {
    (if |hash| >= 6 then hash[..6] else hash) + "..." + (if |hash| >= 4 then hash[|hash| - 4..] else hash)
  }

  datatype Transaction<D> = Transaction(
    hash: string,
    hashShort: string,
    blockNumber: int,
    timestamp: int,
    transactionType: string,
    data: D,
    polygonscanUrl: string)

  /**
   * `generateTransaction`: a fresh hash, its short form, a block number, the
   * current time, the given type and data, and the explorer link for the hash.
   * Every generated transaction passes `verifyTransaction`.
   */
  method GenerateTransaction<D>(transactionType: string, data: D, hashDraws: seq<real>, blockDraw: real, now: int)
    returns (tx: Transaction<D>)
    requires |hashDraws| == HashDigits
    requires forall i :: 0 <= i < |hashDraws| ==> IsRandomDraw(hashDraws[i])
    requires IsRandomDraw(blockDraw)
    ensures VerifyTransaction(tx.hash)
    ensures forall i :: 2 <= i < |tx.hash| ==> IsLowerHexDigit(tx.hash[i])
    ensures |tx.hashShort| == 13 && tx.hashShort == tx.hash[..6] + "..." + tx.hash[62..]
    ensures BaseBlock <= tx.blockNumber < BaseBlock + BlockSpread
    ensures tx.timestamp == now && tx.transactionType == transactionType && tx.data == data
    ensures tx.polygonscanUrl == PolygonscanBase + tx.hash
  {
    var hash := GenerateTxHash(hashDraws);
    var blockNumber := GenerateBlockNumber(blockDraw);
    tx := Transaction(hash, ShortHash(hash), blockNumber, now, transactionType, data, PolygonscanBase + hash);
  }

  /**
   * The payloads of the five kinds of record the application mints; `A` is
   * whatever the caller attaches as farmer details or payment parties.
   */
  datatype TxData<A> =
    | CropRegistration(productId: string, farmer: A)
    | StatusChange(shipmentId: string, status: string, location: Option<string>)
    | PaymentEscrowData(paymentId: string, amount: int, parties: A)
    | PaymentReleaseData(paymentId: string, recipient: string)
    | TrustScoreChange(userId: string, oldScore: int, newScore: int)
  {
    /** The transaction type the record is minted under. */
    function TypeTag(): string
    {
      match this
      case CropRegistration(_, _) => "crop_registration"
      case StatusChange(_, _, _) => "status_update"
      case PaymentEscrowData(_, _, _) => "payment_escrow"
      case PaymentReleaseData(_, _) => "payment_release"
      case TrustScoreChange(_, _, _) => "trust_update"
    }

    /** The `event` field carried inside the payload. */
    function EventName(): string
    {
      match this
      case CropRegistration(_, _) => "crop_registered"
      case StatusChange(_, _, _) => "status_changed"
      case PaymentEscrowData(_, _, _) => "escrow_created"
      case PaymentReleaseData(_, _) => "payment_released"
      case TrustScoreChange(_, _, _) => "trust_score_updated"
    }
  }

  /**
   * Records of different kinds are minted under different transaction types
   * and carry different event names, so either one tells the kind.
   */
  lemma TypeTagIdentifiesKind<A>(a: TxData<A>, b: TxData<A>)
    ensures a.EventName() == b.EventName() <==> a.TypeTag() == b.TypeTag()
    ensures a.TypeTag() == b.TypeTag() <==>
      (a.CropRegistration? && b.CropRegistration?) || (a.StatusChange? && b.StatusChange?) ||
      (a.PaymentEscrowData? && b.PaymentEscrowData?) || (a.PaymentReleaseData? && b.PaymentReleaseData?) ||
      (a.TrustScoreChange? && b.TrustScoreChange?)
  {
  }

  /**
   * `mintCropRegistration`, `mintStatusUpdate`, `mintPaymentEscrow`,
   * `mintPaymentRelease`, `mintTrustScoreUpdate`: a transaction of the
   * payload's type that carries the payload.
   */
  method Mint<A>(payload: TxData<A>, hashDraws: seq<real>, blockDraw: real, now: int)
    returns (tx: Transaction<TxData<A>>)
    requires |hashDraws| == HashDigits
    requires forall i :: 0 <= i < |hashDraws| ==> IsRandomDraw(hashDraws[i])
    requires IsRandomDraw(blockDraw)
    ensures VerifyTransaction(tx.hash)
    ensures tx.transactionType == payload.TypeTag() && tx.data == payload
    ensures tx.timestamp == now && tx.polygonscanUrl == PolygonscanBase + tx.hash
  {
    tx := GenerateTransaction(payload.TypeTag(), payload, hashDraws, blockDraw, now);
  }
}
