/**
  The fee-floor logic of the consensus package: the header check
  `VerifyEip1559Header` and the base-fee derivation `CalcBaseFee`.
 */
module Eip1559 {

  import opened Wrappers
  import opened PriceOracle

  /** Go's `uint64`, the type of a header's gas limit. */
  type Uint64 = x: int | 0 <= x < 0x1_0000_0000_0000_0000

  /** The header fields these checks read; `baseFee` is the nil-able `*big.Int`. */
  datatype Header = Header(gasLimit: Uint64, baseFee: Option<nat>)

  /** The errors of the header check; `E` is whatever the gas-limit check returns. */
  datatype HeaderError<E> = GasLimitError(cause: E) | MissingBaseFee

  /** One gwei in wei, and the factor of the second scaling step. */
  const GweiScale: nat := 1_000_000_000

  /** The fixed base fee used when no usable price is available: 476190 gwei. */
  const FallbackBaseFee: nat := 476190 * GweiScale

  /**
    `VerifyEip1559Header`: the gas-limit bound check (`verifyGasLimit`, taking
    the parent's and the header's limits) runs first and its error is returned
    as is; then the base fee must be present. Its value is not compared with
    anything.
   */
  function VerifyEip1559Header<E>(parent: Header, header: Header,
                                  verifyGasLimit: (Uint64, Uint64) -> Option<E>): (r: Option<HeaderError<E>>)
    ensures verifyGasLimit(parent.gasLimit, header.gasLimit).Some? ==>
      r == Some(GasLimitError(verifyGasLimit(parent.gasLimit, header.gasLimit).value))
    ensures verifyGasLimit(parent.gasLimit, header.gasLimit).None? && header.baseFee.None? ==>
      r == Some(MissingBaseFee)
    ensures r.None? <==> verifyGasLimit(parent.gasLimit, header.gasLimit).None? && header.baseFee.Some?
  {
    match verifyGasLimit(parent.gasLimit, header.gasLimit)
    case Some(err) => Some(GasLimitError(err))
    case None =>
      if header.baseFee.None? then Some(MissingBaseFee) else None
  }

  /** Two headers that differ only in the value of a present base fee get the
      same verdict. */
  lemma BaseFeeValueIsNotChecked<E>(parent: Header, h1: Header, h2: Header,
                                    verifyGasLimit: (Uint64, Uint64) -> Option<E>)
    requires h1.gasLimit == h2.gasLimit
    requires h1.baseFee.Some? && h2.baseFee.Some?
    ensures VerifyEip1559Header(parent, h1, verifyGasLimit) == VerifyEip1559Header(parent, h2, verifyGasLimit)
  {
  }

  /**
    The decision of `CalcBaseFee` once the price is known. `gwei` stands for
    the float expression `0.99 / price / 21000 * 1e9` truncated to an integer
    (whole gwei per gas unit); its result is scaled by 10^9 after truncation.
   */
  function BaseFeeFromQuote(quote: Quote, gwei: real -> nat): (fee: nat)
    ensures quote.err.Some? || quote.price <= 0.0 ==> fee == FallbackBaseFee
    ensures quote.err.None? && quote.price > 0.0 ==> fee == gwei(quote.price) * GweiScale
    ensures fee % GweiScale == 0
  {
    if quote.err.Some? || quote.price <= 0.0 then FallbackBaseFee
    else gwei(quote.price) * GweiScale
  }

  /** The price `CalcBaseFee` actually uses: present exactly when the response
      decoded, holds an accepted ticker record, and its text scans to a
      positive number. */
  function UsableRate(resp: Response, parse: string -> Option<real>): (rate: Option<real>) {
    if resp.Decoded? then
      match ScanTickers(ListedTickers(resp.top))
      case Some(text) =>
        (match parse(text)
         case Some(v) => if v > 0.0 then Some(v) else None
         case None => None)
      case None => None
    else None
  }

  /** `CalcBaseFee`: fetch the price, then derive the fee from it. */
  function CalcBaseFee(resp: Response, parse: string -> Option<real>, gwei: real -> nat): (fee: nat)
    ensures UsableRate(resp, parse).None? ==> fee == FallbackBaseFee
    ensures UsableRate(resp, parse).Some? ==> fee == gwei(UsableRate(resp, parse).value) * GweiScale
  {
    BaseFeeFromQuote(FetchSepPrice(resp, parse), gwei)
  }

  /**
    Truncation comes before the second scaling: if `gwei` truncates an ideal
    real value `ideal`, the fee is the largest multiple of 10^9 that does not
    exceed `ideal * 10^9`.
   */
  lemma TruncateThenScale(quote: Quote, gwei: real -> nat, ideal: real)
    requires quote.err.None? && quote.price > 0.0
    requires ideal >= 0.0 && gwei(quote.price) == ideal.Floor
    ensures BaseFeeFromQuote(quote, gwei) % GweiScale == 0
    ensures BaseFeeFromQuote(quote, gwei) as real <= ideal * GweiScale as real
    ensures ideal * GweiScale as real < BaseFeeFromQuote(quote, gwei) as real + GweiScale as real
  {
  }

  /** The header check accepts a base fee one wei off the derived one just as
      it accepts the derived one. */
  lemma DerivedFeeIsNotEnforced<E>(parent: Header, header: Header,
                                   verifyGasLimit: (Uint64, Uint64) -> Option<E>,
                                   resp: Response, parse: string -> Option<real>, gwei: real -> nat)
    requires verifyGasLimit(parent.gasLimit, header.gasLimit).None?
    ensures VerifyEip1559Header(parent, header.(baseFee := Some(CalcBaseFee(resp, parse, gwei))), verifyGasLimit).None?
    ensures VerifyEip1559Header(parent, header.(baseFee := Some(CalcBaseFee(resp, parse, gwei) + 1)), verifyGasLimit).None?
  {
  }
}
