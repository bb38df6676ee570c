# EIP-1559 fee floor of the consensus package, modelled in Dafny

This project models `node_src/consensus/misc/eip1559.go`, the base-fee logic
of a go-ethereum derived client. Three pieces are modelled, each as pure
functions with lemmas:

- **Header check** (`Eip1559.VerifyEip1559Header`): the gas-limit bound check
  runs first and its error is passed through; then the header must carry a
  base fee. The comparison of the header's base fee with this client's own
  oracle-derived `CalcBaseFee` (eip1559.go:48-56) is commented out, so any
  present value is accepted.
- **Price feed** (`PriceOracle`): `FetchSEPPrice` from the point where the HTTP
  response has been read and decoded. The response is an input (`Response`):
  a transport failure, a body-read failure, a decoding failure, or the decoded
  top-level JSON object (`Json.Json`). The scan of the `"result"` array is a
  first-match search (`ScanTickers`) for an object whose `"s"` is the string
  `"sep_usdt"` and whose `"p"` is a string. Every error is paired with price 0.
  A price text that does not scan gives price 0 and no error.
- **Fee derivation** (`Eip1559.CalcBaseFee`): when the fetch fails or the price
  is not positive, the fee is the fallback 476190 * 10^9 wei. Otherwise it is
  the whole number of gwei per gas unit computed from the price, multiplied
  by 10^9 after truncation, so it is always a multiple of 10^9.

Everything outside Dafny's reach is a parameter:

- `verifyGasLimit: (Uint64, Uint64) -> Option<E>` stands for `VerifyGaslimit`.
  That function is not part of this model.
- `parse: string -> Option<real>` stands for `fmt.Sscanf(priceStr, "%f", &price)`.
  `None` means the scan stored nothing, so the price keeps its zero value.
- `gwei: real -> nat` stands for the float expression `0.99 / price / 21000 * 1e9`
  after conversion to `big.Float` and truncation to an integer. It is not
  claimed to equal any exact real-number formula.

A finite float64 price is written as a Dafny `real`.

Two places where the code does less than its own comments suggest; the
model follows the code:

- The doc comment of `VerifyEip1559Header` (eip1559.go:32-34) lists a
  "basefee check", but the lines that would perform it (48-56) are commented
  out. `DerivedFeeIsNotEnforced` shows that a base fee one wei off the
  derived value is accepted.
- Line 92 ignores the error returned by `fmt.Sscanf`, so an unparsable price
  text yields price 0 with no error. The fee then still falls back, because
  0 is not positive.

## Model

| member | source | states |
|---|---|---|
| `Eip1559.VerifyEip1559Header` | node_src/consensus/misc/eip1559.go:35-59 | a gas-limit error is returned unchanged even when the base fee is nil; with the gas limit accepted, a nil base fee gives the missing-baseFee error; the header is accepted exactly when the gas check passes and a base fee is present |
| `Eip1559.BaseFeeValueIsNotChecked` | node_src/consensus/misc/eip1559.go:44-58 | headers that differ only in the value of a present base fee get the same verdict |
| `Eip1559.DerivedFeeIsNotEnforced` | node_src/consensus/misc/eip1559.go:48-58 | with the gas limit accepted, both the derived fee and the derived fee plus one wei are accepted |
| `PriceOracle.ScanTickers` | node_src/consensus/misc/eip1559.go:87-97 | no result exactly when no element is an object with string "s" equal to "sep_usdt" and string "p"; otherwise the result is the "p" text of the first such element, and every earlier element fails the test |
| `PriceOracle.ScanSkipsPrefix` | node_src/consensus/misc/eip1559.go:87-97 | elements that fail the test are skipped: prepending them does not change the scan's result |
| `PriceOracle.ScanFindsFirst` | node_src/consensus/misc/eip1559.go:87-94 | the first accepted element decides the result whatever follows it |
| `PriceOracle.NonStringPriceIsSkipped` | node_src/consensus/misc/eip1559.go:89-95 | a "sep_usdt" object whose "p" is absent or not a string does not stop the search |
| `PriceOracle.FetchSepPrice` | node_src/consensus/misc/eip1559.go:62-101 | every error comes with price 0; transport, read and decode failures give their own wrapped errors; a decoded response gives "price not found" exactly when "result" is absent, not an array, or holds no accepted element; no error implies the price is the scan of the first accepted element's "p" |
| `PriceOracle.UnparsablePriceIsZero` | node_src/consensus/misc/eip1559.go:90-93 | an accepted record whose price text does not scan yields price 0 and no error |
| `Eip1559.BaseFeeFromQuote` | node_src/consensus/misc/eip1559.go:136-171 | an error or a price of at most 0 gives exactly 476190 * 10^9; otherwise the truncated gwei value times 10^9; every result is a multiple of 10^9 |
| `Eip1559.CalcBaseFee` | node_src/consensus/misc/eip1559.go:135-172 | the fallback branch is taken exactly when the fetch does not produce a record whose price text scans to a positive number (transport, read, decode failures, missing record, unparsable or non-positive price); otherwise that price's truncated gwei value times 10^9 |
| `Eip1559.TruncateThenScale` | node_src/consensus/misc/eip1559.go:156-164 | when the gwei step truncates an ideal value x, the fee is the largest multiple of 10^9 not above x * 10^9 |

## Left out

- The HTTP GET, reading the body and closing it (lines 67-77): network I/O. Their failures are the `GetFailed` and `ReadFailed` inputs.
- `json.Unmarshal` (line 81): a foreign library. Its failure is the `Undecodable` input, and its success is the decoded top-level object. Duplicate keys and number formats are settled by the decoder and not modelled.
- `fmt.Sscanf` float parsing (line 92): abstracted as the `parse` parameter. NaN and infinite prices are not modelled.
- The float expression and its `big.Float` conversion (lines 144-159): abstracted as the `gwei` parameter. So the model does not fix the exact fee for a given price, for example for prices 1.0 or 0.5.
- Finite positive prices so small that `0.99 / price` overflows to infinity (below about 5.5e-309, e.g. "1e-309"): `baseFeeInGwei.Int(nil)` then returns nil and the multiplication at line 164 panics. The model has no crash outcome; for these prices it returns `gwei(price) * 10^9` like any other positive price.
- `VerifyGaslimit`: not part of this model; it is the `verifyGasLimit` parameter.
- The `fmt.Println` logging (line 139).
- The commented-out code at lines 49-56 and 103-128: dead code.
- The `config` parameter of both functions and the `parent` parameter of `CalcBaseFee`: unused by the code. The header fields other than the gas limit and the base fee are not read, so they are not modelled.
