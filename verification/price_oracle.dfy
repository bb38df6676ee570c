/**
  The price feed of `FetchSEPPrice`: the outcome of the HTTP request and of
  JSON decoding is an input, and the model starts from there.
 */
module PriceOracle {

  import opened Wrappers
  import opened Json

  /** The trading-pair symbol the scan looks for. */
  const SepSymbol: string := "sep_usdt"

  /** What the HTTP GET, the body read and `json.Unmarshal` delivered. */
  datatype Response =
    | GetFailed(cause: string)       // http.Get returned an error
    | ReadFailed(cause: string)      // ioutil.ReadAll returned an error
    | Undecodable(cause: string)     // json.Unmarshal returned an error
    | Decoded(top: map<string, Json>) // the top-level object (a JSON null decodes to the empty map)

  /** The errors `FetchSEPPrice` returns; the first three wrap their cause. */
  datatype FetchError =
    | FailedToFetch(cause: string)
    | FailedToReadBody(cause: string)
    | FailedToParseJson(cause: string)
    | PriceNotFound

  /** Go's `(float64, error)` pair; a finite float64 is a real number. */
  datatype Quote = Quote(price: real, err: Option<FetchError>)

  /** A ticker record the scan accepts: an object whose "s" is the string
      "sep_usdt" and whose "p" is a string. */
  predicate IsSepTicker(item: Json) {
    && item.JObject?
    && "s" in item.fields && item.fields["s"] == JString(SepSymbol)
    && "p" in item.fields && item.fields["p"].JString?
  }

  /** The price text of an accepted ticker record. */
  function PriceText(item: Json): (text: string)
    requires IsSepTicker(item)
  {
    item.fields["p"].str
  }

  /** The elements of the top-level "result" field when it is an array; an
      absent or non-array field behaves exactly like an empty one. */
  function ListedTickers(top: map<string, Json>): (items: seq<Json>) {
    if "result" in top && top["result"].JArray? then top["result"].items else []
  }

  /** The first-match search of the `for _, item := range data` loop: the
      price text of the first accepted record, if any. */
  function ScanTickers(items: seq<Json>): (r: Option<string>)
    ensures r.None? <==> forall i :: 0 <= i < |items| ==> !IsSepTicker(items[i])
    ensures r.Some? ==>
      exists i :: 0 <= i < |items| && IsSepTicker(items[i]) && PriceText(items[i]) == r.value
        && forall j :: 0 <= j < i ==> !IsSepTicker(items[j])
  {
    if items == [] then None
    else if IsSepTicker(items[0]) then Some(PriceText(items[0]))
    else
      var r := ScanTickers(items[1..]);
      assert forall j :: 1 <= j < |items| ==> items[j] == items[1..][j - 1];
      r
  }

  /** `fmt.Sscanf(priceStr, "%f", &price)` with its error ignored: when the
      scan fails, `price` keeps its zero value. */
  function ScannedPrice(scanned: Option<real>): (price: real) {
    match scanned
    case Some(v) => v
    case None => 0.0
  }

  /** `FetchSEPPrice` after the network and the decoder; `parse` stands for
      the float scan of the price text. */
  function FetchSepPrice(resp: Response, parse: string -> Option<real>): (q: Quote)
    ensures q.err.Some? ==> q.price == 0.0
    ensures resp.GetFailed? ==> q.err == Some(FailedToFetch(resp.cause))
    ensures resp.ReadFailed? ==> q.err == Some(FailedToReadBody(resp.cause))
    ensures resp.Undecodable? ==> q.err == Some(FailedToParseJson(resp.cause))
    ensures resp.Decoded? ==>
      (q.err == Some(PriceNotFound) <==>
        forall i :: 0 <= i < |ListedTickers(resp.top)| ==> !IsSepTicker(ListedTickers(resp.top)[i]))
    ensures q.err.None? ==> resp.Decoded?
    ensures resp.Decoded? ==> q.err.None? || q.err == Some(PriceNotFound)
    ensures q.err.None? && resp.Decoded? ==>
      exists i :: 0 <= i < |ListedTickers(resp.top)| && IsSepTicker(ListedTickers(resp.top)[i])
        && (forall j :: 0 <= j < i ==> !IsSepTicker(ListedTickers(resp.top)[j]))
        && q.price == ScannedPrice(parse(PriceText(ListedTickers(resp.top)[i])))
  {
    match resp
    case GetFailed(cause) => Quote(0.0, Some(FailedToFetch(cause)))
    case ReadFailed(cause) => Quote(0.0, Some(FailedToReadBody(cause)))
    case Undecodable(cause) => Quote(0.0, Some(FailedToParseJson(cause)))
    case Decoded(top) =>
      match ScanTickers(ListedTickers(top))
      case Some(text) => Quote(ScannedPrice(parse(text)), None)
      case None => Quote(0.0, Some(PriceNotFound))
  }

  /** Records before the first accepted one are skipped, whatever they hold. */
  lemma {:induction false} ScanSkipsPrefix(prefix: seq<Json>, rest: seq<Json>)
    requires forall j :: 0 <= j < |prefix| ==> !IsSepTicker(prefix[j])
    ensures ScanTickers(prefix + rest) == ScanTickers(rest)
  {
    if prefix == [] {
      assert prefix + rest == rest;
    } else {
      var items := prefix + rest;
      assert items[0] == prefix[0] && !IsSepTicker(prefix[0]);
      assert items[1..] == prefix[1..] + rest;
      assert ScanTickers(items) == ScanTickers(items[1..]);
      ScanSkipsPrefix(prefix[1..], rest);
    }
  }

  /** The first accepted record decides the result; later ones are never read. */
  lemma ScanFindsFirst(prefix: seq<Json>, item: Json, rest: seq<Json>)
    requires forall j :: 0 <= j < |prefix| ==> !IsSepTicker(prefix[j])
    requires IsSepTicker(item)
    ensures ScanTickers(prefix + [item] + rest) == Some(PriceText(item))
  {
    assert prefix + [item] + rest == prefix + ([item] + rest);
    ScanSkipsPrefix(prefix, [item] + rest);
  }

  /** A "sep_usdt" record whose "p" is not a string does not stop the search. */
  lemma NonStringPriceIsSkipped(fields: map<string, Json>, rest: seq<Json>)
    requires "s" in fields && fields["s"] == JString(SepSymbol)
    requires "p" !in fields || !fields["p"].JString?
    ensures ScanTickers([JObject(fields)] + rest) == ScanTickers(rest)
  {
    ScanSkipsPrefix([JObject(fields)], rest);
  }

  /** An unparsable price text is not an error: the fetch reports price 0 and
      no error. */
  lemma UnparsablePriceIsZero(resp: Response, parse: string -> Option<real>)
    requires resp.Decoded?
    requires ScanTickers(ListedTickers(resp.top)).Some?
    requires parse(ScanTickers(ListedTickers(resp.top)).value).None?
    ensures FetchSepPrice(resp, parse) == Quote(0.0, None)
  {
  }
}
