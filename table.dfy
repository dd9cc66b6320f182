/**
 * The mapping from a market-data API record to a row of the coin table
 * (`transformData`), over the record shapes the table page declares.
 */
module Table {
  import opened Wrappers
  import opened Text

  /** A JavaScript number: a finite value, an infinity or NaN. The falsy ones
      are zero (of either sign, which `real` does not tell apart) and NaN. */
  datatype Number = Num(value: real) | Infinity(negative: bool) | NaN

  predicate Truthy(n: Number) {
    (n.Num? && n.value != 0.0) || n.Infinity?
  }

  datatype SparklineIn7d = SparklineIn7d(price: seq<Number>)

  /** One coin record as the API returns it (`ResponseDataType`). */
  datatype ResponseData = ResponseData(
    id: string,
    marketCapRank: Number,
    name: string,
    symbol: string,
    currentPrice: Number,
    priceChangePercentage24h: Number,
    priceChangePercentage7dInCurrency: Option<Number>,
    marketCap: Number,
    image: string,
    totalVolume: Number,
    sparklineIn7d: Option<SparklineIn7d>)

  /** One row of the table (`CryptoDataType`). */
  datatype CryptoData = CryptoData(
    key: string,
    name: string,
    symbol: string,
    price: string,
    priceChange: string,
    priceChange7d: Option<Number>,
    marketCap: string,
    volume: string,
    logo: string,
    sparkline: Option<seq<Number>>)

  /** The host's number formatters, which this model does not define:
      `x.toFixed(2)` and `x.toLocaleString()`. */
  datatype Formatters = Formatters(toFixed2: Number -> string, toLocaleString: Number -> string)

  /** The template `${n ? format(n) : 0}`: the formatted number, or the literal 0 when `n` is falsy. */
  function FormatOrZero(n: Number, format: Number -> string): string {
    if Truthy(n) then format(n) else "0"
  }

  /** The row built for `item` at position `index`. */
  function TransformItem(item: ResponseData, index: nat, fmt: Formatters): (row: CryptoData)
  {
    CryptoData(
      key := if item.id != "" then item.id else DecimalString(index),
      name := item.name,
      symbol := ToUpper(item.symbol),
      price := "$" + FormatOrZero(item.currentPrice, fmt.toFixed2),
      priceChange := FormatOrZero(item.priceChangePercentage24h, fmt.toFixed2) + "%",
      priceChange7d := item.priceChangePercentage7dInCurrency,
      marketCap := "$" + FormatOrZero(item.marketCap, fmt.toLocaleString),
      volume := "$" + FormatOrZero(item.totalVolume, fmt.toLocaleString),
      logo := item.image,
      sparkline := Some(if item.sparklineIn7d.Some? then item.sparklineIn7d.value.price else []))
  }

  /** `transformData(data)`: `data.map((item, index) => ...)`, one row per record, in order. */
  function TransformData(data: seq<ResponseData>, fmt: Formatters): (rows: seq<CryptoData>)
    ensures |rows| == |data|
  {
    seq(|data|, i requires 0 <= i < |data| => TransformItem(data[i], i, fmt))
  }

  /** Row `i` depends on record `i` and on `i` alone: two inputs that agree at
      position `i` give the same row there, whatever else they hold. */
  lemma RowIsLocal(data: seq<ResponseData>, other: seq<ResponseData>, i: nat, fmt: Formatters)
    requires i < |data| && i < |other| && data[i] == other[i]
    ensures TransformData(data, fmt)[i] == TransformData(other, fmt)[i]
  {
  }

  /** The key is the record's id when it has one and otherwise the index written
      in canonical decimal (no leading zero), which reads back as the index; it
      is never empty. */
  lemma KeyAt(data: seq<ResponseData>, i: nat, fmt: Formatters)
    requires i < |data|
    ensures var key := TransformData(data, fmt)[i].key;
      key != "" &&
      (data[i].id != "" ==> key == data[i].id) &&
      (data[i].id == "" ==> IsDigits(key) && DecimalValue(key) == i && (key[0] == '0' ==> key == "0"))
  {
    DecimalRoundTrip(i);
  }

  /** The keys of the rows are pairwise distinct when the ids present are
      pairwise distinct and none of them is made of digits only, so that no
      id can collide with an index written in decimal. */
  lemma {:induction false} KeysDistinct(data: seq<ResponseData>, fmt: Formatters)
    requires forall i :: 0 <= i < |data| && data[i].id != "" ==> !IsDigits(data[i].id)
    requires forall i, j :: 0 <= i < j < |data| && data[i].id != "" ==> data[i].id != data[j].id
    ensures var rows := TransformData(data, fmt);
      forall i, j :: 0 <= i < j < |rows| ==> rows[i].key != rows[j].key
  {
    var rows := TransformData(data, fmt);
    forall i, j | 0 <= i < j < |rows|
      ensures rows[i].key != rows[j].key
    {
      if data[i].id == "" && data[j].id == "" {
        DecimalInjective(i, j);
      }
    }
  }

  /** Name, logo and the 7-day change are copied from the record unchanged. */
  lemma CopiedFieldsAt(data: seq<ResponseData>, i: nat, fmt: Formatters)
    requires i < |data|
    ensures var row := TransformData(data, fmt)[i];
      row.name == data[i].name && row.logo == data[i].image &&
      row.priceChange7d == data[i].priceChangePercentage7dInCurrency
  {
  }

  /** The symbol is the record's symbol in upper case: same length, no lower-case
      letter, and a symbol that is already upper case comes through unchanged. */
  lemma SymbolAt(data: seq<ResponseData>, i: nat, fmt: Formatters)
    requires i < |data|
    ensures var sym := TransformData(data, fmt)[i].symbol;
      sym == ToUpper(data[i].symbol) &&
      |sym| == |data[i].symbol| &&
      (forall k :: 0 <= k < |sym| ==> !IsAsciiLower(sym[k])) &&
      ToUpper(sym) == sym &&
      ((forall k :: 0 <= k < |data[i].symbol| ==> !IsAsciiLower(data[i].symbol[k])) ==> sym == data[i].symbol)
  {
    ToUpperIdempotent(data[i].symbol);
  }

  /** The sparkline is always present: the record's 7-day prices when it has
      them, and the empty series otherwise. */
  lemma SparklineAt(data: seq<ResponseData>, i: nat, fmt: Formatters)
    requires i < |data|
    ensures var line := TransformData(data, fmt)[i].sparkline;
      line.Some? &&
      (data[i].sparklineIn7d.Some? ==> line.value == data[i].sparklineIn7d.value.price) &&
      (data[i].sparklineIn7d.None? ==> line.value == [])
  {
  }

  /** Falsy figures give fixed strings; the others give the formatter's output
      behind the currency sign (or in front of the percent sign). */
  lemma FiguresAt(data: seq<ResponseData>, i: nat, fmt: Formatters)
    requires i < |data|
    ensures var item, row := data[i], TransformData(data, fmt)[i];
      (!Truthy(item.currentPrice) ==> row.price == "$0") &&
      (Truthy(item.currentPrice) ==> row.price == "$" + fmt.toFixed2(item.currentPrice)) &&
      (!Truthy(item.priceChangePercentage24h) ==> row.priceChange == "0%") &&
      (Truthy(item.priceChangePercentage24h) ==>
         row.priceChange == fmt.toFixed2(item.priceChangePercentage24h) + "%") &&
      (!Truthy(item.marketCap) ==> row.marketCap == "$0") &&
      (Truthy(item.marketCap) ==> row.marketCap == "$" + fmt.toLocaleString(item.marketCap)) &&
      (!Truthy(item.totalVolume) ==> row.volume == "$0") &&
      (Truthy(item.totalVolume) ==> row.volume == "$" + fmt.toLocaleString(item.totalVolume))
  {
  }
}
