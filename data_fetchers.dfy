/** The pure parts of the market-data fetchers: the Fear & Greed score
    banding, the mock quotes served when a request fails, and the choice
    between a reply and its fallback. The requests themselves are not
    modelled; what a request returned is a parameter. */
module DataFetchers {
  import opened Outcomes

  // ---------------------------------------------------------------- sentiment

  datatype SentimentLevel = ExtremeFear | Fear | Neutral | Greed | ExtremeGreed

  /** The position of a level on the fear-to-greed scale. */
  function Rank(level: SentimentLevel): nat
  {
    match level
    case ExtremeFear => 0
    case Fear => 1
    case Neutral => 2
    case Greed => 3
    case ExtremeGreed => 4
  }

  /** The if/elif chain of `get_fear_greed_index` (lines 153-162). */
  function LevelOf(score: int): SentimentLevel
  {
    if score <= 24 then ExtremeFear
    else if score <= 44 then Fear
    else if score <= 55 then Neutral
    else if score <= 75 then Greed
    else ExtremeGreed
  }

  /** Each level is reached by exactly its band of scores: at most 24,
      25-44, 45-55, 56-75 and above 75. */
  lemma LevelBands(score: int)
    ensures LevelOf(score) == ExtremeFear <==> score <= 24
    ensures LevelOf(score) == Fear <==> 25 <= score <= 44
    ensures LevelOf(score) == Neutral <==> 45 <= score <= 55
    ensures LevelOf(score) == Greed <==> 56 <= score <= 75
    ensures LevelOf(score) == ExtremeGreed <==> score >= 76
  {
  }

  /** A higher score never gives a more fearful level. */
  lemma LevelMonotone(s1: int, s2: int)
    requires s1 <= s2
    ensures Rank(LevelOf(s1)) <= Rank(LevelOf(s2))
  {
  }

  datatype Sentiment = Sentiment(score: int, level: SentimentLevel)

  /** The mock result returned when the request fails or has no data. */
  const FallbackSentiment: Sentiment := Sentiment(72, Greed)

  /** What the Fear & Greed request produced: an exception (network, HTTP
      status, JSON or `int()` failure), a reply without data, or the latest
      entry with its `value` if it has one. */
  datatype FearGreedReply = RequestFailed | NoData | Latest(value: Option<int>)

  /** `get_fear_greed_index` after the request: the banded score (50 when
      the entry has no value), or the fallback. */
  function FearGreedIndex(reply: FearGreedReply): Sentiment
  {
    match reply
    case Latest(value) =>
      var score := if value.Some? then value.value else 50;
      Sentiment(score, LevelOf(score))
    case _ => FallbackSentiment
  }

  /** Whatever the reply, the level is the band of the score: the fallback
      (72, greed) agrees with the banding too. */
  lemma FearGreedConsistent(reply: FearGreedReply)
    ensures LevelOf(FearGreedIndex(reply).score) == FearGreedIndex(reply).level
    ensures reply == RequestFailed || reply == NoData ==> FearGreedIndex(reply) == Sentiment(72, Greed)
    ensures reply == Latest(None) ==> FearGreedIndex(reply) == Sentiment(50, Neutral)
  {
  }

  // ---------------------------------------------------------------- crypto quotes

  /** A quote as `get_price` returns it; the `Decimal` fields are reals. */
  datatype CryptoQuote = CryptoQuote(price: real, change24h: real, volume24h: real)

  /** The volume every mock quote reports. */
  const MockVolume: real := 1200000000.0

  /** `_get_mock_data` (lines 46-57). */
  function MockCrypto(symbol: string): CryptoQuote
  {
    if symbol == "bitcoin" then CryptoQuote(68420.1, 4.5, MockVolume)
    else if symbol == "ethereum" then CryptoQuote(3892.55, -0.8, MockVolume)
    else CryptoQuote(1000.0, 0.0, MockVolume)
  }

  /** An unknown symbol gets price 1000 and no change; every mock reports
      the same volume of 1200000000. */
  lemma MockCryptoValues(symbol: string)
    ensures MockCrypto(symbol).volume24h == 1200000000.0
    ensures symbol != "bitcoin" && symbol != "ethereum" ==>
      MockCrypto(symbol).price == 1000.0 && MockCrypto(symbol).change24h == 0.0
    ensures symbol == "bitcoin" ==> MockCrypto(symbol).price == 68420.1 && MockCrypto(symbol).change24h == 4.5
    ensures symbol == "ethereum" ==> MockCrypto(symbol).price == 3892.55 && MockCrypto(symbol).change24h == -0.8
  {
  }

  /** `get_price` after the request: `None` for a failed request, otherwise
      the quotes the reply holds by symbol. A failed request falls back to
      the mock; a reply without the symbol gives nothing. */
  function PriceOrMock(symbol: string, reply: Option<map<string, CryptoQuote>>): Option<CryptoQuote>
  {
    match reply
    case None => Some(MockCrypto(symbol))
    case Some(data) => if symbol in data then Some(data[symbol]) else None
  }

  /** The result is missing exactly when the request succeeded without the
      symbol, and a quote that is present comes from the reply or the mock. */
  lemma PriceOrMockCases(symbol: string, reply: Option<map<string, CryptoQuote>>)
    ensures PriceOrMock(symbol, reply).None? <==> reply.Some? && symbol !in reply.value
    ensures reply.None? ==> PriceOrMock(symbol, reply) == Some(MockCrypto(symbol))
    ensures reply.Some? && symbol in reply.value ==> PriceOrMock(symbol, reply) == Some(reply.value[symbol])
  {
  }

  // ---------------------------------------------------------------- S&P 500

  datatype IndexQuote = IndexQuote(price: real, change: real, changePercent: real)

  /** The mock S&P 500 quote (lines 118-123). */
  const MockSp500: IndexQuote := IndexQuote(4132.45, 49.59, 1.2)

  /** `get_sp500_price` after the request: the quote, or the mock when the
      request failed or the `Global Quote` was empty (`None`). */
  function Sp500OrMock(quote: Option<IndexQuote>): (q: IndexQuote)
    ensures quote.None? ==> q == IndexQuote(4132.45, 49.59, 1.2)
    ensures quote.Some? ==> q == quote.value
  {
    if quote.Some? then quote.value else MockSp500
  }
}
