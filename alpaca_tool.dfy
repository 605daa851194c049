/** The symbol conversion of the Alpaca tool: exchange-style crypto symbols
    ("BTCUSDT") become Alpaca's slash form ("BTC/USD"). Whether symbols are
    treated as crypto is fixed when the tool is created, from the configured
    trading symbol, not from the symbol being converted. */
module AlpacaTool {
  import opened Text

  /** `is_crypto`: the configured symbol ends in "USD" or "USDT". */
  predicate IsCrypto(configuredSymbol: string)
  {
    EndsWith(configuredSymbol, "USD") || EndsWith(configuredSymbol, "USDT")
  }

  /** `_convert_symbol`: a converted symbol is its base followed by "/USD",
      where the input was the base followed by "USDT" or "USD"; any other
      symbol comes back unchanged. */
  function ConvertSymbol(isCrypto: bool, symbol: string): (r: string)
    ensures r == symbol || (EndsWith(r, "/USD") && '/' !in symbol && isCrypto)
    ensures r != symbol ==>
      var base := r[..|r| - 4];
      symbol == base + "USDT" || (symbol == base + "USD" && !EndsWith(symbol, "USDT"))
    ensures '/' in symbol || !isCrypto ==> r == symbol
    ensures r != symbol <==> isCrypto && '/' !in symbol && (EndsWith(symbol, "USDT") || EndsWith(symbol, "USD"))
  {
    if '/' in symbol then symbol
    else if isCrypto && EndsWith(symbol, "USDT") then symbol[..|symbol| - 4] + "/USD"
    else if isCrypto && EndsWith(symbol, "USD") then symbol[..|symbol| - 3] + "/USD"
    else symbol
  }

  /** Converting a converted symbol changes nothing. */
  lemma ConvertIdempotent(isCrypto: bool, symbol: string)
    ensures ConvertSymbol(isCrypto, ConvertSymbol(isCrypto, symbol)) == ConvertSymbol(isCrypto, symbol)
  {
    var r := ConvertSymbol(isCrypto, symbol);
    if r != symbol {
      assert r[|r| - 4] == '/';
    }
  }

  /** The docstring's three examples, and ETHUSD from the "USD" branch. */
  lemma ConvertExamples()
    ensures ConvertSymbol(true, "BTCUSDT") == "BTC/USD"
    ensures ConvertSymbol(true, "ETHUSD") == "ETH/USD"
    ensures ConvertSymbol(true, "BTC/USD") == "BTC/USD"
    ensures ConvertSymbol(false, "AAPL") == "AAPL"
  {
    assert EndsWith("BTCUSDT", "USDT");
    assert EndsWith("ETHUSD", "USD") && !EndsWith("ETHUSD", "USDT");
    assert "BTC/USD"[3] == '/';
  }

  /** The crypto flag comes from the configured symbol: a tool configured for
      a stock leaves an exchange-style crypto symbol as it is. */
  lemma CryptoFlagFromConfiguration()
    ensures !IsCrypto("AAPL") && IsCrypto("BTCUSDT")
    ensures ConvertSymbol(IsCrypto("AAPL"), "BTCUSDT") == "BTCUSDT"
  {
    assert EndsWith("BTCUSDT", "USDT");
  }
}
