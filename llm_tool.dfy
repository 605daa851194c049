/** The response parser of the language-model regime classifier: the model's
    reply is scanned line by line for "REGIME:" and "CONFIDENCE:" lines, the
    regime text is looked up among the five regime names and the confidence
    is clamped to [0, 1]. The model call itself is outside this module; its
    reply text is the input, and Python's `float()` is the parameter
    `parseFloat`, which gives `None` where `float()` raises `ValueError`. */
module LlmTool {
  import opened Common
  import opened Models
  import opened Text

  /** What the scan carries from line to line. */
  datatype Reading = Reading(regimeText: string, confidence: real)

  /** The values used when no line sets them. */
  const Defaults := Reading("UNKNOWN", 0.5)

  const RegimePrefix := "REGIME:"
  const ConfidencePrefix := "CONFIDENCE:"

  /** Both prefixes are upper-case letters followed by one colon. */
  predicate LettersThenColon(prefix: string)
  {
    |prefix| > 0 && prefix[|prefix| - 1] == ':'
    && forall k :: 0 <= k < |prefix| - 1 ==> 'A' <= prefix[k] <= 'Z'
  }

  lemma PrefixesShaped()
    ensures LettersThenColon(RegimePrefix) && LettersThenColon(ConfidencePrefix)
  {
  }

  /** A line's upper-cased form starts with the prefix (the line itself is
      not stripped first). */
  predicate Matches(line: string, prefix: string)
  {
    StartsWith(Upper(line), prefix)
  }

  /** A line that matches a letters-then-colon prefix has its first colon
      exactly where the prefix has it. */
  lemma FirstColonAfterPrefix(line: string, prefix: string)
    requires LettersThenColon(prefix) && Matches(line, prefix)
    ensures ':' in line && IndexOf(line, ':') == |prefix| - 1
  {
    var n := |prefix| - 1;
    assert Upper(line)[n] == prefix[n];
    assert line[n] == ':';
    forall k | 0 <= k < n
      ensures line[k] != ':'
    {
      assert Upper(line)[k] == prefix[k];
    }
  }

  /** `line.split(":", 1)[1].strip()`: the text after the first colon, trimmed. */
  function FieldValue(line: string): string
    requires ':' in line
  {
    Strip(line[IndexOf(line, ':') + 1..])
  }

  /** `float(text)`, falling back to 0.5 when it raises `ValueError`. */
  function ParsedConfidence(text: string, parseFloat: string -> Option<real>): real
  {
    match parseFloat(text)
    case Some(v) => v
    case None => 0.5
  }

  /** One iteration of the scan: a REGIME line sets the regime text, otherwise
      a CONFIDENCE line sets the confidence, otherwise nothing changes. */
  function ReadLine(r: Reading, line: string, parseFloat: string -> Option<real>): Reading
  {
    if Matches(line, RegimePrefix) then
      FirstColonAfterPrefix(line, RegimePrefix);
      r.(regimeText := FieldValue(line))
    else if Matches(line, ConfidencePrefix) then
      FirstColonAfterPrefix(line, ConfidencePrefix);
      r.(confidence := ParsedConfidence(FieldValue(line), parseFloat))
    else r
  }

  /** The scan over the lines, starting from the defaults. */
  function ReadLines(lines: seq<string>, parseFloat: string -> Option<real>): Reading
  {
    if lines == [] then Defaults
    else ReadLine(ReadLines(lines[..|lines| - 1], parseFloat), lines[|lines| - 1], parseFloat)
  }

  /** The upper-case name of each regime. */
  function RegimeName(k: RegimeKind): string
  {
    match k
    case Trending => "TRENDING"
    case Ranging => "RANGING"
    case HighVolatility => "HIGH_VOLATILITY"
    case LowVolatility => "LOW_VOLATILITY"
    case Unknown => "UNKNOWN"
  }

  /** The lookup table from upper-case names to regimes. */
  const RegimeMap: map<string, RegimeKind> := map[
    "TRENDING" := Trending,
    "RANGING" := Ranging,
    "HIGH_VOLATILITY" := HighVolatility,
    "LOW_VOLATILITY" := LowVolatility,
    "UNKNOWN" := Unknown]

  /** `regime_map.get(regime_str.upper(), "UNKNOWN")`: the regime whose name is
      the upper-cased text, and UNKNOWN for any other text. */
  function LookupRegime(text: string): (k: RegimeKind)
    ensures Upper(text) == RegimeName(k) || (k == Unknown && forall kind :: Upper(text) != RegimeName(kind))
  {
    var u := Upper(text);
    if u in RegimeMap then RegimeMap[u] else Unknown
  }

  /** Looking a regime's own name up gives that regime back. */
  lemma LookupName(k: RegimeKind)
    ensures LookupRegime(RegimeName(k)) == k
  {
    match k {
      case Trending => NameFound("TRENDING", Trending);
      case Ranging => NameFound("RANGING", Ranging);
      case HighVolatility => NameFound("HIGH_VOLATILITY", HighVolatility);
      case LowVolatility => NameFound("LOW_VOLATILITY", LowVolatility);
      case Unknown => NameFound("UNKNOWN", Unknown);
    }
  }

  lemma NameFound(n: string, k: RegimeKind)
    requires forall i :: 0 <= i < |n| ==> 'A' <= n[i] <= 'Z' || n[i] == '_'
    requires n in RegimeMap && RegimeMap[n] == k
    ensures LookupRegime(n) == k
  {
    UpperOfCapitals(n);
  }

  /** Looking up ignores letter case: any text that upper-cases to a
      regime's name, "trending" or "Ranging" say, is that regime. */
  lemma LookupIgnoresCase(text: string, k: RegimeKind)
    requires Upper(text) == RegimeName(k)
    ensures LookupRegime(text) == k
  {
    assert RegimeName(k) in RegimeMap && RegimeMap[RegimeName(k)] == k;
  }

  /** `max(0.0, min(1.0, c))`. */
  function Clamp(c: real): (r: real)
    ensures 0.0 <= r <= 1.0
    ensures 0.0 <= c <= 1.0 ==> r == c
    ensures c < 0.0 ==> r == 0.0
    ensures c > 1.0 ==> r == 1.0
  {
    Max(0.0, Min(1.0, c))
  }

  /** The regime the classifier returns for a reply: the lines of the
      stripped reply scanned, the regime looked up, the confidence clamped. */
  function Classified(content: string, parseFloat: string -> Option<real>): (r: MarketRegime)
    ensures WellFormedRegime(r)
    ensures r.volatilityPercentile.None? && r.trendStrength.None?
  {
    var reading := ReadLines(Split(Strip(content), '\n'), parseFloat);
    MarketRegime(LookupRegime(reading.regimeText), Clamp(reading.confidence), None, None)
  }

  /** One pass of the parse loop: the if/elif on the line's prefix. */
  method ScanLine(regimeText: string, confidence: real, line: string, parseFloat: string -> Option<real>)
    returns (regimeText': string, confidence': real)
    ensures Reading(regimeText', confidence') == ReadLine(Reading(regimeText, confidence), line, parseFloat)
  {
    PrefixesShaped();
    regimeText', confidence' := regimeText, confidence;
    if Matches(line, RegimePrefix) {
      FirstColonAfterPrefix(line, RegimePrefix);
      regimeText' := FieldValue(line);
    } else if Matches(line, ConfidencePrefix) {
      FirstColonAfterPrefix(line, ConfidencePrefix);
      match parseFloat(FieldValue(line)) {
        case Some(v) => confidence' := v;
        case None => confidence' := 0.5;
      }
    }
  }

  /** The parse loop over the lines, from the defaults. */
  method ScanLines(lines: seq<string>, parseFloat: string -> Option<real>) returns (regimeText: string, confidence: real)
    ensures Reading(regimeText, confidence) == ReadLines(lines, parseFloat)
  {
    regimeText := "UNKNOWN";
    confidence := 0.5;
    for i := 0 to |lines|
      invariant Reading(regimeText, confidence) == ReadLines(lines[..i], parseFloat)
    {
      assert lines[..i + 1][..i] == lines[..i];
      regimeText, confidence := ScanLine(regimeText, confidence, lines[i], parseFloat);
    }
    assert lines[..|lines|] == lines;
  }

  /** The parsing part of `classify_regime_with_llm`: the stripped reply split
      into lines, the lines scanned, the regime looked up in the table and the
      confidence clamped. */
  method ParseRegimeResponse(content: string, parseFloat: string -> Option<real>) returns (r: MarketRegime)
    ensures r == Classified(content, parseFloat)
  {
    var regimeText, confidence := ScanLines(Split(Strip(content), '\n'), parseFloat);
    var key := Upper(regimeText);
    var regime := if key in RegimeMap then RegimeMap[key] else Unknown;
    r := MarketRegime(regime, Max(0.0, Min(1.0, confidence)), None, None);
  }

  /** The value of a REGIME line is the text after its seventh character. */
  lemma RegimeValue(line: string)
    requires Matches(line, RegimePrefix)
    ensures ':' in line && FieldValue(line) == Strip(line[7..])
  {
    FirstColonAfterPrefix(line, RegimePrefix);
  }

  /** The value of a CONFIDENCE line is the text after its eleventh character. */
  lemma ConfidenceValue(line: string)
    requires Matches(line, ConfidencePrefix)
    ensures ':' in line && FieldValue(line) == Strip(line[11..])
  {
    FirstColonAfterPrefix(line, ConfidencePrefix);
  }

  /** No line matches both prefixes. */
  lemma PrefixesExclusive(line: string)
    ensures !(Matches(line, RegimePrefix) && Matches(line, ConfidencePrefix))
  {
    if Matches(line, RegimePrefix) {
      assert Upper(line)[0] == 'R';
    }
  }

  /** With no REGIME line, the regime text stays "UNKNOWN". */
  lemma {:induction false} RegimeDefault(lines: seq<string>, parseFloat: string -> Option<real>)
    requires forall j :: 0 <= j < |lines| ==> !Matches(lines[j], RegimePrefix)
    ensures ReadLines(lines, parseFloat).regimeText == "UNKNOWN"
  {
    if lines != [] {
      RegimeDefault(lines[..|lines| - 1], parseFloat);
    }
  }

  /** With no CONFIDENCE line, the confidence stays 0.5. */
  lemma {:induction false} ConfidenceDefault(lines: seq<string>, parseFloat: string -> Option<real>)
    requires forall j :: 0 <= j < |lines| ==> !Matches(lines[j], ConfidencePrefix)
    ensures ReadLines(lines, parseFloat).confidence == 0.5
  {
    if lines != [] {
      ConfidenceDefault(lines[..|lines| - 1], parseFloat);
    }
  }

  /** The last REGIME line decides the regime text, whatever came before. */
  lemma {:induction false} LastRegimeLineWins(lines: seq<string>, i: int, parseFloat: string -> Option<real>)
    requires 0 <= i < |lines| && Matches(lines[i], RegimePrefix)
    requires forall j :: i < j < |lines| ==> !Matches(lines[j], RegimePrefix)
    ensures ':' in lines[i] && ReadLines(lines, parseFloat).regimeText == FieldValue(lines[i])
  {
    FirstColonAfterPrefix(lines[i], RegimePrefix);
    if i < |lines| - 1 {
      LastRegimeLineWins(lines[..|lines| - 1], i, parseFloat);
    }
  }

  /** The last CONFIDENCE line decides the confidence: its parsed value, or
      0.5 when its value does not parse. */
  lemma {:induction false} LastConfidenceLineWins(lines: seq<string>, i: int, parseFloat: string -> Option<real>)
    requires 0 <= i < |lines| && Matches(lines[i], ConfidencePrefix)
    requires forall j :: i < j < |lines| ==> !Matches(lines[j], ConfidencePrefix)
    ensures ':' in lines[i]
    ensures var c := ReadLines(lines, parseFloat).confidence;
      match parseFloat(FieldValue(lines[i]))
      case Some(v) => c == v
      case None => c == 0.5
  {
    FirstColonAfterPrefix(lines[i], ConfidencePrefix);
    PrefixesExclusive(lines[i]);
    if i < |lines| - 1 {
      LastConfidenceLineWins(lines[..|lines| - 1], i, parseFloat);
    }
  }
}
