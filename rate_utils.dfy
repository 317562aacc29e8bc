/**
 * The rate normaliser and the pair calculator (utils/rateUtils.ts).
 *
 * Upstream publishes one quote per currency against the US dollar, under keys
 * such as `USDTWD`. The normaliser anchors on `USDTWD` and turns the quotes into
 * a table of "New Taiwan dollars per unit of currency"; the calculator divides
 * two entries of that table. Rates are exact `real`s, and JavaScript's
 * truthiness of a number is "present and non-zero".
 */
module RateUtils {
  import opened Wrappers
  import opened Constants

  /** One upstream entry, `json[key]`; its `Exrate` field may be missing. */
  datatype Quote = Quote(exrate: Option<real>)

  /** The parsed upstream document, keyed by pivot code followed by currency code. */
  type Document = map<string, Quote>

  /** What the HTTP request produced: a non-2xx answer, or a parsed body. */
  datatype FetchOutcome = NotOk | Ok(doc: Document)

  /** The two errors `fetchRates` throws. */
  datatype RateError = FetchFailed | AnchorMissing

  /** Currency code to New Taiwan dollars per unit of that currency. */
  type RateTable = map<string, real>

  /** The key that anchors the table: the pivot's quote of the base currency. */
  const AnchorKey: string := "USDTWD"

  /** The message the thrown `Error` carries. */
  function Message(e: RateError): string
  {
    match e
    case FetchFailed => "Failed to fetch rates"
    case AnchorMissing => "USDTWD not found"
  }

  /** `json[key]?.Exrate` when it is truthy, that is, present and non-zero. */
  function TruthyExrate(doc: Document, key: string): Option<real>
  {
    if key in doc && doc[key].exrate.Some? && doc[key].exrate.value != 0.0 then
      Some(doc[key].exrate.value)
    else
      None
  }

  /** The normaliser gives `cur` an entry: it is the base, or upstream quotes it. */
  predicate Quoted(doc: Document, cur: string)
  {
    cur == Base || TruthyExrate(doc, Pivot + cur).Some?
  }

  /** The entry the normaliser writes for a quoted currency. */
  function UnitValue(doc: Document, usdtwd: real, cur: string): real
    requires Quoted(doc, cur)
  {
    if cur == Base then 1.0 else usdtwd / TruthyExrate(doc, Pivot + cur).value
  }

  /** The table the normaliser has built once it has visited the codes `curs`. */
  function TableOver(doc: Document, usdtwd: real, curs: seq<string>): RateTable
  {
    map cur | cur in curs && Quoted(doc, cur) :: UnitValue(doc, usdtwd, cur)
  }

  /**
   * What `fetchRates` returns or throws, as a function of the fetch outcome:
   * the reference definition the loop in FetchRates is proved against.
   */
  function Normalise(upstream: FetchOutcome): Result<RateTable, RateError>
  {
    match upstream
    case NotOk => Failure(FetchFailed)
    case Ok(doc) =>
      match TruthyExrate(doc, AnchorKey)
      case None => Failure(AnchorMissing)
      case Some(usdtwd) => Success(TableOver(doc, usdtwd, Currencies))
  }

  /** Visiting one more code adds its entry when it is quoted and nothing otherwise. */
  lemma TableOverSnoc(doc: Document, usdtwd: real, curs: seq<string>, cur: string)
    ensures TableOver(doc, usdtwd, curs + [cur]) ==
      if Quoted(doc, cur) then TableOver(doc, usdtwd, curs)[cur := UnitValue(doc, usdtwd, cur)]
      else TableOver(doc, usdtwd, curs)
  {
    var longer := TableOver(doc, usdtwd, curs + [cur]);
    var shorter := TableOver(doc, usdtwd, curs);
    forall c ensures c in longer <==> (c in curs && Quoted(doc, c)) || (c == cur && Quoted(doc, cur)) {
      assert c in curs + [cur] <==> c in curs || c == cur;
    }
  }

  /** `fetchRates` after the HTTP request: checks, anchors, then fills the table in a loop. */
  method FetchRates(upstream: FetchOutcome) returns (r: Result<RateTable, RateError>)
    ensures r == Normalise(upstream)
  {
    if upstream.NotOk? {
      return Failure(FetchFailed);
    }
    var doc := upstream.doc;
    var anchor := TruthyExrate(doc, AnchorKey);
    if anchor.None? {
      return Failure(AnchorMissing);
    }
    var usdtwd := anchor.value;
    var rates: RateTable := map[];
    for i := 0 to |Currencies|
      invariant rates == TableOver(doc, usdtwd, Currencies[..i])
    {
      var cur := Currencies[i];
      TableOverSnoc(doc, usdtwd, Currencies[..i], cur);
      assert Currencies[..i + 1] == Currencies[..i] + [cur];
      if cur == "TWD" {
        rates := rates["TWD" := 1.0];
      } else {
        var usdCur := TruthyExrate(doc, "USD" + cur);
        if usdCur.Some? {
          rates := rates[cur := usdtwd / usdCur.value];
        }
      }
    }
    assert Currencies[..|Currencies|] == Currencies;
    return Success(rates);
  }

  /** `getExchangeRate`: units of `to` per unit of `from`, or null. */
  function GetExchangeRate(from: string, to: string, rates: RateTable): (r: Option<real>)
    ensures r.Some? <==> from in rates && to in rates && rates[from] != 0.0 && rates[to] != 0.0
    ensures r.Some? ==> r.value * rates[to] == rates[from] && r.value != 0.0
  {
    if from in rates && to in rates && rates[from] != 0.0 && rates[to] != 0.0 then
      Some(rates[from] / rates[to])
    else
      None
  }

  // Properties of the normaliser

  /** A failed request throws "Failed to fetch rates" and yields no table. */
  lemma NormaliseFetchFailure()
    ensures Normalise(NotOk) == Failure(FetchFailed)
    ensures Message(FetchFailed) == "Failed to fetch rates"
  {
  }

  /** The table fails to anchor exactly when `USDTWD.Exrate` is missing or zero. */
  lemma NormaliseAnchorMissing(doc: Document)
    ensures Normalise(Ok(doc)).Failure? <==> TruthyExrate(doc, AnchorKey).None?
    ensures Normalise(Ok(doc)).Failure? ==> Normalise(Ok(doc)).error == AnchorMissing
    ensures Message(AnchorMissing) == "USDTWD not found"
  {
  }

  /** On success the base currency is exactly 1, whatever upstream says about it. */
  lemma NormaliseBaseIsOne(doc: Document)
    requires Normalise(Ok(doc)).Success?
    ensures Base in Normalise(Ok(doc)).value && Normalise(Ok(doc)).value[Base] == 1.0
  {
    CurrenciesHoldBaseAndPivot();
  }

  /** A supported currency that upstream quotes gets the anchor divided by its quote. */
  lemma NormaliseQuoted(doc: Document, cur: string)
    requires Normalise(Ok(doc)).Success?
    requires cur in Currencies && cur != Base && TruthyExrate(doc, Pivot + cur).Some?
    ensures cur in Normalise(Ok(doc)).value
    ensures Normalise(Ok(doc)).value[cur] ==
      TruthyExrate(doc, AnchorKey).value / TruthyExrate(doc, Pivot + cur).value
  {
  }

  /**
   * Omission and domain: a currency other than the base that upstream does not
   * quote (or quotes as zero) is absent, no key outside the supported list
   * appears, and no entry is zero.
   */
  lemma NormaliseDomain(doc: Document)
    requires Normalise(Ok(doc)).Success?
    ensures forall cur :: cur in Normalise(Ok(doc)).value <==>
      cur in Currencies && (cur == Base || TruthyExrate(doc, Pivot + cur).Some?)
    ensures forall cur :: cur in Normalise(Ok(doc)).value ==> Normalise(Ok(doc)).value[cur] != 0.0
  {
    var table := Normalise(Ok(doc)).value;
    var usdtwd := TruthyExrate(doc, AnchorKey).value;
    forall cur | cur in table ensures table[cur] != 0.0 {
      if cur != Base {
        var q := TruthyExrate(doc, Pivot + cur).value;
        assert table[cur] == usdtwd / q;
        assert usdtwd / q * q == usdtwd;
      }
    }
  }

  /**
   * The quote upstream gives for a currency in a normalised table, reading the
   * base currency's quote from the anchor: for every entry, it is its own key's quote.
   */
  lemma NormalisedQuote(doc: Document, cur: string)
    requires Normalise(Ok(doc)).Success? && cur in Normalise(Ok(doc)).value
    ensures TruthyExrate(doc, Pivot + cur).Some?
    ensures Normalise(Ok(doc)).value[cur] ==
      TruthyExrate(doc, AnchorKey).value / TruthyExrate(doc, Pivot + cur).value
  {
    assert Pivot + Base == AnchorKey;
    var usdtwd := TruthyExrate(doc, AnchorKey).value;
    if cur == Base {
      assert usdtwd / usdtwd == 1.0;
    }
  }

  // Properties of the calculator

  /** A present, non-zero currency converts to itself at exactly 1. */
  lemma SelfRateIsOne(c: string, rates: RateTable)
    requires c in rates && rates[c] != 0.0
    ensures GetExchangeRate(c, c, rates) == Some(1.0)
  {
  }

  /** There is no `from == to` shortcut: an absent or zero currency is null even against itself. */
  lemma SelfRateOfUnknownIsNull(c: string, rates: RateTable)
    requires c !in rates || rates[c] == 0.0
    ensures GetExchangeRate(c, c, rates) == None
  {
  }

  /** A rate and its reverse multiply to 1 whenever both exist. */
  lemma Reciprocal(a: string, b: string, rates: RateTable)
    requires GetExchangeRate(a, b, rates).Some?
    ensures GetExchangeRate(b, a, rates).Some?
    ensures GetExchangeRate(a, b, rates).value * GetExchangeRate(b, a, rates).value == 1.0
  {
    var x, y := rates[a], rates[b];
    assert x / y * (y / x) == (x * y) / (y * x);
  }

  /**
   * Composition: over a normalised table, converting `a` to `b` divides `b`'s
   * upstream quote by `a`'s; the anchor cancels out.
   */
  lemma RateFromQuotes(doc: Document, a: string, b: string)
    requires Normalise(Ok(doc)).Success?
    requires a in Normalise(Ok(doc)).value && b in Normalise(Ok(doc)).value
    ensures TruthyExrate(doc, Pivot + a).Some? && TruthyExrate(doc, Pivot + b).Some?
    ensures GetExchangeRate(a, b, Normalise(Ok(doc)).value) ==
      Some(TruthyExrate(doc, Pivot + b).value / TruthyExrate(doc, Pivot + a).value)
  {
    var table := Normalise(Ok(doc)).value;
    NormaliseDomain(doc);
    NormalisedQuote(doc, a);
    NormalisedQuote(doc, b);
    var u := TruthyExrate(doc, AnchorKey).value;
    var qa, qb := TruthyExrate(doc, Pivot + a).value, TruthyExrate(doc, Pivot + b).value;
    assert table[a] == u / qa && table[b] == u / qb;
    QuotientOfQuotients(u, qa, qb);
  }

  /** The common numerator cancels: (u / qa) / (u / qb) is qb / qa. */
  lemma QuotientOfQuotients(u: real, qa: real, qb: real)
    requires u != 0.0 && qa != 0.0 && qb != 0.0
    ensures (u / qa) / (u / qb) == qb / qa
  {
    var y := u / qb;
    assert y * qb == u;
    assert qb / qa * y == u / qa by {
      assert qb / qa * y * qa == qb * y;
    }
  }

  /** A quoted currency against one that upstream omits is null, never 0. */
  lemma OmittedCurrencyIsNull(from: string, to: string, rates: RateTable)
    requires to !in rates
    ensures GetExchangeRate(from, to, rates) == None && GetExchangeRate(to, from, rates) == None
  {
  }

  // The scenarios the normaliser is built for

  /** The upstream document of the partial-quotes scenario: only TWD and EUR are quoted. */
  function PartialQuotes(): Document
  {
    map["USDTWD" := Quote(Some(32.0)), "USDEUR" := Quote(Some(0.85))]
  }

  lemma PartialQuotesQuoted(cur: string)
    ensures TruthyExrate(PartialQuotes(), Pivot + cur).Some? <==> cur == "TWD" || cur == "EUR"
  {
    if Pivot + cur in PartialQuotes() {
      assert (Pivot + cur)[3..] == cur;
    }
    assert Pivot + "EUR" == "USDEUR" && Pivot + "TWD" == "USDTWD";
  }

  lemma PartialQuotesKeys()
    ensures Normalise(Ok(PartialQuotes())).Success?
    ensures Normalise(Ok(PartialQuotes())).value.Keys == {"TWD", "EUR"}
  {
    var doc := PartialQuotes();
    var table := Normalise(Ok(doc)).value;
    NormaliseDomain(doc);
    assert "EUR" == Currencies[1] && "TWD" == Currencies[3];
    forall cur ensures cur in table <==> cur == "TWD" || cur == "EUR" {
      PartialQuotesQuoted(cur);
    }
  }

  /** Upstream quotes only TWD (32) and EUR (0.85): the table is TWD 1 and EUR 32 / 0.85, nothing else. */
  lemma PartialQuotesScenario()
    ensures Normalise(Ok(PartialQuotes())) == Success(map["TWD" := 1.0, "EUR" := 32.0 / 0.85])
  {
    var doc := PartialQuotes();
    PartialQuotesKeys();
    var table := Normalise(Ok(doc)).value;
    assert Pivot + "EUR" == "USDEUR";
    NormaliseQuoted(doc, "EUR");
    NormaliseBaseIsOne(doc);
    assert table == map["TWD" := 1.0, "EUR" := 32.0 / 0.85];
  }

  /** Converting to a currency the table lacks is null, not 0. */
  lemma MissingTargetScenario()
    ensures GetExchangeRate("USD", "GBP", map["USD" := 32.0]) == None
  {
  }
}
