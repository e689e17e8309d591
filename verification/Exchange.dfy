/** Currency conversion by cross rates over a table of exact rates. */
module Exchange {
  import opened Domain
  import opened Rounding

  /** Currency codes, already trimmed and in upper case. */
  type Code = string

  /** Units of each currency per unit of the table's base. */
  type Table = map<Code, real>

  datatype FxError = EmptyCode | UnknownSource(code: Code) | UnknownTarget(code: Code) | AmountNotPositive

  datatype Quote<+T> = Quoted(value: T) | Refused(error: FxError)

  /** A missing rate and a rate of zero are both falsy. */
  predicate Known(rates: Table, code: Code) {
    code in rates && rates[code] != 0.0
  }

  /** The quoted rate between two known currencies. */
  function Rate(from: real, to: real): real
    requires from != 0.0
  {
    Fixed6(to / from)
  }

  /** An amount at a quoted rate. */
  function At(amount: real, rate: real): real {
    Fixed4(amount * rate)
  }

  function GetExchangeRate(rates: Table, from: Code, to: Code): Quote<real> {
    if from == "" || to == "" then Refused(EmptyCode)
    else if from == to then Quoted(1.0)
    else if !Known(rates, from) then Refused(UnknownSource(from))
    else if !Known(rates, to) then Refused(UnknownTarget(to))
    else Quoted(Rate(rates[from], rates[to]))
  }

  function Convert(rates: Table, amount: real, from: Code, to: Code): Quote<real> {
    if amount <= 0.0 then Refused(AmountNotPositive)
    else
      match GetExchangeRate(rates, from, to)
      case Refused(e) => Refused(e)
      case Quoted(rate) => Quoted(At(amount, rate))
  }

  /** The true cross rate. */
  function Cross(rates: Table, from: Code, to: Code): real
    requires from == to || (Known(rates, from) && Known(rates, to))
  {
    if from == to then 1.0 else rates[to] / rates[from]
  }

  /** A conversion is answered exactly when the amount is positive and both codes are usable. */
  lemma ConvertedIff(rates: Table, amount: real, from: Code, to: Code)
    ensures Convert(rates, amount, from, to).Quoted? <==>
            && amount > 0.0 && from != "" && to != ""
            && (from == to || (Known(rates, from) && Known(rates, to)))
  {
  }

  /** Which refusal, in the order of the code. */
  lemma RefusalOf(rates: Table, amount: real, from: Code, to: Code)
    ensures var r := Convert(rates, amount, from, to);
            if amount <= 0.0 then r == Refused(AmountNotPositive)
            else if from == "" || to == "" then r == Refused(EmptyCode)
            else if from == to then r.Quoted?
            else if from !in rates || rates[from] == 0.0 then r == Refused(UnknownSource(from))
            else if to !in rates || rates[to] == 0.0 then r == Refused(UnknownTarget(to))
            else r.Quoted?
  {
  }

  /** What is answered: the quotient of the two rates of the table, to six places, and the amount times that quote, to four. */
  lemma AnswersAreRounded(rates: Table, amount: real, from: Code, to: Code)
    requires Convert(rates, amount, from, to).Quoted?
    ensures GetExchangeRate(rates, from, to).Quoted?
    ensures var rate := GetExchangeRate(rates, from, to).value;
            if from == to then rate == 1.0
            else from in rates && rates[from] != 0.0 && to in rates && IsRounded(rate, rates[to] / rates[from], 1000000.0)
    ensures IsRounded(Convert(rates, amount, from, to).value, amount * GetExchangeRate(rates, from, to).value, 10000.0)
  {
    hide Fixed4, Fixed6, IsRounded;
    if from != to {
      SixPlaces(rates[to] / rates[from]);
    }
    FourPlaces(amount * GetExchangeRate(rates, from, to).value);
  }

  const RATE_ERROR: real := 0.0000005
  const AMOUNT_ERROR: real := 0.00005

  /** The error of a rounded rate, carried through a product that is rounded in turn. */
  lemma CarriedError(amount: real, cross: real, rate: real)
    requires amount >= 0.0 && Abs(rate - cross) <= RATE_ERROR
    ensures Abs(At(amount, rate) - amount * cross) <= amount * RATE_ERROR + AMOUNT_ERROR
  {
    ScaleError(amount, rate, cross, RATE_ERROR);
    var product := amount * rate;
    assert Abs(Fixed4(product) - product) <= AMOUNT_ERROR;
  }

  predicate Positive(rates: Table) {
    forall code :: code in rates ==> rates[code] > 0.0
  }

  lemma QuotedRate(rates: Table, from: Code, to: Code)
    requires GetExchangeRate(rates, from, to).Quoted?
    ensures Abs(GetExchangeRate(rates, from, to).value - Cross(rates, from, to)) <= RATE_ERROR
    ensures Positive(rates) ==> GetExchangeRate(rates, from, to).value >= 0.0
  {
    if from != to {
      var f, t := rates[from], rates[to];
      assert Abs(Fixed6(t / f) - t / f) <= RATE_ERROR;
    }
  }

  lemma CrossError(rates: Table, amount: real, from: Code, to: Code)
    requires Convert(rates, amount, from, to).Quoted?
    ensures Abs(Convert(rates, amount, from, to).value - amount * Cross(rates, from, to)) <= amount * RATE_ERROR + AMOUNT_ERROR
  {
    hide Rate, At, Cross;
    QuotedRate(rates, from, to);
    CarriedError(amount, Cross(rates, from, to), GetExchangeRate(rates, from, to).value);
  }

  /** The rounded amount is within a * 5e-7 + 5e-5 of the exact conversion. */
  lemma ConversionError(rates: Table, amount: real, from: Code, to: Code)
    requires Convert(rates, amount, from, to).Quoted?
    ensures from != to ==> from in rates && rates[from] != 0.0 && to in rates
    ensures var converted := Convert(rates, amount, from, to).value;
            Abs(converted - amount * (if from == to then 1.0 else rates[to] / rates[from])) <= amount * 0.0000005 + 0.00005
  {
    hide Rate, At;
    CrossError(rates, amount, from, to);
  }

  lemma Inverse(f: real, t: real)
    requires f > 0.0 && t > 0.0
    ensures t / f > 0.0 && (t / f) * (f / t) == 1.0
  {
    var q, p := t / f, f / t;
    assert q * f == t && p * t == f;
    assert (q * p) * t == q * (p * t);
    assert (q * p - 1.0) * t == 0.0;
  }

  lemma CrossesAreInverse(rates: Table, from: Code, to: Code)
    requires Positive(rates) && (from == to || (Known(rates, from) && Known(rates, to)))
    ensures Cross(rates, from, to) > 0.0
    ensures Cross(rates, from, to) * Cross(rates, to, from) == 1.0
  {
    if from != to {
      Inverse(rates[from], rates[to]);
    }
  }

  /** Converting back is possible exactly when the first conversion did not round to nothing, that is, when the amount
      times the quoted rate is at least half of the last decimal. */
  lemma RoundTripIff(rates: Table, amount: real, from: Code, to: Code)
    requires Convert(rates, amount, from, to).Quoted?
    ensures var there := Convert(rates, amount, from, to).value;
            Convert(rates, there, to, from).Quoted? <==>
            amount * GetExchangeRate(rates, from, to).value >= 0.00005
  {
    Fixed4IsPositive(amount * GetExchangeRate(rates, from, to).value);
  }

  /** The first error carried back at the inverse rate, plus the error of the second conversion. */
  function RoundTripBound(amount: real, forth: real, home: real): real {
    var first := amount * RATE_ERROR + AMOUNT_ERROR;
    home * first + (amount * forth + first) * RATE_ERROR + AMOUNT_ERROR
  }

  /** Converting there and back returns the amount up to the first error, carried back at the inverse rate, and the second. */
  lemma RoundTripError(rates: Table, amount: real, from: Code, to: Code)
    requires Positive(rates) && Convert(rates, amount, from, to).Quoted?
    requires Convert(rates, Convert(rates, amount, from, to).value, to, from).Quoted?
    ensures from != to ==> from in rates && to in rates
    ensures var back := Convert(rates, Convert(rates, amount, from, to).value, to, from).value;
            var forth := if from == to then 1.0 else rates[to] / rates[from];
            var home := if from == to then 1.0 else rates[from] / rates[to];
            var first := amount * 0.0000005 + 0.00005;
            Abs(back - amount) <= home * first + (amount * forth + first) * 0.0000005 + 0.00005
  {
    hide Rate, At, GetExchangeRate, Convert, Abs;
    ConvertedIff(rates, amount, from, to);
    RoundTripWithin(rates, amount, from, to);
  }

  lemma RoundTripWithin(rates: Table, amount: real, from: Code, to: Code)
    requires Positive(rates) && Convert(rates, amount, from, to).Quoted?
    requires Convert(rates, Convert(rates, amount, from, to).value, to, from).Quoted?
    requires from == to || (Known(rates, from) && Known(rates, to))
    ensures var back := Convert(rates, Convert(rates, amount, from, to).value, to, from).value;
            Abs(back - amount) <= RoundTripBound(amount, Cross(rates, from, to), Cross(rates, to, from))
  {
    hide Rate, At, Cross, GetExchangeRate, Convert, RoundTripBound, Abs;
    ConvertedIff(rates, amount, from, to);
    var there := Convert(rates, amount, from, to).value;
    ConvertedIff(rates, there, to, from);
    var back := Convert(rates, there, to, from).value;
    CrossesAreInverse(rates, from, to);
    CrossesAreInverse(rates, to, from);
    CrossError(rates, amount, from, to);
    CrossError(rates, there, to, from);
    ThereAndBack(amount, there, back, Cross(rates, from, to), Cross(rates, to, from));
  }

  lemma ThereAndBack(amount: real, there: real, back: real, forth: real, home: real)
    requires forth > 0.0 && home > 0.0 && forth * home == 1.0
    requires Abs(there - amount * forth) <= amount * RATE_ERROR + AMOUNT_ERROR
    requires Abs(back - there * home) <= there * RATE_ERROR + AMOUNT_ERROR
    ensures Abs(back - amount) <= RoundTripBound(amount, forth, home)
  {
    var first := amount * RATE_ERROR + AMOUNT_ERROR;
    CarryBack(amount, there, forth, home, first);
    Chain(amount, amount * forth, there, there * home, back, first, home * first);
  }

  lemma CarryBack(amount: real, there: real, forth: real, home: real, first: real)
    requires home > 0.0 && forth * home == 1.0 && Abs(there - amount * forth) <= first
    ensures Abs(there * home - amount) <= home * first
  {
    ScaleError(home, there, amount * forth, first);
    assert home * (amount * forth) == amount * (forth * home);
  }

  lemma Chain(amount: real, exact: real, there: real, returned: real, back: real, first: real, spread: real)
    requires Abs(there - exact) <= first && Abs(returned - amount) <= spread
    requires Abs(back - returned) <= there * RATE_ERROR + AMOUNT_ERROR
    ensures Abs(back - amount) <= spread + (exact + first) * RATE_ERROR + AMOUNT_ERROR
  {
  }

  /** Rounding never swaps two amounts. */
  lemma ConversionIsMonotone(rates: Table, small: real, large: real, from: Code, to: Code)
    requires Positive(rates) && 0.0 < small <= large && Convert(rates, small, from, to).Quoted?
    ensures Convert(rates, large, from, to).Quoted?
    ensures Convert(rates, small, from, to).value <= Convert(rates, large, from, to).value
  {
    hide Rate, At;
    QuotedRate(rates, from, to);
    LargerAtRate(small, large, GetExchangeRate(rates, from, to).value);
  }

  lemma LargerAtRate(small: real, large: real, rate: real)
    requires small <= large && rate >= 0.0
    ensures At(small, rate) <= At(large, rate)
  {
    Product(rate, large - small);
    Distribute(rate, large, small);
    Fixed4IsMonotone(small * rate, large * rate);
  }

  /** The table relative to another base. */
  function Rebased(rates: Table, s: real): Table {
    map code | code in rates :: rates[code] * s
  }

  /** Scaling the whole table changes no answer and no refusal, so the base the rates are quoted in does not matter. */
  lemma BaseDoesNotMatter(rates: Table, s: real, amount: real, from: Code, to: Code)
    requires s != 0.0
    ensures Convert(Rebased(rates, s), amount, from, to) == Convert(rates, amount, from, to)
  {
    RateOfRebased(rates, s, from, to);
  }

  lemma RebasedKnown(rates: Table, s: real, code: Code)
    requires s != 0.0
    ensures Known(Rebased(rates, s), code) == Known(rates, code)
  {
    if code in rates {
      var r := rates[code];
      assert r * s != 0.0 <==> r != 0.0;
    }
  }

  lemma RateOfRebased(rates: Table, s: real, from: Code, to: Code)
    requires s != 0.0
    ensures GetExchangeRate(Rebased(rates, s), from, to) == GetExchangeRate(rates, from, to)
  {
    hide Rate;
    RebasedKnown(rates, s, from);
    RebasedKnown(rates, s, to);
    if Known(rates, from) && Known(rates, to) {
      var f, t := rates[from], rates[to];
      SameRate(f, t, s);
      assert Rebased(rates, s)[from] == f * s && Rebased(rates, s)[to] == t * s;
    }
  }

  lemma SameRate(from: real, to: real, s: real)
    requires from != 0.0 && s != 0.0
    ensures from * s != 0.0 && Rate(from * s, to * s) == Rate(from, to)
  {
    hide Fixed6;
    Cancel(to, from, s);
  }

  lemma Cancel(t: real, f: real, s: real)
    requires f != 0.0 && s != 0.0
    ensures f * s != 0.0 && (t * s) / (f * s) == t / f
  {
    var q := t / f;
    assert q * f == t;
    assert q * (f * s) == t * s;
  }

  // ---------- the service and its cache ----------

  datatype Source = Cache | Api | Fallback

  /** What Redis and the provider do during one call: whether reading and writing the cache works, and the table fetched. */
  datatype Call = Call(readable: bool, writable: bool, live: Option<Table>)

  /** A call is answered from the cache if it can be read and holds a table, else by the provider, else with the fallback. */
  function Served(cached: Option<Table>, fallback: Table, call: Call): (Table, Source) {
    if call.readable && cached.Some? then (cached.value, Cache)
    else if call.live.Some? then (call.live.value, Api)
    else (fallback, Fallback)
  }

  /** Only a fetched table is cached. */
  function CachedBy(cached: Option<Table>, fallback: Table, call: Call): Option<Table> {
    if Served(cached, fallback, call).1.Api? && call.writable then call.live else cached
  }

  /** What is cached after a series of calls during which nothing expires. */
  function CachedAfter(cached: Option<Table>, fallback: Table, calls: seq<Call>): Option<Table> {
    if calls == [] then cached
    else CachedBy(CachedAfter(cached, fallback, calls[..|calls| - 1]), fallback, calls[|calls| - 1])
  }

  /** The answer of call i. */
  function AnswerOf(cached: Option<Table>, fallback: Table, calls: seq<Call>, i: nat): (Table, Source)
    requires i < |calls|
  {
    Served(CachedAfter(cached, fallback, calls[..i]), fallback, calls[i])
  }

  /** A cached table stays until a call that cannot read it replaces it. */
  lemma {:induction false} CachedTableStays(cached: Option<Table>, fallback: Table, calls: seq<Call>)
    requires cached.Some? && forall i :: 0 <= i < |calls| ==> calls[i].readable
    ensures CachedAfter(cached, fallback, calls) == cached
  {
    if calls != [] {
      CachedTableStays(cached, fallback, calls[..|calls| - 1]);
    }
  }

  lemma {:induction false} CachedInParts(cached: Option<Table>, fallback: Table, calls: seq<Call>, n: nat)
    requires n <= |calls|
    ensures CachedAfter(cached, fallback, calls) == CachedAfter(CachedAfter(cached, fallback, calls[..n]), fallback, calls[n..])
  {
    if n == |calls| {
      assert calls[..n] == calls && calls[n..] == [];
    } else {
      var before := calls[..|calls| - 1];
      CachedInParts(cached, fallback, before, n);
      assert before[..n] == calls[..n] && before[n..] == calls[n..][..|calls[n..]| - 1];
    }
  }

  /** While Redis works and nothing expires, all answers from the first that is not the fallback on use one table,
      whatever the provider says meanwhile. */
  lemma OneTableIsServed(cached: Option<Table>, fallback: Table, calls: seq<Call>, i: nat, j: nat)
    requires forall k :: 0 <= k < |calls| ==> calls[k].readable && calls[k].writable
    requires i < j < |calls| && !AnswerOf(cached, fallback, calls, i).1.Fallback?
    ensures AnswerOf(cached, fallback, calls, j) == (AnswerOf(cached, fallback, calls, i).0, Cache)
  {
    var upToJ := calls[..j];
    assert upToJ[..i + 1] == calls[..i + 1] && calls[..i + 1][..i] == calls[..i];
    var now := CachedAfter(cached, fallback, calls[..i + 1]);
    assert now == Some(AnswerOf(cached, fallback, calls, i).0);
    CachedInParts(cached, fallback, upToJ, i + 1);
    CachedTableStays(now, fallback, upToJ[i + 1..]);
  }

  class ExchangeService {
    const base: Code
    const fallback: Table
    var cache: map<Code, Table>

    constructor (base: Code, fallback: Table)
      ensures this.base == base && this.fallback == fallback && cache == map[]
    {
      this.base, this.fallback, cache := base, fallback, map[];
    }

    function Cached(): Option<Table>
      reads this`cache
    {
      if base in cache then Some(cache[base]) else None
    }

    /** A table that came from the cache or went into it is what the next readable call is answered with. */
    method GetLatestRates(call: Call) returns (rates: Table, source: Source)
      modifies this`cache
      ensures source == Cache <==> call.readable && old(Cached()).Some?
      ensures source == Cache ==> old(Cached()) == Some(rates)
      ensures source == Api ==> call.live == Some(rates)
      ensures source == Fallback ==> call.live.None? && rates == fallback
      ensures source == Cache || (source == Api && call.writable) ==>
                forall next: Call :: next.readable ==> Served(Cached(), fallback, next) == (rates, Cache)
      ensures Cached() == CachedBy(old(Cached()), fallback, call)
      ensures forall other :: other != base ==>
                (other in cache <==> other in old(cache)) && (other in cache ==> cache[other] == old(cache)[other])
    {
      if call.readable {
        if base in cache {
          return cache[base], Cache;
        }
      }
      if call.live.Some? {
        if call.writable { cache := cache[base := call.live.value]; }
        return call.live.value, Api;
      }
      return fallback, Fallback;
    }

    /** The answer of the table served; an unusable or identical pair of codes never consults it. */
    method QuoteRate(from: Code, to: Code, call: Call) returns (r: Quote<real>, source: Source)
      modifies this`cache
      ensures r == GetExchangeRate(Served(old(Cached()), fallback, call).0, from, to)
      ensures if from == "" || to == "" || from == to
              then source == Cache && cache == old(cache)
              else source == Served(old(Cached()), fallback, call).1 && Cached() == CachedBy(old(Cached()), fallback, call)
    {
      source := Cache;
      if from == "" || to == "" { return Refused(EmptyCode), source; }
      if from == to { return Quoted(1.0), source; }
      var rates: Table;
      rates, source := GetLatestRates(call);
      if from !in rates || rates[from] == 0.0 { return Refused(UnknownSource(from)), source; }
      if to !in rates || rates[to] == 0.0 { return Refused(UnknownTarget(to)), source; }
      var rawRate := rates[to] / rates[from];
      r := Quoted(Fixed6(rawRate));
    }

    /** The conversion over the table served; a refused amount never consults it either. */
    method ConvertAmount(amount: real, from: Code, to: Code, call: Call) returns (r: Quote<real>, source: Source)
      modifies this`cache
      ensures r == Convert(Served(old(Cached()), fallback, call).0, amount, from, to)
      ensures if amount <= 0.0 || from == "" || to == "" || from == to
              then source == Cache && cache == old(cache)
              else source == Served(old(Cached()), fallback, call).1 && Cached() == CachedBy(old(Cached()), fallback, call)
    {
      source := Cache;
      if amount <= 0.0 { return Refused(AmountNotPositive), source; }
      var quote;
      quote, source := QuoteRate(from, to, call);
      if quote.Refused? { return Refused(quote.error), source; }
      var rawConverted := amount * quote.value;
      r := Quoted(Fixed4(rawConverted));
    }
  }
}
