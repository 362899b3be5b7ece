/**
 * The forecast path of the OpenWeatherMap client: a Forecast is built from
 * the provider's answer for a number of days and then walked with PHP's
 * Iterator protocol (rewind, valid, current, key, next).
 */
module OwmForecast {

  import opened Payload

  /** The two raw-data operations of the provider. */
  datatype Source = Hourly | Daily

  /** One call made to the provider, with everything passed through to it. */
  datatype RawRequest = RawRequest(source: Source, query: string, units: string, lang: string, appid: string, mode: string)

  /** What construction throws. */
  datatype Error =
    | HorizonTooLong                                     // \Exception: forecasts only for the next 14 days
    | WrongQueryFormat                                   // \Exception: $query has the wrong format
    | ProviderError(message: JsonValue, code: JsonValue) // the arguments passed to new OWMException($error['message'], $error['cod'])
    | UnknownFatalError                                  // OWMException: unknown fatal error

  datatype Option<+T> = None | Some(value: T)

  datatype Result<+T> = Ok(value: T) | Err(error: Error)

  /**
   * The horizon rule: up to five days (with no lower bound) come from the
   * hourly source, six to fourteen from the daily one, more from none.
   */
  function SourceFor(days: int): (s: Option<Source>)
    ensures s == Some(Hourly) <==> days <= 5
    ensures s == Some(Daily) <==> 5 < days <= 14
    ensures s == None <==> 14 < days
  {
    if days <= 5 then Some(Hourly)
    else if days <= 14 then Some(Daily)
    else None
  }

  /**
   * How an answer is classified: false is a malformed query, an XML
   * document is a forecast, and any other text is read as the provider's
   * JSON error envelope, whose message and cod are passed on unchanged when
   * it has a message.
   */
  function Interpret(answer: RawAnswer): (r: Result<XmlDoc>)
    ensures r == Err(WrongQueryFormat) <==> answer.False?
    ensures r.Ok? <==> answer.Xml?
    ensures r.Ok? ==> r.value == answer.doc
    ensures (r.Err? && r.error.ProviderError?) <==> (answer.NotXml? && IsSet(answer.json, "message"))
    ensures r.Err? && r.error.ProviderError? ==>
              r.error.message == Member(answer.json, "message") && r.error.message != JNull &&
              r.error.code == Member(answer.json, "cod")
    ensures r == Err(UnknownFatalError) <==> (answer.NotXml? && !IsSet(answer.json, "message"))
  {
    match answer
    case False => Err(WrongQueryFormat)
    case Xml(doc) => Ok(doc)
    case NotXml(json) =>
      if IsSet(json, "message") then Err(ProviderError(Member(json, "message"), Member(json, "cod")))
      else Err(UnknownFatalError)
  }

  /**
   * Stand-in for the OpenWeatherMap collaborator: it answers each raw-data
   * operation with a fixed answer and records every call made to it.
   */
  class OpenWeatherMap {
    const hourly: RawAnswer
    const daily: RawAnswer
    var requests: seq<RawRequest>

    constructor (hourly: RawAnswer, daily: RawAnswer)
      ensures this.hourly == hourly && this.daily == daily && requests == []
    {
      this.hourly := hourly;
      this.daily := daily;
      requests := [];
    }

    method GetRawHourlyForecastData(query: string, units: string, lang: string, appid: string, mode: string)
      returns (answer: RawAnswer)
      modifies this`requests
      ensures requests == old(requests) + [RawRequest(Hourly, query, units, lang, appid, mode)]
      ensures answer == hourly
    {
      requests := requests + [RawRequest(Hourly, query, units, lang, appid, mode)];
      answer := hourly;
    }

    method GetRawDailyForecastData(query: string, units: string, lang: string, appid: string, mode: string)
      returns (answer: RawAnswer)
      modifies this`requests
      ensures requests == old(requests) + [RawRequest(Daily, query, units, lang, appid, mode)]
      ensures answer == daily
    {
      requests := requests + [RawRequest(Daily, query, units, lang, appid, mode)];
      answer := daily;
    }
  }

  /** The location of a forecast; its contents are only recorded. */
  class City {
    const id: int
    const name: string
    const lon: string
    const lat: string
    const country: string

    constructor (id: int, name: string, lon: string, lat: string, country: string)
      ensures this.id == id && this.name == name && this.lon == lon && this.lat == lat && this.country == country
    {
      this.id := id;
      this.name := name;
      this.lon := lon;
      this.lat := lat;
      this.country := country;
    }
  }

  /** One forecast entry, built from one `<time>` element; its `city` is assigned afterwards. */
  class WeatherForecast {
    const time: TimeElement
    const units: string
    const lang: string
    var city: City?

    constructor (time: TimeElement, units: string, lang: string)
      ensures this.time == time && this.units == units && this.lang == lang
    {
      this.time := time;
      this.units := units;
      this.lang := lang;
    }
  }

  class Forecast {
    var city: City
    var lastUpdate: string
    var forecasts: seq<WeatherForecast>
    var position: nat

    /** Every entry refers to this forecast's own City object. */
    ghost predicate SharesCity()
      reads this, forecasts
    {
      forall i :: 0 <= i < |forecasts| ==> forecasts[i].city == city
    }

    /** The state construction leaves behind for a document, units and language. */
    ghost predicate Describes(doc: XmlDoc, units: string, lang: string)
      reads this, forecasts
    {
      && city.id == -1 && city.name == doc.name && city.lon == doc.longitude
      && city.lat == doc.latitude && city.country == doc.country
      && lastUpdate == doc.lastUpdate
      && position == 0
      && |forecasts| == |doc.times|
      && (forall i :: 0 <= i < |forecasts| ==>
            forecasts[i].time == doc.times[i] && forecasts[i].units == units && forecasts[i].lang == lang)
      && SharesCity()
    }

    /**
     * The throwing part of construction: choose the source from the horizon,
     * ask it for XML, classify the answer, and build the forecast only when
     * the answer is a document. Every error leaves no Forecast behind, and a
     * horizon over fourteen days makes no call at all.
     */
    static method Create(query: string, units: string, lang: string, appid: string, days: int, owm: OpenWeatherMap)
      returns (r: Result<Forecast>)
      modifies owm
      ensures days <= 5 ==> owm.requests == old(owm.requests) + [RawRequest(Hourly, query, units, lang, appid, "xml")]
      ensures 5 < days <= 14 ==> owm.requests == old(owm.requests) + [RawRequest(Daily, query, units, lang, appid, "xml")]
      ensures 14 < days ==> owm.requests == old(owm.requests) && r == Err(HorizonTooLong)
      ensures days <= 14 ==>
                var outcome := Interpret(if days <= 5 then owm.hourly else owm.daily);
                && (outcome.Err? ==> r == Err(outcome.error))
                && (outcome.Ok? ==>
                      && r.Ok? && fresh(r.value) && fresh(r.value.city)
                      && r.value.Describes(outcome.value, units, lang)
                      && (forall i :: 0 <= i < |r.value.forecasts| ==> fresh(r.value.forecasts[i])))
    {
      var answer: RawAnswer;
      var source := SourceFor(days);
      match source {
        case None =>
          return Err(HorizonTooLong);
        case Some(Hourly) =>
          answer := owm.GetRawHourlyForecastData(query, units, lang, appid, "xml");
        case Some(Daily) =>
          answer := owm.GetRawDailyForecastData(query, units, lang, appid, "xml");
      }
      var parsed := Interpret(answer);
      if parsed.Err? {
        return Err(parsed.error);
      }
      var f := new Forecast(parsed.value, units, lang);
      r := Ok(f);
    }

    /**
     * The building part of construction: one new City from the location,
     * then one new entry per `<time>` element, appended in document order,
     * each pointed at that same City.
     */
    constructor (doc: XmlDoc, units: string, lang: string)
      ensures fresh(city)
      ensures Describes(doc, units, lang)
      ensures forall i :: 0 <= i < |forecasts| ==> fresh(forecasts[i])
      ensures forall i, j :: 0 <= i < j < |forecasts| ==> forecasts[i] != forecasts[j]
    {
      city := new City(-1, doc.name, doc.longitude, doc.latitude, doc.country);
      lastUpdate := doc.lastUpdate;
      forecasts := [];
      position := 0;
      new;
      var i := 0;
      while i < |doc.times|
        invariant 0 <= i <= |doc.times|
        invariant fresh(city) && city.id == -1 && city.name == doc.name && city.lon == doc.longitude
        invariant city.lat == doc.latitude && city.country == doc.country
        invariant lastUpdate == doc.lastUpdate && position == 0
        invariant |forecasts| == i
        invariant forall k :: 0 <= k < i ==>
                    && fresh(forecasts[k]) && forecasts[k].time == doc.times[k]
                    && forecasts[k].units == units && forecasts[k].lang == lang
        invariant SharesCity()
        invariant forall k, m :: 0 <= k < m < i ==> forecasts[k] != forecasts[m]
      {
        var forecast := new WeatherForecast(doc.times[i], units, lang);
        forecast.city := city;
        forecasts := forecasts + [forecast];
        i := i + 1;
      }
    }

    /** Puts the cursor back on the first entry. */
    method Rewind()
      modifies this`position
      ensures position == 0
    {
      position := 0;
    }

    /** The entry under the cursor, or null when the cursor is past the end. */
    method Current() returns (r: WeatherForecast?)
      ensures r != null <==> position < |forecasts|
      ensures position < |forecasts| ==> r == forecasts[position]
    {
      r := if position < |forecasts| then forecasts[position] else null;
    }

    /** The cursor's index. */
    method Key() returns (k: nat)
      ensures k == position
    {
      k := position;
    }

    /** Moves the cursor one entry on. */
    method Next()
      modifies this`position
      ensures position == old(position) + 1
    {
      position := position + 1;
    }

    /** Whether the cursor is on an entry. */
    method Valid() returns (b: bool)
      ensures b <==> position < |forecasts|
    {
      b := position < |forecasts|;
    }
  }

  /**
   * The (key, entry) pairs a `foreach` over an Iterator yields when its
   * cursor starts at `pos`: while valid, take key and current, then move on.
   */
  function Pass<T>(items: seq<T>, pos: nat): (r: seq<(nat, T)>)
    decreases |items| - pos
  {
    if pos < |items| then [(pos, items[pos])] + Pass(items, pos + 1) else []
  }

  /** A pass from `pos` yields every later item once, in order, keyed by its index. */
  lemma {:induction false} PassEnumerates<T>(items: seq<T>, pos: nat)
    ensures |Pass(items, pos)| == if pos <= |items| then |items| - pos else 0
    ensures forall i :: 0 <= i < |Pass(items, pos)| ==> Pass(items, pos)[i] == (pos + i, items[pos + i])
    decreases |items| - pos
  {
    if pos < |items| {
      PassEnumerates(items, pos + 1);
    }
  }

  /**
   * `foreach ($forecast as $key => $entry)`: rewind, then valid / current /
   * key / next until valid is false. Whatever the cursor was before, the
   * loop sees every entry once, in stored order, with keys 0 to n-1.
   */
  method Foreach(f: Forecast) returns (pairs: seq<(nat, WeatherForecast)>)
    modifies f`position
    ensures pairs == Pass(f.forecasts, 0)
    ensures |pairs| == |f.forecasts|
    ensures forall i :: 0 <= i < |pairs| ==> pairs[i] == (i, f.forecasts[i])
    ensures f.SharesCity() ==> forall i :: 0 <= i < |pairs| ==> pairs[i].1.city == f.city
    ensures f.position == |f.forecasts|
  {
    f.Rewind();
    pairs := [];
    var more := f.Valid();
    while more
      invariant f.position <= |f.forecasts|
      invariant more <==> f.position < |f.forecasts|
      invariant pairs + Pass(f.forecasts, f.position) == Pass(f.forecasts, 0)
      decreases |f.forecasts| - f.position
    {
      var entry := f.Current();
      var key := f.Key();
      pairs := pairs + [(key, entry)];
      f.Next();
      more := f.Valid();
    }
    PassEnumerates(f.forecasts, 0);
  }

  /** Two passes, each started by its own rewind, see the same entries in the same order. */
  method TwoPasses(f: Forecast) returns (first: seq<(nat, WeatherForecast)>, second: seq<(nat, WeatherForecast)>)
    modifies f`position
    ensures first == second
    ensures |first| == |f.forecasts|
  {
    first := Foreach(f);
    second := Foreach(f);
  }
}
