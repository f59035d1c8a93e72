/** The weather server's two tools over the US National Weather Service API:
    `get_alerts` for a state and `get_forecast` for a point. The HTTP request of
    `make_nws_request` is the oracle `fetch`: the decoded reply, or None when the
    request, its status or its decoding fails. */
module Weather {
  import opened Strings
  import opened Exceptions
  import opened Json

  const NWS_API_BASE := "https://api.weather.gov"

  /** `make_nws_request(url)`. */
  type Fetch = string -> Option<Json>

  const NoAlertsFetched := "Não foi possível buscar alertas ou nenhum alerta encontrado."
  const NoActiveAlerts := "Nenhum alerta ativo para este estado."
  const NoForecast := "Unable to fetch forecast data for this location."
  const NoDetailedForecast := "Não foi possível buscar previsão detalhada."
  const Separator := "\n---\n"

  /** The texts joined by "\n---\n", or the exception raised producing them. */
  function Joined(texts: Result<seq<string>>): (r: Result<string>)
    ensures r.Ok? <==> texts.Ok?
    ensures r.Ok? ==> r.value == Join(Separator, texts.value)
    ensures r.Err? ==> r.error == texts.error
  {
    var t :- texts;
    Ok(Join(Separator, t))
  }

  // ---- alerts -----------------------------------------------------------------

  /** `props.get(key, default)` as the alert text shows it. */
  function Shown(props: seq<(string, Json)>, key: string, default: string): (r: string)
    ensures Get(props, key).None? ==> r == default
    ensures Get(props, key).Some? ==> r == PyStr(Get(props, key).value)
  {
    match Get(props, key)
    case Some(v) => PyStr(v)
    case None => default
  }

  /** The alert template, filled with the five values shown. */
  function AlertText(event: string, area: string, severity: string, description: string, instruction: string): string
  {
    "\nEvent: " + event + "\nArea: " + area + "\nSeverity: " + severity +
    "\nDescription: " + description + "\nInstructions: " + instruction + "\n"
  }

  /** `format_alert`: five lines from the feature's properties, each with its default. */
  function FormatAlert(feature: Json): (r: Result<string>)
    ensures r.Ok? <==> Subscript(feature, "properties").Ok? && Subscript(feature, "properties").value.JObject?
    ensures Subscript(feature, "properties").Err? ==> r == Err(Subscript(feature, "properties").error)
  {
    var props :- Subscript(feature, "properties");
    if !props.JObject? then Err(AttributeError(Quote(TypeName(props)) + " object has no attribute 'get'"))
    else
      var p := props.fields;
      Ok(AlertText(Shown(p, "event", "Unknown"), Shown(p, "areaDesc", "Unknown"), Shown(p, "severity", "Unknown"),
                   Shown(p, "description", "No description available"),
                   Shown(p, "instruction", "No specific instructions provided")))
  }

  /** For any feature whose "properties" is a dict, each of the five lines shows the
      key's value when the key is present and the line's default when it is missing. */
  lemma FormatAlertFields(feature: Json, p: seq<(string, Json)>)
    requires Subscript(feature, "properties") == Ok(JObject(p))
    ensures FormatAlert(feature) == Ok(AlertText(
      if Get(p, "event").Some? then PyStr(Get(p, "event").value) else "Unknown",
      if Get(p, "areaDesc").Some? then PyStr(Get(p, "areaDesc").value) else "Unknown",
      if Get(p, "severity").Some? then PyStr(Get(p, "severity").value) else "Unknown",
      if Get(p, "description").Some? then PyStr(Get(p, "description").value) else "No description available",
      if Get(p, "instruction").Some? then PyStr(Get(p, "instruction").value) else "No specific instructions provided"))
  {
  }

  /** Properties holding none of the five keys show every default: "Unknown" for the
      event, the area and the severity. */
  lemma FormatAlertAllMissing(p: seq<(string, Json)>)
    requires forall i :: 0 <= i < |p| ==> p[i].0 !in ["event", "areaDesc", "severity", "description", "instruction"]
    ensures FormatAlert(JObject([("properties", JObject(p))])) ==
      Ok(AlertText("Unknown", "Unknown", "Unknown", "No description available", "No specific instructions provided"))
  {
    var feature := JObject([("properties", JObject(p))]);
    assert Subscript(feature, "properties") == Ok(JObject(p));
  }

  /** An example arrangement: a present event shows its text, a null severity shows
      as None, and the three missing keys show their defaults. */
  lemma FormatAlertDefaults(props: seq<(string, Json)>, event: string)
    requires Get(props, "event") == Some(JString(event)) && Get(props, "severity") == Some(JNull)
    requires Get(props, "areaDesc").None? && Get(props, "description").None? && Get(props, "instruction").None?
    ensures FormatAlert(JObject([("properties", JObject(props))])) ==
      Ok(AlertText(event, "Unknown", "None", "No description available", "No specific instructions provided"))
  {
    var feature := JObject([("properties", JObject(props))]);
    assert Subscript(feature, "properties") == Ok(JObject(props));
  }

  /** The alerts URL: the state code is the last path segment. */
  function AlertsUrl(state: string): (url: string)
    ensures StartsWith(url, NWS_API_BASE + "/alerts/active/area/")
    ensures url[|NWS_API_BASE + "/alerts/active/area/"|..] == state
  {
    NWS_API_BASE + "/alerts/active/area/" + state
  }

  /** `get_alerts(state)`. Without a usable reply it gives the failure message, and
      it can raise only on a reply that holds "features". */
  function GetAlerts(state: string, fetch: Fetch): (r: Result<string>)
    ensures var data := fetch(AlertsUrl(state));
      data.None? || !Truthy(data.value) ==> r == Ok(NoAlertsFetched)
    ensures var data := fetch(AlertsUrl(state));
      r.Err? ==> data.Some? && Contains(data.value, "features") != Ok(false)
  {
    var data := fetch(AlertsUrl(state));
    if data.None? || !Truthy(data.value) then Ok(NoAlertsFetched)
    else
      var hasFeatures :- Contains(data.value, "features");
      if !hasFeatures then Ok(NoAlertsFetched)
      else
        var features :- Subscript(data.value, "features");
        if !Truthy(features) then Ok(NoActiveAlerts)
        else
          var items :- Elements(features);
          Joined(Traverse(FormatAlert, items))
  }

  /** Without a usable reply, or without "features" in it, `get_alerts` gives the
      failure message. */
  lemma GetAlertsUnavailable(state: string, fetch: Fetch)
    requires var data := fetch(AlertsUrl(state));
      data.None? || !Truthy(data.value) || (data.value.JObject? && Get(data.value.fields, "features").None?)
    ensures GetAlerts(state, fetch) == Ok(NoAlertsFetched)
  {
  }

  /** An empty list of features gives the no-alert message. */
  lemma GetAlertsNone(state: string, fetch: Fetch)
    requires var data := fetch(AlertsUrl(state));
      data.Some? && data.value.JObject? && Get(data.value.fields, "features") == Some(JArray([]))
    ensures GetAlerts(state, fetch) == Ok(NoActiveAlerts)
  {
  }

  /** A non-empty list of features gives one formatted alert per feature, in order,
      separated by "\n---\n", or the first formatting error. */
  lemma GetAlertsEach(state: string, fetch: Fetch, items: seq<Json>)
    requires var data := fetch(AlertsUrl(state));
      data.Some? && data.value.JObject? && Get(data.value.fields, "features") == Some(JArray(items)) && items != []
    ensures GetAlerts(state, fetch) == Joined(Traverse(FormatAlert, items))
  {
    var data := fetch(AlertsUrl(state)).value;
    assert Truthy(data);
    assert Contains(data, "features") == Ok(true);
    assert Subscript(data, "features") == Ok(JArray(items));
    assert Truthy(JArray(items));
    assert Elements(JArray(items)) == Ok(items);
  }

  // ---- forecast ---------------------------------------------------------------

  /** The points URL. The rendering of the float coordinates is not modelled: they
      arrive as the text `str()` gives them. */
  function PointsUrl(latitude: string, longitude: string): (url: string)
    ensures StartsWith(url, NWS_API_BASE + "/points/")
    ensures url[|NWS_API_BASE + "/points/"|..] == latitude + "," + longitude
  {
    NWS_API_BASE + "/points/" + latitude + "," + longitude
  }

  /** One forecast period; its fields are read in the order the text shows them. */
  function FormatPeriod(period: Json): (r: Result<string>)
    ensures r.Ok? <==>
      (period.JObject? &&
       Get(period.fields, "name").Some? && Get(period.fields, "temperature").Some? &&
       Get(period.fields, "temperatureUnit").Some? && Get(period.fields, "windSpeed").Some? &&
       Get(period.fields, "windDirection").Some? && Get(period.fields, "detailedForecast").Some?)
    ensures r.Err? && period.JObject? ==> r.error.KeyError? && Get(period.fields, r.error.key).None?
  {
    var name :- Subscript(period, "name");
    var temperature :- Subscript(period, "temperature");
    var unit :- Subscript(period, "temperatureUnit");
    var windSpeed :- Subscript(period, "windSpeed");
    var windDirection :- Subscript(period, "windDirection");
    var detailed :- Subscript(period, "detailedForecast");
    Ok("\n" + PyStr(name) + ":\nTemperatura: " + PyStr(temperature) + "°" + PyStr(unit) +
       "\nVento: " + PyStr(windSpeed) + " " + PyStr(windDirection) +
       "\nPrevisão: " + PyStr(detailed) + "\n")
  }

  /** The rendering of `periods[:5]`. */
  function RenderPeriods(periods: Json): (r: Result<string>)
    ensures !(periods.JArray? || periods.JString?) ==> r.Err? && r.error.TypeError?
  {
    var first :- Head(periods, 5);
    Joined(Traverse(FormatPeriod, first))
  }

  /** For a list of periods, only the first five are rendered, each in order; any
      period after the fifth never changes the forecast. */
  lemma RenderPeriodsFirstFive(items: seq<Json>)
    ensures |items| <= 5 ==> RenderPeriods(JArray(items)) == Joined(Traverse(FormatPeriod, items))
    ensures |items| > 5 ==> RenderPeriods(JArray(items)) == Joined(Traverse(FormatPeriod, items[..5]))
  {
  }

  /** `get_forecast(latitude, longitude)`. A missing or empty reply for the point
      gives the first failure message; a missing or empty reply for its forecast URL the
      second. */
  function Forecast(latitude: string, longitude: string, fetch: Fetch): (r: Result<string>)
    ensures var points := fetch(PointsUrl(latitude, longitude));
      points.None? || !Truthy(points.value) ==> r == Ok(NoForecast)
    ensures var points := fetch(PointsUrl(latitude, longitude));
      points.Some? && Truthy(points.value) &&
      Subscript(points.value, "properties").Ok? && Subscript(Subscript(points.value, "properties").value, "forecast").Ok? ==>
        var url := Subscript(Subscript(points.value, "properties").value, "forecast").value;
        var data := if url.JString? then fetch(url.s) else None;
        data.None? || !Truthy(data.value) ==> r == Ok(NoDetailedForecast)
  {
    var points := fetch(PointsUrl(latitude, longitude));
    if points.None? || !Truthy(points.value) then Ok(NoForecast)
    else
      var props :- Subscript(points.value, "properties");
      var url :- Subscript(props, "forecast");
      // httpx refuses a URL that is not a string, and make_nws_request turns that into None
      var data := if url.JString? then fetch(url.s) else None;
      if data.None? || !Truthy(data.value) then Ok(NoDetailedForecast)
      else
        var forecastProps :- Subscript(data.value, "properties");
        var periods :- Subscript(forecastProps, "periods");
        RenderPeriods(periods)
  }

  /** With both replies usable, the forecast is the rendering of their periods. */
  lemma ForecastRenders(latitude: string, longitude: string, fetch: Fetch,
                        points: Json, props: Json, forecastUrl: string, data: Json, forecastProps: Json, periods: Json)
    requires fetch(PointsUrl(latitude, longitude)) == Some(points) && Truthy(points)
    requires Subscript(points, "properties") == Ok(props) && Subscript(props, "forecast") == Ok(JString(forecastUrl))
    requires fetch(forecastUrl) == Some(data) && Truthy(data)
    requires Subscript(data, "properties") == Ok(forecastProps) && Subscript(forecastProps, "periods") == Ok(periods)
    ensures Forecast(latitude, longitude, fetch) == RenderPeriods(periods)
  {
  }

  /** With both replies usable and a list of periods, the forecast is the rendering
      of its first five periods. */
  lemma ForecastPeriods(latitude: string, longitude: string, fetch: Fetch,
                        points: Json, props: Json, forecastUrl: string, data: Json, forecastProps: Json, items: seq<Json>)
    requires fetch(PointsUrl(latitude, longitude)) == Some(points) && Truthy(points)
    requires Subscript(points, "properties") == Ok(props) && Subscript(props, "forecast") == Ok(JString(forecastUrl))
    requires fetch(forecastUrl) == Some(data) && Truthy(data)
    requires Subscript(data, "properties") == Ok(forecastProps) && Subscript(forecastProps, "periods") == Ok(JArray(items))
    ensures Forecast(latitude, longitude, fetch) ==
      Joined(Traverse(FormatPeriod, if |items| <= 5 then items else items[..5]))
  {
    ForecastRenders(latitude, longitude, fetch, points, props, forecastUrl, data, forecastProps, JArray(items));
    RenderPeriodsFirstFive(items);
  }

  /** The loop over `periods[:5]`, appending each rendered period. */
  method RenderEach(first: seq<Json>) returns (r: Result<string>)
    ensures r == Joined(Traverse(FormatPeriod, first))
  {
    var forecasts: seq<string> := [];
    var i := 0;
    assert first[..0] == [];
    while i < |first|
      invariant i <= |first|
      invariant Traverse(FormatPeriod, first[..i]) == Ok(forecasts)
    {
      TraverseStep(FormatPeriod, first, i);
      var forecast := FormatPeriod(first[i]);
      if forecast.Err? {
        TraverseFailsEarly(FormatPeriod, first, i + 1);
        return Err(forecast.error);
      }
      forecasts := forecasts + [forecast.value];
      i := i + 1;
    }
    assert first[..i] == first;
    r := Ok(Join(Separator, forecasts));
  }

  /** `get_forecast`: the two requests, then the loop over the first five periods. */
  method GetForecast(latitude: string, longitude: string, fetch: Fetch) returns (r: Result<string>)
    ensures r == Forecast(latitude, longitude, fetch)
  {
    var points := fetch(PointsUrl(latitude, longitude));
    if points.None? || !Truthy(points.value) {
      return Ok(NoForecast);
    }
    var props :- Subscript(points.value, "properties");
    var url :- Subscript(props, "forecast");
    var data := if url.JString? then fetch(url.s) else None;
    if data.None? || !Truthy(data.value) {
      return Ok(NoDetailedForecast);
    }
    var forecastProps :- Subscript(data.value, "properties");
    var periods :- Subscript(forecastProps, "periods");
    var first :- Head(periods, 5);
    r := RenderEach(first);
  }
}
