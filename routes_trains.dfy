/** `GET /v1/trains/line-l/departures`: the next departures of line L at a
    stop area, read from the SNCF API. The environment variable and the
    HTTP exchange are inputs. */
module Trains {
  import opened Wrappers
  import opened Text
  import opened JsonValue
  import opened Api

  const MissingKey: string := "SNCF_API_KEY is not configured"
  const MissingStop: string := "stop_area_id is required"
  const UrlPrefix: string := "https://api.sncf.com/v1/coverage/sncf/stop_areas/"
  const LineFilter: string := "line:L"
  const TimeoutS: int := 10

  /** `max(1, min(count, 20))`. */
  function ClampCount(count: int): (c: int)
    ensures 1 <= c <= 20
    ensures 1 <= count <= 20 ==> c == count
    ensures count < 1 ==> c == 1
    ensures count > 20 ==> c == 20
  {
    var m := if count < 20 then count else 20;
    if 1 < m then m else 1
  }

  function DeparturesUrl(stopAreaId: string): string {
    UrlPrefix + stopAreaId + "/departures"
  }

  /** The GET request: URL, `count` and `line` parameters, basic
      authentication with the key as user name, and the timeout. */
  datatype TrainQuery = TrainQuery(url: string, count: int, line: string, user: string, timeoutS: int)

  /** What the request gave: `raise_for_status` or the transport raised
      `RequestException` (its `str`), or a body, decoded or not. */
  datatype Fetched = FetchFailed(message: string) | Fetched(body: Parsed)

  /** `obj.get(k1, {}).get(k2, {}) ... .get(kn)`: a missing key gives `{}`
      on the way and `None` at the end; a value on the way that is not a
      dict has no `get`, and the lookup raises. */
  function Path(j: Json, keys: seq<string>): Result<Json, string>
    requires keys != []
    decreases |keys|
  {
    if !j.Obj? then Err("AttributeError")
    else if |keys| == 1 then Ok(if keys[0] in j.fields then j.fields[keys[0]] else Null)
    else Path(if keys[0] in j.fields then j.fields[keys[0]] else Obj(map[]), keys[1..])
  }

  /** Absent nested keys yield `None`: once a key is missing from a dict,
      the rest of the lookup runs on `{}`. */
  lemma {:induction false} PathAbsent(j: Json, keys: seq<string>)
    requires keys != [] && j.Obj? && keys[0] !in j.fields
    ensures Path(j, keys) == Ok(Null)
  {
    if |keys| > 1 {
      EmptyPath(keys[1..]);
    }
  }

  lemma {:induction false} EmptyPath(keys: seq<string>)
    requires keys != []
    ensures Path(Obj(map[]), keys) == Ok(Null)
  {
    if |keys| > 1 {
      EmptyPath(keys[1..]);
    }
  }

  /** `j[k1][k2]...[kn]`: the value at the end of the keys when every value
      on the way is a dict holding the next key; `None` otherwise. */
  function Dig(j: Json, keys: seq<string>): Option<Json>
    decreases |keys|
  {
    if keys == [] then Some(j)
    else if j.Obj? && keys[0] in j.fields then Dig(j.fields[keys[0]], keys[1..])
    else None
  }

  /** A lookup through nested dicts that all hold the next key reaches the
      value at its end, as plain indexing would. */
  lemma {:induction false} PathPresent(j: Json, keys: seq<string>)
    requires keys != [] && Dig(j, keys).Some?
    ensures Path(j, keys) == Ok(Dig(j, keys).value)
    decreases |keys|
  {
    if |keys| > 1 {
      PathPresent(j.fields[keys[0]], keys[1..]);
    }
  }

  /** `item.get("departure", {})` for a dict item. */
  function Departure(item: Json): Json {
    if item.Obj? && "departure" in item.fields then item.fields["departure"] else Obj(map[])
  }

  /** One departure record: direction, real and base departure times,
      line name and stop area name. */
  function MapDeparture(item: Json): (r: Result<Json, string>)
    ensures r.Ok? ==>
      && r.value.Obj?
      && r.value.fields.Keys == {"direction", "departure_time", "base_departure_time", "line", "stop_area"}
    // the record holds the five chained lookups in the departure (or `{}`),
    // and the mapping fails exactly when one of the `get` calls has no dict
    ensures var d := Departure(item);
      && (r.Err? <==>
            || !item.Obj? || !d.Obj?
            || Path(d, ["direction", "name"]).Err?
            || Path(d, ["stop_date_time", "departure_date_time"]).Err?
            || Path(d, ["stop_date_time", "base_departure_date_time"]).Err?
            || Path(d, ["route", "line", "name"]).Err?
            || Path(d, ["stop_point", "stop_area", "name"]).Err?)
      && (r.Ok? ==>
            && Member(r.value, "direction") == Path(d, ["direction", "name"]).value
            && Member(r.value, "departure_time") == Path(d, ["stop_date_time", "departure_date_time"]).value
            && Member(r.value, "base_departure_time") == Path(d, ["stop_date_time", "base_departure_date_time"]).value
            && Member(r.value, "line") == Path(d, ["route", "line", "name"]).value
            && Member(r.value, "stop_area") == Path(d, ["stop_point", "stop_area", "name"]).value)
    ensures item.Obj? && "departure" !in item.fields ==>
      r == Ok(Obj(map["direction" := Null, "departure_time" := Null, "base_departure_time" := Null,
                      "line" := Null, "stop_area" := Null]))
  {
    if !item.Obj? then Err("AttributeError")
    else
      var departure := Departure(item);
      if !departure.Obj? then Err("AttributeError")
      else
        var direction := Path(departure, ["direction", "name"]);
        var time := Path(departure, ["stop_date_time", "departure_date_time"]);
        var baseTime := Path(departure, ["stop_date_time", "base_departure_date_time"]);
        var line := Path(departure, ["route", "line", "name"]);
        var stopArea := Path(departure, ["stop_point", "stop_area", "name"]);
        if direction.Err? then Err(direction.error)
        else if time.Err? then Err(time.error)
        else if baseTime.Err? then Err(baseTime.error)
        else if line.Err? then Err(line.error)
        else if stopArea.Err? then Err(stopArea.error)
        else
          assert departure == Obj(map[]) ==>
            && direction == Ok(Null) && time == Ok(Null) && baseTime == Ok(Null)
            && line == Ok(Null) && stopArea == Ok(Null) by {
            if departure == Obj(map[]) {
              EmptyPath(["direction", "name"]);
              EmptyPath(["stop_date_time", "departure_date_time"]);
              EmptyPath(["stop_date_time", "base_departure_date_time"]);
              EmptyPath(["route", "line", "name"]);
              EmptyPath(["stop_point", "stop_area", "name"]);
            }
          }
          Ok(Obj(map[
            "direction" := direction.value,
            "departure_time" := time.value,
            "base_departure_time" := baseTime.value,
            "line" := line.value,
            "stop_area" := stopArea.value]))
  }

  /** `data.get("departures", [])` as the `for` loop iterates it: a list
      gives its items, an empty dict or string gives none; anything else
      raises (non-empty dicts and strings yield strings, which have no
      `get`; other values are not iterable). */
  function DepartureItems(data: Json): (r: Result<seq<Json>, string>)
    ensures r.Ok? ==> data.Obj?
    ensures data.Obj? && "departures" !in data.fields ==> r == Ok([])
    ensures data.Obj? && "departures" in data.fields && data.fields["departures"].Arr? ==>
      r == Ok(data.fields["departures"].items)
  {
    if !data.Obj? then Err("AttributeError")
    else
      var v := if "departures" in data.fields then data.fields["departures"] else Arr([]);
      match v
      case Arr(items) => Ok(items)
      case Obj(m) => if m == map[] then Ok([]) else Err("AttributeError")
      case Str(s) => if s == [] then Ok([]) else Err("AttributeError")
      case _ => Err("TypeError")
  }

  /** The `for` loop: one record per item, in order; the first item that
      cannot be mapped stops it with its error. */
  method MapDepartures(items: seq<Json>) returns (r: Result<seq<Json>, string>)
    ensures r.Ok? <==> forall i :: 0 <= i < |items| ==> MapDeparture(items[i]).Ok?
    ensures r.Ok? ==> |r.value| == |items| && forall i :: 0 <= i < |items| ==> Ok(r.value[i]) == MapDeparture(items[i])
    ensures r.Err? ==> exists i ::
      && 0 <= i < |items| && MapDeparture(items[i]) == Err(r.error)
      && forall k :: 0 <= k < i ==> MapDeparture(items[k]).Ok?
  {
    var departures: seq<Json> := [];
    for i := 0 to |items|
      invariant |departures| == i
      invariant forall k :: 0 <= k < i ==> Ok(departures[k]) == MapDeparture(items[k])
    {
      var d := MapDeparture(items[i]);
      if d.Err? {
        return Err(d.error);
      }
      departures := departures + [d.value];
    }
    return Ok(departures);
  }

  /** The route's answer for a decoded body: a 200 body with the stop
      area, the clamped count and one record per departure item, in order,
      when every item maps; otherwise an exception. */
  predicate DeparturesAnswer(r: RouteResult, stopAreaId: string, count: int, data: Json) {
    var items := DepartureItems(data);
    && (r.Body? <==> items.Ok? && forall i :: 0 <= i < |items.value| ==> MapDeparture(items.value[i]).Ok?)
    && (!r.Body? ==> r == Unhandled)
    && (r.Body? ==>
          && r.json.Obj? && r.json.fields.Keys == {"stop_area_id", "count", "departures"}
          && Member(r.json, "stop_area_id") == Str(stopAreaId)
          && Member(r.json, "count") == Num(count)
          && Member(r.json, "departures").Arr?
          && var ds := Member(r.json, "departures").items;
          && |ds| == |items.value|
          && forall i :: 0 <= i < |ds| ==> Ok(ds[i]) == MapDeparture(items.value[i]))
  }

  /** The part of the route after a successful request. */
  method Departures(stopAreaId: string, count: int, data: Json) returns (r: RouteResult)
    ensures DeparturesAnswer(r, stopAreaId, count, data)
  {
    var items := DepartureItems(data);
    if items.Err? {
      return Unhandled;
    }
    var departures := MapDepartures(items.value);
    if departures.Err? {
      return Unhandled;
    }
    r := Body(Obj(map["stop_area_id" := Str(stopAreaId), "count" := Num(count), "departures" := Arr(departures.value)]));
  }

  /** `fetch_line_l_departures(stop_area_id, count)`. */
  method FetchLineLDepartures(env: Option<string>, stopAreaId: string, count: int, fetch: TrainQuery -> Fetched)
    returns (r: RouteResult)
    // no usable key: 503 before anything else is looked at
    ensures Blank(env.GetOr("")) ==> r == HttpError(503, MissingKey)
    // a blank stop area: 400, with no request made
    ensures !Blank(env.GetOr("")) && Blank(stopAreaId) ==> r == HttpError(400, MissingStop)
    // otherwise one request, with the stripped key and the clamped count
    ensures !Blank(env.GetOr("")) && !Blank(stopAreaId) ==>
      var q := fetch(TrainQuery(DeparturesUrl(stopAreaId), ClampCount(count), LineFilter, Strip(env.GetOr("")), TimeoutS));
      && (q.FetchFailed? ==> r == HttpError(502, "sncf lookup failed: " + q.message))
      && (q.Fetched? && q.body.NotJson? ==> r == Unhandled)
      && (q.Fetched? && q.body.Decoded? ==> DeparturesAnswer(r, stopAreaId, ClampCount(count), q.body.value))
  {
    var apiKey := Strip(env.GetOr(""));
    if apiKey == [] {
      return HttpError(503, MissingKey);
    }
    assert !Blank(env.GetOr(""));
    if Strip(stopAreaId) == [] {
      return HttpError(400, MissingStop);
    }
    assert !Blank(stopAreaId);
    r := Lookup(stopAreaId, ClampCount(count), apiKey, fetch);
  }

  /** The request and what follows it, once the key and the stop area are
      known to be usable. */
  method Lookup(stopAreaId: string, count: int, apiKey: string, fetch: TrainQuery -> Fetched) returns (r: RouteResult)
    ensures
      var q := fetch(TrainQuery(DeparturesUrl(stopAreaId), count, LineFilter, apiKey, TimeoutS));
      && (q.FetchFailed? ==> r == HttpError(502, "sncf lookup failed: " + q.message))
      && (q.Fetched? && q.body.NotJson? ==> r == Unhandled)
      && (q.Fetched? && q.body.Decoded? ==> DeparturesAnswer(r, stopAreaId, count, q.body.value))
  {
    var q := fetch(TrainQuery(DeparturesUrl(stopAreaId), count, LineFilter, apiKey, TimeoutS));
    if q.FetchFailed? {
      return HttpError(502, "sncf lookup failed: " + q.message);
    }
    if q.body.NotJson? {
      return Unhandled;
    }
    r := Departures(stopAreaId, count, q.body.value);
  }
}
