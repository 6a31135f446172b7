/**
 * The gateway's credential store (`CredentialManager`): the latest harvested
 * request (headers, cookies, URL, body template), the time it was stored, and
 * whether requests waiting for a refresh may proceed.
 *
 * Clock readings are parameters; `dumps` is `json.dumps`. Disk persistence and
 * the asyncio waits are outside the model; the `refresh_event` flag is kept as
 * a boolean so that updates can be seen to release waiting requests.
 */
module CredentialStore {
  import opened Wrappers
  import opened JsonValue

  /** The header that carries the short-lived reauthentication token. */
  const ReauthHeader: string := "X-Goog-First-Party-Reauth"

  /** Python truthiness of the stored harvest: None and the empty dictionary are false. */
  predicate Present(harvest: Option<map<string, Json>>) {
    harvest.Some? && harvest.value != map[]
  }

  /** The harvest as `update` stores it: a non-string body serialised, and the timestamp set. */
  function Stamped(data: map<string, Json>, now: int, dumps: Json -> string): (r: map<string, Json>)
    ensures r.Keys == data.Keys + {"timestamp"}
    ensures r["timestamp"] == Num(now)
    ensures "body" in data ==> r["body"].Str?
    ensures "body" in data && data["body"].Str? ==> r["body"] == data["body"]
    ensures "body" in data && !data["body"].Str? ==> r["body"] == Str(dumps(data["body"]))
    ensures forall k :: k in data && k != "body" && k != "timestamp" ==> r[k] == data[k]
  {
    var withBody :=
      if "body" in data && !data["body"].Str? then data["body" := Str(dumps(data["body"]))] else data;
    withBody["timestamp" := Num(now)]
  }

  /** `old_val[:20]` raises unless the old header value is a string or a list. */
  predicate Sliceable(j: Json) {
    j.Str? || j.Arr?
  }

  class CredentialManager {
    var latestHarvest: Option<map<string, Json>>
    var lastUpdated: int
    /** `refresh_event` is set: requests waiting for credentials may proceed. */
    var refreshReady: bool
    /** `refresh_complete_event` is set: the browser page is ready again. */
    var uiReady: bool

    /** A fresh store: nothing harvested, both events set. */
    constructor()
      ensures latestHarvest == None && lastUpdated == 0
      ensures refreshReady && uiReady
    {
      latestHarvest := None;
      lastUpdated := 0;
      refreshReady := true;
      uiReady := true;
    }

    /** `update`: store a new harvest, stamped with the current time, and release waiting requests. */
    method Update(data: map<string, Json>, now: int, dumps: Json -> string)
      modifies this
      ensures latestHarvest == Some(Stamped(data, now, dumps))
      ensures lastUpdated == now
      ensures refreshReady && uiReady == old(uiReady)
    {
      var harvest := data;
      if "body" in harvest && !harvest["body"].Str? {
        harvest := harvest["body" := Str(dumps(harvest["body"]))];
      }
      latestHarvest := Some(harvest);
      lastUpdated := now;
      latestHarvest := Some(latestHarvest.value["timestamp" := Num(lastUpdated)]);
      refreshReady := true;
    }

    /** The headers `update_token` would read, when it acts at all. */
    function StoredHeaders(): Option<Json>
      reads this
    {
      if Present(latestHarvest) && "headers" in latestHarvest.value then Some(latestHarvest.value["headers"])
      else None
    }

    /**
     * `update_token`: replace the reauthentication header with the token as a
     * one-element JSON list. Without a stored harvest or headers nothing happens;
     * headers that are not a dictionary, or an old value that cannot be sliced,
     * raise before anything changes.
     */
    method UpdateToken(token: string, now: int, dumps: Json -> string) returns (r: Result<(), string>)
      modifies this
      ensures old(StoredHeaders()).None? ==>
        r.Ok? && latestHarvest == old(latestHarvest) && lastUpdated == old(lastUpdated) &&
        refreshReady == old(refreshReady)
      ensures old(StoredHeaders()).Some? && !old(StoredHeaders()).value.Obj? ==>
        r.Err? && latestHarvest == old(latestHarvest) && lastUpdated == old(lastUpdated) &&
        refreshReady == old(refreshReady)
      ensures old(StoredHeaders()).Some? && old(StoredHeaders()).value.Obj? ==>
        var headers := old(StoredHeaders()).value.fields;
        if !Sliceable(Lookup(headers, ReauthHeader, Str("None"))) then
          r.Err? && latestHarvest == old(latestHarvest) && lastUpdated == old(lastUpdated) &&
          refreshReady == old(refreshReady)
        else
          r.Ok? && lastUpdated == now && refreshReady &&
          latestHarvest == Some(old(latestHarvest).value["headers" :=
            Obj(headers[ReauthHeader := Str(dumps(Arr([Str(token)])))])])
      ensures uiReady == old(uiReady)
    {
      if Present(latestHarvest) && "headers" in latestHarvest.value {
        var headers := latestHarvest.value["headers"];
        if !headers.Obj? {
          return Err("AttributeError: object has no attribute 'get'");
        }
        var oldValue := Lookup(headers.fields, ReauthHeader, Str("None"));
        if !Sliceable(oldValue) {
          return Err("TypeError: object is not subscriptable");
        }
        var formatted := dumps(Arr([Str(token)]));
        latestHarvest := Some(latestHarvest.value["headers" := Obj(headers.fields[ReauthHeader := Str(formatted)])]);
        lastUpdated := now;
        refreshReady := true;
      }
      return Ok(());
    }

    /** `get_credentials`: the stored harvest, or None when there is none or it is empty. */
    function GetCredentials(): (r: Option<map<string, Json>>)
      reads this
      ensures r.Some? <==> Present(latestHarvest)
      ensures r.Some? ==> r == latestHarvest
    {
      if Present(latestHarvest) then latestHarvest else None
    }
  }

  /** After `update`, credentials are available and carry the update's time as their timestamp. */
  lemma UpdateMakesAvailable(data: map<string, Json>, now: int, dumps: Json -> string)
    ensures Present(Some(Stamped(data, now, dumps)))
    ensures Stamped(data, now, dumps)["timestamp"] == Num(now)
  {
    assert "timestamp" in Stamped(data, now, dumps);
  }

  /** A token update leaves every other header, and every other part of the harvest, as it was. */
  lemma TokenUpdateLocal(harvest: map<string, Json>, headers: map<string, Json>, formatted: string)
    requires "headers" in harvest && harvest["headers"] == Obj(headers)
    ensures var h := harvest["headers" := Obj(headers[ReauthHeader := Str(formatted)])];
      h.Keys == harvest.Keys &&
      (forall k :: k in harvest && k != "headers" ==> h[k] == harvest[k]) &&
      h["headers"].fields.Keys == headers.Keys + {ReauthHeader} &&
      (forall k :: k in headers && k != ReauthHeader ==> h["headers"].fields[k] == headers[k])
  {
  }

  /** Stamping twice with the same clock reading is stamping once. */
  lemma StampedIdempotent(data: map<string, Json>, now: int, dumps: Json -> string)
    ensures Stamped(Stamped(data, now, dumps), now, dumps) == Stamped(data, now, dumps)
  {
    var once := Stamped(data, now, dumps);
    var twice := Stamped(once, now, dumps);
    assert twice.Keys == once.Keys;
    forall k | k in once ensures twice[k] == once[k] {
    }
  }
}
