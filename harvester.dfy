/**
 * The credential harvester (`CredentialHarvester`): it watches the browser's
 * outgoing requests, and when one of them is a generation request it keeps
 * the headers that matter, the cookies, the URL and the JSON body as the
 * latest credentials and counts the capture.
 *
 * A request's headers are given in the order the browser reports them; the
 * clock reading is a parameter and `parse` stands for `json.loads` (None when
 * it raises). The callback and the log lines are outside the model.
 */
module Harvester {
  import opened Wrappers
  import opened Strings
  import opened JsonValue

  /** URL fragments that mark a request worth inspecting. */
  const TargetPatterns: seq<string> := ["batchGraphql", "StreamGenerateContent"]

  /** The header names kept from a captured request, compared case-insensitively. */
  const ImportantHeaders: seq<string> := [
    "authorization", "x-goog-authuser", "x-goog-first-party-reauth", "x-origin", "origin", "referer",
    "x-same-domain", "cookie", "x-goog-request-params", "x-client-data", "user-agent",
    "sec-fetch-site", "sec-fetch-mode", "sec-fetch-dest"
  ]

  /** Words of which one must occur in the request body for it to be a generation request. */
  const ContentKeywords: seq<string> := ["StreamGenerateContent", "generateContent", "Predict", "Image"]

  /** Some word of `words` occurs in `s`. */
  predicate AnyIn(words: seq<string>, s: string) {
    exists w | w in words :: Contains(s, w)
  }

  /** `is_target_request`. */
  function IsTargetRequest(url: string): (r: bool)
    ensures r <==> Contains(url, "batchGraphql") || Contains(url, "StreamGenerateContent")
  {
    AnyIn(TargetPatterns, url)
  }

  /** The body text the keyword filter looks at: the post data, or "" when there is none. */
  function PostText(postData: Option<string>): string {
    if postData.Some? then postData.value else ""
  }

  /** The keyword filter of `handle_request`. */
  function IsContentRequest(postData: Option<string>): (r: bool)
    ensures r <==> exists w :: w in ContentKeywords && Contains(PostText(postData), w)
    ensures postData.None? || postData == Some("") ==> !r
  {
    if postData.None? || postData == Some("") then
      assert forall w :: w in ContentKeywords ==> |w| > 0;
      false
    else AnyIn(ContentKeywords, postData.value)
  }

  /** The captured body: the parsed post data, or null when it is missing, empty or not JSON. */
  function BodyOf(postData: Option<string>, parse: string -> Option<Json>): (r: Json)
    ensures postData.None? || postData == Some("") ==> r == Null
    ensures postData.Some? && postData.value != "" && parse(postData.value).Some? ==> r == parse(postData.value).value
    ensures postData.Some? && parse(postData.value).None? ==> r == Null
  {
    if postData.None? || postData.value == "" then Null
    else match parse(postData.value)
      case None => Null
      case Some(j) => j
  }

  /** The index of the first header whose name equals `key` ignoring case, if any. */
  function FirstMatch(all: seq<(string, string)>, key: string): (r: Option<nat>)
    ensures r.Some? ==> r.value < |all| && Lower(all[r.value].0) == Lower(key)
    ensures r.Some? ==> forall j :: 0 <= j < r.value ==> Lower(all[j].0) != Lower(key)
    ensures r.None? ==> forall j :: 0 <= j < |all| ==> Lower(all[j].0) != Lower(key)
  {
    if all == [] then None
    else if Lower(all[0].0) == Lower(key) then Some(0)
    else match FirstMatch(all[1..], key)
      case None => None
      case Some(j) => Some(j + 1)
  }

  /**
   * The headers kept for `keys`, taken in order: for each key, the first
   * matching header, under its own spelling and with its own value.
   */
  function Extracted(all: seq<(string, string)>, keys: seq<string>): map<string, string>
    decreases |keys|
  {
    if keys == [] then map[]
    else
      var kept := Extracted(all, keys[..|keys| - 1]);
      match FirstMatch(all, keys[|keys| - 1])
      case None => kept
      case Some(j) => kept[all[j].0 := all[j].1]
  }

  /** `all_headers.get("cookie", "")`: the value under exactly that name. */
  function CookieOf(all: seq<(string, string)>): (r: string)
    ensures r != "" ==> exists j :: 0 <= j < |all| && all[j] == ("cookie", r)
    ensures forall j :: 0 <= j < |all| && all[j].0 == "cookie" && (forall i :: 0 <= i < j ==> all[i].0 != "cookie") ==>
      r == all[j].1
    ensures (forall j :: 0 <= j < |all| ==> all[j].0 != "cookie") ==> r == ""
  {
    if all == [] then ""
    else if all[0].0 == "cookie" then all[0].1
    else
      var r := CookieOf(all[1..]);
      assert r != "" ==> exists j :: 0 <= j < |all[1..]| && all[1..][j] == ("cookie", r);
      assert forall j :: 1 <= j < |all| ==> all[j] == all[1..][j - 1];
      r
  }

  /** The headers of `all` kept for `keys`, found by scanning the request's headers once per key. */
  method ExtractHeaders(all: seq<(string, string)>, keys: seq<string>) returns (headers: map<string, string>)
    ensures headers == Extracted(all, keys)
  {
    headers := map[];
    var k := 0;
    while k < |keys|
      invariant 0 <= k <= |keys|
      invariant headers == Extracted(all, keys[..k])
    {
      var key := keys[k];
      assert keys[..k + 1][..k] == keys[..k];
      var j := 0;
      while j < |all|
        invariant 0 <= j <= |all|
        invariant forall i :: 0 <= i < j ==> Lower(all[i].0) != Lower(key)
        invariant headers == Extracted(all, keys[..k])
      {
        if Lower(all[j].0) == Lower(key) {
          headers := headers[all[j].0 := all[j].1];
          break;
        }
        j := j + 1;
      }
      k := k + 1;
    }
    assert keys[..|keys|] == keys;
  }

  /** One captured request. */
  datatype Capture = Capture(headers: map<string, string>, cookies: string, url: string, body: Json, timestamp: int)

  /** The record `handle_request` stores for a request it captures. */
  function Captured(url: string, all: seq<(string, string)>, postData: Option<string>, now: int,
                    parse: string -> Option<Json>): Capture
  {
    Capture(Extracted(all, ImportantHeaders), CookieOf(all), url, BodyOf(postData, parse), now)
  }

  class CredentialHarvester {
    var lastCredentials: Option<Capture>
    var captureCount: nat

    /** Every capture is counted, and a capture has been made exactly when one is stored. */
    predicate Valid()
      reads this
    {
      captureCount > 0 <==> lastCredentials.Some?
    }

    constructor()
      ensures Valid() && lastCredentials == None && captureCount == 0
    {
      lastCredentials := None;
      captureCount := 0;
    }

    /** `get_credentials`. */
    function GetCredentials(): Option<Capture>
      reads this
    {
      lastCredentials
    }

    /** `capture_count`. */
    function CaptureCount(): nat
      reads this
    {
      captureCount
    }

    /**
     * `handle_request`: requests to other URLs, and requests whose body names
     * no generation keyword, change nothing; any other request becomes the
     * latest credentials and is counted once.
     */
    method HandleRequest(url: string, all: seq<(string, string)>, postData: Option<string>, now: int,
                         parse: string -> Option<Json>)
      requires Valid()
      modifies this
      ensures Valid()
      ensures !IsTargetRequest(url) || !IsContentRequest(postData) ==>
        GetCredentials() == old(GetCredentials()) && CaptureCount() == old(CaptureCount())
      ensures IsTargetRequest(url) && IsContentRequest(postData) ==>
        GetCredentials() == Some(Captured(url, all, postData, now, parse)) &&
        CaptureCount() == old(CaptureCount()) + 1
    {
      if !IsTargetRequest(url) {
        return;
      }
      var headers := ExtractHeaders(all, ImportantHeaders);
      var cookies := CookieOf(all);
      var body := BodyOf(postData, parse);
      if !IsContentRequest(postData) {
        return;
      }
      lastCredentials := Some(Capture(headers, cookies, url, body, now));
      captureCount := captureCount + 1;
    }
  }

  /** No two keys of `keys` are equal ignoring case. */
  predicate DistinctIgnoringCase(keys: seq<string>) {
    forall i, j :: 0 <= i < j < |keys| ==> Lower(keys[i]) != Lower(keys[j])
  }

  /**
   * Nothing but matches is kept: every kept header is, under its own name and
   * with its own value, the first match of one of the keys.
   */
  lemma {:induction false} ExtractedOnlyMatches(all: seq<(string, string)>, keys: seq<string>, h: string)
    requires h in Extracted(all, keys)
    ensures exists i, j :: 0 <= i < |keys| && FirstMatch(all, keys[i]) == Some(j) && all[j] == (h, Extracted(all, keys)[h])
    decreases |keys|
  {
    var front := keys[..|keys| - 1];
    var m := FirstMatch(all, keys[|keys| - 1]);
    if m.Some? && all[m.value].0 == h {
      assert FirstMatch(all, keys[|keys| - 1]) == Some(m.value);
    } else {
      ExtractedOnlyMatches(all, front, h);
      var i, j :| 0 <= i < |front| && FirstMatch(all, front[i]) == Some(j) && all[j] == (h, Extracted(all, front)[h]);
      assert keys[i] == front[i];
    }
  }

  /**
   * Every key with a match is served: when the keys differ ignoring case, the
   * first header matching a key is kept under its own name with its own value.
   */
  lemma {:induction false} ExtractedKeepsFirstMatch(all: seq<(string, string)>, keys: seq<string>, i: nat, j: nat)
    requires DistinctIgnoringCase(keys)
    requires i < |keys| && FirstMatch(all, keys[i]) == Some(j)
    ensures all[j].0 in Extracted(all, keys) && Extracted(all, keys)[all[j].0] == all[j].1
    decreases |keys|
  {
    var last := |keys| - 1;
    var front := keys[..last];
    if i < last {
      assert DistinctIgnoringCase(front) by {
        forall a, b | 0 <= a < b < |front| ensures Lower(front[a]) != Lower(front[b]) {
          assert front[a] == keys[a] && front[b] == keys[b];
        }
      }
      assert front[i] == keys[i];
      ExtractedKeepsFirstMatch(all, front, i, j);
      assert Lower(keys[last]) != Lower(keys[i]);
    }
  }

  /** A key that no header matches, ignoring case, adds nothing. */
  lemma UnmatchedKeyIgnored(all: seq<(string, string)>, keys: seq<string>, key: string)
    requires forall j :: 0 <= j < |all| ==> Lower(all[j].0) != Lower(key)
    ensures Extracted(all, keys + [key]) == Extracted(all, keys)
  {
    assert (keys + [key])[..|keys|] == keys;
  }

  /** The kept header names differ from one another ignoring case, so each of them is served. */
  lemma ImportantHeadersDistinct()
    ensures DistinctIgnoringCase(ImportantHeaders)
  {
    var keys := ImportantHeaders;
    // Names of equal length differ at one position.
    assert Lower(keys[0])[0] != Lower(keys[6])[0] && Lower(keys[0])[0] != Lower(keys[9])[0];
    assert Lower(keys[6])[2] != Lower(keys[9])[2];
    assert Lower(keys[4])[0] != Lower(keys[7])[0];
    assert Lower(keys[11])[10] != Lower(keys[12])[10] && Lower(keys[11])[10] != Lower(keys[13])[10];
    assert Lower(keys[12])[10] != Lower(keys[13])[10];
  }
}
