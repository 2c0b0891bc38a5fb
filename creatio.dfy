/**
 * taiga_to_bpm/creatio.py: the client of the CRM's OData service. URLs are built from the host,
 * the protocol version's service path and the entity name; the server's answers are inputs of the
 * calls that receive them, and the requests the client makes are recorded in order.
 */
module Creatio {
  import opened Wrappers
  import opened Text
  import opened Json

  /** The members of `ODATA_version`. */
  datatype OdataVersion = V3 | V4 | V4Core | Test

  /** `str(version)`, as the error texts and the envelope show it. */
  function VersionName(v: OdataVersion): string {
    match v
    case V3 => "ODATA_version.v3"
    case V4 => "ODATA_version.v4"
    case V4Core => "ODATA_version.v4core"
    case Test => "ODATA_version.test"
  }

  /** The `service_path` of each version (taiga_to_bpm/creatio_constants.py). */
  function ServicePath(v: OdataVersion): string {
    match v
    case V3 => "/0/ServiceModel/EntityDataService.svc"
    case V4 => "/0/odata"
    case V4Core => "/odata"
    case Test => "/0/ServiceModel/EntityDataService.svc"
  }

  /** The request headers a version starts from, before the CSRF token is filled in. */
  function HeaderTemplate(v: OdataVersion): map<string, string> {
    if v == V3 then
      map["Content-Type" := "application/json;odata=verbose", "ForceUseSession" := "true",
          "Accept" := "application/json;odata=verbose", "BPMCSRF" := ""]
    else
      map["Content-Type" := "application/json; charset=utf-8", "ForceUseSession" := "true",
          "Accept" := "application/json; charset=utf-8", "BPMCSRF" := ""]
  }

  /**
   * A module-level header dictionary. Every client of the same version holds this one object, so
   * the CSRF token one client stores is the token all of them send.
   */
  class Headers {
    var fields: map<string, string>

    constructor (fields: map<string, string>)
      ensures this.fields == fields
    {
      this.fields := fields;
    }
  }

  /** The service link: the host followed by the version's service path. */
  function ServiceLink(host: string, v: OdataVersion): (link: string)
    ensures |link| >= |host| && link[..|host|] == host
  {
    host + ServicePath(v)
  }

  /** The URL an object of `name` is created at: v3 addresses the entity's collection. */
  function CreateUrl(link: string, v: OdataVersion, name: string): string {
    if v == V3 then link + "/" + name + "Collection" else link + "/" + name
  }

  /**
   * The URL of one object, by key (section 4.3 of OData Version 4.0 Part 2 URL Conventions for v4):
   * v3 writes the key as a guid literal in the collection, v4 and v4core put it in parentheses,
   * the test version has none.
   */
  function KeyUrl(link: string, v: OdataVersion, name: string, id: string): Option<string> {
    match v
    case V3 => Some(link + "/" + name + "Collection(guid'" + id + "')")
    case V4 => Some(link + "/" + name + "(" + id + ")")
    case V4Core => Some(link + "/" + name + "(" + id + ")")
    case Test => None
  }

  /** Different keys address different objects. */
  lemma KeyUrlInjective(link: string, v: OdataVersion, name: string, a: string, b: string)
    requires KeyUrl(link, v, name, a).Some? && KeyUrl(link, v, name, a) == KeyUrl(link, v, name, b)
    ensures a == b
  {
    var head := if v == V3 then link + "/" + name + "Collection(guid'" else link + "/" + name + "(";
    var tail := if v == V3 then "')" else ")";
    assert KeyUrl(link, v, name, a).value == head + a + tail;
    assert KeyUrl(link, v, name, b).value == head + b + tail;
    assert (head + a + tail)[|head|..|head| + |a|] == a;
    assert (head + b + tail)[|head|..|head| + |b|] == b;
  }

  /** The query string `get_object_collection` builds: every option written as "?$" + option. */
  function QueryString(options: seq<string>): string {
    if |options| == 0 then "" else QueryString(options[..|options| - 1]) + "?$" + options[|options| - 1]
  }

  /**
   * The query string as section 5.1 of OData Version 4.0 Part 2 URL Conventions writes it: one "?",
   * then the system query options separated by "&".
   */
  function Odata51QueryString(options: seq<string>): string {
    if |options| == 0 then "" else "?" + Join(OptionTexts(options), "&")
  }

  function OptionTexts(options: seq<string>): (r: seq<string>)
    ensures |r| == |options| && forall k :: 0 <= k < |options| ==> r[k] == "$" + options[k]
  {
    seq(|options|, k requires 0 <= k < |options| => "$" + options[k])
  }

  /** The loop `_params += f"?${parameter}"`. */
  method BuildQueryString(options: seq<string>) returns (params: string)
    ensures params == QueryString(options)
  {
    params := "";
    for k := 0 to |options|
      invariant params == QueryString(options[..k])
    {
      assert options[..k + 1][..k] == options[..k];
      params := params + "?$" + options[k];
    }
    assert options[..|options|] == options;
  }

  /** With one option the two spellings agree, which is the only way the client itself calls it. */
  lemma SingleOptionAgrees(option: string)
    ensures QueryString([option]) == Odata51QueryString([option])
  {
    assert [option][..0] == [];
    assert OptionTexts([option]) == ["$" + option];
  }

  /** With two or more options the client starts the second one with "?" where section 5.1 has "&". */
  lemma SecondOptionStartsWithQuestionMark(options: seq<string>)
    requires |options| >= 2
    ensures var k := 2 + |options[0]|;
            k < |QueryString(options)| && QueryString(options)[k] == '?'
  {
    QueryStringPrefix(options, 2);
    var o := options[..2];
    var two := QueryString(o);
    assert o[..1] == [options[0]];
    assert QueryString([options[0]]) == "?$" + options[0] by {
      assert [options[0]][..0] == [];
    }
    assert two == QueryString(o[..1]) + "?$" + o[1];
    assert two == "?$" + options[0] + "?$" + options[1];
    assert two[2 + |options[0]|] == '?';
  }

  lemma {:induction false} QueryStringPrefix(options: seq<string>, n: nat)
    requires n <= |options|
    ensures |QueryString(options[..n])| <= |QueryString(options)|
    ensures QueryString(options)[..|QueryString(options[..n])|] == QueryString(options[..n])
  {
    if n < |options| {
      var m := |options| - 1;
      assert options[..m][..n] == options[..n];
      QueryStringPrefix(options[..m], n);
      var q := QueryString(options[..m]);
      assert QueryString(options) == q + ("?$" + options[m]);
      assert (q + ("?$" + options[m]))[..|q|] == q;
    } else {
      assert options[..n] == options;
    }
  }

  /** The first '&' a section 5.1 query string has: right after the first option. */
  lemma Odata51HasAmpersand(options: seq<string>)
    requires |options| >= 2
    ensures var k := 2 + |options[0]|;
            k < |Odata51QueryString(options)| && Odata51QueryString(options)[k] == '&'
  {
    var texts := OptionTexts(options);
    JoinStartsWith(texts, "&");
    assert texts[0] == "$" + options[0];
  }

  lemma JoinStartsWith(parts: seq<string>, sep: string)
    requires |parts| >= 2
    ensures |parts[0] + sep| <= |Join(parts, sep)| && Join(parts, sep)[..|parts[0] + sep|] == parts[0] + sep
  {
    assert Join(parts, sep) == parts[0] + sep + Join(parts[1..], sep);
  }

  /** Query strings with two or more options are not written the way section 5.1 requires. */
  lemma QueryStringIsNotOdata51(options: seq<string>)
    requires |options| >= 2
    ensures QueryString(options) != Odata51QueryString(options)
  {
    SecondOptionStartsWithQuestionMark(options);
    Odata51HasAmpersand(options);
  }

  // ---------------------------------------------------------------------------------------------
  // Answers and requests.

  /** The body of an answer once `json.loads` has run on it: a JSON value, or the decode error. */
  datatype Decoded = Body(json: Json) | Undecodable(error: string)

  /** An HTTP answer: its raw content, its decoded body and its status code. */
  datatype Answer = Answer(content: string, decoded: Decoded, status: int)

  /** A request the client made. */
  datatype Request = Post(url: string, data: Dict) | Delete(url: string) | Fetch(url: string)

  function HeadersJson(headers: map<string, string>): Dict {
    map k | k in headers :: JStr(headers[k])
  }

  /** The dictionary `create_object` returns when the answer cannot be read. */
  function Envelope(error: string, a: Answer, url: string, headers: map<string, string>, data: Dict, v: OdataVersion): Json {
    JObj(map[
      "error" := JStr(error),
      "response" := JStr(a.content),
      "url" := JStr(url),
      "headers" := JObj(HeadersJson(headers)),
      "data" := JObj(data),
      "ODATA_version" := JStr(VersionName(v)),
      "HTTP_status_code" := JInt(a.status)])
  }

  /**
   * What `create_object` returns for an answer: v3 unwraps "d" (a dict without it gives None), the
   * other versions return the decoded body; a body that cannot be read gives the envelope.
   */
  function CreateResult(v: OdataVersion, url: string, headers: map<string, string>, data: Dict, a: Answer): Option<Json> {
    match a.decoded
    case Undecodable(e) => Some(Envelope(e, a, url, headers, data, v))
    case Body(j) =>
      if v != V3 then Some(j)
      else if j.JObj? then (if "d" in j.fields then Some(j.fields["d"]) else None)
      else Some(Envelope(StrKeyError(j), a, url, headers, data, v))
  }

  /** The answers `create_object` gives back: v3's missing "d" is the only None, and the envelope has exactly its seven keys. */
  lemma CreateResultCases(v: OdataVersion, url: string, headers: map<string, string>, data: Dict, a: Answer)
    ensures CreateResult(v, url, headers, data, a).None? <==>
      v == V3 && a.decoded.Body? && a.decoded.json.JObj? && "d" !in a.decoded.json.fields
    ensures a.decoded.Undecodable? ==>
      var r := CreateResult(v, url, headers, data, a);
      r.Some? && r.value.JObj?
      && r.value.fields.Keys == {"error", "response", "url", "headers", "data", "ODATA_version", "HTTP_status_code"}
      && r.value.fields["url"] == JStr(url) && r.value.fields["data"] == JObj(data)
    ensures v != V3 && a.decoded.Body? ==> CreateResult(v, url, headers, data, a) == Some(a.decoded.json)
  {
  }

  /** What `forms_auth` returns: `(True, cookies)` exactly when the answer's "Code" is 0. */
  datatype AuthOutcome = Authenticated(cookies: map<string, string>) | Refused(message: Json)

  /** Python's `x == 0` on a decoded value: True and False compare as 1 and 0. */
  predicate IsZero(j: Json) {
    j == JInt(0) || j == JBool(false)
  }

  function FormsAuth(body: Json, cookies: map<string, string>): Result<AuthOutcome> {
    var code :- Index(body, "Code");
    if IsZero(code) then Ok(Authenticated(cookies))
    else
      var message :- Index(body, "Message");
      Ok(Refused(message))
  }

  lemma FormsAuthSucceedsIffCodeIsZero(body: Json, cookies: map<string, string>)
    requires body.JObj? && "Code" in body.fields && "Message" in body.fields
    ensures FormsAuth(body, cookies).Ok?
    ensures FormsAuth(body, cookies).value.Authenticated? <==> IsZero(body.fields["Code"])
    ensures FormsAuth(body, cookies).value.Authenticated? ==> FormsAuth(body, cookies).value.cookies == cookies
  {
  }

  /** The error text of the `KeyError` a cookie jar raises for a cookie it does not hold. */
  const NoCsrfCookie: string := "\"name='BPMCSRF', domain=None, path=None\""

  /**
   * The test version's headers are the string "test", so the login's `requests.post(headers=...)`
   * raises while preparing them, before any request is sent.
   */
  const TestHeadersError: string := "'str' object has no attribute 'items'"

  class Client {
    const host: string
    const version: OdataVersion
    const serviceLink: string
    /** The shared header dictionary of the version. */
    const headers: Headers
    const cookies: map<string, string>
    var requests: seq<Request>

    constructor Make(host: string, version: OdataVersion, headers: Headers, cookies: map<string, string>)
      ensures this.host == host && this.version == version && this.headers == headers
      ensures this.cookies == cookies && serviceLink == ServiceLink(host, version) && requests == []
    {
      this.host := host;
      this.version := version;
      this.serviceLink := ServiceLink(host, version);
      this.headers := headers;
      this.cookies := cookies;
      requests := [];
    }

    /**
     * `Creatio(host, login, password, version)`: one login request, whose answer is `body` with
     * `cookies`; the test version raises before it. On success the CSRF cookie is written into the
     * shared headers; a refusal raises with the server's message.
     */
    static method Connect(host: string, version: OdataVersion, headers: Headers, body: Json, cookies: map<string, string>)
      returns (r: Result<Client>)
      modifies headers
      ensures version == Test ==> r == Err(TestHeadersError)
      ensures version != Test && FormsAuth(body, cookies).Err? ==> r == Err(FormsAuth(body, cookies).error)
      ensures version != Test && FormsAuth(body, cookies).Ok? && FormsAuth(body, cookies).value.Refused? ==>
        r == Err(Show(FormsAuth(body, cookies).value.message))
      ensures version != Test && FormsAuth(body, cookies).Ok? && FormsAuth(body, cookies).value.Authenticated? ==>
        ("BPMCSRF" !in cookies ==> r == Err(NoCsrfCookie))
      ensures r.Ok? <==> (version != Test && FormsAuth(body, cookies).Ok? && FormsAuth(body, cookies).value.Authenticated?
                          && "BPMCSRF" in cookies)
      ensures r.Ok? ==> fresh(r.value) && r.value.serviceLink == ServiceLink(host, version)
                        && r.value.headers == headers && r.value.cookies == cookies
                        && r.value.version == version && r.value.requests == []
      ensures r.Ok? ==> headers.fields == old(headers.fields)["BPMCSRF" := cookies["BPMCSRF"]]
      ensures r.Err? ==> headers.fields == old(headers.fields)
    {
      if version == Test {
        return Err(TestHeadersError);
      }
      var outcome := FormsAuth(body, cookies);
      if outcome.Err? {
        return Err(outcome.error);
      }
      if outcome.value.Refused? {
        return Err(Show(outcome.value.message));
      }
      var jar := outcome.value.cookies;
      if "BPMCSRF" !in jar {
        return Err(NoCsrfCookie);
      }
      headers.fields := headers.fields["BPMCSRF" := jar["BPMCSRF"]];
      var c := new Client.Make(host, version, headers, jar);
      r := Ok(c);
    }

    /** `create_object(name, data)`, given the server's answer to the POST. */
    method CreateObject(name: string, data: Dict, answer: Answer) returns (r: Option<Json>)
      modifies this
      ensures requests == old(requests) + [Post(CreateUrl(serviceLink, version, name), data)]
      ensures r == CreateResult(version, CreateUrl(serviceLink, version, name), headers.fields, data, answer)
    {
      var url := CreateUrl(serviceLink, version, name);
      requests := requests + [Post(url, data)];
      r := CreateResult(version, url, headers.fields, data, answer);
    }

    /** `delete_object(name, id)`: the test version raises before any request. */
    method DeleteObject(name: string, id: string) returns (r: Result<()>)
      modifies this
      ensures version == Test <==> r.Err?
      ensures r.Err? ==> r.error == "ODATA version is not supported: " + VersionName(version) && requests == old(requests)
      ensures r.Ok? ==> requests == old(requests) + [Delete(KeyUrl(serviceLink, version, name, id).value)]
    {
      var url := KeyUrl(serviceLink, version, name, id);
      if url.None? {
        return Err("ODATA version is not supported: " + VersionName(version));
      }
      requests := requests + [Delete(url.value)];
      r := Ok(());
    }

    /**
     * `get_object_collection(name, options)`, given the answer to the GET: v3 reads
     * `["d"]["results"]`, v4 and v4core read `["value"]`; the test version makes no request and
     * gives `[None]`.
     */
    method GetObjectCollection(name: string, options: seq<string>, answer: Answer) returns (r: Result<Json>)
      modifies this
      ensures version == Test ==> r == Ok(JList([JNull])) && requests == old(requests)
      ensures version == V3 ==>
        requests == old(requests) + [Fetch(serviceLink + "/" + name + "Collection" + QueryString(options))]
        && r == Collection(answer, ["d", "results"])
      ensures version == V4 || version == V4Core ==>
        requests == old(requests) + [Fetch(serviceLink + "/" + name + QueryString(options))]
        && r == Collection(answer, ["value"])
    {
      var params := BuildQueryString(options);
      if version == V3 {
        requests := requests + [Fetch(serviceLink + "/" + name + "Collection" + params)];
        r := Collection(answer, ["d", "results"]);
      } else if version == Test {
        r := Ok(JList([JNull]));
      } else {
        requests := requests + [Fetch(serviceLink + "/" + name + params)];
        r := Collection(answer, ["value"]);
      }
    }

    /** `get_object_by_id(name, id)`: v3 reads `["d"]`, v4 and v4core the whole body, the test version gives None. */
    method GetObjectById(name: string, id: string, answer: Answer) returns (r: Result<Json>)
      modifies this
      ensures version == Test ==> r == Ok(JNull) && requests == old(requests)
      ensures version != Test ==> requests == old(requests) + [Fetch(KeyUrl(serviceLink, version, name, id).value)]
      ensures version == V3 ==> r == Collection(answer, ["d"])
      ensures version == V4 || version == V4Core ==> r == Collection(answer, [])
    {
      var url := KeyUrl(serviceLink, version, name, id);
      if url.None? {
        return Ok(JNull);
      }
      requests := requests + [Fetch(url.value)];
      r := Collection(answer, if version == V3 then ["d"] else []);
    }

    /**
     * `get_creatio_contact_id(channel, number)`: the filter names the channel as a guid literal
     * for v3 only; the first result's "ContactId", or None when that result is None.
     */
    method GetCreatioContactId(channel: string, number: string, answer: Answer) returns (r: Result<Option<Json>>)
      modifies this
      ensures r == ContactId(if version == Test then Ok(JList([JNull])) else Collection(answer, if version == V3 then ["d", "results"] else ["value"]))
      ensures version != Test ==> (|requests| == |old(requests)| + 1
              && requests[..|old(requests)|] == old(requests)
              && requests[|old(requests)|].url == CollectionUrl(serviceLink, version, "ContactCommunication", [ContactFilter(version, channel, number)]))
      ensures version == Test ==> requests == old(requests)
    {
      var options := if version == Test then [] else [ContactFilter(version, channel, number)];
      var first := GetObjectCollection("ContactCommunication", options, answer);
      r := ContactId(first);
    }

    /** `post_receipt(board)`: an `SLReceipt` whose only field is the board's CRM id. */
    method PostReceipt(board: Json, answer: Answer) returns (r: Option<Json>)
      modifies this
      ensures requests == old(requests) + [Post(CreateUrl(serviceLink, version, "SLReceipt"), map["SLTrelloDeskId" := board])]
      ensures r == CreateResult(version, CreateUrl(serviceLink, version, "SLReceipt"), headers.fields, map["SLTrelloDeskId" := board], answer)
    {
      r := CreateObject("SLReceipt", map["SLTrelloDeskId" := board], answer);
    }
  }

  /** The URL `get_object_collection` fetches for a version that has one. */
  function CollectionUrl(link: string, v: OdataVersion, name: string, options: seq<string>): string {
    if v == V3 then link + "/" + name + "Collection" + QueryString(options) else link + "/" + name + QueryString(options)
  }

  /** The `$filter` option selecting a channel and a number. */
  function ContactFilter(v: OdataVersion, channel: string, number: string): string {
    if v == V3 then "filter=CommunicationType/Id eq guid'" + channel + "' and Number eq '" + number + "'"
    else "filter=CommunicationType/Id eq " + channel + " and Number eq '" + number + "'"
  }

  /** The decoded answer read through a chain of keys; an undecodable answer raises its decode error. */
  function Collection(a: Answer, path: seq<string>): Result<Json> {
    match a.decoded
    case Undecodable(e) => Err(e)
    case Body(j) => Walk(j, path)
  }

  function Walk(j: Json, path: seq<string>): Result<Json> {
    if |path| == 0 then Ok(j) else var next :- Index(j, path[0]); Walk(next, path[1..])
  }

  /** `result[0]`, then None for a None result and `result["ContactId"]` otherwise. */
  function ContactId(collection: Result<Json>): Result<Option<Json>> {
    var items :- collection;
    var first :- First(items);
    if first == JNull then Ok(None)
    else var id :- Index(first, "ContactId"); Ok(Some(id))
  }

  /** The test version finds no contact, and a v4 answer's first contact is the one returned. */
  lemma ContactIdCases(a: Answer, contact: Dict, rest: seq<Json>)
    requires "ContactId" in contact
    ensures ContactId(Ok(JList([JNull]))) == Ok(None)
    ensures a.decoded == Body(JObj(map["value" := JList([JObj(contact)] + rest)])) ==>
      ContactId(Collection(a, ["value"])) == Ok(Some(contact["ContactId"]))
  {
    if a.decoded == Body(JObj(map["value" := JList([JObj(contact)] + rest)])) {
      var path: seq<string> := ["value"];
      assert path[1..] == [];
      assert Walk(JList([JObj(contact)] + rest), []) == Ok(JList([JObj(contact)] + rest));
      assert Collection(a, path) == Ok(JList([JObj(contact)] + rest));
    }
  }

  /** The v3 filter wraps the channel in a guid literal; the v4 filter names it bare. */
  lemma ContactFilterGuidOnlyForV3(channel: string, number: string)
    ensures var f := ContactFilter(V3, channel, number);
            var head := "filter=CommunicationType/Id eq guid'";
            |head| <= |f| && f[..|head|] == head
    ensures var f := ContactFilter(V4, channel, number);
            var head := "filter=CommunicationType/Id eq " + channel + " and";
            |head| <= |f| && f[..|head|] == head
  {
    var h3 := "filter=CommunicationType/Id eq guid'";
    assert ContactFilter(V3, channel, number) == h3 + (channel + "' and Number eq '" + number + "'");
    var h4 := "filter=CommunicationType/Id eq " + channel + " and";
    assert ContactFilter(V4, channel, number) == h4 + (" Number eq '" + number + "'");
  }
}
