/** The upstream client of pangolin/pangolin.go: URL construction, the two headers every
    request carries, how the two calls classify what comes back, and which keys the JSON
    encodings of rules and resources carry.

    A Go pointer field is an Option (None is nil). The HTTP round trip is an input: a
    transport error, or a response with its status code, status text and body, where the body
    could not be read, is not a valid envelope, or decodes to an envelope. JSON is modelled
    at the level of decoded values and object keys. */
module Pangolin {
  import opened Wrappers
  import opened GoErrors
  import opened Strconv

  /** `Pangolin`: the credentials every call uses (the http.Client is not modelled). */
  datatype Pangolin = Pangolin(token: string, host: string, org: string)

  /** `PangolinResource`: no field is omitted when empty. */
  datatype PangolinResource = PangolinResource(
    resourceId: Option<int>, name: Option<string>, enabled: Option<bool>, fullDomain: Option<string>)

  /** `PangolinResources`. */
  datatype PangolinResources = PangolinResources(resources: seq<PangolinResource>)

  /** `PangolinRule`: every field is omitted when nil. */
  datatype PangolinRule = PangolinRule(
    ruleId: Option<int>, resourceId: Option<int>, enabled: Option<bool>, priority: Option<int>,
    action: Option<string>, matchOn: Option<string>, value: Option<string>)

  /** A JSON value, as encoding/json writes and reads it. */
  datatype Json =
    | JNull
    | JBool(b: bool)
    | JNumber(n: int)
    | JString(s: string)
    | JArray(items: seq<Json>)
    | JObject(members: seq<(string, Json)>)

  datatype Method = Get | Put

  type Header = map<string, seq<string>>

  /** An outgoing request: method, URL, header map and the JSON body, if any. */
  datatype Request = Request(verb: Method, url: string, header: Header, body: Option<Json>)

  /** The decoded body of an upstream response (`PangolinResponse[T]`). */
  datatype Body<T> =
    | ReadFailed(readErr: GoError)
    | Malformed(parseErr: GoError)
    | Envelope(data: T, success: bool, error: bool, message: string, status: int)

  /** What the round trip of one request produced. */
  datatype Reply<T> =
    | TransportFailed(err: GoError)
    | Response(statusCode: int, status: string, body: Body<T>)

  /** One call: the request it sent and what it returned. */
  datatype Call<T> = Call(sent: Request, result: Result<T, GoError>)

  /** `InitPangolin(token, host, org, client)`. */
  function InitPangolin(token: string, host: string, org: string): (p: Pangolin)
    ensures p.token == token && p.host == host && p.org == org
  {
    Pangolin(token, host, org)
  }

  /** `String(s)`, `Bool(b)` and `Int(i)`: a non-nil pointer to the argument. */
  function String(s: string): (r: Option<string>)
    ensures r.Some? && r.value == s
  {
    Some(s)
  }

  function Bool(b: bool): (r: Option<bool>)
    ensures r.Some? && r.value == b
  {
    Some(b)
  }

  function Int(i: int): (r: Option<int>)
    ensures r.Some? && r.value == i
  {
    Some(i)
  }

  function BaseURL(p: Pangolin): string {
    p.host + "/v1"
  }

  function ResourcesURL(p: Pangolin): string {
    BaseURL(p) + "/org/" + p.org + "/resources"
  }

  function RuleURL(p: Pangolin, resourceID: int): string {
    BaseURL(p) + "/resource/" + Itoa(resourceID) + "/rule"
  }

  /** Splits `url` into the part between `prefix` and `suffix`, if it has that shape. */
  function Between(url: string, prefix: string, suffix: string): (r: Option<string>)
    ensures r.Some? ==> url == prefix + r.value + suffix
  {
    if |prefix| + |suffix| <= |url| && url[..|prefix|] == prefix && url[|url| - |suffix|..] == suffix then
      var middle := url[|prefix|..|url| - |suffix|];
      assert url == url[..|prefix|] + middle + url[|url| - |suffix|..];
      Some(middle)
    else None
  }

  /** The organisation segment of a resources URL: the text between `BaseURL + "/org/"` and
      "/resources". This splits the string; it does not parse it as a URL. */
  function OrgOf(p: Pangolin, url: string): Option<string> {
    Between(url, BaseURL(p) + "/org/", "/resources")
  }

  /** The resource identifier segment of a rule URL: the text between
      `BaseURL + "/resource/"` and "/rule", read by Atoi. This splits the string; it does not
      parse it as a URL. */
  function ResourceIDOf(p: Pangolin, url: string): Option<int> {
    match Between(url, BaseURL(p) + "/resource/", "/rule")
    case None => None
    case Some(segment) => match Atoi(segment) case Success(id) => Some(id) case Failure(_) => None
  }

  lemma BetweenOfConcat(prefix: string, middle: string, suffix: string)
    ensures Between(prefix + middle + suffix, prefix, suffix) == Some(middle)
  {
    var url := prefix + middle + suffix;
    assert url[..|prefix|] == prefix;
    assert url[|url| - |suffix|..] == suffix;
    assert url[|prefix|..|url| - |suffix|] == middle;
  }

  /** The resources URL extends the shared base `host + "/v1"`, and splitting it at the
      `BaseURL + "/org/"` prefix and the "/resources" suffix gives back the organisation. */
  lemma ResourcesURLRoundTrip(p: Pangolin)
    ensures BaseURL(p) <= ResourcesURL(p)
    ensures OrgOf(p, ResourcesURL(p)) == Some(p.org)
  {
    assert ResourcesURL(p) == (BaseURL(p) + "/org/") + p.org + "/resources";
    BetweenOfConcat(BaseURL(p) + "/org/", p.org, "/resources");
  }

  /** The rule URL extends the shared base `host + "/v1"`, and splitting it at the
      `BaseURL + "/resource/"` prefix and the "/rule" suffix gives back, read as a decimal
      number, the resource identifier. */
  lemma RuleURLRoundTrip(p: Pangolin, resourceID: int)
    requires MinInt <= resourceID <= MaxInt
    ensures BaseURL(p) <= RuleURL(p, resourceID)
    ensures ResourceIDOf(p, RuleURL(p, resourceID)) == Some(resourceID)
  {
    assert RuleURL(p, resourceID) == (BaseURL(p) + "/resource/") + Itoa(resourceID) + "/rule";
    BetweenOfConcat(BaseURL(p) + "/resource/", Itoa(resourceID), "/rule");
    AtoiOfItoa(resourceID);
  }

  /** `req.Header.Add(key, value)`. Go stores the value under the canonical form of the key
      (`textproto.CanonicalMIMEHeaderKey`); the key is kept as given here, which is the same
      for "Authorization" and "Content-Type", the only keys the client adds. */
  function AddHeader(h: Header, key: string, value: string): (r: Header)
    ensures r.Keys == h.Keys + {key}
    ensures r[key] == (if key in h then h[key] else []) + [value]
    ensures forall k :: k in h && k != key ==> r[k] == h[k]
  {
    h[key := (if key in h then h[key] else []) + [value]]
  }

  /** `request`: adds the bearer token and the JSON content type to the request's headers,
      keeping every other part of the request. */
  function Authorize(p: Pangolin, req: Request): (r: Request)
    ensures r.verb == req.verb && r.url == req.url && r.body == req.body
    ensures r.header.Keys == req.header.Keys + {"Authorization", "Content-Type"}
    ensures r.header["Authorization"] ==
      (if "Authorization" in req.header then req.header["Authorization"] else []) + ["Bearer " + p.token]
    ensures r.header["Content-Type"] ==
      (if "Content-Type" in req.header then req.header["Content-Type"] else []) + ["application/json"]
    ensures forall k :: k in req.header && k != "Authorization" && k != "Content-Type" ==>
      r.header[k] == req.header[k]
  {
    var h := AddHeader(req.header, "Authorization", "Bearer " + p.token);
    req.(header := AddHeader(h, "Content-Type", "application/json"))
  }

  /** A request made by NewRequest, once authorized, carries exactly the two headers. */
  lemma AuthorizedFreshRequest(p: Pangolin, req: Request)
    requires req.header == map[]
    ensures Authorize(p, req).header ==
      map["Authorization" := ["Bearer " + p.token], "Content-Type" := ["application/json"]]
  {
    var empty: seq<string> := [];
    assert empty + ["Bearer " + p.token] == ["Bearer " + p.token];
    assert empty + ["application/json"] == ["application/json"];
  }

  /** `http.NewRequest(method, url, body)`: no headers yet. */
  function NewRequest(verb: Method, url: string, body: Option<Json>): Request {
    Request(verb, url, map[], body)
  }

  /** `GetResources`. */
  function GetResources(p: Pangolin, reply: Reply<PangolinResources>): (c: Call<PangolinResources>)
    ensures c.sent.verb == Get && c.sent.url == ResourcesURL(p) && c.sent.body == None
    ensures c.sent.header == map["Authorization" := ["Bearer " + p.token], "Content-Type" := ["application/json"]]
    ensures c.result.Success? <==> reply.Response? && reply.statusCode == 200 && reply.body.Envelope?
  {
    var sent := Authorize(p, NewRequest(Get, ResourcesURL(p), None));
    AuthorizedFreshRequest(p, NewRequest(Get, ResourcesURL(p), None));
    var result :=
      match reply
      case TransportFailed(e) => Failure(e)
      case Response(code, status, body) =>
        if code != 200 then Failure(TextError("error status code: " + status))
        else match body
          case ReadFailed(e) => Failure(e)
          case Malformed(e) => Failure(e)
          case Envelope(data, _, _, _, _) => Success(data);
    Call(sent, result)
  }

  /** `CreateRule`. */
  function CreateRule(p: Pangolin, rule: PangolinRule, resourceID: int, reply: Reply<PangolinRule>): (c: Call<PangolinRule>)
    ensures c.sent.verb == Put && c.sent.url == RuleURL(p, resourceID) && c.sent.body == Some(MarshalRule(rule))
    ensures c.sent.header == map["Authorization" := ["Bearer " + p.token], "Content-Type" := ["application/json"]]
    ensures c.result.Success? <==> reply.Response? && reply.body.Envelope? && !reply.body.error
  {
    var sent := Authorize(p, NewRequest(Put, RuleURL(p, resourceID), Some(MarshalRule(rule))));
    AuthorizedFreshRequest(p, NewRequest(Put, RuleURL(p, resourceID), Some(MarshalRule(rule))));
    var result :=
      match reply
      case TransportFailed(e) => Failure(e)
      case Response(_, _, body) =>
        match body
        case ReadFailed(e) => Failure(e)
        case Malformed(e) => Failure(e)
        case Envelope(data, _, error, message, _) =>
          if error then Failure(TextError("error: " + message)) else Success(data);
    Call(sent, result)
  }

  /** GetResources fails before the body is read: a transport error comes back as it is, and
      any status other than 200 gives "error status code: " and the status text whatever the
      body. */
  lemma GetResourcesFailsBeforeBody(p: Pangolin, reply: Reply<PangolinResources>, other: Body<PangolinResources>)
    ensures reply.TransportFailed? ==> GetResources(p, reply).result == Failure(reply.err)
    ensures reply.Response? && reply.statusCode != 200 ==>
      && GetResources(p, reply).result == Failure(TextError("error status code: " + reply.status))
      && GetResources(p, reply.(body := other)) == GetResources(p, reply)
  {
  }

  /** With status 200, GetResources returns the envelope's data and never looks at its error
      flag, message, success flag or status; an unreadable or malformed body is an error. */
  lemma GetResourcesOn200(p: Pangolin, status: string, body: Body<PangolinResources>,
                          success: bool, error: bool, message: string, code: int)
    ensures body.Envelope? ==>
      && GetResources(p, Response(200, status, body)).result == Success(body.data)
      && GetResources(p, Response(200, status, body.(success := success, error := error,
                                                      message := message, status := code)))
         == GetResources(p, Response(200, status, body))
    ensures body.ReadFailed? ==> GetResources(p, Response(200, status, body)).result == Failure(body.readErr)
    ensures body.Malformed? ==> GetResources(p, Response(200, status, body)).result == Failure(body.parseErr)
  {
  }

  /** CreateRule never looks at the HTTP status: replies that differ only in status code and
      status text are classified alike. */
  lemma CreateRuleIgnoresStatus(p: Pangolin, rule: PangolinRule, resourceID: int,
                                reply: Reply<PangolinRule>, code: int, status: string)
    requires reply.Response?
    ensures CreateRule(p, rule, resourceID, reply.(statusCode := code, status := status)) ==
            CreateRule(p, rule, resourceID, reply)
  {
  }

  /** CreateRule fails before it reaches an envelope when the transport fails, the body cannot
      be read or the body does not parse: each of those errors comes back as it is. */
  lemma CreateRuleFailsBeforeEnvelope(p: Pangolin, rule: PangolinRule, resourceID: int, reply: Reply<PangolinRule>)
    ensures reply.TransportFailed? ==> CreateRule(p, rule, resourceID, reply).result == Failure(reply.err)
    ensures reply.Response? && reply.body.ReadFailed? ==>
      CreateRule(p, rule, resourceID, reply).result == Failure(reply.body.readErr)
    ensures reply.Response? && reply.body.Malformed? ==>
      CreateRule(p, rule, resourceID, reply).result == Failure(reply.body.parseErr)
  {
  }

  /** CreateRule on a parsed envelope: a set error flag is a rejection carrying
      "error: " and the message; otherwise the envelope's data comes back, whatever the status. */
  lemma CreateRuleOnEnvelope(p: Pangolin, rule: PangolinRule, resourceID: int, code: int, status: string,
                             body: Body<PangolinRule>)
    requires body.Envelope?
    ensures body.error ==>
      CreateRule(p, rule, resourceID, Response(code, status, body)).result == Failure(TextError("error: " + body.message))
    ensures !body.error ==>
      CreateRule(p, rule, resourceID, Response(code, status, body)).result == Success(body.data)
  {
  }

  /** A pointer field's JSON value: None for a nil pointer. */
  function IntField(f: Option<int>): Option<Json> {
    match f case None => None case Some(n) => Some(JNumber(n))
  }

  function BoolField(f: Option<bool>): Option<Json> {
    match f case None => None case Some(b) => Some(JBool(b))
  }

  function StringField(f: Option<string>): Option<Json> {
    match f case None => None case Some(s) => Some(JString(s))
  }

  /** A struct's fields in declaration order: the JSON key of each and its value. */
  type Fields = seq<(string, Option<Json>)>

  /** The rule's fields, keyed by their `json` tags. */
  function RuleFields(r: PangolinRule): Fields {
    [("ruleId", IntField(r.ruleId)), ("resourceId", IntField(r.resourceId)), ("enabled", BoolField(r.enabled)),
     ("priority", IntField(r.priority)), ("action", StringField(r.action)), ("match", StringField(r.matchOn)),
     ("value", StringField(r.value))]
  }

  /** The resource's fields, keyed by their `json` tags. */
  function ResourceFields(r: PangolinResource): Fields {
    [("resourceId", IntField(r.resourceId)), ("name", StringField(r.name)),
     ("enabled", BoolField(r.enabled)), ("fullDomain", StringField(r.fullDomain))]
  }

  /** Members for fields tagged `omitempty`: a nil pointer leaves its key out. */
  function OmitNil(fs: Fields): seq<(string, Json)> {
    if fs == [] then []
    else
      var last := fs[|fs| - 1];
      OmitNil(fs[..|fs| - 1]) + match last.1 case None => [] case Some(v) => [(last.0, v)]
  }

  /** Members for fields without `omitempty`: a nil pointer is written as `null`. */
  function NullForNil(fs: Fields): seq<(string, Json)> {
    if fs == [] then []
    else
      var last := fs[|fs| - 1];
      NullForNil(fs[..|fs| - 1]) + [(last.0, match last.1 case None => JNull case Some(v) => v)]
  }

  /** `json.Marshal(rule)`: every field of PangolinRule is tagged `omitempty`. */
  function MarshalRule(r: PangolinRule): Json {
    JObject(OmitNil(RuleFields(r)))
  }

  /** `json.Marshal(resource)`: no field of PangolinResource is tagged `omitempty`. */
  function MarshalResource(r: PangolinResource): Json {
    JObject(NullForNil(ResourceFields(r)))
  }

  /** The keys of a JSON object's members, in order. */
  function Keys(members: seq<(string, Json)>): (ks: seq<string>)
    ensures |ks| == |members| && forall i :: 0 <= i < |members| ==> ks[i] == members[i].0
  {
    if members == [] then [] else [members[0].0] + Keys(members[1..])
  }

  /** The keys of the fields whose pointer is set, in order. */
  function SetKeys(fs: Fields): seq<string> {
    if fs == [] then []
    else SetKeys(fs[..|fs| - 1]) + if fs[|fs| - 1].1.Some? then [fs[|fs| - 1].0] else []
  }

  /** All keys of the fields, in order. */
  function AllKeys(fs: Fields): seq<string> {
    if fs == [] then [] else AllKeys(fs[..|fs| - 1]) + [fs[|fs| - 1].0]
  }

  /** The value of the field with key `key` (the last such field), None when the pointer is
      nil or the key is not a field. */
  function FieldValue(fs: Fields, key: string): Option<Json> {
    if fs == [] then None
    else if fs[|fs| - 1].0 == key then fs[|fs| - 1].1
    else FieldValue(fs[..|fs| - 1], key)
  }

  /** The value under `key` in a JSON object's members, or None when the key is absent. When
      the key repeats, this is its last value: encoding/json decodes every occurrence in order,
      so the last one is what the field ends up holding once all of them decode. */
  function Lookup(members: seq<(string, Json)>, key: string): Option<Json> {
    if members == [] then None
    else if members[|members| - 1].0 == key then Some(members[|members| - 1].1)
    else Lookup(members[..|members| - 1], key)
  }

  lemma {:induction false} KeysAppend(a: seq<(string, Json)>, b: seq<(string, Json)>)
    ensures Keys(a + b) == Keys(a) + Keys(b)
  {
  }

  /** `omitempty` encoding: the object's keys are exactly those of the set fields, in field
      order, and when the keys are distinct each key carries its field's value. */
  lemma {:induction false} OmitNilKeysAndValues(fs: Fields, key: string)
    ensures Keys(OmitNil(fs)) == SetKeys(fs)
    ensures Distinct(AllKeys(fs)) ==> Lookup(OmitNil(fs), key) == FieldValue(fs, key)
  {
    if fs != [] {
      var front := fs[..|fs| - 1];
      OmitNilKeysAndValues(front, key);
      var tail := match fs[|fs| - 1].1 case None => [] case Some(v) => [(fs[|fs| - 1].0, v)];
      KeysAppend(OmitNil(front), tail);
      assert OmitNil(fs) == OmitNil(front) + tail;
      if tail != [] {
        assert (OmitNil(front) + tail)[..|OmitNil(front)|] == OmitNil(front);
      } else {
        assert OmitNil(front) + tail == OmitNil(front);
      }
      if Distinct(AllKeys(fs)) {
        assert AllKeys(fs) == AllKeys(front) + [fs[|fs| - 1].0];
        DistinctPrefix(AllKeys(front), fs[|fs| - 1].0);
        if fs[|fs| - 1].0 == key && fs[|fs| - 1].1.None? {
          LookupAbsent(front, key);
        }
      }
    }
  }

  predicate Distinct(ks: seq<string>) {
    forall i, j :: 0 <= i < j < |ks| ==> ks[i] != ks[j]
  }

  lemma DistinctPrefix(ks: seq<string>, k: string)
    requires Distinct(ks + [k])
    ensures Distinct(ks) && k !in ks
  {
    forall i | 0 <= i < |ks| ensures ks[i] != k {
      assert (ks + [k])[i] == ks[i] && (ks + [k])[|ks|] == k;
    }
    forall i, j | 0 <= i < j < |ks| ensures ks[i] != ks[j] {
      assert (ks + [k])[i] == ks[i] && (ks + [k])[j] == ks[j];
    }
  }

  /** The keys of a field list, one field longer. */
  lemma KeysSnoc(fs: Fields, f: (string, Option<Json>))
    ensures AllKeys(fs + [f]) == AllKeys(fs) + [f.0]
    ensures SetKeys(fs + [f]) == SetKeys(fs) + if f.1.Some? then [f.0] else []
  {
    assert (fs + [f])[..|fs|] == fs;
  }

  /** The value of a key in a field list, one field longer. */
  lemma FieldValueSnoc(fs: Fields, f: (string, Option<Json>), key: string)
    ensures FieldValue(fs + [f], key) == if f.0 == key then f.1 else FieldValue(fs, key)
  {
    assert (fs + [f])[..|fs|] == fs;
  }

  /** A key that is no field's key is in no member of the `omitempty` encoding. */
  lemma {:induction false} LookupAbsent(fs: Fields, key: string)
    requires key !in AllKeys(fs)
    ensures Lookup(OmitNil(fs), key) == None
  {
    if fs != [] {
      var front := fs[..|fs| - 1];
      assert AllKeys(fs) == AllKeys(front) + [fs[|fs| - 1].0];
      LookupAbsent(front, key);
      var tail := match fs[|fs| - 1].1 case None => [] case Some(v) => [(fs[|fs| - 1].0, v)];
      assert OmitNil(fs) == OmitNil(front) + tail;
      if tail != [] {
        assert (OmitNil(front) + tail)[..|OmitNil(front)|] == OmitNil(front);
      } else {
        assert OmitNil(front) + tail == OmitNil(front);
      }
    }
  }

  /** `NullForNil` encoding: every field's key is present, in field order. */
  lemma {:induction false} NullForNilKeys(fs: Fields)
    ensures Keys(NullForNil(fs)) == AllKeys(fs)
  {
    if fs != [] {
      var front := fs[..|fs| - 1];
      NullForNilKeys(front);
      KeysAppend(NullForNil(front), [(fs[|fs| - 1].0, match fs[|fs| - 1].1 case None => JNull case Some(v) => v)]);
    }
  }

  /** Decoding one pointer field: an absent key or `null` leaves it nil; a value of the wrong
      kind is an error, and so is a number that does not fit a 64-bit `int`. */
  function DecodeInt(v: Option<Json>): Result<Option<int>, string> {
    match v
    case None => Success(None)
    case Some(JNull) => Success(None)
    case Some(JNumber(n)) =>
      if MinInt <= n <= MaxInt then Success(Some(n)) else Failure("cannot unmarshal number into int")
    case Some(_) => Failure("cannot unmarshal into int")
  }

  function DecodeBool(v: Option<Json>): Result<Option<bool>, string> {
    match v
    case None => Success(None)
    case Some(JNull) => Success(None)
    case Some(JBool(b)) => Success(Some(b))
    case Some(_) => Failure("cannot unmarshal into bool")
  }

  function DecodeString(v: Option<Json>): Result<Option<string>, string> {
    match v
    case None => Success(None)
    case Some(JNull) => Success(None)
    case Some(JString(s)) => Success(Some(s))
    case Some(_) => Failure("cannot unmarshal into string")
  }

  /** Whether one object member decodes into the rule field its key names; a key that names
      no field is skipped. */
  predicate MemberDecodes(kv: (string, Json)) {
    if kv.0 == "ruleId" || kv.0 == "resourceId" || kv.0 == "priority" then DecodeInt(Some(kv.1)).Success?
    else if kv.0 == "enabled" then DecodeBool(Some(kv.1)).Success?
    else if kv.0 == "action" || kv.0 == "match" || kv.0 == "value" then DecodeString(Some(kv.1)).Success?
    else true
  }

  /** Every member decodes, including each earlier occurrence of a repeated key. */
  predicate AllMembersDecode(m: seq<(string, Json)>) {
    forall i :: 0 <= i < |m| ==> MemberDecodes(m[i])
  }

  /** `json.Unmarshal` into a `PangolinRule`, for keys spelled exactly as its tags. A `null`
      leaves the zero rule, with every pointer nil, and is no error. Every member is decoded
      in order, so any occurrence of a key with a value of the wrong kind is an error, and a
      repeated key ends up with its last value. */
  function UnmarshalRule(j: Json): Result<PangolinRule, string> {
    if j.JNull? then Success(PangolinRule(None, None, None, None, None, None, None))
    else if !j.JObject? then Failure("cannot unmarshal into PangolinRule")
    else if !AllMembersDecode(j.members) then Failure("cannot unmarshal into PangolinRule field")
    else
      var m := j.members;
      match (DecodeInt(Lookup(m, "ruleId")), DecodeInt(Lookup(m, "resourceId")), DecodeBool(Lookup(m, "enabled")),
             DecodeInt(Lookup(m, "priority")), DecodeString(Lookup(m, "action")), DecodeString(Lookup(m, "match")),
             DecodeString(Lookup(m, "value")))
      case (Success(a), Success(b), Success(c), Success(d), Success(e), Success(f), Success(g)) =>
        Success(PangolinRule(a, b, c, d, e, f, g))
      case _ => Failure("cannot unmarshal into PangolinRule")
  }

  /** The rule's keys, in field order. */
  lemma RuleFieldsKeys(r: PangolinRule)
    ensures AllKeys(RuleFields(r)) == ["ruleId", "resourceId", "enabled", "priority", "action", "match", "value"]
  {
    var fs := RuleFields(r);
    KeysSnoc([], fs[0]);
    KeysSnoc(fs[..1], fs[1]);
    assert fs[..1] + [fs[1]] == fs[..2];
    KeysSnoc(fs[..2], fs[2]);
    assert fs[..2] + [fs[2]] == fs[..3];
    KeysSnoc(fs[..3], fs[3]);
    assert fs[..3] + [fs[3]] == fs[..4];
    KeysSnoc(fs[..4], fs[4]);
    assert fs[..4] + [fs[4]] == fs[..5];
    KeysSnoc(fs[..5], fs[5]);
    assert fs[..5] + [fs[5]] == fs[..6];
    KeysSnoc(fs[..6], fs[6]);
    assert fs[..6] + [fs[6]] == fs;
  }

  /** `[key]` when the field is set, `[]` when it is nil. */
  function KeyIfSet<T>(key: string, f: Option<T>): seq<string> {
    if f.Some? then [key] else []
  }

  /** The keys of the rule's set fields, in field order. */
  lemma RuleSetKeys(r: PangolinRule)
    ensures SetKeys(RuleFields(r)) ==
      KeyIfSet("ruleId", r.ruleId) + KeyIfSet("resourceId", r.resourceId) + KeyIfSet("enabled", r.enabled) +
      KeyIfSet("priority", r.priority) + KeyIfSet("action", r.action) + KeyIfSet("match", r.matchOn) +
      KeyIfSet("value", r.value)
  {
    var fs := RuleFields(r);
    KeysSnoc([], fs[0]);
    assert SetKeys(fs[..1]) == KeyIfSet("ruleId", r.ruleId);
    KeysSnoc(fs[..1], fs[1]);
    assert fs[..1] + [fs[1]] == fs[..2];
    assert SetKeys(fs[..2]) == KeyIfSet("ruleId", r.ruleId) + KeyIfSet("resourceId", r.resourceId);
    KeysSnoc(fs[..2], fs[2]);
    assert fs[..2] + [fs[2]] == fs[..3];
    KeysSnoc(fs[..3], fs[3]);
    assert fs[..3] + [fs[3]] == fs[..4];
    KeysSnoc(fs[..4], fs[4]);
    assert fs[..4] + [fs[4]] == fs[..5];
    KeysSnoc(fs[..5], fs[5]);
    assert fs[..5] + [fs[5]] == fs[..6];
    KeysSnoc(fs[..6], fs[6]);
    assert fs[..6] + [fs[6]] == fs;
  }

  /** The value each of the rule's keys carries. */
  lemma RuleFieldValue(r: PangolinRule, i: nat)
    requires i < 7
    ensures FieldValue(RuleFields(r), RuleFields(r)[i].0) == RuleFields(r)[i].1
  {
    var fs := RuleFields(r);
    var key := fs[i].0;
    var j := 6;
    assert fs[..7] == fs;
    while j > i
      invariant i <= j <= 6
      invariant FieldValue(fs, key) == FieldValue(fs[..j + 1], key)
    {
      FieldValueSnoc(fs[..j], fs[j], key);
      assert fs[..j] + [fs[j]] == fs[..j + 1];
      j := j - 1;
    }
    FieldValueSnoc(fs[..i], fs[i], key);
    assert fs[..i] + [fs[i]] == fs[..i + 1];
  }

  lemma RuleKeysDistinct(r: PangolinRule)
    ensures Distinct(AllKeys(RuleFields(r)))
  {
    RuleFieldsKeys(r);
  }

  /** The keys a rule's encoding carries, in field order, each exactly when its pointer is
      set: a set pointer to false, 0 or "" is still emitted. */
  lemma MarshalRuleKeys(r: PangolinRule)
    ensures Keys(MarshalRule(r).members) ==
      KeyIfSet("ruleId", r.ruleId) + KeyIfSet("resourceId", r.resourceId) + KeyIfSet("enabled", r.enabled) +
      KeyIfSet("priority", r.priority) + KeyIfSet("action", r.action) + KeyIfSet("match", r.matchOn) +
      KeyIfSet("value", r.value)
  {
    OmitNilKeysAndValues(RuleFields(r), "");
    RuleSetKeys(r);
  }

  /** The rule's `int` fields hold 64-bit values, as Go's `int` does. */
  predicate Int64Fields(r: PangolinRule) {
    && (r.ruleId.Some? ==> MinInt <= r.ruleId.value <= MaxInt)
    && (r.resourceId.Some? ==> MinInt <= r.resourceId.value <= MaxInt)
    && (r.priority.Some? ==> MinInt <= r.priority.value <= MaxInt)
  }

  /** A `null` decodes to the zero rule; an `int` field given a number outside 64 bits is an
      error, and so is a repeated `int` key whose earlier value is a string, even when its
      last value is a valid number. */
  lemma UnmarshalRuleEdges(key: string, n: int, t: string, k: int)
    requires key == "ruleId" || key == "resourceId" || key == "priority"
    requires n < MinInt || MaxInt < n
    ensures UnmarshalRule(JNull) == Success(PangolinRule(None, None, None, None, None, None, None))
    ensures UnmarshalRule(JObject([(key, JNumber(n))])).Failure?
    ensures UnmarshalRule(JObject([(key, JString(t)), (key, JNumber(k))])).Failure?
  {
    var m := [(key, JNumber(n))];
    assert !MemberDecodes(m[0]);
    var m2 := [(key, JString(t)), (key, JNumber(k))];
    assert !MemberDecodes(m2[0]);
  }

  /** Each set field's value decodes under its own key. */
  predicate FieldsDecode(fs: Fields) {
    forall j :: 0 <= j < |fs| && fs[j].1.Some? ==> MemberDecodes((fs[j].0, fs[j].1.value))
  }

  /** The `omitempty` encoding of fields that decode has only members that decode. */
  lemma {:induction false} OmitNilDecodes(fs: Fields)
    requires FieldsDecode(fs)
    ensures AllMembersDecode(OmitNil(fs))
  {
    if fs != [] {
      var front := fs[..|fs| - 1];
      var last := fs[|fs| - 1];
      forall j | 0 <= j < |front| && front[j].1.Some?
        ensures MemberDecodes((front[j].0, front[j].1.value))
      {
        assert front[j] == fs[j];
      }
      OmitNilDecodes(front);
      var tail := match last.1 case None => [] case Some(v) => [(last.0, v)];
      assert OmitNil(fs) == OmitNil(front) + tail;
      forall i | 0 <= i < |OmitNil(fs)| ensures MemberDecodes(OmitNil(fs)[i]) {
        if i < |OmitNil(front)| {
          assert OmitNil(fs)[i] == OmitNil(front)[i];
        } else {
          assert OmitNil(fs)[i] == (last.0, last.1.value);
        }
      }
    }
  }

  /** A rule whose `int` fields fit 64 bits has fields that all decode. */
  lemma RuleFieldsDecode(r: PangolinRule)
    requires Int64Fields(r)
    ensures FieldsDecode(RuleFields(r))
  {
    var fs := RuleFields(r);
    forall j | 0 <= j < |fs| && fs[j].1.Some? ensures MemberDecodes((fs[j].0, fs[j].1.value)) {
      assert j == 0 || j == 1 || j == 2 || j == 3 || j == 4 || j == 5 || j == 6;
    }
  }

  /** Decoding a rule's encoding gives the rule back: nil pointers stay nil and set pointers
      keep their values. */
  lemma MarshalRuleRoundTrip(r: PangolinRule)
    requires Int64Fields(r)
    ensures UnmarshalRule(MarshalRule(r)) == Success(r)
  {
    RuleFieldsDecode(r);
    OmitNilDecodes(RuleFields(r));
    RuleMembersDecodeToFields(r);
    UnmarshalRuleOfDecodedFields(MarshalRule(r).members, r);
  }

  /** Under each of its seven keys, a rule's encoding decodes to that field. */
  lemma RuleMembersDecodeToFields(r: PangolinRule)
    requires Int64Fields(r)
    ensures var m := MarshalRule(r).members;
      && DecodeInt(Lookup(m, "ruleId")) == Success(r.ruleId)
      && DecodeInt(Lookup(m, "resourceId")) == Success(r.resourceId)
      && DecodeBool(Lookup(m, "enabled")) == Success(r.enabled)
      && DecodeInt(Lookup(m, "priority")) == Success(r.priority)
      && DecodeString(Lookup(m, "action")) == Success(r.action)
      && DecodeString(Lookup(m, "match")) == Success(r.matchOn)
      && DecodeString(Lookup(m, "value")) == Success(r.value)
  {
    RuleLookup(r, 0);
    DecodeIntField(r.ruleId);
    RuleLookup(r, 1);
    DecodeIntField(r.resourceId);
    RuleLookup(r, 2);
    RuleLookup(r, 3);
    DecodeIntField(r.priority);
    RuleLookup(r, 4);
    RuleLookup(r, 5);
    RuleLookup(r, 6);
  }

  lemma DecodeIntField(f: Option<int>)
    requires f.Some? ==> MinInt <= f.value <= MaxInt
    ensures DecodeInt(IntField(f)) == Success(f)
  {
  }

  /** An object whose seven keys each decode to a rule's field decodes to that rule. */
  lemma UnmarshalRuleOfDecodedFields(m: seq<(string, Json)>, r: PangolinRule)
    requires AllMembersDecode(m)
    requires DecodeInt(Lookup(m, "ruleId")) == Success(r.ruleId)
    requires DecodeInt(Lookup(m, "resourceId")) == Success(r.resourceId)
    requires DecodeBool(Lookup(m, "enabled")) == Success(r.enabled)
    requires DecodeInt(Lookup(m, "priority")) == Success(r.priority)
    requires DecodeString(Lookup(m, "action")) == Success(r.action)
    requires DecodeString(Lookup(m, "match")) == Success(r.matchOn)
    requires DecodeString(Lookup(m, "value")) == Success(r.value)
    ensures UnmarshalRule(JObject(m)) == Success(r)
  {
  }

  /** In a rule's encoding, each key carries its field's value, or is absent for nil. */
  lemma RuleLookup(r: PangolinRule, i: nat)
    requires i < 7
    ensures Lookup(MarshalRule(r).members, RuleFields(r)[i].0) == RuleFields(r)[i].1
  {
    RuleKeysDistinct(r);
    OmitNilKeysAndValues(RuleFields(r), RuleFields(r)[i].0);
    RuleFieldValue(r, i);
  }

  /** A resource's encoding always carries its four keys; a nil pointer becomes `null`. */
  lemma MarshalResourceKeys(r: PangolinResource)
    ensures Keys(MarshalResource(r).members) == ["resourceId", "name", "enabled", "fullDomain"]
  {
    var fs := ResourceFields(r);
    NullForNilKeys(fs);
    KeysSnoc([], fs[0]);
    KeysSnoc(fs[..1], fs[1]);
    assert fs[..1] + [fs[1]] == fs[..2];
    KeysSnoc(fs[..2], fs[2]);
    assert fs[..2] + [fs[2]] == fs[..3];
    KeysSnoc(fs[..3], fs[3]);
    assert fs[..3] + [fs[3]] == fs;
  }

  /** The rule the register handler builds (action, match, value, priority and enabled set;
      no rule or resource identifier) is sent without the two identifier keys. */
  lemma RegisterRuleOmitsIdentifiers(ip: string)
    ensures Keys(MarshalRule(PangolinRule(None, None, Bool(true), Int(10), String("ACCEPT"), String("IP"), String(ip))).members)
            == ["enabled", "priority", "action", "match", "value"]
  {
    MarshalRuleKeys(PangolinRule(None, None, Bool(true), Int(10), String("ACCEPT"), String("IP"), String(ip)));
  }
}
