/**
 * The provider client: request parameters (auth fields merged into the caller's
 * parameters), the error ladder over the reply, and the mapping of the already-parsed
 * XML tree to host and domain entries. XML parsing itself and the HTTP transport are
 * outside the model: a reply arrives as a `Reply` value.
 */
module NamecheapApi {
  import opened Wrappers
  import opened Json
  import opened Strings
  import DomainNames

  /** The response namespace, in ElementTree's `{uri}local` tag spelling. */
  const Ns: string := "{http://api.namecheap.com/xml.response}"

  /** An XML element as ElementTree presents it. */
  datatype Element = Element(tag: string, attrib: map<string, string>, text: Option<string>, children: seq<Element>)

  /** Every element strictly below `e`, in document order (what `.//` ranges over). */
  function Descendants(e: Element): seq<Element>
    decreases e, 1
  {
    Forest(e.children)
  }

  function Forest(es: seq<Element>): seq<Element>
    decreases es, 0
  {
    if es == [] then [] else [es[0]] + Descendants(es[0]) + Forest(es[1..])
  }

  /** The elements of `es` with tag `tag`, in order. */
  function WithTag(es: seq<Element>, tag: string): (r: seq<Element>)
    ensures forall i :: 0 <= i < |r| ==> r[i].tag == tag
  {
    if es == [] then [] else (if es[0].tag == tag then [es[0]] else []) + WithTag(es[1..], tag)
  }

  /** `e.findall('.//nc:' + local, NS)`. */
  function FindAll(e: Element, local: string): seq<Element> {
    WithTag(Descendants(e), Ns + local)
  }

  /** `e.find('.//nc:' + local, NS)`: the first such element, or None. */
  function Find(e: Element, local: string): Option<Element> {
    var hits := FindAll(e, local);
    if hits == [] then None else Some(hits[0])
  }

  /** `e.attrib.get(name)`. */
  function Attr(e: Element, name: string): Option<string> {
    if name in e.attrib then Some(e.attrib[name]) else None
  }

  /** One host entry of a getHosts reply, every attribute copied verbatim (None when absent). */
  datatype Host = Host(hostId: Option<string>, name: Option<string>, recordType: Option<string>,
                       address: Option<string>, mxPref: Option<string>, ttl: Option<string>)

  function HostOf(e: Element): Host {
    Host(Attr(e, "HostId"), Attr(e, "Name"), Attr(e, "Type"), Attr(e, "Address"), Attr(e, "MXPref"), Attr(e, "TTL"))
  }

  /** One domain entry of a getList reply; `expires` is the raw attribute (the date conversion is not modelled). */
  datatype DomainEntry = DomainEntry(name: Option<string>, isLocked: bool, expires: Option<string>)

  function DomainOf(e: Element): DomainEntry {
    DomainEntry(Attr(e, "Name"), Attr(e, "IsLocked") == Some("true"), Attr(e, "Expires"))
  }

  /** The host entries below a hosts-result element, one per `host` element, in document order. */
  function HostsIn(e: Element): (hs: seq<Host>)
    ensures |hs| == |FindAll(e, "host")|
    ensures forall i :: 0 <= i < |hs| ==> hs[i] == HostOf(FindAll(e, "host")[i])
  {
    var xs := FindAll(e, "host");
    seq(|xs|, i requires 0 <= i < |xs| => HostOf(xs[i]))
  }

  function DomainsIn(e: Element): (ds: seq<DomainEntry>)
    ensures |ds| == |FindAll(e, "Domain")|
    ensures forall i :: 0 <= i < |ds| ==> ds[i] == DomainOf(FindAll(e, "Domain")[i])
  {
    var xs := FindAll(e, "Domain");
    seq(|xs|, i requires 0 <= i < |xs| => DomainOf(xs[i]))
  }

  /** `_parse_hosts`: one entry per `host` element, in document order. */
  method ParseHosts(e: Element) returns (hosts: seq<Host>)
    ensures hosts == HostsIn(e)
  {
    var xs := FindAll(e, "host");
    hosts := [];
    var i := 0;
    while i < |xs|
      invariant 0 <= i <= |xs|
      invariant hosts == HostsIn(e)[..i]
    {
      hosts := hosts + [HostOf(xs[i])];
      i := i + 1;
    }
  }

  /** `_parse_domains`: one entry per `Domain` element; locked iff the attribute is exactly 'true'. */
  method ParseDomains(e: Element) returns (domains: seq<DomainEntry>)
    ensures domains == DomainsIn(e)
  {
    var xs := FindAll(e, "Domain");
    domains := [];
    var i := 0;
    while i < |xs|
      invariant 0 <= i <= |xs|
      invariant domains == DomainsIn(e)[..i]
    {
      domains := domains + [DomainOf(xs[i])];
      i := i + 1;
    }
  }

  /** The dict `_make_request` returns: the key `hosts` and the key `domains`, each possibly absent. */
  datatype Response = Response(hosts: Option<seq<Host>>, domains: Option<seq<DomainEntry>>)

  /** `_parse_response` and `_parse_command_response`. */
  function ResponseOf(root: Element): Response {
    match Find(root, "CommandResponse")
    case None => Response(None, None)
    case Some(cr) =>
      Response(
        match Find(cr, "DomainDNSGetHostsResult") case None => None case Some(h) => Some(HostsIn(h)),
        match Find(cr, "DomainDNSGetListResult") case None => None case Some(d) => Some(DomainsIn(d)))
  }

  /** `hosts` is present iff the command response has a hosts result, and `domains` iff it has a list result; each holds that element's entries. */
  lemma ResponseOfSpec(root: Element)
    ensures var r := ResponseOf(root);
      var cr := Find(root, "CommandResponse");
      && (r.hosts.Some? <==> cr.Some? && Find(cr.value, "DomainDNSGetHostsResult").Some?)
      && (r.hosts.Some? ==> r.hosts.value == HostsIn(Find(cr.value, "DomainDNSGetHostsResult").value))
      && (r.domains.Some? <==> cr.Some? && Find(cr.value, "DomainDNSGetListResult").Some?)
      && (r.domains.Some? ==> r.domains.value == DomainsIn(Find(cr.value, "DomainDNSGetListResult").value))
  {
  }

  method ParseResponse(root: Element) returns (r: Response)
    ensures r == ResponseOf(root)
  {
    r := Response(None, None);
    var cr := Find(root, "CommandResponse");
    if cr.Some? {
      var hostsResult := Find(cr.value, "DomainDNSGetHostsResult");
      var hosts: Option<seq<Host>> := None;
      if hostsResult.Some? {
        var hs := ParseHosts(hostsResult.value);
        hosts := Some(hs);
      }
      var domainsResult := Find(cr.value, "DomainDNSGetListResult");
      var domains: Option<seq<DomainEntry>> := None;
      if domainsResult.Some? {
        var ds := ParseDomains(domainsResult.value);
        domains := Some(ds);
      }
      r := Response(hosts, domains);
    }
  }

  /** What reaches the client: a transport failure, or an HTTP answer whose body is or is not well-formed XML. */
  datatype Body = Malformed(parseError: string) | Document(root: Element)

  datatype Reply =
    | RequestError(detail: string)                           // requests raised before an answer arrived
    | Answered(status: int, httpErrorText: string, body: Body) // httpErrorText: what raise_for_status would say

  /** The exceptions that leave the client; `Message` is their text. */
  datatype Failure =
    | RequestFailed(detail: string)   // requests' own exceptions, re-wrapped
    | Unexpected(detail: string)      // everything else raised inside the request, re-wrapped
    | LabelMissing                    // IndexError of `domain.split('.')[1]` on a dotless name

  function Message(f: Failure): string {
    match f
    case RequestFailed(d) => "API request failed: " + d
    case Unexpected(d) => "Unexpected error: " + d
    case LabelMissing => "list index out of range"
  }

  const InvalidKeyCode: string := "1011102"
  // Long literals are written in pieces so that the verifier can read their first characters.
  const InvalidKeyText: string := "API Key is invalid"
    + " or API access has not been enabled. Please check your API credentials"
    + " and ensure API access is enabled in your Namecheap account."
  const UnknownErrorText: string := "Unknown error" + " - no error message found in response"

  /** Python's f-string rendering of an optional text. */
  function PyText(t: Option<string>): string {
    match t case None => "None" case Some(s) => s
  }

  predicate IsErrorStatus(root: Element) {
    Attr(root, "Status") == Some("ERROR")
  }

  /** The text of the exception raised for a root with Status ERROR. */
  function ProviderErrorText(root: Element): string {
    match Find(root, "Error")
    case None => UnknownErrorText
    case Some(err) =>
      var number := if "Number" in err.attrib then err.attrib["Number"] else "Unknown";
      if number == InvalidKeyCode then InvalidKeyText
      else "Namecheap API Error #" + number + ": " + PyText(err.text)
  }

  /** The ladder of `_make_request` after the request is sent. */
  function Outcome(reply: Reply): Result<Response, Failure> {
    match reply
    case RequestError(d) => Failure(RequestFailed(d))
    case Answered(status, httpErrorText, body) =>
      if 400 <= status < 600 then Failure(RequestFailed(httpErrorText))
      else match body
        case Malformed(why) => Failure(Unexpected("Invalid XML response: " + why))
        case Document(root) =>
          if IsErrorStatus(root) then Failure(Unexpected(ProviderErrorText(root)))
          else Success(ResponseOf(root))
  }

  /** Credentials; each may be None (JSON null) when the configuration lacks it. */
  datatype Config = Config(apiUser: Value, apiKey: Value, userName: Value, clientIp: Value)

  /**
   * Query parameters of one request. A `Null` value stands for a key that `requests` leaves out
   * of the query string: a credential missing from the configuration, or a host without a HostId.
   */
  type Params = map<string, Value>

  const AuthKeys: set<string> := {"ApiUser", "ApiKey", "UserName", "ClientIp", "Command"}

  function AuthParams(cfg: Config, command: string): (a: Params)
    ensures a.Keys == AuthKeys
  {
    map["ApiUser" := cfg.apiUser, "ApiKey" := cfg.apiKey, "UserName" := cfg.userName,
        "ClientIp" := cfg.clientIp, "Command" := Str(command)]
  }

  /**
   * `params.update({...})`: the five auth keys are written over whatever the caller put
   * there; every other caller key keeps its value.
   */
  function WithAuth(params: Params, cfg: Config, command: string): (sent: Params)
    ensures sent.Keys == params.Keys + AuthKeys
    ensures sent["ApiUser"] == cfg.apiUser && sent["ApiKey"] == cfg.apiKey && sent["UserName"] == cfg.userName
    ensures sent["ClientIp"] == cfg.clientIp && sent["Command"] == Str(command)
    ensures forall k :: k in params && k !in AuthKeys ==> sent[k] == params[k]
  {
    params + AuthParams(cfg, command)
  }

  /**
   * `_make_request`: adds the auth parameters, sends the request (the provider's reply is
   * `provider(sent)`), and classifies the reply.
   */
  method MakeRequest(cfg: Config, command: string, params: Params, provider: Params -> Reply)
    returns (sent: Params, r: Result<Response, Failure>)
    ensures sent == WithAuth(params, cfg, command)
    ensures r == Outcome(provider(sent))
  {
    sent := WithAuth(params, cfg, command);
    var reply := provider(sent);
    if reply.RequestError? {
      return sent, Failure(RequestFailed(reply.detail));
    }
    if 400 <= reply.status < 600 {
      return sent, Failure(RequestFailed(reply.httpErrorText));
    }
    if reply.body.Malformed? {
      return sent, Failure(Unexpected("Invalid XML response: " + reply.body.parseError));
    }
    var root := reply.body.root;
    if IsErrorStatus(root) {
      var err := Find(root, "Error");
      if err.Some? {
        var number := if "Number" in err.value.attrib then err.value.attrib["Number"] else "Unknown";
        if number == InvalidKeyCode {
          return sent, Failure(Unexpected(InvalidKeyText));
        }
        return sent, Failure(Unexpected("Namecheap API Error #" + number + ": " + PyText(err.value.text)));
      }
      return sent, Failure(Unexpected(UnknownErrorText));
    }
    var resp := ParseResponse(root);
    r := Success(resp);
  }

  /** A Status ERROR root always fails, with the provider's text behind the "Unexpected error: " prefix. */
  lemma ErrorStatusAlwaysFails(status: int, t: string, root: Element)
    requires !(400 <= status < 600) && IsErrorStatus(root)
    ensures Outcome(Answered(status, t, Document(root))) == Failure(Unexpected(ProviderErrorText(root)))
    ensures "Unexpected error: " <= Message(Outcome(Answered(status, t, Document(root))).error)
  {
  }

  /** A reply succeeds iff it is a non-4xx/5xx answer with a well-formed body whose Status is not ERROR. */
  lemma SuccessIff(reply: Reply)
    ensures Outcome(reply).Success? <==>
      reply.Answered? && !(400 <= reply.status < 600) && reply.body.Document? && !IsErrorStatus(reply.body.root)
    ensures Outcome(reply).Success? ==> Outcome(reply).value == ResponseOf(reply.body.root)
  {
  }

  /** The invalid-key text reaches the caller only inside the "Unexpected error: " wrapper. */
  lemma InvalidKeyWrapped(status: int, t: string, root: Element)
    requires !(400 <= status < 600) && IsErrorStatus(root)
    requires Find(root, "Error").Some? && Attr(Find(root, "Error").value, "Number") == Some(InvalidKeyCode)
    ensures var m := Message(Outcome(Answered(status, t, Document(root))).error);
      m != InvalidKeyText && Contains(m, InvalidKeyText)
  {
    InvalidKeyMessage(Answered(status, t, Document(root)));
    OccursAtEnd("Unexpected error: ", InvalidKeyText);
    assert InvalidKeyText[0] == 'A';
  }

  predicate IsInvalidKeyReply(reply: Reply) {
    && reply.Answered? && !(400 <= reply.status < 600) && reply.body.Document?
    && IsErrorStatus(reply.body.root)
    && Find(reply.body.root, "Error").Some?
    && Attr(Find(reply.body.root, "Error").value, "Number") == Some(InvalidKeyCode)
  }

  lemma InvalidKeyMessage(reply: Reply)
    requires IsInvalidKeyReply(reply)
    ensures Outcome(reply) == Failure(Unexpected(InvalidKeyText))
  {
  }

  /**
   * The invalid-credentials failure can be told apart by its message: a failed reply has
   * the invalid-key message iff it is an error 1011102 reply.
   */
  lemma InvalidKeyDistinguishable(reply: Reply)
    requires Outcome(reply).Failure?
    ensures Message(Outcome(reply).error) == "Unexpected error: " + InvalidKeyText <==> IsInvalidKeyReply(reply)
  {
    if IsInvalidKeyReply(reply) {
      InvalidKeyMessage(reply);
    } else {
      OtherFailureMessage(reply);
    }
  }

  /** Every other failure has a message that differs from the wrapped invalid-key text at character 0 or 18. */
  lemma OtherFailureMessage(reply: Reply)
    requires Outcome(reply).Failure? && !IsInvalidKeyReply(reply)
    ensures Message(Outcome(reply).error) != "Unexpected error: " + InvalidKeyText
  {
    var m := Message(Outcome(reply).error);
    var target := "Unexpected error: " + InvalidKeyText;
    OtherFailureShape(reply);
    assert InvalidKeyText[0] == 'A';
    assert target[0] == 'U' && target[18] == 'A';
  }

  lemma OtherFailureShape(reply: Reply)
    requires Outcome(reply).Failure? && !IsInvalidKeyReply(reply)
    ensures var m := Message(Outcome(reply).error);
      |m| > 18 && (m[0] != 'U' || m[18] != 'A')
  {
    var m := Message(Outcome(reply).error);
    match Outcome(reply).error
    case RequestFailed(d) =>
      assert m[0] == 'A';
    case LabelMissing =>
    case Unexpected(d) =>
      assert m == "Unexpected error: " + d;
      if reply.Answered? && reply.body.Malformed? {
        assert m[18] == 'I';
      } else {
        match Find(reply.body.root, "Error")
        case None =>
          assert UnknownErrorText[0] == 'U';
          assert m[18] == UnknownErrorText[0];
        case Some(err) =>
          assert m[18] == 'N';
      }
  }

  /** `get_dns_records` returns `[]` when the reply carries no hosts result, `get_domains` likewise. */
  function HostsOrEmpty(r: Response): seq<Host> {
    r.hosts.GetOr([])
  }

  const GetHostsCommand: string := "namecheap.domains.dns.getHosts"
  const SetHostsCommand: string := "namecheap.domains.dns.setHosts"
  const DelHostCommand: string := "namecheap.domains.dns.delHost"
  const GetListCommand: string := "namecheap.domains.getList"

  /** SLD and TLD from the naive first-two-labels split; None for a dotless name. */
  function SldTld(domain: string): Option<Params> {
    match DomainNames.FirstTwoLabels(domain)
    case None => None
    case Some(p) => Some(map["SLD" := Str(p.0), "TLD" := Str(p.1)])
  }

  /** `get_dns_records`: the hosts of the reply, `[]` without a hosts result; failures raise. */
  method GetDnsRecords(cfg: Config, domain: string, provider: Params -> Reply)
    returns (sent: Option<Params>, r: Result<seq<Host>, Failure>)
    ensures SldTld(domain).None? ==> sent == None && r == Failure(LabelMissing)
    ensures SldTld(domain).Some? ==>
      && sent == Some(WithAuth(SldTld(domain).value, cfg, GetHostsCommand))
      && r == match Outcome(provider(sent.value))
              case Failure(f) => Failure(f)
              case Success(resp) => Success(HostsOrEmpty(resp))
  {
    var p := SldTld(domain);
    if p.None? {
      return None, Failure(LabelMissing);
    }
    var s, resp := MakeRequest(cfg, GetHostsCommand, p.value, provider);
    sent := Some(s);
    if resp.Failure? {
      r := Failure(resp.error);
    } else {
      r := Success(HostsOrEmpty(resp.value));
    }
  }

  /** `get_domains`. */
  method GetDomains(cfg: Config, provider: Params -> Reply)
    returns (sent: Params, r: Result<seq<DomainEntry>, Failure>)
    ensures sent == WithAuth(map[], cfg, GetListCommand)
    ensures r == match Outcome(provider(sent))
                 case Failure(f) => Failure(f)
                 case Success(resp) => Success(resp.domains.GetOr([]))
  {
    var resp;
    sent, resp := MakeRequest(cfg, GetListCommand, map[], provider);
    if resp.Failure? {
      r := Failure(resp.error);
    } else {
      r := Success(resp.value.domains.GetOr([]));
    }
  }

  /**
   * The parameters of a single-host setHosts call; `hostId` is present for an update.
   * `MXPref` is sent only for an MX record with a preference that is not None.
   */
  function HostParams(sldTld: Params, hostId: Option<Value>, recordType: string, name: Value, address: Value,
                      mxPref: Value, ttl: Value): Params
  {
    var base := sldTld + map["RecordType" := Str(recordType), "HostName" := name, "Address" := address, "TTL" := ttl];
    var withId := if hostId.Some? then base["HostId" := hostId.value] else base;
    if recordType == "MX" && mxPref != Null then withId["MXPref" := mxPref] else withId
  }

  /** The preference is sent exactly for MX records that carry one; every other field is as given. */
  lemma HostParamsShape(sldTld: Params, hostId: Option<Value>, recordType: string, name: Value, address: Value,
                        mxPref: Value, ttl: Value)
    requires sldTld.Keys == {"SLD", "TLD"}
    ensures var p := HostParams(sldTld, hostId, recordType, name, address, mxPref, ttl);
      && ("MXPref" in p <==> recordType == "MX" && mxPref != Null)
      && ("HostId" in p <==> hostId.Some?)
      && p.Keys == {"SLD", "TLD", "RecordType", "HostName", "Address", "TTL"}
                   + (if hostId.Some? then {"HostId"} else {}) + (if "MXPref" in p then {"MXPref"} else {})
      && p["RecordType"] == Str(recordType) && p["HostName"] == name && p["Address"] == address && p["TTL"] == ttl
      && p["SLD"] == sldTld["SLD"] && p["TLD"] == sldTld["TLD"]
  {
  }

  /** The TTL every add/update sends when the caller gives none. */
  const DefaultTtl: Value := Int(1800)

  /**
   * `add_dns_record`: a dotless name raises (the parameters are built outside the try);
   * otherwise one setHosts request is sent and the call returns whether it succeeded.
   */
  method AddDnsRecord(cfg: Config, provider: Params -> Reply, domain: string, recordType: string,
                      name: Value, address: Value, mxPref: Value := Null, ttl: Value := DefaultTtl)
    returns (sent: Option<Params>, r: Result<bool, Failure>)
    ensures SldTld(domain).None? ==> sent == None && r == Failure(LabelMissing)
    ensures SldTld(domain).Some? ==>
      && sent == Some(WithAuth(HostParams(SldTld(domain).value, None, recordType, name, address, mxPref, ttl), cfg, SetHostsCommand))
      && r == Success(Outcome(provider(sent.value)).Success?)
  {
    var p := SldTld(domain);
    if p.None? {
      return None, Failure(LabelMissing);
    }
    var s, resp := MakeRequest(cfg, SetHostsCommand, HostParams(p.value, None, recordType, name, address, mxPref, ttl), provider);
    sent := Some(s);
    r := Success(resp.Success?);
  }

  /** `update_dns_record`: as `add_dns_record`, with the HostId parameter. */
  method UpdateDnsRecord(cfg: Config, provider: Params -> Reply, domain: string, hostId: Value, recordType: string,
                         name: Value, address: Value, mxPref: Value := Null, ttl: Value := DefaultTtl)
    returns (sent: Option<Params>, r: Result<bool, Failure>)
    ensures SldTld(domain).None? ==> sent == None && r == Failure(LabelMissing)
    ensures SldTld(domain).Some? ==>
      && sent == Some(WithAuth(HostParams(SldTld(domain).value, Some(hostId), recordType, name, address, mxPref, ttl), cfg, SetHostsCommand))
      && r == Success(Outcome(provider(sent.value)).Success?)
  {
    var p := SldTld(domain);
    if p.None? {
      return None, Failure(LabelMissing);
    }
    var s, resp := MakeRequest(cfg, SetHostsCommand, HostParams(p.value, Some(hostId), recordType, name, address, mxPref, ttl), provider);
    sent := Some(s);
    r := Success(resp.Success?);
  }

  /** `delete_dns_record`: one delHost request with SLD, TLD and HostId. */
  method DeleteDnsRecord(cfg: Config, provider: Params -> Reply, domain: string, hostId: Value)
    returns (sent: Option<Params>, r: Result<bool, Failure>)
    ensures SldTld(domain).None? ==> sent == None && r == Failure(LabelMissing)
    ensures SldTld(domain).Some? ==>
      && sent == Some(WithAuth(SldTld(domain).value["HostId" := hostId], cfg, DelHostCommand))
      && r == Success(Outcome(provider(sent.value)).Success?)
  {
    var p := SldTld(domain);
    if p.None? {
      return None, Failure(LabelMissing);
    }
    var s, resp := MakeRequest(cfg, DelHostCommand, p.value["HostId" := hostId], provider);
    sent := Some(s);
    r := Success(resp.Success?);
  }
}
