/**
 * `DomainManager`: the workspace of domain directories and the read-modify-write
 * operations on each domain's content/records/data.json and content/records/dns.json.
 * The filesystem under the workspace root is represented by the object's fields; each
 * operation's effect is the corresponding `...Result` function of RecordStore.
 */
module DomainManagement {
  import opened Wrappers
  import opened Json
  import opened Dicts
  import opened RecordStore
  import opened DnsSync
  import NamecheapApi

  /** `namecheap_config.get(key)`. */
  function ConfigValue(config: map<string, Value>, key: string): Value {
    if key in config then config[key] else Null
  }

  /** The provider request a sync sends; None for a dotless name (the split raises first). */
  function FetchRequest(cfg: NamecheapApi.Config, domain: string): Option<NamecheapApi.Params> {
    match NamecheapApi.SldTld(domain)
    case None => None
    case Some(p) => Some(NamecheapApi.WithAuth(p, cfg, NamecheapApi.GetHostsCommand))
  }

  /** The records a sync writes, given the provider; None when the fetch or a TTL conversion fails. */
  function PullFromProvider(cfg: NamecheapApi.Config, domain: string, provider: NamecheapApi.Params -> NamecheapApi.Reply, now: string): Option<Records> {
    match FetchRequest(cfg, domain)
    case None => None
    case Some(q) =>
      match NamecheapApi.Outcome(provider(q))
      case Failure(_) => None
      case Success(resp) => Pulled(NamecheapApi.HostsOrEmpty(resp), now)
  }

  /**
   * One provider call of a push: update when the record has an id, else add, with the
   * default preference. None when the split of a dotless name raises before sending.
   */
  method SendRecord(cfg: NamecheapApi.Config, provider: NamecheapApi.Params -> NamecheapApi.Reply,
                    domain: string, t: string, r: Record)
    returns (s: Option<NamecheapApi.Params>)
    requires Sendable(r)
    ensures NamecheapApi.SldTld(domain).None? ==> s.None?
    ensures NamecheapApi.SldTld(domain).Some? ==> s == Some(CallRequest(NamecheapApi.SldTld(domain).value, cfg, CallFor(t, r).value))
  {
    var res;
    if "id" in r {
      s, res := NamecheapApi.UpdateDnsRecord(cfg, provider, domain, r["id"], t, r["name"], r["value"], ttl := r["ttl"]);
    } else {
      s, res := NamecheapApi.AddDnsRecord(cfg, provider, domain, t, r["name"], r["value"], ttl := r["ttl"]);
    }
  }

  class DomainManager {
    /** Domains whose directory `<root>/<domain>` exists. */
    var domainDirs: set<string>
    /** Domains whose `content/records` directory exists. */
    var recordDirs: set<string>
    /** `content/records/data.json` of each domain that has one. */
    var dataFiles: map<string, Stored<Records>>
    /** `content/records/dns.json` of each domain that has one. */
    var dnsFiles: map<string, Stored<DnsDoc>>
    /** The provider client, present iff a non-empty configuration was given. */
    const api: Option<NamecheapApi.Config>

    /** A file lies in an existing records directory, which lies in an existing domain directory. */
    ghost predicate Valid()
      reads this
    {
      recordDirs <= domainDirs && dataFiles.Keys <= recordDirs && dnsFiles.Keys <= recordDirs
    }

    function DataFile(domain: string): Option<Stored<Records>>
      reads this
    {
      if domain in dataFiles then Some(dataFiles[domain]) else None
    }

    function DnsFile(domain: string): Option<Stored<DnsDoc>>
      reads this
    {
      if domain in dnsFiles then Some(dnsFiles[domain]) else None
    }

    /** `__init__`, over the workspace as it already is on disk. */
    constructor (namecheapConfig: map<string, Value>, domainDirs: set<string>, recordDirs: set<string>,
                 dataFiles: map<string, Stored<Records>>, dnsFiles: map<string, Stored<DnsDoc>>)
      requires recordDirs <= domainDirs && dataFiles.Keys <= recordDirs && dnsFiles.Keys <= recordDirs
      ensures Valid()
      ensures this.domainDirs == domainDirs && this.recordDirs == recordDirs
      ensures this.dataFiles == dataFiles && this.dnsFiles == dnsFiles
      ensures api.Some? <==> namecheapConfig != map[]
      ensures api.Some? ==> api.value == NamecheapApi.Config(
                ConfigValue(namecheapConfig, "api_user"), ConfigValue(namecheapConfig, "api_key"),
                ConfigValue(namecheapConfig, "username"), ConfigValue(namecheapConfig, "client_ip"))
    {
      this.domainDirs := domainDirs;
      this.recordDirs := recordDirs;
      this.dataFiles := dataFiles;
      this.dnsFiles := dnsFiles;
      if namecheapConfig != map[] {
        api := Some(NamecheapApi.Config(
          ConfigValue(namecheapConfig, "api_user"), ConfigValue(namecheapConfig, "api_key"),
          ConfigValue(namecheapConfig, "username"), ConfigValue(namecheapConfig, "client_ip")));
      } else {
        api := None;
      }
    }

    /**
     * `create_domain`: refuses an existing domain directory. Otherwise it creates the
     * directories, touches data.json (left empty, which `json.load` rejects) and writes the
     * default dns.json.
     */
    method CreateDomain(domain: string, now: string) returns (ok: bool)
      requires Valid()
      modifies this
      ensures Valid()
      ensures ok <==> domain !in old(domainDirs)
      ensures ok ==> && domainDirs == old(domainDirs) + {domain} && recordDirs == old(recordDirs) + {domain}
                     && dataFiles == old(dataFiles)[domain := Unreadable]
                     && dnsFiles == old(dnsFiles)[domain := Loaded(DefaultDns(now))]
      ensures !ok ==> && domainDirs == old(domainDirs) && recordDirs == old(recordDirs)
                      && dataFiles == old(dataFiles) && dnsFiles == old(dnsFiles)
    {
      if domain in domainDirs {
        return false;
      }
      domainDirs := domainDirs + {domain};
      recordDirs := recordDirs + {domain};
      dataFiles := dataFiles[domain := Unreadable];
      dnsFiles := dnsFiles[domain := Loaded(DefaultDns(now))];
      ok := true;
    }

    /** `add_record`. */
    method AddRecord(domain: string, t: string, data: Record, now: string) returns (ok: bool)
      requires Valid()
      modifies this
      ensures Valid()
      ensures var out := AddRecordResult(domain in old(recordDirs), old(DataFile(domain)), t, data, now);
        && ok == out.Some?
        && dataFiles == (if ok then old(dataFiles)[domain := Loaded(out.value)] else old(dataFiles))
      ensures domainDirs == old(domainDirs) && recordDirs == old(recordDirs) && dnsFiles == old(dnsFiles)
    {
      var records: Records := [];
      if domain in dataFiles {
        if dataFiles[domain].Unreadable? {
          return false;
        }
        records := dataFiles[domain].doc;
      }
      ghost var start := records;
      if t !in Keys(records) {
        records := Put(records, t, []);
        FindPut(start, t, [], t);
      }
      var cur := ListOf(records, t);
      records := Put(records, t, cur + [Stamped(data, |cur| + 1, now)]);
      if t !in Keys(start) {
        PutPut(start, t, [], cur + [Stamped(data, |cur| + 1, now)]);
      }
      assert records == Appended(start, t, data, now);
      if domain !in recordDirs {
        return false;
      }
      dataFiles := dataFiles[domain := Loaded(records)];
      ok := true;
    }

    /** `get_records`. */
    method GetRecords(domain: string, t: Option<string>) returns (v: RecordsView)
      ensures v == GetRecordsResult(DataFile(domain), t)
    {
      if domain !in dataFiles || dataFiles[domain].Unreadable? {
        return AllTypes([]);
      }
      var records := dataFiles[domain].doc;
      if t.Some? && t.value != "" {
        return OfType(ListOf(records, t.value));
      }
      v := AllTypes(records);
    }

    /** `update_record`. */
    method UpdateRecord(domain: string, t: string, id: string, patch: Record, now: string) returns (ok: bool)
      requires Valid()
      modifies this
      ensures Valid()
      ensures var out := UpdateRecordResult(old(DataFile(domain)), t, id, patch, now);
        && ok == out.Some?
        && dataFiles == (if ok then old(dataFiles)[domain := Loaded(out.value)] else old(dataFiles))
      ensures domainDirs == old(domainDirs) && recordDirs == old(recordDirs) && dnsFiles == old(dnsFiles)
    {
      if domain !in dataFiles || dataFiles[domain].Unreadable? {
        return false;
      }
      var records := dataFiles[domain].doc;
      if t !in Keys(records) {
        return false;
      }
      var list := PatchFirst(ListOf(records, t), id, patch, now);
      if list.None? {
        return false;
      }
      dataFiles := dataFiles[domain := Loaded(Put(records, t, list.value))];
      ok := true;
    }

    /** `delete_record`. */
    method DeleteRecord(domain: string, t: string, id: string) returns (ok: bool)
      requires Valid()
      modifies this
      ensures Valid()
      ensures var out := DeleteRecordResult(old(DataFile(domain)), t, id);
        && ok == out.Some?
        && dataFiles == (if ok then old(dataFiles)[domain := Loaded(out.value)] else old(dataFiles))
      ensures domainDirs == old(domainDirs) && recordDirs == old(recordDirs) && dnsFiles == old(dnsFiles)
    {
      if domain !in dataFiles || dataFiles[domain].Unreadable? {
        return false;
      }
      var records := dataFiles[domain].doc;
      if t !in Keys(records) {
        return false;
      }
      var list := Without(ListOf(records, t), id);
      if list.None? {
        return false;
      }
      dataFiles := dataFiles[domain := Loaded(Put(records, t, list.value))];
      ok := true;
    }

    /** `get_dns_records`. */
    method GetDnsRecords(domain: string, t: Option<string>) returns (v: DnsView)
      ensures v == GetDnsResult(DnsFile(domain), t)
    {
      if domain !in dnsFiles || dnsFiles[domain].Unreadable? {
        return RecordsOnly([]);
      }
      var doc := dnsFiles[domain].doc;
      if t.Some? && t.value != "" {
        return RecordsOnly([(t.value, ListOf(doc.records, t.value))]);
      }
      v := WholeDoc(doc);
    }

    /** `add_dns_record`. */
    method AddDnsRecord(domain: string, t: string, data: Record, now: string) returns (ok: bool)
      requires Valid()
      modifies this
      ensures Valid()
      ensures var out := DnsAddResult(old(DnsFile(domain)), t, data, now);
        && ok == out.Some?
        && dnsFiles == (if ok then old(dnsFiles)[domain := Loaded(out.value)] else old(dnsFiles))
      ensures domainDirs == old(domainDirs) && recordDirs == old(recordDirs) && dataFiles == old(dataFiles)
    {
      if domain !in dnsFiles || dnsFiles[domain].Unreadable? {
        return false;
      }
      var doc := dnsFiles[domain].doc;
      if t !in Keys(doc.records) {
        return false;
      }
      var cur := ListOf(doc.records, t);
      var records := Put(doc.records, t, cur + [Stamped(data, |cur| + 1, now)]);
      dnsFiles := dnsFiles[domain := Loaded(DnsDoc(records, now))];
      ok := true;
    }

    /** `update_dns_record`. */
    method UpdateDnsRecord(domain: string, t: string, id: string, patch: Record, now: string) returns (ok: bool)
      requires Valid()
      modifies this
      ensures Valid()
      ensures var out := DnsUpdateResult(old(DnsFile(domain)), t, id, patch, now);
        && ok == out.Some?
        && dnsFiles == (if ok then old(dnsFiles)[domain := Loaded(out.value)] else old(dnsFiles))
      ensures domainDirs == old(domainDirs) && recordDirs == old(recordDirs) && dataFiles == old(dataFiles)
    {
      if domain !in dnsFiles || dnsFiles[domain].Unreadable? {
        return false;
      }
      var doc := dnsFiles[domain].doc;
      if t !in Keys(doc.records) {
        return false;
      }
      var list := PatchFirst(ListOf(doc.records, t), id, patch, now);
      if list.None? {
        return false;
      }
      dnsFiles := dnsFiles[domain := Loaded(DnsDoc(Put(doc.records, t, list.value), now))];
      ok := true;
    }

    /** `delete_dns_record`. */
    method DeleteDnsRecord(domain: string, t: string, id: string, now: string) returns (ok: bool)
      requires Valid()
      modifies this
      ensures Valid()
      ensures var out := DnsDeleteResult(old(DnsFile(domain)), t, id, now);
        && ok == out.Some?
        && dnsFiles == (if ok then old(dnsFiles)[domain := Loaded(out.value)] else old(dnsFiles))
      ensures domainDirs == old(domainDirs) && recordDirs == old(recordDirs) && dataFiles == old(dataFiles)
    {
      if domain !in dnsFiles || dnsFiles[domain].Unreadable? {
        return false;
      }
      var doc := dnsFiles[domain].doc;
      if t !in Keys(doc.records) {
        return false;
      }
      var list := Without(ListOf(doc.records, t), id);
      if list.None? {
        return false;
      }
      dnsFiles := dnsFiles[domain := Loaded(DnsDoc(Put(doc.records, t, list.value), now))];
      ok := true;
    }

    /**
     * `sync_dns_records`: fetches the provider's hosts and replaces dns.json with the
     * document built from them. Nothing is written when the fetch or a TTL fails, or when
     * there is no records directory to write into.
     */
    method SyncDnsRecords(domain: string, now: string, provider: NamecheapApi.Params -> NamecheapApi.Reply)
      returns (ok: bool, sent: Option<NamecheapApi.Params>)
      requires Valid()
      modifies this
      ensures Valid()
      ensures api.None? ==> sent.None?
      ensures api.Some? ==> sent == FetchRequest(api.value, domain)
      ensures ok <==> api.Some? && PullFromProvider(api.value, domain, provider, now).Some? && domain in old(recordDirs)
      ensures dnsFiles == if ok then old(dnsFiles)[domain := Loaded(DnsDoc(PullFromProvider(api.value, domain, provider, now).value, now))]
                          else old(dnsFiles)
      ensures domainDirs == old(domainDirs) && recordDirs == old(recordDirs) && dataFiles == old(dataFiles)
    {
      if api.None? {
        return false, None;
      }
      var hosts;
      sent, hosts := NamecheapApi.GetDnsRecords(api.value, domain, provider);
      if hosts.Failure? {
        return false, sent;
      }
      var records := BuildFromHosts(hosts.value, now);
      if records.None? {
        return false, sent;
      }
      if domain !in recordDirs {
        return false, sent;
      }
      dnsFiles := dnsFiles[domain := Loaded(DnsDoc(records.value, now))];
      ok := true;
    }

    /**
     * `push_dns_records`: one update (record with an id) or add (without) per stored record,
     * in type order then list order. Provider replies are ignored; a record missing its
     * name, value or ttl stops the walk after the calls already sent.
     */
    method PushDnsRecords(domain: string, provider: NamecheapApi.Params -> NamecheapApi.Reply)
      returns (ok: bool, sent: seq<NamecheapApi.Params>)
      ensures !(api.Some? && DnsFile(domain).Some? && DnsFile(domain).value.Loaded?) ==> !ok && sent == []
      ensures api.Some? && DnsFile(domain).Some? && DnsFile(domain).value.Loaded? ==>
        && ok == PushReturns(domain, DnsFile(domain).value.doc.records)
        && sent == PushSent(domain, api.value, DnsFile(domain).value.doc.records)
    {
      if api.None? || domain !in dnsFiles || dnsFiles[domain].Unreadable? {
        return false, [];
      }
      var cfg := api.value;
      var records := dnsFiles[domain].doc.records;
      ghost var items := Items(records);
      sent := [];
      var i := 0;
      while i < |records|
        invariant 0 <= i <= |records|
        invariant |sent| == |Items(records[..i])|
        invariant SentSoFar(domain, cfg, items, sent)
      {
        var t := records[i].0;
        var list := records[i].1;
        ItemsPrefix(records, i);
        ItemsPrefixOf(records, i + 1);
        var j := 0;
        while j < |list|
          invariant 0 <= j <= |list|
          invariant |sent| == |Items(records[..i])| + j
          invariant SentSoFar(domain, cfg, items, sent)
        {
          var r := list[j];
          assert items[|sent|] == Items(records[..i + 1])[|sent|] == (t, r);
          if !("name" in r && "value" in r && "ttl" in r) {
            SentAbort(domain, cfg, records, sent);
            return false, sent;
          }
          var s := SendRecord(cfg, provider, domain, t, r);
          if s.None? {
            SentAbort(domain, cfg, records, sent);
            return false, sent;
          }
          SentStep(domain, cfg, items, sent);
          sent := sent + [s.value];
          j := j + 1;
        }
        i := i + 1;
      }
      assert records[..i] == records;
      SentAll(domain, cfg, records, sent);
      ok := true;
    }
  }
}
