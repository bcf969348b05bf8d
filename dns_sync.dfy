/**
 * Pull and push between the local DNS document and the provider: the document a sync
 * builds from the provider's host list, and the calls a push issues for a document.
 */
module DnsSync {
  import opened Wrappers
  import opened Json
  import opened Strings
  import opened Dicts
  import opened RecordStore
  import NamecheapApi

  type Host = NamecheapApi.Host

  /** A provider attribute as a JSON value: an absent attribute is None (null). */
  function OptValue(o: Option<string>): Value {
    match o case None => Null case Some(s) => Str(s)
  }

  const SyncedKeys: set<string> := {"id", "name", "value", "ttl", "created_at", "updated_at"}

  /** The local record built from one host; None when `int(record['ttl'])` raises. */
  function Converted(h: Host, now: string): (r: Option<Record>)
    ensures r.Some? <==> h.ttl.Some? && ParseInt(h.ttl.value).Some?
    ensures r.Some? ==>
      && r.value.Keys == SyncedKeys
      && r.value["id"] == OptValue(h.hostId) && r.value["name"] == OptValue(h.name)
      && r.value["value"] == OptValue(h.address) && r.value["ttl"] == Int(ParseInt(h.ttl.value).value)
      && r.value["created_at"] == Str(now) && r.value["updated_at"] == Str(now)
  {
    match h.ttl
    case None => None
    case Some(s) =>
      match ParseInt(s)
      case None => None
      case Some(n) =>
        Some(map["id" := OptValue(h.hostId), "name" := OptValue(h.name), "value" := OptValue(h.address),
                 "ttl" := Int(n), "created_at" := Str(now), "updated_at" := Str(now)])
  }

  /** One iteration of the sync loop: a host of a type the document has is appended to that type. */
  function SyncStep(acc: Records, h: Host, now: string): Option<Records> {
    if h.recordType.None? || h.recordType.value !in Keys(acc) then Some(acc)
    else match Converted(h, now)
      case None => None
      case Some(r) => Some(Put(acc, h.recordType.value, ListOf(acc, h.recordType.value) + [r]))
  }

  /** The records a sync writes after seeing `hosts`, starting from the five empty types. */
  function Pulled(hosts: seq<Host>, now: string): Option<Records>
    decreases |hosts|
  {
    if hosts == [] then Some(EmptyDnsRecords())
    else match Pulled(hosts[..|hosts| - 1], now)
      case None => None
      case Some(acc) => SyncStep(acc, hosts[|hosts| - 1], now)
  }

  /** The hosts of one type, in provider order. */
  function HostsOfType(hosts: seq<Host>, t: string): (hs: seq<Host>)
    ensures forall h :: h in hs ==> h in hosts && h.recordType == Some(t)
    decreases |hosts|
  {
    if hosts == [] then []
    else HostsOfType(hosts[..|hosts| - 1], t) + (if hosts[|hosts| - 1].recordType == Some(t) then [hosts[|hosts| - 1]] else [])
  }

  /** Converts every host, or None when one of them has no integer TTL. */
  function ConvertAll(hs: seq<Host>, now: string): Option<seq<Record>>
    decreases |hs|
  {
    if hs == [] then Some([])
    else match ConvertAll(hs[..|hs| - 1], now)
      case None => None
      case Some(rs) =>
        match Converted(hs[|hs| - 1], now)
        case None => None
        case Some(r) => Some(rs + [r])
  }

  /** A converted list has one record per host, each built from that host. */
  lemma {:induction false} ConvertAllSpec(hs: seq<Host>, now: string)
    requires ConvertAll(hs, now).Some?
    ensures |ConvertAll(hs, now).value| == |hs|
    ensures forall k :: 0 <= k < |hs| ==> Converted(hs[k], now) == Some(ConvertAll(hs, now).value[k])
  {
    if hs != [] {
      var init := hs[..|hs| - 1];
      ConvertAllSpec(init, now);
      forall k | 0 <= k < |hs| ensures Converted(hs[k], now) == Some(ConvertAll(hs, now).value[k]) {
        if k < |init| { assert hs[k] == init[k]; }
      }
    }
  }

  /** A host is kept by a sync iff its type is one of the five document types. */
  predicate Kept(h: Host) {
    h.recordType.Some? && h.recordType.value in DnsTypes
  }

  /** A host the pull keeps but cannot convert. */
  predicate Unconvertible(h: Host, now: string) {
    Kept(h) && Converted(h, now).None?
  }

  /** A pull fails iff some kept host has no integer TTL. */
  lemma {:induction false} PulledFails(hosts: seq<Host>, now: string)
    ensures Pulled(hosts, now).None? <==> exists i :: 0 <= i < |hosts| && Unconvertible(hosts[i], now)
    decreases |hosts|
  {
    if hosts != [] {
      var init := hosts[..|hosts| - 1];
      var h := hosts[|hosts| - 1];
      PulledFails(init, now);
      if Pulled(init, now).None? {
        var i :| 0 <= i < |init| && Unconvertible(init[i], now);
        assert hosts[i] == init[i];
      } else {
        var acc := Pulled(init, now).value;
        PulledContents(init, now);
        assert Pulled(hosts, now) == SyncStep(acc, h, now);
        if Unconvertible(h, now) {
          assert Pulled(hosts, now).None?;
        } else {
          assert Pulled(hosts, now).Some?;
          forall i | 0 <= i < |hosts| ensures !Unconvertible(hosts[i], now) {
            if i < |init| { assert hosts[i] == init[i]; }
          }
        }
      }
    }
  }

  /**
   * The pull replaces the document wholesale: the five types, each holding exactly its
   * hosts in provider order; every other type is dropped.
   */
  lemma {:induction false} PulledContents(hosts: seq<Host>, now: string)
    requires Pulled(hosts, now).Some?
    ensures Keys(Pulled(hosts, now).value) == DnsTypes
    ensures forall t :: t in DnsTypes ==> ConvertAll(HostsOfType(hosts, t), now) == Some(ListOf(Pulled(hosts, now).value, t))
    decreases |hosts|
  {
    if hosts != [] {
      var init := hosts[..|hosts| - 1];
      var h := hosts[|hosts| - 1];
      PulledContents(init, now);
      var acc := Pulled(init, now).value;
      forall t | t in DnsTypes && h.recordType != Some(t) ensures HostsOfType(hosts, t) == HostsOfType(init, t) {
        assert HostsOfType(hosts, t) == HostsOfType(init, t) + [];
      }
      if Kept(h) {
        var t0 := h.recordType.value;
        var r := Converted(h, now).value;
        var out := Put(acc, t0, ListOf(acc, t0) + [r]);
        forall t | t in DnsTypes ensures ConvertAll(HostsOfType(hosts, t), now) == Some(ListOf(out, t)) {
          FindPut(acc, t0, ListOf(acc, t0) + [r], t);
          if t == t0 {
            var sel := HostsOfType(hosts, t);
            assert sel == HostsOfType(init, t) + [h];
            assert sel[..|sel| - 1] == HostsOfType(init, t);
          }
        }
      }
    }
  }

  /** Every record a pull writes has an id, a name, a value and a ttl. */
  lemma PulledRecordsComplete(hosts: seq<Host>, now: string, t: string, r: Record)
    requires Pulled(hosts, now).Some? && r in ListOf(Pulled(hosts, now).value, t)
    ensures r.Keys == SyncedKeys
  {
    PulledContents(hosts, now);
    var rs := Pulled(hosts, now).value;
    if t in DnsTypes {
      var hs := HostsOfType(hosts, t);
      ConvertAllSpec(hs, now);
      var k :| 0 <= k < |ListOf(rs, t)| && ListOf(rs, t)[k] == r;
      assert Converted(hs[k], now) == Some(r);
    }
  }

  /** Once a prefix of the hosts fails to convert, the whole pull fails. */
  lemma PulledStaysFailed(hosts: seq<Host>, n: int, now: string)
    requires 0 <= n <= |hosts| && Pulled(hosts[..n], now).None?
    ensures Pulled(hosts, now).None?
  {
    PulledFails(hosts[..n], now);
    PulledFails(hosts, now);
    var i :| 0 <= i < n && Unconvertible(hosts[..n][i], now);
    assert hosts[..n][i] == hosts[i];
  }

  /** The loop of `sync_dns_records` that fills the fresh five-type document. */
  method BuildFromHosts(hosts: seq<Host>, now: string) returns (r: Option<Records>)
    ensures r == Pulled(hosts, now)
  {
    var acc := EmptyDnsRecords();
    var i := 0;
    while i < |hosts|
      invariant 0 <= i <= |hosts|
      invariant Pulled(hosts[..i], now) == Some(acc)
    {
      var h := hosts[i];
      assert hosts[..i + 1][..i] == hosts[..i];
      assert Pulled(hosts[..i + 1], now) == SyncStep(acc, h, now);
      if h.recordType.Some? && h.recordType.value in Keys(acc) {
        var rec := Converted(h, now);
        if rec.None? {
          PulledStaysFailed(hosts, i + 1, now);
          return None;
        }
        acc := Put(acc, h.recordType.value, ListOf(acc, h.recordType.value) + [rec.value]);
      }
      i := i + 1;
    }
    assert hosts[..i] == hosts;
    r := Some(acc);
  }

  // ---- push ----

  /** One provider call of a push. The preference argument is never passed, so it is always None. */
  datatype Call =
    | Update(hostId: Value, recordType: string, name: Value, address: Value, ttl: Value)
    | Add(recordType: string, name: Value, address: Value, ttl: Value)

  /** The call for one stored record of type `t`; None when `name`, `value` or `ttl` is missing (KeyError). */
  function CallFor(t: string, r: Record): (c: Option<Call>)
    ensures c.Some? <==> "name" in r && "value" in r && "ttl" in r
    ensures c.Some? ==> (c.value.Update? <==> "id" in r)
    ensures c.Some? ==> c.value.recordType == t && c.value.name == r["name"] && c.value.address == r["value"] && c.value.ttl == r["ttl"]
    ensures c.Some? && c.value.Update? ==> c.value.hostId == r["id"]
  {
    if !("name" in r && "value" in r && "ttl" in r) then None
    else if "id" in r then Some(Update(r["id"], t, r["name"], r["value"], r["ttl"]))
    else Some(Add(t, r["name"], r["value"], r["ttl"]))
  }

  /** The (type, record) pairs in the order a push visits them: type order, then list order. */
  function Items(records: Records): seq<(string, Record)> {
    if records == [] then []
    else EntryItems(records[0]) + Items(records[1..])
  }

  /** The pairs of one entry. */
  function EntryItems(e: (string, seq<Record>)): (items: seq<(string, Record)>)
    ensures |items| == |e.1| && forall j :: 0 <= j < |e.1| ==> items[j] == (e.0, e.1[j])
  {
    seq(|e.1|, j requires 0 <= j < |e.1| => (e.0, e.1[j]))
  }

  lemma {:induction false} ItemsAppend(a: Records, b: Records)
    ensures Items(a + b) == Items(a) + Items(b)
  {
    if a != [] {
      assert (a + b)[1..] == a[1..] + b;
      ItemsAppend(a[1..], b);
    } else {
      assert a + b == b;
    }
  }

  lemma ItemsSingle(e: (string, seq<Record>))
    ensures Items([e]) == EntryItems(e)
  {
    assert [e][1..] == [];
    assert Items([e]) == EntryItems(e) + Items([]);
  }

  /** Walking the first `i + 1` entries is walking the first `i`, then the pairs of entry `i`. */
  lemma ItemsPrefix(records: Records, i: int)
    requires 0 <= i < |records|
    ensures Items(records[..i + 1]) == Items(records[..i]) + EntryItems(records[i])
  {
    assert records[..i + 1] == records[..i] + [records[i]];
    ItemsAppend(records[..i], [records[i]]);
    ItemsSingle(records[i]);
  }

  /** The pairs walked so far are a prefix of all the pairs. */
  lemma ItemsPrefixOf(records: Records, i: int)
    requires 0 <= i <= |records|
    ensures Items(records[..i]) <= Items(records)
  {
    assert records == records[..i] + records[i..];
    ItemsAppend(records[..i], records[i..]);
  }

  /** The calls issued before the first record that aborts the walk, and whether the walk finished. */
  function Plan(items: seq<(string, Record)>): (p: (seq<Call>, bool))
    ensures |p.0| <= |items|
    ensures p.1 ==> |p.0| == |items|
    ensures forall k :: 0 <= k < |p.0| ==> CallFor(items[k].0, items[k].1) == Some(p.0[k])
    ensures !p.1 ==> |p.0| < |items| && CallFor(items[|p.0|].0, items[|p.0|].1).None?
  {
    if items == [] then ([], true)
    else match CallFor(items[0].0, items[0].1)
      case None => ([], false)
      case Some(c) =>
        var rest := Plan(items[1..]);
        ([c] + rest.0, rest.1)
  }

  /** A stored record a push can send: it has a name, a value and a ttl. */
  predicate Sendable(r: Record) {
    "name" in r && "value" in r && "ttl" in r
  }

  /** The push walks every record iff every record has a name, a value and a ttl. */
  lemma {:induction false} PlanCompleteIff(items: seq<(string, Record)>)
    ensures Plan(items).1 <==> forall k :: 0 <= k < |items| ==> Sendable(items[k].1)
  {
    if items != [] && Sendable(items[0].1) {
      PlanCompleteIff(items[1..]);
      assert forall k :: 1 <= k < |items| ==> items[k] == items[1..][k - 1];
    }
  }

  /** Every visited pair is a record stored under that type in one of the document's entries. */
  lemma {:induction false} ItemsFromEntries(records: Records, k: int)
    requires 0 <= k < |Items(records)|
    ensures exists i, j :: 0 <= i < |records| && 0 <= j < |records[i].1| && Items(records)[k] == (records[i].0, records[i].1[j])
  {
    var n := |records[0].1|;
    if k < n {
      assert Items(records)[k] == (records[0].0, records[0].1[k]);
    } else {
      ItemsFromEntries(records[1..], k - n);
      var i, j :| 0 <= i < |records[1..]| && 0 <= j < |records[1..][i].1| && Items(records[1..])[k - n] == (records[1..][i].0, records[1..][i].1[j]);
      assert Items(records)[k] == Items(records[1..])[k - n];
      assert records[1..][i] == records[i + 1];
    }
  }

  /** Every record of every entry has exactly the keys a pull writes. */
  predicate AllSynced(records: Records) {
    forall i, j :: 0 <= i < |records| && 0 <= j < |records[i].1| ==> records[i].1[j].Keys == SyncedKeys
  }

  lemma PulledAllSynced(hosts: seq<Host>, now: string)
    requires Pulled(hosts, now).Some?
    ensures AllSynced(Pulled(hosts, now).value)
  {
    var rs := Pulled(hosts, now).value;
    PulledContents(hosts, now);
    forall i, j | 0 <= i < |rs| && 0 <= j < |rs[i].1| ensures rs[i].1[j].Keys == SyncedKeys {
      assert Keys(rs)[i] == rs[i].0;
      FindDistinct(rs, i);
      PulledRecordsComplete(hosts, now, rs[i].0, rs[i].1[j]);
    }
  }

  /**
   * After a sync, a push walks every record and only updates: each synced record carries
   * its provider host id, so no record is added a second time.
   */
  lemma SyncThenPushOnlyUpdates(hosts: seq<Host>, now: string)
    requires Pulled(hosts, now).Some?
    ensures var items := Items(Pulled(hosts, now).value);
      && Plan(items).1 && |Plan(items).0| == |items|
      && forall k :: 0 <= k < |items| ==> items[k].1.Keys == SyncedKeys && Plan(items).0[k] == Update(items[k].1["id"], items[k].0, items[k].1["name"], items[k].1["value"], items[k].1["ttl"])
  {
    var rs := Pulled(hosts, now).value;
    var items := Items(rs);
    PulledAllSynced(hosts, now);
    forall k | 0 <= k < |items| ensures items[k].1.Keys == SyncedKeys {
      ItemsFromEntries(rs, k);
    }
    PlanCompleteIff(items);
  }

  /** The setHosts request of one push call; the preference is left at its default None. */
  function CallRequest(sldTld: NamecheapApi.Params, cfg: NamecheapApi.Config, c: Call): NamecheapApi.Params {
    match c
    case Update(id, t, n, a, ttl) =>
      NamecheapApi.WithAuth(NamecheapApi.HostParams(sldTld, Some(id), t, n, a, Null, ttl), cfg, NamecheapApi.SetHostsCommand)
    case Add(t, n, a, ttl) =>
      NamecheapApi.WithAuth(NamecheapApi.HostParams(sldTld, None, t, n, a, Null, ttl), cfg, NamecheapApi.SetHostsCommand)
  }

  /** The requests a push of `records` sends: none for a dotless name (the first call raises before sending). */
  function PushSent(domain: string, cfg: NamecheapApi.Config, records: Records): seq<NamecheapApi.Params> {
    var calls := Plan(Items(records)).0;
    match NamecheapApi.SldTld(domain)
    case None => []
    case Some(p) => seq(|calls|, k requires 0 <= k < |calls| => CallRequest(p, cfg, calls[k]))
  }

  /** What a push of a loaded document returns; it does not depend on any provider reply. */
  function PushReturns(domain: string, records: Records): bool {
    var items := Items(records);
    if NamecheapApi.SldTld(domain).None? then items == [] else Plan(items).1
  }

  /** A push never sends a preference, not even for MX records. */
  lemma PushSendsNoPreference(domain: string, cfg: NamecheapApi.Config, records: Records)
    ensures forall q :: q in PushSent(domain, cfg, records) ==> "MXPref" !in q
  {
    var calls := Plan(Items(records)).0;
    if NamecheapApi.SldTld(domain).Some? {
      var p := NamecheapApi.SldTld(domain).value;
      forall k | 0 <= k < |calls| ensures "MXPref" !in CallRequest(p, cfg, calls[k]) {
        CallHasNoPreference(p, cfg, calls[k]);
      }
    }
  }

  lemma CallHasNoPreference(sldTld: NamecheapApi.Params, cfg: NamecheapApi.Config, c: Call)
    requires sldTld.Keys == {"SLD", "TLD"}
    ensures "MXPref" !in CallRequest(sldTld, cfg, c)
  {
    assert "MXPref" !in NamecheapApi.AuthKeys;
    match c
    case Update(id, t, n, a, ttl) => NamecheapApi.HostParamsShape(sldTld, Some(id), t, n, a, Null, ttl);
    case Add(t, n, a, ttl) => NamecheapApi.HostParamsShape(sldTld, None, t, n, a, Null, ttl);
  }

  /** With a dotted name, a push returns True iff every record has a name, a value and a ttl. */
  lemma PushReturnsIff(domain: string, records: Records)
    requires NamecheapApi.SldTld(domain).Some?
    ensures PushReturns(domain, records) <==> forall k :: 0 <= k < |Items(records)| ==> Sendable(Items(records)[k].1)
  {
    PushReturnsPlan(domain, records);
    PlanCompleteIff(Items(records));
  }

  lemma PushReturnsPlan(domain: string, records: Records)
    requires NamecheapApi.SldTld(domain).Some?
    ensures PushReturns(domain, records) == Plan(Items(records)).1
  {
  }

  /** Where the walk stops: at the first record that cannot be sent. */
  lemma PlanStopsAt(items: seq<(string, Record)>, n: int)
    requires 0 <= n < |items| && !Sendable(items[n].1)
    requires forall k :: 0 <= k < n ==> Sendable(items[k].1)
    ensures |Plan(items).0| == n && !Plan(items).1
  {
    PlanCompleteIff(items);
  }

  /** A walk that reaches the end has sent a call for every record. */
  lemma PlanAllSent(items: seq<(string, Record)>)
    requires forall k :: 0 <= k < |items| ==> Sendable(items[k].1)
    ensures Plan(items).1 && |Plan(items).0| == |items|
  {
    PlanCompleteIff(items);
  }

  /** `sent` holds the requests for the first `|sent|` pairs, all of which could be sent. */
  predicate SentSoFar(domain: string, cfg: NamecheapApi.Config, items: seq<(string, Record)>, sent: seq<NamecheapApi.Params>) {
    && |sent| <= |items|
    && (|sent| > 0 ==> NamecheapApi.SldTld(domain).Some?)
    && (forall k :: 0 <= k < |sent| ==> Sendable(items[k].1))
    && forall k :: 0 <= k < |sent| ==>
         sent[k] == CallRequest(NamecheapApi.SldTld(domain).value, cfg, CallFor(items[k].0, items[k].1).value)
  }

  lemma SentStep(domain: string, cfg: NamecheapApi.Config, items: seq<(string, Record)>, sent: seq<NamecheapApi.Params>)
    requires SentSoFar(domain, cfg, items, sent) && |sent| < |items| && Sendable(items[|sent|].1)
    requires NamecheapApi.SldTld(domain).Some?
    ensures SentSoFar(domain, cfg, items,
      sent + [CallRequest(NamecheapApi.SldTld(domain).value, cfg, CallFor(items[|sent|].0, items[|sent|].1).value)])
  {
  }

  /** A walk stopped at an unsendable pair has sent exactly what the push promises, and returns False. */
  lemma SentAbort(domain: string, cfg: NamecheapApi.Config, records: Records, sent: seq<NamecheapApi.Params>)
    requires SentSoFar(domain, cfg, Items(records), sent) && |sent| < |Items(records)|
    requires !Sendable(Items(records)[|sent|].1) || NamecheapApi.SldTld(domain).None?
    ensures sent == PushSent(domain, cfg, records) && !PushReturns(domain, records)
  {
    var items := Items(records);
    if NamecheapApi.SldTld(domain).Some? {
      PlanStopsAt(items, |sent|);
      PushReturnsPlan(domain, records);
    }
  }

  /** A walk that reached the end has sent exactly what the push promises, and returns True. */
  lemma SentAll(domain: string, cfg: NamecheapApi.Config, records: Records, sent: seq<NamecheapApi.Params>)
    requires SentSoFar(domain, cfg, Items(records), sent) && |sent| == |Items(records)|
    ensures sent == PushSent(domain, cfg, records) && PushReturns(domain, records)
  {
    var items := Items(records);
    PlanAllSent(items);
    if NamecheapApi.SldTld(domain).Some? {
      PushReturnsPlan(domain, records);
    }
  }
}
