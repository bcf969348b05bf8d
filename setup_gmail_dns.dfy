/**
 * `setup_gmail_dns`: replaces a domain's hosts with Google Workspace mail records (five MX
 * hosts, an SPF and a DMARC TXT host) in one bulk setHosts call, after fetching the current
 * hosts and before fetching them again.
 */
module GmailDns {
  import opened Wrappers
  import opened Json
  import opened Strings
  import opened Dicts
  import opened NumberedHosts
  import DomainNames
  import NamecheapApi

  type Params = NamecheapApi.Params
  type Reply = NamecheapApi.Reply

  /** `split_domain`: the first two labels; None stands for the ValueError of a dotless name. */
  function SplitDomain(domain: string): (r: Option<(string, string)>)
    ensures r.Some? <==> '.' in domain
    ensures r.Some? ==> '.' !in r.value.0 && '.' !in r.value.1 && r.value.0 + "." + r.value.1 <= domain
    ensures r.Some? ==> var n := |r.value.0| + 1 + |r.value.1|; n == |domain| || domain[n] == '.'
  {
    DomainNames.FirstTwoLabelsSpec(domain);
    DomainNames.FirstTwoLabels(domain)
  }

  function MxFields(address: string, pref: string): HostFields {
    [("RecordType", "MX"), ("HostName", "@"), ("Address", address), ("MXPref", pref), ("TTL", "3600")]
  }

  function TxtFields(host: string, text: string): HostFields {
    [("RecordType", "TXT"), ("HostName", host), ("Address", text), ("TTL", "3600")]
  }

  /** The seven hosts, in the order they are numbered. */
  const GmailRecords: seq<HostFields> := [
    MxFields("aspmx.l.google.com", "1"),
    MxFields("alt1.aspmx.l.google.com", "5"),
    MxFields("alt2.aspmx.l.google.com", "5"),
    MxFields("alt3.aspmx.l.google.com", "10"),
    MxFields("alt4.aspmx.l.google.com", "10"),
    TxtFields("@", "v=spf1 " + "include:_spf.google.com ~all"),
    TxtFields("_dmarc", "v=DMARC1; " + "p=none; rua=mailto:admin@fullstacks.us")
  ]

  /** The setHosts parameters before authentication: SLD, TLD and the numbered hosts. */
  function GmailParams(sld: string, tld: string): map<string, Value> {
    Base(sld, tld) + NumberedParams(GmailRecords)
  }

  lemma MxFieldsWellKeyed(address: string, pref: string)
    ensures FieldsWellKeyed(MxFields(address, pref))
  {
    var ks := Keys(MxFields(address, pref));
    assert ks[0][0] == 'R' && ks[1][0] == 'H' && ks[2][0] == 'A' && ks[3][0] == 'M' && ks[4][0] == 'T';
  }

  lemma TxtFieldsWellKeyed(host: string, text: string)
    ensures FieldsWellKeyed(TxtFields(host, text))
  {
    var ks := Keys(TxtFields(host, text));
    assert ks[0][0] == 'R' && ks[1][0] == 'H' && ks[2][0] == 'A' && ks[3][0] == 'T';
  }

  lemma GmailRecordsWellKeyed()
    ensures WellKeyed(GmailRecords)
  {
    forall i | 0 <= i < |GmailRecords| ensures FieldsWellKeyed(GmailRecords[i]) {
      if i == 0 { MxFieldsWellKeyed("aspmx.l.google.com", "1"); }
      else if i == 1 { MxFieldsWellKeyed("alt1.aspmx.l.google.com", "5"); }
      else if i == 2 { MxFieldsWellKeyed("alt2.aspmx.l.google.com", "5"); }
      else if i == 3 { MxFieldsWellKeyed("alt3.aspmx.l.google.com", "10"); }
      else if i == 4 { MxFieldsWellKeyed("alt4.aspmx.l.google.com", "10"); }
      else if i == 5 { TxtFieldsWellKeyed("@", "v=spf1 " + "include:_spf.google.com ~all"); }
      else { TxtFieldsWellKeyed("_dmarc", "v=DMARC1; " + "p=none; rua=mailto:admin@fullstacks.us"); }
    }
  }

  /** Every field of host `i` is sent as `<field><i + 1>` with its value from the list. */
  lemma GmailFieldSent(sld: string, tld: string, i: nat, j: nat)
    requires i < |GmailRecords| && j < |GmailRecords[i]|
    ensures GmailRecords[i][j].0 + NatToString(i + 1) in GmailParams(sld, tld)
    ensures GmailParams(sld, tld)[GmailRecords[i][j].0 + NatToString(i + 1)] == Str(GmailRecords[i][j].1)
  {
    GmailRecordsWellKeyed();
    NumberedLookup(GmailRecords, i, j);
  }

  lemma GmailFieldCount()
    ensures FieldCount(GmailRecords) == 33
  {
    var r := GmailRecords;
    assert |r[0]| == 5 && |r[1]| == 5 && |r[2]| == 5 && |r[3]| == 5 && |r[4]| == 5 && |r[5]| == 4 && |r[6]| == 4;
    assert r[..7][..6] == r[..6] && r[..6][..5] == r[..5] && r[..5][..4] == r[..4];
    assert r[..4][..3] == r[..3] && r[..3][..2] == r[..2] && r[..2][..1] == r[..1] && r[..1][..0] == [];
    assert FieldCount(r[..1]) == 5;
    assert FieldCount(r[..2]) == 10;
    assert FieldCount(r[..3]) == 15;
    assert FieldCount(r[..4]) == 20;
    assert FieldCount(r[..5]) == 25;
    assert FieldCount(r[..6]) == 29;
    assert r[..7] == r;
  }

  /**
   * No two fields share a parameter name and SLD/TLD are kept: 2 + 5 * 5 + 2 * 4 = 35
   * parameters.
   */
  lemma {:induction false} GmailParamCount(sld: string, tld: string)
    ensures |GmailParams(sld, tld).Keys| == 35
  {
    GmailRecordsWellKeyed();
    NumberedCount(GmailRecords);
    GmailFieldCount();
    BaseDisjoint(sld, tld, GmailRecords);
    assert GmailParams(sld, tld).Keys == Base(sld, tld).Keys + NumberedParams(GmailRecords).Keys;
  }

  /** The MX preferences in host order. */
  const MxPreferences: seq<string> := ["1", "5", "5", "10", "10"]

  /** Host `i + 1` of the first five is an MX host whose fourth field is its preference. */
  lemma MxPreferenceField(i: nat)
    requires i < 5
    ensures |GmailRecords[i]| == 5 && GmailRecords[i][3] == ("MXPref", MxPreferences[i])
  {
    if i == 0 {} else if i == 1 {} else if i == 2 {} else if i == 3 {} else {}
  }

  /** The two TXT hosts have no preference field. */
  lemma TxtHostsHaveNoPreference(i: nat, j: nat)
    requires 5 <= i < |GmailRecords| && j < |GmailRecords[i]|
    ensures GmailRecords[i][j].0 != "MXPref"
  {
    assert "RecordType"[0] == 'R' && "HostName"[0] == 'H' && "Address"[0] == 'A' && "TTL"[0] == 'T';
    if i == 5 {
      assert GmailRecords[i] == TxtFields("@", "v=spf1 " + "include:_spf.google.com ~all");
    } else {
      assert GmailRecords[i] == TxtFields("_dmarc", "v=DMARC1; " + "p=none; rua=mailto:admin@fullstacks.us");
    }
  }

  /** Exactly hosts 1 to 5, the MX hosts, carry a preference, and it is 1, 5, 5, 10, 10. */
  lemma GmailPreferences(sld: string, tld: string)
    ensures forall n: nat :: 1 <= n <= 5 ==>
      "MXPref" + NatToString(n) in GmailParams(sld, tld)
      && GmailParams(sld, tld)["MXPref" + NatToString(n)] == Str(MxPreferences[n - 1])
    ensures forall n: nat :: n > 5 ==> "MXPref" + NatToString(n) !in GmailParams(sld, tld)
  {
    forall n: nat | 1 <= n <= 5
      ensures "MXPref" + NatToString(n) in GmailParams(sld, tld)
      ensures GmailParams(sld, tld)["MXPref" + NatToString(n)] == Str(MxPreferences[n - 1])
    {
      MxPreferenceField(n - 1);
      GmailFieldSent(sld, tld, n - 1, 3);
    }
    forall n: nat | n > 5 ensures "MXPref" + NatToString(n) !in GmailParams(sld, tld) {
      NoPreferenceBeyondMx(sld, tld, n);
    }
  }

  lemma NoPreferenceBeyondMx(sld: string, tld: string, n: nat)
    requires n > 5
    ensures "MXPref" + NatToString(n) !in GmailParams(sld, tld)
  {
    var k := "MXPref" + NatToString(n);
    assert k !in Base(sld, tld) by {
      assert k[0] == 'M' && "SLD"[0] == 'S' && "TLD"[0] == 'T';
    }
    GmailRecordsWellKeyed();
    assert NoDigits("MXPref") by {
      assert "MXPref" == ['M', 'X', 'P', 'r', 'e', 'f'];
    }
    forall i, j | 0 <= i < |GmailRecords| && 0 <= j < |GmailRecords[i]| && GmailRecords[i][j].0 == "MXPref"
      ensures i + 1 != n
    {
      if i >= 5 {
        TxtHostsHaveNoPreference(i, j);
      }
    }
    AbsentField(GmailRecords, "MXPref", n);
  }

  /** How a run ends; every path but the invalid name returns None after logging. */
  datatype GmailRun =
    | InvalidDomain                                  // split_domain raised ValueError
    | FetchFailed(fetchError: NamecheapApi.Failure)  // the first get_dns_records failed
    | SetFailed(setError: NamecheapApi.Failure)      // the setHosts call failed
    | CheckFailed(checkError: NamecheapApi.Failure)  // the second get_dns_records failed
    | Done(before: seq<NamecheapApi.Host>, after: seq<NamecheapApi.Host>)

  /** A `get_dns_records` outcome as the hosts it returns. */
  function HostsOutcome(reply: Reply): Result<seq<NamecheapApi.Host>, NamecheapApi.Failure> {
    match NamecheapApi.Outcome(reply)
    case Failure(f) => Failure(f)
    case Success(resp) => Success(NamecheapApi.HostsOrEmpty(resp))
  }

  /**
   * The run after the split, for any host list: fetch, bulk setHosts, fetch again. The
   * provider answers each request given every request sent so far (the last one is the
   * request answered), so the second fetch can see what setHosts changed.
   */
  method ReplaceHosts(cfg: NamecheapApi.Config, domain: string, sld: string, tld: string,
                      records: seq<HostFields>, provider: seq<Params> -> Reply)
    returns (run: GmailRun, sent: seq<Params>)
    requires SplitDomain(domain) == Some((sld, tld))
    ensures
      var fetch := NamecheapApi.WithAuth(Base(sld, tld), cfg, NamecheapApi.GetHostsCommand);
      var store := NamecheapApi.WithAuth(Base(sld, tld) + NumberedParams(records), cfg, NamecheapApi.SetHostsCommand);
      var first := HostsOutcome(provider([fetch]));
      var stored := NamecheapApi.Outcome(provider([fetch, store]));
      var second := HostsOutcome(provider([fetch, store, fetch]));
      && (first.Failure? ==> sent == [fetch] && run == FetchFailed(first.error))
      && (first.Success? && stored.Failure? ==> sent == [fetch, store] && run == SetFailed(stored.error))
      && (first.Success? && stored.Success? ==>
            && sent == [fetch, store, fetch]
            && run == match second
                      case Failure(f) => CheckFailed(f)
                      case Success(after) => Done(first.value, after))
  {
    assert NamecheapApi.SldTld(domain) == Some(Base(sld, tld));
    var fetch, current := NamecheapApi.GetDnsRecords(cfg, domain, p => provider([p]));
    sent := [fetch.value];
    if current.Failure? {
      return FetchFailed(current.error), sent;
    }
    var params := Flatten(sld, tld, records);
    var store, stored := NamecheapApi.MakeRequest(cfg, NamecheapApi.SetHostsCommand, params, p => provider([fetch.value, p]));
    sent := [fetch.value, store];
    if stored.Failure? {
      return SetFailed(stored.error), sent;
    }
    var again, updated := NamecheapApi.GetDnsRecords(cfg, domain, p => provider([fetch.value, store, p]));
    sent := [fetch.value, store, again.value];
    if updated.Failure? {
      return CheckFailed(updated.error), sent;
    }
    run := Done(current.value, updated.value);
  }

  /**
   * `setup_gmail_dns`: a dotless name raises before anything is sent; otherwise the run
   * fetches the current hosts, sends the bulk setHosts request only when that fetch
   * succeeded, and fetches again only when setHosts succeeded.
   */
  method SetupGmailDns(cfg: NamecheapApi.Config, domain: string, provider: seq<Params> -> Reply)
    returns (run: GmailRun, sent: seq<Params>)
    ensures SplitDomain(domain).None? <==> run == InvalidDomain
    ensures SplitDomain(domain).None? ==> sent == []
    ensures SplitDomain(domain).Some? ==>
      var (sld, tld) := SplitDomain(domain).value;
      var fetch := NamecheapApi.WithAuth(Base(sld, tld), cfg, NamecheapApi.GetHostsCommand);
      var store := NamecheapApi.WithAuth(GmailParams(sld, tld), cfg, NamecheapApi.SetHostsCommand);
      var first := HostsOutcome(provider([fetch]));
      var stored := NamecheapApi.Outcome(provider([fetch, store]));
      var second := HostsOutcome(provider([fetch, store, fetch]));
      && (first.Failure? ==> sent == [fetch] && run == FetchFailed(first.error))
      && (first.Success? && stored.Failure? ==> sent == [fetch, store] && run == SetFailed(stored.error))
      && (first.Success? && stored.Success? ==>
            && sent == [fetch, store, fetch]
            && run == match second
                      case Failure(f) => CheckFailed(f)
                      case Success(after) => Done(first.value, after))
  {
    var split := SplitDomain(domain);
    if split.None? {
      return InvalidDomain, [];
    }
    var (sld, tld) := split.value;
    run, sent := ReplaceHosts(cfg, domain, sld, tld, GmailRecords, provider);
  }
}
