/**
 * `setup_domains.py`: points a domain at GitHub Pages. The run splits the name, switches the
 * domain to the provider's default name servers, fetches its hosts, builds (and then never
 * uses) a list of Pages and mail-forwarding hosts, and sends a fixed bulk setHosts request
 * with the four Pages A hosts and the `www` CNAME. `ensure_domain_structure` lays out a
 * domain's records directory.
 */
module SetupDomains {
  import opened Wrappers
  import opened Json
  import opened Strings
  import opened Dicts
  import opened NumberedHosts
  import DomainNames
  import NamecheapApi
  import RecordStore
  import DomainManagement

  type Params = NamecheapApi.Params
  type Reply = NamecheapApi.Reply

  /** The addresses GitHub Pages serves from. */
  const GitHubPagesIps: seq<string> := ["185.199.108.153", "185.199.109.153", "185.199.110.153", "185.199.111.153"]

  /** A mail-forwarding host of the e-mail configuration. */
  datatype MailHost = MailHost(name: string, address: string, mxPref: nat, ttl: nat)
  datatype TextHost = TextHost(name: string, address: string, ttl: nat)

  const EmailMx: seq<MailHost> := [MailHost("@", "mx1.improvmx.com", 10, 1800), MailHost("@", "mx2.improvmx.com", 20, 1800)]
  const EmailTxt: seq<TextHost> := [TextHost("@", "v=spf1 " + "include:spf.improvmx.com ~all", 1800)]

  const SetDefaultCommand: string := "namecheap.domains.dns.setDefault"

  function PagesHost(ip: string): HostFields {
    [("HostName", "@"), ("RecordType", "A"), ("Address", ip), ("TTL", "1800")]
  }

  const PagesCname: HostFields :=
    [("HostName", "www"), ("RecordType", "CNAME"), ("Address", "fullstackslife.github.io"), ("TTL", "1800")]

  function MailHostFields(h: MailHost): HostFields {
    [("HostName", h.name), ("RecordType", "MX"), ("Address", h.address), ("MXPref", NatToString(h.mxPref)),
     ("TTL", NatToString(h.ttl))]
  }

  function TextHostFields(h: TextHost): HostFields {
    [("HostName", h.name), ("RecordType", "TXT"), ("Address", h.address), ("TTL", NatToString(h.ttl))]
  }

  /**
   * The `new_records` loops: one A host per Pages address, the CNAME, one MX host per
   * forwarding server and one TXT host per text record, in that order.
   */
  method BuildNewRecords() returns (records: seq<HostFields>)
    ensures |records| == |GitHubPagesIps| + 1 + |EmailMx| + |EmailTxt|
    ensures forall i :: 0 <= i < |GitHubPagesIps| ==> records[i] == PagesHost(GitHubPagesIps[i])
    ensures records[|GitHubPagesIps|] == PagesCname
    ensures forall i :: 0 <= i < |EmailMx| ==> records[|GitHubPagesIps| + 1 + i] == MailHostFields(EmailMx[i])
    ensures forall i :: 0 <= i < |EmailTxt| ==>
      records[|GitHubPagesIps| + 1 + |EmailMx| + i] == TextHostFields(EmailTxt[i])
  {
    records := [];
    for i := 0 to |GitHubPagesIps|
      invariant |records| == i
      invariant forall k :: 0 <= k < i ==> records[k] == PagesHost(GitHubPagesIps[k])
    {
      records := records + [PagesHost(GitHubPagesIps[i])];
    }
    records := records + [PagesCname];
    var start := |records|;
    for i := 0 to |EmailMx|
      invariant |records| == start + i
      invariant forall k :: 0 <= k < |GitHubPagesIps| ==> records[k] == PagesHost(GitHubPagesIps[k])
      invariant records[|GitHubPagesIps|] == PagesCname
      invariant forall k :: 0 <= k < i ==> records[start + k] == MailHostFields(EmailMx[k])
    {
      records := records + [MailHostFields(EmailMx[i])];
    }
    start := |records|;
    for i := 0 to |EmailTxt|
      invariant |records| == start + i
      invariant forall k :: 0 <= k < |GitHubPagesIps| ==> records[k] == PagesHost(GitHubPagesIps[k])
      invariant records[|GitHubPagesIps|] == PagesCname
      invariant forall k :: 0 <= k < |EmailMx| ==> records[|GitHubPagesIps| + 1 + k] == MailHostFields(EmailMx[k])
      invariant forall k :: 0 <= k < i ==> records[start + k] == TextHostFields(EmailTxt[k])
    {
      records := records + [TextHostFields(EmailTxt[i])];
    }
  }

  /** The forwarding hosts carry their preferences 10 and 20 as text. */
  lemma MailPreferences()
    ensures MailHostFields(EmailMx[0])[3] == ("MXPref", "10")
    ensures MailHostFields(EmailMx[1])[3] == ("MXPref", "20")
    ensures forall i :: 0 <= i < |EmailMx| ==> MailHostFields(EmailMx[i])[4] == ("TTL", "1800")
  {
    assert DigitChar(0) == '0' && DigitChar(1) == '1' && DigitChar(2) == '2' && DigitChar(8) == '8';
    assert NatToString(10) == NatToString(1) + [DigitChar(0)] == "10";
    assert NatToString(20) == NatToString(2) + [DigitChar(0)] == "20";
    assert NatToString(18) == NatToString(1) + [DigitChar(8)] == "18";
    assert NatToString(180) == NatToString(18) + [DigitChar(0)] == "180";
    assert NatToString(1800) == NatToString(180) + [DigitChar(0)] == "1800";
  }

  /** The hosts the setHosts request actually carries: the first five of `new_records`. */
  const PagesHosts: seq<HostFields> := [
    PagesHost(GitHubPagesIps[0]), PagesHost(GitHubPagesIps[1]), PagesHost(GitHubPagesIps[2]),
    PagesHost(GitHubPagesIps[3]), PagesCname
  ]

  /** The fixed setHosts parameters, written out as one literal. */
  function PagesParams(sld: string, tld: string): map<string, Value> {
    map[
      "SLD" := Str(sld), "TLD" := Str(tld),
      "HostName1" := Str("@"), "RecordType1" := Str("A"), "Address1" := Str("185.199.108.153"), "TTL1" := Str("1800"),
      "HostName2" := Str("@"), "RecordType2" := Str("A"), "Address2" := Str("185.199.109.153"), "TTL2" := Str("1800"),
      "HostName3" := Str("@"), "RecordType3" := Str("A"), "Address3" := Str("185.199.110.153"), "TTL3" := Str("1800"),
      "HostName4" := Str("@"), "RecordType4" := Str("A"), "Address4" := Str("185.199.111.153"), "TTL4" := Str("1800"),
      "HostName5" := Str("www"), "RecordType5" := Str("CNAME"), "Address5" := Str("fullstackslife.github.io"),
      "TTL5" := Str("1800")
    ]
  }

  /** The built list starts with exactly the hosts the request carries. */
  lemma NewRecordsStartWithPagesHosts(records: seq<HostFields>)
    requires |records| == |GitHubPagesIps| + 1 + |EmailMx| + |EmailTxt|
    requires forall i :: 0 <= i < |GitHubPagesIps| ==> records[i] == PagesHost(GitHubPagesIps[i])
    requires records[|GitHubPagesIps|] == PagesCname
    ensures records[..5] == PagesHosts
  {
  }

  lemma SmallNumbers()
    ensures NatToString(1) == "1" && NatToString(2) == "2" && NatToString(3) == "3"
    ensures NatToString(4) == "4" && NatToString(5) == "5"
  {
    assert DigitChar(1) == '1' && DigitChar(2) == '2' && DigitChar(3) == '3';
    assert DigitChar(4) == '4' && DigitChar(5) == '5';
  }

  lemma PagesHostsShape()
    ensures |PagesHosts| == 5 && forall i :: 0 <= i < 5 ==> |PagesHosts[i]| == 4
  {
  }

  /** Field `j` of Pages host `i` is in the literal under `<field><i + 1>` with its value. */
  lemma PagesFieldSent(sld: string, tld: string, i: nat, j: nat)
    requires i < 5 && j < 4
    ensures PagesHosts[i][j].0 + NatToString(i + 1) in PagesParams(sld, tld)
    ensures PagesParams(sld, tld)[PagesHosts[i][j].0 + NatToString(i + 1)] == Str(PagesHosts[i][j].1)
  {
    SmallNumbers();
    if i == 0 { PagesHost1Sent(sld, tld, j); }
    else if i == 1 { PagesHost2Sent(sld, tld, j); }
    else if i == 2 { PagesHost3Sent(sld, tld, j); }
    else if i == 3 { PagesHost4Sent(sld, tld, j); }
    else { PagesHost5Sent(sld, tld, j); }
  }

  /**
   * One helper per host: its four fields are in the literal under their numbered names.
   * The hosts are split so that each proof looks up one host's keys in the 22-entry literal;
   * one quantified lemma over all five hosts runs close to the solver's resource limit.
   */
  lemma PagesHost1Sent(sld: string, tld: string, j: nat)
    requires j < 4
    ensures PagesHosts[0][j].0 + "1" in PagesParams(sld, tld)
    ensures PagesParams(sld, tld)[PagesHosts[0][j].0 + "1"] == Str(PagesHosts[0][j].1)
  {
    if j == 0 { assert "HostName" + "1" == "HostName1"; }
    else if j == 1 { assert "RecordType" + "1" == "RecordType1"; }
    else if j == 2 { assert "Address" + "1" == "Address1"; }
    else { assert "TTL" + "1" == "TTL1"; }
  }

  lemma PagesHost2Sent(sld: string, tld: string, j: nat)
    requires j < 4
    ensures PagesHosts[1][j].0 + "2" in PagesParams(sld, tld)
    ensures PagesParams(sld, tld)[PagesHosts[1][j].0 + "2"] == Str(PagesHosts[1][j].1)
  {
    if j == 0 { assert "HostName" + "2" == "HostName2"; }
    else if j == 1 { assert "RecordType" + "2" == "RecordType2"; }
    else if j == 2 { assert "Address" + "2" == "Address2"; }
    else { assert "TTL" + "2" == "TTL2"; }
  }

  lemma PagesHost3Sent(sld: string, tld: string, j: nat)
    requires j < 4
    ensures PagesHosts[2][j].0 + "3" in PagesParams(sld, tld)
    ensures PagesParams(sld, tld)[PagesHosts[2][j].0 + "3"] == Str(PagesHosts[2][j].1)
  {
    if j == 0 { assert "HostName" + "3" == "HostName3"; }
    else if j == 1 { assert "RecordType" + "3" == "RecordType3"; }
    else if j == 2 { assert "Address" + "3" == "Address3"; }
    else { assert "TTL" + "3" == "TTL3"; }
  }

  lemma PagesHost4Sent(sld: string, tld: string, j: nat)
    requires j < 4
    ensures PagesHosts[3][j].0 + "4" in PagesParams(sld, tld)
    ensures PagesParams(sld, tld)[PagesHosts[3][j].0 + "4"] == Str(PagesHosts[3][j].1)
  {
    if j == 0 { assert "HostName" + "4" == "HostName4"; }
    else if j == 1 { assert "RecordType" + "4" == "RecordType4"; }
    else if j == 2 { assert "Address" + "4" == "Address4"; }
    else { assert "TTL" + "4" == "TTL4"; }
  }

  lemma PagesHost5Sent(sld: string, tld: string, j: nat)
    requires j < 4
    ensures PagesHosts[4][j].0 + "5" in PagesParams(sld, tld)
    ensures PagesParams(sld, tld)[PagesHosts[4][j].0 + "5"] == Str(PagesHosts[4][j].1)
  {
    if j == 0 { assert "HostName" + "5" == "HostName5"; }
    else if j == 1 { assert "RecordType" + "5" == "RecordType5"; }
    else if j == 2 { assert "Address" + "5" == "Address5"; }
    else { assert "TTL" + "5" == "TTL5"; }
  }

  /** Every parameter of the literal other than SLD and TLD is a numbered Pages host field. */
  lemma PagesKeysNumbered(sld: string, tld: string, k: string)
    requires k in PagesParams(sld, tld) && k != "SLD" && k != "TLD"
    ensures exists i, j :: 0 <= i < 5 && 0 <= j < 4 && k == PagesHosts[i][j].0 + NatToString(i + 1)
  {
    PagesHostsShape();
    PagesHost1Keys();
    PagesHost2Keys();
    PagesHost3Keys();
    PagesHost4Keys();
    PagesHost5Keys();
    if k == "HostName1" {
      assert k == PagesHosts[0][0].0 + NatToString(0 + 1);
    } else if k == "RecordType1" {
      assert k == PagesHosts[0][1].0 + NatToString(0 + 1);
    } else if k == "Address1" {
      assert k == PagesHosts[0][2].0 + NatToString(0 + 1);
    } else if k == "TTL1" {
      assert k == PagesHosts[0][3].0 + NatToString(0 + 1);
    } else if k == "HostName2" {
      assert k == PagesHosts[1][0].0 + NatToString(1 + 1);
    } else if k == "RecordType2" {
      assert k == PagesHosts[1][1].0 + NatToString(1 + 1);
    } else if k == "Address2" {
      assert k == PagesHosts[1][2].0 + NatToString(1 + 1);
    } else if k == "TTL2" {
      assert k == PagesHosts[1][3].0 + NatToString(1 + 1);
    } else if k == "HostName3" {
      assert k == PagesHosts[2][0].0 + NatToString(2 + 1);
    } else if k == "RecordType3" {
      assert k == PagesHosts[2][1].0 + NatToString(2 + 1);
    } else if k == "Address3" {
      assert k == PagesHosts[2][2].0 + NatToString(2 + 1);
    } else if k == "TTL3" {
      assert k == PagesHosts[2][3].0 + NatToString(2 + 1);
    } else if k == "HostName4" {
      assert k == PagesHosts[3][0].0 + NatToString(3 + 1);
    } else if k == "RecordType4" {
      assert k == PagesHosts[3][1].0 + NatToString(3 + 1);
    } else if k == "Address4" {
      assert k == PagesHosts[3][2].0 + NatToString(3 + 1);
    } else if k == "TTL4" {
      assert k == PagesHosts[3][3].0 + NatToString(3 + 1);
    } else if k == "HostName5" {
      assert k == PagesHosts[4][0].0 + NatToString(4 + 1);
    } else if k == "RecordType5" {
      assert k == PagesHosts[4][1].0 + NatToString(4 + 1);
    } else if k == "Address5" {
      assert k == PagesHosts[4][2].0 + NatToString(4 + 1);
    } else if k == "TTL5" {
      assert k == PagesHosts[4][3].0 + NatToString(4 + 1);
    }
  }

  lemma PagesHost1Keys()
    ensures "HostName1" == PagesHosts[0][0].0 + NatToString(1) && "RecordType1" == PagesHosts[0][1].0 + NatToString(1)
    ensures "Address1" == PagesHosts[0][2].0 + NatToString(1) && "TTL1" == PagesHosts[0][3].0 + NatToString(1)
  {
    SmallNumbers();
    assert "HostName" + "1" == "HostName1" && "RecordType" + "1" == "RecordType1";
    assert "Address" + "1" == "Address1" && "TTL" + "1" == "TTL1";
  }

  lemma PagesHost2Keys()
    ensures "HostName2" == PagesHosts[1][0].0 + NatToString(2) && "RecordType2" == PagesHosts[1][1].0 + NatToString(2)
    ensures "Address2" == PagesHosts[1][2].0 + NatToString(2) && "TTL2" == PagesHosts[1][3].0 + NatToString(2)
  {
    SmallNumbers();
    assert "HostName" + "2" == "HostName2" && "RecordType" + "2" == "RecordType2";
    assert "Address" + "2" == "Address2" && "TTL" + "2" == "TTL2";
  }

  lemma PagesHost3Keys()
    ensures "HostName3" == PagesHosts[2][0].0 + NatToString(3) && "RecordType3" == PagesHosts[2][1].0 + NatToString(3)
    ensures "Address3" == PagesHosts[2][2].0 + NatToString(3) && "TTL3" == PagesHosts[2][3].0 + NatToString(3)
  {
    SmallNumbers();
    assert "HostName" + "3" == "HostName3" && "RecordType" + "3" == "RecordType3";
    assert "Address" + "3" == "Address3" && "TTL" + "3" == "TTL3";
  }

  lemma PagesHost4Keys()
    ensures "HostName4" == PagesHosts[3][0].0 + NatToString(4) && "RecordType4" == PagesHosts[3][1].0 + NatToString(4)
    ensures "Address4" == PagesHosts[3][2].0 + NatToString(4) && "TTL4" == PagesHosts[3][3].0 + NatToString(4)
  {
    SmallNumbers();
    assert "HostName" + "4" == "HostName4" && "RecordType" + "4" == "RecordType4";
    assert "Address" + "4" == "Address4" && "TTL" + "4" == "TTL4";
  }

  lemma PagesHost5Keys()
    ensures "HostName5" == PagesHosts[4][0].0 + NatToString(5) && "RecordType5" == PagesHosts[4][1].0 + NatToString(5)
    ensures "Address5" == PagesHosts[4][2].0 + NatToString(5) && "TTL5" == PagesHosts[4][3].0 + NatToString(5)
  {
    SmallNumbers();
    assert "HostName" + "5" == "HostName5" && "RecordType" + "5" == "RecordType5";
    assert "Address" + "5" == "Address5" && "TTL" + "5" == "TTL5";
  }

  lemma PagesFieldsWellKeyed(host: string, recordType: string, address: string)
    ensures FieldsWellKeyed([("HostName", host), ("RecordType", recordType), ("Address", address), ("TTL", "1800")])
  {
    var ks := Keys([("HostName", host), ("RecordType", recordType), ("Address", address), ("TTL", "1800")]);
    assert ks[0][0] == 'H' && ks[1][0] == 'R' && ks[2][0] == 'A' && ks[3][0] == 'T';
  }

  lemma PagesHostsWellKeyed()
    ensures WellKeyed(PagesHosts)
  {
    PagesFieldsWellKeyed("@", "A", GitHubPagesIps[0]);
    PagesFieldsWellKeyed("@", "A", GitHubPagesIps[1]);
    PagesFieldsWellKeyed("@", "A", GitHubPagesIps[2]);
    PagesFieldsWellKeyed("@", "A", GitHubPagesIps[3]);
    PagesFieldsWellKeyed("www", "CNAME", "fullstackslife.github.io");
  }

  lemma NumberedInLiteral(sld: string, tld: string, k: string)
    requires k in Base(sld, tld) + NumberedParams(PagesHosts)
    ensures k in PagesParams(sld, tld) && PagesParams(sld, tld)[k] == (Base(sld, tld) + NumberedParams(PagesHosts))[k]
  {
    if k in NumberedParams(PagesHosts) {
      NumberedFieldInLiteral(sld, tld, k);
    } else {
      BaseInLiteral(sld, tld);
    }
  }

  lemma BaseInLiteral(sld: string, tld: string)
    ensures "SLD" in PagesParams(sld, tld) && PagesParams(sld, tld)["SLD"] == Str(sld)
    ensures "TLD" in PagesParams(sld, tld) && PagesParams(sld, tld)["TLD"] == Str(tld)
  {
  }

  lemma NumberedFieldInLiteral(sld: string, tld: string, k: string)
    requires k in NumberedParams(PagesHosts)
    ensures k in PagesParams(sld, tld) && PagesParams(sld, tld)[k] == NumberedParams(PagesHosts)[k]
  {
    PagesHostsWellKeyed();
    PagesHostsShape();
    NumberedKeys(PagesHosts, k);
    var i, j :| 0 <= i < 5 && 0 <= j < 4 && k == PagesHosts[i][j].0 + NatToString(i + 1);
    PagesFieldSent(sld, tld, i, j);
    NumberedLookup(PagesHosts, i, j);
  }

  lemma LiteralInNumbered(sld: string, tld: string, k: string)
    requires k in PagesParams(sld, tld)
    ensures k in Base(sld, tld) + NumberedParams(PagesHosts)
  {
    PagesHostsShape();
    if k != "SLD" && k != "TLD" {
      PagesHostsWellKeyed();
      PagesKeysNumbered(sld, tld, k);
      var i, j :| 0 <= i < 5 && 0 <= j < 4 && k == PagesHosts[i][j].0 + NatToString(i + 1);
      NumberedLookup(PagesHosts, i, j);
    }
  }

  /**
   * The literal the source writes out is exactly SLD, TLD and the numbered form of the
   * first five built hosts: the four A hosts and the CNAME, nothing else.
   */
  lemma PagesParamsAreNumbered(sld: string, tld: string)
    ensures PagesParams(sld, tld) == Base(sld, tld) + NumberedParams(PagesHosts)
  {
    var lit := PagesParams(sld, tld);
    var num := Base(sld, tld) + NumberedParams(PagesHosts);
    forall k | k in num ensures k in lit && lit[k] == num[k] {
      NumberedInLiteral(sld, tld, k);
    }
    forall k | k in lit ensures k in num {
      LiteralInNumbered(sld, tld, k);
    }
    assert lit.Keys == num.Keys;
  }

  lemma PagesFieldCount()
    ensures FieldCount(PagesHosts) == 20
  {
    var h := PagesHosts;
    assert |h[0]| == 4 && |h[1]| == 4 && |h[2]| == 4 && |h[3]| == 4 && |h[4]| == 4;
    assert h[..5] == h && h[..5][..4] == h[..4] && h[..4][..3] == h[..3] && h[..3][..2] == h[..2];
    assert h[..2][..1] == h[..1] && h[..1][..0] == [];
    assert FieldCount(h[..1]) == 4;
    assert FieldCount(h[..2]) == 8;
    assert FieldCount(h[..3]) == 12;
    assert FieldCount(h[..4]) == 16;
  }

  /** The request carries 2 + 5 * 4 = 22 parameters. */
  lemma {:induction false} PagesParamCount(sld: string, tld: string)
    ensures |PagesParams(sld, tld).Keys| == 22
  {
    PagesParamsAreNumbered(sld, tld);
    PagesHostsWellKeyed();
    NumberedCount(PagesHosts);
    PagesFieldCount();
    BaseDisjoint(sld, tld, PagesHosts);
    assert PagesParams(sld, tld).Keys == Base(sld, tld).Keys + NumberedParams(PagesHosts).Keys;
  }

  /**
   * Hosts 1 to 4 carry the Pages addresses in listed order, host 5 is the `www` CNAME to the
   * account's Pages host, and every one of the five hosts has TTL 1800.
   */
  lemma PagesHostsSent(sld: string, tld: string)
    ensures forall i :: 0 <= i < 4 ==>
      "Address" + NatToString(i + 1) in PagesParams(sld, tld)
      && PagesParams(sld, tld)["Address" + NatToString(i + 1)] == Str(GitHubPagesIps[i])
    ensures forall n :: 1 <= n <= 5 ==>
      "TTL" + NatToString(n) in PagesParams(sld, tld) && PagesParams(sld, tld)["TTL" + NatToString(n)] == Str("1800")
    ensures "HostName5" in PagesParams(sld, tld) && PagesParams(sld, tld)["HostName5"] == Str("www")
    ensures "RecordType5" in PagesParams(sld, tld) && PagesParams(sld, tld)["RecordType5"] == Str("CNAME")
    ensures "Address5" in PagesParams(sld, tld) && PagesParams(sld, tld)["Address5"] == Str("fullstackslife.github.io")
  {
    PagesHost5Sent(sld, tld, 0);
    PagesHost5Sent(sld, tld, 1);
    PagesHost5Sent(sld, tld, 2);
    forall i | 0 <= i < 4
      ensures "Address" + NatToString(i + 1) in PagesParams(sld, tld)
      ensures PagesParams(sld, tld)["Address" + NatToString(i + 1)] == Str(GitHubPagesIps[i])
    {
      PagesFieldSent(sld, tld, i, 2);
    }
    forall n | 1 <= n <= 5
      ensures "TTL" + NatToString(n) in PagesParams(sld, tld)
      ensures PagesParams(sld, tld)["TTL" + NatToString(n)] == Str("1800")
    {
      PagesFieldSent(sld, tld, n - 1, 3);
    }
  }

  /**
   * The mail hosts of `new_records` never reach the provider: the request has no host
   * beyond the fifth and no MX preference at all.
   */
  lemma MailHostsNotSent(sld: string, tld: string)
    ensures forall n: nat :: "MXPref" + NatToString(n) !in PagesParams(sld, tld)
    ensures forall field: string, n: nat :: NoDigits(field) && n > 5 ==> field + NatToString(n) !in PagesParams(sld, tld)
  {
    PagesParamsAreNumbered(sld, tld);
    PagesHostsWellKeyed();
    forall n: nat ensures "MXPref" + NatToString(n) !in PagesParams(sld, tld) {
      NoPreferenceSent(sld, tld, n);
    }
    forall field: string, n: nat | NoDigits(field) && n > 5 ensures field + NatToString(n) !in PagesParams(sld, tld) {
      NoHostBeyondFifth(sld, tld, field, n);
    }
  }

  /** No Pages host has a preference field. */
  lemma PagesHostsHaveNoPreference()
    ensures forall i, j :: 0 <= i < |PagesHosts| && 0 <= j < |PagesHosts[i]| ==> PagesHosts[i][j].0 != "MXPref"
  {
    PagesHostsShape();
    forall i, j | 0 <= i < |PagesHosts| && 0 <= j < |PagesHosts[i]| ensures PagesHosts[i][j].0 != "MXPref" {
      assert Keys(PagesHosts[i]) == ["HostName", "RecordType", "Address", "TTL"];
      assert Keys(PagesHosts[i])[j] == PagesHosts[i][j].0;
      assert "HostName"[0] == 'H' && "RecordType"[0] == 'R' && "Address"[0] == 'A' && "TTL"[0] == 'T';
    }
  }

  lemma NoPreferenceSent(sld: string, tld: string, n: nat)
    requires PagesParams(sld, tld) == Base(sld, tld) + NumberedParams(PagesHosts)
    requires WellKeyed(PagesHosts)
    ensures "MXPref" + NatToString(n) !in PagesParams(sld, tld)
  {
    PagesHostsShape();
    var k := "MXPref" + NatToString(n);
    assert k !in Base(sld, tld) by {
      assert k[0] == 'M' && "SLD"[0] == 'S' && "TLD"[0] == 'T';
    }
    assert NoDigits("MXPref") by {
      assert "MXPref" == ['M', 'X', 'P', 'r', 'e', 'f'];
    }
    PagesHostsHaveNoPreference();
    AbsentField(PagesHosts, "MXPref", n);
  }

  lemma NoHostBeyondFifth(sld: string, tld: string, field: string, n: nat)
    requires PagesParams(sld, tld) == Base(sld, tld) + NumberedParams(PagesHosts)
    requires WellKeyed(PagesHosts)
    requires NoDigits(field) && n > 5
    ensures field + NatToString(n) !in PagesParams(sld, tld)
  {
    PagesHostsShape();
    var k := field + NatToString(n);
    assert IsDigit(k[|k| - 1]) by {
      var d := NatToString(n);
      assert k[|k| - 1] == d[|d| - 1];
    }
    assert k != "SLD" && k != "TLD" by {
      assert "SLD"[2] == 'D' && "TLD"[2] == 'D';
    }
    AbsentField(PagesHosts, field, n);
  }

  /** Joining two labels with a dot gives a name the naive split accepts. */
  lemma JoinedNameSplits(sld: string, tld: string)
    ensures NamecheapApi.SldTld(sld + "." + tld).Some?
  {
    DomainNames.TwoLabelsIffDot(sld + "." + tld);
    assert (sld + "." + tld)[|sld|] == '.';
  }

  /**
   * The three requests of `setup_domain` for a split name: switch to the default name
   * servers, fetch the hosts of `sld.tld`, send `hosts`; false at the first failure. The
   * provider answers each request given every request sent so far.
   */
  method SwitchFetchStore(cfg: NamecheapApi.Config, sld: string, tld: string, hosts: Params,
                          provider: seq<Params> -> Reply)
    returns (ok: bool, sent: seq<Params>)
    ensures NamecheapApi.SldTld(sld + "." + tld).Some?
    ensures
      var switchDns := NamecheapApi.WithAuth(Base(sld, tld), cfg, SetDefaultCommand);
      var fetch := NamecheapApi.WithAuth(NamecheapApi.SldTld(sld + "." + tld).value, cfg, NamecheapApi.GetHostsCommand);
      var store := NamecheapApi.WithAuth(hosts, cfg, NamecheapApi.SetHostsCommand);
      var switched := NamecheapApi.Outcome(provider([switchDns]));
      var fetched := NamecheapApi.Outcome(provider([switchDns, fetch]));
      var stored := NamecheapApi.Outcome(provider([switchDns, fetch, store]));
      && (switched.Failure? ==> !ok && sent == [switchDns])
      && (switched.Success? && fetched.Failure? ==> !ok && sent == [switchDns, fetch])
      && (switched.Success? && fetched.Success? ==> ok == stored.Success? && sent == [switchDns, fetch, store])
  {
    JoinedNameSplits(sld, tld);
    var first, switched := NamecheapApi.MakeRequest(cfg, SetDefaultCommand, Base(sld, tld), p => provider([p]));
    sent := [first];
    if switched.Failure? {
      return false, sent;
    }
    var second, current := NamecheapApi.GetDnsRecords(cfg, sld + "." + tld, p => provider([first, p]));
    sent := [first, second.value];
    if current.Failure? {
      return false, sent;
    }
    var newRecords := BuildNewRecords();
    var third, stored := NamecheapApi.MakeRequest(cfg, NamecheapApi.SetHostsCommand, hosts, p => provider([first, second.value, p]));
    sent := [first, second.value, third];
    ok := stored.Success?;
  }

  /**
   * `setup_domain`. `dnsServed` stands for `check_dns_records` (an HTTP probe of the
   * domain). The run stops with false at the first failed request; the host list built
   * from the Pages and e-mail configuration is discarded and the fixed literal is sent
   * instead. The fetch is for `sld.tld`, which is the domain itself.
   */
  method SetupDomain(cfg: NamecheapApi.Config, domain: string, dnsServed: bool, provider: seq<Params> -> Reply)
    returns (ok: bool, sent: seq<Params>)
    ensures dnsServed ==> ok && sent == []
    ensures !dnsServed && DomainNames.SplitSldTld(domain).None? ==> !ok && sent == []
    ensures !dnsServed && DomainNames.SplitSldTld(domain).Some? ==>
      var (sld, tld) := DomainNames.SplitSldTld(domain).value;
      NamecheapApi.SldTld(domain).Some? &&
      var switchDns := NamecheapApi.WithAuth(Base(sld, tld), cfg, SetDefaultCommand);
      var fetch := NamecheapApi.WithAuth(NamecheapApi.SldTld(domain).value, cfg, NamecheapApi.GetHostsCommand);
      var store := NamecheapApi.WithAuth(PagesParams(sld, tld), cfg, NamecheapApi.SetHostsCommand);
      var switched := NamecheapApi.Outcome(provider([switchDns]));
      var fetched := NamecheapApi.Outcome(provider([switchDns, fetch]));
      var stored := NamecheapApi.Outcome(provider([switchDns, fetch, store]));
      && (switched.Failure? ==> !ok && sent == [switchDns])
      && (switched.Success? && fetched.Failure? ==> !ok && sent == [switchDns, fetch])
      && (switched.Success? && fetched.Success? ==> ok == stored.Success? && sent == [switchDns, fetch, store])
  {
    if dnsServed {
      return true, [];
    }
    var split := DomainNames.SplitSldTld(domain);
    if split.None? {
      return false, [];
    }
    var (sld, tld) := split.value;
    DomainNames.SplitSldTldRoundTrip(domain);
    assert sld + "." + tld == domain;
    ok, sent := SwitchFetchStore(cfg, sld, tld, PagesParams(sld, tld), provider);
  }

  /** The DNS files after `ensure_domain_structure`: a default document only where none exists. */
  function EnsuredDns(files: map<string, RecordStore.Stored<RecordStore.DnsDoc>>, domain: string, now: string)
    : (r: map<string, RecordStore.Stored<RecordStore.DnsDoc>>)
    ensures r.Keys == files.Keys + {domain}
    ensures forall d :: d in files ==> r[d] == files[d]
    ensures domain !in files ==> r[domain] == RecordStore.Loaded(RecordStore.DefaultDns(now))
  {
    if domain in files then files else files[domain := RecordStore.Loaded(RecordStore.DefaultDns(now))]
  }

  /** Running `ensure_domain_structure` twice is running it once, whatever the clock says. */
  lemma EnsureIdempotent(files: map<string, RecordStore.Stored<RecordStore.DnsDoc>>, domain: string,
                         now1: string, now2: string)
    ensures EnsuredDns(EnsuredDns(files, domain, now1), domain, now2) == EnsuredDns(files, domain, now1)
  {
  }

  /**
   * `ensure_domain_structure`, on the same layout the domain manager reads when its
   * workspace root is the current directory: the records directory (and its parents) is
   * created if missing, and dns.json is written only when absent. An existing dns.json,
   * readable or not, is left untouched.
   */
  method EnsureDomainStructure(m: DomainManagement.DomainManager, domain: string, now: string)
    requires m.Valid()
    modifies m
    ensures m.Valid()
    ensures m.domainDirs == old(m.domainDirs) + {domain} && m.recordDirs == old(m.recordDirs) + {domain}
    ensures m.dataFiles == old(m.dataFiles)
    ensures m.dnsFiles == EnsuredDns(old(m.dnsFiles), domain, now)
  {
    m.domainDirs := m.domainDirs + {domain};
    m.recordDirs := m.recordDirs + {domain};
    if domain !in m.dnsFiles {
      m.dnsFiles := m.dnsFiles[domain := RecordStore.Loaded(RecordStore.DefaultDns(now))];
    }
  }
}
