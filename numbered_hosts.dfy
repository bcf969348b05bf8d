/**
 * The bulk form of Namecheap's `setHosts` command: every host is a small dictionary of
 * fields, and host number `i` (counting from 1) contributes the parameters
 * `<field><i>` (`HostName1`, `RecordType1`, ..., `TTL7`).
 */
module NumberedHosts {
  import opened Json
  import opened Strings
  import opened Dicts

  /** One host's fields as written (a Python dict literal, so in insertion order). */
  type HostFields = Dict<string>

  /** The parameters one host contributes under number `n`. */
  function EntryParams(rec: HostFields, n: nat): map<string, Value>
    decreases |rec|
  {
    if rec == [] then map[]
    else EntryParams(rec[..|rec| - 1], n)[rec[|rec| - 1].0 + NatToString(n) := Str(rec[|rec| - 1].1)]
  }

  /** The parameters of all hosts, host `i` (0-based) numbered `i + 1`. */
  function NumberedParams(records: seq<HostFields>): map<string, Value>
    decreases |records|
  {
    if records == [] then map[]
    else NumberedParams(records[..|records| - 1]) + EntryParams(records[|records| - 1], |records|)
  }

  /** The SLD/TLD pair the numbered host parameters are added to. */
  function Base(sld: string, tld: string): map<string, Value> {
    map["SLD" := Str(sld), "TLD" := Str(tld)]
  }

  /** Host field names are digit-free and distinct within a host. */
  predicate WellKeyed(records: seq<HostFields>) {
    forall i :: 0 <= i < |records| ==> FieldsWellKeyed(records[i])
  }

  predicate FieldsWellKeyed(rec: HostFields) {
    Distinct(Keys(rec)) && forall j :: 0 <= j < |rec| ==> NoDigits(rec[j].0)
  }

  /** The number of fields over all hosts. */
  function FieldCount(records: seq<HostFields>): nat
    decreases |records|
  {
    if records == [] then 0 else FieldCount(records[..|records| - 1]) + |records[|records| - 1]|
  }

  /** The names one host contributes are its field names followed by its number. */
  lemma {:induction false} EntryKeys(rec: HostFields, n: nat, k: string)
    ensures k in EntryParams(rec, n) <==> exists j :: 0 <= j < |rec| && k == rec[j].0 + NatToString(n)
    decreases |rec|
  {
    if rec != [] {
      var init := rec[..|rec| - 1];
      EntryKeys(init, n, k);
      if k in EntryParams(init, n) {
        var j :| 0 <= j < |init| && k == init[j].0 + NatToString(n);
        assert rec[j] == init[j];
      }
      if exists j :: 0 <= j < |rec| && k == rec[j].0 + NatToString(n) {
        var j :| 0 <= j < |rec| && k == rec[j].0 + NatToString(n);
        if j < |init| {
          assert rec[j] == init[j];
        }
      }
    }
  }

  /** Two names with the same number are equal only when their fields are. */
  lemma SameSuffix(k1: string, k2: string, s: string)
    ensures k1 + s == k2 + s ==> k1 == k2
  {
    assert k1 == (k1 + s)[..|k1|];
    assert k2 == (k2 + s)[..|k2|];
  }

  /** Field `j` of a host is sent under its numbered name with its own value. */
  lemma {:induction false} EntryLookup(rec: HostFields, n: nat, j: nat)
    requires Distinct(Keys(rec)) && j < |rec|
    ensures rec[j].0 + NatToString(n) in EntryParams(rec, n)
    ensures EntryParams(rec, n)[rec[j].0 + NatToString(n)] == Str(rec[j].1)
    decreases |rec|
  {
    var init := rec[..|rec| - 1];
    var last := rec[|rec| - 1];
    if j < |rec| - 1 {
      assert Keys(init) == Keys(rec)[..|rec| - 1];
      assert init[j] == rec[j];
      assert rec[j].0 != last.0 by {
        assert Keys(rec)[j] == rec[j].0 && Keys(rec)[|rec| - 1] == last.0;
      }
      SameSuffix(rec[j].0, last.0, NatToString(n));
      EntryLookup(init, n, j);
    }
  }

  /** A host with distinct field names contributes one parameter per field. */
  lemma {:induction false} EntryCount(rec: HostFields, n: nat)
    requires Distinct(Keys(rec))
    ensures |EntryParams(rec, n).Keys| == |rec|
    decreases |rec|
  {
    if rec != [] {
      var init := rec[..|rec| - 1];
      var last := rec[|rec| - 1];
      assert Keys(init) == Keys(rec)[..|rec| - 1];
      EntryCount(init, n);
      var k := last.0 + NatToString(n);
      assert k !in EntryParams(init, n) by {
        EntryKeys(init, n, k);
        forall j | 0 <= j < |init| ensures k != init[j].0 + NatToString(n) {
          assert Keys(rec)[j] != Keys(rec)[|rec| - 1];
          SameSuffix(init[j].0, last.0, NatToString(n));
        }
      }
      assert EntryParams(rec, n).Keys == EntryParams(init, n).Keys + {k};
    }
  }

  /** The parameter names of all hosts: field names followed by the host's number. */
  lemma {:induction false} NumberedKeys(records: seq<HostFields>, k: string)
    ensures k in NumberedParams(records) <==>
      exists i, j :: 0 <= i < |records| && 0 <= j < |records[i]| && k == records[i][j].0 + NatToString(i + 1)
    decreases |records|
  {
    if records != [] {
      var init := records[..|records| - 1];
      var n := |records|;
      NumberedKeys(init, k);
      EntryKeys(records[n - 1], n, k);
      if k in NumberedParams(records) {
        if k in EntryParams(records[n - 1], n) {
          var j :| 0 <= j < |records[n - 1]| && k == records[n - 1][j].0 + NatToString(n);
          assert 0 <= n - 1 < |records| && k == records[n - 1][j].0 + NatToString(n - 1 + 1);
        } else {
          var i, j :| 0 <= i < |init| && 0 <= j < |init[i]| && k == init[i][j].0 + NatToString(i + 1);
          assert records[i] == init[i];
        }
      }
      if exists i, j :: 0 <= i < |records| && 0 <= j < |records[i]| && k == records[i][j].0 + NatToString(i + 1) {
        var i, j :| 0 <= i < |records| && 0 <= j < |records[i]| && k == records[i][j].0 + NatToString(i + 1);
        if i < |init| {
          assert records[i] == init[i];
        }
      }
    }
  }

  /** Every parameter name of the numbered hosts ends in a digit. */
  lemma NumberedKeyEndsInDigit(records: seq<HostFields>, k: string)
    requires k in NumberedParams(records)
    ensures |k| >= 1 && IsDigit(k[|k| - 1])
  {
    NumberedKeys(records, k);
    var i, j :| 0 <= i < |records| && 0 <= j < |records[i]| && k == records[i][j].0 + NatToString(i + 1);
    var s := NatToString(i + 1);
    assert k[|k| - 1] == s[|s| - 1];
  }

  /** A field no host numbered `n` has is not sent under number `n`. */
  lemma AbsentField(records: seq<HostFields>, field: string, n: nat)
    requires WellKeyed(records) && NoDigits(field)
    requires forall i, j :: 0 <= i < |records| && 0 <= j < |records[i]| && records[i][j].0 == field ==> i + 1 != n
    ensures field + NatToString(n) !in NumberedParams(records)
  {
    var k := field + NatToString(n);
    if k in NumberedParams(records) {
      NumberedKeys(records, k);
      var i, j :| 0 <= i < |records| && 0 <= j < |records[i]| && k == records[i][j].0 + NatToString(i + 1);
      assert FieldsWellKeyed(records[i]);
      NumberedKeyInjective(field, n, records[i][j].0, i + 1);
      assert false;
    }
  }

  /** Field `j` of host `i` is sent as `<field><i + 1>` with its own value. */
  lemma {:induction false} NumberedLookup(records: seq<HostFields>, i: nat, j: nat)
    requires WellKeyed(records) && i < |records| && j < |records[i]|
    ensures records[i][j].0 + NatToString(i + 1) in NumberedParams(records)
    ensures NumberedParams(records)[records[i][j].0 + NatToString(i + 1)] == Str(records[i][j].1)
    decreases |records|
  {
    var n := |records|;
    var init := records[..n - 1];
    var k := records[i][j].0 + NatToString(i + 1);
    if i == n - 1 {
      EntryLookup(records[i], n, j);
    } else {
      assert init[i] == records[i];
      assert WellKeyed(init) by {
        forall i' | 0 <= i' < |init| ensures FieldsWellKeyed(init[i']) {
          assert init[i'] == records[i'];
        }
      }
      NumberedLookup(init, i, j);
      EntryKeys(records[n - 1], n, k);
      if k in EntryParams(records[n - 1], n) {
        var j' :| 0 <= j' < |records[n - 1]| && k == records[n - 1][j'].0 + NatToString(n);
        assert FieldsWellKeyed(records[i]) && FieldsWellKeyed(records[n - 1]);
        NumberedKeyInjective(records[i][j].0, i + 1, records[n - 1][j'].0, n);
        assert false;
      }
    }
  }

  /** A host numbered after all of `init` shares no parameter name with them. */
  lemma EarlierHostsDisjoint(init: seq<HostFields>, last: HostFields, n: nat)
    requires WellKeyed(init) && FieldsWellKeyed(last) && n > |init|
    ensures NumberedParams(init).Keys !! EntryParams(last, n).Keys
  {
    forall k | k in NumberedParams(init) && k in EntryParams(last, n) ensures false {
      NumberedKeys(init, k);
      EntryKeys(last, n, k);
      var i, j :| 0 <= i < |init| && 0 <= j < |init[i]| && k == init[i][j].0 + NatToString(i + 1);
      var j' :| 0 <= j' < |last| && k == last[j'].0 + NatToString(n);
      assert FieldsWellKeyed(init[i]);
      NumberedKeyInjective(init[i][j].0, i + 1, last[j'].0, n);
    }
  }

  /** With well-keyed hosts, no two fields share a parameter name: one parameter per field. */
  lemma {:induction false} NumberedCount(records: seq<HostFields>)
    requires WellKeyed(records)
    ensures |NumberedParams(records).Keys| == FieldCount(records)
    decreases |records|
  {
    if records != [] {
      var n := |records|;
      var init := records[..n - 1];
      var last := records[n - 1];
      assert WellKeyed(init) by {
        forall i' | 0 <= i' < |init| ensures FieldsWellKeyed(init[i']) {
          assert init[i'] == records[i'];
        }
      }
      NumberedCount(init);
      assert FieldsWellKeyed(last);
      EntryCount(last, n);
      var a := NumberedParams(init).Keys;
      var b := EntryParams(last, n).Keys;
      EarlierHostsDisjoint(init, last, n);
      assert a !! b;
      assert NumberedParams(records).Keys == a + b;
    }
  }

  /** The SLD and TLD never collide with a numbered parameter (those end in a digit). */
  lemma BaseDisjoint(sld: string, tld: string, records: seq<HostFields>)
    ensures Base(sld, tld).Keys !! NumberedParams(records).Keys
  {
    forall k | k in Base(sld, tld) && k in NumberedParams(records) ensures false {
      NumberedKeyEndsInDigit(records, k);
    }
  }

  /** Setting the next field of the current host extends that host's parameters. */
  lemma FlattenFieldStep(prefix: map<string, Value>, rec: HostFields, n: nat, j: nat)
    requires j < |rec|
    ensures (prefix + EntryParams(rec[..j], n))[rec[j].0 + NatToString(n) := Str(rec[j].1)]
            == prefix + EntryParams(rec[..j + 1], n)
  {
    assert rec[..j + 1][..j] == rec[..j];
  }

  /** Finishing host `i` turns the parameters of the first `i` hosts into those of the first `i + 1`. */
  lemma FlattenHostStep(base: map<string, Value>, records: seq<HostFields>, i: nat)
    requires i < |records|
    ensures base + NumberedParams(records[..i + 1])
            == (base + NumberedParams(records[..i])) + EntryParams(records[i], i + 1)
  {
    assert records[..i + 1][..i] == records[..i];
  }

  /**
   * The parameter-building loop of the bulk setHosts calls: start from SLD and TLD, then
   * for each host `i` (from 1) and each of its fields set `<field><i>`.
   */
  method Flatten(sld: string, tld: string, records: seq<HostFields>) returns (params: map<string, Value>)
    ensures params == Base(sld, tld) + NumberedParams(records)
  {
    params := Base(sld, tld);
    var i := 0;
    while i < |records|
      invariant 0 <= i <= |records|
      invariant params == Base(sld, tld) + NumberedParams(records[..i])
    {
      var rec := records[i];
      var prefix := Base(sld, tld) + NumberedParams(records[..i]);
      var j := 0;
      while j < |rec|
        invariant 0 <= j <= |rec|
        invariant params == prefix + EntryParams(rec[..j], i + 1)
      {
        FlattenFieldStep(prefix, rec, i + 1, j);
        params := params[rec[j].0 + NatToString(i + 1) := Str(rec[j].1)];
        j := j + 1;
      }
      assert rec[..j] == rec;
      FlattenHostStep(Base(sld, tld), records, i);
      i := i + 1;
    }
    assert records[..i] == records;
  }
}
