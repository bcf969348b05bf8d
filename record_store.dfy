/**
 * The two per-domain JSON documents of the domain manager, as values, and what each
 * read-modify-write operation does to them:
 *   content/records/data.json  a dict from record type to a list of records;
 *   content/records/dns.json   `{"records": {type: list}, "last_updated": time}`.
 * Each `...Result` function returns the document the operation writes, or None when it
 * returns False without writing.
 */
module RecordStore {
  import opened Wrappers
  import opened Json
  import opened Strings
  import opened Dicts

  /** Record type -> records, in the dict's insertion order. */
  type Records = Dict<seq<Record>>

  /** A document file on disk: one whose content `json.load` cannot turn into the expected shape, or a loaded one. */
  datatype Stored<T> = Unreadable | Loaded(doc: T)

  const MetaKeys: set<string> := {"id", "created_at", "updated_at"}

  /** `{**data, 'id': str(id), 'created_at': now, 'updated_at': now}`: the metadata overrides the caller's fields. */
  function Stamped(data: Record, id: nat, now: string): (r: Record)
    ensures r.Keys == data.Keys + MetaKeys
    ensures r["id"] == Str(NatToString(id)) && r["created_at"] == Str(now) && r["updated_at"] == Str(now)
    ensures forall k :: k in data && k !in MetaKeys ==> r[k] == data[k]
  {
    data + map["id" := Str(NatToString(id)), "created_at" := Str(now), "updated_at" := Str(now)]
  }

  /** The list stored under a type, `[]` when the type is absent. */
  function ListOf(records: Records, t: string): seq<Record> {
    Find(records, t).GetOr([])
  }

  /** Appends one stamped record to type `t`, numbered one past the current length of the list. */
  function Appended(records: Records, t: string, data: Record, now: string): Records {
    var cur := ListOf(records, t);
    Put(records, t, cur + [Stamped(data, |cur| + 1, now)])
  }

  /** Exactly one record is added, at the end of `t`'s list; every other type keeps its list. */
  lemma AppendedSpec(records: Records, t: string, data: Record, now: string, u: string)
    ensures ListOf(Appended(records, t, data, now), t)
            == ListOf(records, t) + [Stamped(data, |ListOf(records, t)| + 1, now)]
    ensures u != t ==> Find(Appended(records, t, data, now), u) == Find(records, u)
    ensures t in Keys(records) ==> Keys(Appended(records, t, data, now)) == Keys(records)
    ensures t !in Keys(records) ==> Keys(Appended(records, t, data, now)) == Keys(records) + [t]
  {
    var cur := ListOf(records, t);
    FindPut(records, t, cur + [Stamped(data, |cur| + 1, now)], t);
    FindPut(records, t, cur + [Stamped(data, |cur| + 1, now)], u);
  }

  /** `AppendedSpec` for every other type at once. */
  lemma AppendedElsewhere(records: Records, t: string, data: Record, now: string)
    ensures forall u :: u != t ==> Find(Appended(records, t, data, now), u) == Find(records, u)
  {
    forall u | u != t ensures Find(Appended(records, t, data, now), u) == Find(records, u) {
      AppendedSpec(records, t, data, now, u);
    }
  }

  predicate HasId(r: Record, id: string) {
    "id" in r && r["id"] == Str(id)
  }

  /** `record.update(data); record['updated_at'] = now`: the patch may replace anything but `updated_at`. */
  function Patched(rec: Record, patch: Record, now: string): (r: Record)
    ensures r.Keys == rec.Keys + patch.Keys + {"updated_at"}
    ensures r["updated_at"] == Str(now)
    ensures forall k :: k in patch && k != "updated_at" ==> r[k] == patch[k]
    ensures forall k :: k in rec && k !in patch && k != "updated_at" ==> r[k] == rec[k]
  {
    (rec + patch)["updated_at" := Str(now)]
  }

  /**
   * The loop of `update_record`: patches the first record whose id matches and stops.
   * None when a record reached by the scan has no `id` (Python's KeyError).
   */
  function UpdateFirst(rs: seq<Record>, id: string, patch: Record, now: string): Option<seq<Record>> {
    if rs == [] then Some([])
    else if "id" !in rs[0] then None
    else if HasId(rs[0], id) then Some([Patched(rs[0], patch, now)] + rs[1..])
    else match UpdateFirst(rs[1..], id, patch, now)
      case None => None
      case Some(rest) => Some([rs[0]] + rest)
  }

  /** The scan stops on a record without an id before any record matches. */
  predicate ScanFails(rs: seq<Record>, id: string) {
    exists j :: 0 <= j < |rs| && "id" !in rs[j] && forall k :: 0 <= k < j ==> !HasId(rs[k], id)
  }

  /** `i` is the first record with the given id, and every record before it has an id. */
  predicate FirstMatch(rs: seq<Record>, id: string, i: int) {
    && 0 <= i < |rs| && HasId(rs[i], id)
    && forall k :: 0 <= k < i ==> "id" in rs[k] && !HasId(rs[k], id)
  }

  /** The update fails exactly when the scan reaches a record without an id before a match. */
  lemma {:induction false} UpdateFirstFails(rs: seq<Record>, id: string, patch: Record, now: string)
    ensures UpdateFirst(rs, id, patch, now).None? <==> ScanFails(rs, id)
  {
    if rs != [] && "id" in rs[0] {
      var tail := rs[1..];
      UpdateFirstFails(tail, id, patch, now);
      if HasId(rs[0], id) {
        forall j | 0 <= j < |rs| && "id" !in rs[j] ensures exists k :: 0 <= k < j && HasId(rs[k], id) {
          assert j > 0 && HasId(rs[0], id);
        }
      } else {
        if ScanFails(tail, id) {
          var j :| 0 <= j < |tail| && "id" !in tail[j] && forall k :: 0 <= k < j ==> !HasId(tail[k], id);
          assert "id" !in rs[j + 1] && forall k :: 0 <= k < j + 1 ==> !HasId(rs[k], id);
        }
        if ScanFails(rs, id) {
          var j :| 0 <= j < |rs| && "id" !in rs[j] && forall k :: 0 <= k < j ==> !HasId(rs[k], id);
          assert j > 0;
          assert "id" !in tail[j - 1] && forall k :: 0 <= k < j - 1 ==> !HasId(tail[k], id);
        }
      }
    }
  }

  /** Only the first matching record is patched; the records around it are kept. */
  lemma {:induction false} UpdateFirstMatch(rs: seq<Record>, id: string, patch: Record, now: string, i: int)
    requires FirstMatch(rs, id, i)
    ensures UpdateFirst(rs, id, patch, now) == Some(rs[i := Patched(rs[i], patch, now)])
  {
    if i == 0 {
      assert [Patched(rs[0], patch, now)] + rs[1..] == rs[0 := Patched(rs[0], patch, now)];
    } else {
      var tail := rs[1..];
      assert "id" in rs[0] && !HasId(rs[0], id);
      assert FirstMatch(tail, id, i - 1);
      UpdateFirstMatch(tail, id, patch, now, i - 1);
      assert [rs[0]] + tail[i - 1 := Patched(rs[i], patch, now)] == rs[i := Patched(rs[i], patch, now)];
    }
  }

  /** With no matching record (and every id present) the list comes back equal. */
  lemma {:induction false} UpdateFirstNoMatch(rs: seq<Record>, id: string, patch: Record, now: string)
    requires forall k :: 0 <= k < |rs| ==> "id" in rs[k] && !HasId(rs[k], id)
    ensures UpdateFirst(rs, id, patch, now) == Some(rs)
  {
    if rs != [] {
      var tail := rs[1..];
      assert "id" in rs[0] && !HasId(rs[0], id);
      forall k | 0 <= k < |tail| ensures "id" in tail[k] && !HasId(tail[k], id) {
        assert tail[k] == rs[k + 1];
      }
      UpdateFirstNoMatch(tail, id, patch, now);
      assert [rs[0]] + tail == rs;
    }
  }

  /** The loop of `update_record`, with its `break` at the first match. */
  method PatchFirst(rs: seq<Record>, id: string, patch: Record, now: string) returns (out: Option<seq<Record>>)
    ensures out == UpdateFirst(rs, id, patch, now)
  {
    var i := 0;
    while i < |rs|
      invariant 0 <= i <= |rs|
      invariant forall k :: 0 <= k < i ==> "id" in rs[k] && !HasId(rs[k], id)
    {
      if "id" !in rs[i] {
        UpdateFirstFails(rs, id, patch, now);
        assert ScanFails(rs, id);
        return None;
      }
      if rs[i]["id"] == Str(id) {
        UpdateFirstMatch(rs, id, patch, now, i);
        return Some(rs[i := Patched(rs[i], patch, now)]);
      }
      i := i + 1;
    }
    UpdateFirstNoMatch(rs, id, patch, now);
    out := Some(rs);
  }

  /** The comprehension of `delete_record`; None when some record has no `id` (Python's KeyError). */
  function Without(rs: seq<Record>, id: string): Option<seq<Record>> {
    if rs == [] then Some([])
    else if "id" !in rs[0] then None
    else match Without(rs[1..], id)
      case None => None
      case Some(rest) => Some(if HasId(rs[0], id) then rest else [rs[0]] + rest)
  }

  /** Deletion fails iff a record lacks an id; otherwise it drops exactly the matching records. */
  lemma {:induction false} WithoutSpec(rs: seq<Record>, id: string)
    ensures Without(rs, id).None? <==> exists j :: 0 <= j < |rs| && "id" !in rs[j]
    ensures Without(rs, id).Some? ==>
      && (forall r :: r in Without(rs, id).value ==> r in rs && !HasId(r, id))
      && (forall r :: r in rs && !HasId(r, id) ==> r in Without(rs, id).value)
    ensures Without(rs, id).Some? && (forall k :: 0 <= k < |rs| ==> !HasId(rs[k], id)) ==> Without(rs, id) == Some(rs)
  {
    if rs != [] {
      var tail := rs[1..];
      WithoutSpec(tail, id);
      assert forall r :: r in rs <==> r == rs[0] || r in tail;
      if exists j :: 0 <= j < |tail| && "id" !in tail[j] {
        var j :| 0 <= j < |tail| && "id" !in tail[j];
        assert "id" !in rs[j + 1];
      }
      if exists j :: 0 <= j < |rs| && "id" !in rs[j] {
        var j :| 0 <= j < |rs| && "id" !in rs[j];
        if j > 0 { assert "id" !in tail[j - 1]; }
      }
      if Without(rs, id).Some? && forall k :: 0 <= k < |rs| ==> !HasId(rs[k], id) {
        assert forall k :: 0 <= k < |tail| ==> !HasId(tail[k], id) by {
          forall k | 0 <= k < |tail| ensures !HasId(tail[k], id) {
            assert tail[k] == rs[k + 1];
          }
        }
        assert [rs[0]] + tail == rs;
      }
    }
  }

  /** Deletion works piecewise: the survivors of `a + b` are those of `a` followed by those of `b`, in order. */
  lemma {:induction false} WithoutConcat(a: seq<Record>, b: seq<Record>, id: string)
    ensures Without(a + b, id).Some? <==> Without(a, id).Some? && Without(b, id).Some?
    ensures Without(a + b, id).Some? ==> Without(a + b, id).value == Without(a, id).value + Without(b, id).value
  {
    if a == [] {
      assert a + b == b;
      if Without(b, id).Some? { assert [] + Without(b, id).value == Without(b, id).value; }
    } else {
      assert (a + b)[0] == a[0] && (a + b)[1..] == a[1..] + b;
      WithoutConcat(a[1..], b, id);
      if "id" in a[0] && Without(a[1..], id).Some? && Without(b, id).Some? {
        var ra := Without(a[1..], id).value;
        var rb := Without(b, id).value;
        assert [a[0]] + (ra + rb) == ([a[0]] + ra) + rb;
      }
    }
  }

  /** A single record is dropped iff its id matches, kept otherwise, and fails without an id. */
  lemma WithoutOne(r: Record, id: string)
    ensures Without([r], id) == if "id" !in r then None else if HasId(r, id) then Some([]) else Some([r])
  {
    assert [r][0] == r && [r][1..] == [];
    assert Without([], id) == Some([]);
    if "id" in r && !HasId(r, id) { assert [r] + [] == [r]; }
  }

  /** Deleting twice is deleting once. */
  lemma {:induction false} WithoutIdempotent(rs: seq<Record>, id: string)
    requires Without(rs, id).Some?
    ensures Without(Without(rs, id).value, id) == Without(rs, id)
  {
    if rs != [] {
      WithoutIdempotent(rs[1..], id);
    }
  }

  /** What `get_records` returns: the whole dict, or one type's list. */
  datatype RecordsView = AllTypes(records: Records) | OfType(list: seq<Record>)

  /** `add_record`. `hasDir`: the records directory exists, so a missing file can be created. */
  function AddRecordResult(hasDir: bool, file: Option<Stored<Records>>, t: string, data: Record, now: string): Option<Records> {
    match file
    case None => if hasDir then Some(Appended([], t, data, now)) else None
    case Some(Unreadable) => None
    case Some(Loaded(records)) => Some(Appended(records, t, data, now))
  }

  /** `get_records`: `{}` for a missing or unreadable file, the whole dict for no (or an empty) type. */
  function GetRecordsResult(file: Option<Stored<Records>>, t: Option<string>): RecordsView {
    match file
    case None => AllTypes([])
    case Some(Unreadable) => AllTypes([])
    case Some(Loaded(records)) =>
      if t == None || t == Some("") then AllTypes(records) else OfType(ListOf(records, t.value))
  }

  /** `update_record`. */
  function UpdateRecordResult(file: Option<Stored<Records>>, t: string, id: string, patch: Record, now: string): Option<Records> {
    match file
    case None => None
    case Some(Unreadable) => None
    case Some(Loaded(records)) =>
      if t !in Keys(records) then None
      else match UpdateFirst(ListOf(records, t), id, patch, now)
        case None => None
        case Some(list) => Some(Put(records, t, list))
  }

  /** `delete_record`. */
  function DeleteRecordResult(file: Option<Stored<Records>>, t: string, id: string): Option<Records> {
    match file
    case None => None
    case Some(Unreadable) => None
    case Some(Loaded(records)) =>
      if t !in Keys(records) then None
      else match Without(ListOf(records, t), id)
        case None => None
        case Some(list) => Some(Put(records, t, list))
  }

  /**
   * A missing file or type starts from empty; only an unreadable file, or a missing file
   * without its directory, fails. What is written is `AppendedSpec`'s append.
   */
  lemma AddRecordSpec(hasDir: bool, file: Option<Stored<Records>>, t: string, data: Record, now: string)
    ensures AddRecordResult(hasDir, file, t, data, now).None? <==> file == Some(Unreadable) || (file == None && !hasDir)
    ensures AddRecordResult(hasDir, file, t, data, now).Some? ==>
      AddRecordResult(hasDir, file, t, data, now).value == Appended(if file.Some? then file.value.doc else [], t, data, now)
  {
  }

  /** With no type (or the empty one) the whole dict comes back; otherwise that type's list, `[]` if absent. */
  lemma GetRecordsSpec(file: Option<Stored<Records>>, t: Option<string>)
    ensures !(file.Some? && file.value.Loaded?) ==> GetRecordsResult(file, t) == AllTypes([])
    ensures file.Some? && file.value.Loaded? && (t == None || t == Some("")) ==>
      GetRecordsResult(file, t) == AllTypes(file.value.doc)
    ensures file.Some? && file.value.Loaded? && t.Some? && t.value != "" ==>
      GetRecordsResult(file, t) == OfType(if t.value in Keys(file.value.doc) then Find(file.value.doc, t.value).value else [])
  {
  }

  /** A record just added is read back at the end of its type's list. */
  lemma GetAfterAdd(hasDir: bool, file: Option<Stored<Records>>, t: string, data: Record, now: string)
    requires t != "" && AddRecordResult(hasDir, file, t, data, now).Some?
    ensures var after := AddRecordResult(hasDir, file, t, data, now).value;
      var before := if file.Some? then file.value.doc else [];
      GetRecordsResult(Some(Loaded(after)), Some(t)) == OfType(ListOf(before, t) + [Stamped(data, |ListOf(before, t)| + 1, now)])
  {
    match file
    case None => AppendedSpec([], t, data, now, t);
    case Some(Loaded(records)) => AppendedSpec(records, t, data, now, t);
  }

  /** Update: only the first matching record changes; no match leaves the document equal; the type set never changes. */
  lemma UpdateRecordSpec(records: Records, t: string, id: string, patch: Record, now: string)
    requires t in Keys(records)
    ensures var out := UpdateRecordResult(Some(Loaded(records)), t, id, patch, now);
      var rs := ListOf(records, t);
      && (out.None? <==> ScanFails(rs, id))
      && (out.Some? ==> Keys(out.value) == Keys(records))
      && (forall i :: FirstMatch(rs, id, i) ==> out.Some? && ListOf(out.value, t) == rs[i := Patched(rs[i], patch, now)])
      && ((forall k :: 0 <= k < |rs| ==> "id" in rs[k] && !HasId(rs[k], id)) ==> out.Some? && ListOf(out.value, t) == rs)
      && (out.Some? ==> forall u :: u != t ==> Find(out.value, u) == Find(records, u))
  {
    var rs := ListOf(records, t);
    UpdateFirstFails(rs, id, patch, now);
    forall i | FirstMatch(rs, id, i) ensures UpdateFirst(rs, id, patch, now) == Some(rs[i := Patched(rs[i], patch, now)]) {
      UpdateFirstMatch(rs, id, patch, now, i);
    }
    if forall k :: 0 <= k < |rs| ==> "id" in rs[k] && !HasId(rs[k], id) {
      UpdateFirstNoMatch(rs, id, patch, now);
    }
    if UpdateFirst(rs, id, patch, now).Some? {
      forall u {
        FindPut(records, t, UpdateFirst(rs, id, patch, now).value, u);
      }
    }
  }

  /** Delete: types are kept, other types untouched, and a second delete of the same id changes nothing. */
  lemma DeleteRecordSpec(records: Records, t: string, id: string)
    requires t in Keys(records)
    ensures var out := DeleteRecordResult(Some(Loaded(records)), t, id);
      && (out.None? <==> exists j :: 0 <= j < |ListOf(records, t)| && "id" !in ListOf(records, t)[j])
      && (out.Some? ==> Keys(out.value) == Keys(records))
      && (out.Some? ==> forall u :: u != t ==> Find(out.value, u) == Find(records, u))
      && (out.Some? ==> ListOf(out.value, t) == Without(ListOf(records, t), id).value)
      && (out.Some? ==> DeleteRecordResult(Some(Loaded(out.value)), t, id) == out)
  {
    var rs := ListOf(records, t);
    WithoutSpec(rs, id);
    if Without(rs, id).Some? {
      var list := Without(rs, id).value;
      var out := Put(records, t, list);
      forall u {
        FindPut(records, t, list, u);
      }
      assert ListOf(out, t) == list;
      WithoutIdempotent(rs, id);
      FindPut(out, t, list, t);
      assert Put(out, t, list) == out by {
        PutPut(records, t, list, list);
      }
    }
  }

  /**
   * Ids come from the list length, so they can repeat: from ids "1" and "2", deleting "1"
   * and adding again yields a second record with id "2".
   */
  lemma DuplicateIdAfterDelete(r1: Record, r2: Record, data: Record, now: string)
    requires r1 == map["id" := Str("1")] && r2 == map["id" := Str("2")]
    ensures var deleted := DeleteRecordResult(Some(Loaded([("posts", [r1, r2])])), "posts", "1");
      && deleted == Some([("posts", [r2])])
      && var added := AddRecordResult(true, Some(Loaded(deleted.value)), "posts", data, now);
         added.Some? && |ListOf(added.value, "posts")| == 2
         && HasId(ListOf(added.value, "posts")[0], "2") && HasId(ListOf(added.value, "posts")[1], "2")
  {
    assert "2"[0] != "1"[0];
    assert !HasId(r2, "1") && HasId(r1, "1");
    assert Without([r2], "1") == Some([r2]) by {
      assert [r2][1..] == [];
      assert "id" in [r2][0] && !HasId([r2][0], "1");
      assert Without([], "1") == Some([]);
      assert [r2] + [] == [r2];
    }
    assert Without([r1, r2], "1") == Some([r2]) by {
      assert [r1, r2][1..] == [r2];
    }
    var deleted := [("posts", [r2])];
    var before: Records := [("posts", [r1, r2])];
    assert Keys(before) == ["posts"] && ListOf(before, "posts") == [r1, r2];
    assert Put(before, "posts", [r2]) == deleted;
    assert DeleteRecordResult(Some(Loaded([("posts", [r1, r2])])), "posts", "1") == Some(deleted);
    assert ListOf(deleted, "posts") == [r2];
    var stamped := Stamped(data, 2, now);
    assert NatToString(2) == "2";
    assert HasId(stamped, "2");
    assert [r2] + [stamped] == [r2, stamped];
    assert deleted[0].0 == "posts" && deleted[1..] == [];
    assert Put(deleted, "posts", [r2, stamped]) == [("posts", [r2, stamped])] + [];
    assert Put(deleted, "posts", [r2] + [stamped]) == [("posts", [r2, stamped])];
    assert AddRecordResult(true, Some(Loaded(deleted)), "posts", data, now) == Some([("posts", [r2, stamped])]);
    assert ListOf([("posts", [r2, stamped])], "posts") == [r2, stamped];
  }

  // ---- dns.json ----

  datatype DnsDoc = DnsDoc(records: Records, lastUpdated: string)

  /** The five record types of a fresh DNS document (RFC 1035 section 3.2.2 types), in their written order. */
  const DnsTypes: seq<string> := ["A", "CNAME", "MX", "TXT", "NS"]

  function EmptyDnsRecords(): (r: Records)
    ensures Keys(r) == DnsTypes
    ensures forall i :: 0 <= i < |r| ==> r[i].1 == []
  {
    [("A", []), ("CNAME", []), ("MX", []), ("TXT", []), ("NS", [])]
  }

  /** The dns.json written at domain creation, by `ensure_domain_structure` and (before filling) by a sync. */
  function DefaultDns(now: string): DnsDoc {
    DnsDoc(EmptyDnsRecords(), now)
  }

  /** `add_dns_record`: unlike `add_record`, a missing file or a type that is not a key already fails. */
  function DnsAddResult(file: Option<Stored<DnsDoc>>, t: string, data: Record, now: string): Option<DnsDoc> {
    match file
    case None => None
    case Some(Unreadable) => None
    case Some(Loaded(doc)) =>
      if t !in Keys(doc.records) then None
      else Some(DnsDoc(Appended(doc.records, t, data, now), now))
  }

  function DnsUpdateResult(file: Option<Stored<DnsDoc>>, t: string, id: string, patch: Record, now: string): Option<DnsDoc> {
    match file
    case None => None
    case Some(Unreadable) => None
    case Some(Loaded(doc)) =>
      match UpdateRecordResult(Some(Loaded(doc.records)), t, id, patch, now)
      case None => None
      case Some(records) => Some(DnsDoc(records, now))
  }

  function DnsDeleteResult(file: Option<Stored<DnsDoc>>, t: string, id: string, now: string): Option<DnsDoc> {
    match file
    case None => None
    case Some(Unreadable) => None
    case Some(Loaded(doc)) =>
      match DeleteRecordResult(Some(Loaded(doc.records)), t, id)
      case None => None
      case Some(records) => Some(DnsDoc(records, now))
  }

  /** What `get_dns_records` returns: the whole document, or `{"records": {...}}` alone. */
  datatype DnsView = WholeDoc(doc: DnsDoc) | RecordsOnly(records: Records)

  function GetDnsResult(file: Option<Stored<DnsDoc>>, t: Option<string>): DnsView {
    match file
    case None => RecordsOnly([])
    case Some(Unreadable) => RecordsOnly([])
    case Some(Loaded(doc)) =>
      if t == None || t == Some("") then WholeDoc(doc)
      else RecordsOnly([(t.value, ListOf(doc.records, t.value))])
  }

  /** Every successful DNS change resets `last_updated` and keeps the set of type keys, in order. */
  lemma DnsChangesKeepTypes(doc: DnsDoc, t: string, id: string, data: Record, now: string)
    ensures DnsAddResult(Some(Loaded(doc)), t, data, now).Some? <==> t in Keys(doc.records)
    ensures DnsUpdateResult(Some(Loaded(doc)), t, id, data, now).Some? <==>
      t in Keys(doc.records) && !ScanFails(ListOf(doc.records, t), id)
    ensures DnsDeleteResult(Some(Loaded(doc)), t, id, now).Some? <==>
      t in Keys(doc.records) && forall j :: 0 <= j < |ListOf(doc.records, t)| ==> "id" in ListOf(doc.records, t)[j]
    ensures forall d :: d in {DnsAddResult(Some(Loaded(doc)), t, data, now),
                              DnsUpdateResult(Some(Loaded(doc)), t, id, data, now),
                              DnsDeleteResult(Some(Loaded(doc)), t, id, now)} && d.Some? ==>
      Keys(d.value.records) == Keys(doc.records) && d.value.lastUpdated == now
  {
    if t in Keys(doc.records) {
      AppendedSpec(doc.records, t, data, now, t);
      UpdateRecordSpec(doc.records, t, id, data, now);
      DeleteRecordSpec(doc.records, t, id);
    }
  }

  /** A missing or unreadable dns.json refuses every change. */
  lemma DnsChangesNeedFile(file: Option<Stored<DnsDoc>>, t: string, id: string, data: Record, now: string)
    requires !(file.Some? && file.value.Loaded?)
    ensures DnsAddResult(file, t, data, now).None?
    ensures DnsUpdateResult(file, t, id, data, now).None?
    ensures DnsDeleteResult(file, t, id, now).None?
  {
  }

  /** `get_dns_records`: `{"records": {}}` for a missing or unreadable file, the whole document for no (or an empty) type, otherwise that type alone. */
  lemma GetDnsResultSpec(file: Option<Stored<DnsDoc>>, t: Option<string>)
    ensures !(file.Some? && file.value.Loaded?) ==> GetDnsResult(file, t) == RecordsOnly([])
    ensures file.Some? && file.value.Loaded? && (t == None || t == Some("")) ==>
      GetDnsResult(file, t) == WholeDoc(file.value.doc)
    ensures file.Some? && file.value.Loaded? && t.Some? && t.value != "" ==>
      var doc := file.value.doc;
      GetDnsResult(file, t) == RecordsOnly([(t.value, if t.value in Keys(doc.records) then Find(doc.records, t.value).value else [])])
  {
  }

  /** A missing or unreadable data.json, or a type that is not yet a key, makes update and delete return False. */
  lemma DataChangesNeedFileAndType(file: Option<Stored<Records>>, t: string, id: string, patch: Record, now: string)
    requires !(file.Some? && file.value.Loaded?) || t !in Keys(file.value.doc)
    ensures UpdateRecordResult(file, t, id, patch, now).None?
    ensures DeleteRecordResult(file, t, id).None?
  {
  }

  /** Every record of every type carries an `id`. */
  predicate AllHaveIds(records: Records) {
    forall i, j :: 0 <= i < |records| && 0 <= j < |records[i].1| ==> "id" in records[i].1[j]
  }

  lemma {:induction false} AllHaveIdsFind(records: Records, t: string)
    requires AllHaveIds(records)
    ensures forall r :: r in ListOf(records, t) ==> "id" in r
  {
    if records != [] && records[0].0 != t {
      assert AllHaveIds(records[1..]) by {
        forall i, j | 0 <= i < |records[1..]| && 0 <= j < |records[1..][i].1| ensures "id" in records[1..][i].1[j] {
          assert records[1..][i] == records[i + 1];
        }
      }
      AllHaveIdsFind(records[1..], t);
    } else if records != [] {
      assert forall j :: 0 <= j < |records[0].1| ==> "id" in records[0].1[j];
    }
  }

  lemma {:induction false} AllHaveIdsPut(records: Records, t: string, list: seq<Record>)
    requires AllHaveIds(records) && forall r :: r in list ==> "id" in r
    ensures AllHaveIds(Put(records, t, list))
  {
    if records != [] && records[0].0 != t {
      assert AllHaveIds(records[1..]) by {
        forall i, j | 0 <= i < |records[1..]| && 0 <= j < |records[1..][i].1| ensures "id" in records[1..][i].1[j] {
          assert records[1..][i] == records[i + 1];
        }
      }
      AllHaveIdsPut(records[1..], t, list);
      var r := Put(records, t, list);
      assert r == [records[0]] + Put(records[1..], t, list);
      forall i, j | 0 <= i < |r| && 0 <= j < |r[i].1| ensures "id" in r[i].1[j] {
        if i > 0 { assert r[i] == Put(records[1..], t, list)[i - 1]; }
      }
    } else if records != [] {
      var r := Put(records, t, list);
      forall i, j | 0 <= i < |r| && 0 <= j < |r[i].1| ensures "id" in r[i].1[j] {
        if i == 0 { assert r[0].1 == list && r[0].1[j] in list; } else { assert r[i] == records[i]; }
      }
    }
  }

  /** The documents this store writes keep an `id` on every DNS record, so a push only ever updates. */
  lemma DnsAddKeepsIds(doc: DnsDoc, t: string, data: Record, now: string)
    requires AllHaveIds(doc.records) && DnsAddResult(Some(Loaded(doc)), t, data, now).Some?
    ensures AllHaveIds(DnsAddResult(Some(Loaded(doc)), t, data, now).value.records)
  {
    var rs := ListOf(doc.records, t);
    AllHaveIdsFind(doc.records, t);
    AllHaveIdsPut(doc.records, t, rs + [Stamped(data, |rs| + 1, now)]);
  }

  lemma DnsUpdateKeepsIds(doc: DnsDoc, t: string, id: string, patch: Record, now: string)
    requires AllHaveIds(doc.records) && DnsUpdateResult(Some(Loaded(doc)), t, id, patch, now).Some?
    ensures AllHaveIds(DnsUpdateResult(Some(Loaded(doc)), t, id, patch, now).value.records)
  {
    var rs := ListOf(doc.records, t);
    AllHaveIdsFind(doc.records, t);
    UpdateFirstKeepsIds(rs, id, patch, now);
    AllHaveIdsPut(doc.records, t, UpdateFirst(rs, id, patch, now).value);
  }

  lemma DnsDeleteKeepsIds(doc: DnsDoc, t: string, id: string, now: string)
    requires AllHaveIds(doc.records) && DnsDeleteResult(Some(Loaded(doc)), t, id, now).Some?
    ensures AllHaveIds(DnsDeleteResult(Some(Loaded(doc)), t, id, now).value.records)
  {
    var rs := ListOf(doc.records, t);
    WithoutSpec(rs, id);
    AllHaveIdsPut(doc.records, t, Without(rs, id).value);
  }

  lemma {:induction false} UpdateFirstKeepsIds(rs: seq<Record>, id: string, patch: Record, now: string)
    requires forall r :: r in rs ==> "id" in r
    requires UpdateFirst(rs, id, patch, now).Some?
    ensures forall r :: r in UpdateFirst(rs, id, patch, now).value ==> "id" in r
  {
    if rs != [] && !HasId(rs[0], id) {
      UpdateFirstKeepsIds(rs[1..], id, patch, now);
    }
  }

  lemma DefaultDnsShape(now: string)
    ensures Keys(DefaultDns(now).records) == DnsTypes && DefaultDns(now).lastUpdated == now
    ensures forall t :: t in DnsTypes ==> ListOf(DefaultDns(now).records, t) == []
    ensures AllHaveIds(DefaultDns(now).records)
  {
  }
}
