# min.rest domain tooling, modelled in Dafny

min.rest is a set of Python scripts that manage a workspace of website directories, one per
domain. This project models their local state handling and their request logic, and proves
properties about both:

- **Per-domain record stores** (`DomainManager` in `domain_manager.py`). Each domain has two
  JSON documents under `content/records/`:
  - `data.json` maps a record type to an ordered list of records;
  - `dns.json` is `{records: {A, CNAME, MX, TXT, NS → list}, last_updated}`.

  Both are changed by read-modify-write operations. `sync_dns_records` replaces `dns.json`
  with the hosts the DNS provider reports. `push_dns_records` sends one provider call per
  stored record.
- **The Namecheap client** (`scripts/namecheap_api.py`):
  - merging the credentials into the request parameters;
  - the ladder that classifies a reply, including the special error code 1011102;
  - turning the reply's XML elements into host and domain entries;
  - the naive SLD/TLD split;
  - the optional `MXPref` parameter.
- **Domain-name helpers**:
  - the `is_valid_domain` filter, which is copied into four scripts;
  - the SLD/TLD splitter of `setup_domain`, which knows about multi-label suffixes;
  - the first-two-labels `split_domain`;
  - the numbered `setHosts` parameters (`HostName1`, `TTL1`, …).
- **The scripted DNS runs**:
  - `setup_domain`: switch to the default name servers, fetch the hosts, send a fixed host list;
  - `setup_gmail_dns`: fetch the hosts, send the seven Gmail hosts, fetch again;
  - `ensure_domain_structure`.
- **The context splitter** (`extract_domain_context`). It reads a markdown list line by line
  and groups the lines under `### <icon> **<n>. <name>**` headers.
- **The site-directory check and repair** (`verify_repos.py`). They run over an abstract
  filesystem: a set of directories and a map from file paths to their text.
- **Enabling GitHub Pages** (`github_setup.py`). This covers the outcome of its GET, POST
  and PUT requests, and which repository name each URL uses.

## Modelling choices

- **JSON documents.** JSON objects whose order matters are ordered association lists
  (`Dicts.Dict`). This applies to the type lists of a record store, which a push walks in
  order, and to the dict the context splitter builds. Python's assignment to an existing key
  keeps the key's position, and `Dicts.Put` does the same. A record itself is a
  `map<string, Json.Value>`.
- **Files.** A document is absent, `Unreadable` (`json.load` raises, or the JSON is not of
  the expected shape), or `Loaded`.
  `create_domain` only touches `data.json`, so the file is empty. As a result, `add_record`
  on a freshly created domain fails. The model keeps this behaviour.
- **Exceptions.** An exception caught by the source becomes the `False` or empty result
  that the source returns. An exception that escapes becomes a `Result`/`Option` failure.
- **The Namecheap provider.** It is a function from the request parameters to the reply. For
  multi-step runs it is a function from the list of requests sent so far, so a later answer
  can depend on earlier requests. Every method that talks to the provider also returns the
  requests it sent.
- **The GitHub API.** It is a function from a request to a status code or a raised
  exception.
- **The clock.** Every operation reads it as one input string `now`. The source calls
  `datetime.now()` several times within one operation.

## Model

| member | source | states |
|---|---|---|
| `RecordStore.Stamped` | domain_manager.py:334-339 | The caller's fields are copied, then `id`, `created_at` and `updated_at` override them; no other key is added |
| `RecordStore.AppendedSpec` | domain_manager.py:329-341 | Exactly one record is appended at the end of the type's list, with id = old length + 1; every other type keeps its list; a new type is added last |
| `RecordStore.AddRecordSpec` | domain_manager.py:324-347 | add_record fails iff the file is unreadable (or missing with no directory to create it in); a missing file or type starts from empty |
| `RecordStore.GetRecordsSpec` | domain_manager.py:358-367 | get_records gives `{}` for a missing or unreadable file, the whole stored dict when the type is None or empty, and otherwise the type's list, `[]` when the type is absent |
| `RecordStore.GetAfterAdd` | domain_manager.py:324-367 | A record just added is read back at the end of its type's list |
| `RecordStore.Patched` | domain_manager.py:390-391 | A patched record has the patch's keys and values, keeps the other keys, and its `updated_at` is always the new time |
| `RecordStore.UpdateFirstFails` | domain_manager.py:388-392 | The update loop raises iff it reaches a record without `id` before a match |
| `RecordStore.UpdateFirstMatch` | domain_manager.py:388-392 | Only the first record with the id is patched (the `break`); the records around it are unchanged |
| `RecordStore.UpdateFirstNoMatch` | domain_manager.py:388-398 | With no match the list comes back equal |
| `RecordStore.PatchFirst` | domain_manager.py:388-392 | The loop with its `break` computes the first-match update |
| `RecordStore.WithoutSpec` | domain_manager.py:419 | The comprehension raises iff a record lacks `id`; otherwise it keeps exactly the records whose id differs and changes nothing when none matches |
| `RecordStore.WithoutConcat` | domain_manager.py:419 | The comprehension works piecewise: on `a + b` it succeeds iff it succeeds on both, and keeps `a`'s survivors followed by `b`'s, so order and multiplicity are kept |
| `RecordStore.WithoutOne` | domain_manager.py:419 | One record is dropped iff its id matches, kept otherwise, and raises without an `id` |
| `RecordStore.WithoutIdempotent` | domain_manager.py:419 | Deleting an id twice equals deleting it once |
| `RecordStore.UpdateRecordSpec` | domain_manager.py:378-398 | update_record fails iff the scan raises; it keeps the type keys and other types, patches only the first match, and with no match leaves the document equal |
| `RecordStore.DeleteRecordSpec` | domain_manager.py:409-425 | delete_record fails iff a record lacks `id`; the type's new list is the comprehension's result (`WithoutConcat`: the other records in their order); it keeps the type keys and other types; a second delete changes nothing |
| `RecordStore.DataChangesNeedFileAndType` | domain_manager.py:378-417 | update_record and delete_record return False without writing for a missing or unreadable data.json or a type that is not a key |
| `RecordStore.DuplicateIdAfterDelete` | domain_manager.py:336-419 | Ids come from the list length: deleting "1" from ids 1, 2 and adding again gives two records with id "2" |
| `RecordStore.EmptyDnsRecords` | domain_manager.py:117-130 | The initial DNS document has exactly the keys A, CNAME, MX, TXT, NS, each with an empty list |
| `RecordStore.DefaultDnsShape` | domain_manager.py:117-130 | The default dns.json has the five empty types, every record has an id, and `last_updated` is the creation time |
| `RecordStore.DnsChangesKeepTypes` | domain_manager.py:456-545 | DNS add/update/delete succeed only for a type that is already a key; success keeps the type keys and resets `last_updated`, even with no match |
| `RecordStore.GetDnsResultSpec` | domain_manager.py:430-448 | get_dns_records gives `{"records": {}}` for a missing or unreadable dns.json, the whole document when the type is None or empty, and otherwise `{"records": {type: list}}`, with `[]` for an absent type |
| `RecordStore.DnsChangesNeedFile` | domain_manager.py:456-463 | A missing or unreadable dns.json refuses add, update and delete |
| `RecordStore.DnsAddKeepsIds` | domain_manager.py:466-473 | An add keeps every DNS record carrying an `id` |
| `RecordStore.DnsUpdateKeepsIds` | domain_manager.py:499-506 | An update keeps every DNS record carrying an `id` |
| `RecordStore.DnsDeleteKeepsIds` | domain_manager.py:531-537 | A delete keeps every DNS record carrying an `id` |
| `DnsSync.Converted` | domain_manager.py:575-582 | A provider host becomes a six-key record with `id = host_id`, `value = address` and `ttl = int(ttl)`, and fails iff its TTL is not an integer |
| `DnsSync.ConvertAllSpec` | domain_manager.py:572-582 | Converting a host list gives one record per host, in order |
| `DnsSync.PulledFails` | domain_manager.py:572-582 | A pull fails iff some host of one of the five types has no integer TTL |
| `DnsSync.PulledContents` | domain_manager.py:561-582 | A pull writes exactly the five types, each holding its own hosts in provider order; other types (and `mx_pref`) are dropped |
| `DnsSync.PulledRecordsComplete` | domain_manager.py:575-582 | Every pulled record has exactly the keys id, name, value, ttl, created_at, updated_at |
| `DnsSync.PulledAllSynced` | domain_manager.py:572-582 | Every record of every type of a successful pull has exactly the six synced keys |
| `DnsSync.PulledStaysFailed` | domain_manager.py:572-582 | Once a prefix of the hosts fails to convert, the whole pull fails |
| `DnsSync.BuildFromHosts` | domain_manager.py:561-582 | The sync loop builds the pulled document |
| `DnsSync.CallFor` | domain_manager.py:609-625 | A stored record gives an update iff it has an `id`, else an add, carrying its type, name, value and ttl; it raises iff name, value or ttl is missing |
| `DnsSync.Plan` | domain_manager.py:607-625 | The walk issues one call per record, in type then list order, and stops at the first record that raises |
| `DnsSync.PlanCompleteIff` | domain_manager.py:607-627 | The push walks every record iff every record has name, value and ttl |
| `DnsSync.ItemsFromEntries` | domain_manager.py:607-608 | Every visited (type, record) pair is a record stored under that type |
| `DnsSync.SyncThenPushOnlyUpdates` | domain_manager.py:547-627 | After a sync, a push walks every record and issues only updates carrying the provider's host id |
| `DnsSync.PushSendsNoPreference` | domain_manager.py:610-625 | A push never sends `MXPref`, not even for MX records |
| `DnsSync.PushReturnsIff` | domain_manager.py:607-627 | For a dotted name, a push returns True iff every record has name, value and ttl, whatever the provider answers |
| `DnsSync.PlanStopsAt` | domain_manager.py:607-625 | The walk stops exactly at the first record that cannot be sent, after the calls before it |
| `DnsSync.PlanAllSent` | domain_manager.py:607-625 | A walk over sendable records sends a call for each of them |
| `DnsSync.SentAbort` | domain_manager.py:607-630 | A walk stopped early has sent exactly the push's calls and returns False |
| `DnsSync.SentAll` | domain_manager.py:607-627 | A walk that reached the end has sent exactly the push's calls and returns True |
| `DomainManagement.SendRecord` | domain_manager.py:609-625 | One push call sends the update or add request for the record, or nothing when the name has no dot |
| `DomainManagement.DomainManager.constructor` | domain_manager.py:11-21 | The provider client exists iff the configuration is non-empty, built from its four credentials (absent ones are None) |
| `DomainManagement.DomainManager.CreateDomain` | domain_manager.py:47-68 | Refuses an existing domain; otherwise creates the directories, an empty data.json and the default dns.json |
| `DomainManagement.DomainManager.AddRecord` | domain_manager.py:317-350 | data.json becomes the add result on success and is untouched on failure; nothing else changes |
| `DomainManagement.DomainManager.GetRecords` | domain_manager.py:352-370 | Returns the get_records view of data.json |
| `DomainManagement.DomainManager.UpdateRecord` | domain_manager.py:372-401 | data.json becomes the update result on success, untouched on failure; nothing else changes |
| `DomainManagement.DomainManager.DeleteRecord` | domain_manager.py:403-428 | data.json becomes the delete result on success, untouched on failure; nothing else changes |
| `DomainManagement.DomainManager.GetDnsRecords` | domain_manager.py:430-448 | Returns the get_dns_records view of the stored dns.json, whose three cases `RecordStore.GetDnsResultSpec` states |
| `DomainManagement.DomainManager.AddDnsRecord` | domain_manager.py:450-482 | dns.json becomes the DNS add result on success, untouched on failure; nothing else changes |
| `DomainManagement.DomainManager.UpdateDnsRecord` | domain_manager.py:484-514 | dns.json becomes the DNS update result on success, untouched on failure; nothing else changes |
| `DomainManagement.DomainManager.DeleteDnsRecord` | domain_manager.py:516-545 | dns.json becomes the DNS delete result on success, untouched on failure; nothing else changes |
| `DomainManagement.DomainManager.SyncDnsRecords` | domain_manager.py:547-590 | Returns False with no provider, a failed fetch, a bad TTL or no records directory, leaving dns.json untouched; otherwise dns.json is replaced by the pulled document |
| `DomainManagement.DomainManager.PushDnsRecords` | domain_manager.py:592-630 | Returns False and sends nothing without a provider or a readable dns.json; otherwise sends the walk's requests in order and returns the walk's verdict, never a provider reply |
| `NamecheapApi.ParseHosts` | scripts/namecheap_api.py:114-126 | One six-field host per `host` element, in document order, with the attributes copied verbatim |
| `NamecheapApi.ParseDomains` | scripts/namecheap_api.py:128-137 | One entry per `Domain` element; `is_locked` iff the attribute is exactly "true" |
| `NamecheapApi.ParseResponse` | scripts/namecheap_api.py:95-112 | The parse computes the response that `NamecheapApi.ResponseOfSpec` characterises |
| `NamecheapApi.ResponseOfSpec` | scripts/namecheap_api.py:95-112 | `hosts` is present iff CommandResponse has a hosts-result child, and then holds that element's hosts; `domains` likewise for the list-result child |
| `NamecheapApi.AuthParams` | scripts/namecheap_api.py:27-33 | The authentication parameters are exactly ApiUser, ApiKey, UserName, ClientIp and Command |
| `NamecheapApi.WithAuth` | scripts/namecheap_api.py:27-33 | The five auth keys override the caller's values; every other caller key keeps its value |
| `NamecheapApi.MakeRequest` | scripts/namecheap_api.py:22-93 | Sends the merged parameters and returns the classification of the reply |
| `NamecheapApi.ErrorStatusAlwaysFails` | scripts/namecheap_api.py:66-78 | A Status ERROR root always fails, and the message starts with "Unexpected error: " |
| `NamecheapApi.SuccessIff` | scripts/namecheap_api.py:43-83 | A reply succeeds iff it is a non-4xx/5xx answer with well-formed XML whose Status is not ERROR, and then it is the parsed response |
| `NamecheapApi.InvalidKeyWrapped` | scripts/namecheap_api.py:66-93 | The invalid-key text of error 1011102 reaches the caller only as a substring of the re-wrapped message |
| `NamecheapApi.InvalidKeyDistinguishable` | scripts/namecheap_api.py:66-93 | A failed reply has the wrapped invalid-key message iff it is an error-1011102 reply |
| `NamecheapApi.GetDnsRecords` | scripts/namecheap_api.py:139-146 | Sends getHosts for the first two labels and returns the hosts, or `[]` without a hosts result; a dotless name raises |
| `NamecheapApi.GetDomains` | scripts/namecheap_api.py:208-211 | Sends getList and returns the domains, or `[]` without a list result |
| `NamecheapApi.HostParamsShape` | scripts/namecheap_api.py:151-161 | `MXPref` is sent iff the type is MX and a preference is given; HostId iff updating; the other fields as given |
| `NamecheapApi.AddDnsRecord` | scripts/namecheap_api.py:148-168 | A dotless name raises before sending; otherwise one setHosts request is sent and the result is whether it succeeded |
| `NamecheapApi.UpdateDnsRecord` | scripts/namecheap_api.py:170-191 | As add, with the HostId parameter |
| `NamecheapApi.DeleteDnsRecord` | scripts/namecheap_api.py:193-206 | One delHost request with SLD, TLD and HostId; the result is whether it succeeded |
| `DomainNames.ValidDomainCharacterized` | scripts/setup_domains.py:73-92 | The filter accepts exactly the names that do not start with '.', contain a '.', and are not `NewAgeWeb.it.com` |
| `DomainNames.InvalidDirsAreDotless` | github_setup.py:34-40 | No listed directory name has a dot, so that check can never reject a name the dot check let through |
| `DomainNames.KeptDomainIsCaseSensitive` | verify_repos.py:47-49 | Among the spellings that equal the kept domain up to ASCII case, the filter rejects exactly `NewAgeWeb.it.com` and accepts every other, e.g. `newageweb.it.com` |
| `DomainNames.TwoLabelsIffDot` | scripts/setup_domains.py:138-141 | The split has at least two labels iff the name contains a dot |
| `DomainNames.SplitSldTldRoundTrip` | scripts/setup_domains.py:138-149 | The split succeeds iff the name has a dot, and then `sld + "." + tld` is the name |
| `DomainNames.SplitSldTldNonEmpty` | scripts/setup_domains.py:144-149 | With no leading or trailing dot, neither part is empty |
| `DomainNames.TrailingDotGivesEmptyTld` | scripts/setup_domains.py:147-149 | A trailing dot gives an empty TLD |
| `DomainNames.SplitSldTldTwoLabels` | scripts/setup_domains.py:147-149 | A two-label name splits at its dot |
| `DomainNames.SplitSldTldThreeLabels` | scripts/setup_domains.py:144-149 | A three-label name keeps its first label as SLD, whatever the middle label |
| `DomainNames.SplitSldTldFourLabels` | scripts/setup_domains.py:144-146 | In a four-label name a known second-to-last label goes with the last into the TLD |
| `DomainNames.FirstTwoLabelsSpec` | scripts/namecheap_api.py:141-144 | The naive split fails exactly on dotless names; both labels are dot-free, and `sld.tld` is a prefix of the name ending at a dot or at the end, the whole name iff it has one dot |
| `DomainNames.FirstTwoLabelsDropsLabels` | scripts/namecheap_api.py:173-175 | For `a.b.c` the naive split gives SLD a, TLD b |
| `GmailDns.SplitDomain` | scripts/setup_gmail_dns.py:11-16 | split_domain fails iff there is no dot; otherwise it gives the first two labels: both dot-free, and `sld.tld` is a prefix of the name ending at a dot or at the end |
| `NumberedHosts.NumberedKeys` | scripts/setup_gmail_dns.py:104-107 | The parameter names are exactly each field name followed by its host's 1-based number |
| `NumberedHosts.NumberedLookup` | scripts/setup_gmail_dns.py:104-107 | Field j of host i is sent as `<field><i+1>` with its own value |
| `NumberedHosts.NumberedCount` | scripts/setup_gmail_dns.py:104-107 | With digit-free, distinct field names no two fields collide: one parameter per field |
| `NumberedHosts.BaseDisjoint` | scripts/setup_gmail_dns.py:99-107 | SLD and TLD never collide with a numbered parameter |
| `NumberedHosts.Flatten` | scripts/setup_gmail_dns.py:99-107 | The nested loop produces SLD, TLD and the numbered parameters |
| `GmailDns.GmailFieldSent` | scripts/setup_gmail_dns.py:45-107 | Every field of the seven hosts is sent under its numbered name with its value |
| `GmailDns.GmailParamCount` | scripts/setup_gmail_dns.py:45-107 | The request carries 35 parameters: 2 + 5·5 + 2·4 |
| `GmailDns.GmailPreferences` | scripts/setup_gmail_dns.py:45-96 | Exactly hosts 1 to 5 carry `MXPref`, in order 1, 5, 5, 10, 10 |
| `GmailDns.TxtHostsHaveNoPreference` | scripts/setup_gmail_dns.py:82-95 | The two TXT hosts have no preference field |
| `GmailDns.NoPreferenceBeyondMx` | scripts/setup_gmail_dns.py:45-107 | No `MXPref` parameter is sent for a host numbered above 5 |
| `GmailDns.ReplaceHosts` | scripts/setup_gmail_dns.py:36-124 | Fetch; setHosts only if the fetch succeeded; fetch again only if setHosts succeeded; each outcome recorded |
| `GmailDns.SetupGmailDns` | scripts/setup_gmail_dns.py:18-124 | A dotless name raises before anything is sent; otherwise the run above with the seven Gmail hosts |
| `SetupDomains.BuildNewRecords` | scripts/setup_domains.py:168-204 | The host list: four A hosts with the Pages addresses in order, the CNAME, the two MX hosts and the TXT host |
| `SetupDomains.MailPreferences` | scripts/setup_domains.py:189-196 | The forwarding hosts carry preferences "10" and "20" and TTL "1800" |
| `SetupDomains.NewRecordsStartWithPagesHosts` | scripts/setup_domains.py:171-186 | The built list starts with exactly the five hosts the request carries |
| `SetupDomains.PagesParamsAreNumbered` | scripts/setup_domains.py:207-231 | The written-out parameter literal is exactly SLD, TLD and the numbered form of the first five built hosts |
| `SetupDomains.PagesParamCount` | scripts/setup_domains.py:207-231 | The request carries 22 parameters |
| `SetupDomains.PagesHostsSent` | scripts/setup_domains.py:208-231 | Hosts 1 to 4 carry the Pages addresses in order, host 5 the `www` CNAME, all with TTL 1800 |
| `SetupDomains.MailHostsNotSent` | scripts/setup_domains.py:168-234 | The MX and TXT hosts are built but never sent: no preference and no host beyond the fifth |
| `SetupDomains.SwitchFetchStore` | scripts/setup_domains.py:151-240 | setDefault, then getHosts for `sld.tld`, then setHosts; False at the first failure |
| `SetupDomains.SetupDomain` | scripts/setup_domains.py:121-244 | True without any request when DNS already serves; False for a dotless name; otherwise the three requests with the fixed literal |
| `SetupDomains.EnsuredDns` | scripts/setup_domains.py:56-71 | A default dns.json is written only where none exists; existing files are untouched |
| `SetupDomains.EnsureIdempotent` | scripts/setup_domains.py:56-71 | Ensuring twice equals ensuring once, whatever the clock |
| `SetupDomains.EnsureDomainStructure` | scripts/setup_domains.py:50-71 | The directories are created and dns.json becomes the ensured map; data.json is untouched |
| `ContextTransfer.HeaderName` | context_transfer.py:15-19 | A matched header name has no `*` and no surrounding white space |
| `ContextTransfer.WellFormedHeader` | context_transfer.py:14-15 | A line `### <tag> **<n>. <name>**` is a header for exactly that name |
| `ContextTransfer.ExtractDomainContext` | context_transfer.py:5-28 | The loop and the final flush compute the context dict |
| `ContextTransfer.NoHeaderNoContext` | scripts/context_transfer.py:7-28 | Input without a header line gives an empty dict |
| `ContextTransfer.PrefixDiscarded` | context_transfer.py:13-22 | The lines before the first header are discarded |
| `ContextTransfer.PrefixDiscardedText` | scripts/context_transfer.py:13-22 | The same for the text: the result is that of the lines from the first header on |
| `ContextTransfer.ContextEmptyIff` | context_transfer.py:17-26 | The dict is empty iff no header carries a non-empty name |
| `ContextTransfer.GroupRun` | scripts/context_transfer.py:15-22 | A header opens a group holding itself, and the following non-header lines join it |
| `ContextTransfer.OneGroup` | context_transfer.py:15-26 | One group gives one entry: its name and its lines joined by newlines, flushed after the loop |
| `ContextTransfer.TwoGroups` | scripts/context_transfer.py:17-19 | Two groups with different names give two entries in order; with the same name the second text overwrites the first in place |
| `ContextTransfer.Reconstruction` | context_transfer.py:12-26 | With distinct non-empty names, joining the values in order gives back the lines from the first header on |
| `ContextTransfer.ReconstructionText` | scripts/context_transfer.py:12-26 | The same for the text: the input with the part before the first header line cut off |
| `RepoStructure.VerifyDomainStructure` | verify_repos.py:53-90 | Reports existence of each required file and directory in order; overall is False iff a file is missing, a directory is missing or not a directory, or CNAME mismatches; a CNAME directory raises |
| `RepoStructure.Workspace.CreateFileIfMissing` | verify_repos.py:103-107 | A file is written only if nothing exists at that path |
| `RepoStructure.Workspace.Repair` | verify_repos.py:96-169 | The directory loop, then the four conditional writes, give the update's tree and outcome |
| `RepoStructure.Workspace.UpdateDomainStructure` | verify_repos.py:92-169 | The repair with the README, .gitignore and template texts of the source |
| `RepoStructure.MakeDirsSpec` | verify_repos.py:96-100 | The directory loop only adds directories and fails iff the domain directory is missing or a required name is a file |
| `RepoStructure.MakeDirsIdempotent` | verify_repos.py:96-100 | Running the directory loop on its own result changes nothing |
| `RepoStructure.SeededSpec` | verify_repos.py:102-169 | The four file steps keep every file and directory and create only the four files that were missing, CNAME holding the domain |
| `RepoStructure.SeededAgain` | verify_repos.py:102-169 | Creating the four files a second time changes nothing, whatever texts it would write |
| `RepoStructure.UpdatedSpec` | verify_repos.py:92-169 | An update never overwrites a file, creates every required directory and the four files, and a CNAME it creates holds the domain |
| `RepoStructure.UpdateIdempotent` | verify_repos.py:96-169 | A second update leaves the filesystem as the first left it |
| `RepoStructure.RepairedFiles` | verify_repos.py:102-169 | After an update a required file exists iff it is not one of the four pages or it existed before |
| `RepoStructure.RepairedCname` | verify_repos.py:102-107 | An existing CNAME keeps its text; a missing one gets the domain |
| `RepoStructure.ReverifyAfterUpdate` | verify_repos.py:217-229 | After an update the structure predicate holds iff the four pages existed before and CNAME names the domain or is a directory; in the directory case the check itself raises (`VerifyDomainStructure` returns None) |
| `RepoStructure.MissingPageStaysMissing` | verify_repos.py:15-24 | A missing HTML page is never created, so the check still fails after an update |
| `GithubPages.EnableGithubPages` | github_setup.py:121-181 | GET 200 gives True with nothing else sent; a raise gives False; otherwise POST, and only 201/204 leads to a PUT, after which the result is True unless the PUT raised |
| `GithubPages.RemoteUrlNamesDomain` | scripts/github_setup.py:75-80 | The remote `git_commands` adds ends in `/<domain>.git`, with the domain as given |
| `GithubPages.PagesRepoIsCreatedRepoIff` | scripts/github_setup.py:95-130 | The Pages URL names the created repository iff the domain has no upper-case ASCII letter |
| `GithubPages.PagesUrlIgnoresCase` | github_setup.py:129-134 | The Pages URL depends only on the lower-cased domain |

## Left out

- HTTP transport, XML parsing and JSON (de)serialisation are not modelled. Replies are
  given as an already-parsed element tree, or as a marker that the body is malformed.
  Documents are values; `json.dump` formatting and the escaping of the domain inside
  `config.template.json` are not modelled.
- `NamecheapApi.ParseDomains`: `expires` is kept as the raw attribute. The source converts
  it with `strptime`, and a missing or unparsable date raises, which fails the whole request.
  The model does not capture that failure.
- `DnsSync.Converted`: `int()` accepts an optional sign and ASCII digits only. Python also
  accepts surrounding white space, underscores between digits and non-ASCII digits.
- `Strings.Lower`: only ASCII letters are lower-cased. Python's `str.lower` also folds
  other Unicode letters.
- `NamecheapApi.WithAuth`: `_make_request` updates the caller's `params` dict in place; the
  model returns the merged map instead. No modelled caller reads its dict after the call.
- The sandbox flag of the provider client selects only the base URL, which is not modelled.
- Logging, `time.sleep`, and the timing of requests are not modelled.
- Concurrent access to the JSON files is not modelled.
- The delete_domain, list_domains, update_context, add_asset and create_domain_template
  parts of `DomainManager` are not modelled, and neither is `main`. They are outside the
  record-store core.
- The local read inside sync_dns_records is not modelled: it is discarded and cannot raise.
- `DomainManagement.DomainManager.CreateDomain` takes the domain path to exist only when it
  is a domain directory. A plain file of that name is not modelled.
- The directory structure of create_domain below `content/records` is not modelled. The
  model tracks only the records directory and its two documents.
- `SetupDomains.SetupDomain` does not model `check_github_pages_status`. Its result is only
  logged.
- `check_dns_records` is an input (`dnsServed`), because it is an HTTP probe.
- `git_commands`, `verify_site_access` and the main loops of `github_setup.py` and
  `verify_repos.py` are not modelled. They drive git subprocesses and HTTP calls. Only the
  repository names that `git_commands` uses appear, as `GithubPages.RemoteUrl` and
  `GithubPages.CreateRepoBody`.
- The GitHub token header is the same on every request and is not modelled.
- `RepoStructure.Workspace.Repair` covers `mkdir` failures for a missing domain directory and
  for a required name taken by a file. Other operating-system errors (permissions, a full
  disk) are not modelled.
- The `ensure_directory_structure`, `write_context_file` and `main` functions of
  `context_transfer.py` are not modelled. They are file I/O around `extract_domain_context`.
- `ContextTransfer.HeaderName` models the header regular expression by hand. Its `\d` is
  taken as the ASCII digits 0-9; Python's `\d` in a str pattern also matches other Unicode
  decimal digits, such as the Arabic-Indic `١`, so such a header is not recognised.
- Documents of another shape: `Unreadable` also stands for well-formed JSON of the wrong
  shape, such as a top-level list or a type mapped to a non-list. `json.load` accepts those,
  and get_records with no type returns such a document as it is, where the model gives `{}`.
