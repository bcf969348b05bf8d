/**
 * `extract_domain_context`: a markdown domain list is cut into one text per domain. A header
 * line of the form `### <tag> **<n>. <Name>**` opens the group of `<Name>`; the lines after it
 * join that group until the next header; lines before the first header are dropped. Each
 * group's text is its lines joined by newlines, and the result is a dict in insertion order.
 */
module ContextTransfer {
  import opened Wrappers
  import opened Strings
  import opened Dicts

  /** End of the maximal run of non-space characters that starts at `i`. */
  function NonSpaceEnd(s: string, i: nat): (r: nat)
    requires i <= |s|
    ensures i <= r <= |s|
    ensures forall k :: i <= k < r ==> !IsSpace(s[k])
    ensures r == |s| || IsSpace(s[r])
    decreases |s| - i
  {
    if i < |s| && !IsSpace(s[i]) then NonSpaceEnd(s, i + 1) else i
  }

  /** End of the maximal run of decimal digits that starts at `i`. */
  function DigitEnd(s: string, i: nat): (r: nat)
    requires i <= |s|
    ensures i <= r <= |s|
    ensures forall k :: i <= k < r ==> IsDigit(s[k])
    ensures r == |s| || !IsDigit(s[r])
    decreases |s| - i
  {
    if i < |s| && IsDigit(s[i]) then DigitEnd(s, i + 1) else i
  }

  /** Stripping only removes characters. */
  lemma StripKeepsChars(s: string, c: char)
    requires c !in s
    ensures c !in Strip(s)
  {
    var l := StripLeft(s);
    assert l == s[|s| - |l|..];
    assert StripRight(l) <= l;
  }

  /** The line starts with `###`. */
  predicate StartsWithHashes(line: string) {
    |line| >= 3 && line[0] == '#' && line[1] == '#' && line[2] == '#'
  }

  /**
   * The stripped second group of `###\s+[^\s]+\s+\*\*(\d+\.\s+([^\*]+))\*\*` matched at the start
   * of `line`, or None when the pattern does not match. Every run before the group is forced
   * to be maximal by the character class that follows it, so the match is unique up to how
   * much white space the group starts with, which stripping removes: the group is taken to
   * start right after the one required space and to end at the first `*`, which must be
   * followed by a second `*`.
   */
  function HeaderName(line: string): (r: Option<string>)
    ensures r.Some? ==> StartsWithHashes(line)
    ensures r.Some? ==> '*' !in r.value
    ensures r.Some? ==> |r.value| == 0 || (!IsSpace(r.value[0]) && !IsSpace(r.value[|r.value| - 1]))
  {
    if !StartsWithHashes(line) then None else TagName(line, SpaceEnd(line, 3))
  }

  /** `[^\s]+\s+\*\*...` from index `a`, where the white space after `###` ends; it needs some. */
  function TagName(line: string, a: nat): (r: Option<string>)
    requires 3 <= a <= |line|
    ensures r.Some? ==> '*' !in r.value
    ensures r.Some? ==> |r.value| == 0 || (!IsSpace(r.value[0]) && !IsSpace(r.value[|r.value| - 1]))
  {
    if a == 3 then None else MarkedName(line, a, NonSpaceEnd(line, a))
  }

  /** `\s+\*\*...` from index `b`, where the tag from `a` ends; the tag must not be empty. */
  function MarkedName(line: string, a: nat, b: nat): (r: Option<string>)
    requires a <= b <= |line|
    ensures r.Some? ==> '*' !in r.value
    ensures r.Some? ==> |r.value| == 0 || (!IsSpace(r.value[0]) && !IsSpace(r.value[|r.value| - 1]))
  {
    if b == a then None else OpenedName(line, b, SpaceEnd(line, b))
  }

  /** `\*\*...` from index `c`, where the white space from `b` ends; there must be some. */
  function OpenedName(line: string, b: nat, c: nat): (r: Option<string>)
    requires b <= c <= |line|
    ensures r.Some? ==> '*' !in r.value
    ensures r.Some? ==> |r.value| == 0 || (!IsSpace(r.value[0]) && !IsSpace(r.value[|r.value| - 1]))
  {
    if c == b || c + 2 > |line| || line[c] != '*' || line[c + 1] != '*' then None
    else NumberedName(line[c + 2..])
  }

  /** The part of the pattern after the opening `**`: `\d+\.\s+([^\*]+)\*\*` at the start of `t`. */
  function NumberedName(t: string): (r: Option<string>)
    ensures r.Some? ==> '*' !in r.value
    ensures r.Some? ==> |r.value| == 0 || (!IsSpace(r.value[0]) && !IsSpace(r.value[|r.value| - 1]))
  {
    DottedName(t, DigitEnd(t, 0))
  }

  /** `\.\s+([^\*]+)\*\*` from index `d`, where the leading digits of `t` end; there must be some. */
  function DottedName(t: string, d: nat): (r: Option<string>)
    requires d <= |t|
    ensures r.Some? ==> '*' !in r.value
    ensures r.Some? ==> |r.value| == 0 || (!IsSpace(r.value[0]) && !IsSpace(r.value[|r.value| - 1]))
  {
    if d == 0 || d + 1 >= |t| || t[d] != '.' || !IsSpace(t[d + 1]) then None
    else ClosedName(t[d + 2..])
  }

  /** End of the maximal run of characters other than `*` that starts at `i`. */
  function StarEnd(s: string, i: nat): (r: nat)
    requires i <= |s|
    ensures i <= r <= |s|
    ensures forall k :: i <= k < r ==> s[k] != '*'
    ensures r == |s| || s[r] == '*'
    decreases |s| - i
  {
    if i < |s| && s[i] != '*' then StarEnd(s, i + 1) else i
  }

  /** `([^\*]+)\*\*` at the start of `t`, after the one space the pattern requires; the name stripped. */
  function ClosedName(t: string): (r: Option<string>)
    ensures r.Some? ==> '*' !in r.value
    ensures r.Some? ==> |r.value| == 0 || (!IsSpace(r.value[0]) && !IsSpace(r.value[|r.value| - 1]))
  {
    var p := StarEnd(t, 0);
    if p == 0 || p + 1 >= |t| || t[p + 1] != '*' then None
    else
      assert '*' !in t[..p];
      StripKeepsChars(t[..p], '*');
      Some(Strip(t[..p]))
  }

  /** A string that starts and ends with something other than white space is its own strip. */
  lemma StripStripped(s: string)
    requires |s| >= 1 && !IsSpace(s[0]) && !IsSpace(s[|s| - 1])
    ensures Strip(s) == s
  {
    assert StripLeft(s) == s;
  }

  /**
   * A line `### <tag> **<number>. <name>**`, with a tag free of white space, a number of one or
   * more digits and a name without `*` and without white space at either end, is a header
   * for exactly that name.
   */
  lemma WellFormedHeader(line: string, b: nat, num: string, name: string)
    requires 4 < b && b + 3 <= |line| && StartsWithHashes(line) && line[3] == ' '
    requires forall k :: 4 <= k < b ==> !IsSpace(line[k])
    requires line[b] == ' ' && line[b + 1] == '*' && line[b + 2] == '*'
    requires line[b + 3..] == num + ". " + name + "**"
    requires |num| >= 1 && AllDigits(num)
    requires |name| >= 1 && '*' !in name && !IsSpace(name[0]) && !IsSpace(name[|name| - 1])
    ensures HeaderName(line) == Some(name)
  {
    OpenedNameOf(line[b + 3..], num, name);
    HeaderPrefix(line, b, name);
  }

  /** The part after `**`: digits, a dot, a space and a closed name. */
  lemma OpenedNameOf(rest: string, num: string, name: string)
    requires rest == num + ". " + name + "**"
    requires |num| >= 1 && AllDigits(num)
    requires |name| >= 1 && '*' !in name && !IsSpace(name[0]) && !IsSpace(name[|name| - 1])
    ensures NumberedName(rest) == Some(name)
  {
    var d := |num|;
    assert rest[d..] == ". " + name + "**";
    DottedNameOf(rest, d, name);
    assert DigitEnd(rest, 0) == d by {
      assert forall k :: 0 <= k < d ==> rest[k] == num[k];
      assert rest[d] == '.';
    }
  }

  /** `### <tag> **` in front of a numbered name leaves it as the header name. */
  lemma HeaderPrefix(line: string, b: nat, name: string)
    requires 4 < b && b + 3 <= |line| && StartsWithHashes(line) && line[3] == ' '
    requires forall k :: 4 <= k < b ==> !IsSpace(line[k])
    requires line[b] == ' ' && line[b + 1] == '*' && line[b + 2] == '*'
    requires NumberedName(line[b + 3..]) == Some(name)
    ensures HeaderName(line) == Some(name)
  {
    assert SpaceEnd(line, 3) == 4;
    assert NonSpaceEnd(line, 4) == b;
    assert SpaceEnd(line, b) == b + 1;
    HeaderAt(line, b, name);
  }

  /** The header name of a line whose runs end where the pattern needs them to. */
  lemma HeaderAt(line: string, b: nat, name: string)
    requires 4 < b && b + 3 <= |line| && StartsWithHashes(line)
    requires SpaceEnd(line, 3) == 4 && NonSpaceEnd(line, 4) == b && SpaceEnd(line, b) == b + 1
    requires line[b + 1] == '*' && line[b + 2] == '*' && NumberedName(line[b + 3..]) == Some(name)
    ensures HeaderName(line) == Some(name)
  {
  }

  /** A name without `*` followed by `**` closes the pattern. */
  lemma ClosedNameOf(name: string)
    requires |name| >= 1 && '*' !in name && !IsSpace(name[0]) && !IsSpace(name[|name| - 1])
    ensures ClosedName(name + "**") == Some(name)
  {
    var t := name + "**";
    assert t[|name|] == '*' && t[|name| + 1] == '*';
    assert StarEnd(t, 0) == |name| by {
      assert forall k :: 0 <= k < |name| ==> t[k] == name[k];
    }
    assert t[..|name|] == name;
    StripStripped(name);
  }

  /** A dot and a space, then a closed name. */
  lemma DottedNameOf(t: string, d: nat, name: string)
    requires 0 < d <= |t| && t[d..] == ". " + name + "**"
    requires |name| >= 1 && '*' !in name && !IsSpace(name[0]) && !IsSpace(name[|name| - 1])
    ensures DottedName(t, d) == Some(name)
  {
    ClosedNameOf(name);
    assert t[d + 2..] == name + "**";
    assert t[d] == '.' && t[d + 1] == ' ';
  }

  /** The header name of each line, in order. */
  function Headers(lines: seq<string>): (hs: seq<Option<string>>)
    ensures |hs| == |lines|
  {
    if lines == [] then [] else [HeaderName(lines[0])] + Headers(lines[1..])
  }

  /** Entry `i` of `Headers(lines)` is the header name of line `i`. */
  lemma {:induction false} HeadersAt(lines: seq<string>, i: nat)
    requires i < |lines|
    ensures Headers(lines)[i] == HeaderName(lines[i])
  {
    if i > 0 {
      HeadersAt(lines[1..], i - 1);
    }
  }

  /**
   * The loop's variables: the `domains` dict, `current_domain` and `current_content`. The
   * empty string stands for both None and "": the loop only tests `current_domain` for
   * truth, and both are false.
   */
  datatype State = State(domains: Dict<string>, current: string, content: seq<string>)

  const Start: State := State([], "", [])

  /** `domains` after `if current_domain and current_content: domains[current_domain] = '\n'.join(current_content)`. */
  function Flushed(st: State): Dict<string> {
    if st.current != "" && st.content != [] then Put(st.domains, st.current, Join(st.content, '\n'))
    else st.domains
  }

  /** One iteration of the loop, on a line whose header name (None: not a header) is `header`. */
  function Step(st: State, line: string, header: Option<string>): State {
    match header
    case Some(name) => State(Flushed(st), name, [line])
    case None => if st.current != "" then st.(content := st.content + [line]) else st
  }

  /** A left fold of `step` over the first `n` lines and their header names, from `st`. */
  function Fold(step: (State, string, Option<string>) -> State, st: State, lines: seq<string>, hs: seq<Option<string>>, n: nat): State
    requires |hs| == |lines| && n <= |lines|
  {
    if n == 0 then st else step(Fold(step, st, lines, hs, n - 1), lines[n - 1], hs[n - 1])
  }

  /** The loop over the first `n` lines, started in `st`; `hs` holds the lines' header names. */
  function RunFrom(st: State, lines: seq<string>, hs: seq<Option<string>>, n: nat): State
    requires |hs| == |lines| && n <= |lines|
  {
    Fold(Step, st, lines, hs, n)
  }

  /** The run over one more line takes one more step. */
  lemma RunStep(st: State, lines: seq<string>, hs: seq<Option<string>>, n: nat)
    requires |hs| == |lines| && n < |lines|
    ensures RunFrom(st, lines, hs, n + 1) == Step(RunFrom(st, lines, hs, n), lines[n], hs[n])
  {
  }

  /** The dict the loop and the final flush produce. */
  function ContextOf(lines: seq<string>, hs: seq<Option<string>>): Dict<string>
    requires |hs| == |lines|
  {
    Flushed(RunFrom(Start, lines, hs, |lines|))
  }

  /** What `extract_domain_context` returns for `text`. */
  function DomainContext(text: string): Dict<string> {
    var lines := Split(text, '\n');
    ContextOf(lines, Headers(lines))
  }

  /** `extract_domain_context(text)`. */
  method ExtractDomainContext(text: string) returns (domains: Dict<string>)
    ensures domains == DomainContext(text)
  {
    domains := [];
    var current := "";
    var content: seq<string> := [];
    var lines := Split(text, '\n');
    ghost var hs := Headers(lines);
    var i := 0;
    while i < |lines|
      invariant 0 <= i <= |lines|
      invariant State(domains, current, content) == RunFrom(Start, lines, hs, i)
    {
      var line := lines[i];
      HeadersAt(lines, i);
      match HeaderName(line) {
        case Some(name) =>
          if current != "" && content != [] {
            domains := Put(domains, current, Join(content, '\n'));
          }
          current := name;
          content := [line];
        case None =>
          if current != "" {
            content := content + [line];
          }
      }
      i := i + 1;
    }
    if current != "" && content != [] {
      domains := Put(domains, current, Join(content, '\n'));
    }
  }

  /** None of the lines `lo` to `hi` (exclusive) is a header. */
  predicate NoHeader(hs: seq<Option<string>>, lo: nat, hi: nat)
    requires lo <= hi <= |hs|
  {
    forall i :: lo <= i < hi ==> hs[i].None?
  }

  /** Every header names something. */
  predicate Named(hs: seq<Option<string>>) {
    forall i :: 0 <= i < |hs| && hs[i].Some? ==> hs[i].value != ""
  }

  /** No two headers carry the same name. */
  predicate DistinctNames(hs: seq<Option<string>>) {
    forall i, j :: 0 <= i < j < |hs| && hs[i].Some? && hs[j].Some? ==> hs[i].value != hs[j].value
  }

  /** Before the first header the loop changes nothing. */
  lemma {:induction false} NoHeaderRun(lines: seq<string>, hs: seq<Option<string>>, n: nat)
    requires |hs| == |lines| && n <= |lines| && NoHeader(hs, 0, n)
    ensures RunFrom(Start, lines, hs, n) == Start
  {
    if n > 0 {
      NoHeaderRun(lines, hs, n - 1);
    }
  }

  /** Input without a header line gives an empty dict. */
  lemma NoHeaderNoContext(text: string)
    requires var lines := Split(text, '\n'); NoHeader(Headers(lines), 0, |lines|)
    ensures DomainContext(text) == []
  {
    var lines := Split(text, '\n');
    NoHeaderRun(lines, Headers(lines), |lines|);
  }

  /** Folding on from where a fold over the first `h` lines stopped. */
  lemma {:induction false} FoldSplit(step: (State, string, Option<string>) -> State, st: State, lines: seq<string>, hs: seq<Option<string>>, h: nat, k: nat)
    requires |hs| == |lines| && h + k <= |lines|
    ensures Fold(step, st, lines, hs, h + k) == Fold(step, Fold(step, st, lines, hs, h), lines[h..], hs[h..], k)
  {
    if k > 0 {
      FoldSplit(step, st, lines, hs, h, k - 1);
      assert lines[h..][k - 1] == lines[h + k - 1];
      assert hs[h..][k - 1] == hs[h + k - 1];
    }
  }

  /** A fold over the first `n` lines does not look at the lines after them. */
  lemma {:induction false} FoldPrefix(step: (State, string, Option<string>) -> State, st: State, a: seq<string>, ha: seq<Option<string>>, b: seq<string>, hb: seq<Option<string>>, n: nat)
    requires |ha| == |a| && |hb| == |b| && n <= |a|
    ensures Fold(step, st, a + b, ha + hb, n) == Fold(step, st, a, ha, n)
  {
    if n > 0 {
      FoldPrefix(step, st, a, ha, b, hb, n - 1);
      assert (a + b)[n - 1] == a[n - 1];
      assert (ha + hb)[n - 1] == ha[n - 1];
    }
  }

  /** The lines before the first header are dropped: the result is that of the rest alone. */
  lemma PrefixDiscarded(lines: seq<string>, hs: seq<Option<string>>, h: nat)
    requires |hs| == |lines| && h <= |lines| && NoHeader(hs, 0, h)
    ensures ContextOf(lines, hs) == ContextOf(lines[h..], hs[h..])
  {
    var k := |lines| - h;
    FoldSplit(Step, Start, lines, hs, h, k);
    NoHeaderRun(lines, hs, h);
    assert |lines[h..]| == k && h + k == |lines|;
    assert RunFrom(Start, lines, hs, |lines|) == RunFrom(Start, lines[h..], hs[h..], k);
  }

  /** For the text: the lines before the first header line do not matter. */
  lemma PrefixDiscardedText(text: string, h: nat)
    requires var lines := Split(text, '\n'); h <= |lines| && NoHeader(Headers(lines), 0, h)
    ensures var lines := Split(text, '\n'); DomainContext(text) == ContextOf(lines[h..], Headers(lines)[h..])
  {
    var lines := Split(text, '\n');
    PrefixDiscarded(lines, Headers(lines), h);
  }

  /** While only headers with an empty name have been seen, nothing is stored and nothing is current. */
  lemma {:induction false} UnnamedRun(lines: seq<string>, hs: seq<Option<string>>, n: nat)
    requires |hs| == |lines| && n <= |lines|
    requires forall i :: 0 <= i < n && hs[i].Some? ==> hs[i].value == ""
    ensures RunFrom(Start, lines, hs, n).domains == [] && RunFrom(Start, lines, hs, n).current == ""
  {
    if n > 0 {
      UnnamedRun(lines, hs, n - 1);
    }
  }

  /** A flush never empties the dict. */
  lemma FlushedKeeps(st: State)
    ensures |Flushed(st)| >= |st.domains|
    ensures st.current != "" && st.content != [] ==> |Flushed(st)| >= 1
  {
    if st.current != "" && st.content != [] {
      var r := Put(st.domains, st.current, Join(st.content, '\n'));
      assert |Keys(r)| >= |Keys(st.domains)| && |Keys(r)| >= 1;
    }
  }

  /** Once a header with a name has been seen, something is stored or waits to be flushed. */
  lemma {:induction false} NamedRun(lines: seq<string>, hs: seq<Option<string>>, n: nat, i: nat)
    requires |hs| == |lines| && i < n <= |lines| && hs[i].Some? && hs[i].value != ""
    ensures var st := RunFrom(Start, lines, hs, n); st.domains != [] || (st.current != "" && st.content != [])
  {
    if i < n - 1 {
      NamedRun(lines, hs, n - 1, i);
      FlushedKeeps(RunFrom(Start, lines, hs, n - 1));
    }
  }

  /** The result is empty exactly when no header carries a name. */
  lemma ContextEmptyIff(lines: seq<string>, hs: seq<Option<string>>)
    requires |hs| == |lines|
    ensures ContextOf(lines, hs) == [] <==> forall i :: 0 <= i < |hs| && hs[i].Some? ==> hs[i].value == ""
  {
    if forall i :: 0 <= i < |hs| && hs[i].Some? ==> hs[i].value == "" {
      UnnamedRun(lines, hs, |lines|);
    } else {
      var i :| 0 <= i < |hs| && hs[i].Some? && hs[i].value != "";
      NamedRun(lines, hs, |lines|, i);
      FlushedKeeps(RunFrom(Start, lines, hs, |lines|));
    }
  }

  /** A group: a header with a name followed by lines that are not headers. */
  predicate Group(g: seq<string>, hs: seq<Option<string>>) {
    |g| >= 1 && |hs| == |g| && hs[0].Some? && hs[0].value != "" && NoHeader(hs, 1, |g|)
  }

  /** A header opens a group holding that header; the following non-header lines are appended to it. */
  lemma {:induction false} GroupRun(st: State, g: seq<string>, hs: seq<Option<string>>, n: nat)
    requires Group(g, hs) && 1 <= n <= |g|
    ensures RunFrom(st, g, hs, n) == State(Flushed(st), hs[0].value, g[..n])
  {
    RunStep(st, g, hs, n - 1);
    if n == 1 {
      assert g[..1] == [g[0]];
    } else {
      GroupRun(st, g, hs, n - 1);
      assert hs[n - 1].None?;
      assert g[..n] == g[..n - 1] + [g[n - 1]];
    }
  }

  /** One group yields one entry: its name and its lines joined by newlines. */
  lemma OneGroup(g: seq<string>, hs: seq<Option<string>>)
    requires Group(g, hs)
    ensures ContextOf(g, hs) == [(hs[0].value, Join(g, '\n'))]
  {
    GroupRun(Start, g, hs, |g|);
    assert g[..|g|] == g;
  }

  /** After two groups the first is stored and the second is current. */
  lemma TwoGroupsRun(g1: seq<string>, h1: seq<Option<string>>, g2: seq<string>, h2: seq<Option<string>>)
    requires Group(g1, h1) && Group(g2, h2)
    ensures RunFrom(Start, g1 + g2, h1 + h2, |g1 + g2|) == State([(h1[0].value, Join(g1, '\n'))], h2[0].value, g2)
  {
    var st1 := State([], h1[0].value, g1);
    assert RunFrom(Start, g1 + g2, h1 + h2, |g1|) == st1 by {
      FoldPrefix(Step, Start, g1, h1, g2, h2, |g1|);
      GroupRun(Start, g1, h1, |g1|);
      assert g1[..|g1|] == g1;
    }
    assert RunFrom(st1, g2, h2, |g2|) == State([(h1[0].value, Join(g1, '\n'))], h2[0].value, g2) by {
      GroupRun(st1, g2, h2, |g2|);
      assert g2[..|g2|] == g2;
    }
    FoldSplit(Step, Start, g1 + g2, h1 + h2, |g1|, |g2|);
    assert (g1 + g2)[|g1|..] == g2;
    assert (h1 + h2)[|g1|..] == h2;
  }

  /**
   * Two groups: with different names the dict holds both in order; with the same name the
   * second group's text replaces the first's in place.
   */
  lemma TwoGroups(g1: seq<string>, h1: seq<Option<string>>, g2: seq<string>, h2: seq<Option<string>>)
    requires Group(g1, h1) && Group(g2, h2)
    ensures var n1, n2 := h1[0].value, h2[0].value;
      ContextOf(g1 + g2, h1 + h2) ==
        if n1 == n2 then [(n2, Join(g2, '\n'))] else [(n1, Join(g1, '\n')), (n2, Join(g2, '\n'))]
  {
    var n1, n2 := h1[0].value, h2[0].value;
    var j1, j2 := Join(g1, '\n'), Join(g2, '\n');
    TwoGroupsRun(g1, h1, g2, h2);
    assert ContextOf(g1 + g2, h1 + h2) == Put([(n1, j1)], n2, j2);
    if n1 != n2 {
      assert Put([(n1, j1)], n2, j2) == [(n1, j1)] + Put([], n2, j2);
    }
  }

  /** Some header among the first `n` lines carries the name `k`. */
  ghost predicate NameBefore(hs: seq<Option<string>>, n: nat, k: string)
    requires n <= |hs|
  {
    exists i :: 0 <= i < n && hs[i] == Some(k)
  }

  /** What the loop keeps while it reads the first `n` lines, the first header being line `h`. */
  ghost predicate Tracks(lines: seq<string>, hs: seq<Option<string>>, h: nat, n: nat, st: State)
    requires |hs| == |lines| && h <= n <= |lines|
  {
    && st.current != "" && st.content != []
    && Distinct(Keys(st.domains)) && st.current !in Keys(st.domains)
    && (forall k :: k in Keys(st.domains) ==> NameBefore(hs, n, k))
    && NameBefore(hs, n, st.current)
    && Join(Values(st.domains) + [Join(st.content, '\n')], '\n') == Join(lines[h..n], '\n')
  }

  /** Replacing the last part of a join by an extension of it extends the join. */
  lemma JoinExtendLast(vs: seq<string>, x: string, y: string, sep: char)
    ensures Join(vs + [x + [sep] + y], sep) == Join(vs + [x], sep) + [sep] + y
  {
    if vs != [] {
      JoinAppend(vs, [x + [sep] + y], sep);
      JoinAppend(vs, [x], sep);
    }
  }

  /** A header's name does not occur among the earlier headers. */
  lemma FreshName(hs: seq<Option<string>>, n: nat, m: string)
    requires n < |hs| && DistinctNames(hs) && hs[n] == Some(m)
    ensures !NameBefore(hs, n, m)
  {
  }

  /** The names seen so far stay seen. */
  lemma NameBeforeGrows(hs: seq<Option<string>>, n: nat, k: string)
    requires n < |hs| && NameBefore(hs, n, k)
    ensures NameBefore(hs, n + 1, k)
  {
    var i :| 0 <= i < n && hs[i] == Some(k);
    assert 0 <= i < n + 1 && hs[i] == Some(k);
  }

  /** The first header opens the first group. */
  lemma TracksFirst(lines: seq<string>, hs: seq<Option<string>>, h: nat, n: nat)
    requires |hs| == |lines| && n == h + 1 <= |lines| && NoHeader(hs, 0, h) && hs[h].Some? && hs[h].value != ""
    ensures Tracks(lines, hs, h, n, RunFrom(Start, lines, hs, n))
  {
    NoHeaderRun(lines, hs, h);
    RunStep(Start, lines, hs, h);
    assert lines[h..h + 1] == [lines[h]];
    assert NameBefore(hs, h + 1, hs[h].value);
  }

  /** A header with a fresh name flushes the current group at the end of the dict and opens its own. */
  lemma TracksHeader(lines: seq<string>, hs: seq<Option<string>>, h: nat, n: nat, st: State, m: string)
    requires |hs| == |lines| && h < n < |lines| && Named(hs) && DistinctNames(hs) && hs[n] == Some(m)
    requires Tracks(lines, hs, h, n, st)
    ensures Tracks(lines, hs, h, n + 1, Step(st, lines[n], hs[n]))
  {
    var line := lines[n];
    var j := Join(st.content, '\n');
    PutNew(st.domains, st.current, j);
    PutKeepsDistinct(st.domains, st.current, j);
    var d := st.domains + [(st.current, j)];
    assert Step(st, line, hs[n]) == State(d, m, [line]);
    assert Values(d) == Values(st.domains) + [j];
    assert Keys(d) == Keys(st.domains) + [st.current];
    FreshName(hs, n, m);
    assert m !in Keys(d);
    forall k | k in Keys(d) ensures NameBefore(hs, n + 1, k) {
      NameBeforeGrows(hs, n, k);
    }
    assert NameBefore(hs, n + 1, m);
    assert lines[h..n + 1] == lines[h..n] + [line];
    JoinAppend(lines[h..n], [line], '\n');
    JoinAppend(Values(st.domains) + [j], [line], '\n');
  }

  /** A line that is not a header joins the current group. */
  lemma TracksBody(lines: seq<string>, hs: seq<Option<string>>, h: nat, n: nat, st: State)
    requires |hs| == |lines| && h < n < |lines| && hs[n].None?
    requires Tracks(lines, hs, h, n, st)
    ensures Tracks(lines, hs, h, n + 1, Step(st, lines[n], hs[n]))
  {
    var line := lines[n];
    assert Step(st, line, hs[n]) == st.(content := st.content + [line]);
    forall k | k in Keys(st.domains) ensures NameBefore(hs, n + 1, k) {
      NameBeforeGrows(hs, n, k);
    }
    NameBeforeGrows(hs, n, st.current);
    assert lines[h..n + 1] == lines[h..n] + [line];
    JoinAppend(lines[h..n], [line], '\n');
    JoinAppend(st.content, [line], '\n');
    JoinExtendLast(Values(st.domains), Join(st.content, '\n'), line, '\n');
  }

  /** The invariant, once it holds for the run over `n` lines, holds for the run over all of them. */
  lemma {:induction false} ReconstructFrom(lines: seq<string>, hs: seq<Option<string>>, h: nat, n: nat)
    requires |hs| == |lines| && h < n <= |lines| && Named(hs) && DistinctNames(hs)
    requires Tracks(lines, hs, h, n, RunFrom(Start, lines, hs, n))
    ensures Tracks(lines, hs, h, |lines|, RunFrom(Start, lines, hs, |lines|))
    decreases |lines| - n
  {
    if n < |lines| {
      TracksNext(lines, hs, h, n);
      ReconstructFrom(lines, hs, h, n + 1);
    }
  }

  /** The invariant passes from the run over `n` lines to the run over `n + 1`. */
  lemma TracksNext(lines: seq<string>, hs: seq<Option<string>>, h: nat, n: nat)
    requires |hs| == |lines| && h < n < |lines| && Named(hs) && DistinctNames(hs)
    requires Tracks(lines, hs, h, n, RunFrom(Start, lines, hs, n))
    ensures Tracks(lines, hs, h, n + 1, RunFrom(Start, lines, hs, n + 1))
  {
    RunStep(Start, lines, hs, n);
    TracksStep(lines, hs, h, n, RunFrom(Start, lines, hs, n));
  }

  /** One step of the loop keeps the invariant. */
  lemma TracksStep(lines: seq<string>, hs: seq<Option<string>>, h: nat, n: nat, st: State)
    requires |hs| == |lines| && h < n < |lines| && Named(hs) && DistinctNames(hs)
    requires Tracks(lines, hs, h, n, st)
    ensures Tracks(lines, hs, h, n + 1, Step(st, lines[n], hs[n]))
  {
    if hs[n].Some? {
      TracksHeader(lines, hs, h, n, st, hs[n].value);
    } else {
      TracksBody(lines, hs, h, n, st);
    }
  }

  /**
   * With distinct, non-empty header names, the texts joined by newlines in insertion order
   * give back the lines from the first header on, and the names are distinct keys.
   */
  lemma Reconstruction(lines: seq<string>, hs: seq<Option<string>>, h: nat)
    requires |hs| == |lines| && h < |lines| && NoHeader(hs, 0, h) && hs[h].Some?
    requires Named(hs) && DistinctNames(hs)
    ensures Join(Values(ContextOf(lines, hs)), '\n') == Join(lines[h..], '\n')
    ensures Distinct(Keys(ContextOf(lines, hs)))
  {
    TracksFirst(lines, hs, h, h + 1);
    ReconstructFrom(lines, hs, h, h + 1);
    var st := RunFrom(Start, lines, hs, |lines|);
    var j := Join(st.content, '\n');
    PutNew(st.domains, st.current, j);
    PutKeepsDistinct(st.domains, st.current, j);
    assert Values(st.domains + [(st.current, j)]) == Values(st.domains) + [j];
    assert lines[h..|lines|] == lines[h..];
  }

  /**
   * The same for the text: the texts joined by newlines are the input with the lines before
   * the first header line (and the newline after them) cut off.
   */
  lemma ReconstructionText(text: string, h: nat)
    requires var lines := Split(text, '\n'); var hs := Headers(lines);
      h < |lines| && NoHeader(hs, 0, h) && hs[h].Some? && Named(hs) && DistinctNames(hs)
    ensures var lines := Split(text, '\n'); var body := Join(Values(DomainContext(text)), '\n');
      if h == 0 then text == body else text == Join(lines[..h], '\n') + "\n" + body
  {
    var lines := Split(text, '\n');
    Reconstruction(lines, Headers(lines), h);
    JoinSplit(text, '\n');
    assert lines == lines[..h] + lines[h..];
    if h > 0 {
      JoinAppend(lines[..h], lines[h..], '\n');
    }
  }
}
