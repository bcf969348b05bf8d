/**
 * Domain-name helpers: the directory-name filter `is_valid_domain` (one definition, the
 * same code appears in four files), the SLD/TLD splitter with its multi-label-suffix
 * heuristic, and the naive "first two labels" split used for provider requests.
 */
module DomainNames {
  import opened Wrappers
  import opened Strings

  /** Directory names the filter skips explicitly. */
  const InvalidDirs: set<string> := {"node_modules", "venv", "dist", "build", "content", "assets", "config"}

  /** The one domain the filter always skips, compared case-sensitively. */
  const KeptDomain: string := "NewAgeWeb.it.com"

  /** `is_valid_domain`, the checks in the order the source makes them. */
  predicate IsValidDomain(domain: string) {
    if |domain| > 0 && domain[0] == '.' then false
    else if '.' !in domain then false
    else if domain in InvalidDirs then false
    else if domain == KeptDomain then false
    else true
  }

  /** None of the listed directory names contains a dot. */
  lemma InvalidDirsAreDotless()
    ensures forall n :: n in InvalidDirs ==> '.' !in n
  {
  }

  /**
   * The filter accepts exactly the names that do not start with '.', contain a '.', and are
   * not the kept domain: the listed-directory check can never reject a name by itself.
   */
  lemma ValidDomainCharacterized(domain: string)
    ensures IsValidDomain(domain) <==> (|domain| == 0 || domain[0] != '.') && '.' in domain && domain != KeptDomain
  {
    InvalidDirsAreDotless();
  }

  /** `a` and `b` differ at most in the case of ASCII letters (`a.lower() == b.lower()`, letter by letter). */
  predicate SameUpToCase(a: string, b: string) {
    |a| == |b| && forall i :: 0 <= i < |a| ==> LowerChar(a[i]) == LowerChar(b[i])
  }

  /** The kept domain is skipped only in exactly that spelling: any other casing of it passes. */
  lemma KeptDomainIsCaseSensitive(d: string)
    ensures !IsValidDomain(KeptDomain)
    ensures IsValidDomain("newageweb.it.com")
    ensures SameUpToCase(d, KeptDomain) ==> (IsValidDomain(d) <==> d != KeptDomain)
  {
    if SameUpToCase(d, KeptDomain) {
      assert KeptDomain[0] == 'N' && KeptDomain[9] == '.';
      assert LowerChar(d[0]) == 'n' && LowerChar(d[9]) == '.';
      ValidDomainCharacterized(d);
    }
  }

  /** Second-to-last labels that make the splitter keep two labels in the TLD. */
  const MultiLabelSuffixes: set<string> := {"co", "com", "org", "net", "edu", "gov", "it"}

  /**
   * The SLD/TLD split of `setup_domain`: None for fewer than two labels; with more than two
   * labels and a known second-to-last label, the last two labels are the TLD; otherwise
   * the first label is the SLD and the rest the TLD.
   */
  function SplitSldTld(domain: string): Option<(string, string)> {
    var parts := Split(domain, '.');
    var n := |parts|;
    if n < 2 then None
    else if n > 2 && parts[n - 2] in MultiLabelSuffixes then
      Some((Join(parts[..n - 2], '.'), Join(parts[n - 2..], '.')))
    else
      Some((parts[0], Join(parts[1..], '.')))
  }

  /** A name has at least two labels exactly when it contains a dot. */
  lemma {:induction false} TwoLabelsIffDot(domain: string)
    ensures |Split(domain, '.')| >= 2 <==> '.' in domain
  {
    JoinSplit(domain, '.');
    JoinHasSeparator(Split(domain, '.'), '.');
  }

  /** The split succeeds iff the name has a dot, and then `sld + "." + tld` gives the name back. */
  lemma {:induction false} SplitSldTldRoundTrip(domain: string)
    ensures SplitSldTld(domain).Some? <==> '.' in domain
    ensures SplitSldTld(domain).Some? ==>
      SplitSldTld(domain).value.0 + "." + SplitSldTld(domain).value.1 == domain
  {
    TwoLabelsIffDot(domain);
    var parts := Split(domain, '.');
    var n := |parts|;
    JoinSplit(domain, '.');
    if n >= 2 {
      if n > 2 && parts[n - 2] in MultiLabelSuffixes {
        JoinAppend(parts[..n - 2], parts[n - 2..], '.');
        assert parts[..n - 2] + parts[n - 2..] == parts;
      } else {
        JoinAppend([parts[0]], parts[1..], '.');
        assert [parts[0]] + parts[1..] == parts;
      }
    }
  }

  /** The first label is not empty when the name does not start with a dot. */
  lemma FirstLabelNonEmpty(domain: string)
    requires '.' in domain && domain[0] != '.'
    ensures Split(domain, '.')[0] != ""
  {
    var i := SepEnd(domain, '.', 0);
    assert Split(domain, '.')[0] == domain[..i];
  }

  /** The last label is not empty when the name does not end with a dot. */
  lemma {:induction false} LastLabelNonEmpty(domain: string)
    requires |domain| >= 1 && domain[|domain| - 1] != '.'
    ensures var parts := Split(domain, '.'); parts[|parts| - 1] != ""
    decreases |domain|
  {
    var i := SepEnd(domain, '.', 0);
    if i < |domain| {
      assert i < |domain| - 1;
      var rest := domain[i + 1..];
      assert rest[|rest| - 1] == domain[|domain| - 1];
      LastLabelNonEmpty(rest);
      var tail := Split(rest, '.');
      var parts := Split(domain, '.');
      assert parts == [domain[..i]] + tail;
      assert parts[|parts| - 1] == tail[|tail| - 1];
    }
  }

  /** With no leading and no trailing dot, neither part of the split is empty. */
  lemma {:induction false} SplitSldTldNonEmpty(domain: string)
    requires '.' in domain && domain[0] != '.' && domain[|domain| - 1] != '.'
    ensures SplitSldTld(domain).Some?
    ensures SplitSldTld(domain).value.0 != "" && SplitSldTld(domain).value.1 != ""
  {
    TwoLabelsIffDot(domain);
    FirstLabelNonEmpty(domain);
    LastLabelNonEmpty(domain);
    var parts := Split(domain, '.');
    var n := |parts|;
    if n > 2 && parts[n - 2] in MultiLabelSuffixes {
      JoinFirst(parts[..n - 2], '.');
      JoinFirst(parts[n - 2..], '.');
    } else {
      JoinFirst([parts[0]] + parts[1..], '.');
      JoinLast(parts[1..], '.');
      assert parts[1..][|parts[1..]| - 1] == parts[n - 1];
    }
  }

  /** Splitting a dot-free label followed by a dot and the rest. */
  lemma SplitLabel(a: string, rest: string)
    requires '.' !in a
    ensures Split(a + "." + rest, '.') == [a] + Split(rest, '.')
  {
    var s := a + "." + rest;
    assert s[|a|] == '.';
    assert forall k :: 0 <= k < |a| ==> s[k] == a[k];
    SplitAt(s, '.', |a|);
    assert s[..|a|] == a;
    assert s[|a| + 1..] == rest;
  }

  lemma DotAssoc(a: string, b: string, c: string)
    ensures a + "." + b + "." + c == a + "." + (b + "." + c)
  {
  }

  /** The labels of `a.b`, for dot-free labels. */
  lemma SplitTwo(a: string, b: string)
    requires '.' !in a && '.' !in b
    ensures Split(a + "." + b, '.') == [a, b]
  {
    SplitLabel(a, b);
  }

  /** The labels of `a.b.c`, for dot-free labels. */
  lemma SplitThree(a: string, b: string, c: string)
    requires '.' !in a && '.' !in b && '.' !in c
    ensures Split(a + "." + b + "." + c, '.') == [a, b, c]
  {
    SplitTwo(b, c);
    DotAssoc(a, b, c);
    SplitLabel(a, b + "." + c);
  }

  /** Joining two labels puts one dot between them. */
  lemma JoinTwo(x: string, y: string)
    ensures Join([x, y], '.') == x + "." + y
  {
    assert [x, y][1..] == [y];
  }

  /** A trailing dot leaves the TLD empty: the splitter does not guard against it. */
  lemma TrailingDotGivesEmptyTld(a: string)
    requires '.' !in a
    ensures SplitSldTld(a + ".") == Some((a, ""))
  {
    SplitLabel(a, "");
    assert a + "." + "" == a + ".";
  }

  /** A two-label name splits at its only dot. */
  lemma SplitSldTldTwoLabels(a: string, b: string)
    requires '.' !in a && '.' !in b
    ensures SplitSldTld(a + "." + b) == Some((a, b))
  {
    SplitTwo(a, b);
    assert [a, b][1..] == [b];
  }

  /** A three-label name keeps its first label as the SLD, whatever the middle label. */
  lemma SplitSldTldThreeLabels(a: string, b: string, c: string)
    requires '.' !in a && '.' !in b && '.' !in c
    ensures SplitSldTld(a + "." + b + "." + c) == Some((a, b + "." + c))
  {
    SplitThree(a, b, c);
    var p := [a, b, c];
    assert p[..1] == [a] && p[1..] == [b, c];
    JoinTwo(b, c);
  }

  /**
   * In a four-label name a known second-to-last label stays with the last one, as in
   * `x.y.co.uk`; any other keeps only the first label as the SLD.
   */
  lemma SplitSldTldFourLabels(domain: string)
    requires |Split(domain, '.')| == 4
    ensures var p := Split(domain, '.');
      SplitSldTld(domain) ==
        if p[2] in MultiLabelSuffixes then Some((p[0] + "." + p[1], p[2] + "." + p[3]))
        else Some((p[0], p[1] + "." + p[2] + "." + p[3]))
  {
    var p := Split(domain, '.');
    if p[2] in MultiLabelSuffixes {
      assert p[..2] == [p[0], p[1]] && p[2..] == [p[2], p[3]];
      JoinTwo(p[0], p[1]);
      JoinTwo(p[2], p[3]);
    } else {
      assert p[1..] == [p[1], p[2], p[3]] && [p[1], p[2], p[3]][1..] == [p[2], p[3]];
      JoinTwo(p[2], p[3]);
      assert Join([p[1], p[2], p[3]], '.') == p[1] + "." + (p[2] + "." + p[3]);
      DotAssoc(p[1], p[2], p[3]);
    }
  }

  /**
   * The naive split of the provider client and `split_domain`: `parts[0]` and `parts[1]` of
   * `domain.split('.')`; None stands for the IndexError/ValueError of a dotless name.
   */
  function FirstTwoLabels(domain: string): Option<(string, string)> {
    var parts := Split(domain, '.');
    if |parts| < 2 then None else Some((parts[0], parts[1]))
  }

  /**
   * The naive split fails exactly on dotless names; otherwise both labels are dot-free, the
   * name starts with `sld.tld`, and it is exactly `sld.tld` only when it has a single dot.
   */
  lemma {:induction false} FirstTwoLabelsSpec(domain: string)
    ensures FirstTwoLabels(domain).Some? <==> '.' in domain
    ensures FirstTwoLabels(domain).Some? ==>
      var (sld, tld) := FirstTwoLabels(domain).value;
      '.' !in sld && '.' !in tld
      && sld + "." + tld <= domain
      && (|sld| + 1 + |tld| == |domain| || domain[|sld| + 1 + |tld|] == '.')
      && (sld + "." + tld == domain <==> |Split(domain, '.')| == 2)
  {
    TwoLabelsIffDot(domain);
    SecondLabelEnd(domain);
    var parts := Split(domain, '.');
    JoinSplit(domain, '.');
    if |parts| >= 2 {
      JoinAppend([parts[0]], parts[1..], '.');
      assert [parts[0]] + parts[1..] == parts;
      assert parts[1..][0] == parts[1];
      if |parts| > 2 {
        JoinAppend([parts[1]], parts[2..], '.');
        assert [parts[1]] + parts[2..] == parts[1..];
        assert |domain| > |parts[0] + "." + parts[1]|;
      } else {
        assert parts[1..] == [parts[1]];
      }
    }
  }

  /** With three or more labels, the second label is followed by a dot. */
  lemma SecondLabelEnd(domain: string)
    ensures var parts := Split(domain, '.');
      |parts| > 2 ==> |parts[0]| + 1 + |parts[1]| < |domain| && domain[|parts[0]| + 1 + |parts[1]|] == '.'
  {
    var parts := Split(domain, '.');
    if |parts| > 2 {
      JoinSplit(domain, '.');
      JoinAppend([parts[0]], parts[1..], '.');
      assert [parts[0]] + parts[1..] == parts;
      JoinAppend([parts[1]], parts[2..], '.');
      assert [parts[1]] + parts[2..] == parts[1..];
      assert domain == (parts[0] + "." + parts[1]) + ("." + Join(parts[2..], '.'));
    }
  }

  /** The naive split sends `a.b.c` as SLD `a`, TLD `b`: the last label is dropped. */
  lemma FirstTwoLabelsDropsLabels(a: string, b: string, c: string)
    requires '.' !in a && '.' !in b && '.' !in c
    ensures FirstTwoLabels(a + "." + b + "." + c) == Some((a, b))
  {
    SplitThree(a, b, c);
  }
}
