/** Resource names: how `buildName` joins a resource name and a suffix within a label. */
module Names {
  const MAX_NAME := 62
  const MAX_PART := MAX_NAME / 2
  /** Section 2.3.4 of RFC 1035. */
  const MAX_LABEL := 63

  const PROXY_SECRET := "proxy-secret"
  const EXPOSE := "expose"
  const CLEANUP := "cleanup"

  /** Go's strings.TrimSuffix(s, "-"): removes at most one dash. */
  function TrimDash(s: string): (r: string)
    ensures r <= s && |s| - 1 <= |r|
    ensures r == s <==> s == "" || s[|s| - 1] != '-'
  {
    if s != "" && s[|s| - 1] == '-' then s[..|s| - 1] else s
  }

  function BuildName(resourceName: string, suffix: string): string {
    if |suffix| > 0 && |resourceName| + |suffix| < MAX_NAME then
      resourceName + "-" + suffix
    else if |suffix| == 0 && |resourceName| < MAX_NAME then
      resourceName
    else if |suffix| > MAX_PART && |resourceName| > MAX_PART then
      WithSuffix(TrimDash(resourceName[..MAX_PART]), TrimDash(suffix[..MAX_PART]))
    else if |suffix| > MAX_PART && |resourceName| < MAX_PART then
      WithSuffix(resourceName, TrimDash(suffix[..MAX_NAME - |resourceName|]))
    else if |suffix| < MAX_PART && |resourceName| > MAX_PART then
      WithSuffix(TrimDash(resourceName[..MAX_NAME - |suffix|]), suffix)
    else if |resourceName| > MAX_NAME + 1 then
      WithSuffix(TrimDash(resourceName[..MAX_NAME]), suffix)
    else
      WithSuffix(resourceName, suffix)
  }

  function WithSuffix(name: string, suffix: string): string {
    if suffix != "" then name + "-" + suffix else name
  }

  /**
   * The name comes before the suffix, after a dash, and both are kept from their start: in full where that fits, and
   * otherwise so far that at most two characters of a name of full length are lost.
   */
  lemma BuildNameParts(name: string, suffix: string) returns (n: string, s: string)
    ensures n <= name && s <= suffix
    ensures BuildName(name, suffix) == if suffix == "" then n else n + "-" + s
    ensures |name| + |suffix| < 62 ==> n == name && s == suffix
    ensures n != name || s != suffix ==> |BuildName(name, suffix)| >= 61
  {
    n, s := name, suffix;
    if |name| + |suffix| < MAX_NAME {
    } else if |suffix| > MAX_PART && |name| > MAX_PART {
      n, s := TrimDash(name[..MAX_PART]), TrimDash(suffix[..MAX_PART]);
    } else if |suffix| > MAX_PART && |name| < MAX_PART {
      s := TrimDash(suffix[..MAX_NAME - |name|]);
    } else if |suffix| < MAX_PART && |name| > MAX_PART {
      n := TrimDash(name[..MAX_NAME - |suffix|]);
    } else if |name| > MAX_NAME + 1 {
      n := TrimDash(name[..MAX_NAME]);
    }
  }

  /** The result is a label of legal length for exactly these lengths of name and suffix. */
  lemma BuildNameFitsLabel(name: string, suffix: string)
    ensures |BuildName(name, suffix)| <= MAX_LABEL <==>
            !(|suffix| == MAX_PART && |name| > MAX_PART) && !(|name| == MAX_PART && |suffix| > MAX_PART)
  {
    assert MAX_PART == 31;
    assert forall s: string {:trigger TrimDash(s)} :: |s| - 1 <= |TrimDash(s)| <= |s|;
  }

  /** Hence every name the operator builds fits. */
  lemma OperatorNamesFitLabel(name: string, suffix: string)
    requires suffix in {"", PROXY_SECRET, EXPOSE, CLEANUP}
    ensures |BuildName(name, suffix)| <= MAX_LABEL
  {
    BuildNameFitsLabel(name, suffix);
  }

  /** The part of the name that survives next to a suffix shorter than half a name. */
  function Kept(name: string, suffix: string): string
    requires |suffix| < MAX_PART
  {
    if |name| + |suffix| < MAX_NAME then name else TrimDash(name[..MAX_NAME - |suffix|])
  }

  /** Two names collide under one short suffix exactly when the parts kept of them are equal. */
  lemma CollisionLaw(a: string, b: string, suffix: string)
    requires |suffix| < MAX_PART
    ensures BuildName(a, suffix) == BuildName(b, suffix) <==> Kept(a, suffix) == Kept(b, suffix)
  {
    KeptIsPrefix(a, suffix);
    KeptIsPrefix(b, suffix);
    var ka, kb := Kept(a, suffix), Kept(b, suffix);
    if suffix != "" && ka + "-" + suffix == kb + "-" + suffix {
      assert |ka| == |kb|;
      assert ka == (ka + "-" + suffix)[..|ka|];
      assert kb == (kb + "-" + suffix)[..|kb|];
    }
  }

  lemma KeptIsPrefix(name: string, suffix: string)
    requires |suffix| < MAX_PART
    ensures BuildName(name, suffix) == WithSuffix(Kept(name, suffix), suffix)
  {
  }

  /** Names a cluster accepts and that are short enough to keep whole next to `suffix`. */
  predicate Short(name: string, suffix: string) {
    |name| + |suffix| <= MAX_NAME && name != "" && name[|name| - 1] != '-'
  }

  lemma ShortNamesNeverCollide(a: string, b: string, suffix: string)
    requires |suffix| < MAX_PART
    requires Short(a, suffix) && Short(b, suffix)
    ensures BuildName(a, suffix) == BuildName(b, suffix) <==> a == b
  {
    CollisionLaw(a, b, suffix);
    assert |a| + |suffix| == MAX_NAME ==> a[..MAX_NAME - |suffix|] == a;
    assert |b| + |suffix| == MAX_NAME ==> b[..MAX_NAME - |suffix|] == b;
  }

  /** Names that share a deployment share a secret as well. */
  lemma SharedDeploymentSharesSecret(a: string, b: string)
    requires BuildName(a, "") == BuildName(b, "")
    ensures BuildName(a, PROXY_SECRET) == BuildName(b, PROXY_SECRET)
  {
    CollisionLaw(a, b, "");
    CollisionLaw(a, b, PROXY_SECRET);
    var n := MAX_NAME - |PROXY_SECRET|;
    if a != b {
      var k := Kept(a, "");
      assert |k| >= MAX_NAME - 1 && k <= a && k <= b;
      assert a[..n] == k[..n] == b[..n];
    }
  }

  /** The bound on the length is sharp: one character more and two names share their secret. */
  lemma LongNamesCollide(stem: string, x: char, y: char)
    requires |stem| + |PROXY_SECRET| == MAX_NAME
    requires x != y
    ensures stem + [x] != stem + [y]
    ensures BuildName(stem + [x], PROXY_SECRET) == BuildName(stem + [y], PROXY_SECRET)
  {
    assert (stem + [x])[|stem|] != (stem + [y])[|stem|];
    assert (stem + [x])[..|stem|] == stem == (stem + [y])[..|stem|];
    CollisionLaw(stem + [x], stem + [y], PROXY_SECRET);
  }

  /** No expose job is ever taken for a cleanup job, nor a proxy secret for the operator's. */
  lemma JobNamesDiffer(a: string, b: string)
    ensures BuildName(a, EXPOSE) != BuildName(b, CLEANUP)
    ensures BuildName(a, PROXY_SECRET) != "operator-secret"
  {
    KeptIsPrefix(a, EXPOSE);
    KeptIsPrefix(b, CLEANUP);
    KeptIsPrefix(a, PROXY_SECRET);
    var e, c, p := BuildName(a, EXPOSE), BuildName(b, CLEANUP), BuildName(a, PROXY_SECRET);
    assert e[|e| - 1] == 'e' && c[|c| - 1] == 'p';
    assert p[|p| - 8] == 'y' && "operator-secret"[15 - 8] == 'r';
  }

  predicate LabelChar(c: char) { 'a' <= c <= 'z' || '0' <= c <= '9' || c == '-' }

  /** Host label syntax (section 2.1 of RFC 1123), without doubled dashes. */
  ghost predicate Label(s: string) {
    && s != "" && s[0] != '-' && s[|s| - 1] != '-'
    && (forall i :: 0 <= i < |s| ==> LabelChar(s[i]))
    && (forall i :: 0 < i < |s| ==> s[i - 1] != '-' || s[i] != '-')
  }

  lemma CutLabel(s: string, n: nat)
    requires Label(s) && 2 <= n <= |s|
    ensures Label(TrimDash(s[..n]))
  {
    var t := TrimDash(s[..n]);
    assert t <= s;
    assert forall i :: 0 <= i < |t| ==> t[i] == s[i];
  }

  lemma JoinLabels(a: string, b: string)
    requires Label(a) && Label(b)
    ensures Label(a + "-" + b)
  {
    var r := a + "-" + b;
    assert forall i :: 0 <= i < |r| ==>
      r[i] == if i < |a| then a[i] else if i == |a| then '-' else b[i - |a| - 1];
  }

  lemma WithSuffixLabel(name: string, suffix: string)
    requires Label(name) && (suffix == "" || Label(suffix))
    ensures Label(WithSuffix(name, suffix))
  {
    if suffix != "" {
      JoinLabels(name, suffix);
    }
  }

  /** Every branch turns labels into a label. */
  lemma BuildNameKeepsLabels(name: string, suffix: string)
    requires Label(name) && (suffix == "" || Label(suffix))
    ensures Label(BuildName(name, suffix))
  {
    WithSuffixLabel(name, suffix);
    if |suffix| > MAX_PART && |name| > MAX_PART {
      CutLabel(name, MAX_PART);
      CutLabel(suffix, MAX_PART);
      WithSuffixLabel(TrimDash(name[..MAX_PART]), TrimDash(suffix[..MAX_PART]));
    } else if |suffix| > MAX_PART && |name| < MAX_PART {
      if |name| + |suffix| >= MAX_NAME {
        CutLabel(suffix, MAX_NAME - |name|);
        WithSuffixLabel(name, TrimDash(suffix[..MAX_NAME - |name|]));
      }
    } else if |suffix| < MAX_PART && |name| > MAX_PART {
      if |name| + |suffix| >= MAX_NAME {
        CutLabel(name, MAX_NAME - |suffix|);
        WithSuffixLabel(TrimDash(name[..MAX_NAME - |suffix|]), suffix);
      }
    } else if |name| > MAX_NAME + 1 {
      CutLabel(name, MAX_NAME);
      WithSuffixLabel(TrimDash(name[..MAX_NAME]), suffix);
    }
  }

  /** Without a suffix the cut is stable: building the name of a built name changes nothing. */
  lemma BuildNameIdempotent(name: string)
    ensures BuildName(BuildName(name, ""), "") == BuildName(name, "")
  {
    var once := BuildName(name, "");
    assert |once| == MAX_NAME ==> once[..MAX_NAME] == once;
  }
}
