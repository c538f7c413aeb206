/** How a standalone sandbox finds its own id in production: the sandbox is
    served from `<id>.<host>`, so the id is what precedes `.<host>` in the
    page's location host, where `<host>` is the configured host with its
    `http://` or `https://` scheme removed. The regular expression the source
    builds, `(.*)\.<host>` with the dots of `<host>` escaped, is unanchored and
    greedy, so it splits at the LAST occurrence of `.<host>`; when there is
    none, the match is null and reading its group throws (`None` here). */
module SandboxId {
  import opened Wrappers

  /** `pat` occurs in `s` starting at index `k`. */
  predicate OccursAt(s: string, pat: string, k: nat) {
    k + |pat| <= |s| && s[k..k + |pat|] == pat
  }

  predicate SchemeAt(s: string, p: nat) {
    OccursAt(s, "http://", p) || OccursAt(s, "https://", p)
  }

  /** Length of the scheme the pattern `https?:\/\/` matches at `p`: the
      optional `s` is taken when present. */
  function SchemeLength(s: string, p: nat): (n: nat)
    requires SchemeAt(s, p)
    ensures p + n <= |s|
    ensures n == 7 || n == 8
    ensures n == 8 <==> OccursAt(s, "https://", p)
  {
    if OccursAt(s, "https://", p) then 8 else 7
  }

  /** The leftmost index at or after `from` where a scheme starts. */
  function FirstSchemeFrom(s: string, from: nat): (r: Option<nat>)
    requires from <= |s|
    ensures r.Some? ==> from <= r.value && SchemeAt(s, r.value)
    ensures r.Some? ==> forall q: nat | from <= q < r.value :: !SchemeAt(s, q)
    ensures r.None? ==> forall q: nat | from <= q :: !SchemeAt(s, q)
    decreases |s| - from
  {
    if from == |s| then None
    else if SchemeAt(s, from) then Some(from)
    else FirstSchemeFrom(s, from + 1)
  }

  /** `host.replace(/https?:\/\//, '')`: the first scheme occurrence, wherever
      it is, is removed; the rest of the host is kept as is. */
  function StripScheme(host: string): (r: string)
    ensures |r| <= |host|
    ensures r == host <==> forall q: nat :: !SchemeAt(host, q)
  {
    match FirstSchemeFrom(host, 0)
    case None => host
    case Some(p) => host[..p] + host[p + SchemeLength(host, p)..]
  }

  /** A host that starts with a scheme loses exactly that scheme. */
  lemma StripLeadingScheme(bare: string)
    ensures StripScheme("https://" + bare) == bare
    ensures StripScheme("http://" + bare) == bare
  {
    var secure, plain := "https://" + bare, "http://" + bare;
    assert secure[0..8] == "https://";
    assert SchemeAt(secure, 0);
    assert plain[0..7] == "http://";
    assert SchemeAt(plain, 0);
    assert !OccursAt(plain, "https://", 0) by {
      assert plain[4] == ':';
    }
  }

  /** Wherever the first scheme starts, exactly that scheme is removed; the
      text before it and everything after it, later schemes included, stay. */
  lemma StripFirstScheme(pre: string, scheme: string, bare: string)
    requires scheme == "http://" || scheme == "https://"
    requires forall q: nat | q < |pre| :: !SchemeAt(pre + scheme + bare, q)
    ensures StripScheme(pre + scheme + bare) == pre + bare
  {
    var host := pre + scheme + bare;
    assert host[|pre|..|pre| + |scheme|] == scheme;
    assert SchemeAt(host, |pre|);
    assert FirstSchemeFrom(host, 0) == Some(|pre|);
    if scheme == "http://" {
      assert host[|pre| + 4] == ':';
      assert !OccursAt(host, "https://", |pre|);
    }
    assert SchemeLength(host, |pre|) == |scheme|;
    assert host[..|pre|] == pre;
    assert host[|pre| + |scheme|..] == bare;
  }

  /** A host without any scheme is used unchanged. */
  lemma StripNoScheme(host: string)
    requires forall q: nat :: !SchemeAt(host, q)
    ensures StripScheme(host) == host
  {
  }

  /** The largest index `q <= k` where `pat` occurs in `s`. */
  function LastOccurrenceUpTo(s: string, pat: string, k: nat): (r: Option<nat>)
    ensures r.Some? ==> r.value <= k && OccursAt(s, pat, r.value)
    ensures r.Some? ==> forall q: nat | r.value < q <= k :: !OccursAt(s, pat, q)
    ensures r.None? ==> forall q: nat | q <= k :: !OccursAt(s, pat, q)
    decreases k
  {
    if OccursAt(s, pat, k) then Some(k)
    else if k == 0 then None
    else LastOccurrenceUpTo(s, pat, k - 1)
  }

  /** The last index where `pat` occurs in `s`, if any. */
  function LastOccurrence(s: string, pat: string): (r: Option<nat>)
    ensures r.Some? ==> OccursAt(s, pat, r.value)
    ensures r.Some? ==> forall q: nat | r.value < q :: !OccursAt(s, pat, q)
    ensures r.None? <==> forall q: nat :: !OccursAt(s, pat, q)
  {
    if |pat| > |s| then None else LastOccurrenceUpTo(s, pat, |s| - |pat|)
  }

  /** The text that must follow the id: a dot and the scheme-less host. */
  function Marker(host: string): (r: string)
    ensures |r| == |StripScheme(host)| + 1 && r[0] == '.' && r[1..] == StripScheme(host)
  {
    "." + StripScheme(host)
  }

  /** `getId()` in production: the part of `location` before the last
      `.<host>`, or `None` when `.<host>` does not occur at all. */
  function SandboxIdOf(host: string, location: string): (r: Option<string>)
    ensures r.None? <==> forall q: nat :: !OccursAt(location, Marker(host), q)
    ensures r.Some? ==> OccursAt(location, Marker(host), |r.value|)
    ensures r.Some? ==> location[..|r.value|] == r.value
    ensures r.Some? ==> forall q: nat | |r.value| < q :: !OccursAt(location, Marker(host), q)
  {
    match LastOccurrence(location, Marker(host))
    case None => None
    case Some(k) => Some(location[..k])
  }

  /** The sandbox served from `<id>.<host>` reads back `id`, whatever `id`
      contains (even another `.<host>`). */
  lemma SandboxIdRoundTrip(host: string, id: string)
    ensures SandboxIdOf(host, id + Marker(host)) == Some(id)
  {
  }
}
