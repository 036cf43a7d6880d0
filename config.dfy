/** The client configuration object of config.js: the fallback switch and the
    WebSocket URL derived from the page's origin. */
module AppConfig {
  import opened Values

  /** `USE_LOCALSTORAGE_FALLBACK` */
  const UseLocalStorageFallback := true

  /** `p` occurs in `s` starting at index `i`. */
  predicate OccursAt(s: string, p: string, i: nat) {
    i + |p| <= |s| && s[i..i + |p|] == p
  }

  predicate Contains(s: string, p: string) {
    exists i: nat | i <= |s| :: OccursAt(s, p, i)
  }

  /** The first index at or after `from` where `p` occurs in `s`. */
  function IndexOf(s: string, p: string, from: nat): (r: Option<nat>)
    decreases |s| - from
    ensures r.Some? ==> from <= r.value && OccursAt(s, p, r.value)
    ensures r.Some? ==> forall j: nat | from <= j < r.value :: !OccursAt(s, p, j)
    ensures r.None? ==> forall j: nat | from <= j :: !OccursAt(s, p, j)
  {
    if from + |p| > |s| then None
    else if s[from..from + |p|] == p then Some(from)
    else IndexOf(s, p, from + 1)
  }

  /** `s.replace(p, rep)` with a string pattern (and a replacement without `$`):
      only the first occurrence is replaced. */
  function ReplaceFirst(s: string, p: string, rep: string): string {
    match IndexOf(s, p, 0)
    case None => s
    case Some(i) => s[..i] + rep + s[i + |p|..]
  }

  /** `CONFIG.WS_URL`: `SERVER_URL.replace('http://', 'ws://').replace('https://', 'wss://')` */
  function WsUrl(serverUrl: string): string {
    ReplaceFirst(ReplaceFirst(serverUrl, "http://", "ws://"), "https://", "wss://")
  }

  // ---------------------------------------------------------------------
  // `replace` with a string pattern

  /** Without an occurrence, `replace` returns its input. */
  lemma ReplaceAbsent(s: string, p: string, rep: string)
    requires !Contains(s, p)
    ensures ReplaceFirst(s, p, rep) == s
  {
    assert IndexOf(s, p, 0).None?;
  }

  /** `replace` rewrites the first occurrence and keeps everything around it. */
  lemma ReplaceFirstOccurrence(s: string, p: string, rep: string, i: nat)
    requires OccursAt(s, p, i)
    requires forall j: nat | j < i :: !OccursAt(s, p, j)
    ensures ReplaceFirst(s, p, rep) == s[..i] + rep + s[i + |p|..]
  {
    var r := IndexOf(s, p, 0);
    assert r.Some? ==> OccursAt(s, p, r.value);
    assert r == Some(i);
  }

  /** An occurrence in `a + b` that starts inside `b` is an occurrence in `b`,
      and conversely. */
  lemma OccursShift(a: string, b: string, p: string, j: nat)
    ensures OccursAt(a + b, p, |a| + j) <==> OccursAt(b, p, j)
  {
    if |a| + j + |p| <= |a + b| {
      assert (a + b)[|a| + j..|a| + j + |p|] == b[j..j + |p|];
    }
  }

  /** When no occurrence starts inside `a`, replacing in `a + b` replaces in `b`. */
  lemma ReplaceAfterPrefix(a: string, b: string, p: string, rep: string)
    requires forall j: nat | j < |a| :: !OccursAt(a + b, p, j)
    ensures ReplaceFirst(a + b, p, rep) == a + ReplaceFirst(b, p, rep)
  {
    var s := a + b;
    match IndexOf(s, p, 0)
    case None =>
      forall j: nat | j <= |b| ensures !OccursAt(b, p, j) {
        OccursShift(a, b, p, j);
      }
      ReplaceAbsent(b, p, rep);
    case Some(k) =>
      var m := FirstOccurrenceInSuffix(a, b, p, k);
      ReplaceFirstOccurrence(b, p, rep, m);
      assert s[..k] == a + b[..m];
      assert s[k + |p|..] == b[m + |p|..];
  }

  /** The first occurrence in `a + b`, when none starts inside `a`, is the
      first occurrence in `b`, shifted by `|a|`. */
  lemma FirstOccurrenceInSuffix(a: string, b: string, p: string, k: nat) returns (m: nat)
    requires forall j: nat | j < |a| :: !OccursAt(a + b, p, j)
    requires IndexOf(a + b, p, 0) == Some(k)
    ensures k == |a| + m && OccursAt(b, p, m)
    ensures forall j: nat | j < m :: !OccursAt(b, p, j)
  {
    assert OccursAt(a + b, p, k);
    m := k - |a|;
    OccursShift(a, b, p, m);
    forall j: nat | j < m ensures !OccursAt(b, p, j) {
      OccursShift(a, b, p, j);
    }
  }

  // ---------------------------------------------------------------------
  // WS_URL

  /** An `http://` origin becomes `ws://` with the rest of the origin as it
      was, apart from what the second `replace` does to it. */
  lemma WsUrlOfHttp(rest: string)
    ensures WsUrl("http://" + rest) == "ws://" + ReplaceFirst(rest, "https://", "wss://")
  {
    var s := "http://" + rest;
    assert OccursAt(s, "http://", 0) by { assert s[0..7] == "http://"; }
    ReplaceFirstOccurrence(s, "http://", "ws://", 0);
    assert s[7..] == rest;
    assert ReplaceFirst(s, "http://", "ws://") == "ws://" + rest;
    forall j: nat | j < 5 ensures !OccursAt("ws://" + rest, "https://", j) {
      assert ("ws://" + rest)[j] == "ws://"[j];
    }
    ReplaceAfterPrefix("ws://", rest, "https://", "wss://");
  }

  /** An `https://` origin becomes `wss://`: the first `replace` does not match
      at its start, since "https://" differs from "http://" at its fifth
      character. */
  lemma WsUrlOfHttps(rest: string)
    ensures WsUrl("https://" + rest) == "wss://" + ReplaceFirst(rest, "http://", "ws://")
  {
    var s := "https://" + rest;
    forall j: nat | j < 8 ensures !OccursAt(s, "http://", j) {
      if j + 7 <= |s| {
        if j == 0 {
          assert s[j..j + 7][4] == s[4] == 's';
        } else {
          assert s[j..j + 7][0] == s[j] == "https://"[j] != 'h';
        }
      }
    }
    ReplaceAfterPrefix("https://", rest, "http://", "ws://");
    var r1 := ReplaceFirst(rest, "http://", "ws://");
    var s1 := "https://" + r1;
    assert OccursAt(s1, "https://", 0) by { assert s1[0..8] == "https://"; }
    ReplaceFirstOccurrence(s1, "https://", "wss://", 0);
    assert s1[8..] == r1;
  }

  /** For a real origin, whose host and port hold no '/', the scheme alone is
      rewritten: `http://h` to `ws://h` and `https://h` to `wss://h`. */
  lemma WsUrlOfOrigin(host: string)
    requires forall i | 0 <= i < |host| :: host[i] != '/'
    ensures WsUrl("http://" + host) == "ws://" + host
    ensures WsUrl("https://" + host) == "wss://" + host
  {
    NoSchemeWithoutSlash(host, "https://");
    NoSchemeWithoutSlash(host, "http://");
    WsUrlOfHttp(host);
    WsUrlOfHttps(host);
    ReplaceAbsent(host, "https://", "wss://");
    ReplaceAbsent(host, "http://", "ws://");
  }

  lemma NoSchemeWithoutSlash(host: string, scheme: string)
    requires forall i | 0 <= i < |host| :: host[i] != '/'
    requires |scheme| >= 1 && scheme[|scheme| - 1] == '/'
    ensures !Contains(host, scheme)
  {
    forall i: nat | i <= |host| ensures !OccursAt(host, scheme, i) {
      if i + |scheme| <= |host| {
        assert host[i..i + |scheme|][|scheme| - 1] == host[i + |scheme| - 1];
      }
    }
  }

  /** An origin with neither scheme string (a `file://` page, say) is returned
      unchanged. */
  lemma WsUrlOfOtherScheme(origin: string)
    requires !Contains(origin, "http://") && !Contains(origin, "https://")
    ensures WsUrl(origin) == origin
  {
    ReplaceAbsent(origin, "http://", "ws://");
    ReplaceAbsent(origin, "https://", "wss://");
  }
}
