/** What the SAP AI Core parser reads off a request path: the deployment id, and whether the path
    asks for the native API. */
module SapPath {
  import opened Sse

  const DEPLOYMENTS := "/deployments/"
  const INVOKE := "/invoke"

  /** The first match of /deployments/([^/]+)/, or "". */
  function DeploymentID(path: string): string {
    if path == "" then ""
    else
      var id := IDAtStart(path);
      if id != "" then id else DeploymentID(path[1..])
  }

  /** A match at the start of the path runs to the next slash, and needs one. */
  function IDAtStart(path: string): string {
    if DEPLOYMENTS <= path then
      var rest := path[|DEPLOYMENTS|..];
      var k := IndexOf(rest, '/');
      if k < |rest| then rest[..k] else ""
    else ""
  }

  function TrimSlashes(s: string): string {
    if s != "" && s[|s| - 1] == '/' then TrimSlashes(s[..|s| - 1]) else s
  }

  predicate EndsWith(s: string, t: string) {
    |t| <= |s| && s[|s| - |t|..] == t
  }

  predicate IsNative(path: string) {
    EndsWith(TrimSlashes(path), INVOKE)
  }

  // ---------- the same, position by position ----------

  /** At i stands "/deployments/", then a non-empty segment up to the slash at j. */
  ghost predicate Names(path: string, i: int, j: int) {
    && 0 <= i < i + |DEPLOYMENTS| < j < |path|
    && "/deployments/" <= path[i..] && path[j] == '/' && '/' !in path[i + |DEPLOYMENTS|..j]
  }

  lemma StartIff(path: string)
    ensures IDAtStart(path) != "" <==> exists j :: Names(path, 0, j)
    ensures forall j | Names(path, 0, j) :: IDAtStart(path) == path[|DEPLOYMENTS|..j]
  {
    var n := |DEPLOYMENTS|;
    assert path[0..] == path;
    if IDAtStart(path) != "" {
      var j := n + IndexOf(path[n..], '/');
      assert path[n..][..j - n] == path[n..j];
      assert Names(path, 0, j);
    }
    forall j | Names(path, 0, j) ensures IDAtStart(path) == path[n..j] && IDAtStart(path) != "" {
      var rest := path[n..];
      assert rest[..j - n] == path[n..j] && rest[j - n] == path[j];
      IndexIs(rest, '/', j - n);
    }
  }

  lemma NamesNothing()
    ensures forall i, j :: !Names("", i, j)
  {
  }

  lemma NamesBounds(path: string, i: int, j: int)
    ensures Names(path, i, j) ==> 0 <= i && i + |DEPLOYMENTS| < j < |path|
  {
  }

  lemma NamesLater(path: string, i: int, j: int)
    requires path != "" && 0 <= i
    ensures Names(path, i + 1, j + 1) <==> Names(path[1..], i, j)
  {
    var n := |DEPLOYMENTS|;
    if i + n < j < |path| - 1 {
      assert path[1..][i..] == path[i + 1..];
      assert path[1..][i + n..j] == path[i + 1 + n..j + 1];
    }
  }

  lemma NamesShift(path: string)
    requires path != "" && IDAtStart(path) == ""
    ensures forall p, q :: Names(path, p, q) <==> Names(path[1..], p - 1, q - 1)
  {
    hide Names, IDAtStart, DEPLOYMENTS;
    StartIff(path);
    forall p, q ensures Names(path, p, q) <==> Names(path[1..], p - 1, q - 1) {
      NamesBounds(path, p, q);
      NamesBounds(path[1..], p - 1, q - 1);
      if p > 0 {
        NamesLater(path, p - 1, q - 1);
      }
    }
  }

  /** The segment of the leftmost place that names one. */
  ghost predicate FirstNamed(path: string, id: string, i: int, j: int) {
    Names(path, i, j) && id == path[i + |DEPLOYMENTS|..j] && forall p, q | p < i :: !Names(path, p, q)
  }

  lemma FirstShift(path: string, id: string, i: int, j: int)
    requires path != "" && IDAtStart(path) == "" && FirstNamed(path[1..], id, i, j)
    ensures FirstNamed(path, id, i + 1, j + 1)
  {
    hide Names, IDAtStart, DEPLOYMENTS;
    NamesShift(path);
    NamesBounds(path[1..], i, j);
    ShiftedSlice(path, i + |DEPLOYMENTS|, j);
    assert Names(path, i + 1, j + 1) <==> Names(path[1..], i, j);
  }

  /** The id is the first segment so named, and "" if and only if there is none. */
  lemma {:induction false} DeploymentIDIsFirst(path: string) returns (i: int, j: int)
    ensures DeploymentID(path) == "" ==> forall p, q :: !Names(path, p, q)
    ensures DeploymentID(path) != "" ==> FirstNamed(path, DeploymentID(path), i, j)
  {
    i, j := 0, 0;
    if path == "" {
      NamesNothing();
    } else if IDAtStart(path) != "" {
      hide Names, IDAtStart, DEPLOYMENTS;
      StartIff(path);
      j :| Names(path, 0, j);
      forall p, q | p < 0 ensures !Names(path, p, q) {
        NamesBounds(path, p, q);
      }
    } else {
      hide Names, IDAtStart, FirstNamed;
      NamesShift(path);
      i, j := DeploymentIDIsFirst(path[1..]);
      if DeploymentID(path) != "" {
        FirstShift(path, DeploymentID(path), i, j);
      }
      i, j := i + 1, j + 1;
    }
  }

  lemma ShiftedSlice(s: string, i: int, j: int)
    requires 0 <= i <= j < |s|
    ensures s[1..][i..j] == s[i + 1..j + 1]
  {
  }

  /** "/invoke" ends at k, and from there on are slashes only. */
  ghost predicate InvokeThenSlashes(path: string, k: int) {
    && 0 <= k <= |path| && EndsWith(path[..k], "/invoke")
    && forall i | k <= i < |path| :: path[i] == '/'
  }

  lemma EndsInLetter(s: string)
    requires EndsWith(s, INVOKE)
    ensures s != "" && s[|s| - 1] == 'e'
  {
    assert s[|s| - 1] == s[|s| - |INVOKE|..][|INVOKE| - 1];
  }

  lemma {:induction false} TrimmedAt(path: string) returns (k: int)
    ensures 0 <= k <= |path| && TrimSlashes(path) == path[..k] && forall i | k <= i < |path| :: path[i] == '/'
  {
    k := |path|;
    assert path[..k] == path;
    if path != "" && path[|path| - 1] == '/' {
      k := TrimmedAt(path[..|path| - 1]);
      assert path[..|path| - 1][..k] == path[..k];
    }
  }

  lemma {:induction false} TrimsTo(path: string, k: int)
    requires 0 < k <= |path| && path[k - 1] != '/' && forall i | k <= i < |path| :: path[i] == '/'
    ensures TrimSlashes(path) == path[..k]
    decreases |path|
  {
    if k < |path| {
      TrimsTo(path[..|path| - 1], k);
      assert path[..|path| - 1][..k] == path[..k];
    } else {
      assert path[..k] == path;
    }
  }

  /** The native API is asked for by a path that ends in "/invoke", followed by slashes at most. */
  lemma NativeIff(path: string)
    ensures IsNative(path) <==> exists k :: InvokeThenSlashes(path, k)
  {
    hide TrimSlashes, EndsWith;
    if IsNative(path) {
      var k := TrimmedAt(path);
      assert InvokeThenSlashes(path, k);
    }
    forall k | InvokeThenSlashes(path, k) ensures IsNative(path) {
      EndsInLetter(path[..k]);
      TrimsTo(path, k);
    }
  }
}
