/** _trim_api_key and the credential checks main performs before it
    creates the agent (claude_agent.py). */
module ApiKey {
  import opened Values
  import opened PyText

  const Bom: char := '\U{FEFF}'
  const ApiKeyVar: string := "ANTHROPIC_API_KEY"
  const MinKeyLength: nat := 20

  /** value.replace("\uFEFF", "").strip().strip('"').strip("'"), and ""
      for None or "". */
  function TrimApiKey(value: Option<string>): string {
    if value.None? || value.value == "" then ""
    else StripKey(RemoveAll(value.value, Bom))
  }

  /** .strip().strip('"').strip("'") */
  function StripKey(s: string): string {
    Strip(Strip(Strip(s, IsPySpace), IsDoubleQuote), IsSingleQuote)
  }

  /** The characters trimming may remove from either end. */
  predicate IsTrimmable(c: char) {
    IsPySpace(c) || c == '"' || c == '\''
  }

  /** r is s[i..j], and everything outside that slice passes q. */
  ghost predicate TrimmedSlice(s: string, r: string, i: nat, j: nat, q: char -> bool) {
    i <= j <= |s| && r == s[i..j] &&
    (forall k :: 0 <= k < i ==> q(s[k])) &&
    (forall k :: j <= k < |s| ==> q(s[k]))
  }

  /** A strip by characters that pass q cuts a slice whose outside passes q. */
  lemma StripSlice(s: string, p: char -> bool, q: char -> bool) returns (i: nat, j: nat)
    requires forall c :: p(c) ==> q(c)
    ensures TrimmedSlice(s, Strip(s, p), i, j, q)
  {
    i := LeadingCount(s, p);
    var t := s[i..];
    j := i + |t| - TrailingCount(t, p);
    assert forall k :: j <= k < |s| ==> s[k] == t[k - i];
  }

  /** A trimmed slice of a trimmed slice is a trimmed slice. */
  lemma SliceCompose(s: string, m: string, r: string, i1: nat, j1: nat, i2: nat, j2: nat,
                     q: char -> bool)
    requires TrimmedSlice(s, m, i1, j1, q) && TrimmedSlice(m, r, i2, j2, q)
    ensures TrimmedSlice(s, r, i1 + i2, i1 + j2, q)
  {
    assert forall k :: 0 <= k < |m| ==> m[k] == s[i1 + k];
    forall k | i1 <= k < i1 + i2 ensures q(s[k]) {
      assert s[k] == m[k - i1];
    }
    forall k | i1 + j2 <= k < j1 ensures q(s[k]) {
      assert s[k] == m[k - i1];
    }
  }

  /** Three trimmed slices in a row make one trimmed slice. */
  lemma SliceComposeThree(w: string, a: string, b: string, r: string, q: char -> bool,
                          i1: nat, j1: nat, i2: nat, j2: nat, i3: nat, j3: nat)
    returns (i: nat, j: nat)
    requires TrimmedSlice(w, a, i1, j1, q)
    requires TrimmedSlice(a, b, i2, j2, q)
    requires TrimmedSlice(b, r, i3, j3, q)
    ensures TrimmedSlice(w, r, i, j, q)
  {
    SliceCompose(w, a, b, i1, j1, i2, j2, q);
    SliceCompose(w, b, r, i1 + i2, i1 + j2, i3, j3, q);
    i, j := i1 + i2 + i3, i1 + i2 + j3;
  }

  /** Stripping by p1, then p2, then p3 cuts one trimmed slice. */
  lemma StripThriceSlice(w: string, p1: char -> bool, p2: char -> bool, p3: char -> bool,
                         q: char -> bool)
    returns (i: nat, j: nat)
    requires forall c :: p1(c) ==> q(c)
    requires forall c :: p2(c) ==> q(c)
    requires forall c :: p3(c) ==> q(c)
    ensures TrimmedSlice(w, Strip(Strip(Strip(w, p1), p2), p3), i, j, q)
  {
    var a := Strip(w, p1);
    var b := Strip(a, p2);
    var i1, j1 := StripSlice(w, p1, q);
    var i2, j2 := StripSlice(a, p2, q);
    var i3, j3 := StripSlice(b, p3, q);
    i, j := SliceComposeThree(w, a, b, Strip(b, p3), q, i1, j1, i2, j2, i3, j3);
  }

  /** The three strips cut one slice with only trimmable characters outside. */
  lemma StripKeySlice(w: string) returns (i: nat, j: nat)
    ensures TrimmedSlice(w, StripKey(w), i, j, IsTrimmable)
  {
    i, j := StripThriceSlice(w, IsPySpace, IsDoubleQuote, IsSingleQuote, IsTrimmable);
  }

  /** Trimming keeps one contiguous piece of the key with every BOM
      removed: nothing inside it changes, and only whitespace and quote
      characters are cut from either end. */
  lemma TrimApiKeySlice(value: Option<string>)
    ensures value.None? || value == Some("") ==> TrimApiKey(value) == ""
    ensures value.Some? ==>
      exists i: nat, j: nat :: TrimmedSlice(RemoveAll(value.value, Bom), TrimApiKey(value), i, j, IsTrimmable)
  {
    if value.Some? {
      var w := RemoveAll(value.value, Bom);
      if value.value != "" {
        var i, j := StripKeySlice(w);
        assert TrimmedSlice(w, TrimApiKey(value), i, j, IsTrimmable);
      } else {
        assert TrimmedSlice(w, TrimApiKey(value), 0, 0, IsTrimmable);
      }
    }
  }

  /** The trimmed key holds no BOM and neither starts nor ends with a
      single quote. */
  lemma TrimApiKeyEnds(value: Option<string>)
    ensures Bom !in TrimApiKey(value)
    ensures var r := TrimApiKey(value); r == [] || (r[0] != '\'' && r[|r| - 1] != '\'')
  {
    if value.Some? && value.value != "" {
      var w := RemoveAll(value.value, Bom);
      StripShape(Strip(Strip(w, IsPySpace), IsDoubleQuote), IsSingleQuote);
      var i, j := StripKeySlice(w);
      var r := TrimApiKey(value);
      assert r == w[i..j];
      assert forall x :: x in r ==> x in w;
    }
  }

  /** Why main stops before it creates the agent, or the key it goes on with. */
  datatype Startup = MissingKey | EmptyKey | ShortKey | Proceed(key: string)

  /** main's checks on the environment it sees after loading .env: the
      variable must be set and non-empty, and the trimmed key non-empty
      and at least 20 characters long. */
  function KeyCheck(env: map<string, string>): (s: Startup)
    ensures s.Proceed? <==>
            ApiKeyVar in env && env[ApiKeyVar] != "" &&
            |TrimApiKey(Some(env[ApiKeyVar]))| >= MinKeyLength
    ensures s.Proceed? ==> s.key == TrimApiKey(Some(env[ApiKeyVar]))
    ensures s == MissingKey <==> ApiKeyVar !in env || env[ApiKeyVar] == ""
  {
    if ApiKeyVar !in env || env[ApiKeyVar] == "" then MissingKey
    else
      var key := TrimApiKey(Some(env[ApiKeyVar]));
      if key == "" then EmptyKey
      else if |key| < MinKeyLength then ShortKey
      else Proceed(key)
  }
}
