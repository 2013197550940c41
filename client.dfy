/** Client construction (src/index.ts): choosing the API key and its kind from
    an explicit project key, an auth token and the `DETA_PROJECT_KEY`
    environment value, deriving the project id, and opening a named base. */
module Client {
  import opened Schema

  datatype Option<T> = None | Some(value: T)

  /** A value, or the message of the `Error` the source throws. */
  datatype Result<T> = Success(value: T) | Failure(error: string)

  // ---------------------------------------------------------------------
  // String.prototype.trim
  // ---------------------------------------------------------------------

  /** The characters `trim` removes: ECMAScript's WhiteSpace (tab, vertical
      tab, form feed, no-break space, byte order mark and the Unicode space
      separators) and LineTerminator (line feed, carriage return, U+2028,
      U+2029). */
  predicate IsWhitespace(c: char)
  {
    c == '\t' || c == '\n' || c == '\U{000B}' || c == '\U{000C}' || c == '\r' || c == ' '
    || c == '\U{00A0}' || c == '\U{1680}' || ('\U{2000}' <= c <= '\U{200A}')
    || c == '\U{2028}' || c == '\U{2029}' || c == '\U{202F}' || c == '\U{205F}'
    || c == '\U{3000}' || c == '\U{FEFF}'
  }

  predicate AllWhitespace(s: string)
  {
    forall k :: 0 <= k < |s| ==> IsWhitespace(s[k])
  }

  /** Neither end of `s` is whitespace. */
  predicate Trimmed(s: string)
  {
    s != [] ==> !IsWhitespace(s[0]) && !IsWhitespace(s[|s| - 1])
  }

  /** Removes leading whitespace: the result is a suffix of `s`, and what was
      cut off is whitespace. */
  function TrimStart(s: string): (r: string)
    ensures |r| <= |s| && r == s[|s| - |r|..]
    ensures AllWhitespace(s[..|s| - |r|])
    ensures r != [] ==> !IsWhitespace(r[0])
  {
    if s != [] && IsWhitespace(s[0]) then TrimStart(s[1..]) else s
  }

  /** Removes trailing whitespace: the result is a prefix of `s`, and what was
      cut off is whitespace. */
  function TrimEnd(s: string): (r: string)
    ensures |r| <= |s| && r == s[..|r|]
    ensures AllWhitespace(s[|r|..])
    ensures r != [] ==> !IsWhitespace(r[|r| - 1])
  {
    if s != [] && IsWhitespace(s[|s| - 1]) then TrimEnd(s[..|s| - 1]) else s
  }

  /** `r` sits at index `i` of `s` with only whitespace before and after it. */
  predicate FramedAt(s: string, i: int, r: string)
  {
    0 <= i <= |s| - |r| && s[i..i + |r|] == r && AllWhitespace(s[..i]) && AllWhitespace(s[i + |r|..])
  }

  /** A whitespace prefix cut off, then a whitespace suffix cut off the rest,
      leaves a string framed by whitespace in the original. */
  lemma CutBothEnds(s: string, front: string, r: string)
    requires |front| <= |s| && front == s[|s| - |front|..] && AllWhitespace(s[..|s| - |front|])
    requires |r| <= |front| && r == front[..|r|] && AllWhitespace(front[|r|..])
    ensures FramedAt(s, |s| - |front|, r)
  {
    var i := |s| - |front|;
    SuffixSlices(s, i, |r|);
  }

  lemma SuffixSlices(s: string, i: nat, n: nat)
    requires i + n <= |s|
    ensures s[i..i + n] == s[i..][..n]
    ensures s[i + n..] == s[i..][n..]
  {
  }

  /** `s.trim()`: `s` with a whitespace prefix and a whitespace suffix cut
      off, empty exactly when `s` is all whitespace, and otherwise neither end
      of the result is whitespace. */
  function TrimWhitespace(s: string): (r: string)
    ensures exists i :: FramedAt(s, i, r)
    ensures r == [] <==> AllWhitespace(s)
    ensures Trimmed(r)
  {
    var front := TrimStart(s);
    var r := TrimEnd(front);
    CutBothEnds(s, front, r);
    assert r == [] ==> AllWhitespace(s) by {
      if r == [] {
        assert s == s[..|s| - |front|] + front;
        assert AllWhitespace(front[|r|..]);
      }
    }
    r
  }

  lemma {:induction false} TrimStartSkips(lead: string, rest: string)
    requires AllWhitespace(lead)
    requires rest == [] || !IsWhitespace(rest[0])
    ensures TrimStart(lead + rest) == rest
  {
    if lead != [] {
      assert (lead + rest)[1..] == lead[1..] + rest;
      TrimStartSkips(lead[1..], rest);
    } else {
      assert lead + rest == rest;
    }
  }

  lemma {:induction false} TrimEndSkips(rest: string, trail: string)
    requires AllWhitespace(trail)
    requires rest == [] || !IsWhitespace(rest[|rest| - 1])
    ensures TrimEnd(rest + trail) == rest
    decreases |trail|
  {
    if trail != [] {
      var shorter := trail[..|trail| - 1];
      assert (rest + trail)[..|rest + trail| - 1] == rest + shorter;
      TrimEndSkips(rest, shorter);
    } else {
      assert rest + trail == rest;
    }
  }

  /** `trim` is determined by what it keeps: whitespace around a middle whose
      ends are not whitespace trims to that middle. */
  lemma TrimOfFramed(lead: string, middle: string, trail: string)
    requires AllWhitespace(lead) && AllWhitespace(trail) && Trimmed(middle)
    ensures TrimWhitespace(lead + middle + trail) == middle
  {
    if middle == [] {
      assert lead + middle + trail == lead + trail;
      assert AllWhitespace(lead + trail) by {
        forall k | 0 <= k < |lead + trail| ensures IsWhitespace((lead + trail)[k]) {
          if k >= |lead| { assert (lead + trail)[k] == trail[k - |lead|]; }
        }
      }
    } else {
      assert lead + middle + trail == lead + (middle + trail);
      TrimStartSkips(lead, middle + trail);
      TrimEndSkips(middle, trail);
    }
  }

  /** A string with no whitespace at either end is left as it is. */
  lemma TrimOfTrimmed(r: string)
    requires Trimmed(r)
    ensures TrimWhitespace(r) == r
  {
    assert [] + r + [] == r;
    TrimOfFramed([], r, []);
  }

  lemma TrimIdempotent(s: string)
    ensures TrimWhitespace(TrimWhitespace(s)) == TrimWhitespace(s)
  {
    TrimOfTrimmed(TrimWhitespace(s));
  }

  // ---------------------------------------------------------------------
  // String.prototype.split with a one-character separator
  // ---------------------------------------------------------------------

  function Join(parts: seq<string>, sep: char): string
  {
    if |parts| == 0 then ""
    else if |parts| == 1 then parts[0]
    else parts[0] + [sep] + Join(parts[1..], sep)
  }

  /** `s.split(sep)`: at least one part, no part holds `sep`, and joining the
      parts with `sep` gives `s` back. */
  function Split(s: string, sep: char): (parts: seq<string>)
    ensures |parts| >= 1
    ensures forall k :: 0 <= k < |parts| ==> sep !in parts[k]
    ensures Join(parts, sep) == s
  {
    if s == [] then [""]
    else
      var rest := Split(s[1..], sep);
      if s[0] == sep then
        assert ([""] + rest)[1..] == rest;
        assert s == [sep] + s[1..];
        [""] + rest
      else
        var parts := [[s[0]] + rest[0]] + rest[1..];
        assert parts[1..] == rest[1..];
        assert s == [s[0]] + s[1..];
        assert |rest| > 1 ==> Join(rest, sep) == rest[0] + [sep] + Join(rest[1..], sep);
        assert |rest| > 1 ==> Join(parts, sep) == [s[0]] + rest[0] + [sep] + Join(rest[1..], sep);
        parts
  }

  lemma {:induction false} SplitWithout(x: string, sep: char)
    requires sep !in x
    ensures Split(x, sep) == [x]
    decreases |x|
  {
    if x != [] {
      SplitWithout(x[1..], sep);
      assert [x[0]] + x[1..] == x;
    }
  }

  lemma {:induction false} SplitAfter(x: string, sep: char, r: string)
    requires sep !in x
    ensures Split(x + [sep] + r, sep) == [x] + Split(r, sep)
    decreases |x|
  {
    var s := x + [sep] + r;
    if x == [] {
      assert s[1..] == r;
    } else {
      assert s[1..] == x[1..] + [sep] + r;
      SplitAfter(x[1..], sep, r);
      assert [x[0]] + x[1..] == x;
    }
  }

  /** The other half of the round trip: splitting parts joined with `sep`
      gives the parts back, when none of them holds `sep`. */
  lemma {:induction false} SplitJoin(parts: seq<string>, sep: char)
    requires |parts| >= 1
    requires forall k :: 0 <= k < |parts| ==> sep !in parts[k]
    ensures Split(Join(parts, sep), sep) == parts
  {
    if |parts| == 1 {
      SplitWithout(parts[0], sep);
    } else {
      SplitJoin(parts[1..], sep);
      SplitAfter(parts[0], sep, Join(parts[1..], sep));
      assert [parts[0]] + parts[1..] == parts;
    }
  }

  lemma JoinHead(parts: seq<string>, sep: char)
    requires |parts| >= 1
    ensures parts[0] <= Join(parts, sep)
    ensures |parts| > 1 ==> |Join(parts, sep)| > |parts[0]| && Join(parts, sep)[|parts[0]|] == sep
    ensures |parts| == 1 ==> Join(parts, sep) == parts[0]
  {
  }

  /** `apiKey.split("_")[0]`: the part of the key before its first `_`, or the
      whole key when it has none. */
  function ProjectIdOf(apiKey: string): (id: string)
    ensures id <= apiKey
    ensures '_' !in id
    ensures id == apiKey || apiKey[|id|] == '_'
  {
    var parts := Split(apiKey, '_');
    JoinHead(parts, '_');
    parts[0]
  }

  // ---------------------------------------------------------------------
  // Deta(projectKey?, authToken?) and DetaClass.BaseSafe
  // ---------------------------------------------------------------------

  /** `KeyType` of the store's SDK: how the client authenticates. */
  datatype KeyType = AuthToken | ProjectKey

  /** The handle `BaseSafe` opens: the client's credentials, the trimmed base
      name, and the schema and host passed through. */
  datatype BaseSafeClass = BaseSafeClass(
    key: string, keyType: KeyType, projectId: string, baseName: string,
    schema: seq<Field>, host: Option<string>)

  /** `x?.trim()` */
  function TrimOpt(o: Option<string>): Option<string>
  {
    match o
    case None => None
    case Some(s) => Some(TrimWhitespace(s))
  }

  /** A JavaScript string is truthy when it is defined and not empty. */
  predicate Truthy(o: Option<string>)
  {
    o.Some? && o.value != []
  }

  /** Supplied and not only whitespace. */
  predicate HasText(o: Option<string>)
  {
    o.Some? && !AllWhitespace(o.value)
  }

  /** The client `Deta` builds. */
  datatype DetaClass = DetaClass(key: string, keyType: KeyType, projectId: string)
  {
    /** `BaseSafe(baseName, schema, host)`: fails when the name is missing or
        only whitespace; otherwise keeps this client's credentials and the
        trimmed name. */
    function BaseSafe(baseName: Option<string>, schema: seq<Field>, host: Option<string>): (r: Result<BaseSafeClass>)
      ensures r.Failure? <==> !HasText(baseName)
      ensures r.Failure? ==> r.error == "Base name is not defined"
      ensures r.Success? ==>
        r.value.key == key && r.value.keyType == keyType && r.value.projectId == projectId
        && r.value.schema == schema && r.value.host == host
      ensures r.Success? ==>
        r.value.baseName != [] && Trimmed(r.value.baseName) && r.value.baseName == TrimWhitespace(baseName.value)
    {
      var name := TrimOpt(baseName);
      if !Truthy(name) then Failure("Base name is not defined")
      else Success(BaseSafeClass(key, keyType, projectId, name.value, schema, host))
    }
  }

  /** `Deta(projectKey?, authToken?)`, with `process.env.DETA_PROJECT_KEY`
      given as `env`. A token is used only together with a project key; a
      project key given here wins over the environment; with neither there is
      no client. The project id is the part of the key before its first `_`. */
  function Deta(projectKey: Option<string>, authToken: Option<string>, env: Option<string>): (r: Result<DetaClass>)
    ensures r.Failure? <==> !HasText(projectKey) && !HasText(env)
    ensures r.Failure? ==> r.error == "Project key is not defined"
    ensures r.Success? ==> r.value.key != [] && Trimmed(r.value.key)
    ensures r.Success? && r.value.keyType == AuthToken <==> HasText(authToken) && HasText(projectKey)
    ensures r.Success? && r.value.keyType == AuthToken ==>
      r.value.key == TrimWhitespace(authToken.value) && r.value.projectId == TrimWhitespace(projectKey.value)
    ensures r.Success? && r.value.keyType == ProjectKey ==>
      r.value.key == (if HasText(projectKey) then TrimWhitespace(projectKey.value) else TrimWhitespace(env.value))
    ensures r.Success? && r.value.keyType == ProjectKey ==>
      r.value.projectId <= r.value.key && '_' !in r.value.projectId
      && (r.value.projectId == r.value.key || r.value.key[|r.value.projectId|] == '_')
  {
    var token := TrimOpt(authToken);
    var key := TrimOpt(projectKey);
    if Truthy(token) && Truthy(key) then
      Success(DetaClass(token.value, AuthToken, key.value))
    else
      var apiKey := if Truthy(key) then key else TrimOpt(env);
      if !Truthy(apiKey) then Failure("Project key is not defined")
      else Success(DetaClass(apiKey.value, ProjectKey, ProjectIdOf(apiKey.value)))
  }

  /** An auth token without a usable project key is ignored. */
  lemma TokenNeedsProjectKey(projectKey: Option<string>, token: Option<string>, token': Option<string>, env: Option<string>)
    requires !HasText(projectKey)
    ensures Deta(projectKey, token, env) == Deta(projectKey, token', env)
  {
  }

  /** A usable project key given as an argument makes the environment irrelevant. */
  lemma ArgumentOverridesEnvironment(projectKey: Option<string>, token: Option<string>, env: Option<string>, env': Option<string>)
    requires HasText(projectKey)
    ensures Deta(projectKey, token, env) == Deta(projectKey, token, env')
  {
  }
}
