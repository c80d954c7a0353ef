/** The string and map helpers of the discovery tool: token validation, file and
    resource naming, truncation, recursive dict merge, organisation extraction
    from a URL, escaping for Terraform strings, import identifiers and the
    parsing of boolean environment values. */
module Utils {
  import opened Values

  // ---------------------------------------------------------------------------
  // Generic string helpers (the Python built-ins the helpers are made of)

  predicate StartsWith(s: string, prefix: string) {
    |prefix| <= |s| && s[..|prefix|] == prefix
  }

  /** `s.replace(c, t)` for a one-character `c`: every occurrence of `c` becomes `t`. */
  function ReplaceChar(s: string, c: char, t: string): string
    decreases |s|
  {
    if s == [] then []
    else (if s[0] == c then t else [s[0]]) + ReplaceChar(s[1..], c, t)
  }

  lemma {:induction false} ReplaceCharAppend(a: string, b: string, c: char, t: string)
    ensures ReplaceChar(a + b, c, t) == ReplaceChar(a, c, t) + ReplaceChar(b, c, t)
    decreases |a|
  {
    if a == [] {
      assert a + b == b;
    } else {
      assert (a + b)[0] == a[0];
      assert (a + b)[1..] == a[1..] + b;
      ReplaceCharAppend(a[1..], b, c, t);
    }
  }

  lemma {:induction false} ReplaceCharAbsent(s: string, c: char, t: string)
    requires forall i :: 0 <= i < |s| ==> s[i] != c
    ensures ReplaceChar(s, c, t) == s
    decreases |s|
  {
    if s != [] {
      ReplaceCharAbsent(s[1..], c, t);
    }
  }

  /** `re.sub('_+', '_', s)`: every maximal run of underscores becomes one. */
  function CollapseUnderscores(s: string): string
    decreases |s|
  {
    if |s| <= 1 then s
    else if s[0] == '_' && s[1] == '_' then CollapseUnderscores(s[1..])
    else [s[0]] + CollapseUnderscores(s[1..])
  }

  predicate NoDoubleUnderscore(s: string) {
    forall i :: 0 <= i < |s| - 1 ==> !(s[i] == '_' && s[i + 1] == '_')
  }

  /** `s.lstrip('_')`. */
  function StripLeft(s: string): string
    decreases |s|
  {
    if s != [] && s[0] == '_' then StripLeft(s[1..]) else s
  }

  /** `s.rstrip('_')`. */
  function StripRight(s: string): string
    decreases |s|
  {
    if s != [] && s[|s| - 1] == '_' then StripRight(s[..|s| - 1]) else s
  }

  /** `s.strip('_')`. */
  function Strip(s: string): string {
    StripRight(StripLeft(s))
  }

  /** The characters of `s` other than underscores, in order. */
  function NonUnderscores(s: string): string
    decreases |s|
  {
    if s == [] then [] else (if s[0] == '_' then [] else [s[0]]) + NonUnderscores(s[1..])
  }

  lemma {:induction false} CollapseFacts(s: string)
    ensures NoDoubleUnderscore(CollapseUnderscores(s))
    ensures |s| > 0 ==> |CollapseUnderscores(s)| > 0 && CollapseUnderscores(s)[0] == s[0]
    ensures forall c :: c in CollapseUnderscores(s) ==> c in s
    ensures NonUnderscores(CollapseUnderscores(s)) == NonUnderscores(s)
    decreases |s|
  {
    if |s| > 1 {
      CollapseFacts(s[1..]);
      var rest := CollapseUnderscores(s[1..]);
      assert rest[0] == s[1];
      if s[0] == '_' && s[1] == '_' {
        assert NonUnderscores(s) == NonUnderscores(s[1..]);
      } else {
        var r := [s[0]] + rest;
        assert r[1..] == rest;
        forall i | 0 <= i < |r| - 1 ensures !(r[i] == '_' && r[i + 1] == '_') {
          if i > 0 {
            assert r[i] == rest[i - 1] && r[i + 1] == rest[i];
          }
        }
        forall c | c in r ensures c in s {
          if c != s[0] {
            assert c in rest;
          }
        }
      }
    }
  }

  lemma {:induction false} CollapseIdentity(s: string)
    requires NoDoubleUnderscore(s)
    ensures CollapseUnderscores(s) == s
    decreases |s|
  {
    if |s| > 1 {
      assert !(s[0] == '_' && s[1] == '_');
      CollapseIdentity(s[1..]);
    }
  }

  lemma {:induction false} StripLeftFacts(s: string) returns (k: nat)
    ensures k <= |s| && StripLeft(s) == s[k..]
    ensures StripLeft(s) == [] || StripLeft(s)[0] != '_'
    ensures NonUnderscores(StripLeft(s)) == NonUnderscores(s)
    decreases |s|
  {
    if s != [] && s[0] == '_' {
      var k' := StripLeftFacts(s[1..]);
      assert StripLeft(s) == StripLeft(s[1..]);
      assert NonUnderscores(s) == [] + NonUnderscores(s[1..]);
      assert s[1..][k'..] == s[k' + 1..];
      k := k' + 1;
    } else {
      k := 0;
      assert StripLeft(s) == s[0..];
    }
  }

  lemma {:induction false} NonUnderscoresAppend(a: string, b: string)
    ensures NonUnderscores(a + b) == NonUnderscores(a) + NonUnderscores(b)
    decreases |a|
  {
    if a == [] {
      assert a + b == b;
    } else {
      assert (a + b)[1..] == a[1..] + b;
      NonUnderscoresAppend(a[1..], b);
    }
  }

  lemma {:induction false} StripRightFacts(s: string) returns (k: nat)
    ensures k <= |s| && StripRight(s) == s[..k]
    ensures StripRight(s) == [] || StripRight(s)[|StripRight(s)| - 1] != '_'
    ensures NonUnderscores(StripRight(s)) == NonUnderscores(s)
    decreases |s|
  {
    if s != [] && s[|s| - 1] == '_' {
      var front := s[..|s| - 1];
      k := StripRightFacts(front);
      assert StripRight(s) == StripRight(front);
      assert front[..k] == s[..k];
      assert s == front + ['_'];
      NonUnderscoresAppend(front, ['_']);
    } else {
      k := |s|;
      assert StripRight(s) == s[..|s|];
    }
  }

  /** `Strip(s)` is the slice `s[i..j]`: it neither starts nor ends with an
      underscore and keeps every other character of `s`. */
  lemma {:induction false} StripFacts(s: string) returns (i: nat, j: nat)
    ensures i <= j <= |s| && Strip(s) == s[i..j]
    ensures Strip(s) == [] || (Strip(s)[0] != '_' && Strip(s)[|Strip(s)| - 1] != '_')
    ensures NonUnderscores(Strip(s)) == NonUnderscores(s)
  {
    var l := StripLeft(s);
    i := StripLeftFacts(s);
    var k := StripRightFacts(l);
    j := i + k;
    assert l[..k] == s[i..j];
    if Strip(s) != [] {
      assert Strip(s)[0] == l[0];
    }
  }

  lemma StripIdentity(s: string)
    requires s == [] || (s[0] != '_' && s[|s| - 1] != '_')
    ensures Strip(s) == s
  {
  }

  /** A fact every slice inherits from its sequence. */
  lemma SliceKeeps(s: string, i: int, j: int)
    requires 0 <= i <= j <= |s|
    ensures forall c :: c in s[i..j] ==> c in s
    ensures NoDoubleUnderscore(s) ==> NoDoubleUnderscore(s[i..j])
  {
    forall c | c in s[i..j] ensures c in s {
      var k :| 0 <= k < j - i && s[i..j][k] == c;
      assert s[i + k] == c;
    }
    if NoDoubleUnderscore(s) {
      forall k | 0 <= k < j - i - 1 ensures !(s[i..j][k] == '_' && s[i..j][k + 1] == '_') {
        assert s[i..j][k] == s[i + k] && s[i..j][k + 1] == s[i + k + 1];
      }
    }
  }

  // ---------------------------------------------------------------------------
  // validate_token

  predicate IsLowerHex(c: char) {
    ('0' <= c <= '9') || ('a' <= c <= 'f')
  }

  predicate AllLowerHex(s: string) {
    forall i :: 0 <= i < |s| ==> IsLowerHex(s[i])
  }

  /** `re.match(r'^[a-f0-9]+$', s)`: one or more hex digits, then the end of the
      string or a single newline that ends it (the way Python's `$` matches). */
  predicate MatchesHexPattern(s: string) {
    || (|s| >= 1 && AllLowerHex(s))
    || (|s| >= 2 && s[|s| - 1] == '\n' && AllLowerHex(s[..|s| - 1]))
  }

  /** The token is a 64-character hex string (legacy tokens), or an
      organisation token with the `sntrys_` prefix that is longer than 20. */
  function ValidateToken(token: string): bool {
    if token == "" then false
    else if |token| == 64 && MatchesHexPattern(token) then true
    else if StartsWith(token, "sntrys_") && |token| > 20 then true
    else false
  }

  lemma ValidateTokenMeaning(token: string)
    ensures ValidateToken(token) <==>
      || (|token| == 64 && AllLowerHex(token))
      || (|token| == 64 && token[63] == '\n' && AllLowerHex(token[..63]))
      || (|token| > 20 && token[..7] == "sntrys_")
    ensures ValidateToken(token) ==> |token| > 20
    ensures !ValidateToken("")
  {
  }

  // ---------------------------------------------------------------------------
  // safe_filename

  /** The characters of the class `[<>:"/\\|?*]` that `safe_filename` replaces. */
  predicate IsInvalidFilenameChar(c: char) {
    c in "<>:\"/\\|?*"
  }

  /** A character that never survives `safe_filename`: it is replaced by or is an underscore. */
  predicate IsFilenameSeparator(c: char) {
    IsInvalidFilenameChar(c) || c == ' ' || c == '_'
  }

  /** `re.sub(r'[<>:"/\\|?*]', '_', s)`. */
  function ReplaceInvalidFilenameChars(s: string): (r: string)
    ensures |r| == |s|
    ensures forall i :: 0 <= i < |r| ==> !IsInvalidFilenameChar(r[i])
    ensures forall i :: 0 <= i < |s| && !IsInvalidFilenameChar(s[i]) ==> r[i] == s[i]
    ensures forall i :: 0 <= i < |s| && IsInvalidFilenameChar(s[i]) ==> r[i] == '_'
  {
    seq(|s|, i requires 0 <= i < |s| => if IsInvalidFilenameChar(s[i]) then '_' else s[i])
  }

  /** The string `safe_filename` holds before it falls back to "unnamed". */
  function FilenameCore(name: string): string {
    Strip(CollapseUnderscores(ReplaceChar(ReplaceInvalidFilenameChars(name), ' ', "_")))
  }

  function SafeFilename(name: string): string {
    var safe := FilenameCore(name);
    if safe == "" then "unnamed" else safe
  }

  /** The characters of `name` that are not separators, in order. */
  function FilenameKept(name: string): string
    decreases |name|
  {
    if name == [] then []
    else (if IsFilenameSeparator(name[0]) then [] else [name[0]]) + FilenameKept(name[1..])
  }

  /** The first two replacement steps keep exactly the non-separator characters
      and turn every separator into an underscore. */
  lemma {:induction false} FilenameReplaceFacts(name: string)
    ensures var r := ReplaceChar(ReplaceInvalidFilenameChars(name), ' ', "_");
      && (forall c :: c in r ==> !IsInvalidFilenameChar(c) && c != ' ')
      && NonUnderscores(r) == FilenameKept(name)
    decreases |name|
  {
    if name != [] {
      FilenameReplaceFacts(name[1..]);
      var a := ReplaceInvalidFilenameChars(name);
      assert a == [a[0]] + ReplaceInvalidFilenameChars(name[1..]);
      assert ReplaceChar(a, ' ', "_") == (if a[0] == ' ' then "_" else [a[0]])
        + ReplaceChar(ReplaceInvalidFilenameChars(name[1..]), ' ', "_");
    }
  }

  lemma FilenameNoInvalid(name: string)
    requires forall c :: c in name ==> !IsInvalidFilenameChar(c) && c != ' '
    ensures ReplaceChar(ReplaceInvalidFilenameChars(name), ' ', "_") == name
  {
    assert ReplaceInvalidFilenameChars(name) == name;
    ReplaceCharAbsent(name, ' ', "_");
  }

  lemma FilenameCoreFacts(name: string)
    ensures var t := FilenameCore(name);
      && (forall c :: c in t ==> !IsInvalidFilenameChar(c) && c != ' ')
      && NoDoubleUnderscore(t)
      && (t == [] || (t[0] != '_' && t[|t| - 1] != '_'))
      && NonUnderscores(t) == FilenameKept(name)
  {
    var r := ReplaceChar(ReplaceInvalidFilenameChars(name), ' ', "_");
    FilenameReplaceFacts(name);
    var c := CollapseUnderscores(r);
    CollapseFacts(r);
    var i, j := StripFacts(c);
    SliceKeeps(c, i, j);
  }

  /** The result is never empty, holds no character of `<>:"/\|?*` and no space,
      no two underscores in a row, and neither starts nor ends with one. */
  lemma SafeFilenameShape(name: string)
    ensures var r := SafeFilename(name);
      && r != ""
      && (forall i :: 0 <= i < |r| ==> !IsInvalidFilenameChar(r[i]) && r[i] != ' ')
      && NoDoubleUnderscore(r)
      && r[0] != '_' && r[|r| - 1] != '_'
  {
    FilenameCoreFacts(name);
    var r := SafeFilename(name);
    forall i | 0 <= i < |r| ensures !IsInvalidFilenameChar(r[i]) && r[i] != ' ' {
      assert r[i] in r;
    }
  }

  /** "unnamed" is the answer when every character is a separator; otherwise it
      is the answer only for a name whose surviving characters spell "unnamed". */
  lemma SafeFilenameUnnamed(name: string)
    ensures (forall i :: 0 <= i < |name| ==> IsFilenameSeparator(name[i])) ==> SafeFilename(name) == "unnamed"
    ensures SafeFilename(name) == "unnamed" ==> FilenameKept(name) == "" || FilenameKept(name) == "unnamed"
  {
    FilenameCoreFacts(name);
    if forall i :: 0 <= i < |name| ==> IsFilenameSeparator(name[i]) {
      SeparatorsOnlyGiveEmptyCore(name);
    }
    UnnamedHasNoUnderscore();
  }

  lemma SeparatorsOnlyGiveEmptyCore(name: string)
    requires forall i :: 0 <= i < |name| ==> IsFilenameSeparator(name[i])
    ensures FilenameCore(name) == ""
  {
    FilenameCoreFacts(name);
    KeptAllSeparators(name);
    NoUnderscoreLeft(FilenameCore(name));
  }

  lemma UnnamedHasNoUnderscore()
    ensures NonUnderscores("unnamed") == "unnamed"
  {
  }

  lemma NoUnderscoreLeft(t: string)
    requires t == [] || t[0] != '_'
    requires NonUnderscores(t) == []
    ensures t == []
  {
  }

  lemma {:induction false} KeptAllSeparators(name: string)
    requires forall i :: 0 <= i < |name| ==> IsFilenameSeparator(name[i])
    ensures FilenameKept(name) == ""
    decreases |name|
  {
    if name != [] {
      KeptAllSeparators(name[1..]);
    }
  }

  lemma SafeFilenameIdempotent(name: string)
    ensures SafeFilename(SafeFilename(name)) == SafeFilename(name)
  {
    var r := SafeFilename(name);
    SafeFilenameShape(name);
    forall c | c in r ensures !IsInvalidFilenameChar(c) && c != ' ' {
      var i :| 0 <= i < |r| && r[i] == c;
    }
    FilenameNoInvalid(r);
    CollapseIdentity(r);
    StripIdentity(r);
  }

  // ---------------------------------------------------------------------------
  // safe_resource_name

  function LowerAscii(c: char): char {
    if 'A' <= c <= 'Z' then (c as int + 32) as char else c
  }

  predicate IsDigit(c: char) {
    '0' <= c <= '9'
  }

  predicate IsResourceChar(c: char) {
    ('a' <= c <= 'z') || IsDigit(c) || c == '_'
  }

  /** `re.sub(r'[^a-z0-9_]', '_', name.lower())`, with lower-casing on ASCII letters. */
  function LowerAndReplace(s: string): (r: string)
    ensures |r| == |s|
    ensures forall i :: 0 <= i < |r| ==> IsResourceChar(r[i])
    ensures forall i :: 0 <= i < |s| && IsResourceChar(LowerAscii(s[i])) ==> r[i] == LowerAscii(s[i])
    ensures forall i :: 0 <= i < |s| && !IsResourceChar(LowerAscii(s[i])) ==> r[i] == '_'
  {
    seq(|s|, i requires 0 <= i < |s| =>
      if IsResourceChar(LowerAscii(s[i])) then LowerAscii(s[i]) else '_')
  }

  function ResourceCore(name: string): string {
    Strip(CollapseUnderscores(LowerAndReplace(name)))
  }

  function SafeResourceName(name: string): string {
    var safe := ResourceCore(name);
    var safe' := if safe != "" && IsDigit(safe[0]) then "_" + safe else safe;
    if safe' == "" then "unnamed" else safe'
  }

  lemma ResourceCoreFacts(name: string)
    ensures var t := ResourceCore(name);
      && (forall c :: c in t ==> IsResourceChar(c))
      && NoDoubleUnderscore(t)
      && (t == [] || (t[0] != '_' && t[|t| - 1] != '_'))
  {
    var r := LowerAndReplace(name);
    CollapseFacts(r);
    var c := CollapseUnderscores(r);
    var i, j := StripFacts(c);
    SliceKeeps(c, i, j);
  }

  /** The result is a non-empty name over `[a-z0-9_]` with no doubled underscore
      and no trailing one, that never starts with a digit and starts with an
      underscore only in front of a digit. */
  lemma SafeResourceNameShape(name: string)
    ensures var r := SafeResourceName(name);
      && r != ""
      && (forall i :: 0 <= i < |r| ==> IsResourceChar(r[i]))
      && NoDoubleUnderscore(r)
      && r[|r| - 1] != '_'
      && !IsDigit(r[0])
      && (r[0] == '_' ==> |r| >= 2 && IsDigit(r[1]))
  {
    ResourceCoreFacts(name);
    var t := ResourceCore(name);
    var r := SafeResourceName(name);
    if t != "" && IsDigit(t[0]) {
      assert r == "_" + t;
      forall i | 0 <= i < |r| ensures IsResourceChar(r[i]) {
        if i > 0 { assert r[i] == t[i - 1] && t[i - 1] in t; }
      }
      forall i | 0 <= i < |r| - 1 ensures !(r[i] == '_' && r[i + 1] == '_') {
        if i > 0 { assert r[i] == t[i - 1] && r[i + 1] == t[i]; }
      }
    } else {
      forall i | 0 <= i < |r| ensures IsResourceChar(r[i]) {
        assert r[i] in r;
      }
    }
  }

  lemma SafeResourceNameIdempotent(name: string)
    ensures SafeResourceName(SafeResourceName(name)) == SafeResourceName(name)
  {
    var r := SafeResourceName(name);
    SafeResourceNameShape(name);
    assert LowerAndReplace(r) == r;
    CollapseIdentity(r);
    if r[0] == '_' {
      var t := r[1..];
      assert Strip(r) == t by {
        assert StripLeft(r) == StripLeft(t);
        assert StripLeft(t) == t;
      }
      assert SafeResourceName(r) == "_" + t;
    } else {
      StripIdentity(r);
    }
  }

  // ---------------------------------------------------------------------------
  // truncate_string

  /** Python's `s[:k]`, where a negative `k` counts from the end. */
  function PrefixSlice(s: string, k: int): (r: string)
    ensures |r| == if k >= 0 then (if k <= |s| then k else |s|) else (if |s| + k >= 0 then |s| + k else 0)
  {
    if k >= 0 then (if k <= |s| then s[..k] else s)
    else (if |s| + k >= 0 then s[..|s| + k] else [])
  }

  function TruncateString(text: string, maxLength: int): (r: string)
    ensures |text| <= maxLength ==> r == text
    ensures maxLength >= 3 && |text| > maxLength ==>
      |r| == maxLength && r[..maxLength - 3] == text[..maxLength - 3] && r[maxLength - 3..] == "..."
  {
    if |text| <= maxLength then text else PrefixSlice(text, maxLength - 3) + "..."
  }

  /** Below three the negative slice bound counts from the end, so the result
      can be longer than the limit. */
  lemma TruncateShortLimit()
    ensures TruncateString("abcd", 0) == "a..."
  {
  }

  // ---------------------------------------------------------------------------
  // merge_dicts

  /** The recursive merge: every key of either dict; where both values are
      dicts they are merged, otherwise `dict2`'s value wins. */
  function Merged(dict1: map<string, Json>, dict2: map<string, Json>): map<string, Json>
    decreases JObj(dict2)
  {
    map k | k in dict1.Keys + dict2.Keys ::
      if k !in dict2 then dict1[k]
      else if k in dict1 && dict1[k].JObj? && dict2[k].JObj? then JObj(Merged(dict1[k].obj, dict2[k].obj))
      else dict2[k]
  }

  /** `merge_dicts`: copies `dict1` and then folds every entry of `dict2` into
      the copy, recursing where both sides hold a dict. `dict1` is a value and
      cannot change. */
  method MergeDicts(dict1: map<string, Json>, dict2: map<string, Json>) returns (result: map<string, Json>)
    ensures result == Merged(dict1, dict2)
    decreases JObj(dict2)
  {
    result := dict1;
    var pending := dict2.Keys;
    while pending != {}
      invariant pending <= dict2.Keys
      invariant result.Keys == dict1.Keys + (dict2.Keys - pending)
      invariant forall k :: k in result ==> result[k] == if k in dict2 && k !in pending then Merged(dict1, dict2)[k] else dict1[k]
      decreases pending
    {
      var key :| key in pending;
      var value := dict2[key];
      if key in result && result[key].JObj? && value.JObj? {
        assert result[key] == dict1[key];
        var inner := MergeDicts(result[key].obj, value.obj);
        result := result[key := JObj(inner)];
      } else {
        result := result[key := value];
      }
      pending := pending - {key};
    }
  }

  /** The key set of the merge is the union of both key sets; a key only in
      `dict1` keeps its value; on a shared key two dicts merge recursively and
      anything else takes `dict2`'s value. */
  lemma MergedMeaning(dict1: map<string, Json>, dict2: map<string, Json>)
    ensures Merged(dict1, dict2).Keys == dict1.Keys + dict2.Keys
    ensures forall k :: k in dict1 && k !in dict2 ==> Merged(dict1, dict2)[k] == dict1[k]
    ensures forall k :: k in dict2 && !(k in dict1 && dict1[k].JObj? && dict2[k].JObj?) ==> Merged(dict1, dict2)[k] == dict2[k]
    ensures forall k :: k in dict1 && k in dict2 && dict1[k].JObj? && dict2[k].JObj? ==>
      Merged(dict1, dict2)[k] == JObj(Merged(dict1[k].obj, dict2[k].obj))
  {
  }

  /** Where no shared key holds a dict on both sides, the merge is the plain
      right-biased union `{**dict1, **dict2}`. */
  lemma MergedFlat(dict1: map<string, Json>, dict2: map<string, Json>)
    requires forall k :: k in dict1 && k in dict2 ==> !(dict1[k].JObj? && dict2[k].JObj?)
    ensures Merged(dict1, dict2) == dict1 + dict2
  {
  }

  /** Merging into an empty dict, or merging an empty dict in, changes nothing. */
  lemma MergedEmpty(d: map<string, Json>)
    ensures Merged(d, map[]) == d
    ensures Merged(map[], d) == d
  {
  }

  /** Merging a dict with itself gives the same dict, at every depth. */
  lemma {:induction false} MergedIdempotent(d: map<string, Json>)
    ensures Merged(d, d) == d
    decreases JObj(d)
  {
    forall k | k in d && d[k].JObj?
      ensures Merged(d[k].obj, d[k].obj) == d[k].obj
    {
      MergedIdempotent(d[k].obj);
    }
  }

  // ---------------------------------------------------------------------------
  // extract_org_from_url

  const OrgMarker: string := "sentry.io/organizations/"

  /** The longest prefix of `s` without a '/'. */
  function SlugRun(s: string): (r: string)
    ensures |r| <= |s| && r == s[..|r|]
    ensures forall i :: 0 <= i < |r| ==> r[i] != '/'
    ensures |r| == |s| || s[|r|] == '/'
    decreases |s|
  {
    if s == [] || s[0] == '/' then [] else [s[0]] + SlugRun(s[1..])
  }

  /** The pattern `sentry\.io/organizations/([^/]+)` matches at position `i`. */
  predicate MatchesAt(url: string, i: nat) {
    i + |OrgMarker| < |url| && url[i..i + |OrgMarker|] == OrgMarker && url[i + |OrgMarker|] != '/'
  }

  function FirstMatchFrom(url: string, i: nat): (r: Option<nat>)
    ensures r.Some? ==> i <= r.value && MatchesAt(url, r.value)
    ensures r.Some? ==> forall j :: i <= j < r.value ==> !MatchesAt(url, j)
    ensures r.None? ==> forall j :: i <= j ==> !MatchesAt(url, j)
    decreases |url| - i
  {
    if i + |OrgMarker| >= |url| then None
    else if MatchesAt(url, i) then Some(i)
    else FirstMatchFrom(url, i + 1)
  }

  /** `re.search` finds the leftmost position where the pattern matches; the
      group is the maximal run of non-'/' characters after the marker. */
  function ExtractOrgFromUrl(url: string): (r: Option<string>)
    ensures r.None? <==> forall i: nat :: !MatchesAt(url, i)
    ensures r.Some? ==> exists i: nat ::
      && MatchesAt(url, i)
      && (forall j: nat :: j < i ==> !MatchesAt(url, j))
      && r.value == SlugRun(url[i + |OrgMarker|..])
    ensures r.Some? ==> r.value != "" && '/' !in r.value
  {
    match FirstMatchFrom(url, 0)
    case None => None
    case Some(i) =>
      var slug := SlugRun(url[i + |OrgMarker|..]);
      assert slug[0] == url[i + |OrgMarker|];
      Some(slug)
  }

  // ---------------------------------------------------------------------------
  // sanitize_terraform_string

  /** The escape of one character inside a Terraform string literal. */
  function EscapeChar(c: char): string {
    if c == '\\' then "\\\\"
    else if c == '"' then "\\\""
    else if c == '\n' then "\\n"
    else if c == '\r' then "\\r"
    else if c == '\t' then "\\t"
    else [c]
  }

  predicate IsEscaped(c: char) {
    c == '\\' || c == '"' || c == '\n' || c == '\r' || c == '\t'
  }

  /** The single-pass escape: every character replaced by its escape. */
  function Escaped(s: string): string
    decreases |s|
  {
    if s == [] then [] else EscapeChar(s[0]) + Escaped(s[1..])
  }

  /** The chain of five `replace` calls, backslash first. */
  function SanitizeTerraformString(value: string): string {
    var escaped := ReplaceChar(value, '\\', "\\\\");
    var escaped := ReplaceChar(escaped, '"', "\\\"");
    var escaped := ReplaceChar(escaped, '\n', "\\n");
    var escaped := ReplaceChar(escaped, '\r', "\\r");
    ReplaceChar(escaped, '\t', "\\t")
  }

  function CountEscaped(s: string): nat
    decreases |s|
  {
    if s == [] then 0 else (if IsEscaped(s[0]) then 1 else 0) + CountEscaped(s[1..])
  }

  lemma ReplaceCharSingle(c: char, x: char, t: string)
    ensures ReplaceChar([c], x, t) == if c == x then t else [c]
  {
    assert [c][1..] == [];
  }

  lemma SanitizeOneChar(c: char)
    ensures SanitizeTerraformString([c]) == EscapeChar(c)
  {
    var s1 := ReplaceChar([c], '\\', "\\\\");
    ReplaceCharSingle(c, '\\', "\\\\");
    var s2 := ReplaceChar(s1, '"', "\\\"");
    if c == '"' { ReplaceCharSingle(c, '"', "\\\""); } else { ReplaceCharAbsent(s1, '"', "\\\""); }
    assert s2 == if c == '"' then "\\\"" else s1;
    var s3 := ReplaceChar(s2, '\n', "\\n");
    if c == '\n' { ReplaceCharSingle(c, '\n', "\\n"); } else { ReplaceCharAbsent(s2, '\n', "\\n"); }
    assert s3 == if c == '\n' then "\\n" else s2;
    var s4 := ReplaceChar(s3, '\r', "\\r");
    if c == '\r' { ReplaceCharSingle(c, '\r', "\\r"); } else { ReplaceCharAbsent(s3, '\r', "\\r"); }
    assert s4 == if c == '\r' then "\\r" else s3;
    if c == '\t' { ReplaceCharSingle(c, '\t', "\\t"); } else { ReplaceCharAbsent(s4, '\t', "\\t"); }
  }

  lemma SanitizeAppend(a: string, b: string)
    ensures SanitizeTerraformString(a + b) == SanitizeTerraformString(a) + SanitizeTerraformString(b)
  {
    var s1a, s1b := ReplaceChar(a, '\\', "\\\\"), ReplaceChar(b, '\\', "\\\\");
    ReplaceCharAppend(a, b, '\\', "\\\\");
    var s2a, s2b := ReplaceChar(s1a, '"', "\\\""), ReplaceChar(s1b, '"', "\\\"");
    ReplaceCharAppend(s1a, s1b, '"', "\\\"");
    var s3a, s3b := ReplaceChar(s2a, '\n', "\\n"), ReplaceChar(s2b, '\n', "\\n");
    ReplaceCharAppend(s2a, s2b, '\n', "\\n");
    var s4a, s4b := ReplaceChar(s3a, '\r', "\\r"), ReplaceChar(s3b, '\r', "\\r");
    ReplaceCharAppend(s3a, s3b, '\r', "\\r");
    ReplaceCharAppend(s4a, s4b, '\t', "\\t");
  }

  /** Because backslashes are doubled first, the chain of replacements equals
      the single per-character escape. */
  lemma {:induction false} SanitizeIsEscape(value: string)
    ensures SanitizeTerraformString(value) == Escaped(value)
    decreases |value|
  {
    if value != [] {
      assert value == [value[0]] + value[1..];
      SanitizeAppend([value[0]], value[1..]);
      SanitizeOneChar(value[0]);
      SanitizeIsEscape(value[1..]);
    }
  }

  lemma {:induction false} EscapedFacts(s: string)
    ensures |Escaped(s)| == |s| + CountEscaped(s)
    ensures forall i :: 0 <= i < |Escaped(s)| ==> Escaped(s)[i] !in "\n\r\t"
    decreases |s|
  {
    if s != [] {
      EscapedFacts(s[1..]);
      var e := EscapeChar(s[0]);
      var r := Escaped(s[1..]);
      forall i | 0 <= i < |e + r| ensures (e + r)[i] !in "\n\r\t" {
        if i >= |e| { assert (e + r)[i] == r[i - |e|]; }
      }
    }
  }

  /** No raw newline, carriage return or tab survives, and the output is longer
      than the input by one character per escaped character. */
  lemma SanitizeShape(value: string)
    ensures var r := SanitizeTerraformString(value);
      && |r| == |value| + CountEscaped(value)
      && (forall i :: 0 <= i < |r| ==> r[i] != '\n' && r[i] != '\r' && r[i] != '\t')
  {
    SanitizeIsEscape(value);
    EscapedFacts(value);
  }

  /** Reading the escapes back, as Terraform's parser of quoted strings does. */
  function Unescape(s: string): string
    decreases |s|
  {
    if s == [] then []
    else if s[0] == '\\' && |s| >= 2 then
      (if s[1] == 'n' then "\n" else if s[1] == 'r' then "\r" else if s[1] == 't' then "\t" else [s[1]])
        + Unescape(s[2..])
    else [s[0]] + Unescape(s[1..])
  }

  /** Escaping loses nothing: distinct strings stay distinct. */
  lemma {:induction false} SanitizeRoundTrip(value: string)
    ensures Unescape(SanitizeTerraformString(value)) == value
    decreases |value|
  {
    SanitizeIsEscape(value);
    UnescapeEscaped(value);
  }

  lemma {:induction false} UnescapeEscaped(value: string)
    ensures Unescape(Escaped(value)) == value
    decreases |value|
  {
    if value != [] {
      UnescapeEscaped(value[1..]);
      var e := EscapeChar(value[0]);
      var r := Escaped(value[1..]);
      if IsEscaped(value[0]) {
        assert (e + r)[2..] == r;
      } else {
        assert (e + r)[1..] == r;
      }
    }
  }

  // ---------------------------------------------------------------------------
  // generate_import_id

  /** The Terraform import identifier: `org/slug/extra` for a team member with a
      non-empty `extra`, `org/slug` otherwise. */
  function GenerateImportId(orgSlug: string, resourceType: string, resourceSlug: string, extra: Option<string>): string {
    if resourceType == "team_member" && extra.Some? && extra.value != "" then
      orgSlug + "/" + resourceSlug + "/" + extra.value
    else
      orgSlug + "/" + resourceSlug
  }

  /** `s.split('/')`. */
  function SplitSlash(s: string): (parts: seq<string>)
    ensures |parts| >= 1
    decreases |s|
  {
    if s == [] then [[]]
    else
      var rest := SplitSlash(s[1..]);
      if s[0] == '/' then [[]] + rest else [[s[0]] + rest[0]] + rest[1..]
  }

  predicate NoSlash(s: string) {
    forall i :: 0 <= i < |s| ==> s[i] != '/'
  }

  lemma {:induction false} SplitSlashJoin(a: string, b: string)
    requires NoSlash(a)
    ensures SplitSlash(a + "/" + b) == [a] + SplitSlash(b)
    decreases |a|
  {
    if a == [] {
      assert a + "/" + b == ['/'] + b;
      assert (['/'] + b)[1..] == b;
    } else {
      assert (a + "/" + b)[1..] == a[1..] + "/" + b;
      SplitSlashJoin(a[1..], b);
      assert [a[0]] + a[1..] == a;
    }
  }

  lemma {:induction false} SplitSlashNone(a: string)
    requires NoSlash(a)
    ensures SplitSlash(a) == [a]
    decreases |a|
  {
    if a != [] {
      SplitSlashNone(a[1..]);
      assert [a[0]] + a[1..] == a;
    }
  }

  /** When no part contains a '/', splitting the identifier on '/' gives the
      parts back: three for a team member with an `extra`, two otherwise. */
  lemma ImportIdSplits(orgSlug: string, resourceType: string, resourceSlug: string, extra: Option<string>)
    requires NoSlash(orgSlug) && NoSlash(resourceSlug) && (extra.Some? ==> NoSlash(extra.value))
    ensures SplitSlash(GenerateImportId(orgSlug, resourceType, resourceSlug, extra)) ==
      if resourceType == "team_member" && extra.Some? && extra.value != "" then [orgSlug, resourceSlug, extra.value]
      else [orgSlug, resourceSlug]
  {
    if resourceType == "team_member" && extra.Some? && extra.value != "" {
      assert orgSlug + "/" + resourceSlug + "/" + extra.value == orgSlug + "/" + (resourceSlug + "/" + extra.value);
      SplitSlashJoin(orgSlug, resourceSlug + "/" + extra.value);
      SplitSlashJoin(resourceSlug, extra.value);
      SplitSlashNone(extra.value);
    } else {
      SplitSlashJoin(orgSlug, resourceSlug);
      SplitSlashNone(resourceSlug);
    }
  }

  // ---------------------------------------------------------------------------
  // get_env_bool (the parsing of the value)

  /** `str.lower()` on ASCII: no upper-case letter is left, each one becomes
      its lower-case letter, and every other character is kept. */
  function LowerString(s: string): (r: string)
    ensures |r| == |s|
    ensures forall i :: 0 <= i < |r| ==> !('A' <= r[i] <= 'Z')
    ensures forall i :: 0 <= i < |s| && 'A' <= s[i] <= 'Z' ==> r[i] as int == s[i] as int + 32
    ensures forall i :: 0 <= i < |s| && !('A' <= s[i] <= 'Z') ==> r[i] == s[i]
  {
    seq(|s|, i requires 0 <= i < |s| => LowerAscii(s[i]))
  }

  /** Lower-casing an already lower-cased string changes nothing. */
  lemma LowerStringIdempotent(s: string)
    ensures LowerString(LowerString(s)) == LowerString(s)
  {
  }

  /** The value of the variable, the empty string when it is unset, read
      without regard to case: "true", "1", "yes", "on" mean true; "false",
      "0", "no", "off" mean false; anything else gives the default. */
  function GetEnvBool(env: map<string, string>, name: string, default: bool): bool {
    var value := LowerString(if name in env then env[name] else "");
    if value in ["true", "1", "yes", "on"] then true
    else if value in ["false", "0", "no", "off"] then false
    else default
  }

  /** An unset variable gives the default; a set one gives true for the four
      true words in any case, false for the four false words in any case, and
      the default for anything else; values equal up to case are read alike. */
  lemma GetEnvBoolMeaning(env: map<string, string>, name: string, default: bool)
    ensures name !in env ==> GetEnvBool(env, name, default) == default
    ensures name in env && LowerString(env[name]) in {"true", "1", "yes", "on"} ==> GetEnvBool(env, name, default)
    ensures name in env && LowerString(env[name]) in {"false", "0", "no", "off"} ==> !GetEnvBool(env, name, default)
    ensures name in env && LowerString(env[name]) !in {"true", "1", "yes", "on", "false", "0", "no", "off"} ==>
      GetEnvBool(env, name, default) == default
    ensures forall other: map<string, string> :: name in env && name in other && LowerString(env[name]) == LowerString(other[name]) ==>
      GetEnvBool(env, name, default) == GetEnvBool(other, name, default)
  {
    assert LowerString("") == "";
  }

  lemma GetEnvBoolExamples(default: bool)
    ensures GetEnvBool(map["V" := "TRUE"], "V", default)
    ensures !GetEnvBool(map["V" := "No"], "V", default)
    ensures GetEnvBool(map["V" := "maybe"], "V", default) == default
    ensures GetEnvBool(map["V" := ""], "V", default) == default
  {
    assert LowerString("TRUE") == "true";
    assert LowerString("No") == "no";
    assert LowerString("maybe") == "maybe";
  }
}
