/**
 * The application settings helper: the connection-string template and the
 * clone-name suffix read from the configuration file, the derivation of a
 * per-database connection string, and the generation of a timestamp suffix.
 *
 * The configuration file is a parameter (two dictionaries), the current
 * time is passed in as the string `DateTime.Now.ToString()` would produce,
 * and the class `\w` of the regular-expression engine is the predicate
 * `wordChar`, of which only `CoversAsciiWordChars` is assumed where needed.
 */
module Settings {

  /** The two configuration sections the program reads. */
  datatype Configuration = Configuration(
    connectionStrings: map<string, string>,
    appSettings: map<string, string>)

  /** Name of the connection string entry. */
  const ConnectionStringKey: string := "SqlServerConnection"
  /** Name of the application setting holding the configured suffix. */
  const SuffixKey: string := "CloneDatabaseNameSuffix"
  /** The token of the template that names the default database. */
  const DefaultDatabaseName: string := "master"

  /** The helper object: immutable once built from the configuration. */
  datatype ApplicationSettingsHelper = ApplicationSettingsHelper(
    config: Configuration,
    connectionString: string,
    cloneDatabaseNameSuffix: string)

  // ---------------------------------------------------------------------
  // Configuration reads
  // ---------------------------------------------------------------------

  /** The configured connection string, or "" when the entry is missing. */
  function GetConnectionString(config: Configuration): (r: string)
    ensures ConnectionStringKey !in config.connectionStrings ==> r == ""
    ensures ConnectionStringKey in config.connectionStrings ==>
              r == config.connectionStrings[ConnectionStringKey]
  {
    if ConnectionStringKey in config.connectionStrings
    then config.connectionStrings[ConnectionStringKey]
    else ""
  }

  /** The configured clone-name suffix, or "" when the setting is missing. */
  function GetCloneDatabaseNameSuffix(config: Configuration): (r: string)
    ensures SuffixKey !in config.appSettings ==> r == ""
    ensures SuffixKey in config.appSettings ==> r == config.appSettings[SuffixKey]
  {
    if SuffixKey in config.appSettings then config.appSettings[SuffixKey] else ""
  }

  /** The constructor: both properties come from the configuration, absent ones as "". */
  function NewApplicationSettingsHelper(config: Configuration): (h: ApplicationSettingsHelper)
    ensures h.config == config
    ensures h.connectionString == GetConnectionString(config)
    ensures h.cloneDatabaseNameSuffix == GetCloneDatabaseNameSuffix(config)
    ensures ConnectionStringKey !in config.connectionStrings ==> h.connectionString == ""
    ensures SuffixKey !in config.appSettings ==> h.cloneDatabaseNameSuffix == ""
  {
    ApplicationSettingsHelper(config, GetConnectionString(config), GetCloneDatabaseNameSuffix(config))
  }

  // ---------------------------------------------------------------------
  // String.Replace: ordinal, left to right, non-overlapping, one pass
  // ---------------------------------------------------------------------

  /** `p` starts at position `i` of `s`. */
  predicate OccursAt(s: string, p: string, i: nat)
  {
    i + |p| <= |s| && s[i..i + |p|] == p
  }

  /** `s` has `p` at some position. */
  predicate Contains(s: string, p: string)
  {
    exists i: nat :: i <= |s| && OccursAt(s, p, i)
  }

  /**
   * `s.Replace(oldValue, newValue)`: scan left to right; at a position where
   * `oldValue` starts, emit `newValue` and resume after the occurrence (the
   * inserted text is never rescanned); otherwise copy one character.
   */
  function Replace(s: string, oldValue: string, newValue: string): string
    requires |oldValue| > 0
    decreases |s|
  {
    if |s| < |oldValue| then s
    else if s[..|oldValue|] == oldValue then newValue + Replace(s[|oldValue|..], oldValue, newValue)
    else [s[0]] + Replace(s[1..], oldValue, newValue)
  }

  /** The number of occurrences the left-to-right scan of `Replace` finds. */
  function Occurrences(s: string, p: string): nat
    requires |p| > 0
    decreases |s|
  {
    if |s| < |p| then 0
    else if s[..|p|] == p then 1 + Occurrences(s[|p|..], p)
    else Occurrences(s[1..], p)
  }

  /** An occurrence at the front is replaced and the replacement is not rescanned. */
  lemma ReplaceLeadingOccurrence(s: string, p: string, r: string)
    requires |p| > 0
    ensures Replace(p + s, p, r) == r + Replace(s, p, r)
  {
    assert (p + s)[..|p|] == p;
    assert (p + s)[|p|..] == s;
  }

  /** Without an occurrence the text is returned unchanged. */
  lemma {:induction false} ReplaceWithoutOccurrence(s: string, p: string, r: string)
    requires |p| > 0
    requires !Contains(s, p)
    ensures Replace(s, p, r) == s
    decreases |s|
  {
    if |s| >= |p| {
      assert !OccursAt(s, p, 0);
      assert !Contains(s[1..], p) by {
        forall i: nat | OccursAt(s[1..], p, i)
          ensures false
        {
          assert s[1..][i..i + |p|] == s[i + 1..i + 1 + |p|];
          assert OccursAt(s, p, i + 1);
        }
      }
      ReplaceWithoutOccurrence(s[1..], p, r);
      assert [s[0]] + s[1..] == s;
    }
  }

  /** Replacing a token by itself changes nothing. */
  lemma {:induction false} ReplaceBySelf(s: string, p: string)
    requires |p| > 0
    ensures Replace(s, p, p) == s
    decreases |s|
  {
    if |s| >= |p| {
      if s[..|p|] == p {
        ReplaceBySelf(s[|p|..], p);
        assert p + s[|p|..] == s;
      } else {
        ReplaceBySelf(s[1..], p);
        assert [s[0]] + s[1..] == s;
      }
    }
  }

  /** Each replaced occurrence changes the length by |r| - |p|. */
  lemma {:induction false} ReplaceLength(s: string, p: string, r: string)
    requires |p| > 0
    ensures |Replace(s, p, r)| == |s| + Occurrences(s, p) * (|r| - |p|)
    decreases |s|
  {
    if |s| < |p| {
      assert Occurrences(s, p) == 0;
    } else if s[..|p|] == p {
      var rest := s[|p|..];
      ReplaceLength(rest, p, r);
      MultiplyStep(Occurrences(rest, p), |r| - |p|);
      assert |Replace(s, p, r)| == |r| + |Replace(rest, p, r)|;
      assert Occurrences(s, p) == 1 + Occurrences(rest, p);
    } else {
      ReplaceLength(s[1..], p, r);
      assert Occurrences(s, p) == Occurrences(s[1..], p);
    }
  }

  lemma MultiplyStep(n: int, d: int)
    ensures (1 + n) * d == d + n * d
  {
  }

  /** A text that contains the token has at least one scanned occurrence. */
  lemma {:induction false} ContainsIsScanned(s: string, p: string)
    requires |p| > 0
    requires Contains(s, p)
    ensures Occurrences(s, p) >= 1
    decreases |s|
  {
    var i: nat :| i <= |s| && OccursAt(s, p, i);
    if s[..|p|] != p {
      assert i > 0;
      assert s[1..][i - 1..i - 1 + |p|] == s[i..i + |p|];
      assert OccursAt(s[1..], p, i - 1);
      ContainsIsScanned(s[1..], p);
    }
  }

  /** A same-length replacement different from the token changes a text that contains it. */
  lemma {:induction false} ReplaceSameLengthChanges(s: string, p: string, r: string)
    requires |p| > 0 && |r| == |p| && r != p
    requires Contains(s, p)
    ensures Replace(s, p, r) != s
    decreases |s|
  {
    var i: nat :| i <= |s| && OccursAt(s, p, i);
    if s[..|p|] == p {
      var k :| 0 <= k < |p| && r[k] != p[k];
      assert Replace(s, p, r)[k] == r[k];
      assert s[k] == p[k];
    } else {
      assert i > 0;
      assert s[1..][i - 1..i - 1 + |p|] == s[i..i + |p|];
      assert OccursAt(s[1..], p, i - 1);
      ReplaceSameLengthChanges(s[1..], p, r);
      assert Replace(s, p, r)[1..] == Replace(s[1..], p, r);
    }
  }

  /** `Replace` leaves the text unchanged exactly when the token is absent or is its own replacement. */
  lemma ReplaceUnchangedIff(s: string, p: string, r: string)
    requires |p| > 0
    ensures Replace(s, p, r) == s <==> (!Contains(s, p) || r == p)
  {
    if !Contains(s, p) {
      ReplaceWithoutOccurrence(s, p, r);
    } else if r == p {
      ReplaceBySelf(s, p);
    } else if |r| == |p| {
      ReplaceSameLengthChanges(s, p, r);
    } else {
      ReplaceLength(s, p, r);
      ContainsIsScanned(s, p);
      ProductNonZero(Occurrences(s, p), |r| - |p|);
    }
  }

  /** A positive multiple of a non-zero number is non-zero. */
  lemma ProductNonZero(n: int, d: int)
    requires n >= 1 && d != 0
    ensures n * d != 0
  {
    if d > 0 {
      assert n * d >= d by { assert (n - 1) * d >= 0; }
    } else {
      assert n * (-d) >= -d by { assert (n - 1) * (-d) >= 0; }
    }
  }

  /**
   * The connection string of one user database: the configured template with
   * every "master" replaced by `databaseName`; "" when the entry is missing.
   */
  function GetUserDatabaseConnectionString(config: Configuration, databaseName: string): string
  {
    Replace(GetConnectionString(config), DefaultDatabaseName, databaseName)
  }

  /**
   * The user-database connection string is "" when the entry is missing, and
   * it differs from the template exactly when the template names "master"
   * and the database is another one.
   */
  lemma UserDatabaseConnectionStringUnchangedIff(config: Configuration, databaseName: string)
    ensures var r := GetUserDatabaseConnectionString(config, databaseName);
            (ConnectionStringKey !in config.connectionStrings ==> r == "") &&
            (!Contains(GetConnectionString(config), DefaultDatabaseName) ==> r == GetConnectionString(config)) &&
            (r == GetConnectionString(config) <==>
               (!Contains(GetConnectionString(config), DefaultDatabaseName) || databaseName == DefaultDatabaseName))
  {
    ReplaceUnchangedIff(GetConnectionString(config), DefaultDatabaseName, databaseName);
  }

  // ---------------------------------------------------------------------
  // Clone-name suffix: "_" + Regex.Replace(now, @"[^\w\.@-]", "")
  // ---------------------------------------------------------------------

  /** The ASCII letters, digits and `_`: the part of `\w` every culture and engine shares. */
  predicate IsAsciiWordChar(c: char)
  {
    ('A' <= c <= 'Z') || ('a' <= c <= 'z') || ('0' <= c <= '9') || c == '_'
  }

  /**
   * `wordChar` may stand for the class `\w` of the regular-expression
   * engine: it contains at least every ASCII word character (the engine's
   * class adds the letters, digits and connector punctuation of Unicode).
   */
  predicate CoversAsciiWordChars(wordChar: char -> bool)
  {
    forall c :: IsAsciiWordChar(c) ==> wordChar(c)
  }

  /** The characters the regular expression keeps: `[\w.@-]`. */
  predicate IsSuffixChar(wordChar: char -> bool, c: char)
  {
    wordChar(c) || c == '.' || c == '@' || c == '-'
  }

  /** The regular-expression replacement: drop every character outside `[\w.@-]`. */
  function KeepSuffixChars(wordChar: char -> bool, s: string): (r: string)
    ensures |r| <= |s|
    ensures forall i :: 0 <= i < |r| ==> IsSuffixChar(wordChar, r[i])
  {
    if s == [] then []
    else (if IsSuffixChar(wordChar, s[0]) then [s[0]] else []) + KeepSuffixChars(wordChar, s[1..])
  }

  /** A new suffix built from the current time. */
  function GetNewCloneDatabaseNameSuffix(wordChar: char -> bool, now: string): (r: string)
    ensures |r| >= 1 && r[0] == '_'
    ensures |r| <= |now| + 1
    ensures forall i :: 1 <= i < |r| ==> IsSuffixChar(wordChar, r[i])
  {
    "_" + KeepSuffixChars(wordChar, now)
  }

  /** `a` can be obtained from `b` by deleting characters. */
  predicate IsSubsequence(a: string, b: string)
    decreases |b|
  {
    if a == [] then true
    else if b == [] then false
    else if a[0] == b[0] then IsSubsequence(a[1..], b[1..])
    else IsSubsequence(a, b[1..])
  }

  /** The filter works character by character. */
  lemma {:induction false} KeepSuffixCharsConcat(wordChar: char -> bool, a: string, b: string)
    ensures KeepSuffixChars(wordChar, a + b) == KeepSuffixChars(wordChar, a) + KeepSuffixChars(wordChar, b)
    decreases |a|
  {
    if a == [] {
      assert a + b == b;
    } else {
      var head := if IsSuffixChar(wordChar, a[0]) then [a[0]] else [];
      assert (a + b)[0] == a[0];
      assert (a + b)[1..] == a[1..] + b;
      KeepSuffixCharsConcat(wordChar, a[1..], b);
      calc {
        KeepSuffixChars(wordChar, a + b);
        head + KeepSuffixChars(wordChar, a[1..] + b);
        head + (KeepSuffixChars(wordChar, a[1..]) + KeepSuffixChars(wordChar, b));
        (head + KeepSuffixChars(wordChar, a[1..])) + KeepSuffixChars(wordChar, b);
      }
    }
  }

  /** The filter returns its input exactly when every character of it matches. */
  lemma {:induction false} KeepSuffixCharsIdentityIff(wordChar: char -> bool, s: string)
    ensures KeepSuffixChars(wordChar, s) == s <==> forall i :: 0 <= i < |s| ==> IsSuffixChar(wordChar, s[i])
    decreases |s|
  {
    if s != [] {
      KeepSuffixCharsIdentityIff(wordChar, s[1..]);
      if IsSuffixChar(wordChar, s[0]) {
        assert (forall i :: 0 <= i < |s| ==> IsSuffixChar(wordChar, s[i])) <==>
               (forall i :: 0 <= i < |s[1..]| ==> IsSuffixChar(wordChar, s[1..][i])) by {
          if forall i :: 0 <= i < |s[1..]| ==> IsSuffixChar(wordChar, s[1..][i]) {
            forall i | 0 <= i < |s| ensures IsSuffixChar(wordChar, s[i]) {
              if i > 0 { assert s[i] == s[1..][i - 1]; }
            }
          }
        }
        assert [s[0]] + s[1..] == s;
      } else {
        assert |KeepSuffixChars(wordChar, s)| < |s|;
      }
    }
  }

  /** Filtering twice is filtering once. */
  lemma KeepSuffixCharsIdempotent(wordChar: char -> bool, s: string)
    ensures KeepSuffixChars(wordChar, KeepSuffixChars(wordChar, s)) == KeepSuffixChars(wordChar, s)
  {
    KeepSuffixCharsIdentityIff(wordChar, KeepSuffixChars(wordChar, s));
  }

  /** The part of a generated suffix after "_" is left unchanged by the filter. */
  lemma SuffixIsFiltered(wordChar: char -> bool, now: string)
    ensures GetNewCloneDatabaseNameSuffix(wordChar, now)[1..] == KeepSuffixChars(wordChar, now)
    ensures KeepSuffixChars(wordChar, GetNewCloneDatabaseNameSuffix(wordChar, now)[1..]) == GetNewCloneDatabaseNameSuffix(wordChar, now)[1..]
  {
    KeepSuffixCharsIdempotent(wordChar, now);
  }

  /** The kept characters appear in the input in the same order. */
  lemma {:induction false} KeepSuffixCharsIsSubsequence(wordChar: char -> bool, s: string)
    ensures IsSubsequence(KeepSuffixChars(wordChar, s), s)
    decreases |s|
  {
    if s != [] {
      KeepSuffixCharsIsSubsequence(wordChar, s[1..]);
      if IsSuffixChar(wordChar, s[0]) {
        assert KeepSuffixChars(wordChar, s)[0] == s[0];
        assert KeepSuffixChars(wordChar, s)[1..] == KeepSuffixChars(wordChar, s[1..]);
      } else {
        assert KeepSuffixChars(wordChar, s) == KeepSuffixChars(wordChar, s[1..]);
        SubsequenceOfTail(KeepSuffixChars(wordChar, s[1..]), s);
      }
    }
  }

  /** A subsequence of the tail is a subsequence of the whole. */
  lemma {:induction false} SubsequenceOfTail(a: string, b: string)
    requires b != [] && IsSubsequence(a, b[1..])
    ensures IsSubsequence(a, b)
    decreases |b|, |a|
  {
    if a != [] && a[0] == b[0] {
      SubsequenceDropHead(a, b[1..]);
    }
  }

  /** Dropping the first character of a subsequence keeps it a subsequence. */
  lemma {:induction false} SubsequenceDropHead(a: string, b: string)
    requires a != [] && IsSubsequence(a, b)
    ensures IsSubsequence(a[1..], b)
    decreases |b|, |a|
  {
    if a[0] == b[0] {
      if a[1..] != [] {
        SubsequenceOfTail(a[1..], b);
      }
    } else {
      SubsequenceDropHead(a, b[1..]);
      if a[1..] != [] {
        SubsequenceOfTail(a[1..], b);
      }
    }
  }

  /** Every matching character of the input is kept, as often as it occurs, and no other. */
  lemma {:induction false} KeepSuffixCharsCounts(wordChar: char -> bool, s: string, c: char)
    ensures multiset(KeepSuffixChars(wordChar, s))[c] == if IsSuffixChar(wordChar, c) then multiset(s)[c] else 0
    decreases |s|
  {
    if s != [] {
      KeepSuffixCharsCounts(wordChar, s[1..], c);
      assert s == [s[0]] + s[1..];
      assert multiset(s) == multiset([s[0]]) + multiset(s[1..]);
    }
  }

  /** When `wordChar` covers the ASCII word characters, each of them, `.`, `@` and `-` is kept as often as it occurs. */
  lemma AsciiSuffixCharsKept(wordChar: char -> bool, s: string, c: char)
    requires CoversAsciiWordChars(wordChar)
    requires IsAsciiWordChar(c) || c == '.' || c == '@' || c == '-'
    ensures multiset(KeepSuffixChars(wordChar, s))[c] == multiset(s)[c]
  {
    KeepSuffixCharsCounts(wordChar, s, c);
  }
}
