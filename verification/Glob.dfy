/**
 * Redis glob patterns, as far as the cache invalidation uses them: '*' and '?' and literal characters,
 * and what the patterns of CacheService mean.
 */
module Glob {
  import opened Prelude
  import opened Keys

  /** Does glob `p` match the whole of `s`? */
  predicate Match(p: string, s: string)
    decreases |p| + |s|
  {
    if p == "" then s == ""
    else if p[0] == '*' then Match(p[1..], s) || (s != "" && Match(p, s[1..]))
    else s != "" && (p[0] == '?' || p[0] == s[0]) && Match(p[1..], s[1..])
  }

  /** No glob metacharacter: the text matches itself only. */
  predicate Literal(p: string) {
    '*' !in p && '?' !in p && '[' !in p && '\\' !in p
  }

  /** `text` occurs in `s` at position `i`. */
  predicate OccursAt(text: string, s: string, i: nat) {
    i + |text| <= |s| && s[i..i + |text|] == text
  }

  predicate Contains(s: string, text: string) {
    exists i: nat | i <= |s| :: OccursAt(text, s, i)
  }

  /** `text` occurs in `s` with at least one more character behind it. */
  predicate ContainsBefore(s: string, text: string) {
    exists i: nat | i + |text| < |s| :: OccursAt(text, s, i)
  }

  lemma {:induction false} StarMatchesAll(s: string)
    ensures Match("*", s)
  {
    assert "*"[1..] == "";
    if s != "" {
      StarMatchesAll(s[1..]);
    }
  }

  /** A literal prefix of a pattern has to be found at the front of the text. */
  lemma {:induction false} MatchLiteralPrefix(lit: string, rest: string, s: string)
    requires Literal(lit)
    ensures Match(lit + rest, s) <==> |lit| <= |s| && s[..|lit|] == lit && Match(rest, s[|lit|..])
  {
    var p := lit + rest;
    if lit == "" {
      assert p == rest && s[0..] == s;
    } else {
      assert p[0] == lit[0] && p[1..] == lit[1..] + rest;
      assert lit[0] in lit;
      if s != "" {
        MatchLiteralPrefix(lit[1..], rest, s[1..]);
        if |lit| <= |s| {
          assert s[..|lit|] == [s[0]] + s[1..][..|lit| - 1];
          assert lit == [lit[0]] + lit[1..];
          assert s[1..][|lit| - 1..] == s[|lit|..];
        }
      }
    }
  }

  /** A leading '*' lets the rest of the pattern match any tail. */
  lemma {:induction false} MatchStarPrefix(rest: string, s: string)
    ensures Match("*" + rest, s) <==> exists i: nat | i <= |s| :: Match(rest, s[i..])
  {
    var p := "*" + rest;
    assert p[0] == '*' && p[1..] == rest && s[0..] == s;
    if s != "" {
      MatchStarPrefix(rest, s[1..]);
      if i: nat :| i <= |s[1..]| && Match(rest, s[1..][i..]) {
        assert s[1..][i..] == s[i + 1..];
      }
      if i: nat :| i <= |s| && Match(rest, s[i..]) && i > 0 {
        assert s[i..] == s[1..][i - 1..];
      }
    }
  }

  /** `*L*` matches exactly the texts that contain L. */
  lemma StarLiteralStar(lit: string, s: string)
    requires Literal(lit)
    ensures Match("*" + lit + "*", s) <==> Contains(s, lit)
  {
    assert "*" + lit + "*" == "*" + (lit + "*");
    MatchStarPrefix(lit + "*", s);
    forall i: nat | i <= |s| ensures Match(lit + "*", s[i..]) <==> OccursAt(lit, s, i) {
      MatchLiteralPrefix(lit, "*", s[i..]);
      if |lit| <= |s[i..]| {
        assert s[i..][..|lit|] == s[i..i + |lit|];
        StarMatchesAll(s[i..][|lit|..]);
      }
    }
  }

  /** `*L?*` matches exactly the texts that contain L followed by at least one character. */
  lemma StarLiteralAnyStar(lit: string, s: string)
    requires Literal(lit)
    ensures Match("*" + lit + "?*", s) <==> ContainsBefore(s, lit)
  {
    assert "*" + lit + "?*" == "*" + (lit + "?*");
    MatchStarPrefix(lit + "?*", s);
    forall i: nat | i <= |s|
      ensures Match(lit + "?*", s[i..]) <==> i + |lit| < |s| && OccursAt(lit, s, i)
    {
      MatchLiteralPrefix(lit, "?*", s[i..]);
      if |lit| <= |s[i..]| {
        assert s[i..][..|lit|] == s[i..i + |lit|];
        var tail := s[i..][|lit|..];
        assert "?*"[1..] == "*";
        if tail != "" {
          StarMatchesAll(tail[1..]);
        }
      }
    }
  }

  // ---------------------------------------------------------------- the patterns of CacheService

  function BatchPattern(batch: Uuid): string {
    "*" + ("/batches/" + batch) + "*"
  }

  const BATCH_LIST_PATTERN := "*" + "/batches" + "?*"
  const RECENT_PATTERN := "*" + "/predictions/recent" + "*"

  function UserPattern(user: Uuid): string {
    "*" + ("user:" + user) + "*"
  }

  lemma UuidLiteral(u: Uuid)
    ensures Literal(u)
  {
  }

  /** The keys each pattern selects. */
  lemma PatternMeaning(batch: Uuid, key: string)
    ensures Match(BatchPattern(batch), key) <==> Contains(key, "/batches/" + batch)
    ensures Match(BATCH_LIST_PATTERN, key) <==> ContainsBefore(key, "/batches")
    ensures Match(RECENT_PATTERN, key) <==> Contains(key, "/predictions/recent")
  {
    BatchMeaning(batch, key);
    ListMeaning(key);
    RecentMeaning(key);
  }

  lemma BatchMeaning(batch: Uuid, key: string)
    ensures Match(BatchPattern(batch), key) <==> Contains(key, "/batches/" + batch)
  {
    UuidLiteral(batch);
    StarLiteralStar("/batches/" + batch, key);
  }

  lemma ListMeaning(key: string)
    ensures Match(BATCH_LIST_PATTERN, key) <==> ContainsBefore(key, "/batches")
  {
    StarLiteralAnyStar("/batches", key);
  }

  lemma RecentMeaning(key: string)
    ensures Match(RECENT_PATTERN, key) <==> Contains(key, "/predictions/recent")
  {
    StarLiteralStar("/predictions/recent", key);
  }

  /** The keys a user's pattern selects. */
  lemma UserMeaning(user: Uuid, key: string)
    ensures Match(UserPattern(user), key) <==> Contains(key, "user:" + user)
  {
    UuidLiteral(user);
    StarLiteralStar("user:" + user, key);
  }

  /** The second pass of invalidate_batch covers the first: it drops every batch's keys, not one batch's. */
  lemma BatchPatternCovered(batch: Uuid, key: string)
    requires Match(BatchPattern(batch), key)
    ensures Match(BATCH_LIST_PATTERN, key)
  {
    PatternMeaning(batch, key);
    var text := "/batches/" + batch;
    var i: nat :| i <= |key| && OccursAt(text, key, i);
    assert key[i..i + 8] == key[i..i + |text|][..8] == text[..8] == "/batches";
    assert OccursAt("/batches", key, i);
  }

  /** A key in which no path appears is out of reach of every path pattern. */
  lemma SlashFreeKeyUnmatched(batch: Uuid, key: string)
    requires SlashFree(key)
    ensures !Match(BatchPattern(batch), key) && !Match(BATCH_LIST_PATTERN, key) && !Match(RECENT_PATTERN, key)
  {
  }
}
