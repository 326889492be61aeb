/**
 * The two Python string operations the analyzer relies on: the substring test
 * `t in s` and `s.replace(pat, sub)`, and the pair-label rewrite built from them
 * that the text report and the CSV export share.
 */
module Strings {

  /** `t` occurs in `s` starting at index `i`. */
  predicate OccursAt(s: string, t: string, i: nat) {
    i + |t| <= |s| && s[i..i + |t|] == t
  }

  /** Python's `t in s` for strings: `t` occurs in `s` at some position. */
  predicate Contains(s: string, t: string) {
    exists i: nat | i <= |s| :: OccursAt(s, t, i)
  }

  /**
   * Python's `s.replace(pat, sub)` for a non-empty `pat`: one scan from left to
   * right that replaces each occurrence it meets and resumes after it, so the
   * replaced occurrences never overlap and text produced by a replacement is
   * never scanned again.
   */
  function Replace(s: string, pat: string, sub: string): (r: string)
    requires |pat| > 0
    ensures |sub| <= |pat| ==> |r| <= |s|
    ensures |sub| >= |pat| ==> |r| >= |s|
    decreases |s|
  {
    if |s| < |pat| then s
    else if s[..|pat|] == pat then sub + Replace(s[|pat|..], pat, sub)
    else [s[0]] + Replace(s[1..], pat, sub)
  }

  /** A string with no occurrence of `pat` is left unchanged. */
  lemma {:induction false} ReplaceAbsent(s: string, pat: string, sub: string)
    requires |pat| > 0
    requires !Contains(s, pat)
    ensures Replace(s, pat, sub) == s
    decreases |s|
  {
    if |s| >= |pat| {
      assert !OccursAt(s, pat, 0);
      assert !Contains(s[1..], pat) by {
        forall i: nat | i <= |s[1..]| ensures !OccursAt(s[1..], pat, i) {
          assert !OccursAt(s, pat, i + 1);
          if i + |pat| <= |s[1..]| {
            assert s[1..][i..i + |pat|] == s[i + 1..i + 1 + |pat|];
          }
        }
      }
      ReplaceAbsent(s[1..], pat, sub);
    }
  }

  /** Characters that cannot start an occurrence of `pat` pass through unchanged. */
  lemma {:induction false} ReplaceSkips(a: string, t: string, pat: string, sub: string)
    requires |pat| > 0
    requires forall k | 0 <= k < |a| :: a[k] != pat[0]
    ensures Replace(a + t, pat, sub) == a + Replace(t, pat, sub)
    decreases |a|
  {
    if a != [] {
      var s := a + t;
      assert s[0] == a[0];
      assert s[1..] == a[1..] + t;
      ReplaceSkips(a[1..], t, pat, sub);
      if |s| >= |pat| {
        assert s[..|pat|] != pat by {
          assert s[..|pat|][0] == a[0];
        }
        assert Replace(s, pat, sub) == [a[0]] + Replace(a[1..] + t, pat, sub);
        assert [a[0]] + (a[1..] + Replace(t, pat, sub)) == a + Replace(t, pat, sub);
      } else {
        assert Replace(t, pat, sub) == t;
        assert Replace(s, pat, sub) == s;
      }
    } else {
      assert a + t == t;
    }
  }

  /**
   * The label shown for a pair in the report and in the CSV export:
   * `pair.replace('B-', '').replace('_USDT', '/USDT')`.
   */
  function PairLabel(pair: string): (shown: string)
    ensures |shown| <= |pair|
  {
    Replace(Replace(pair, "B-", ""), "_USDT", "/USDT")
  }

  /** Without a '-' there is no "B-" to remove. */
  lemma RemoveTagWithoutDash(s: string)
    requires forall k | 0 <= k < |s| :: s[k] != '-'
    ensures Replace(s, "B-", "") == s
  {
    assert !Contains(s, "B-") by {
      forall i: nat | i <= |s| ensures !OccursAt(s, "B-", i) {
        if i + 2 <= |s| {
          assert s[i..i + 2][1] == s[i + 1];
        }
      }
    }
    ReplaceAbsent(s, "B-", "");
  }

  /** A leading "B-" is removed and the scan resumes right after it. */
  lemma RemoveLeadingTag(rest: string)
    ensures Replace("B-" + rest, "B-", "") == Replace(rest, "B-", "")
  {
    var s := "B-" + rest;
    assert s[..2] == "B-";
    assert s[2..] == rest;
    assert "" + Replace(rest, "B-", "") == Replace(rest, "B-", "");
  }

  /** A trailing "_USDT" after a base without '_' becomes "/USDT". */
  lemma RewriteQuote(base: string)
    requires forall k | 0 <= k < |base| :: base[k] != '_'
    ensures Replace(base + "_USDT", "_USDT", "/USDT") == base + "/USDT"
  {
    ReplaceSkips(base, "_USDT", "_USDT", "/USDT");
    var q := "_USDT";
    assert q[..5] == q;
    assert q[5..] == "";
    assert Replace(q, "_USDT", "/USDT") == "/USDT" + Replace("", "_USDT", "/USDT");
    assert "/USDT" + "" == "/USDT";
  }

  /**
   * For an exchange symbol of the usual shape `B-<base>_USDT`, where the base
   * name holds neither '-' nor '_', the label is `<base>/USDT`.
   */
  lemma PairLabelOfFuturesSymbol(base: string)
    requires forall k | 0 <= k < |base| :: base[k] != '-' && base[k] != '_'
    ensures PairLabel("B-" + base + "_USDT") == base + "/USDT"
  {
    var rest := base + "_USDT";
    assert "B-" + base + "_USDT" == "B-" + rest;
    RemoveLeadingTag(rest);
    assert forall k | 0 <= k < |rest| :: rest[k] != '-' by {
      forall k | 0 <= k < |rest| ensures rest[k] != '-' {
        if k < |base| { assert rest[k] == base[k]; } else { assert rest[k] == "_USDT"[k - |base|]; }
      }
    }
    RemoveTagWithoutDash(rest);
    RewriteQuote(base);
  }

  /**
   * A prefix of the rewritten string that holds no '/' was already a prefix of
   * the original: the rewrite only changes text by writing a "/USDT".
   */
  lemma {:induction false} PrefixThroughQuoteRewrite(t: string, p: string)
    requires forall k | 0 <= k < |p| :: p[k] != '/'
    requires |p| <= |Replace(t, "_USDT", "/USDT")|
    requires Replace(t, "_USDT", "/USDT")[..|p|] == p
    ensures |p| <= |t| && t[..|p|] == p
    decreases |t|
  {
    var r := Replace(t, "_USDT", "/USDT");
    if |t| >= 5 && p != [] {
      // The rewrite did not start with "/USDT", so `t` does not start with "_USDT".
      assert r[0] == p[0] != '/';
      assert t[..5] != "_USDT";
      var rest := Replace(t[1..], "_USDT", "/USDT");
      assert r == [t[0]] + rest;
      assert p[1..] == rest[..|p| - 1];
      PrefixThroughQuoteRewrite(t[1..], p[1..]);
      assert t[..|p|] == [t[0]] + t[1..][..|p| - 1];
      assert p == [p[0]] + p[1..];
    }
  }

  /** After the rewrite no "_USDT" is left: every one is replaced, and no new one is formed. */
  lemma {:induction false} NoQuoteLeft(s: string)
    ensures !Contains(Replace(s, "_USDT", "/USDT"), "_USDT")
    decreases |s|
  {
    var r := Replace(s, "_USDT", "/USDT");
    if |s| < 5 {
      assert r == s;
    } else if s[..5] == "_USDT" {
      var rest := Replace(s[5..], "_USDT", "/USDT");
      NoQuoteLeft(s[5..]);
      assert r == "/USDT" + rest;
      forall i: nat | i <= |r| ensures !OccursAt(r, "_USDT", i) {
        if i + 5 <= |r| {
          if i < 5 {
            assert r[i..i + 5][0] == r[i] == "/USDT"[i] != '_';
          } else {
            assert !OccursAt(rest, "_USDT", i - 5);
            assert r[i..i + 5] == rest[i - 5..i - 5 + 5];
          }
        }
      }
    } else {
      var rest := Replace(s[1..], "_USDT", "/USDT");
      NoQuoteLeft(s[1..]);
      assert r == [s[0]] + rest;
      forall i: nat | i <= |r| ensures !OccursAt(r, "_USDT", i) {
        if i + 5 <= |r| {
          if i == 0 {
            assert r[..5] == [s[0]] + rest[..4];
            if rest[..4] == "USDT" {
              // Then `s` continues with "USDT" too, so its first character is not '_'.
              PrefixThroughQuoteRewrite(s[1..], "USDT");
              assert s[..5] == [s[0]] + s[1..][..4];
              assert r[..5][0] == s[0] != '_';
            } else {
              assert r[..5][1..] == rest[..4] != "USDT";
            }
          } else {
            assert !OccursAt(rest, "_USDT", i - 1);
            assert r[i..i + 5] == rest[i - 1..i - 1 + 5];
          }
        }
      }
    }
  }

  /** Every "_USDT" of a pair becomes "/USDT": none is left in the label, whatever the symbol. */
  lemma LabelHasNoUnderscoreQuote(pair: string)
    ensures !Contains(PairLabel(pair), "_USDT")
  {
    NoQuoteLeft(Replace(pair, "B-", ""));
  }

  /**
   * The rewrite is a single pass, so it does not remove every "B-": the
   * characters left around a removed "B-" can form a new one.
   */
  lemma SinglePassKeepsNewOccurrence()
    ensures Replace("BB--", "B-", "") == "B-"
  {
    var s := "BB--";
    assert s[..2][1] == 'B';
    assert s[1..] == "B--";
    assert s[1..][..2] == "B-";
    assert s[1..][2..] == "-";
    assert Replace("-", "B-", "") == "-";
  }
}
