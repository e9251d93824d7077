/**
 * The pull-request URL parse both actions share: the first (leftmost) match
 * of the unanchored regular expression
 *   github\.com\/([^\/]+)\/([^\/]+)\/pull\/(\d+)
 * and its three groups: owner, repository and the digits of the PR number.
 */
module PrUrl {
  import opened Wrappers
  import opened Json
  import opened Text

  datatype PrAddress = PrAddress(owner: string, repo: string, pullNumber: string)

  const Host: string := "github.com/"
  const PullSegment: string := "/pull/"

  predicate IsDigit(c: char) {
    '0' <= c <= '9'
  }

  predicate SlashFree(t: string) {
    forall k :: 0 <= k < |t| ==> t[k] != '/'
  }

  predicate AllDigits(t: string) {
    forall k :: 0 <= k < |t| ==> IsDigit(t[k])
  }

  /** Where the longest run of characters other than '/' that starts at `i` ends (`[^\/]+` is greedy). */
  function NonSlashEnd(s: string, i: nat): (e: nat)
    requires i <= |s|
    ensures i <= e <= |s|
    decreases |s| - i
  {
    if i < |s| && s[i] != '/' then NonSlashEnd(s, i + 1) else i
  }

  /** Where the longest run of digits that starts at `i` ends (`\d+` is greedy). */
  function DigitEnd(s: string, i: nat): (e: nat)
    requires i <= |s|
    ensures i <= e <= |s|
    decreases |s| - i
  {
    if i < |s| && IsDigit(s[i]) then DigitEnd(s, i + 1) else i
  }

  lemma {:induction false} NonSlashEndSpec(s: string, i: nat)
    requires i <= |s|
    ensures var e := NonSlashEnd(s, i);
            SlashFree(s[i..e]) && (e < |s| ==> s[e] == '/')
    decreases |s| - i
  {
    if i < |s| && s[i] != '/' {
      NonSlashEndSpec(s, i + 1);
      var e := NonSlashEnd(s, i);
      forall k | 0 <= k < e - i ensures s[i..e][k] != '/' {
        if k > 0 {
          assert s[i..e][k] == s[i + 1..e][k - 1];
        }
      }
    }
  }

  lemma {:induction false} DigitEndSpec(s: string, i: nat)
    requires i <= |s|
    ensures var e := DigitEnd(s, i);
            AllDigits(s[i..e]) && (e < |s| ==> !IsDigit(s[e]))
    decreases |s| - i
  {
    if i < |s| && IsDigit(s[i]) {
      DigitEndSpec(s, i + 1);
      var e := DigitEnd(s, i);
      forall k | 0 <= k < e - i ensures IsDigit(s[i..e][k]) {
        if k > 0 {
          assert s[i..e][k] == s[i + 1..e][k - 1];
        }
      }
    }
  }

  /** A run of non-slash characters followed by a slash (or the end) is exactly the greedy run. */
  lemma {:induction false} NonSlashEndOfRun(s: string, i: nat, j: nat)
    requires i <= j <= |s| && SlashFree(s[i..j]) && (j < |s| ==> s[j] == '/')
    ensures NonSlashEnd(s, i) == j
    decreases j - i
  {
    if i < j {
      assert s[i] == s[i..j][0];
      assert SlashFree(s[i + 1..j]) by {
        forall k | i + 1 <= k < j ensures s[k] != '/' {
          assert s[k] == s[i..j][k - i];
        }
      }
      NonSlashEndOfRun(s, i + 1, j);
    }
  }

  /** A run of digits extends to at least where the greedy digit run ends. */
  lemma {:induction false} DigitEndCoversRun(s: string, i: nat, j: nat)
    requires i <= j <= |s| && AllDigits(s[i..j])
    ensures j <= DigitEnd(s, i)
    decreases j - i
  {
    if i < j {
      assert IsDigit(s[i]) by { assert s[i] == s[i..j][0]; }
      assert AllDigits(s[i + 1..j]) by {
        forall k | i + 1 <= k < j ensures IsDigit(s[k]) {
          assert s[k] == s[i..j][k - i];
        }
      }
      DigitEndCoversRun(s, i + 1, j);
    }
  }

  /** A run of digits followed by a non-digit (or the end) is exactly the greedy run. */
  lemma {:induction false} DigitEndOfRun(s: string, i: nat, j: nat)
    requires i <= j <= |s| && AllDigits(s[i..j]) && (j < |s| ==> !IsDigit(s[j]))
    ensures DigitEnd(s, i) == j
    decreases j - i
  {
    if i < j {
      assert IsDigit(s[i]) by { assert s[i] == s[i..j][0]; }
      assert AllDigits(s[i + 1..j]) by {
        forall k | i + 1 <= k < j ensures IsDigit(s[k]) {
          assert s[k] == s[i..j][k - i];
        }
      }
      DigitEndOfRun(s, i + 1, j);
    }
  }

  /** The match of the expression when the engine starts at position `i`, if there is one; every group of a match is non-empty. */
  function MatchAt(s: string, i: nat): (r: Option<PrAddress>)
    requires i <= |s|
    ensures r.Some? ==> r.value.owner != [] && r.value.repo != [] && r.value.pullNumber != []
  {
    var a := i + |Host|;
    if a > |s| || s[i..a] != Host then None
    else
      var b := NonSlashEnd(s, a);
      if b == a || b == |s| then None
      else
        var c := NonSlashEnd(s, b + 1);
        var d := c + |PullSegment|;
        if c == b + 1 || d > |s| || s[c..d] != PullSegment then None
        else
          var e := DigitEnd(s, d);
          if e == d then None else Some(PrAddress(s[a..b], s[b + 1..c], s[d..e]))
  }

  /** The engine tries the start positions from `i` on, left to right; the groups of what it finds are non-empty. */
  function FindMatch(s: string, i: nat): (r: Option<PrAddress>)
    requires i <= |s|
    ensures r.Some? ==> r.value.owner != [] && r.value.repo != [] && r.value.pullNumber != []
    decreases |s| - i
  {
    var m := MatchAt(s, i);
    if m.Some? then m else if i == |s| then None else FindMatch(s, i + 1)
  }

  /** `prUrl.match(prUrlRegex)`, reduced to its three groups, all of them non-empty. */
  function ParsePrUrl(url: string): (r: Option<PrAddress>)
    ensures r.Some? ==> r.value.owner != [] && r.value.repo != [] && r.value.pullNumber != []
  {
    FindMatch(url, 0)
  }

  /** The text a match with groups `o`, `r` and `n` covers. */
  function MatchedText(o: string, r: string, n: string): string {
    Host + o + "/" + r + PullSegment + n
  }

  /** The expression matches `s` at position `i` with the groups `o`, `r` and `n`. */
  ghost predicate MatchesAt(s: string, i: nat, o: string, r: string, n: string) {
    && o != [] && r != [] && n != []
    && SlashFree(o) && SlashFree(r) && AllDigits(n)
    && OccursAt(s, MatchedText(o, r, n), i)
  }

  /** Six adjacent slices of `s` make up the slice they span. */
  lemma SliceParts(s: string, i: nat, a: nat, b: nat, c: nat, d: nat, e: nat)
    requires i <= a <= b < c <= d <= e <= |s|
    ensures s[i..e] == s[i..a] + s[a..b] + [s[b]] + s[b + 1..c] + s[c..d] + s[d..e]
  {
    assert s[i..e] == s[i..a] + s[a..e];
    assert s[a..e] == s[a..b] + s[b..e];
    assert s[b..e] == [s[b]] + s[b + 1..e];
    assert s[b + 1..e] == s[b + 1..c] + s[c..e];
    assert s[c..e] == s[c..d] + s[d..e];
  }

  /** Where each group sits inside the matched text. */
  lemma MatchedTextParts(o: string, r: string, n: string)
    ensures var t := MatchedText(o, r, n);
            var b := |Host| + |o|;
            var c := b + 1 + |r|;
            var d := c + |PullSegment|;
            && |t| == d + |n|
            && t[..|Host|] == Host && t[|Host|..b] == o && t[b] == '/'
            && t[b + 1..c] == r && t[c..d] == PullSegment && t[d..] == n
  {
    var t := MatchedText(o, r, n);
    var b := |Host| + |o|;
    var c := b + 1 + |r|;
    var d := c + |PullSegment|;
    SliceParts(t, 0, |Host|, b, c, d, |t|);
    assert t == Host + o + ['/'] + r + PullSegment + n;
  }

  /** What `MatchAt` finds is a match, and its digits cannot be extended. */
  lemma MatchAtSound(s: string, i: nat)
    requires i <= |s| && MatchAt(s, i).Some?
    ensures var m := MatchAt(s, i).value;
            var end := i + |MatchedText(m.owner, m.repo, m.pullNumber)|;
            && MatchesAt(s, i, m.owner, m.repo, m.pullNumber)
            && (end < |s| ==> !IsDigit(s[end]))
  {
    var a := i + |Host|;
    var b := NonSlashEnd(s, a);
    NonSlashEndSpec(s, a);
    var c := NonSlashEnd(s, b + 1);
    NonSlashEndSpec(s, b + 1);
    var d := c + |PullSegment|;
    var e := DigitEnd(s, d);
    DigitEndSpec(s, d);
    var m := MatchAt(s, i).value;
    assert m == PrAddress(s[a..b], s[b + 1..c], s[d..e]);
    SliceParts(s, i, a, b, c, d, e);
    assert s[i..e] == MatchedText(m.owner, m.repo, m.pullNumber);
  }

  /** `MatchAt` once the three greedy runs are known. */
  lemma MatchAtOfRuns(s: string, i: nat, b: nat, c: nat, e: nat)
    requires i + |Host| <= |s| && s[i..i + |Host|] == Host
    requires NonSlashEnd(s, i + |Host|) == b && i + |Host| < b < |s|
    requires NonSlashEnd(s, b + 1) == c && b + 1 < c && c + |PullSegment| <= |s|
    requires s[c..c + |PullSegment|] == PullSegment
    requires DigitEnd(s, c + |PullSegment|) == e && c + |PullSegment| < e
    ensures MatchAt(s, i) == Some(PrAddress(s[i + |Host|..b], s[b + 1..c], s[c + |PullSegment|..e]))
  {
  }

  /** A slice of an occurrence is the same slice of the text that occurs. */
  lemma SliceOfOccurrence(s: string, t: string, i: nat, x: nat, y: nat)
    requires OccursAt(s, t, i) && x <= y <= |t|
    ensures s[i + x..i + y] == t[x..y]
  {
    forall k | 0 <= k < y - x ensures s[i + x..i + y][k] == t[x..y][k] {
      assert t[x + k] == s[i..i + |t|][x + k];
    }
  }

  /** The pieces of a match, read off the string it occurs in. */
  lemma MatchPieces(s: string, i: nat, o: string, r: string, n: string)
    requires OccursAt(s, MatchedText(o, r, n), i)
    ensures var a := i + |Host|;
            var b := a + |o|;
            var c := b + 1 + |r|;
            var d := c + |PullSegment|;
            && d + |n| <= |s|
            && s[i..a] == Host && s[a..b] == o && s[b] == '/'
            && s[b + 1..c] == r && s[c..d] == PullSegment && s[d..d + |n|] == n
  {
    var t := MatchedText(o, r, n);
    MatchedTextParts(o, r, n);
    var b := |Host| + |o|;
    var c := b + 1 + |r|;
    var d := c + |PullSegment|;
    SliceOfOccurrence(s, t, i, 0, |Host|);
    SliceOfOccurrence(s, t, i, |Host|, b);
    SliceOfOccurrence(s, t, i, b, b + 1);
    assert s[i + b] == s[i + b..i + b + 1][0];
    SliceOfOccurrence(s, t, i, b + 1, c);
    SliceOfOccurrence(s, t, i, c, d);
    SliceOfOccurrence(s, t, i, d, |t|);
  }

  /** Wherever the expression matches, `MatchAt` finds that match (its digits possibly extended, greedily). */
  lemma MatchAtComplete(s: string, i: nat, o: string, r: string, n: string)
    requires MatchesAt(s, i, o, r, n)
    ensures MatchAt(s, i).Some?
    ensures MatchAt(s, i).value.owner == o && MatchAt(s, i).value.repo == r
    ensures StartsWith(MatchAt(s, i).value.pullNumber, n)
  {
    MatchPieces(s, i, o, r, n);
    var a := i + |Host|;
    var b := a + |o|;
    var c := b + 1 + |r|;
    var d := c + |PullSegment|;
    var e := d + |n|;
    NonSlashEndOfRun(s, a, b);
    NonSlashEndOfRun(s, b + 1, c);
    DigitEndCoversRun(s, d, e);
    var f := DigitEnd(s, d);
    MatchAtOfRuns(s, i, b, c, f);
    assert s[d..f][..|n|] == s[d..e];
  }

  /** Start positions where nothing matches are skipped. */
  lemma {:induction false} FindMatchSkips(s: string, i: nat, j: nat)
    requires i <= j <= |s|
    requires forall k :: i <= k < j ==> MatchAt(s, k).None?
    ensures FindMatch(s, i) == FindMatch(s, j)
    decreases j - i
  {
    if i < j {
      FindMatchSkips(s, i + 1, j);
    }
  }

  /** The search fails exactly when `MatchAt` fails at every position it tries. */
  lemma {:induction false} FindMatchNone(s: string, i: nat)
    requires i <= |s|
    ensures FindMatch(s, i).None? <==> forall j :: i <= j <= |s| ==> MatchAt(s, j).None?
    decreases |s| - i
  {
    if MatchAt(s, i).None? && i < |s| {
      FindMatchNone(s, i + 1);
    }
  }

  /** A successful search returns the match at the leftmost position where `MatchAt` succeeds. */
  lemma {:induction false} FindMatchLeftmost(s: string, i: nat)
    requires i <= |s| && FindMatch(s, i).Some?
    ensures exists j: nat :: i <= j <= |s| && MatchAt(s, j) == FindMatch(s, i) && forall k :: i <= k < j ==> MatchAt(s, k).None?
    decreases |s| - i
  {
    if MatchAt(s, i).None? {
      FindMatchLeftmost(s, i + 1);
      var j: nat :| i + 1 <= j <= |s| && MatchAt(s, j) == FindMatch(s, i + 1) && forall k :: i + 1 <= k < j ==> MatchAt(s, k).None?;
      assert forall k :: i <= k < j ==> MatchAt(s, k).None?;
    } else {
      assert MatchAt(s, i) == FindMatch(s, i);
    }
  }

  /** The parse fails exactly when the expression matches nowhere in the URL. */
  lemma ParsePrUrlFails(url: string)
    ensures ParsePrUrl(url).None? <==> forall i: nat, o, r, n :: !MatchesAt(url, i, o, r, n)
  {
    FindMatchNone(url, 0);
    if ParsePrUrl(url).None? {
      forall i: nat, o, r, n | MatchesAt(url, i, o, r, n) ensures false {
        MatchAtComplete(url, i, o, r, n);
      }
    } else {
      var i: nat :| i <= |url| && MatchAt(url, i).Some?;
      MatchAtSound(url, i);
    }
  }

  /**
   * When the parse succeeds, its groups are those of a match at the leftmost
   * position where the expression matches at all.
   */
  lemma ParsePrUrlLeftmost(url: string)
    requires ParsePrUrl(url).Some?
    ensures var m := ParsePrUrl(url).value;
            exists i: nat :: && MatchesAt(url, i, m.owner, m.repo, m.pullNumber)
                             && forall j: nat, o, r, n :: j < i ==> !MatchesAt(url, j, o, r, n)
  {
    FindMatchLeftmost(url, 0);
    var m := ParsePrUrl(url).value;
    var i: nat :| i <= |url| && MatchAt(url, i) == Some(m) && forall k :: 0 <= k < i ==> MatchAt(url, k).None?;
    MatchAtSound(url, i);
    forall j: nat, o, r, n | j < i && MatchesAt(url, j, o, r, n) ensures false {
      MatchAtComplete(url, j, o, r, n);
    }
  }

  /** `parseInt` of the digit group. */
  function DecimalValue(digits: string): nat
    requires AllDigits(digits)
  {
    if digits == [] then 0
    else DecimalValue(digits[..|digits| - 1]) * 10 + (digits[|digits| - 1] as int - '0' as int)
  }

  const Prefix: string := "https://github.com/"

  /** No match can start inside "https://": none of its characters is a 'g'. */
  lemma NoMatchInScheme(s: string, i: nat)
    requires StartsWith(s, Prefix) && i < 8
    ensures MatchAt(s, i).None?
  {
    assert s[i] == Prefix[i];
    if i + |Host| <= |s| {
      assert s[i..i + |Host|][0] == s[i];
    }
  }

  /** The canonical URL holds a match right after "https://", followed by `rest`. */
  lemma CanonicalOccurs(owner: string, repo: string, number: string, rest: string)
    ensures var s := Prefix + owner + "/" + repo + PullSegment + number + rest;
            var t := MatchedText(owner, repo, number);
            && StartsWith(s, Prefix) && OccursAt(s, t, 8) && |s| == 8 + |t| + |rest|
            && (rest != [] ==> s[8 + |t|] == rest[0])
  {
    var t := MatchedText(owner, repo, number);
    var s := Prefix + owner + "/" + repo + PullSegment + number + rest;
    assert s == "https://" + t + rest;
    assert s[..|Prefix|] == Prefix;
    assert s[8..8 + |t|] == t;
  }

  /** A match whose digits are followed by a non-digit (or the end) is exactly what `MatchAt` finds there. */
  lemma MatchAtExact(s: string, i: nat, o: string, r: string, n: string)
    requires MatchesAt(s, i, o, r, n)
    requires var end := i + |MatchedText(o, r, n)|; end < |s| ==> !IsDigit(s[end])
    ensures MatchAt(s, i) == Some(PrAddress(o, r, n))
  {
    MatchPieces(s, i, o, r, n);
    MatchedTextParts(o, r, n);
    var a := i + |Host|;
    var b := a + |o|;
    var c := b + 1 + |r|;
    var d := c + |PullSegment|;
    var e := d + |n|;
    NonSlashEndOfRun(s, a, b);
    NonSlashEndOfRun(s, b + 1, c);
    DigitEndOfRun(s, d, e);
    MatchAtOfRuns(s, i, b, c, e);
  }

  /** A match right after "https://" whose digits are followed by a non-digit (or the end) is what the parse returns. */
  lemma ParseOfCanonical(s: string, owner: string, repo: string, number: string)
    requires MatchesAt(s, 8, owner, repo, number) && StartsWith(s, Prefix)
    requires var end := 8 + |MatchedText(owner, repo, number)|; end < |s| ==> !IsDigit(s[end])
    ensures ParsePrUrl(s) == Some(PrAddress(owner, repo, number))
  {
    MatchAtExact(s, 8, owner, repo, number);
    forall k | 0 <= k < 8 ensures MatchAt(s, k).None? {
      NoMatchInScheme(s, k);
    }
    FindMatchSkips(s, 0, 8);
  }

  /**
   * Round trip: the canonical URL of a pull request parses back to its owner,
   * repository and number, also when further path segments or text that does
   * not start with a digit follow (the expression is not anchored).
   */
  lemma RoundTrip(owner: string, repo: string, number: string, rest: string)
    requires owner != [] && repo != [] && number != []
    requires SlashFree(owner) && SlashFree(repo) && AllDigits(number)
    requires rest != [] ==> !IsDigit(rest[0])
    ensures ParsePrUrl(Prefix + owner + "/" + repo + PullSegment + number + rest) == Some(PrAddress(owner, repo, number))
  {
    CanonicalOccurs(owner, repo, number, rest);
    ParseOfCanonical(Prefix + owner + "/" + repo + PullSegment + number + rest, owner, repo, number);
  }

  lemma DigitCharValue(d: nat)
    requires d < 10
    ensures IsDigit(DigitChar(d)) && DigitChar(d) as int - '0' as int == d
  {
  }

  /** The digits of a decimal numeral are digits, and `parseInt` reads the number back. */
  lemma {:induction false} DecimalRoundTrip(n: nat)
    ensures AllDigits(NatToDecimal(n))
    ensures DecimalValue(NatToDecimal(n)) == n
    decreases n
  {
    var s := NatToDecimal(n);
    if n < 10 {
      DigitCharValue(n);
    } else {
      var q, d := n / 10, n % 10;
      DecimalRoundTrip(q);
      DigitCharValue(d);
      assert s == NatToDecimal(q) + [DigitChar(d)];
      assert s[..|s| - 1] == NatToDecimal(q);
      assert DecimalValue(s) == q * 10 + d;
    }
  }

  /** The digit group of a successful parse holds digits only. */
  lemma ParsedDigits(url: string)
    requires ParsePrUrl(url).Some?
    ensures AllDigits(ParsePrUrl(url).value.pullNumber)
  {
    ParsePrUrlLeftmost(url);
  }

  const InvalidUrlMessage: string := "Invalid GitHub PR URL format"

  /** The pull request a URL names: owner, repository and `parseInt(pullNumber)`. */
  datatype PullTarget = PullTarget(owner: string, repo: string, pullNumber: nat)

  /**
   * The URL check both actions make: a URL the expression does not match
   * fails with `InvalidUrlMessage`, and any other resolves to the groups of
   * the match, the digits read as the PR number.
   */
  function ResolvePrUrl(url: string): (r: Result<PullTarget, string>)
    ensures r.Err? <==> ParsePrUrl(url).None?
    ensures r.Err? ==> r.error == InvalidUrlMessage
    ensures r.Ok? ==>
      var m := ParsePrUrl(url).value;
      && r.value.owner == m.owner && r.value.repo == m.repo
      && AllDigits(m.pullNumber) && r.value.pullNumber == DecimalValue(m.pullNumber)
  {
    match ParsePrUrl(url)
    case None => Err(InvalidUrlMessage)
    case Some(m) =>
      ParsedDigits(url);
      Ok(PullTarget(m.owner, m.repo, DecimalValue(m.pullNumber)))
  }

  /**
   * The URL of a pull request, written the way GitHub writes it, resolves to
   * that pull request, whatever follows a number that ends there.
   */
  lemma ResolveRoundTrip(owner: string, repo: string, n: nat, rest: string)
    requires owner != [] && repo != [] && SlashFree(owner) && SlashFree(repo)
    requires rest != [] ==> !IsDigit(rest[0])
    ensures ResolvePrUrl(Prefix + owner + "/" + repo + PullSegment + NatToDecimal(n) + rest) == Ok(PullTarget(owner, repo, n))
  {
    DecimalRoundTrip(n);
    RoundTrip(owner, repo, NatToDecimal(n), rest);
  }

  /** A URL in which the expression matches nowhere is rejected. */
  lemma ResolveRejects(url: string)
    requires forall i: nat, o, r, n :: !MatchesAt(url, i, o, r, n)
    ensures ResolvePrUrl(url) == Err(InvalidUrlMessage)
  {
    ParsePrUrlFails(url);
  }
}
