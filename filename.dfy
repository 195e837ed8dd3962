/**
 * Season and episode numbers from a video file's name. The scanner compiles
 * two case-insensitive patterns: `(?i)s(\d+)e`, whose group is the season, and
 * `(?i)s\d+e(\d+)`, whose group is the episode. Each is searched for its
 * leftmost match, independently of the other, and both must match. The
 * patterns are applied to the base name of the file's path only.
 */
module Filename {
  import opened Wrappers

  /** `s` under (?i): Go folds it together with `S` and the long s U+017F. */
  predicate IsS(c: char) { c == 's' || c == 'S' || c == 'ſ' }

  /** `e` under (?i). */
  predicate IsE(c: char) { c == 'e' || c == 'E' }

  /** `\d`: an ASCII digit. */
  predicate IsDigit(c: char) { '0' <= c <= '9' }

  predicate AllDigits(s: string)
  {
    forall k :: 0 <= k < |s| ==> IsDigit(s[k])
  }

  /** strconv.Atoi on a run of ASCII digits. */
  function DecimalValue(ds: string): nat
    requires AllDigits(ds)
    decreases |ds|
  {
    if ds == [] then 0
    else 10 * DecimalValue(ds[..|ds| - 1]) + (ds[|ds| - 1] as int - '0' as int)
  }

  /** strconv.Itoa on a non-negative number. */
  function DecimalString(n: nat): (s: string)
    ensures |s| > 0 && AllDigits(s)
  {
    if n < 10 then [('0' as int + n) as char]
    else DecimalString(n / 10) + [('0' as int + n % 10) as char]
  }

  /** Printing a number and reading it back gives the number. */
  lemma {:induction false} DecimalRoundTrip(n: nat)
    ensures DecimalValue(DecimalString(n)) == n
  {
    var s := DecimalString(n);
    if n >= 10 {
      DecimalRoundTrip(n / 10);
      assert s[..|s| - 1] == DecimalString(n / 10);
    }
  }

  /** The end of the longest run of digits that starts at `i`. */
  function RunEnd(s: string, i: nat): (j: nat)
    requires i <= |s|
    ensures i <= j <= |s|
    ensures AllDigits(s[i..j])
    ensures j == |s| || !IsDigit(s[j])
    decreases |s| - i
  {
    if i < |s| && IsDigit(s[i]) then
      var j := RunEnd(s, i + 1);
      assert forall k :: 0 <= k < j - i ==> s[i..j][k] == if k == 0 then s[i] else s[i + 1..j][k - 1];
      j
    else i
  }

  /** A run of digits ended by a non-digit (or the end) ends where RunEnd says. */
  lemma {:induction false} RunEndUnique(s: string, i: nat, j: nat)
    requires i <= j <= |s|
    requires AllDigits(s[i..j])
    requires j == |s| || !IsDigit(s[j])
    ensures RunEnd(s, i) == j
    decreases j - i
  {
    if i < j {
      assert IsDigit(s[i..j][0]);
      assert s[i + 1..j] == s[i..j][1..];
      RunEndUnique(s, i + 1, j);
    }
  }

  // -------------------------------------------------------- what the patterns mean

  /** `(?i)s(\d+)e` matches at `i`, its group being s[i+1..j]. */
  predicate SeasonMatch(s: string, i: int, j: int)
  {
    0 <= i && i + 1 < j < |s| && IsS(s[i]) && AllDigits(s[i + 1..j]) && IsE(s[j])
  }

  /** `(?i)s\d+e(\d+)` matches at `i`, its greedy group being s[j+1..k]. */
  predicate EpisodeMatch(s: string, i: int, j: int, k: int)
  {
    SeasonMatch(s, i, j) && j + 1 < k <= |s| && AllDigits(s[j + 1..k]) && (k == |s| || !IsDigit(s[k]))
  }

  // -------------------------------------------------------- the scanner

  /** Where the season token starting at `i` ends (at its `e`), if one starts there. */
  function SeasonTokenAt(s: string, i: nat): (r: Option<nat>)
    requires i < |s|
    ensures r.Some? ==> SeasonMatch(s, i, r.value)
  {
    if IsS(s[i]) then
      var j := RunEnd(s, i + 1);
      if i + 1 < j < |s| && IsE(s[j]) then Some(j) else None
    else None
  }

  /** The season token and episode group starting at `i`, if any. */
  function EpisodeAt(s: string, i: nat): (r: Option<(nat, nat)>)
    requires i < |s|
    ensures r.Some? ==> EpisodeMatch(s, i, r.value.0, r.value.1)
  {
    match SeasonTokenAt(s, i)
    case None => None
    case Some(j) =>
      var k := RunEnd(s, j + 1);
      if j + 1 < k then Some((j, k)) else None
  }

  /** The season group of the leftmost match at or after `i`. */
  function SeasonFrom(s: string, i: nat): Option<nat>
    decreases |s| - i
  {
    if i >= |s| then None
    else
      match SeasonTokenAt(s, i)
      case Some(j) => Some(DecimalValue(s[i + 1..j]))
      case None => SeasonFrom(s, i + 1)
  }

  /** The episode group of the leftmost match at or after `i`. */
  function EpisodeFrom(s: string, i: nat): Option<nat>
    decreases |s| - i
  {
    if i >= |s| then None
    else
      match EpisodeAt(s, i)
      case Some((j, k)) => Some(DecimalValue(s[j + 1..k]))
      case None => EpisodeFrom(s, i + 1)
  }

  function FindSeason(s: string): Option<nat> { SeasonFrom(s, 0) }

  function FindEpisode(s: string): Option<nat> { EpisodeFrom(s, 0) }

  /** The (season, episode) pair of a file name; None unless both patterns match. */
  function ExtractNumbers(filename: string): Option<(nat, nat)>
  {
    match (FindSeason(filename), FindEpisode(filename))
    case (Some(season), Some(episode)) => Some((season, episode))
    case _ => None
  }

  // -------------------------------------------------------- the scanner finds the leftmost match

  lemma SeasonTokenComplete(s: string, i: nat, j: nat)
    requires SeasonMatch(s, i, j)
    ensures SeasonTokenAt(s, i) == Some(j)
  {
    RunEndUnique(s, i + 1, j);
  }

  lemma EpisodeAtComplete(s: string, i: nat, j: nat, k: nat)
    requires EpisodeMatch(s, i, j, k)
    ensures EpisodeAt(s, i) == Some((j, k))
  {
    SeasonTokenComplete(s, i, j);
    RunEndUnique(s, j + 1, k);
  }

  /**
   * When the leftmost season match at or after `from` starts at `i` with group
   * s[i+1..j], the scanner reports that group's value.
   */
  lemma {:induction false} SeasonFromLeftmost(s: string, from: nat, i: nat, j: nat)
    requires from <= i
    requires SeasonMatch(s, i, j)
    requires forall i', j' :: from <= i' < i ==> !SeasonMatch(s, i', j')
    ensures SeasonFrom(s, from) == Some(DecimalValue(s[i + 1..j]))
    decreases i - from
  {
    if from == i {
      SeasonTokenComplete(s, i, j);
    } else {
      match SeasonTokenAt(s, from)
      case Some(j') =>
        assert false;
      case None =>
        SeasonFromLeftmost(s, from + 1, i, j);
    }
  }

  /** With no season match at or after `from`, the scanner reports none. */
  lemma {:induction false} SeasonFromNone(s: string, from: nat)
    requires forall i, j :: from <= i ==> !SeasonMatch(s, i, j)
    ensures SeasonFrom(s, from) == None
    decreases |s| - from
  {
    if from < |s| {
      match SeasonTokenAt(s, from)
      case Some(j) =>
        assert false;
      case None =>
        SeasonFromNone(s, from + 1);
    }
  }

  /** The episode counterpart of SeasonFromLeftmost. */
  lemma {:induction false} EpisodeFromLeftmost(s: string, from: nat, i: nat, j: nat, k: nat)
    requires from <= i
    requires EpisodeMatch(s, i, j, k)
    requires forall i', j', k' :: from <= i' < i ==> !EpisodeMatch(s, i', j', k')
    ensures EpisodeFrom(s, from) == Some(DecimalValue(s[j + 1..k]))
    decreases i - from
  {
    if from == i {
      EpisodeAtComplete(s, i, j, k);
    } else {
      match EpisodeAt(s, from)
      case Some((j', k')) =>
        assert false;
      case None =>
        EpisodeFromLeftmost(s, from + 1, i, j, k);
    }
  }

  /** The episode counterpart of SeasonFromNone. */
  lemma {:induction false} EpisodeFromNone(s: string, from: nat)
    requires forall i, j, k :: from <= i ==> !EpisodeMatch(s, i, j, k)
    ensures EpisodeFrom(s, from) == None
    decreases |s| - from
  {
    if from < |s| {
      match EpisodeAt(s, from)
      case Some((j, k)) =>
        assert false;
      case None =>
        EpisodeFromNone(s, from + 1);
    }
  }

  /**
   * The season is the full digit run of the leftmost `s<digits>e`, and the
   * episode the full digit run after the leftmost `s<digits>e<digits>`.
   */
  lemma ExtractNumbersLeftmost(s: string, i: nat, j: nat, i2: nat, j2: nat, k2: nat)
    requires SeasonMatch(s, i, j)
    requires forall i', j' :: 0 <= i' < i ==> !SeasonMatch(s, i', j')
    requires EpisodeMatch(s, i2, j2, k2)
    requires forall i', j', k' :: 0 <= i' < i2 ==> !EpisodeMatch(s, i', j', k')
    ensures ExtractNumbers(s) == Some((DecimalValue(s[i + 1..j]), DecimalValue(s[j2 + 1..k2])))
  {
    SeasonFromLeftmost(s, 0, i, j);
    EpisodeFromLeftmost(s, 0, i2, j2, k2);
  }

  /** A name with no `s<digits>e<digits>` anywhere yields no pair. */
  lemma ExtractNumbersNone(s: string)
    requires forall i, j, k :: !EpisodeMatch(s, i, j, k)
    ensures ExtractNumbers(s) == None
  {
    EpisodeFromNone(s, 0);
  }

  // -------------------------------------------------------- path.Base

  function TrimTrailingSlashes(p: string): string
  {
    if p != [] && p[|p| - 1] == '/' then TrimTrailingSlashes(p[..|p| - 1]) else p
  }

  /** The part of `p` after its last slash. */
  function AfterLastSlash(p: string): (r: string)
    ensures '/' !in r
  {
    if p == [] then []
    else if p[|p| - 1] == '/' then []
    else AfterLastSlash(p[..|p| - 1]) + [p[|p| - 1]]
  }

  /** path.Base: the last element of a slash-separated path. */
  function BaseName(p: string): string
  {
    if p == "" then "."
    else
      var q := TrimTrailingSlashes(p);
      if q == "" then "/" else AfterLastSlash(q)
  }

  lemma {:induction false} AfterLastSlashOfName(dir: string, name: string)
    requires '/' !in name
    ensures AfterLastSlash(dir + "/" + name) == name
    decreases |name|
  {
    var p := dir + "/" + name;
    if name == [] {
      assert p[|p| - 1] == '/';
    } else {
      assert p[..|p| - 1] == dir + "/" + name[..|name| - 1];
      AfterLastSlashOfName(dir, name[..|name| - 1]);
      assert name == name[..|name| - 1] + [name[|name| - 1]];
    }
  }

  /** The patterns see only the file's own name, never its folders. */
  lemma BaseNameOfJoin(dir: string, name: string)
    requires name != "" && '/' !in name
    ensures BaseName(dir + "/" + name) == name
  {
    var p := dir + "/" + name;
    assert p[|p| - 1] == name[|name| - 1];
    assert TrimTrailingSlashes(p) == p;
    AfterLastSlashOfName(dir, name);
  }

  // -------------------------------------------------------- examples

  /** Every match begins with an `s` followed by a digit. */
  lemma MatchStart(s: string, i: int, j: int)
    ensures SeasonMatch(s, i, j) ==> IsS(s[i]) && IsDigit(s[i + 1])
  {
    if SeasonMatch(s, i, j) {
      assert s[i + 1..j][0] == s[i + 1];
    }
  }

  /** No match starts before `to` when no `s` before it is followed by a digit. */
  lemma NoMatchBefore(s: string, to: nat)
    requires to < |s|
    requires forall i :: 0 <= i < to ==> !(IsS(s[i]) && IsDigit(s[i + 1]))
    ensures forall i, j :: 0 <= i < to ==> !SeasonMatch(s, i, j)
    ensures forall i, j, k :: 0 <= i < to ==> !EpisodeMatch(s, i, j, k)
  {
    forall i, j | 0 <= i < to
      ensures !SeasonMatch(s, i, j)
    {
      MatchStart(s, i, j);
    }
  }

  lemma ExampleSeasonEpisode()
    ensures ExtractNumbers("Show.Name.S02E05.mkv") == Some((2, 5))
  {
    var s := "Show.Name.S02E05.mkv";
    assert s[11..13] == "02";
    assert s[14..16] == "05";
    NoMatchBefore(s, 10);
    ExtractNumbersLeftmost(s, 10, 13, 10, 13, 16);
  }

  lemma ExampleNoSeasonToken()
    ensures ExtractNumbers("Show.Name.Episode5.mkv") == None
  {
    var s := "Show.Name.Episode5.mkv";
    NoMatchBefore(s, |s| - 1);
    ExtractNumbersNone(s);
  }
}
