/** Line scanning over shader sources and compiler logs (opengl/defaults.hpp):
    `line_offsets`, which splits a text into lines at newlines and stops at
    the first NUL, and `matched_line_number`, which extracts the line number
    from a log line of the form `...:<digits>(...`. */
module TextLines {
  import opened Wrappers

  /** Position of the first NUL character of `s`, or `|s|` when there is none. */
  function NulIndex(s: string): (p: nat)
    ensures p <= |s|
    ensures p < |s| ==> s[p] == '\0'
    ensures forall k :: 0 <= k < p ==> s[k] != '\0'
  {
    if s == [] || s[0] == '\0' then 0 else 1 + NulIndex(s[1..])
  }

  /** The start of every line but the first: `i + 1` for each newline at `i`, in scan order. */
  function LineStarts(s: string): (r: seq<nat>)
    ensures forall k :: 0 <= k < |r| ==> 1 <= r[k] <= |s| && s[r[k] - 1] == '\n'
    ensures forall k, l :: 0 <= k < l < |r| ==> r[k] < r[l]
  {
    if s == [] then []
    else LineStarts(s[..|s| - 1]) + (if s[|s| - 1] == '\n' then [|s|] else [])
  }

  /** There is one line start per newline. */
  lemma {:induction false} LineStartsCount(s: string)
    ensures |LineStarts(s)| == multiset(s)['\n']
  {
    if s != [] {
      var init := s[..|s| - 1];
      LineStartsCount(init);
      assert s == init + [s[|s| - 1]];
      assert multiset(s) == multiset(init) + multiset{s[|s| - 1]};
    }
  }

  /** The offsets `line_offsets` returns: 0, the start of every later line
      before the first NUL, and last the position of that NUL (or the length
      of `s` when it has none). Line `k` (counted from 1) is
      `s[r[k - 1]..r[k]]`. */
  function Offsets(s: string): (r: seq<nat>)
    ensures 2 <= |r| && r[0] == 0 && r[|r| - 1] == NulIndex(s)
    ensures forall k :: 0 <= k < |r| ==> r[k] <= NulIndex(s) <= |s|
    ensures forall k, l :: 0 <= k <= l < |r| ==> r[k] <= r[l]
  {
    var p := NulIndex(s);
    var starts := LineStarts(s[..p]);
    var r := [0] + starts + [p];
    assert forall k :: 0 < k < |r| - 1 ==> r[k] == starts[k - 1];
    assert forall k, l :: 0 <= k <= l < |r| ==> r[k] <= r[l] by {
      forall k, l | 0 <= k <= l < |r|
        ensures r[k] <= r[l]
      {
        if 0 < k && l < |r| - 1 && k < l {
          assert starts[k - 1] < starts[l - 1];
        }
      }
    }
    r
  }

  /** `line_offsets`: one scan over `str`, pushing `i + 1` after each newline
      and returning early, with `i` pushed last, at the first NUL. */
  method LineOffsets(str: string) returns (offsets: seq<nat>)
    ensures offsets == Offsets(str)
  {
    offsets := [0];
    var i := 0;
    while i < |str|
      invariant 0 <= i <= |str|
      invariant forall k :: 0 <= k < i ==> str[k] != '\0'
      invariant offsets == [0] + LineStarts(str[..i])
    {
      LineStartsStep(str, i);
      if str[i] == '\n' {
        offsets := offsets + [i + 1];
      }
      if str[i] == '\0' {
        OffsetsUpTo(str, i);
        offsets := offsets + [i];
        return;
      }
      i := i + 1;
    }
    OffsetsUpTo(str, |str|);
    offsets := offsets + [|str|];
  }

  /** When the scan reaches `p` with no NUL before it and stops there (at a
      NUL or at the end), the offsets are those seen so far followed by `p`. */
  lemma OffsetsUpTo(s: string, p: nat)
    requires p <= |s| && (p < |s| ==> s[p] == '\0')
    requires forall k :: 0 <= k < p ==> s[k] != '\0'
    ensures Offsets(s) == [0] + LineStarts(s[..p]) + [p]
  {
    assert NulIndex(s) == p;
  }

  /** Scanning one more character adds its line start, if it is a newline. */
  lemma LineStartsStep(s: string, i: nat)
    requires i < |s|
    ensures LineStarts(s[..i + 1]) == LineStarts(s[..i]) + (if s[i] == '\n' then [i + 1] else [])
  {
    assert s[..i + 1][..i] == s[..i];
  }

  /** Every newline at `i` makes `i + 1` a line start. */
  lemma {:induction false} LineStartsComplete(s: string, i: nat)
    requires i < |s| && s[i] == '\n'
    ensures i + 1 in LineStarts(s)
  {
    var init := s[..|s| - 1];
    if i < |s| - 1 {
      LineStartsComplete(init, i);
    }
  }

  /** The interior offsets are exactly the line starts before the first NUL:
      each one follows a newline there, and each newline there yields one. */
  lemma OffsetsInterior(s: string)
    ensures forall k :: 0 < k < |Offsets(s)| - 1 ==>
      Offsets(s)[k] - 1 < NulIndex(s) && s[Offsets(s)[k] - 1] == '\n'
    ensures forall i :: 0 <= i < NulIndex(s) && s[i] == '\n' ==>
      i + 1 in Offsets(s)[1..|Offsets(s)| - 1]
  {
    var p := NulIndex(s);
    var r := Offsets(s);
    assert r[1..|r| - 1] == LineStarts(s[..p]);
    forall i | 0 <= i < p && s[i] == '\n'
      ensures i + 1 in r[1..|r| - 1]
    {
      LineStartsComplete(s[..p], i);
    }
  }

  /** Without a NUL, there is one offset per newline plus the first and the last. */
  lemma OffsetsLength(s: string)
    requires '\0' !in s
    ensures NulIndex(s) == |s|
    ensures |Offsets(s)| == multiset(s)['\n'] + 2
  {
    assert s[..|s|] == s;
    LineStartsCount(s);
  }

  /** Without a NUL, a trailing newline makes the last two offsets equal (an empty last line). */
  lemma TrailingNewline(s: string)
    requires '\0' !in s && |s| > 0 && s[|s| - 1] == '\n'
    ensures Offsets(s)[|Offsets(s)| - 2] == Offsets(s)[|Offsets(s)| - 1] == |s|
  {
    OffsetsLength(s);
    assert s[..|s|] == s;
    var starts := LineStarts(s);
    assert starts == LineStarts(s[..|s| - 1]) + [|s|];
  }

  /** Characters after the first NUL are never looked at. */
  lemma IgnoredAfterNul(s: string, t: string)
    requires '\0' in s
    ensures Offsets(s + t) == Offsets(s)
  {
    var p := NulIndex(s);
    assert (s + t)[p] == '\0';
    assert NulIndex(s + t) == p;
    assert (s + t)[..p] == s[..p];
  }

  predicate IsDigit(c: char) {
    '0' <= c <= '9'
  }

  /** `s[i..j + 1]` matches the pattern `:(\d+)\(`: a colon at `i`, one or
      more decimal digits, an opening parenthesis at `j`. */
  ghost predicate MatchAt(s: string, i: nat, j: nat) {
    i + 1 < j < |s| && s[i] == ':' && s[j] == '(' &&
    forall k :: i < k < j ==> IsDigit(s[k])
  }

  /** The match at `i` is the leftmost one, the one a regex search reports first. */
  ghost predicate FirstMatchAt(s: string, i: nat, j: nat) {
    MatchAt(s, i, j) && forall a: nat, b: nat :: a < i ==> !MatchAt(s, a, b)
  }

  function Pow10(n: nat): nat {
    if n == 0 then 1 else 10 * Pow10(n - 1)
  }

  /** The value of a string of decimal digits, as `std::stoi` reads it: it
      has no more digits than the string. */
  function DecimalValue(d: string): (v: nat)
    requires forall k :: 0 <= k < |d| ==> IsDigit(d[k])
    ensures v < Pow10(|d|)
  {
    if d == [] then 0
    else
      assert IsDigit(d[|d| - 1]);
      10 * DecimalValue(d[..|d| - 1]) + (d[|d| - 1] as int - '0' as int)
  }

  /** Leading zeros do not change the value. */
  lemma {:induction false} LeadingZero(d: string)
    requires forall k :: 0 <= k < |d| ==> IsDigit(d[k])
    ensures DecimalValue(['0'] + d) == DecimalValue(d)
  {
    if d != [] {
      var init := d[..|d| - 1];
      assert (['0'] + d)[..|d|] == ['0'] + init;
      LeadingZero(init);
    }
  }

  /** The end of the run of digits that starts at `k`. */
  function DigitRunEnd(s: string, k: nat): (e: nat)
    requires k <= |s|
    ensures k <= e <= |s|
    ensures forall m :: k <= m < e ==> IsDigit(s[m])
    ensures e < |s| ==> !IsDigit(s[e])
    decreases |s| - k
  {
    if k == |s| || !IsDigit(s[k]) then k else DigitRunEnd(s, k + 1)
  }

  /** The digits of a match at `i` are the whole run of digits after the colon. */
  lemma MatchEndsRun(s: string, i: nat, j: nat)
    requires MatchAt(s, i, j)
    ensures j == DigitRunEnd(s, i + 1)
  {
    var e := DigitRunEnd(s, i + 1);
    assert !IsDigit(s[j]);
  }

  /** The leftmost match whose colon is at or after `i`, as (colon, parenthesis). */
  function FirstMatchFrom(s: string, i: nat): (r: Option<(nat, nat)>)
    requires i <= |s|
    ensures r.None? ==> forall a: nat, b: nat :: i <= a ==> !MatchAt(s, a, b)
    ensures r.Some? ==> i <= r.value.0 && MatchAt(s, r.value.0, r.value.1)
    ensures r.Some? ==> forall a: nat, b: nat :: i <= a < r.value.0 ==> !MatchAt(s, a, b)
    decreases |s| - i
  {
    if i == |s| then None
    else
      var e := DigitRunEnd(s, i + 1);
      if s[i] == ':' && i + 1 < e < |s| && s[e] == '(' then Some((i, e))
      else
        assert forall b :: !MatchAt(s, i, b) by {
          forall b | MatchAt(s, i, b) ensures false {
            MatchEndsRun(s, i, b);
          }
        }
        FirstMatchFrom(s, i + 1)
  }

  /** `matched_line_number`: -1 when the text holds no `:<digits>(`, and
      otherwise the value of the digits of the leftmost such match. */
  function MatchedLineNumber(s: string): (n: int)
    ensures n == -1 <==> forall a: nat, b: nat :: !MatchAt(s, a, b)
    ensures n != -1 ==> exists a: nat, b: nat :: FirstMatchAt(s, a, b) && n == DecimalValue(s[a + 1..b])
  {
    match FirstMatchFrom(s, 0)
    case None => -1
    case Some((a, b)) =>
      assert FirstMatchAt(s, a, b);
      DecimalValue(s[a + 1..b])
  }
}
