/**
 * The leaderboard carousel: a page of one or three entries, a start index stepped forwards and
 * backwards modulo the number of start positions, and each entry's e-mail shown as a short name.
 */
module WallOfFame {
  import opened Options

  /** `window.innerWidth < 640 ? 1 : 3`: one card on narrow screens, three otherwise. */
  function ItemsPerPage(width: int): (r: nat)
    ensures r == 1 || r == 3
    ensures r == 1 <==> width < 640
  {
    if width < 640 then 1 else 3
  }

  function Min(a: int, b: int): int
  {
    if a <= b then a else b
  }

  /**
   * `leaderboardData.slice(start, start + itemsPerPage)`: the entries from start on, at most one
   * page of them (slice stops at the end of the array).
   */
  function Visible<T>(users: seq<T>, start: int, itemsPerPage: nat): (r: seq<T>)
    requires 0 <= start <= |users|
    ensures |r| == Min(itemsPerPage, |users| - start)
    ensures start + itemsPerPage <= |users| ==> |r| == itemsPerPage
    ensures forall k :: 0 <= k < |r| ==> r[k] == users[start + k]
  {
    users[start..Min(start + itemsPerPage, |users|)]
  }

  // ---------------------------------------------------------------------------------------
  // The stepping as written: `% (len - itemsPerPage + 1)` in JavaScript arithmetic.

  function Abs(x: int): nat
  {
    if x < 0 then -x else x
  }

  /** JavaScript's `%` on integers: it truncates, so the result takes the dividend's sign. */
  function JsRem(a: int, b: int): (r: int)
    requires b != 0
    ensures Abs(r) < Abs(b)
    ensures r == 0 || (r < 0 <==> a < 0)
    ensures a >= 0 && b > 0 ==> r == a % b
  {
    var q := Abs(a) % Abs(b);
    if a < 0 then -q else q
  }

  /** `nextSlide` as written: None stands for NaN, which `x % 0` gives. */
  function NextSlideAsWritten(i: int, len: nat, itemsPerPage: nat): (r: Option<int>)
    ensures r.None? <==> len - itemsPerPage + 1 == 0
  {
    var m := len - itemsPerPage + 1;
    if m == 0 then None else Some(JsRem(i + 1, m))
  }

  /** `prevSlide` as written: None stands for NaN. */
  function PrevSlideAsWritten(i: int, len: nat, itemsPerPage: nat): (r: Option<int>)
    ensures r.None? <==> len - itemsPerPage + 1 == 0
  {
    var m := len - itemsPerPage + 1;
    if m == 0 then None else Some(JsRem(i - 1 + m, m))
  }

  /** The cards shown for a start index that may be NaN: `slice(NaN, NaN)` is empty. */
  function VisibleAsWritten<T>(users: seq<T>, start: Option<int>, itemsPerPage: nat): (r: seq<T>)
    requires start.Some? ==> 0 <= start.value <= |users|
    ensures start.None? ==> r == []
  {
    if start.None? then [] else Visible(users, start.value, itemsPerPage)
  }

  /**
   * The discrepancy: two leaderboard entries on a wide screen (three cards per page) show both
   * entries, but one press of either arrow makes the start index NaN and the carousel empty.
   */
  lemma TwoEntriesOnWideScreenVanish(users: seq<string>)
    requires |users| == 2
    ensures |Visible(users, 0, ItemsPerPage(1024))| == 2
    ensures NextSlideAsWritten(0, |users|, ItemsPerPage(1024)) == None
    ensures PrevSlideAsWritten(0, |users|, ItemsPerPage(1024)) == None
    ensures VisibleAsWritten(users, NextSlideAsWritten(0, |users|, ItemsPerPage(1024)), 3) == []
  {
  }

  // ---------------------------------------------------------------------------------------
  // The stepping as intended: the number of start positions is never below one.

  /** The start positions of a full page, and just position 0 when the list fits on one page. */
  function Positions(len: nat, itemsPerPage: nat): (m: nat)
    ensures m >= 1
    ensures len >= itemsPerPage ==> m == len - itemsPerPage + 1
    ensures len < itemsPerPage ==> m == 1
  {
    if len >= itemsPerPage then len - itemsPerPage + 1 else 1
  }

  /**
   * `nextSlide`: one position forward, the last wrapping to the first. A start index set by a
   * page dot may lie past the last position; stepping brings it back into range.
   */
  function NextSlide(i: int, len: nat, itemsPerPage: nat): (r: int)
    requires 0 <= i
    ensures 0 <= r < Positions(len, itemsPerPage)
    ensures i < Positions(len, itemsPerPage) ==>
              r == if i == Positions(len, itemsPerPage) - 1 then 0 else i + 1
  {
    (i + 1) % Positions(len, itemsPerPage)
  }

  /** `prevSlide`: one position back, the first wrapping to the last. */
  function PrevSlide(i: int, len: nat, itemsPerPage: nat): (r: int)
    requires 0 <= i
    ensures 0 <= r < Positions(len, itemsPerPage)
    ensures i < Positions(len, itemsPerPage) ==>
              r == if i == 0 then Positions(len, itemsPerPage) - 1 else i - 1
  {
    var m := Positions(len, itemsPerPage);
    (i - 1 + m) % m
  }

  /** Back undoes forward and forward undoes back. */
  lemma SlidesInverse(i: int, len: nat, itemsPerPage: nat)
    requires 0 <= i < Positions(len, itemsPerPage)
    ensures PrevSlide(NextSlide(i, len, itemsPerPage), len, itemsPerPage) == i
    ensures NextSlide(PrevSlide(i, len, itemsPerPage), len, itemsPerPage) == i
  {
  }

  /** Wherever there is at least a full page, the intended stepping is the written one. */
  lemma SlidesAgreeWithAsWritten(i: int, len: nat, itemsPerPage: nat)
    requires len >= itemsPerPage
    requires 0 <= i
    ensures NextSlideAsWritten(i, len, itemsPerPage) == Some(NextSlide(i, len, itemsPerPage))
    ensures PrevSlideAsWritten(i, len, itemsPerPage) == Some(PrevSlide(i, len, itemsPerPage))
  {
  }

  /**
   * After any press of either arrow a non-empty leaderboard shows a full page, or every entry
   * when there are fewer than a page.
   */
  lemma SlideShowsFullPage<T>(users: seq<T>, i: int, itemsPerPage: nat)
    requires 0 <= i
    ensures var n := NextSlide(i, |users|, itemsPerPage);
            n <= |users| && |Visible(users, n, itemsPerPage)| == Min(itemsPerPage, |users|)
    ensures var p := PrevSlide(i, |users|, itemsPerPage);
            p <= |users| && |Visible(users, p, itemsPerPage)| == Min(itemsPerPage, |users|)
  {
  }

  /**
   * The page dots: one per entry whose index is a multiple of the page size; pressing one sets
   * the start index to that entry.
   */
  function DotStarts(len: nat, itemsPerPage: nat): (r: set<int>)
    requires itemsPerPage >= 1
    ensures forall i :: i in r <==> 0 <= i < len && i % itemsPerPage == 0
    ensures len > 0 ==> 0 in r
  {
    set i | 0 <= i < len && i % itemsPerPage == 0
  }

  /** A dot's start shows between one card and a full page, and may lie past the last position. */
  lemma DotShowsSomeCards<T>(users: seq<T>, i: int, itemsPerPage: nat)
    requires itemsPerPage >= 1 && i in DotStarts(|users|, itemsPerPage)
    ensures 1 <= |Visible(users, i, itemsPerPage)| <= itemsPerPage
  {
  }

  /** With five entries and three cards a page, the dot for entry 3 starts past the last position, 2. */
  lemma DotPastLastPosition()
    ensures 3 in DotStarts(5, 3) && Positions(5, 3) == 3
    ensures NextSlide(3, 5, 3) == 1 && PrevSlide(3, 5, 3) == 2
  {
  }

  // ---------------------------------------------------------------------------------------
  // The name shown on each card.

  predicate IsAsciiLetter(c: char)
  {
    'a' <= c <= 'z' || 'A' <= c <= 'Z'
  }

  /** `s.replace(/[^a-zA-Z]/g, '')`: the ASCII letters of s, in order. */
  function Letters(s: string): (r: string)
    ensures |r| <= |s|
    ensures forall k :: 0 <= k < |r| ==> IsAsciiLetter(r[k])
    decreases |s|
  {
    if s == [] then [] else (if IsAsciiLetter(s[0]) then [s[0]] else []) + Letters(s[1..])
  }

  /** Letters keeps the order: the letters of a concatenation are the concatenated letters. */
  lemma {:induction false} LettersAppend(a: string, b: string)
    ensures Letters(a + b) == Letters(a) + Letters(b)
    decreases |a|
  {
    if a == [] {
      assert a + b == b;
    } else {
      assert (a + b)[0] == a[0];
      assert (a + b)[1..] == a[1..] + b;
      LettersAppend(a[1..], b);
    }
  }

  /** Letters keeps every letter, as often as it occurs, and nothing else. */
  lemma {:induction false} LettersKeepsEveryLetter(s: string, c: char)
    ensures multiset(Letters(s))[c] == if IsAsciiLetter(c) then multiset(s)[c] else 0
    decreases |s|
  {
    if s != [] {
      LettersKeepsEveryLetter(s[1..], c);
      assert s == [s[0]] + s[1..];
      assert multiset(s) == multiset{s[0]} + multiset(s[1..]);
    }
  }

  /** A string of letters only is its own letters. */
  lemma {:induction false} LettersOfLetters(s: string)
    requires forall k :: 0 <= k < |s| ==> IsAsciiLetter(s[k])
    ensures Letters(s) == s
    decreases |s|
  {
    if s != [] {
      LettersOfLetters(s[1..]);
    }
  }

  /** The card's name: the letters of the e-mail, cut to the first eight. */
  function DisplayName(email: string): (r: string)
    ensures |r| <= 8
    ensures forall k :: 0 <= k < |r| ==> IsAsciiLetter(r[k])
    // a prefix of the e-mail's letters, and all of them when there are at most eight
    ensures |r| == Min(8, |Letters(email)|)
    ensures r == Letters(email)[..|r|]
  {
    var letters := Letters(email);
    if |letters| <= 8 then letters else letters[..8]
  }
}
