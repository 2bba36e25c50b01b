/**
 * The weekly streak card: a 7-day window from a start date, the completed days reported by the
 * server, and the rule that the week streak only stands with at least 3 workouts in the window.
 */
module StreakTracker {
  import opened Options
  import opened Session

  /**
   * A calendar day as a day number; consecutive days have consecutive numbers, and two
   * "yyyy-MM-dd" strings are equal exactly when they name the same day.
   */
  type Day = int

  /** The streak figures the card shows. */
  datatype StreakData = StreakData(weekStreak: int, bestStreak: int, completedDays: seq<Day>)

  /** The card's state: the first day of the shown week and the streak figures. */
  datatype Card = Card(startDate: Day, streak: StreakData)

  /** Workouts a week needs for its streak to stand. */
  const StreakMinimum: nat := 3

  /** The card as first rendered: the week starting today, all figures zero. */
  function InitialCard(today: Day): (c: Card)
    ensures c.startDate == today && c.streak == StreakData(0, 0, [])
  {
    Card(today, StreakData(0, 0, []))
  }

  /** `Array.from({ length: 7 }, (_, i) => addDays(startDate, i))`. */
  function WeekDays(start: Day): (r: seq<Day>)
    ensures |r| == 7
    ensures forall i :: 0 <= i < 7 ==> r[i] == start + i
  {
    seq(7, i => start + i)
  }

  /** The window holds exactly the seven consecutive days from its start. */
  lemma InWeek(d: Day, start: Day)
    ensures d in WeekDays(start) <==> start <= d < start + 7
  {
    if start <= d < start + 7 {
      assert WeekDays(start)[d - start] == d;
    }
  }

  /** `completedDays.filter(day => last7Days.includes(day)).length`. */
  function WorkoutDays(completed: seq<Day>, start: Day): (r: nat)
    ensures r <= |completed|
    decreases |completed|
  {
    if completed == [] then 0
    else (if completed[0] in WeekDays(start) then 1 else 0) + WorkoutDays(completed[1..], start)
  }

  /** How many entries of m fall on the first k days from start. */
  function OnDays(m: multiset<Day>, start: Day, k: nat): nat
    decreases k
  {
    if k == 0 then 0 else OnDays(m, start, k - 1) + m[start + k - 1]
  }

  lemma {:induction false} OnDaysAdd(a: multiset<Day>, b: multiset<Day>, start: Day, k: nat)
    ensures OnDays(a + b, start, k) == OnDays(a, start, k) + OnDays(b, start, k)
    decreases k
  {
    if k > 0 {
      OnDaysAdd(a, b, start, k - 1);
    }
  }

  lemma {:induction false} OnDaysOne(d: Day, start: Day, k: nat)
    ensures OnDays(multiset{d}, start, k) == if start <= d < start + k then 1 else 0
    decreases k
  {
    if k > 0 {
      OnDaysOne(d, start, k - 1);
    }
  }

  /**
   * The count is, day by day over the window, how often the day occurs among the completed
   * days (a day reported twice counts twice, as the filter does).
   */
  lemma {:induction false} WorkoutDaysCountsEachDay(completed: seq<Day>, start: Day)
    ensures WorkoutDays(completed, start) == OnDays(multiset(completed), start, 7)
    decreases |completed|
  {
    if completed != [] {
      var d := completed[0];
      WorkoutDaysCountsEachDay(completed[1..], start);
      assert completed == [d] + completed[1..];
      assert multiset(completed) == multiset{d} + multiset(completed[1..]);
      OnDaysAdd(multiset{d}, multiset(completed[1..]), start, 7);
      OnDaysOne(d, start, 7);
      InWeek(d, start);
    }
  }

  /** `workoutDays >= 3 ? data.weekStreak : 0`. */
  function WeekStreak(serverStreak: int, workoutDays: nat): (r: int)
    ensures workoutDays >= StreakMinimum ==> r == serverStreak
    ensures workoutDays < StreakMinimum ==> r == 0
  {
    if workoutDays >= StreakMinimum then serverStreak else 0
  }

  /**
   * The fetch effect: with no e-mail, or when the request or its parsing fails, nothing changes;
   * otherwise best streak and completed days are stored as received and the week streak only
   * if the shown week holds at least 3 workouts.
   */
  function Refresh(c: Card, email: Option<string>, response: Option<StreakData>): (r: Card)
    ensures !LoggedIn(email) || response.None? ==> r == c
    ensures LoggedIn(email) && response.Some? ==>
              && r.startDate == c.startDate
              && r.streak.bestStreak == response.value.bestStreak
              && r.streak.completedDays == response.value.completedDays
              && r.streak.weekStreak ==
                   (if WorkoutDays(response.value.completedDays, c.startDate) >= StreakMinimum
                    then response.value.weekStreak else 0)
  {
    if !LoggedIn(email) then c
    else match response
      case None => c
      case Some(data) =>
        var workouts := WorkoutDays(data.completedDays, c.startDate);
        Card(c.startDate, StreakData(WeekStreak(data.weekStreak, workouts), data.bestStreak, data.completedDays))
  }

  /** A refreshed week streak is the server's or zero, and zero whenever the week has under 3 workouts. */
  lemma RefreshedStreak(c: Card, email: string, data: StreakData)
    requires email != ""
    ensures var r := Refresh(c, Some(email), Some(data));
            && (r.streak.weekStreak == data.weekStreak || r.streak.weekStreak == 0)
            && (OnDays(multiset(data.completedDays), c.startDate, 7) < StreakMinimum ==> r.streak.weekStreak == 0)
  {
    WorkoutDaysCountsEachDay(data.completedDays, c.startDate);
  }

  /** The back arrow: the week before. */
  function Back(c: Card): (r: Card)
    ensures r.startDate == c.startDate - 7 && r.streak == c.streak
  {
    c.(startDate := c.startDate - 7)
  }

  /** The forward arrow: the week after. */
  function Forward(c: Card): (r: Card)
    ensures r.startDate == c.startDate + 7 && r.streak == c.streak
  {
    c.(startDate := c.startDate + 7)
  }

  /** Back then forward, or forward then back, shows the same week again. */
  lemma BackForwardInverse(c: Card)
    ensures Forward(Back(c)) == c && Back(Forward(c)) == c
  {
  }

  /** Moving a week shifts the window by seven days: the new week starts where the old one ended. */
  lemma ForwardWindowFollows(c: Card)
    ensures WeekDays(Forward(c).startDate)[0] == WeekDays(c.startDate)[6] + 1
    ensures WeekDays(Back(c).startDate)[6] + 1 == WeekDays(c.startDate)[0]
  {
  }

  /** A day of the shown week is highlighted when it is among the completed days. */
  function Highlighted(c: Card): (r: seq<bool>)
    ensures |r| == 7
    ensures forall i :: 0 <= i < 7 ==> (r[i] <==> c.startDate + i in c.streak.completedDays)
  {
    var week := WeekDays(c.startDate);
    seq(7, i requires 0 <= i < 7 => week[i] in c.streak.completedDays)
  }

  /** The highlighted days of the shown week are at most the workouts it counted. */
  lemma {:induction false} HighlightedAtMostWorkouts(completed: seq<Day>, start: Day)
    ensures |set d | d in WeekDays(start) && d in completed| <= WorkoutDays(completed, start)
    decreases |completed|
  {
    if completed == [] {
      assert (set d | d in WeekDays(start) && d in completed) == {};
    } else {
      var rest := completed[1..];
      HighlightedAtMostWorkouts(rest, start);
      var s := set d | d in WeekDays(start) && d in completed;
      var s' := set d | d in WeekDays(start) && d in rest;
      assert s <= s' + {completed[0]};
      if completed[0] !in WeekDays(start) {
        assert s <= s';
        assert |s| <= |s'| by { SubsetCard(s, s'); }
      } else {
        assert |s| <= |s' + {completed[0]}| by { SubsetCard(s, s' + {completed[0]}); }
      }
    }
  }

  lemma SubsetCard(a: set<Day>, b: set<Day>)
    requires a <= b
    ensures |a| <= |b|
  {
    assert b == a + (b - a);
  }
}
