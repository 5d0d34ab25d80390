/** The mood-tracking page: a month cursor, the entries of the selected month,
    their per-mood distribution and dominant mood, and the new-entry form. */
module MoodTracking {
  import opened Wrappers
  import Seqs
  import opened Features

  /** Months counted from year 0: consecutive months have consecutive indices. */
  function MonthIndex(month: int, year: int): int {
    year * 12 + month
  }

  predicate IsMonth(month: int) {
    0 <= month < 12
  }

  /** The month before (month, year); January steps back to December of the
      previous year. */
  function PrevMonthOf(month: int, year: int): (r: (int, int))
    requires IsMonth(month)
    ensures IsMonth(r.0)
    ensures MonthIndex(r.0, r.1) == MonthIndex(month, year) - 1
  {
    if month == 0 then (11, year - 1) else (month - 1, year)
  }

  /** The month after (month, year); December steps on to January of the
      next year. */
  function NextMonthOf(month: int, year: int): (r: (int, int))
    requires IsMonth(month)
    ensures IsMonth(r.0)
    ensures MonthIndex(r.0, r.1) == MonthIndex(month, year) + 1
  {
    if month == 11 then (0, year + 1) else (month + 1, year)
  }

  /** Forward after back, and back after forward, return to the same month. */
  lemma NavigationRoundTrip(month: int, year: int)
    requires IsMonth(month)
    ensures NextMonthOf(PrevMonthOf(month, year).0, PrevMonthOf(month, year).1) == (month, year)
    ensures PrevMonthOf(NextMonthOf(month, year).0, NextMonthOf(month, year).1) == (month, year)
  {
  }

  predicate InMonth(e: MoodEntry, month: int, year: int) {
    e.date.month == month && e.date.year == year
  }

  /** The entries dated in the selected month and year, in their stored order. */
  function MonthEntries(entries: seq<MoodEntry>, month: int, year: int): (r: seq<MoodEntry>)
    ensures |r| <= |entries|
    ensures forall e :: e in r <==> e in entries && InMonth(e, month, year)
    ensures forall e :: multiset(r)[e] == if InMonth(e, month, year) then multiset(entries)[e] else 0
  {
    Seqs.Filter(entries, (e: MoodEntry) => InMonth(e, month, year))
  }

  /** The per-mood counts of a list of entries, keyed in the fixed order
      happy, neutral, sad, anxious, stressed. */
  function Distribution(entries: seq<MoodEntry>): (d: seq<(Mood, nat)>)
    ensures |d| == |MoodOrder|
    ensures forall i :: 0 <= i < |d| ==> d[i].0 == MoodOrder[i] && d[i].1 == CountMood(entries, MoodOrder[i])
  {
    seq(5, i requires 0 <= i < 5 => (MoodOrder[i], CountMood(entries, MoodOrder[i])))
  }

  /** The sum of the counts, as the page's reduce adds them up from 0. */
  function SumCounts(d: seq<(Mood, nat)>): nat {
    if d == [] then 0 else SumCounts(d[..|d| - 1]) + d[|d| - 1].1
  }

  lemma SumOfFive(d: seq<(Mood, nat)>)
    requires |d| == 5
    ensures SumCounts(d) == d[0].1 + d[1].1 + d[2].1 + d[3].1 + d[4].1
  {
    assert SumCounts(d) == SumCounts(d[..4]) + d[4].1;
    assert d[..4][..3] == d[..3];
    assert SumCounts(d[..4]) == SumCounts(d[..3]) + d[3].1;
    assert d[..3][..2] == d[..2];
    assert SumCounts(d[..3]) == SumCounts(d[..2]) + d[2].1;
    assert d[..2][..1] == d[..1];
    assert SumCounts(d[..2]) == SumCounts(d[..1]) + d[1].1;
    assert d[..1][..0] == [];
  }

  /** The total shown for a month is its number of entries: every entry is
      counted under exactly one of the five moods. */
  lemma TotalEntriesIsMonthCount(entries: seq<MoodEntry>, month: int, year: int)
    ensures SumCounts(Distribution(MonthEntries(entries, month, year)))
            == |MonthEntries(entries, month, year)|
  {
    var m := MonthEntries(entries, month, year);
    var d := Distribution(m);
    SumOfFive(d);
    CountsCoverAllEntries(m);
  }

  /** The reduce step: the earlier pair survives only with a strictly larger count. */
  function Heavier(a: (Mood, nat), b: (Mood, nat)): (Mood, nat) {
    if a.1 > b.1 then a else b
  }

  /** The dominant pair: a left fold of Heavier seeded with the first pair. */
  function Dominant(d: seq<(Mood, nat)>): (r: (Mood, nat))
    requires |d| > 0
    ensures r in d
    ensures forall i :: 0 <= i < |d| ==> d[i].1 <= r.1
  {
    if |d| == 1 then d[0] else Heavier(Dominant(d[..|d| - 1]), d[|d| - 1])
  }

  /** Ties go to the later key: no pair after the dominant one reaches its count. */
  lemma {:induction false} DominantIsLastMaximum(d: seq<(Mood, nat)>)
    requires |d| > 0
    ensures exists i :: 0 <= i < |d| && d[i] == Dominant(d)
              && forall j :: i < j < |d| ==> d[j].1 < Dominant(d).1
  {
    var n := |d|;
    if n == 1 {
      assert d[0] == Dominant(d);
    } else {
      var p := d[..n - 1];
      DominantIsLastMaximum(p);
      var i :| 0 <= i < |p| && p[i] == Dominant(p) && forall j :: i < j < |p| ==> p[j].1 < Dominant(p).1;
      if Dominant(p).1 > d[n - 1].1 {
        assert d[i] == Dominant(d);
        forall j | i < j < n
          ensures d[j].1 < Dominant(d).1
        {
          if j < n - 1 {
            assert d[j] == p[j];
          }
        }
      } else {
        assert d[n - 1] == Dominant(d);
      }
    }
  }

  /** The dominant mood of the selected month's entries. */
  function DominantMood(entries: seq<MoodEntry>, month: int, year: int): (m: Mood)
    ensures forall k :: k in MoodOrder ==>
              CountMood(MonthEntries(entries, month, year), k)
              <= CountMood(MonthEntries(entries, month, year), m)
  {
    var d := Distribution(MonthEntries(entries, month, year));
    var r := Dominant(d);
    assert forall k :: k in MoodOrder ==> exists i :: 0 <= i < 5 && d[i].0 == k;
    assert exists i :: 0 <= i < 5 && d[i] == r;
    r.0
  }

  /** With equal counts everywhere the last key, stressed, is reported. */
  lemma FullTieReportsStressed(c: nat)
    ensures Dominant([(Happy, c), (Neutral, c), (Sad, c), (Anxious, c), (Stressed, c)]).0 == Stressed
  {
    var d := [(Happy, c), (Neutral, c), (Sad, c), (Anxious, c), (Stressed, c)];
    assert d[..4] == [(Happy, c), (Neutral, c), (Sad, c), (Anxious, c)];
  }

  class MoodTracker {
    var selectedMood: Option<Mood>
    var notes: string
    var showForm: bool
    var currentMonth: int
    var currentYear: int

    ghost predicate Valid()
      reads this
    {
      IsMonth(currentMonth)
    }

    /** Opens on the month of `now`, with an empty form hidden. */
    constructor (now: Instant)
      requires IsMonth(now.month)
      ensures Valid() && currentMonth == now.month && currentYear == now.year
      ensures selectedMood == None && notes == [] && !showForm
    {
      selectedMood := None;
      notes := [];
      showForm := false;
      currentMonth := now.month;
      currentYear := now.year;
    }

    method PreviousMonth()
      requires Valid()
      modifies this
      ensures Valid()
      ensures (currentMonth, currentYear) == PrevMonthOf(old(currentMonth), old(currentYear))
      ensures selectedMood == old(selectedMood) && notes == old(notes) && showForm == old(showForm)
    {
      if currentMonth == 0 {
        currentMonth := 11;
        currentYear := currentYear - 1;
      } else {
        currentMonth := currentMonth - 1;
      }
    }

    method NextMonth()
      requires Valid()
      modifies this
      ensures Valid()
      ensures (currentMonth, currentYear) == NextMonthOf(old(currentMonth), old(currentYear))
      ensures selectedMood == old(selectedMood) && notes == old(notes) && showForm == old(showForm)
    {
      if currentMonth == 11 {
        currentMonth := 0;
        currentYear := currentYear + 1;
      } else {
        currentMonth := currentMonth + 1;
      }
    }

    /** The New Entry / Cancel button. */
    method ToggleForm()
      modifies this
      ensures showForm == !old(showForm)
      ensures selectedMood == old(selectedMood) && notes == old(notes)
      ensures currentMonth == old(currentMonth) && currentYear == old(currentYear)
    {
      showForm := !showForm;
    }

    method SelectMood(mood: Mood)
      modifies this
      ensures selectedMood == Some(mood)
      ensures notes == old(notes) && showForm == old(showForm)
      ensures currentMonth == old(currentMonth) && currentYear == old(currentYear)
    {
      selectedMood := Some(mood);
    }

    method SetNotes(text: string)
      modifies this
      ensures notes == text
      ensures selectedMood == old(selectedMood) && showForm == old(showForm)
      ensures currentMonth == old(currentMonth) && currentYear == old(currentYear)
    {
      notes := text;
    }

    /** Saving without a selected mood does nothing; otherwise the entry is
        stored and the form is cleared and hidden. */
    method SaveMoodEntry(store: FeatureStore, now: Instant)
      modifies this, store
      ensures currentMonth == old(currentMonth) && currentYear == old(currentYear)
      ensures old(selectedMood).None? ==>
                selectedMood == old(selectedMood) && notes == old(notes) && showForm == old(showForm)
                && store.moodEntries == old(store.moodEntries)
      ensures old(selectedMood).Some? ==>
                store.moodEntries == old(store.moodEntries) + [MoodEntry(now, old(selectedMood).value, old(notes))]
                && selectedMood == None && notes == [] && !showForm
      ensures store.stressTestResults == old(store.stressTestResults)
      ensures store.meditationSessions == old(store.meditationSessions)
      ensures store.gamesPlayed == old(store.gamesPlayed)
      ensures store.natureSessionsCompleted == old(store.natureSessionsCompleted)
    {
      if selectedMood.Some? {
        store.AddMoodEntry(selectedMood.value, notes, now);
        selectedMood := None;
        notes := [];
        showForm := false;
      }
    }
  }

  /** A saved entry dated in the displayed month shows up at the end of that
      month's list and raises its mood's count by one. */
  lemma SavedEntryJoinsMonth(entries: seq<MoodEntry>, e: MoodEntry)
    ensures MonthEntries(entries + [e], e.date.month, e.date.year)
            == MonthEntries(entries, e.date.month, e.date.year) + [e]
    ensures CountMood(MonthEntries(entries + [e], e.date.month, e.date.year), e.mood)
            == CountMood(MonthEntries(entries, e.date.month, e.date.year), e.mood) + 1
  {
    var keep := (x: MoodEntry) => InMonth(x, e.date.month, e.date.year);
    Seqs.FilterSnoc(entries, e, keep);
    CountMoodSnoc(MonthEntries(entries, e.date.month, e.date.year), e);
  }

  lemma {:induction false} CountMoodSnoc(xs: seq<MoodEntry>, e: MoodEntry)
    ensures CountMood(xs + [e], e.mood) == CountMood(xs, e.mood) + 1
  {
    if xs != [] {
      assert (xs + [e])[1..] == xs[1..] + [e];
      CountMoodSnoc(xs[1..], e);
    } else {
      assert (xs + [e])[1..] == [];
    }
  }
}
