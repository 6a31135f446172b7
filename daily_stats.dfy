/**
 * Per-day, per-model usage counters (`DailyStatsManager`): a table from date
 * strings (`YYYY-MM-DD`, Beijing time) to model names to four counters,
 * updated in place on every request and pruned by string comparison with a
 * cutoff date.
 *
 * The current date and the date `i` days before it are parameters; loading
 * and saving the table on disk are outside the model.
 */
module DailyStats {
  import opened Strings

  datatype Counters = Counters(requests: int, promptTokens: int, completionTokens: int, totalTokens: int)

  const Zero: Counters := Counters(0, 0, 0, 0)

  /** The counters after one more request with the given token counts. */
  function Bump(c: Counters, promptTokens: int, completionTokens: int): (r: Counters)
    ensures r.requests == c.requests + 1
    ensures r.promptTokens == c.promptTokens + promptTokens
    ensures r.completionTokens == c.completionTokens + completionTokens
    ensures r.totalTokens == c.totalTokens + promptTokens + completionTokens
  {
    Counters(c.requests + 1, c.promptTokens + promptTokens, c.completionTokens + completionTokens,
             c.totalTokens + (promptTokens + completionTokens))
  }

  /** The table without the dates that sort below `cutoff`. */
  function Pruned(stats: map<string, map<string, Counters>>, cutoff: string): (r: map<string, map<string, Counters>>)
    ensures forall d :: d in r <==> d in stats && !LexLess(d, cutoff)
    ensures forall d :: d in r ==> r[d] == stats[d]
  {
    map d | d in stats && !LexLess(d, cutoff) :: stats[d]
  }

  /** The stored dates that sort below `cutoff`. */
  function Expired(stats: map<string, map<string, Counters>>, cutoff: string): (r: set<string>)
    ensures forall d :: d in r <==> d in stats && LexLess(d, cutoff)
  {
    set d | d in stats && LexLess(d, cutoff)
  }

  /** `d` is the date of one of the `n` most recent days, today included. */
  ghost predicate Recent(d: string, n: int, dateOf: int -> string) {
    exists i :: 0 <= i < n && dateOf(i) == d
  }

  class DailyStatsManager {
    var stats: map<string, map<string, Counters>>

    /** An empty table. */
    constructor()
      ensures stats == map[]
    {
      stats := map[];
    }

    /** `get_date_stats`: the models' counters for `date`, or an empty table. */
    function GetDateStats(date: string): (r: map<string, Counters>)
      reads this
      ensures date in stats ==> r == stats[date]
      ensures date !in stats ==> r == map[]
    {
      if date in stats then stats[date] else map[]
    }

    /** `get_today_stats`, with today's date given. */
    function GetTodayStats(today: string): (r: map<string, Counters>)
      reads this
      ensures r == GetDateStats(today)
    {
      GetDateStats(today)
    }

    /** The counters of `model` on `date`, zero when either is missing. */
    function CountersOf(date: string, model: string): Counters
      reads this
    {
      var day := GetDateStats(date);
      if model in day then day[model] else Zero
    }

    /**
     * `record_request`: create the date and model entries at zero when missing,
     * then count one request and its tokens. No other entry changes.
     */
    method RecordRequest(model: string, date: string, promptTokens: int, completionTokens: int)
      modifies this
      ensures stats.Keys == old(stats).Keys + {date}
      ensures stats[date].Keys == old(GetDateStats(date)).Keys + {model}
      ensures stats[date][model] == Bump(old(CountersOf(date, model)), promptTokens, completionTokens)
      ensures forall m :: m in stats[date] && m != model ==> stats[date][m] == old(GetDateStats(date))[m]
      ensures forall d :: d in old(stats) && d != date ==> stats[d] == old(stats)[d]
    {
      if date !in stats {
        stats := stats[date := map[]];
      }
      if model !in stats[date] {
        stats := stats[date := stats[date][model := Zero]];
      }
      var c := stats[date][model];
      c := c.(requests := c.requests + 1);
      c := c.(promptTokens := c.promptTokens + promptTokens);
      c := c.(completionTokens := c.completionTokens + completionTokens);
      c := c.(totalTokens := c.totalTokens + (promptTokens + completionTokens));
      stats := stats[date := stats[date][model := c]];
    }

    /**
     * `get_recent_days`: the stored entries of the dates `dateOf(0)` (today)
     * to `dateOf(days - 1)` that are present. A non-positive count gives nothing.
     */
    method GetRecentDays(days: int, dateOf: int -> string) returns (result: map<string, map<string, Counters>>)
      ensures forall d :: d in result <==> d in stats && Recent(d, days, dateOf)
      ensures forall d :: d in result ==> result[d] == stats[d]
    {
      result := map[];
      var i := 0;
      while i < days
        invariant 0 <= i && (i <= days || i == 0)
        invariant forall d :: d in result <==> d in stats && Recent(d, i, dateOf)
        invariant forall d :: d in result ==> result[d] == stats[d]
      {
        var date := dateOf(i);
        if date in stats {
          result := result[date := stats[date]];
        }
        forall d | Recent(d, i + 1, dateOf) && d != date
          ensures Recent(d, i, dateOf)
        {
          var j :| 0 <= j < i + 1 && dateOf(j) == d;
          assert j < i;
        }
        i := i + 1;
      }
      forall d ensures Recent(d, i, dateOf) == Recent(d, days, dateOf) {
        if days <= 0 {
          assert !Recent(d, days, dateOf) && !Recent(d, 0, dateOf);
        }
      }
    }

    /** `cleanup_old_data`, with the cutoff date given: drop every date that sorts below it. */
    method CleanupOldData(cutoff: string) returns (removed: nat)
      modifies this
      ensures stats == Pruned(old(stats), cutoff)
      ensures removed == |Expired(old(stats), cutoff)|
    {
      var toRemove := Expired(stats, cutoff);
      removed := |toRemove|;
      var pending := toRemove;
      while pending != {}
        invariant pending <= toRemove
        invariant stats == map d | d in old(stats) && d !in toRemove - pending :: old(stats)[d]
        decreases |pending|
      {
        var date :| date in pending;
        stats := map d | d in stats && d != date :: stats[d];
        pending := pending - {date};
      }
      assert stats == Pruned(old(stats), cutoff);
    }
  }

  /** Pruning twice with the same cutoff is pruning once. */
  lemma PrunedIdempotent(stats: map<string, map<string, Counters>>, cutoff: string)
    ensures Pruned(Pruned(stats, cutoff), cutoff) == Pruned(stats, cutoff)
  {
  }

  /** A later cutoff prunes at least as much: pruning with the earlier one first changes nothing. */
  lemma PrunedMonotone(stats: map<string, map<string, Counters>>, early: string, late: string)
    requires LexLess(early, late)
    ensures Pruned(Pruned(stats, early), late) == Pruned(stats, late)
  {
    forall d | d in stats && !LexLess(d, late)
      ensures !LexLess(d, early)
    {
      if LexLess(d, early) {
        LexLessTransitive(d, early, late);
      }
    }
  }

  /** The kept dates are closed upwards: a date above a kept date is kept too. */
  lemma KeptUpwardClosed(stats: map<string, map<string, Counters>>, cutoff: string, d: string, e: string)
    requires d in Pruned(stats, cutoff) && e in stats && LexLess(d, e)
    ensures e in Pruned(stats, cutoff)
  {
    if LexLess(e, cutoff) {
      LexLessTransitive(d, e, cutoff);
    }
  }

  /** The cutoff date itself, when stored, survives pruning. */
  lemma CutoffKept(stats: map<string, map<string, Counters>>, cutoff: string)
    requires cutoff in stats
    ensures cutoff in Pruned(stats, cutoff)
  {
    LexLessIrreflexive(cutoff);
  }
}
