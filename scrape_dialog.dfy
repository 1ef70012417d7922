/**
 * The scrape dialog: a batch of store scrapes, one job per distinct app id,
 * whose results are committed to the database in one upsert pass when the
 * dialog finishes.  The parallel job runner is modelled sequentially; the
 * Stop and Cancel buttons appear as flags and as an input saying whether a
 * job saw Stopped set while its scrape ran.
 */
module ScrapeBatch {
  import opened Text
  import opened Records
  import opened StorePage
  import CoreEntry
  import GameDatabase
  import DatabaseQueries

  // ---------------------------------------------------------------------
  // The job list

  /** No id occurs twice. */
  predicate DistinctIds(s: seq<int>)
  {
    forall i, j :: 0 <= i < j < |s| ==> s[i] != s[j]
  }

  /** Enumerable.Distinct: the first occurrence of each id, in order. */
  function Distinct(s: seq<int>): (r: seq<int>)
    ensures forall x :: x in r <==> x in s
    ensures DistinctIds(r)
    ensures |r| <= |s|
  {
    if s == [] then []
    else
      var d := Distinct(s[..|s| - 1]);
      if s[|s| - 1] in d then d else d + [s[|s| - 1]]
  }

  /** The ids of a sequence, as a set. */
  function IdSet(s: seq<int>): set<int>
  {
    set x | x in s
  }

  /** A sequence without duplicates has as many elements as its set. */
  lemma {:induction false} DistinctLength(s: seq<int>)
    requires DistinctIds(s)
    ensures |IdSet(s)| == |s|
  {
    if s != [] {
      var init := s[..|s| - 1];
      DistinctLength(init);
      assert IdSet(s) == IdSet(init) + {s[|s| - 1]};
      assert s[|s| - 1] !in IdSet(init);
    }
  }

  /** The number of jobs is the number of distinct ids asked for. */
  lemma JobCountIsDistinctIds(s: seq<int>)
    ensures |Distinct(s)| == |IdSet(s)|
  {
    DistinctLength(Distinct(s));
    assert IdSet(Distinct(s)) == IdSet(s);
  }

  /** Removing duplicates again changes nothing. */
  lemma {:induction false} DistinctOfDistinct(s: seq<int>)
    requires DistinctIds(s)
    ensures Distinct(s) == s
  {
    if s != [] {
      var init := s[..|s| - 1];
      DistinctOfDistinct(init);
      assert s[|s| - 1] !in init;
      assert init + [s[|s| - 1]] == s;
    }
  }

  // ---------------------------------------------------------------------
  // Jobs and their results

  /** What one job sees: the responses to its requests, and whether Stopped was set while it scraped. */
  datatype JobInput = JobInput(chain: seq<Response>, stoppedDuringScrape: bool)

  /** The first job that saw Stopped set, or the number of jobs when none did. */
  function FirstStop(inputs: seq<JobInput>): (k: nat)
    ensures k <= |inputs|
    ensures forall j :: 0 <= j < k ==> !inputs[j].stoppedDuringScrape
    ensures k < |inputs| ==> inputs[k].stoppedDuringScrape
  {
    if inputs == [] then 0
    else if inputs[0].stoppedDuringScrape then 0
    else 1 + FirstStop(inputs[1..])
  }

  /** The entries the first k jobs contribute: a fresh entry for each id, scraped. */
  function ScrapedJobs(jobs: seq<int>, inputs: seq<JobInput>, k: nat, scan: string -> PageScan, ops: TextOps, now: int): (r: seq<Entry>)
    requires k <= |jobs| && k <= |inputs|
    ensures |r| == k
    ensures forall j :: 0 <= j < k ==> r[j].id == jobs[j]
  {
    if k == 0 then []
    else
      CoreEntry.ScrapeUntouchedOrStamped(NewEntry(jobs[k - 1]), inputs[k - 1].chain, scan, ops, now);
      ScrapedJobs(jobs, inputs, k - 1, scan, ops, now)
        + [CoreEntry.Scraped(NewEntry(jobs[k - 1]), inputs[k - 1].chain, scan, ops, now)]
  }

  /** The ids of the results, in order. */
  function ResultIds(results: seq<Entry>): (r: seq<int>)
    ensures |r| == |results| && forall j :: 0 <= j < |r| ==> r[j] == results[j].id
  {
    if results == [] then [] else ResultIds(results[..|results| - 1]) + [results[|results| - 1].id]
  }

  /** The results of one run over distinct jobs name every app at most once. */
  lemma ScrapedJobsDistinct(jobs: seq<int>, inputs: seq<JobInput>, k: nat, scan: string -> PageScan, ops: TextOps, now: int)
    requires k <= |jobs| && k <= |inputs| && DistinctIds(jobs)
    ensures DistinctIds(ResultIds(ScrapedJobs(jobs, inputs, k, scan, ops, now)))
  {
  }

  // ---------------------------------------------------------------------
  // The commit

  /** One result committed: merged into the entry with its id, or inserted when there is none. */
  function Upsert(games: map<int, Entry>, e: Entry): (r: map<int, Entry>)
    ensures r.Keys == games.Keys + {e.id}
    ensures r[e.id] == if e.id in games then CoreEntry.Merge(games[e.id], e) else e
    ensures forall id :: id in games && id != e.id ==> r[id] == games[id]
  {
    if DatabaseQueries.Contains(games, e.id) then games[e.id := CoreEntry.Merge(games[e.id], e)] else games[e.id := e]
  }

  /** The games after Finish commits the results in order. */
  function Commit(games: map<int, Entry>, results: seq<Entry>): map<int, Entry>
  {
    if results == [] then games else Upsert(Commit(games, results[..|results| - 1]), results[|results| - 1])
  }

  /** The commit adds exactly the ids of the results that were missing. */
  lemma {:induction false} CommitKeys(games: map<int, Entry>, results: seq<Entry>)
    ensures Commit(games, results).Keys == games.Keys + IdSet(ResultIds(results))
  {
    if results != [] {
      var init := results[..|results| - 1];
      CommitKeys(games, init);
      assert IdSet(ResultIds(results)) == IdSet(ResultIds(init)) + {results[|results| - 1].id} by {
        assert ResultIds(results) == ResultIds(init) + [results[|results| - 1].id];
      }
    }
  }

  /** An entry whose id no result carries is left exactly as it was. */
  lemma {:induction false} CommitKeepsOthers(games: map<int, Entry>, results: seq<Entry>, id: int)
    requires id in games && id !in IdSet(ResultIds(results))
    ensures id in Commit(games, results) && Commit(games, results)[id] == games[id]
  {
    if results != [] {
      var init := results[..|results| - 1];
      assert ResultIds(results) == ResultIds(init) + [results[|results| - 1].id];
      CommitKeepsOthers(games, init, id);
    }
  }

  /**
   * When the results name every app at most once, each result is merged
   * into the database's entry for its id, or inserted as it is.
   */
  lemma {:induction false} CommitUpsertsEach(games: map<int, Entry>, results: seq<Entry>, k: nat)
    requires k < |results| && DistinctIds(ResultIds(results))
    ensures var e := results[k];
      e.id in Commit(games, results)
      && Commit(games, results)[e.id] == if e.id in games then CoreEntry.Merge(games[e.id], e) else e
  {
    var init := results[..|results| - 1];
    var last := results[|results| - 1];
    assert ResultIds(results) == ResultIds(init) + [last.id];
    if k < |results| - 1 {
      assert ResultIds(init)[k] == results[k].id;
      CommitUpsertsEach(games, init, k);
      assert results[k].id != last.id;
    } else {
      assert last.id !in IdSet(ResultIds(init)) by {
        forall j | 0 <= j < |init|
          ensures ResultIds(init)[j] != last.id
        {
          assert ResultIds(results)[j] == ResultIds(init)[j];
        }
      }
      if last.id in games {
        CommitKeepsOthers(games, init, last.id);
      } else {
        CommitKeys(games, init);
      }
    }
  }

  // ---------------------------------------------------------------------
  // The dialog

  class ScrapeDialog {
    /** `_jobs`: the distinct ids to scrape. */
    var jobs: seq<int>
    /** `_results`: the scraped entries, in completion order. */
    var results: seq<Entry>
    var completedJobs: int
    var totalJobs: int
    var stopped: bool
    var canceled: bool

    /** The ids asked for are de-duplicated, keeping their first occurrences; TotalJobs counts them. */
    constructor (jobIds: seq<int>)
      ensures jobs == Distinct(jobIds) && totalJobs == |Distinct(jobIds)|
      ensures results == [] && completedJobs == 0 && !stopped && !canceled
    {
      jobs := Distinct(jobIds);
      totalJobs := |Distinct(jobIds)|;
      results := [];
      completedJobs := 0;
      stopped, canceled := false, false;
    }

    /** The Stop button, or closing the dialog. */
    method Stop()
      modifies this
      ensures stopped && canceled == old(canceled)
      ensures jobs == old(jobs) && results == old(results) && completedJobs == old(completedJobs) && totalJobs == old(totalJobs)
    {
      stopped := true;
    }

    /** The Cancel button: stops and cancels. */
    method Cancel()
      modifies this
      ensures stopped && canceled
      ensures jobs == old(jobs) && results == old(results) && completedJobs == old(completedJobs) && totalJobs == old(totalJobs)
    {
      stopped, canceled := true, true;
    }

    /**
     * RunJob: nothing when Stopped; otherwise a fresh entry for the id is
     * scraped, and is discarded when Stopped was set meanwhile, or appended
     * to the results with one more completed job.
     */
    method RunJob(appId: int, input: JobInput, scan: string -> PageScan, ops: TextOps, now: int)
      modifies this
      ensures old(stopped) ==> stopped && results == old(results) && completedJobs == old(completedJobs)
      ensures !old(stopped) && input.stoppedDuringScrape ==>
        stopped && results == old(results) && completedJobs == old(completedJobs)
      ensures !old(stopped) && !input.stoppedDuringScrape ==>
        !stopped && completedJobs == old(completedJobs) + 1
        && results == old(results) + [CoreEntry.Scraped(NewEntry(appId), input.chain, scan, ops, now)]
      ensures jobs == old(jobs) && totalJobs == old(totalJobs) && canceled == old(canceled)
    {
      if stopped {
        return;
      }
      var entry := new CoreEntry.DatabaseEntry(appId);
      entry.ScrapeStore(input.chain, scan, ops, now);
      if input.stoppedDuringScrape {
        stopped := true;
      }
      if stopped {
        return;
      }
      results := results + [entry.data];
      completedJobs := completedJobs + 1;
    }

    /**
     * Start: every job run in turn.  The jobs before the first one that saw
     * Stopped set deliver their results; no later job does.
     */
    method Start(inputs: seq<JobInput>, scan: string -> PageScan, ops: TextOps, now: int)
      requires |inputs| == |jobs|
      modifies this
      ensures jobs == old(jobs) && totalJobs == old(totalJobs) && canceled == old(canceled)
      ensures old(stopped) ==> results == old(results) && completedJobs == old(completedJobs)
      ensures !old(stopped) ==>
        results == old(results) + ScrapedJobs(jobs, inputs, FirstStop(inputs), scan, ops, now)
        && completedJobs == old(completedJobs) + FirstStop(inputs)
    {
      var k := FirstStop(inputs);
      for i := 0 to |jobs|
        invariant jobs == old(jobs) && totalJobs == old(totalJobs) && canceled == old(canceled)
        invariant old(stopped) ==> stopped && results == old(results) && completedJobs == old(completedJobs)
        invariant !old(stopped) && i <= k ==>
          stopped == (i > 0 && i - 1 == k)
          && results == old(results) + ScrapedJobs(jobs, inputs, i, scan, ops, now)
          && completedJobs == old(completedJobs) + i
        invariant !old(stopped) && i > k ==>
          stopped && results == old(results) + ScrapedJobs(jobs, inputs, k, scan, ops, now)
          && completedJobs == old(completedJobs) + k
      {
        RunJob(jobs[i], inputs[i], scan, ops, now);
      }
    }

    /**
     * Finish: nothing when Canceled; otherwise every result is merged into,
     * or inserted into, the database's games, in order.
     */
    method Finish(db: GameDatabase.Database)
      modifies db
      ensures canceled ==> db.games == old(db.games)
      ensures !canceled ==> db.games == Commit(old(db.games), results)
      ensures db.allDevelopers == old(db.allDevelopers) && db.allGenres == old(db.allGenres)
      ensures db.allFlags == old(db.allFlags) && db.allPublishers == old(db.allPublishers)
      ensures db.allLanguages == old(db.allLanguages) && db.allVrSupportFlags == old(db.allVrSupportFlags)
    {
      if canceled {
        return;
      }
      var games := db.games;
      for i := 0 to |results|
        invariant games == Commit(db.games, results[..i])
      {
        assert results[..i + 1][..i] == results[..i];
        var entry := results[i];
        if DatabaseQueries.Contains(games, entry.id) {
          games := games[entry.id := CoreEntry.Merge(games[entry.id], entry)];
        } else {
          games := games[entry.id := entry];
        }
      }
      assert results[..|results|] == results;
      db.games := games;
    }
  }
}
