// Resuming the Gemini PDF parse (`packages/ingestion/scripts/resume_gemini.py`):
// one PDF's run with its bounded retries and capped exponential backoff, and
// the gathering of the PDFs to run. Each subprocess run is abstract: `results`
// gives what the run of each attempt returns.

module ResumeGemini {
  import opened Base
  import opened Strings
  import Sorting

  /** Substrings of the lowercased stderr that signal a rate limit or quota. */
  const RateSignals: seq<string> := ["quota", "rate limit", "rate-limit", "429", "too many requests"]

  /** The longest wait between attempts, in seconds. */
  const MaxBackoff: real := 300.0

  /** What one run of the parser subprocess returned. */
  datatype Proc = Proc(returncode: int, stderr: Option<string>)

  /** The failure was a rate limit or quota: some signal occurs in the lowercased stderr. */
  predicate RateLimited(p: Proc)
  {
    var err := Lower(GetOr(p.stderr, ""));
    exists k :: 0 <= k < |RateSignals| && Contains(err, RateSignals[k])
  }

  function Pow2(n: nat): (r: nat)
    ensures r >= 1
  {
    if n == 0 then 1 else 2 * Pow2(n - 1)
  }

  /** `min(300, base_delay * 2 ** (attempt - 1))` */
  function Backoff(baseDelay: real, attempt: nat): real
    requires attempt >= 1
  {
    var x := baseDelay * Pow2(attempt - 1) as real;
    if x < MaxBackoff then x else MaxBackoff
  }

  /** The wait never exceeds 300 seconds and, for a non-negative base, never shrinks from one attempt to the next. */
  lemma BackoffBounds(baseDelay: real, attempt: nat)
    requires attempt >= 1
    ensures Backoff(baseDelay, attempt) <= MaxBackoff
    ensures baseDelay >= 0.0 ==> 0.0 <= Backoff(baseDelay, attempt) <= Backoff(baseDelay, attempt + 1)
  {
    var p := Pow2(attempt - 1) as real;
    assert Pow2(attempt) as real == 2.0 * p;
    if baseDelay >= 0.0 {
      assert baseDelay * p <= baseDelay * (2.0 * p);
    }
  }

  /** The runs of one PDF: whether it succeeded, how many subprocess runs it took, and the waits between them. */
  datatype Run = Run(ok: bool, runs: nat, waits: seq<real>)

  /** The attempts from `attempt` to `maxRetries`: stop on success or on a failure that is not a rate limit. */
  function Retry(attempt: nat, maxRetries: int, baseDelay: real, results: nat -> Proc): Run
    requires attempt >= 1
    decreases maxRetries - attempt
  {
    if attempt > maxRetries then Run(false, 0, [])
    else
      var proc := results(attempt);
      if proc.returncode == 0 then Run(true, 1, [])
      else if RateLimited(proc) then
        var rest := Retry(attempt + 1, maxRetries, baseDelay, results);
        Run(rest.ok, rest.runs + 1, [Backoff(baseDelay, attempt)] + rest.waits)
      else Run(false, 1, [])
  }

  /** `run_single`, as a value: skip when an output exists, otherwise the attempts from 1. */
  function RunSpec(name: string, outputExists: string -> bool, maxRetries: int, baseDelay: real, results: nat -> Proc): Run
  {
    var outJson := Stem(name) + ".json";
    if outputExists(outJson) || outputExists(outJson + ".gz") then Run(true, 0, [])
    else Retry(1, maxRetries, baseDelay, results)
  }

  /** Runs and waits done so far, followed by the rest. */
  function Then(runs: nat, waits: seq<real>, rest: Run): Run
  {
    Run(rest.ok, runs + rest.runs, waits + rest.waits)
  }

  /** `run_single`: the attempt loop. */
  method RunSingle(name: string, outputExists: string -> bool, maxRetries: int, baseDelay: real, results: nat -> Proc)
    returns (ok: bool, runs: nat, waits: seq<real>)
    ensures Run(ok, runs, waits) == RunSpec(name, outputExists, maxRetries, baseDelay, results)
  {
    var base := Stem(name);
    var outJson := base + ".json";
    if outputExists(outJson) || outputExists(outJson + ".gz") {
      return true, 0, [];
    }
    runs, waits := 0, [];
    var attempt := 1;
    while attempt <= maxRetries
      invariant 1 <= attempt
      invariant Retry(1, maxRetries, baseDelay, results) == Then(runs, waits, Retry(attempt, maxRetries, baseDelay, results))
      decreases maxRetries - attempt
    {
      var proc := results(attempt);
      runs := runs + 1;
      if proc.returncode == 0 {
        return true, runs, waits;
      }
      if RateLimited(proc) {
        var backoff := Backoff(baseDelay, attempt);
        var rest := Retry(attempt + 1, maxRetries, baseDelay, results);
        AppendAssoc(waits, [backoff], rest.waits);
        waits := waits + [backoff];
        attempt := attempt + 1;
        continue;
      }
      return false, runs, waits;
    }
    assert waits + [] == waits;
    return false, runs, waits;
  }

  /**
   * The attempts from `attempt` on: at most the remaining number of runs,
   * success exactly when the last run returned 0, and a failure before the
   * last allowed attempt was not a rate limit.
   */
  lemma {:induction false} RetryRuns(attempt: nat, maxRetries: int, baseDelay: real, results: nat -> Proc)
    requires attempt >= 1
    ensures var r := Retry(attempt, maxRetries, baseDelay, results);
      r.runs <= Max(maxRetries - attempt + 1, 0) &&
      (r.ok <==> r.runs >= 1 && results(attempt + r.runs - 1).returncode == 0) &&
      (!r.ok && r.runs >= 1 && attempt + r.runs - 1 < maxRetries ==> !RateLimited(results(attempt + r.runs - 1)))
    decreases maxRetries - attempt
  {
    if attempt <= maxRetries {
      var proc := results(attempt);
      if proc.returncode != 0 && RateLimited(proc) {
        RetryRuns(attempt + 1, maxRetries, baseDelay, results);
        var rest := Retry(attempt + 1, maxRetries, baseDelay, results);
        assert attempt + (rest.runs + 1) - 1 == (attempt + 1) + rest.runs - 1;
      }
    }
  }

  /** Every run before the last one failed on a rate limit: that is the only failure that is retried. */
  lemma {:induction false} RetryOnlyRateLimits(attempt: nat, maxRetries: int, baseDelay: real, results: nat -> Proc)
    requires attempt >= 1
    ensures var r := Retry(attempt, maxRetries, baseDelay, results);
      forall j :: attempt <= j < attempt + r.runs - 1 ==> results(j).returncode != 0 && RateLimited(results(j))
    decreases maxRetries - attempt
  {
    if attempt <= maxRetries {
      var proc := results(attempt);
      if proc.returncode != 0 && RateLimited(proc) {
        RetryOnlyRateLimits(attempt + 1, maxRetries, baseDelay, results);
      }
    }
  }

  /** A success follows the last wait; a failure may follow it, or be the reason for it. */
  lemma {:induction false} RetryWaitCount(attempt: nat, maxRetries: int, baseDelay: real, results: nat -> Proc)
    requires attempt >= 1
    ensures var r := Retry(attempt, maxRetries, baseDelay, results);
      |r.waits| <= r.runs && (r.ok ==> |r.waits| == r.runs - 1)
    decreases maxRetries - attempt
  {
    if attempt <= maxRetries {
      var proc := results(attempt);
      if proc.returncode != 0 && RateLimited(proc) {
        RetryWaitCount(attempt + 1, maxRetries, baseDelay, results);
      }
    }
  }

  /** After each rate-limited run comes the wait `Backoff` of its attempt. */
  lemma {:induction false} RetryWaits(attempt: nat, maxRetries: int, baseDelay: real, results: nat -> Proc)
    requires attempt >= 1
    ensures forall k :: 0 <= k < |Retry(attempt, maxRetries, baseDelay, results).waits| ==>
      Retry(attempt, maxRetries, baseDelay, results).waits[k] == Backoff(baseDelay, attempt + k)
    decreases maxRetries - attempt
  {
    if attempt <= maxRetries {
      var proc := results(attempt);
      if proc.returncode != 0 && RateLimited(proc) {
        RetryWaits(attempt + 1, maxRetries, baseDelay, results);
        var rest := Retry(attempt + 1, maxRetries, baseDelay, results);
        var waits := [Backoff(baseDelay, attempt)] + rest.waits;
        assert Retry(attempt, maxRetries, baseDelay, results).waits == waits;
        forall k | 0 < k < |waits|
          ensures waits[k] == Backoff(baseDelay, attempt + k)
        {
          assert waits[k] == rest.waits[k - 1];
          assert rest.waits[k - 1] == Backoff(baseDelay, (attempt + 1) + (k - 1));
        }
      }
    }
  }

  /**
   * `run_single` as a whole: an existing output means success with no run;
   * otherwise at most `max_retries` runs, none when it is 0 or less.
   */
  lemma RunSingleSpec(name: string, outputExists: string -> bool, maxRetries: int, baseDelay: real, results: nat -> Proc)
    ensures var outJson := Stem(name) + ".json";
      outputExists(outJson) || outputExists(outJson + ".gz") ==>
        RunSpec(name, outputExists, maxRetries, baseDelay, results) == Run(true, 0, [])
    ensures RunSpec(name, outputExists, maxRetries, baseDelay, results).runs <= Max(maxRetries, 0)
    ensures var outJson := Stem(name) + ".json";
      maxRetries <= 0 && !outputExists(outJson) && !outputExists(outJson + ".gz") ==>
        RunSpec(name, outputExists, maxRetries, baseDelay, results) == Run(false, 0, [])
  {
    RetryRuns(1, maxRetries, baseDelay, results);
  }

  // --------------------------------------------------------------- gathering

  /** What `--labels-dir` names: a file, a directory with the paths found under it, or nothing. */
  datatype Source = AFile(path: string) | ADirectory(tree: seq<string>) | Nothing

  /** `gather_pdfs`: a PDF file alone, else the sorted `.pdf` paths found under the directory. */
  function GatherPdfs(src: Source): seq<string>
  {
    match src
    case AFile(path) => if Lower(Suffix(path)) == ".pdf" then [path] else []
    case ADirectory(tree) => Sorting.Glob(tree, ".pdf")
    case Nothing => []
  }

  /** A PDF file is its own list; a directory gives exactly its `.pdf` paths, sorted. */
  lemma GatherPdfsSpec(src: Source)
    ensures Sorting.Sorted(GatherPdfs(src))
    ensures src.AFile? && Lower(Suffix(src.path)) == ".pdf" ==> GatherPdfs(src) == [src.path]
    ensures src.ADirectory? ==> forall p :: p in GatherPdfs(src) <==> p in src.tree && EndsWith(p, ".pdf")
  {
    if src.ADirectory? {
      Sorting.GlobSpec(src.tree, ".pdf");
    }
  }
}
