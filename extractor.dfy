// The Gemini extraction pass (`packages/ingestion/src/ingestion/extractor.py`):
// truncation of long markdown, the skip rule for short files, the four
// status buckets of a directory run and its summary. The model call itself
// is a parameter: a function from the (truncated) markdown to its reply.

module Extractor {
  import opened Base
  import opened Strings

  /** Longer markdown is cut to this many characters before the call. */
  const MaxChars := 15000
  const TruncationMarker := "\n\n[... content truncated ...]"
  /** Files whose stripped text is shorter than this are skipped. */
  const MinChars := 100
  const TooShort := "content too short"
  /** The message of `APITimeoutError` with the default 90-second limit. */
  const TimeoutMessage := "API call timed out after 90 seconds"

  // ------------------------------------------------------------- one call

  /** `extract_from_markdown`'s cut: the first 15000 characters and a marker, when longer. */
  function Truncate(content: string): string
  {
    if |content| > MaxChars then content[..MaxChars] + TruncationMarker else content
  }

  /**
   * What is sent keeps the first 15000 characters; short content goes
   * unchanged, long content is exactly those characters and the marker.
   */
  lemma TruncateSpec(content: string)
    ensures StartsWith(Truncate(content), content[..Min(|content|, MaxChars)])
    ensures |content| <= MaxChars ==> Truncate(content) == content
    ensures |content| > MaxChars ==> |Truncate(content)| == MaxChars + |TruncationMarker|
    ensures |content| > MaxChars ==> EndsWith(Truncate(content), TruncationMarker)
    ensures |Truncate(content)| <= MaxChars + |TruncationMarker|
  {
    var r := Truncate(content);
    if |content| > MaxChars {
      assert r[..MaxChars] == content[..MaxChars];
      assert r[|r| - |TruncationMarker|..] == TruncationMarker;
    }
  }

  /** Truncating twice is truncating once: the marker is cut off and put back. */
  lemma TruncateIdempotent(content: string)
    ensures Truncate(Truncate(content)) == Truncate(content)
  {
    if |content| > MaxChars {
      var r := Truncate(content);
      assert r[..MaxChars] == content[..MaxChars];
    }
  }

  /** The lengths of the lists in the model's reply; `None` when a key is absent. */
  datatype Label = Label(crops: Option<nat>, weeds: Option<nat>, entries: Option<nat>)

  /** How the call went: a parsed reply, the timeout, or any other exception. */
  datatype Reply = Replied(data: Label) | TimedOut | Raised(message: string)

  /** The result dictionary of `process_single_file`. */
  datatype Outcome =
    | Success(file: string, crops: nat, weeds: nat, entries: nat)
    | Skipped(file: string, reason: string)
    | Timeout(file: string, error: string)
    | Error(file: string, error: string)

  /**
   * `process_single_file`: skip short content, otherwise call the model on the
   * truncated markdown and save its reply; `saveError` is the exception, if any,
   * that creating the directory or writing the JSON raises.
   */
  function ProcessSingleFile(name: string, content: string, api: string -> Reply, saveError: Option<string>): (r: Outcome)
    ensures r.file == name
    ensures r.Skipped? <==> |Strip(content)| < MinChars
    ensures r.Timeout? <==> |Strip(content)| >= MinChars && api(Truncate(content)).TimedOut?
    ensures r.Success? <==> |Strip(content)| >= MinChars && api(Truncate(content)).Replied? && saveError == None
  {
    if |Strip(content)| < MinChars then Skipped(name, TooShort)
    else
      match api(Truncate(content))
      case TimedOut => Timeout(name, TimeoutMessage)
      case Raised(message) => Error(name, message)
      case Replied(data) =>
        if saveError.Some? then Error(name, saveError.value)
        else Success(name, GetOr(data.crops, 0), GetOr(data.weeds, 0), GetOr(data.entries, 0))
  }

  /** A short file is skipped whatever the model would have answered: the model is not called. */
  lemma ShortSkipsCall(name: string, content: string, api1: string -> Reply, api2: string -> Reply,
                       save1: Option<string>, save2: Option<string>)
    requires |Strip(content)| < MinChars
    ensures ProcessSingleFile(name, content, api1, save1) == ProcessSingleFile(name, content, api2, save2)
    ensures ProcessSingleFile(name, content, api1, save1) == Skipped(name, TooShort)
  {
  }

  // ------------------------------------------------------------ directory

  /** A markdown file of the input directory. */
  datatype MdFile = MdFile(name: string, content: string)

  /** Metadata and scratch files are not inputs. */
  predicate Considered(f: MdFile)
  {
    !StartsWith(f.name, "_") && !Contains(f.name, "cleaned") && !Contains(f.name, "test")
  }

  /** The files a run considers: the globbed files that are inputs, then the limit. */
  function SelectFiles(globbed: seq<MdFile>, limit: Option<int>): seq<MdFile>
  {
    ApplyLimit(Filter(globbed, Considered), limit)
  }

  /** Every file a run considers is an input file of the glob, and a positive limit bounds their number. */
  lemma SelectFilesSpec(globbed: seq<MdFile>, limit: Option<int>)
    ensures forall f :: f in SelectFiles(globbed, limit) ==> f in globbed && Considered(f)
    ensures limit.Some? && limit.value > 0 ==> |SelectFiles(globbed, limit)| <= limit.value
    ensures limit == None ==> SelectFiles(globbed, limit) == Filter(globbed, Considered)
  {
    var kept := Filter(globbed, Considered);
    FilterSpec(globbed, Considered);
    var r := SelectFiles(globbed, limit);
    forall f | f in r ensures f in kept {
      var k :| 0 <= k < |r| && r[k] == f;
      assert kept[k] == f;
    }
  }

  /** `output_dir / f"{md_path.stem}.json"`, by name. */
  function OutputName(f: MdFile): string
  {
    Stem(f.name) + ".json"
  }

  /** What the loop does with one file: skip it as done, or process it. */
  datatype Handled = AlreadyDone(name: string) | Ran(outcome: Outcome)

  /** One pass of the loop; `outputExists` and `saveError` are keyed by the output's name. */
  function Handle(f: MdFile, outputExists: string -> bool, api: string -> Reply, saveError: string -> Option<string>): Handled
  {
    if outputExists(OutputName(f)) then AlreadyDone(f.name)
    else Ran(ProcessSingleFile(f.name, f.content, api, saveError(OutputName(f))))
  }

  /** A file whose output outputExists is skipped without calling the model or writing anything. */
  lemma ExistingNotProcessed(f: MdFile, outputExists: string -> bool, api1: string -> Reply, api2: string -> Reply,
                             save1: string -> Option<string>, save2: string -> Option<string>)
    requires outputExists(OutputName(f))
    ensures Handle(f, outputExists, api1, save1) == Handle(f, outputExists, api2, save2) == AlreadyDone(f.name)
  {
  }

  predicate IsSuccess(h: Handled) { h.Ran? && h.outcome.Success? }
  predicate IsSkip(h: Handled) { h.AlreadyDone? || h.outcome.Skipped? }
  predicate IsTimeout(h: Handled) { h.Ran? && h.outcome.Timeout? }
  predicate IsError(h: Handled) { h.Ran? && h.outcome.Error? }

  /** The name an entry of a bucket carries. */
  function FileOf(h: Handled): string
  {
    if h.AlreadyDone? then h.name else h.outcome.file
  }

  /** The summary a directory run writes and returns, without its timestamp and model name. */
  datatype Summary = Summary(
    totalFiles: nat, succeeded: nat, errors: nat, timeouts: nat, skipped: nat,
    errorDetails: seq<Handled>, timeoutFiles: seq<string>)

  function HandleAll(files: seq<MdFile>, outputExists: string -> bool, api: string -> Reply, saveError: string -> Option<string>): seq<Handled>
  {
    Map(files, (f: MdFile) => Handle(f, outputExists, api, saveError))
  }

  /** The summary of a run over `files`, each bucket the handled files of its status, in order. */
  function SummaryOf(files: seq<MdFile>, hs: seq<Handled>): Summary
  {
    Summary(|files|, |Filter(hs, IsSuccess)|, |Filter(hs, IsError)|, |Filter(hs, IsTimeout)|,
      |Filter(hs, IsSkip)|, Filter(hs, IsError), Map(Filter(hs, IsTimeout), FileOf))
  }

  function DirectorySummary(globbed: seq<MdFile>, limit: Option<int>, outputExists: string -> bool,
                            api: string -> Reply, saveError: string -> Option<string>): Summary
  {
    var files := SelectFiles(globbed, limit);
    SummaryOf(files, HandleAll(files, outputExists, api, saveError))
  }

  lemma FilterNext<T>(xs: seq<T>, i: nat, keep: T -> bool)
    requires i < |xs|
    ensures Filter(xs[..i + 1], keep) == Filter(xs[..i], keep) + if keep(xs[i]) then [xs[i]] else []
  {
    assert xs[..i + 1][..i] == xs[..i];
  }

  /** The loop of `process_directory`: each file skipped as done or processed, and put in its bucket. */
  method SortFiles(mdFiles: seq<MdFile>, outputExists: string -> bool, api: string -> Reply, saveError: string -> Option<string>)
    returns (success: seq<Handled>, error: seq<Handled>, skipped: seq<Handled>, timeout: seq<Handled>)
    ensures var hs := HandleAll(mdFiles, outputExists, api, saveError);
      success == Filter(hs, IsSuccess) && error == Filter(hs, IsError) &&
      skipped == Filter(hs, IsSkip) && timeout == Filter(hs, IsTimeout)
  {
    var hs := HandleAll(mdFiles, outputExists, api, saveError);
    success, error, skipped, timeout := [], [], [], [];
    for i := 0 to |mdFiles|
      invariant success == Filter(hs[..i], IsSuccess)
      invariant error == Filter(hs[..i], IsError)
      invariant skipped == Filter(hs[..i], IsSkip)
      invariant timeout == Filter(hs[..i], IsTimeout)
    {
      FilterNext(hs, i, IsSuccess);
      FilterNext(hs, i, IsError);
      FilterNext(hs, i, IsSkip);
      FilterNext(hs, i, IsTimeout);
      var mdPath := mdFiles[i];
      assert hs[i] == Handle(mdPath, outputExists, api, saveError);
      var outputPath := OutputName(mdPath);
      if outputExists(outputPath) {
        skipped := skipped + [AlreadyDone(mdPath.name)];
        continue;
      }
      var result := ProcessSingleFile(mdPath.name, mdPath.content, api, saveError(outputPath));
      if result.Success? {
        success := success + [Ran(result)];
      } else if result.Skipped? {
        skipped := skipped + [Ran(result)];
      } else if result.Timeout? {
        timeout := timeout + [Ran(result)];
      } else {
        error := error + [Ran(result)];
      }
    }
    assert hs[..|mdFiles|] == hs;
  }

  /** `[r['file'] for r in results['timeout']]` */
  method FileNames(entries: seq<Handled>) returns (names: seq<string>)
    ensures names == Map(entries, FileOf)
  {
    names := [];
    for j := 0 to |entries|
      invariant names == Map(entries[..j], FileOf)
    {
      assert entries[..j + 1][..j] == entries[..j];
      names := names + [FileOf(entries[j])];
    }
    assert entries[..|entries|] == entries;
  }

  /** `process_directory`: select the files, sort each into its bucket, and summarise. */
  method ProcessDirectory(globbed: seq<MdFile>, limit: Option<int>, outputExists: string -> bool,
                          api: string -> Reply, saveError: string -> Option<string>) returns (summary: Summary)
    ensures summary == DirectorySummary(globbed, limit, outputExists, api, saveError)
  {
    var mdFiles := SelectFiles(globbed, limit);
    var success, error, skipped, timeout := SortFiles(mdFiles, outputExists, api, saveError);
    var timeoutFiles := FileNames(timeout);
    summary := Summary(|mdFiles|, |success|, |error|, |timeout|, |skipped|, error, timeoutFiles);
  }

  /** Every considered file lands in exactly one bucket. */
  lemma {:induction false} BucketsPartition(hs: seq<Handled>)
    ensures |Filter(hs, IsSuccess)| + |Filter(hs, IsError)| + |Filter(hs, IsTimeout)| + |Filter(hs, IsSkip)| == |hs|
    decreases |hs|
  {
    if hs != [] {
      BucketsPartition(hs[..|hs| - 1]);
    }
  }

  /** The four counts of a summary add up to the number of files considered. */
  lemma SummaryTotals(globbed: seq<MdFile>, limit: Option<int>, outputExists: string -> bool,
                      api: string -> Reply, saveError: string -> Option<string>)
    ensures var s := DirectorySummary(globbed, limit, outputExists, api, saveError);
      s.succeeded + s.errors + s.timeouts + s.skipped == s.totalFiles
  {
    var files := SelectFiles(globbed, limit);
    BucketsPartition(HandleAll(files, outputExists, api, saveError));
  }

  /** A considered file whose output outputExists is among the skipped entries of the run. */
  lemma ExistingIsSkipped(globbed: seq<MdFile>, limit: Option<int>, outputExists: string -> bool,
                          api: string -> Reply, saveError: string -> Option<string>, k: nat)
    requires k < |SelectFiles(globbed, limit)|
    requires outputExists(OutputName(SelectFiles(globbed, limit)[k]))
    ensures AlreadyDone(SelectFiles(globbed, limit)[k].name) in Filter(HandleAll(SelectFiles(globbed, limit), outputExists, api, saveError), IsSkip)
  {
    var hs := HandleAll(SelectFiles(globbed, limit), outputExists, api, saveError);
    FilterSpec(hs, IsSkip);
    assert hs[k] in hs;
  }

  /** A timed-out file is reported as a timeout, never as an error. */
  lemma TimeoutNotError(hs: seq<Handled>, h: Handled)
    requires h in hs && h.Ran? && h.outcome.Timeout?
    ensures h in Filter(hs, IsTimeout) && h !in Filter(hs, IsError)
  {
    FilterSpec(hs, IsTimeout);
    FilterSpec(hs, IsError);
  }
}
