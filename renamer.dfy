/**
 * `rename_pdfs`: the batch loop over a snapshot of the folder listing. Each
 * `.pdf` entry is read, named by the completion service and then renamed,
 * previewed or skipped; every step is reported in the output box.
 *
 * The folder is the set of names it holds and the output box the sequence
 * of lines inserted into it; both are objects the loop updates in place.
 * The per-file behaviour is specified by the functions `ProcessEntry` and
 * `Run`, whose properties are the lemmas at the end of this module.
 */
module Renamer {
  import opened Wrappers
  import opened Strings
  import opened Naming
  import opened Extraction

  /** One line of the output box, by the message it carries. */
  datatype LogLine =
    | Reading(file: string)          // "Reading: {filename}"
    | NoTextInArea                   // "No text found in area."
    | GptError(msg: string)          // "GPT Error: {name[1]}"
    | WillRename(target: string)     // "Will rename to: {final_name}"
    | Renamed(target: string)        // "Renamed to: {final_name}"
    | SkippedExists(target: string)  // "Skipped (file exists): {final_name}"
    | Error(msg: string)             // "Error: {str(e)}"
    | Done                           // "Done."

  /** The arguments of one batch run besides the folder and the output box. */
  datatype Job = Job(prefix: string, suffix: string, previewOnly: bool, useArea: bool, rect: Rect)

  /**
   * The collaborators the loop calls but cannot see: `fitz.open` of an entry
   * (or the exception it raises), the completion service, and the reason,
   * if any, for which the operating system refuses a rename (permissions).
   */
  datatype Env = Env(
    open: string -> Result<Document>,
    complete: Completer,
    renameFault: (string, string) -> Option<string>)

  /** The message of the `FileNotFoundError` raised by renaming a missing file. */
  const NoSuchFile: string := "No such file or directory"

  /**
   * `os.rename(old_path, new_path)` inside the folder: it fails when the
   * operating system refuses or the source is gone, and otherwise moves
   * exactly the one name.
   */
  function OsRename(names: set<string>, src: string, dst: string, fault: Option<string>): (r: Result<set<string>>)
    ensures r.Ok? <==> fault.None? && src in names
    ensures r.Ok? ==> dst in r.value && r.value - {dst} == names - {src} - {dst}
  {
    if fault.Some? then Err(fault.value)
    else if src !in names then Err(NoSuchFile)
    else Ok(names - {src} + {dst})
  }

  /** The folder after handling one entry, and the outcome line it logged. */
  datatype Step = Step(names: set<string>, line: LogLine)

  /** True when `s` moved exactly `entry` to a previously absent `.pdf` name and logged it as renamed. */
  ghost predicate MovedOne(names: set<string>, entry: string, s: Step)
  {
    && s.line.Renamed?
    && entry in names
    && s.line.target !in names
    && IsPdfName(s.line.target)
    && s.names == names - {entry} + {s.line.target}
  }

  /** An outcome line: every line an entry logs after its "Reading" line. */
  predicate IsOutcome(line: LogLine)
  {
    !line.Reading? && !line.Done?
  }

  /**
   * The decision once the naming result is known (lines 63-75): a naming
   * failure is logged; a preview only logs the target; otherwise an
   * existing target is left alone and logged as skipped, and an absent one
   * is renamed to, unless `os.rename` raises, which is logged as an error
   * and leaves the folder as it was. The folder changes only by a logged
   * rename of exactly this entry, and never in a preview.
   */
  function Conclude(names: set<string>, entry: string, naming: NamingResult, job: Job, env: Env): (s: Step)
    ensures s.line.GptError? || s.line.WillRename? || s.line.SkippedExists? || s.line.Renamed? || s.line.Error?
    ensures s.names == names || MovedOne(names, entry, s)
    ensures s.line.Renamed? ==> MovedOne(names, entry, s)
    ensures s.names != names ==> !job.previewOnly
    ensures naming.Failure? <==> s.line.GptError?
    ensures naming.Failure? ==> s == Step(names, GptError(naming.msg))
    ensures naming.Success? && job.previewOnly ==>
      s.line == WillRename(FinalName(job.prefix, naming.name, job.suffix))
    ensures naming.Success? && !job.previewOnly && FinalName(job.prefix, naming.name, job.suffix) in names ==>
      s == Step(names, SkippedExists(FinalName(job.prefix, naming.name, job.suffix)))
    ensures naming.Success? && !job.previewOnly && FinalName(job.prefix, naming.name, job.suffix) !in names ==>
        var target := FinalName(job.prefix, naming.name, job.suffix);
        s == if entry in names && env.renameFault(entry, target).None?
             then Step(names - {entry} + {target}, Renamed(target))
             else Step(names, Error(if env.renameFault(entry, target).Some? then env.renameFault(entry, target).value
                                    else NoSuchFile))
    ensures s.line.Renamed? ==> naming.Success? && s.line.target == FinalName(job.prefix, naming.name, job.suffix)
  {
    match naming
    case Failure(msg) => Step(names, GptError(msg))
    case Success(name) =>
      var target := FinalName(job.prefix, name, job.suffix);
      FinalNameIsPdf(job.prefix, name, job.suffix);
      if job.previewOnly then Step(names, WillRename(target))
      else if target in names then Step(names, SkippedExists(target))
      else
        match OsRename(names, entry, target, env.renameFault(entry, target))
        case Ok(after) => Step(after, Renamed(target))
        case Err(msg) => Step(names, Error(msg))
  }

  /** What extraction hands on: the text to name, an empty area, or a raised error. */
  datatype Extracted = Text(text: string) | EmptyArea | Raised(msg: string)

  /**
   * Extraction in the job's mode (lines 49-62): in area mode the stripped
   * clipped text of the first page, where an empty text stops the entry;
   * otherwise the capped whole-document text. The text handed on is never
   * empty in area mode and never longer than the cap in whole-document mode.
   */
  function Extract(doc: Document, job: Job): (x: Extracted)
    ensures x.Raised? <==> job.useArea && |doc.pages| == 0
    ensures x.Raised? ==> x.msg == NoFirstPage
    ensures x.EmptyArea? <==> job.useArea && ExtractTextByArea(doc, job.rect) == Ok("")
    ensures x.Text? && job.useArea ==> x.text != [] && Ok(x.text) == ExtractTextByArea(doc, job.rect)
    ensures !job.useArea ==> x == Text(WholeDocumentText(doc))
    ensures x.Text? && !job.useArea ==> |x.text| <= MaxTextLength
  {
    if job.useArea then
      match ExtractTextByArea(doc, job.rect)
      case Err(msg) => Raised(msg)
      case Ok(t) => if t == "" then EmptyArea else Text(t)
    else Text(WholeDocumentText(doc))
  }

  /**
   * The text the naming service is called with for `entry`, or `None` when
   * the entry never reaches the service (the document does not open, has no
   * first page, or its area is empty).
   */
  function NamingInput(entry: string, job: Job, env: Env): Option<string>
  {
    match env.open(entry)
    case Err(_) => None
    case Ok(doc) =>
      match Extract(doc, job)
      case Text(t) => Some(t)
      case _ => None
  }

  /**
   * The body of the `try` for one `.pdf` entry: it logs one outcome line,
   * and the folder changes only by a logged rename of this entry, never in
   * a preview.
   */
  function Attempt(names: set<string>, entry: string, job: Job, env: Env): (s: Step)
    ensures IsOutcome(s.line)
    ensures s.names == names || MovedOne(names, entry, s)
    ensures s.line.Renamed? ==> MovedOne(names, entry, s)
    ensures s.names != names ==> !job.previewOnly
  {
    match env.open(entry)
    case Err(msg) => Step(names, Error(msg))
    case Ok(doc) =>
      match Extract(doc, job)
      case Raised(msg) => Step(names, Error(msg))
      case EmptyArea => Step(names, NoTextInArea)
      case Text(t) => Conclude(names, entry, GenerateFilename(t, env.complete), job, env)
  }

  /**
   * An entry that never reaches the naming service logs the raised error or
   * "No text found in area.", and leaves the folder as it was: a document
   * that does not open logs the exception's message, and one without a
   * first page in area mode logs the `IndexError`'s.
   */
  lemma UnnamedEntryKeepsFolder(names: set<string>, entry: string, job: Job, env: Env)
    requires NamingInput(entry, job, env).None?
    ensures Attempt(names, entry, job, env).names == names
    ensures Attempt(names, entry, job, env).line.Error? || Attempt(names, entry, job, env).line == NoTextInArea
    ensures env.open(entry).Err? ==> Attempt(names, entry, job, env) == Step(names, Error(env.open(entry).msg))
    ensures env.open(entry).Ok? && job.useArea && |env.open(entry).value.pages| == 0 ==>
      Attempt(names, entry, job, env) == Step(names, Error(NoFirstPage))
  {
  }

  /** "No text found in area." is logged exactly when area mode finds an empty stripped area. */
  lemma NoTextExactlyOnEmptyArea(names: set<string>, entry: string, job: Job, env: Env)
    ensures Attempt(names, entry, job, env).line == NoTextInArea <==>
      job.useArea && env.open(entry).Ok? && ExtractTextByArea(env.open(entry).value, job.rect) == Ok("")
  {
    if env.open(entry).Ok? {
      var x := Extract(env.open(entry).value, job);
      if x.Text? {
        var naming := GenerateFilename(x.text, env.complete);
        assert Attempt(names, entry, job, env) == Conclude(names, entry, naming, job, env);
      }
    }
  }

  /** What one entry of the listing does to the folder and to the log. */
  datatype Effect = Effect(names: set<string>, lines: seq<LogLine>)

  /**
   * One iteration of the loop (lines 45-77). An entry that fails the `.pdf`
   * filter logs nothing and changes nothing; any other logs its "Reading"
   * line and then exactly one outcome line.
   */
  function ProcessEntry(names: set<string>, entry: string, job: Job, env: Env): (e: Effect)
    ensures !IsPdfName(entry) ==> e == Effect(names, [])
    ensures IsPdfName(entry) ==> |e.lines| == 2 && e.lines[0] == Reading(entry) && IsOutcome(e.lines[1])
    ensures e.names == names || (IsPdfName(entry) && !job.previewOnly && MovedOne(names, entry, Step(e.names, e.lines[1])))
  {
    if !IsPdfName(entry) then Effect(names, [])
    else
      var s := Attempt(names, entry, job, env);
      Effect(s.names, [Reading(entry), s.line])
  }

  /**
   * The loop over the entries of the listing: folder and log after them.
   * A preview leaves the folder as it was.
   */
  function Run(names: set<string>, listing: seq<string>, job: Job, env: Env): (r: Effect)
    ensures job.previewOnly ==> r.names == names
    decreases |listing|
  {
    if listing == [] then Effect(names, [])
    else
      var before := Run(names, listing[..|listing| - 1], job, env);
      var e := ProcessEntry(before.names, listing[|listing| - 1], job, env);
      Effect(e.names, before.lines + e.lines)
  }

  /**
   * The entries of the listing that pass the `.pdf` filter, in listing
   * order.
   */
  function PdfEntries(listing: seq<string>): (r: seq<string>)
    ensures |r| <= |listing|
    ensures forall k :: 0 <= k < |r| ==> IsPdfName(r[k]) && r[k] in listing
    decreases |listing|
  {
    if listing == [] then []
    else
      var last := listing[|listing| - 1];
      PdfEntries(listing[..|listing| - 1]) + (if IsPdfName(last) then [last] else [])
  }

  /** The filter keeps every `.pdf` entry as often as it occurs in the listing, and nothing else. */
  lemma {:induction false} PdfEntriesFilter(listing: seq<string>)
    ensures forall x :: multiset(PdfEntries(listing))[x] == if IsPdfName(x) then multiset(listing)[x] else 0
    decreases |listing|
  {
    if listing != [] {
      var init, last := listing[..|listing| - 1], listing[|listing| - 1];
      assert listing == init + [last];
      PdfEntriesFilter(init);
    }
  }

  /** Filtering keeps listing order: the filter of a concatenation concatenates the filters. */
  lemma {:induction false} PdfEntriesConcat(a: seq<string>, b: seq<string>)
    ensures PdfEntries(a + b) == PdfEntries(a) + PdfEntries(b)
    decreases |b|
  {
    if b != [] {
      var init := b[..|b| - 1];
      assert (a + b)[..|a + b| - 1] == a + init;
      assert (a + b)[|a + b| - 1] == b[|b| - 1];
      PdfEntriesConcat(a, init);
    } else {
      assert a + b == a;
    }
  }

  /**
   * The log of a run is one pair of lines per `.pdf` entry, in listing
   * order: its "Reading" line, then one outcome line. Entries that fail the
   * filter log nothing, and no line of the run is a "Done" line.
   */
  lemma {:induction false} RunLogShape(names: set<string>, listing: seq<string>, job: Job, env: Env)
    ensures |Run(names, listing, job, env).lines| == 2 * |PdfEntries(listing)|
    ensures forall k :: 0 <= k < |PdfEntries(listing)| ==>
      && Run(names, listing, job, env).lines[2 * k] == Reading(PdfEntries(listing)[k])
      && IsOutcome(Run(names, listing, job, env).lines[2 * k + 1])
    ensures forall i :: 0 <= i < |Run(names, listing, job, env).lines| ==>
      !Run(names, listing, job, env).lines[i].Done?
    decreases |listing|
  {
    if listing != [] {
      var init := listing[..|listing| - 1];
      var last := listing[|listing| - 1];
      RunLogShape(names, init, job, env);
      var before := Run(names, init, job, env);
      var e := ProcessEntry(before.names, last, job, env);
      var lines := Run(names, listing, job, env).lines;
      assert lines == before.lines + e.lines;
      var p := PdfEntries(listing);
      forall k | 0 <= k < |p|
        ensures lines[2 * k] == Reading(p[k]) && IsOutcome(lines[2 * k + 1])
      {
        if k < |PdfEntries(init)| {
          assert p[k] == PdfEntries(init)[k];
        } else {
          assert p[k] == last;
        }
      }
      forall i | 0 <= i < |lines|
        ensures !lines[i].Done?
      {
        if i >= |before.lines| {
          assert lines[i] == e.lines[i - |before.lines|];
        }
      }
    }
  }

  /** The log of a whole batch holds exactly one "Done" line, and it is the last line. */
  lemma DoneOnlyAtEnd(names: set<string>, listing: seq<string>, job: Job, env: Env)
    ensures var log := Run(names, listing, job, env).lines + [Done];
      forall i :: 0 <= i < |log| ==> (log[i].Done? <==> i == |log| - 1)
  {
    RunLogShape(names, listing, job, env);
  }

  /**
   * Which names a run can change: a name that disappears is a `.pdf` entry
   * of the listing, a name that appears ends in `.pdf`, and the number of
   * names is unchanged (no file is created or lost). In particular an entry
   * that fails the filter is never renamed.
   */
  lemma {:induction false} RunMovesOnlyPdfEntries(names: set<string>, listing: seq<string>, job: Job, env: Env)
    ensures forall x :: x in names && x !in Run(names, listing, job, env).names ==> IsPdfName(x) && x in listing
    ensures forall y :: y in Run(names, listing, job, env).names && y !in names ==> IsPdfName(y)
    ensures |Run(names, listing, job, env).names| == |names|
    decreases |listing|
  {
    if listing != [] {
      var init := listing[..|listing| - 1];
      var last := listing[|listing| - 1];
      RunMovesOnlyPdfEntries(names, init, job, env);
      var before := Run(names, init, job, env);
      EntryMovesOnlyItself(before.names, last, job, env);
      var after := Run(names, listing, job, env).names;
      assert after == ProcessEntry(before.names, last, job, env).names;
      forall x | x in names && x !in after
        ensures IsPdfName(x) && x in listing
      {
        if x in before.names {
          assert x == last;
        } else {
          assert x in init;
        }
      }
    }
  }

  /**
   * One entry changes the folder only by moving itself, a `.pdf` entry, to a
   * `.pdf` name; the number of names stays the same.
   */
  lemma EntryMovesOnlyItself(names: set<string>, entry: string, job: Job, env: Env)
    ensures forall x :: x in names && x !in ProcessEntry(names, entry, job, env).names ==> x == entry && IsPdfName(x)
    ensures forall y :: y in ProcessEntry(names, entry, job, env).names && y !in names ==> IsPdfName(y)
    ensures |ProcessEntry(names, entry, job, env).names| == |names|
  {
    var e := ProcessEntry(names, entry, job, env);
    if e.names != names {
      MovedOneKeepsSize(names, entry, Step(e.names, e.lines[1]));
    }
  }

  /** A rename swaps one name for an absent one, so the number of names stays. */
  lemma MovedOneKeepsSize(names: set<string>, entry: string, s: Step)
    requires MovedOne(names, entry, s)
    ensures |s.names| == |names|
  {
    assert |names - {entry}| == |names| - 1;
  }

  /**
   * A preview run leaves the folder exactly as it was, and no entry is
   * reported as renamed or skipped.
   */
  lemma {:induction false} PreviewKeepsFolder(names: set<string>, listing: seq<string>, job: Job, env: Env)
    requires job.previewOnly
    ensures Run(names, listing, job, env).names == names
    ensures forall i :: 0 <= i < |Run(names, listing, job, env).lines| ==>
      !Run(names, listing, job, env).lines[i].Renamed? && !Run(names, listing, job, env).lines[i].SkippedExists?
    decreases |listing|
  {
    if listing != [] {
      var init := listing[..|listing| - 1];
      PreviewKeepsFolder(names, init, job, env);
      var before := Run(names, init, job, env);
      var e := ProcessEntry(before.names, listing[|listing| - 1], job, env);
      var lines := Run(names, listing, job, env).lines;
      forall i | 0 <= i < |lines|
        ensures !lines[i].Renamed? && !lines[i].SkippedExists?
      {
        if i >= |before.lines| {
          assert lines[i] == e.lines[i - |before.lines|];
        }
      }
    }
  }

  /**
   * Running a preview twice, against collaborators that answer the same way
   * both times, logs the same lines: the first preview leaves the folder the
   * second one lists.
   */
  lemma PreviewRepeatable(names: set<string>, listing: seq<string>, job: Job, env: Env)
    requires job.previewOnly
    ensures Run(Run(names, listing, job, env).names, listing, job, env).lines == Run(names, listing, job, env).lines
  {
    PreviewKeepsFolder(names, listing, job, env);
  }

  /**
   * In a preview every `.pdf` entry whose name the service supplies logs
   * "Will rename to" its final name.
   */
  lemma PreviewLogsTarget(names: set<string>, entry: string, job: Job, env: Env, text: string)
    requires job.previewOnly && IsPdfName(entry)
    requires NamingInput(entry, job, env) == Some(text)
    requires GenerateFilename(text, env.complete).Success?
    ensures ProcessEntry(names, entry, job, env) == Effect(names,
      [Reading(entry), WillRename(FinalName(job.prefix, GenerateFilename(text, env.complete).name, job.suffix))])
  {
  }

  /**
   * Outside a preview, a final name that already exists leaves the folder
   * untouched (the entry and the existing file both stay) and logs a skip.
   */
  lemma ExistingTargetSkipped(names: set<string>, entry: string, job: Job, env: Env, text: string)
    requires !job.previewOnly && IsPdfName(entry)
    requires NamingInput(entry, job, env) == Some(text)
    requires GenerateFilename(text, env.complete).Success?
    requires FinalName(job.prefix, GenerateFilename(text, env.complete).name, job.suffix) in names
    ensures ProcessEntry(names, entry, job, env) == Effect(names,
      [Reading(entry), SkippedExists(FinalName(job.prefix, GenerateFilename(text, env.complete).name, job.suffix))])
  {
  }

  /**
   * Outside a preview, an absent final name is renamed to when the operating
   * system allows it: exactly the entry leaves the folder and the final name
   * joins it; nothing else changes.
   */
  lemma AbsentTargetRenamed(names: set<string>, entry: string, job: Job, env: Env, text: string)
    requires !job.previewOnly && IsPdfName(entry) && entry in names
    requires NamingInput(entry, job, env) == Some(text)
    requires GenerateFilename(text, env.complete).Success?
    requires FinalName(job.prefix, GenerateFilename(text, env.complete).name, job.suffix) !in names
    requires env.renameFault(entry, FinalName(job.prefix, GenerateFilename(text, env.complete).name, job.suffix)).None?
    ensures var target := FinalName(job.prefix, GenerateFilename(text, env.complete).name, job.suffix);
      ProcessEntry(names, entry, job, env) == Effect(names - {entry} + {target}, [Reading(entry), Renamed(target)])
  {
  }

  /**
   * A naming failure, or any raised error, is logged and leaves the folder
   * as it was.
   */
  lemma FailureKeepsFolder(names: set<string>, entry: string, job: Job, env: Env)
    requires IsPdfName(entry)
    requires ProcessEntry(names, entry, job, env).lines[1].GptError? || ProcessEntry(names, entry, job, env).lines[1].Error?
    ensures ProcessEntry(names, entry, job, env).names == names
  {
  }

  /**
   * In area mode an empty stripped area text logs "No text found in area."
   * and the naming service is not consulted: any other service gives the
   * same result.
   */
  lemma EmptyAreaSkipsNaming(names: set<string>, entry: string, job: Job, env: Env, other: Completer)
    requires IsPdfName(entry) && job.useArea && env.open(entry).Ok?
    requires ExtractTextByArea(env.open(entry).value, job.rect) == Ok("")
    ensures NamingInput(entry, job, env).None?
    ensures ProcessEntry(names, entry, job, env) == Effect(names, [Reading(entry), NoTextInArea])
    ensures ProcessEntry(names, entry, job, env.(complete := other)) == ProcessEntry(names, entry, job, env)
  {
  }

  /**
   * The naming service is consulted about an entry only with the text
   * `NamingInput` names: two services that agree on that prompt (or any two
   * services, when there is none) give the same result.
   */
  lemma NamingOnlyOnInput(names: set<string>, entry: string, job: Job, env: Env, other: Completer)
    requires NamingInput(entry, job, env).Some? ==>
      other(Prompt(NamingInput(entry, job, env).value)) == env.complete(Prompt(NamingInput(entry, job, env).value))
    ensures ProcessEntry(names, entry, job, env.(complete := other)) == ProcessEntry(names, entry, job, env)
  {
    var env' := env.(complete := other);
    assert NamingInput(entry, job, env') == NamingInput(entry, job, env);
    if env.open(entry).Ok? {
      var x := Extract(env.open(entry).value, job);
      if x.Text? {
        var naming := GenerateFilename(x.text, env.complete);
        assert GenerateFilename(x.text, other) == naming;
        ConcludeIgnoresService(names, entry, naming, job, env', env);
        assert Attempt(names, entry, job, env') == Attempt(names, entry, job, env);
      }
    }
  }

  /** The decision after naming consults the operating system, never the naming service. */
  lemma ConcludeIgnoresService(names: set<string>, entry: string, naming: NamingResult, job: Job, e1: Env, e2: Env)
    requires e1.renameFault == e2.renameFault
    ensures Conclude(names, entry, naming, job, e1) == Conclude(names, entry, naming, job, e2)
  {
  }

  /**
   * In whole-document mode a document without pages is no error: the naming
   * service is asked about the empty text.
   */
  lemma NoPagesStillNamed(entry: string, job: Job, env: Env)
    requires !job.useArea && env.open(entry) == Ok(Document([]))
    ensures NamingInput(entry, job, env) == Some("")
  {
    var pages: seq<Page> := [];
    assert pages[..0] == [];
    assert Lead("") == 0;
  }

  /**
   * When the listing is a genuine snapshot of the folder (every entry in it,
   * none twice), each entry is still in the folder when the loop reaches it,
   * so a rename can fail only because the operating system refuses it.
   */
  lemma {:induction false} SnapshotEntriesPresent(names: set<string>, listing: seq<string>, job: Job, env: Env, i: nat)
    requires forall j :: 0 <= j < |listing| ==> listing[j] in names
    requires forall j, k :: 0 <= j < k < |listing| ==> listing[j] != listing[k]
    requires i <= |listing|
    ensures forall j :: i <= j < |listing| ==> listing[j] in Run(names, listing[..i], job, env).names
    decreases i
  {
    if i > 0 {
      SnapshotEntriesPresent(names, listing, job, env, i - 1);
      var init := listing[..i - 1];
      assert listing[..i][..i - 1] == init;
      var before := Run(names, init, job, env);
      var e := ProcessEntry(before.names, listing[i - 1], job, env);
      assert Run(names, listing[..i], job, env).names == e.names;
    }
  }

  /** The folder: the set of names `os.listdir` and `os.path.exists` see. */
  class Folder {
    var names: set<string>

    constructor (names: set<string>)
      ensures this.names == names
    {
      this.names := names;
    }

    /** `os.rename`; `fault` is the operating system's refusal, if any. */
    method Rename(src: string, dst: string, fault: Option<string>) returns (err: Option<string>)
      modifies this
      ensures OsRename(old(names), src, dst, fault).Ok? ==> err.None? && names == OsRename(old(names), src, dst, fault).value
      ensures OsRename(old(names), src, dst, fault).Err? ==> err == Some(OsRename(old(names), src, dst, fault).msg) && names == old(names)
    {
      match OsRename(names, src, dst, fault)
      case Ok(after) =>
        names := after;
        err := None;
      case Err(msg) =>
        err := Some(msg);
    }
  }

  /** The scrolled text widget: lines are only ever appended at the end. */
  class OutputBox {
    var lines: seq<LogLine>

    constructor ()
      ensures lines == []
    {
      lines := [];
    }

    /** `output_box.insert(tk.END, ...)`. */
    method Insert(line: LogLine)
      modifies this
      ensures lines == old(lines) + [line]
    {
      lines := lines + [line];
    }
  }

  /** The body of the loop for one entry, acting on the folder and the output box. */
  method HandleEntry(folder: Folder, out: OutputBox, entry: string, job: Job, env: Env)
    modifies folder, out
    ensures folder.names == ProcessEntry(old(folder.names), entry, job, env).names
    ensures out.lines == old(out.lines) + ProcessEntry(old(folder.names), entry, job, env).lines
  {
    if !IsPdfName(entry) {
      return;
    }
    out.Insert(Reading(entry));
    var doc0 := env.open(entry);
    if doc0.Err? {
      out.Insert(Error(doc0.msg));
      return;
    }
    var doc := doc0.value;
    var naming;
    if job.useArea {
      var region := ExtractTextByArea(doc, job.rect);
      if region.Err? {
        out.Insert(Error(region.msg));
        return;
      }
      if region.value == "" {
        out.Insert(NoTextInArea);
        return;
      }
      naming := GenerateFilename(region.value, env.complete);
    } else {
      var fullText := GatherText(doc.pages);
      naming := GenerateFilename(Take(Strip(fullText), MaxTextLength), env.complete);
    }
    ConcludeEntry(folder, out, entry, naming, job, env);
  }

  /** The end of the loop body once the naming result is known: log, rename or skip. */
  method ConcludeEntry(folder: Folder, out: OutputBox, entry: string, naming: NamingResult, job: Job, env: Env)
    modifies folder, out
    ensures folder.names == Conclude(old(folder.names), entry, naming, job, env).names
    ensures out.lines == old(out.lines) + [Conclude(old(folder.names), entry, naming, job, env).line]
  {
    if naming.Failure? {
      out.Insert(GptError(naming.msg));
      return;
    }
    var target := FinalName(job.prefix, naming.name, job.suffix);
    if job.previewOnly {
      out.Insert(WillRename(target));
    } else if target !in folder.names {  // `not os.path.exists(new_path)`
      var err := folder.Rename(entry, target, env.renameFault(entry, target));
      if err.None? {
        out.Insert(Renamed(target));
      } else {
        out.Insert(Error(err.value));
      }
    } else {
      out.Insert(SkippedExists(target));
    }
  }

  /**
   * `rename_pdfs` over the snapshot `listing` of `os.listdir(folder_path)`:
   * the folder ends as `Run` says, the log gains `Run`'s lines and then
   * exactly one "Done" line.
   */
  method RenamePdfs(folder: Folder, out: OutputBox, listing: seq<string>, job: Job, env: Env)
    modifies folder, out
    ensures folder.names == Run(old(folder.names), listing, job, env).names
    ensures out.lines == old(out.lines) + Run(old(folder.names), listing, job, env).lines + [Done]
  {
    for i := 0 to |listing|
      invariant folder.names == Run(old(folder.names), listing[..i], job, env).names
      invariant out.lines == old(out.lines) + Run(old(folder.names), listing[..i], job, env).lines
    {
      assert listing[..i + 1][..i] == listing[..i];
      HandleEntry(folder, out, listing[i], job, env);
    }
    assert listing[..|listing|] == listing;
    out.Insert(Done);
  }
}
