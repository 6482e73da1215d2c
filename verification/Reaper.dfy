/** Retention of proof runs: which directories one scan deletes, and what it reports. */
module Reaper {
  import opened Domain
  import opened ProofNames

  const U32_MAX: nat := 0xFFFF_FFFF

  /** An instant with its fraction of a second. */
  datatype Moment = Moment(civil: Civil, nanos: nat)

  /** Calendar order; a leap second falls after second 59 and before the next minute. */
  predicate Before(a: Civil, b: Civil) {
    a.year < b.year
    || (a.year == b.year && (a.month < b.month
    || (a.month == b.month && (a.day < b.day
    || (a.day == b.day && (a.hour < b.hour
    || (a.hour == b.hour && (a.minute < b.minute
    || (a.minute == b.minute && a.second < b.second)))))))))
  }

  predicate StartedBefore(started: Civil, cutoff: Moment) {
    Before(started, cutoff.civil) || (started == cutoff.civil && cutoff.nanos > 0)
  }

  /** How removing a directory would end. */
  datatype Removal = Removed | Missing | Failed

  /** Directory entries as the scan meets them; a name that is not UTF-8 is `None`, and so is a
      directory that cannot be opened. */
  datatype RunEntry = RunEntry(name: Option<string>, isDirectory: bool, removal: Removal)

  datatype IssueEntry = IssueEntry(name: Option<string>, isDirectory: bool, runs: Option<seq<RunEntry>>)

  datatype Path = Path(issue: string, run: string)

  datatype Fate = NotDirectory | SkippedActive | Unparsed | Recent | Reaped | Gone | Errored

  datatype Report = Report(scanned: nat, reaped: nat, skippedActive: nat, errors: nat)

  function FateOf(run: RunEntry, cutoff: Moment, active: bool): Fate {
    if !run.isDirectory then NotDirectory
    else if active then SkippedActive
    else if run.name.None? || ParseProofTimestamp(run.name.value).None? then Unparsed
    else if !StartedBefore(ParseProofTimestamp(run.name.value).value, cutoff) then Recent
    else match run.removal
         case Removed => Reaped
         case Missing => Gone
         case Failed => Errored
  }

  predicate Walked(e: IssueEntry) {
    e.isDirectory && e.name.Some? && Trim(e.name.value) != "" && e.runs.Some?
  }

  /******* What a scan deletes, and how its entries fare *******/

  function DeletedRuns(issue: string, runs: seq<RunEntry>, cutoff: Moment, active: bool): set<Path> {
    set run | run in runs && FateOf(run, cutoff, active) == Reaped :: Path(issue, run.name.value)
  }

  function Deleted(entries: seq<IssueEntry>, cutoff: Moment, active: set<IssueId>): set<Path> {
    set e, path | e in entries && Walked(e)
                  && path in DeletedRuns(e.name.value, e.runs.value, cutoff, e.name.value in active) :: path
  }

  function RunFates(runs: seq<RunEntry>, cutoff: Moment, active: bool): multiset<Fate> {
    multiset(seq(|runs|, i requires 0 <= i < |runs| => FateOf(runs[i], cutoff, active)))
  }

  function Fates(entries: seq<IssueEntry>, cutoff: Moment, active: set<IssueId>): multiset<Fate> {
    if entries == [] then multiset{}
    else
      var e := entries[|entries| - 1];
      Fates(entries[..|entries| - 1], cutoff, active)
      + if Walked(e) then RunFates(e.runs.value, cutoff, e.name.value in active) else multiset{}
  }

  function Saturated(n: nat): nat { Min(n, U32_MAX) }

  /** Counters as they stand once entries with these fates have been seen. */
  function ReportOf(fates: multiset<Fate>): Report {
    Report(Saturated(|fates| - fates[NotDirectory]), Saturated(fates[Reaped]),
           Saturated(fates[SkippedActive]), Saturated(fates[Errored]))
  }

  /** One more entry, counted as the source counts it. */
  function Recorded(report: Report, fate: Fate): Report {
    var scanned := if fate == NotDirectory then report.scanned else Saturated(report.scanned + 1);
    match fate
    case SkippedActive => report.(scanned := scanned, skippedActive := Saturated(report.skippedActive + 1))
    case Reaped => report.(scanned := scanned, reaped := Saturated(report.reaped + 1))
    case Errored => report.(scanned := scanned, errors := Saturated(report.errors + 1))
    case _ => report.(scanned := scanned)
  }

  lemma RecordedCounts(fates: multiset<Fate>, fate: Fate)
    ensures Recorded(ReportOf(fates), fate) == ReportOf(fates + multiset{fate})
  {
  }

  class ProofStore {
    /** The run directories that exist. */
    var runs: set<Path>
    var report: Report

    constructor ()
      ensures runs == {} && report == Report(0, 0, 0, 0)
    {
      runs, report := {}, Report(0, 0, 0, 0);
    }

    method ProcessTimestampEntry(issue: string, run: RunEntry, cutoff: Moment, active: bool)
      modifies this
      ensures report == Recorded(old(report), FateOf(run, cutoff, active))
      ensures runs == old(runs) - DeletedRuns(issue, [run], cutoff, active)
    {
      if !run.isDirectory {
        return;
      }
      report := report.(scanned := Saturated(report.scanned + 1));
      if active {
        report := report.(skippedActive := Saturated(report.skippedActive + 1));
        return;
      }
      if run.name.None? {
        return;
      }
      var started := ParseProofTimestamp(run.name.value);
      if started.None? {
        return;
      }
      if StartedBefore(started.value, cutoff) {
        match run.removal
        case Removed =>
          runs := runs - {Path(issue, run.name.value)};
          report := report.(reaped := Saturated(report.reaped + 1));
        case Missing =>
        case Failed =>
          report := report.(errors := Saturated(report.errors + 1));
      }
    }

    method ProcessIssueEntry(e: IssueEntry, cutoff: Moment, active: set<IssueId>, ghost seen: multiset<Fate>)
      requires report == ReportOf(seen)
      modifies this
      ensures report == ReportOf(seen + if Walked(e) then RunFates(e.runs.value, cutoff, e.name.value in active) else multiset{})
      ensures runs == old(runs) - Deleted([e], cutoff, active)
    {
      if !e.isDirectory || e.name.None? || Trim(e.name.value) == "" || e.runs.None? {
        assert seen + multiset{} == seen;
        return;
      }
      var list, issueActive := e.runs.value, e.name.value in active;
      for i := 0 to |list|
        invariant report == ReportOf(seen + RunFates(list[..i], cutoff, issueActive))
        invariant runs == old(runs) - DeletedRuns(e.name.value, list[..i], cutoff, issueActive)
      {
        ProcessTimestampEntry(e.name.value, list[i], cutoff, issueActive);
        OneMoreRun(e.name.value, list, i, cutoff, issueActive, seen);
      }
      assert list[..|list|] == list;
    }

    /** One scan. Without a cutoff nothing is touched. */
    method ReapOldProofs(entries: seq<IssueEntry>, cutoff: Option<Moment>, active: set<IssueId>)
      modifies this
      ensures cutoff.None? ==> runs == old(runs) && report == Report(0, 0, 0, 0)
      ensures cutoff.Some? ==> runs == old(runs) - Deleted(entries, cutoff.value, active)
      ensures cutoff.Some? ==> report == ReportOf(Fates(entries, cutoff.value, active))
    {
      report := Report(0, 0, 0, 0);
      if cutoff.None? {
        return;
      }
      for i := 0 to |entries|
        invariant report == ReportOf(Fates(entries[..i], cutoff.value, active))
        invariant runs == old(runs) - Deleted(entries[..i], cutoff.value, active)
      {
        assert entries[..i + 1][..i] == entries[..i];
        ProcessIssueEntry(entries[i], cutoff.value, active, Fates(entries[..i], cutoff.value, active));
        OneMoreIssue(entries, i, cutoff.value, active);
      }
      assert entries[..|entries|] == entries;
    }
  }

  lemma OneMoreRun(issue: string, runs: seq<RunEntry>, i: nat, cutoff: Moment, active: bool, seen: multiset<Fate>)
    requires i < |runs|
    ensures DeletedRuns(issue, runs[..i + 1], cutoff, active)
            == DeletedRuns(issue, runs[..i], cutoff, active) + DeletedRuns(issue, [runs[i]], cutoff, active)
    ensures ReportOf(seen + RunFates(runs[..i + 1], cutoff, active))
            == Recorded(ReportOf(seen + RunFates(runs[..i], cutoff, active)), FateOf(runs[i], cutoff, active))
  {
    var fate := FateOf(runs[i], cutoff, active);
    var earlier := runs[..i];
    assert runs[..i + 1] == earlier + [runs[i]];
    assert seq(i + 1, j requires 0 <= j < i + 1 => FateOf(runs[..i + 1][j], cutoff, active))
        == seq(i, j requires 0 <= j < i => FateOf(earlier[j], cutoff, active)) + [fate];
    RecordedCounts(seen + RunFates(earlier, cutoff, active), fate);
    assert seen + RunFates(runs[..i + 1], cutoff, active) == seen + RunFates(earlier, cutoff, active) + multiset{fate};
  }

  lemma OneMoreIssue(entries: seq<IssueEntry>, i: nat, cutoff: Moment, active: set<IssueId>)
    requires i < |entries|
    ensures Deleted(entries[..i + 1], cutoff, active) == Deleted(entries[..i], cutoff, active) + Deleted([entries[i]], cutoff, active)
  {
  }

  /******* What that means *******/

  predicate Listed(entries: seq<IssueEntry>, e: IssueEntry, run: RunEntry) {
    e in entries && Walked(e) && run in e.runs.value && run.isDirectory && run.name.Some?
  }

  /** When removals succeed, a listed run goes exactly if its issue is inactive and its name reads as an
      instant before the cutoff. */
  lemma ReapsExactlyOldInactiveRuns(entries: seq<IssueEntry>, cutoff: Moment, active: set<IssueId>, e: IssueEntry, run: RunEntry)
    requires Listed(entries, e, run) && run.removal == Removed
    ensures Path(e.name.value, run.name.value) in Deleted(entries, cutoff, active)
            <==> e.name.value !in active
                 && ParseProofTimestamp(run.name.value).Some?
                 && StartedBefore(ParseProofTimestamp(run.name.value).value, cutoff)
  {
    var path := Path(e.name.value, run.name.value);
    if FateOf(run, cutoff, e.name.value in active) == Reaped {
      assert path in DeletedRuns(e.name.value, e.runs.value, cutoff, e.name.value in active);
    }
  }

  /** The writer and the reaper agree: a recorded run is deleted exactly when it began before the cutoff
      (and its year has four digits), and an abandonment record never is. */
  lemma RetentionFollowsStart(entries: seq<IssueEntry>, cutoff: Moment, active: set<IssueId>, e: IssueEntry, run: RunEntry,
                              started: Civil, k: nat)
    requires Listed(entries, e, run) && run.removal == Removed && e.name.value !in active && Valid(started) && k < 100
    ensures run.name.value == RunName(TimestampSegment(started), k)
            ==> (Path(e.name.value, run.name.value) in Deleted(entries, cutoff, active)
                 <==> FourDigitYear(started) && StartedBefore(started, cutoff))
    ensures run.name.value == RunName(TimestampSegment(started) + ABANDONED, k)
            ==> Path(e.name.value, run.name.value) !in Deleted(entries, cutoff, active)
  {
    ReapsExactlyOldInactiveRuns(entries, cutoff, active, e, run);
    RunNameParsesIff(started, k);
    AbandonedNeverParses(started, k);
  }
}
