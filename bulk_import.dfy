/**
 * The manager page's CSV export and bulk import (pages/manager/Manager.tsx): the export
 * file name per tab, and the import handler that uploads a file, starts an import for the
 * active tab and polls its status a bounded number of times.
 */
module BulkImport {
  import opened Wrappers

  datatype Tab = StaffTab | DepartmentTab | MedicalPackageTab | MedicalServiceTab

  /** The number of status checks after which the import is reported as timed out. */
  const MaxAttempts: nat := 60
  /** The wait before each status check, in milliseconds. */
  const PollIntervalMs: nat := 2000

  /** The file name `handleExport` downloads under; the staff and department tabs download nothing. */
  function ExportFileName(tab: Tab): (r: Option<string>)
    ensures r.Some? <==> tab == MedicalPackageTab || tab == MedicalServiceTab
    ensures r.Some? ==> |r.value| > 4 && r.value[|r.value| - 4..] == ".csv"
  {
    match tab
    case MedicalPackageTab => Some("medical_packages.csv")
    case MedicalServiceTab => Some("medical_services.csv")
    case _ => None
  }

  /** The two exportable tabs download under different names. */
  lemma ExportFileNamesDistinct()
    ensures ExportFileName(MedicalPackageTab) != ExportFileName(MedicalServiceTab)
  {
  }

  /** A bulk-import status as the status endpoint reports it. */
  datatype StatusView = StatusView(status: string, successfulRows: int, failedRows: int)

  /** A status check's result: a status, or `None` when the call rejects. */
  type StatusReply = Option<StatusView>

  /** A reply that lets the loop go on: a status other than COMPLETED and FAILED. */
  predicate Pending(r: StatusReply) {
    r.Some? && r.value.status != "COMPLETED" && r.value.status != "FAILED"
  }

  datatype ImportOutcome =
    | NoFile                                         // nothing selected: the handler returns at once
    | NotImported                                    // uploaded on a tab that has no import
    | ImportError                                    // the upload, the import start or a status check rejected
    | Completed(successfulRows: int, failedRows: int)
    | Failed(failedRows: int)
    | TimedOut

  /** The outcome the loop reports after the status reply it stopped at. */
  function Verdict(r: StatusReply): ImportOutcome {
    match r
    case None => ImportError
    case Some(v) =>
      if v.status == "COMPLETED" then Completed(v.successfulRows, v.failedRows)
      else if v.status == "FAILED" then Failed(v.failedRows)
      else TimedOut
  }

  /** What one run of `handleFileChange` did. */
  datatype ImportRun = ImportRun(outcome: ImportOutcome, uploaded: bool, importedAs: Option<Tab>,
                                 statusChecks: nat, inputCleared: bool)

  /**
   * `handleFileChange`. The upload yields the file's URL (`None` when it rejects), starting
   * the import yields a bulk id (`None` when it rejects), and `replies(i)` is the reply to
   * the `i`-th status check; the 2000 ms waits are not modelled as time.
   */
  method HandleFileChange(file: Option<string>, tab: Tab, upload: Option<string>, bulkId: Option<string>,
                          replies: nat -> StatusReply)
    returns (run: ImportRun)
    ensures file.None? ==> run == ImportRun(NoFile, false, None, 0, false)
    ensures file.Some? ==> run.uploaded && run.inputCleared
    ensures run.importedAs.Some? <==> file.Some? && upload.Some? && (tab == MedicalPackageTab || tab == MedicalServiceTab)
    ensures run.importedAs.Some? ==> run.importedAs == Some(tab)
    ensures file.Some? && upload.None? ==> run.outcome == ImportError && run.statusChecks == 0
    ensures file.Some? && upload.Some? && run.importedAs.None? ==> run.outcome == NotImported && run.statusChecks == 0
    ensures run.importedAs.Some? && bulkId.None? ==> run.outcome == ImportError && run.statusChecks == 0
    ensures run.statusChecks > 0 <==> run.importedAs.Some? && bulkId.Some?
    ensures run.statusChecks <= MaxAttempts
    ensures forall i :: 0 <= i < run.statusChecks - 1 ==> Pending(replies(i))
    ensures run.statusChecks > 0 ==>
      && run.outcome == Verdict(replies(run.statusChecks - 1))
      && (Pending(replies(run.statusChecks - 1)) ==> run.statusChecks == MaxAttempts)
    ensures run.outcome == TimedOut ==> run.statusChecks == MaxAttempts && forall i :: 0 <= i < MaxAttempts ==> Pending(replies(i))
  {
    if file.None? {
      return ImportRun(NoFile, false, None, 0, false);
    }
    if upload.None? {
      return ImportRun(ImportError, true, None, 0, true);
    }
    if tab != MedicalPackageTab && tab != MedicalServiceTab {
      return ImportRun(NotImported, true, None, 0, true);
    }
    if bulkId.None? {
      return ImportRun(ImportError, true, Some(tab), 0, true);
    }
    var attempts := 0;
    while attempts < MaxAttempts
      invariant 0 <= attempts <= MaxAttempts
      invariant forall i :: 0 <= i < attempts ==> Pending(replies(i))
    {
      var reply := replies(attempts);
      if reply.None? {
        return ImportRun(ImportError, true, Some(tab), attempts + 1, true);
      }
      if reply.value.status == "COMPLETED" {
        return ImportRun(Completed(reply.value.successfulRows, reply.value.failedRows), true, Some(tab), attempts + 1, true);
      } else if reply.value.status == "FAILED" {
        return ImportRun(Failed(reply.value.failedRows), true, Some(tab), attempts + 1, true);
      }
      attempts := attempts + 1;
    }
    run := ImportRun(TimedOut, true, Some(tab), MaxAttempts, true);
  }
}
