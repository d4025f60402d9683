/** `scripts/real_odoo_evidence.py`: packing evidence whose report states the size of the package it is in. */
module EvidencePackage {
  import opened Text

  const SUCCESS_LIMIT: int := 2 * 1024 * 1024
  const FAILURE_LIMIT: int := 50 * 1024 * 1024

  datatype Status = Success | Failure

  datatype Phases = Phases(setup: real, test: real, cleanup: real)

  datatype Budget = Budget(setup: real, test: real, job: real)

  /** The budget report that is written into `timing.json`. */
  datatype Report = Report(status: Status, phases: Phases, jobSeconds: real, artifactBytes: int, artifactBudget: int,
                           ok: bool)

  datatype Bundle = Bundle(ok: bool, status: Status, artifactBytes: int, bundleLimit: int, successLimit: int,
                           budget: Report)

  datatype Error = TooLarge | BadEvidence | BudgetExceeded | SizeChanged

  function Limit(status: Status): int { if status.Success? then SUCCESS_LIMIT else FAILURE_LIMIT }

  /** `_budget_report`: four measurements against four limits. */
  function BudgetReport(status: Status, phases: Phases, budget: Budget, bytes: int): (r: Report)
    ensures r.artifactBytes == bytes && r.status == status && r.phases == phases
    ensures r.artifactBudget == if status == Success then 2097152 else 52428800
    ensures r.jobSeconds == phases.setup + phases.test + phases.cleanup
    ensures r.ok <==> phases.setup <= budget.setup && phases.test <= budget.test && r.jobSeconds <= budget.job
                      && bytes <= r.artifactBudget
  {
    var total := phases.setup + phases.test + phases.cleanup;
    var violations := (if phases.setup <= budget.setup then 0 else 1) + (if phases.test <= budget.test then 0 else 1)
                    + (if total <= budget.job then 0 else 1) + (if bytes <= Limit(status) then 0 else 1);
    Report(status, phases, total, bytes, Limit(status), violations == 0)
  }

  /** The bundle-size and budget checks of the acceptance validator, on the timing report and the manifest of a
      success bundle. */
  predicate Accepted(timing: Option<Report>, bundle: Bundle) {
    && timing.Some? && timing.value.ok && timing.value.artifactBudget == SUCCESS_LIMIT
    && bundle.ok && bundle.artifactBytes >= 0 && bundle.artifactBytes <= SUCCESS_LIMIT
    && bundle.bundleLimit == FAILURE_LIMIT && bundle.successLimit == SUCCESS_LIMIT
    && bundle.budget.ok && bundle.budget.artifactBytes == bundle.artifactBytes
  }

  /** The size of the archive on the given attempt with the given report inside: any size, even on equal content. */
  type Archiver = (nat, Option<Report>) -> nat

  class Workspace {
    const status: Status
    const phases: Phases
    const budget: Budget
    const size: Archiver
    const evidenceValid: nat -> bool
    var timing: Option<Report>
    var staged: Option<Report>
    var archived: Option<Report>
    var bytes: nat
    var attempts: nat

    constructor (status: Status, phases: Phases, budget: Budget, size: Archiver, evidenceValid: nat -> bool,
                 timing: Option<Report>)
      ensures this.status == status && this.phases == phases && this.budget == budget && this.size == size
      ensures this.evidenceValid == evidenceValid
      ensures this.timing == timing && staged == timing && attempts == 0
    {
      this.status, this.phases, this.budget, this.size, this.evidenceValid := status, phases, budget, size,
        evidenceValid;
      this.timing, staged, archived, bytes, attempts := timing, timing, None, 0, 0;
    }

    /** `_archive_staging`: replace the archive and refuse one over the limit. */
    method ArchiveStaging() returns (fits: bool)
      modifies `archived, `bytes, `attempts
      ensures archived == staged && bytes == size(old(attempts), staged) && attempts == old(attempts) + 1
      ensures fits <==> bytes <= if status == Success then 2097152 else 52428800
    {
      archived := staged;
      bytes := size(attempts, staged);
      attempts := attempts + 1;
      fits := bytes <= Limit(status);
    }

    /** `_update_metrics`: write the report for the archive as it now is into the source's `timing.json`. */
    method UpdateMetrics() returns (report: Option<Report>)
      modifies `timing
      ensures report == if evidenceValid(attempts) then Some(BudgetReport(status, phases, budget, bytes)) else None
      ensures timing == if report.Some? then report else old(timing)
    {
      if !evidenceValid(attempts) { return None; }
      report := Some(BudgetReport(status, phases, budget, bytes));
      timing := report;
    }

    /** The sizes of the three archives that can be made. */
    ghost function S0(first: Option<Report>): nat reads this { size(0, first) }

    ghost function S1(first: Option<Report>): nat
      reads this
    {
      size(1, Some(BudgetReport(status, phases, budget, S0(first))))
    }

    ghost function S2(first: Option<Report>): nat
      reads this
    {
      size(2, Some(BudgetReport(status, phases, budget, S1(first))))
    }

    /** The size loop settled: an archive came out as large as the report inside it says. */
    ghost predicate Settles(first: Option<Report>)
      reads this
    {
      S1(first) == S0(first) || S2(first) == S1(first)
    }

    ghost predicate Fits(first: Option<Report>)
      reads this
    {
      S0(first) <= Limit(status) && S1(first) <= Limit(status) && S2(first) <= Limit(status)
    }

    ghost predicate WithinBudget() {
      && phases.setup <= budget.setup && phases.test <= budget.test
      && phases.setup + phases.test + phases.cleanup <= budget.job
    }

    /** `package_evidence` from the first archive on. */
    method PackageEvidence() returns (r: Result<Bundle, Error>)
      requires attempts == 0
      modifies this
      ensures r != Err(SizeChanged)
      ensures r.Ok? ==> timing == Some(r.value.budget) && r.value.artifactBytes == r.value.budget.artifactBytes == bytes
      ensures r.Ok? ==> bytes <= (if status == Success then 2097152 else 52428800)
      ensures r.Ok? ==> r.value.budget.ok && r.value.status == status && r.value.ok
      ensures r.Ok? ==> r.value.bundleLimit == 52428800 && r.value.successLimit == 2097152
      ensures r == Err(TooLarge) ==> bytes > if status == Success then 2097152 else 52428800
      ensures r == Err(BudgetExceeded) ==> !WithinBudget()
      ensures r == Err(BadEvidence) ==> !evidenceValid(attempts)
      ensures r.Ok? && status.Success? ==> Accepted(timing, r.value)
      ensures r.Ok? ==> archived.Some? && (archived == timing <==> Settles(old(staged)))
      ensures r.Ok? ==> (archived.value.artifactBytes == bytes <==> Settles(old(staged)))
      ensures r.Ok? ==> bytes == (if S1(old(staged)) == S0(old(staged)) then S0(old(staged)) else S2(old(staged)))
      ensures r.Ok? ==>
        archived == Some(BudgetReport(status, phases, budget,
          if S1(old(staged)) == S0(old(staged)) then S0(old(staged)) else S1(old(staged))))
      ensures (forall n :: evidenceValid(n)) && Fits(old(staged)) && WithinBudget() ==> r.Ok?
    {
      var fits := ArchiveStaging();
      if !fits { return Err(TooLarge); }
      var report := UpdateMetrics();
      if report.None? { return Err(BadEvidence); }
      for i := 0 to 2
        invariant attempts == i + 1 && report.Some? && timing == report && bytes <= Limit(status)
        invariant report == Some(BudgetReport(status, phases, budget, bytes))
        invariant bytes == if i == 0 then S0(old(staged)) else if i == 1 then S1(old(staged)) else S2(old(staged))
        invariant i >= 1 ==> archived == Some(BudgetReport(status, phases, budget, S0(old(staged)))) || i == 2
        invariant i == 2 ==> archived == Some(BudgetReport(status, phases, budget, S1(old(staged))))
        invariant i >= 1 ==> S1(old(staged)) != S0(old(staged))
        invariant i == 2 ==> S2(old(staged)) != S1(old(staged))
      {
        staged := timing;
        fits := ArchiveStaging();
        if !fits { return Err(TooLarge); }
        if report.value.artifactBytes == bytes { break; }
        report := UpdateMetrics();
        if report.None? { return Err(BadEvidence); }
      }
      if !report.value.ok { return Err(BudgetExceeded); }
      if report.value.artifactBytes != bytes { return Err(SizeChanged); }
      r := Ok(Bundle(true, status, bytes, FAILURE_LIMIT, SUCCESS_LIMIT, report.value));
    }
  }

  /** An archiver whose files grow each time never settles: packaging succeeds, and the report inside the
      archive states another size than the archive has. */
  method PackageThatDisagrees(status: Status, phases: Phases, budget: Budget, base: nat)
    returns (w: Workspace, r: Result<Bundle, Error>)
    requires base + 2 <= (if status == Success then 2097152 else 52428800)
    requires phases.setup <= budget.setup && phases.test <= budget.test
    requires phases.setup + phases.test + phases.cleanup <= budget.job
    ensures r.Ok? && w.archived.Some? && w.archived != w.timing
    ensures w.archived.value.artifactBytes == base + 1 && w.bytes == base + 2 == r.value.artifactBytes
  {
    w := new Workspace(status, phases, budget, (n, inner) => base + n, n => true, None);
    ghost var first := w.staged;
    assert w.S0(first) == base && w.S1(first) == base + 1 && w.S2(first) == base + 2;
    r := w.PackageEvidence();
  }
}
