/**
 * The entry point (mobilereconx.py): parsed options, the safe-mode clamp of concurrency
 * and delay, the fixed order of flag-selected scans, and the exit code. Each scan is a
 * call into its module; what a call did is an input `outcome(scan)`: it returned, the
 * user interrupted it, or it raised an exception that nothing catches.
 */
module Recon {
  import opened Wrappers
  import opened Seqs
  import DirBrute

  const DefaultConcurrency: int := 10
  const DefaultDelay: real := 0.15
  const SafeConcurrencyCap: int := 8
  const SafeDelayFloor: real := 0.2

  datatype Scan = SubdomainScan | ProbeScan | FingerprintScan | DirScan | CveScan

  /** Position of a scan in the run order. */
  function Rank(s: Scan): nat {
    match s
    case SubdomainScan => 0
    case ProbeScan => 1
    case FingerprintScan => 2
    case DirScan => 3
    case CveScan => 4
  }

  /** A module call with the arguments it receives; `None` for an argument not passed. */
  datatype Call = Call(scan: Scan, domain: string, wordlist: Option<string>,
                       concurrency: Option<int>, delay: Option<real>)

  datatype Ending = Completed | Interrupted | Crashed

  /** `min(c, 8)`: at most 8, and unchanged when already at most 8. */
  function SafeConcurrency(c: int): (r: int)
    ensures r <= SafeConcurrencyCap && r <= c
    ensures c <= SafeConcurrencyCap ==> r == c
    ensures c > SafeConcurrencyCap ==> r == SafeConcurrencyCap
  {
    if c < SafeConcurrencyCap then c else SafeConcurrencyCap
  }

  /** `max(d, 0.2)`: at least 0.2, and unchanged when already at least 0.2. */
  function SafeDelay(d: real): (r: real)
    ensures r >= SafeDelayFloor && r >= d
    ensures d >= SafeDelayFloor ==> r == d
    ensures d < SafeDelayFloor ==> r == SafeDelayFloor
  {
    if d > SafeDelayFloor then d else SafeDelayFloor
  }

  /** Clamping twice is clamping once. */
  lemma {:induction false} SafeClampIdempotent(c: int, d: real)
    ensures SafeConcurrency(SafeConcurrency(c)) == SafeConcurrency(c)
    ensures SafeDelay(SafeDelay(d)) == SafeDelay(d)
  {
  }

  /** The calls made, in order: each until and including the first that did not complete. */
  function Executed(plan: seq<Call>, outcome: Scan -> Ending): seq<Call> {
    if plan == [] then []
    else if outcome(plan[0].scan) == Completed then [plan[0]] + Executed(plan[1..], outcome)
    else [plan[0]]
  }

  /** How the run stopped early, if it did: the ending of the first call that did not complete. */
  function Halt(plan: seq<Call>, outcome: Scan -> Ending): Option<Ending> {
    if plan == [] then None
    else if outcome(plan[0].scan) == Completed then Halt(plan[1..], outcome)
    else Some(outcome(plan[0].scan))
  }

  /**
   * The calls made are a prefix of the plan, all but the last completed; the whole plan
   * is made exactly when the run does not stop early, and otherwise the last call made
   * is the one whose ending stopped it.
   */
  lemma {:induction false} ExecutedSpec(plan: seq<Call>, outcome: Scan -> Ending)
    ensures Executed(plan, outcome) <= plan
    ensures forall k :: 0 <= k < |Executed(plan, outcome)| - 1 ==> outcome(Executed(plan, outcome)[k].scan) == Completed
    ensures Halt(plan, outcome).None? <==> forall k :: 0 <= k < |plan| ==> outcome(plan[k].scan) == Completed
    ensures Halt(plan, outcome).None? ==> Executed(plan, outcome) == plan
    ensures Halt(plan, outcome).Some? ==>
              && Halt(plan, outcome).value != Completed
              && Executed(plan, outcome) != []
              && outcome(Executed(plan, outcome)[|Executed(plan, outcome)| - 1].scan) == Halt(plan, outcome).value
  {
    ExecutedPrefix(plan, outcome);
    HaltNone(plan, outcome);
    HaltSome(plan, outcome);
  }

  lemma {:induction false} ExecutedPrefix(plan: seq<Call>, outcome: Scan -> Ending)
    ensures Executed(plan, outcome) <= plan
    ensures forall k :: 0 <= k < |Executed(plan, outcome)| - 1 ==> outcome(Executed(plan, outcome)[k].scan) == Completed
  {
    if plan != [] && outcome(plan[0].scan) == Completed {
      var rest := Executed(plan[1..], outcome);
      ExecutedPrefix(plan[1..], outcome);
      assert Executed(plan, outcome) == [plan[0]] + rest;
      forall k | 1 <= k < |rest|
        ensures outcome(([plan[0]] + rest)[k].scan) == Completed
      {
        assert ([plan[0]] + rest)[k] == rest[k - 1];
      }
    }
  }

  lemma {:induction false} HaltNone(plan: seq<Call>, outcome: Scan -> Ending)
    ensures Halt(plan, outcome).None? <==> forall k :: 0 <= k < |plan| ==> outcome(plan[k].scan) == Completed
    ensures Halt(plan, outcome).None? ==> Executed(plan, outcome) == plan
  {
    if plan != [] && outcome(plan[0].scan) == Completed {
      HaltNone(plan[1..], outcome);
      assert forall k :: 1 <= k < |plan| ==> plan[k] == plan[1..][k - 1];
      assert plan == [plan[0]] + plan[1..];
    }
  }

  lemma {:induction false} HaltSome(plan: seq<Call>, outcome: Scan -> Ending)
    ensures Halt(plan, outcome).Some? ==>
              && Halt(plan, outcome).value != Completed
              && Executed(plan, outcome) != []
              && outcome(Executed(plan, outcome)[|Executed(plan, outcome)| - 1].scan) == Halt(plan, outcome).value
  {
    if plan != [] && outcome(plan[0].scan) == Completed {
      HaltSome(plan[1..], outcome);
    }
  }

  /** Running a further plan after `a` continues exactly when `a` ran to its end. */
  lemma {:induction false} ExecutedAppend(a: seq<Call>, b: seq<Call>, outcome: Scan -> Ending)
    ensures Executed(a + b, outcome)
         == if Halt(a, outcome).None? then Executed(a, outcome) + Executed(b, outcome) else Executed(a, outcome)
  {
    if a == [] {
      assert a + b == b;
    } else {
      assert (a + b)[1..] == a[1..] + b;
      if outcome(a[0].scan) == Completed {
        ExecutedAppend(a[1..], b, outcome);
        if Halt(a, outcome).None? {
          calc {
            Executed(a + b, outcome);
            [a[0]] + Executed(a[1..] + b, outcome);
            [a[0]] + (Executed(a[1..], outcome) + Executed(b, outcome));
            ([a[0]] + Executed(a[1..], outcome)) + Executed(b, outcome);
          }
        }
      }
    }
  }

  /** The run stops within `a + b` where it stops within `a`, else where it stops within `b`. */
  lemma {:induction false} HaltAppend(a: seq<Call>, b: seq<Call>, outcome: Scan -> Ending)
    ensures Halt(a + b, outcome) == if Halt(a, outcome).None? then Halt(b, outcome) else Halt(a, outcome)
  {
    if a == [] {
      assert a + b == b;
    } else {
      assert (a + b)[1..] == a[1..] + b;
      if outcome(a[0].scan) == Completed {
        HaltAppend(a[1..], b, outcome);
      }
    }
  }

  /** The exit status of a run that got past the domain check. */
  function ExitCode(halt: Option<Ending>): (code: int)
    ensures code == 1 <==> halt == Some(Crashed)
    ensures code == 0 <==> halt != Some(Crashed)
  {
    if halt == Some(Crashed) then 1 else 0
  }

  /** The parsed command line. */
  class Options {
    var domain: string
    var full: bool
    var sub: bool
    var probe: bool
    var finger: bool
    var dir: bool
    var cve: bool
    var safe: bool
    var concurrency: int
    var delay: real

    /** Options with the given domain and flags, and the default concurrency and delay. */
    constructor (domain: string, full: bool, sub: bool, probe: bool, finger: bool,
                 dir: bool, cve: bool, safe: bool)
      ensures this.domain == domain && this.full == full && this.sub == sub
      ensures this.probe == probe && this.finger == finger && this.dir == dir
      ensures this.cve == cve && this.safe == safe
      ensures concurrency == DefaultConcurrency && delay == DefaultDelay
    {
      this.domain := domain;
      this.full := full;
      this.sub := sub;
      this.probe := probe;
      this.finger := finger;
      this.dir := dir;
      this.cve := cve;
      this.safe := safe;
      concurrency := DefaultConcurrency;
      delay := DefaultDelay;
    }

    /** In safe mode, concurrency becomes `min(c, 8)` and delay `max(d, 0.2)`; otherwise nothing changes. */
    method ClampIfSafe()
      modifies this
      ensures safe ==> concurrency == SafeConcurrency(old(concurrency)) && delay == SafeDelay(old(delay))
      ensures !safe ==> concurrency == old(concurrency) && delay == old(delay)
      ensures domain == old(domain) && full == old(full) && sub == old(sub) && probe == old(probe)
      ensures finger == old(finger) && dir == old(dir) && cve == old(cve) && safe == old(safe)
    {
      if safe {
        concurrency := SafeConcurrency(concurrency);
        delay := SafeDelay(delay);
      }
    }

    /** A scan runs when `--full` or its own flag is set. */
    predicate Enabled(s: Scan)
      reads this
    {
      full || match s
              case SubdomainScan => sub
              case ProbeScan => probe
              case FingerprintScan => finger
              case DirScan => dir
              case CveScan => cve
    }

    /** The call for a scan: the directory scan also gets the word list; the CVE scan gets no pacing. */
    function CallFor(s: Scan): Call
      reads this
    {
      Call(s, domain,
           if s == DirScan then Some(DirBrute.DefaultWordlist) else None,
           if s == CveScan then None else Some(concurrency),
           if s == CveScan then None else Some(delay))
    }

    /** The call for `s` when its scan is enabled. */
    function Stage(s: Scan): seq<Call>
      reads this
    {
      if Enabled(s) then [CallFor(s)] else []
    }

    /** The calls `main` makes when nothing stops it: the enabled scans in the fixed order. */
    function Plan(): seq<Call>
      reads this
    {
      Somes(Slots(this))
    }
  }

  /** For each scan in run order, its call when enabled. */
  function Slots(opts: Options): seq<Option<Call>>
    reads opts
  {
    seq(|AllScans|, i requires 0 <= i < |AllScans| reads opts =>
      if opts.Enabled(AllScans[i]) then Some(opts.CallFor(AllScans[i])) else None)
  }

  /** The scans in the order `main` tries them. */
  const AllScans: seq<Scan> := [SubdomainScan, ProbeScan, FingerprintScan, DirScan, CveScan]

  /** Each planned call is the call of an enabled scan, at the position of that scan's slot. */
  lemma {:induction false} PlanSlots(opts: Options)
    ensures |opts.Plan()| == |SomePositions(Slots(opts))| <= 5
    ensures forall k :: 0 <= k < |opts.Plan()| ==>
              && SomePositions(Slots(opts))[k] < 5
              && opts.Plan()[k].scan == AllScans[SomePositions(Slots(opts))[k]]
              && opts.Enabled(opts.Plan()[k].scan)
              && opts.Plan()[k] == opts.CallFor(opts.Plan()[k].scan)
    ensures forall i, j :: 0 <= i < j < |opts.Plan()| ==>
              SomePositions(Slots(opts))[i] < SomePositions(Slots(opts))[j]
    ensures forall i :: 0 <= i < 5 && opts.Enabled(AllScans[i]) ==> i in SomePositions(Slots(opts))
  {
    SomesSpec(Slots(opts));
  }

  /** Every planned call carries the arguments `main` passes to that scan. */
  lemma {:induction false} PlanCalls(opts: Options)
    ensures forall k :: 0 <= k < |opts.Plan()| ==>
              && opts.Plan()[k].domain == opts.domain
              && (opts.Plan()[k].scan == DirScan <==> opts.Plan()[k].wordlist == Some(DirBrute.DefaultWordlist))
              && (opts.Plan()[k].scan != DirScan ==> opts.Plan()[k].wordlist.None?)
              && (opts.Plan()[k].scan == CveScan ==> opts.Plan()[k].concurrency.None? && opts.Plan()[k].delay.None?)
              && (opts.Plan()[k].scan != CveScan ==>
                    opts.Plan()[k].concurrency == Some(opts.concurrency) && opts.Plan()[k].delay == Some(opts.delay))
  {
    PlanSlots(opts);
  }

  /**
   * The plan holds one call per enabled scan and only those, in the order subdomains,
   * probe, fingerprint, directories, CVE; each with the domain; the directory scan with
   * the fixed word list; the CVE scan without concurrency or delay and every other scan
   * with the current ones.
   */
  lemma {:induction false} PlanSpec(opts: Options)
    ensures |opts.Plan()| <= 5
    ensures forall s :: opts.Enabled(s) <==> exists k :: 0 <= k < |opts.Plan()| && opts.Plan()[k].scan == s
    ensures forall i, j :: 0 <= i < j < |opts.Plan()| ==> Rank(opts.Plan()[i].scan) < Rank(opts.Plan()[j].scan)
    ensures forall k :: 0 <= k < |opts.Plan()| ==>
              && opts.Plan()[k].domain == opts.domain
              && (opts.Plan()[k].scan == DirScan <==> opts.Plan()[k].wordlist == Some(DirBrute.DefaultWordlist))
              && (opts.Plan()[k].scan != DirScan ==> opts.Plan()[k].wordlist.None?)
              && (opts.Plan()[k].scan == CveScan ==> opts.Plan()[k].concurrency.None? && opts.Plan()[k].delay.None?)
              && (opts.Plan()[k].scan != CveScan ==>
                    opts.Plan()[k].concurrency == Some(opts.concurrency) && opts.Plan()[k].delay == Some(opts.delay))
  {
    PlanSlots(opts);
    PlanCalls(opts);
    PlanOrdered(opts);
    PlanCovers(opts);
  }

  /** The planned calls follow the order of `main`, so no scan is planned twice. */
  lemma {:induction false} PlanOrdered(opts: Options)
    ensures forall i, j :: 0 <= i < j < |opts.Plan()| ==> Rank(opts.Plan()[i].scan) < Rank(opts.Plan()[j].scan)
  {
    PlanSlots(opts);
    var r, pos := opts.Plan(), SomePositions(Slots(opts));
    forall i, j | 0 <= i < j < |r|
      ensures Rank(r[i].scan) < Rank(r[j].scan)
    {
      assert Rank(AllScans[pos[i]]) == pos[i] && Rank(AllScans[pos[j]]) == pos[j];
    }
  }

  /** A scan is planned exactly when its flag is set. */
  lemma {:induction false} PlanCovers(opts: Options)
    ensures forall s :: opts.Enabled(s) <==> exists k :: 0 <= k < |opts.Plan()| && opts.Plan()[k].scan == s
  {
    PlanSlots(opts);
    var r, pos := opts.Plan(), SomePositions(Slots(opts));
    forall s
      ensures opts.Enabled(s) <==> exists k :: 0 <= k < |r| && r[k].scan == s
    {
      assert AllScans[Rank(s)] == s;
      if opts.Enabled(s) {
        var k :| 0 <= k < |pos| && pos[k] == Rank(s);
        assert r[k].scan == s;
      }
    }
  }

  /** The plan is the flag-guarded calls of `main`, one after the other. */
  lemma {:induction false} PlanAsStages(opts: Options)
    ensures opts.Plan() == opts.Stage(SubdomainScan) + opts.Stage(ProbeScan) + opts.Stage(FingerprintScan)
                           + opts.Stage(DirScan) + opts.Stage(CveScan)
  {
    var slots := Slots(opts);
    assert slots[..4][..3][..2][..1][..0] == [];
    assert Somes(slots[..1]) == opts.Stage(SubdomainScan);
    assert Somes(slots[..2]) == opts.Stage(SubdomainScan) + opts.Stage(ProbeScan) by {
      assert slots[..2][..1] == slots[..1];
    }
    assert Somes(slots[..3]) == Somes(slots[..2]) + opts.Stage(FingerprintScan) by {
      assert slots[..3][..2] == slots[..2];
    }
    assert Somes(slots[..4]) == Somes(slots[..3]) + opts.Stage(DirScan) by {
      assert slots[..4][..3] == slots[..3];
    }
    assert Somes(slots) == Somes(slots[..4]) + opts.Stage(CveScan);
  }

  /** `--full` runs every scan, in the fixed order. */
  lemma {:induction false} FullPlan(opts: Options)
    requires opts.full
    ensures |opts.Plan()| == 5
    ensures forall k :: 0 <= k < 5 ==> Rank(opts.Plan()[k].scan) == k
  {
    PlanAsStages(opts);
  }

  /**
   * One flag-guarded call of `main`: `stage` is the call when its scan is enabled and
   * empty otherwise; nothing is called once the run has stopped.
   */
  method Step(stage: seq<Call>, outcome: Scan -> Ending, ghost done: seq<Call>,
              started: seq<Call>, halted: Option<Ending>)
    returns (started': seq<Call>, halted': Option<Ending>)
    requires |stage| <= 1
    requires started == Executed(done, outcome) && halted == Halt(done, outcome)
    ensures started' == Executed(done + stage, outcome)
    ensures halted' == Halt(done + stage, outcome)
  {
    ExecutedAppend(done, stage, outcome);
    HaltAppend(done, stage, outcome);
    started', halted' := started, halted;
    if halted.None? && stage != [] {
      var call := stage[0];
      started' := started + [call];
      halted' := if outcome(call.scan) == Completed then None else Some(outcome(call.scan));
      assert stage == [call];
    }
  }

  /** The `try` block of `main`: the flag-guarded calls, in order, until one does not complete. */
  method RunScans(opts: Options, outcome: Scan -> Ending) returns (exit: int, started: seq<Call>)
    ensures started == Executed(opts.Plan(), outcome)
    ensures exit == ExitCode(Halt(opts.Plan(), outcome))
  {
    var sub, probe, finger := opts.Stage(SubdomainScan), opts.Stage(ProbeScan), opts.Stage(FingerprintScan);
    var dir, cve := opts.Stage(DirScan), opts.Stage(CveScan);
    PlanAsStages(opts);
    var halted: Option<Ending> := None;
    started := [];
    started, halted := Step(sub, outcome, [], started, halted);
    assert [] + sub == sub;
    started, halted := Step(probe, outcome, sub, started, halted);
    started, halted := Step(finger, outcome, sub + probe, started, halted);
    started, halted := Step(dir, outcome, sub + probe + finger, started, halted);
    started, halted := Step(cve, outcome, sub + probe + finger + dir, started, halted);
    exit := ExitCode(halted);
  }

  /**
   * `main` after parsing: an empty domain exits with 1 before anything runs; otherwise
   * the options are clamped in safe mode and the planned calls are made in order until
   * one does not complete. A user interrupt exits with 0, an escaping exception with 1,
   * and a run that completes exits with 0.
   */
  method Launch(opts: Options, outcome: Scan -> Ending) returns (exit: int, started: seq<Call>)
    modifies opts
    ensures old(opts.domain) == [] ==> exit == 1 && started == [] && unchanged(opts)
    ensures old(opts.domain) != [] ==>
              && opts.domain == old(opts.domain) && opts.safe == old(opts.safe)
              && opts.full == old(opts.full) && opts.sub == old(opts.sub) && opts.probe == old(opts.probe)
              && opts.finger == old(opts.finger) && opts.dir == old(opts.dir) && opts.cve == old(opts.cve)
              && (opts.safe ==> opts.concurrency == SafeConcurrency(old(opts.concurrency))
                                && opts.delay == SafeDelay(old(opts.delay)))
              && (!opts.safe ==> opts.concurrency == old(opts.concurrency) && opts.delay == old(opts.delay))
              && started == Executed(opts.Plan(), outcome)
              && exit == ExitCode(Halt(opts.Plan(), outcome))
  {
    if opts.domain == [] {
      return 1, [];
    }
    opts.ClampIfSafe();
    exit, started := RunScans(opts, outcome);
  }

  /** A user interrupt ends the run with status 0, and the interrupted scan is the last one started. */
  lemma {:induction false} InterruptExitsZero(plan: seq<Call>, outcome: Scan -> Ending)
    requires Halt(plan, outcome) == Some(Interrupted)
    ensures ExitCode(Halt(plan, outcome)) == 0
    ensures Executed(plan, outcome) != []
    ensures outcome(Executed(plan, outcome)[|Executed(plan, outcome)| - 1].scan) == Interrupted
  {
    ExecutedSpec(plan, outcome);
  }
}
