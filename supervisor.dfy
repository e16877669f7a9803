/**
 * The process-supervisor half of `UlsInputCli` (bin/modules/UlsInputCli.py):
 * the bounded retry loop of `proc_create` and the liveness check
 * `check_proc`.
 *
 * Spawning a process and polling it belong to the operating system: the
 * outcome of the attempt made while `rerun_counter` is `k` is `outcomes(k)`,
 * given by the caller.  A spawned process is identified by the attempt that
 * started it.  The settle and retry sleeps take no part in the logic.
 */
module Supervisor {
  import opened Wrappers
  import opened CommandBuilder

  /** What `poll()` on the spawned process gives: still running, an exit status, or an exception. */
  datatype Poll = NotExited | ExitCode(returnCode: int) | PollRaised

  /** One start attempt: `Popen` raised, or it spawned a process whose later poll is given. */
  datatype Attempt = SpawnRaised | Spawned(poll: Poll)

  /** The attempt leaves a process that is still alive after the settle delay. */
  predicate Alive(a: Attempt) {
    a.Spawned? && a.poll.NotExited?
  }

  /** A spawned producer process; `stderrPiped` is false once its error stream is discarded. */
  datatype ProcHandle = ProcHandle(attempt: nat, command: seq<string>, stderrPiped: bool)

  /** The standard output of the process started by `attempt`. */
  datatype OutputStream = OutputStream(attempt: nat, nonBlocking: bool)

  /** The supervisor's state: the `running` flag, `rerun_counter`, and the current process and its output. */
  datatype Session = Session(running: bool, counter: nat, proc: Option<ProcHandle>, output: Option<OutputStream>)

  /**
   * One pass through the `try`/`except` of `proc_create`: a failed spawn only
   * counts a failure; a spawned process becomes the current one with its
   * output switched to non-blocking, and is either kept (running, error
   * stream discarded) or counted as a failure.
   */
  function Step(s: Session, cmd: seq<string>, a: Attempt): (t: Session)
    requires !s.running
    ensures t.running <==> Alive(a)
    ensures t.counter == if Alive(a) then s.counter else s.counter + 1
    ensures a.SpawnRaised? ==> t.proc == s.proc && t.output == s.output
    ensures a.Spawned? ==> t.output == Some(OutputStream(s.counter, true))
                           && t.proc.Some? && t.proc.value.attempt == s.counter && t.proc.value.command == cmd
    ensures t.running ==> !t.proc.value.stderrPiped
  {
    match a
    case SpawnRaised => s.(counter := s.counter + 1)
    case Spawned(poll) =>
      var spawned := ProcHandle(s.counter, cmd, true);
      var output := Some(OutputStream(s.counter, true));
      if poll.NotExited? then Session(true, s.counter, Some(spawned.(stderrPiped := false)), output)
      else Session(false, s.counter + 1, Some(spawned), output)
  }

  /** The `while` loop of `proc_create`: step until running or `counter > retries`. */
  function RunLoop(s: Session, retries: int, cmd: seq<string>, outcomes: nat -> Attempt): (f: Session)
    ensures f.running || f.counter > retries
    ensures s.counter <= f.counter
    ensures s.counter <= retries + 1 ==> f.counter <= retries + 1
    ensures s.running || s.counter > retries ==> f == s
    ensures !f.running ==> f.proc == s.proc || (f.proc.Some? && s.counter <= f.proc.value.attempt < f.counter)
    decreases if !s.running && s.counter <= retries then retries - s.counter + 1 else 0
  {
    if s.running || s.counter > retries then s
    else RunLoop(Step(s, cmd, outcomes(s.counter)), retries, cmd, outcomes)
  }

  /** The first attempt number in `from..to` whose outcome is alive, if any. */
  function FirstAlive(outcomes: nat -> Attempt, from: nat, to: int): (r: Option<nat>)
    ensures r.Some? ==> from <= r.value <= to && Alive(outcomes(r.value))
                        && forall j :: from <= j < r.value ==> !Alive(outcomes(j))
    ensures r.None? ==> forall j :: from <= j <= to ==> !Alive(outcomes(j))
    decreases if from <= to then to - from + 1 else 0
  {
    if from > to then None
    else if Alive(outcomes(from)) then Some(from)
    else FirstAlive(outcomes, from + 1, to)
  }

  /**
   * The loop stops at the first alive attempt, keeping that process with a
   * non-blocking output; with no alive attempt it ends not running, one
   * failure past the budget.
   */
  lemma {:induction false} RunLoopFirstAlive(s: Session, retries: int, cmd: seq<string>, outcomes: nat -> Attempt)
    requires !s.running
    ensures var f := RunLoop(s, retries, cmd, outcomes);
            var k := FirstAlive(outcomes, s.counter, retries);
            && (k.Some? ==> f.running && f.counter == k.value
                            && f.proc == Some(ProcHandle(k.value, cmd, false))
                            && f.output == Some(OutputStream(k.value, true)))
            && (k.None? ==> !f.running && f.counter == if s.counter <= retries then retries + 1 else s.counter)
    decreases if s.counter <= retries then retries - s.counter + 1 else 0
  {
    if s.counter <= retries {
      var t := Step(s, cmd, outcomes(s.counter));
      if !t.running {
        RunLoopFirstAlive(t, retries, cmd, outcomes);
      }
    }
  }

  /** What `proc_create` ends with: its verdict and the supervisor's state. */
  datatype Report = Report(verdict: Outcome<Fatal>, final: Session)

  /**
   * `proc_create` from the state `init` (whose counter is the initial
   * `rerun_counter` of 1): nothing happens when already running or when the
   * retry budget is below 1; a configuration error is fatal before any
   * spawn; otherwise the retry loop runs, and ending it not running is fatal.
   */
  function Supervise(cfg: Config, req: Request, outcomes: nat -> Attempt, lower: string -> string,
                     tokenize: string -> Option<seq<string>>, init: Session): (r: Report)
    requires cfg.Valid()
    ensures r.verdict.Pass? ==> r.final.running || r.final == init
    ensures r.verdict.Fail? ==> !r.final.running
    ensures r.verdict.Fail? && !r.verdict.error.RetriesExhausted? ==> r.final == init
    ensures init.counter == 1 && r.verdict.Fail? && r.verdict.error.RetriesExhausted? ==>
              r.verdict.error.retries == cfg.inputRerunRetries
  {
    if init.running || init.counter > cfg.inputRerunRetries then Report(Pass, init)
    else
      match BuildCommand(cfg, req, lower, tokenize)
      case Failure(e) => Report(Fail(e), init)
      case Success(built) =>
        var f := RunLoop(init, cfg.inputRerunRetries, built.command, outcomes);
        Report(if f.running then Pass else Fail(RetriesExhausted(f.counter - 1)), f)
  }

  /** The state `proc_create` starts its loop from. */
  function Start(running: bool, proc: Option<ProcHandle>, output: Option<OutputStream>): Session {
    Session(running, 1, proc, output)
  }

  /**
   * With a valid command and an alive attempt within budget, the supervisor
   * returns running on the first alive attempt `k`, after `k - 1` failures,
   * so it never makes more than `rerun_retries` attempts.
   */
  lemma SuperviseStartsFirstAlive(cfg: Config, req: Request, outcomes: nat -> Attempt, lower: string -> string,
                                  tokenize: string -> Option<seq<string>>, proc: Option<ProcHandle>,
                                  output: Option<OutputStream>, k: nat)
    requires cfg.Valid()
    requires BuildCommand(cfg, req, lower, tokenize).Success?
    requires FirstAlive(outcomes, 1, cfg.inputRerunRetries) == Some(k)
    ensures var rep := Supervise(cfg, req, outcomes, lower, tokenize, Start(false, proc, output));
            && rep.verdict == Pass
            && rep.final.running
            && rep.final.counter == k
            && 1 <= k <= cfg.inputRerunRetries
            && rep.final.proc == Some(ProcHandle(k, BuildCommand(cfg, req, lower, tokenize).value.command, false))
            && rep.final.output == Some(OutputStream(k, true))
  {
    RunLoopFirstAlive(Start(false, proc, output), cfg.inputRerunRetries,
                      BuildCommand(cfg, req, lower, tokenize).value.command, outcomes);
  }

  /**
   * With a valid command, a budget of at least one and no alive attempt, the
   * supervisor gives up right after the `rerun_retries`-th failure.
   */
  lemma SuperviseGivesUp(cfg: Config, req: Request, outcomes: nat -> Attempt, lower: string -> string,
                         tokenize: string -> Option<seq<string>>, proc: Option<ProcHandle>, output: Option<OutputStream>)
    requires cfg.Valid()
    requires cfg.inputRerunRetries >= 1
    requires BuildCommand(cfg, req, lower, tokenize).Success?
    requires forall j :: 1 <= j <= cfg.inputRerunRetries ==> !Alive(outcomes(j))
    ensures var rep := Supervise(cfg, req, outcomes, lower, tokenize, Start(false, proc, output));
            && rep.verdict == Fail(RetriesExhausted(cfg.inputRerunRetries))
            && !rep.final.running
            && rep.final.counter - 1 == cfg.inputRerunRetries
  {
    var s := Start(false, proc, output);
    var cmd := BuildCommand(cfg, req, lower, tokenize).value.command;
    RunLoopFirstAlive(s, cfg.inputRerunRetries, cmd, outcomes);
  }

  /** The supervisor ends running exactly when some attempt within budget is alive. */
  lemma SuperviseRunningIff(cfg: Config, req: Request, outcomes: nat -> Attempt, lower: string -> string,
                            tokenize: string -> Option<seq<string>>, proc: Option<ProcHandle>, output: Option<OutputStream>)
    requires cfg.Valid()
    requires BuildCommand(cfg, req, lower, tokenize).Success?
    ensures Supervise(cfg, req, outcomes, lower, tokenize, Start(false, proc, output)).final.running
        <==> exists k :: 1 <= k <= cfg.inputRerunRetries && Alive(outcomes(k))
    ensures Supervise(cfg, req, outcomes, lower, tokenize, Start(false, proc, output)).verdict.Fail?
        <==> cfg.inputRerunRetries >= 1 && forall k :: 1 <= k <= cfg.inputRerunRetries ==> !Alive(outcomes(k))
  {
    var s := Start(false, proc, output);
    var cmd := BuildCommand(cfg, req, lower, tokenize).value.command;
    RunLoopFirstAlive(s, cfg.inputRerunRetries, cmd, outcomes);
    var first := FirstAlive(outcomes, 1, cfg.inputRerunRetries);
    if first.Some? {
      assert Alive(outcomes(first.value));
    }
  }

  /**
   * A construction error (unknown product, invalid feed, invalid format, a
   * raw command that cannot be split) ends `proc_create` before any process
   * is spawned, provided the loop is entered.
   */
  lemma SuperviseConfigError(cfg: Config, req: Request, outcomes: nat -> Attempt, lower: string -> string,
                             tokenize: string -> Option<seq<string>>, proc: Option<ProcHandle>, output: Option<OutputStream>)
    requires cfg.Valid()
    requires cfg.inputRerunRetries >= 1
    requires BuildCommand(cfg, req, lower, tokenize).Failure?
    ensures var rep := Supervise(cfg, req, outcomes, lower, tokenize, Start(false, proc, output));
            && rep.verdict == Fail(BuildCommand(cfg, req, lower, tokenize).error)
            && !rep.verdict.error.RetriesExhausted?
            && rep.final == Start(false, proc, output)
    ensures ParseProduct(req.product).None? ==>
              Supervise(cfg, req, outcomes, lower, tokenize, Start(false, proc, output)).verdict
              == Fail(UnknownProduct(req.product))
  {
  }

  /** With a retry budget below 1, or when already running, nothing is attempted and nothing is fatal. */
  lemma SuperviseNoAttempt(cfg: Config, req: Request, outcomes: nat -> Attempt, lower: string -> string,
                           tokenize: string -> Option<seq<string>>, running: bool, proc: Option<ProcHandle>,
                           output: Option<OutputStream>)
    requires cfg.Valid()
    requires running || cfg.inputRerunRetries < 1
    ensures Supervise(cfg, req, outcomes, lower, tokenize, Start(running, proc, output))
         == Report(Pass, Start(running, proc, output))
  {
  }

  /** The supervisor object: its copies of the retry settings and its mutable process state. */
  class UlsInputCli {
    const config: Config
    const runDelay: int
    const rerunRetries: int
    const rerunDelay: int
    const binPython: string
    var running: bool
    var proc: Option<ProcHandle>
    var procOutput: Option<OutputStream>

    /** The settings were copied from the configuration. */
    ghost predicate Valid() {
      && runDelay == config.inputRunDelay
      && rerunRetries == config.inputRerunRetries
      && rerunDelay == config.inputRerunDelay
      && binPython == config.binPython
    }

    constructor (config: Config)
      ensures Valid() && this.config == config
      ensures !running && proc.None? && procOutput.None?
    {
      this.config := config;
      runDelay := config.inputRunDelay;
      rerunRetries := config.inputRerunRetries;
      rerunDelay := config.inputRerunDelay;
      binPython := config.binPython;
      running := false;
      proc := None;
      procOutput := None;
    }

    /**
     * `check_proc`: alive exactly when there is a process and its poll says
     * it has not exited; an exception while asking counts as not alive.
     */
    method CheckProc(poll: Poll) returns (alive: bool)
      ensures alive <==> proc.Some? && poll.NotExited?
    {
      if proc.None? {
        return false;
      }
      match poll
      case NotExited => return true;
      case ExitCode(_) => return false;
      case PollRaised => return false;
    }

    /**
     * The `try`/`except` block of `proc_create`: spawn with the command, make
     * the new process current with a non-blocking output, ask `check_proc`,
     * and either mark the supervisor running (dropping the error stream) or
     * count a failure.
     */
    method TryStart(rerunCounter: nat, cliCommand: seq<string>, outcome: Attempt) returns (counter: nat)
      requires !running
      modifies this
      ensures Session(running, counter, proc, procOutput)
           == Step(Session(false, rerunCounter, old(proc), old(procOutput)), cliCommand, outcome)
    {
      counter := rerunCounter;
      match outcome {
        case SpawnRaised =>
          running := false;
          counter := counter + 1;
        case Spawned(poll) =>
          var cliProc := ProcHandle(counter, cliCommand, true);
          proc := Some(cliProc);
          procOutput := Some(OutputStream(counter, true));
          var alive := CheckProc(poll);
          if alive {
            running := true;
            proc := Some(cliProc.(stderrPiped := false));
          } else {
            running := false;
            counter := counter + 1;
          }
      }
    }

    /**
     * `proc_create`: build the command, spawn, check liveness after the
     * settle delay, and retry up to `rerunRetries` attempts.
     */
    method ProcCreate(req: Request, outcomes: nat -> Attempt, lower: string -> string,
                      tokenize: string -> Option<seq<string>>) returns (r: Outcome<Fatal>)
      requires Valid() && config.Valid()
      modifies this
      ensures var rep := Supervise(config, req, outcomes, lower, tokenize,
                                   Start(old(running), old(proc), old(procOutput)));
              && r == rep.verdict
              && running == rep.final.running
              && proc == rep.final.proc
              && procOutput == rep.final.output
    {
      var rerunCounter: nat := 1;
      var request := req;
      ghost var init := Start(running, proc, procOutput);
      ghost var built := BuildCommand(config, req, lower, tokenize);
      ghost var cmd := if built.Success? then built.value.command else [];
      while !running && rerunCounter <= rerunRetries
        invariant rerunCounter >= 1
        invariant BuildCommand(config, request, lower, tokenize) == built
        invariant Session(running, rerunCounter, proc, procOutput) == init
                  || (built.Success? && !init.running && rerunRetries >= 1)
        invariant !running && rerunCounter > rerunRetries ==> Session(running, rerunCounter, proc, procOutput) == init
        invariant RunLoop(Session(running, rerunCounter, proc, procOutput), rerunRetries, cmd, outcomes)
               == RunLoop(init, rerunRetries, cmd, outcomes)
        decreases rerunRetries - rerunCounter + (if running then 0 else 1)
      {
        var b := AssembleCommand(config, request, lower, tokenize);
        if b.Failure? {
          return Fail(b.error);
        }
        BuildCommandStable(config, request, lower, tokenize);
        request := request.(feed := b.value.feed);
        rerunCounter := TryStart(rerunCounter, b.value.command, outcomes(rerunCounter));
        if !running && rerunCounter > rerunRetries {
          return Fail(RetriesExhausted(rerunCounter - 1));
        }
      }
      return Pass;
    }
  }
}
