/** The mock executor (lib/lino/executors/mock.rb): it records every
    command line it is asked to run, with the options and the exit code in
    force at the time, and fails with an execution error when that exit code
    is non-zero. The process-spawning executors are not part of this model. */
module Executors {
  import opened Wrappers
  import opened ModelCommandLine

  /** The error raised for a non-zero exit code: the display string of the
      command line and the exit code. */
  datatype ExecutionError = ExecutionError(commandLine: string, exitCode: int)

  /** One recorded call. */
  datatype Call = Call(commandLine: CommandLine, opts: map<string, string>, exitCode: int)

  /** What running `cl` under exit code `exitCode` returns: success for 0,
      otherwise the error naming the command line's string and the code. */
  function ExecutionOutcome(cl: CommandLine, exitCode: int): (r: Outcome<ExecutionError>)
    ensures r.Pass? <==> exitCode == 0
    ensures r.Fail? ==> r.error.commandLine == cl.String() && r.error.exitCode == exitCode
  {
    if exitCode == 0 then Pass else Fail(ExecutionError(cl.String(), exitCode))
  }

  class Mock {
    var calls: seq<Call>
    var exitCode: int

    /** A new mock has recorded nothing and succeeds. */
    constructor()
      ensures calls == [] && exitCode == 0
    {
      calls := [];
      exitCode := 0;
    }

    /** `execute`: records the call, with the current exit code, whether or
        not it then fails; the exit code itself is left as it is. */
    method Execute(cl: CommandLine, opts: map<string, string>) returns (r: Outcome<ExecutionError>)
      modifies this
      ensures calls == old(calls) + [Call(cl, opts, old(exitCode))]
      ensures exitCode == old(exitCode)
      ensures r == ExecutionOutcome(cl, exitCode)
    {
      calls := calls + [Call(cl, opts, exitCode)];
      r := ExecutionOutcome(cl, exitCode);
    }

    /** `reset`: forgets every call and succeeds again. */
    method Reset()
      modifies this
      ensures calls == [] && exitCode == 0
    {
      calls := [];
      exitCode := 0;
    }

    /** `exit_code=`: the code later calls run under; calls are kept. */
    method SetExitCode(code: int)
      modifies this
      ensures exitCode == code && calls == old(calls)
    {
      exitCode := code;
    }
  }

  /** `CommandLine#execute` with the mock as executor: the command line is
      handed to the mock together with the options. */
  method ExecuteCommandLine(cl: CommandLine, opts: map<string, string>, mock: Mock) returns (r: Outcome<ExecutionError>)
    requires cl.executor == MockExecutor
    modifies mock
    ensures mock.calls == old(mock.calls) + [Call(cl, opts, old(mock.exitCode))]
    ensures mock.exitCode == old(mock.exitCode)
    ensures r.Pass? <==> mock.exitCode == 0
    ensures r.Fail? ==> r.error == ExecutionError(cl.String(), mock.exitCode)
  {
    r := mock.Execute(cl, opts);
  }

  /** A sequence of calls against one mock: each call is recorded in order,
      the first failure is reported, and a reset empties the record. */
  method RecordInOrder(first: CommandLine, second: CommandLine) returns (calls: seq<Call>, failed: Outcome<ExecutionError>)
    ensures calls == [Call(first, map[], 0), Call(second, map[], 1)]
    ensures failed == Fail(ExecutionError(second.String(), 1))
  {
    var mock := new Mock();
    var ok := mock.Execute(first, map[]);
    assert ok == Pass;
    mock.SetExitCode(1);
    failed := mock.Execute(second, map[]);
    calls := mock.calls;
    mock.Reset();
    assert mock.calls == [];
  }
}
