/** Running the speed-test binary (`run_speed_test`): the command line built
    from the value parameters and switches, and the run's outcome. The binary
    itself is an oracle. */
module Command {
  import opened Seqs
  import opened Files
  import opened Params

  /** What the binary is asked to do: its path, the value parameters in
      order and the set of switches. */
  datatype Invocation = Invocation(exec: string, values: Values, flags: set<string>)

  /** A run: the exit code and the files it wrote, or a failure to start.
      A run only adds or overwrites files; it never removes one. */
  datatype Run = Exited(code: int, writes: Dir) | NotStarted

  /** The binary, given the invocation and the working directory it finds. */
  type Binary = (Invocation, Dir) -> Run

  /** `d` with the files of `writes` written over it. */
  function Written(d: Dir, writes: Dir): (r: Dir)
    ensures forall name :: name in writes ==> name in r && r[name] == writes[name]
    ensures forall name :: name !in writes ==> (name in r <==> name in d) && (name in d ==> r[name] == d[name])
  {
    d + writes
  }

  /** Whether `cmd` is a command line for `inv`: the executable, then `-k v`
      for every value parameter in order, then `-s` once for every switch
      (in the unspecified order of a Python set). */
  predicate CommandFor(cmd: seq<string>, inv: Invocation) {
    var n := |inv.values|;
    && |cmd| == 1 + 2 * n + |inv.flags|
    && var tail := cmd[1 + 2 * n..];
    && cmd[0] == inv.exec
    && (forall i :: 0 <= i < n ==> cmd[1 + 2 * i] == "-" + inv.values[i].0 && cmd[2 + 2 * i] == inv.values[i].1)
    && NoDup(tail)
    && (forall j :: 0 <= j < |tail| ==> exists p :: p in inv.flags && tail[j] == "-" + p)
    && (forall p :: p in inv.flags ==> "-" + p in tail)
  }

  lemma DashedDistinct(p: string, q: string)
    ensures "-" + p == "-" + q ==> p == q
  {
    if "-" + p == "-" + q {
      assert p == ("-" + p)[1..];
      assert q == ("-" + q)[1..];
    }
  }

  /** The value part of the command line, in dictionary order. */
  method ValueArgs(exec: string, values: Values) returns (cmd: seq<string>)
    ensures |cmd| == 1 + 2 * |values| && cmd[0] == exec
    ensures forall i :: 0 <= i < |values| ==> cmd[1 + 2 * i] == "-" + values[i].0 && cmd[2 + 2 * i] == values[i].1
  {
    cmd := [exec];
    for i := 0 to |values|
      invariant |cmd| == 1 + 2 * i && cmd[0] == exec
      invariant forall k :: 0 <= k < i ==> cmd[1 + 2 * k] == "-" + values[k].0 && cmd[2 + 2 * k] == values[k].1
    {
      cmd := cmd + ["-" + values[i].0, values[i].1];
    }
  }

  /** The switch part: one `-s` per switch, in whatever order the set yields. */
  method FlagArgs(flags: set<string>) returns (args: seq<string>)
    ensures |args| == |flags| && NoDup(args)
    ensures forall j :: 0 <= j < |args| ==> exists p :: p in flags && args[j] == "-" + p
    ensures forall p :: p in flags ==> "-" + p in args
  {
    args := [];
    var rest := flags;
    ghost var used: seq<string> := [];
    while rest != {}
      invariant rest <= flags && |args| + |rest| == |flags| && NoDup(args)
      invariant |used| == |args|
      invariant forall j :: 0 <= j < |args| ==> used[j] in flags - rest && args[j] == "-" + used[j]
      invariant forall p :: p in flags - rest ==> "-" + p in args
      decreases |rest|
    {
      var p :| p in rest;
      forall j | 0 <= j < |args| ensures args[j] != "-" + p {
        DashedDistinct(p, used[j]);
      }
      args := args + ["-" + p];
      used := used + [p];
      rest := rest - {p};
    }
    forall j | 0 <= j < |args| ensures exists p :: p in flags && args[j] == "-" + p {
      assert used[j] in flags;
    }
  }

  /** `run_speed_test(exec, values, flags)`: true exactly when the binary
      started and exited with status 0; the files it wrote are kept either
      way. */
  method RunSpeedTest(exec: string, values: Values, flags: set<string>, binary: Binary, d: Dir)
    returns (ok: bool, cmd: seq<string>, after: Dir)
    ensures CommandFor(cmd, Invocation(exec, values, flags))
    ensures ok <==> Succeeded(binary(Invocation(exec, values, flags), d))
    ensures after == RunEffect(binary(Invocation(exec, values, flags), d), d)
  {
    var head := ValueArgs(exec, values);
    var tail := FlagArgs(flags);
    cmd := head + tail;
    assert cmd[1 + 2 * |values|..] == tail;
    match binary(Invocation(exec, values, flags), d)
    case NotStarted =>
      ok, after := false, d;
    case Exited(code, writes) =>
      ok, after := code == 0, Written(d, writes);
  }

  /** The directory after a run. */
  function RunEffect(run: Run, d: Dir): Dir {
    match run
    case NotStarted => d
    case Exited(_, writes) => Written(d, writes)
  }

  /** Whether a run counts as a success. */
  predicate Succeeded(run: Run) {
    run.Exited? && run.code == 0
  }
}
