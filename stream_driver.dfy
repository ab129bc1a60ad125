/** The Python driver of the I/O adaptors: resolving the remote-shell script
    of a deployment, spreading worker processes over hosts and launching them
    with their process indices, collecting failures when joining them,
    building the metadata of a parallel stream, and validating and merging
    the objects the workers produced into one global object. */
module StreamDriver {
  import opened Common

  type ObjectID = nat

  /** The exceptions the driver raises. `SubprocessesFailed` is the
      `RuntimeError` of `join`, with its messages and diagnostics. */
  datatype PyError =
    | ValueError(msg: string)
    | TypeError(msg: string)
    | SubprocessesFailed(messages: seq<FailureMessage>, diagnostics: seq<string>)

  // ------------------------------------------------------------ deployments

  const UnknownDeployment: string := "Unknown deployment: "

  /** `_resolve_ssh_script`: the script that reaches a host under each
      supported deployment (a file next to the driver). */
  function ResolveSshScript(deployment: string): (r: Result<string, PyError>)
    ensures r.Ok? <==> deployment in {"ssh", "kubernetes"}
    ensures deployment == "ssh" ==> r == Ok("ssh.sh")
    ensures deployment == "kubernetes" ==> r == Ok("kube_ssh.sh")
    ensures r.Err? ==> r.error == ValueError(UnknownDeployment + "\"" + deployment + "\"")
  {
    if deployment == "ssh" then Ok("ssh.sh")
    else if deployment == "kubernetes" then Ok("kube_ssh.sh")
    else Err(ValueError(UnknownDeployment + "\"" + deployment + "\""))
  }

  // ------------------------------------------------------------ slots

  /** How many processes each of `nh` hosts runs: `numWorkers // nh`, plus
      one for the first `numWorkers % nh` hosts. With no host there is no
      slot (the list comprehension never divides). */
  function Slots(numWorkers: nat, nh: nat): (slots: seq<nat>)
    ensures |slots| == nh
  {
    seq(nh, i requires 0 <= i < nh => numWorkers / nh + (if i < numWorkers % nh then 1 else 0))
  }

  /** Exactly the first `numWorkers % nh` hosts get the extra worker, and any
      two hosts' counts differ by at most one. */
  lemma SlotsBalanced(numWorkers: nat, nh: nat)
    requires nh > 0
    ensures forall i :: 0 <= i < nh ==>
      (Slots(numWorkers, nh)[i] == numWorkers / nh + 1 <==> i < numWorkers % nh)
    ensures forall i, j :: 0 <= i < nh && 0 <= j < nh ==>
      Slots(numWorkers, nh)[i] <= Slots(numWorkers, nh)[j] + 1
    ensures forall i, j :: 0 <= i <= j < nh ==> Slots(numWorkers, nh)[j] <= Slots(numWorkers, nh)[i]
  {
  }

  lemma {:induction false} SlotsPrefixSum(numWorkers: nat, nh: nat, k: nat)
    requires 0 < nh && k <= nh
    ensures Sum(Slots(numWorkers, nh)[..k]) ==
      k * (numWorkers / nh) + (if k < numWorkers % nh then k else numWorkers % nh)
  {
    var slots := Slots(numWorkers, nh);
    if k > 0 {
      var q, m := numWorkers / nh, numWorkers % nh;
      SlotsPrefixSum(numWorkers, nh, k - 1);
      assert slots[..k][..k - 1] == slots[..k - 1];
      assert Sum(slots[..k]) == Sum(slots[..k - 1]) + slots[k - 1];
      assert slots[k - 1] == q + (if k - 1 < m then 1 else 0);
      SlotsStep(Sum(slots[..k - 1]), q, m, k);
    }
  }

  /** One host more in the prefix sum of the slots. */
  lemma SlotsStep(s: nat, q: nat, m: nat, k: nat)
    requires k > 0 && s == (k - 1) * q + (if k - 1 < m then k - 1 else m)
    ensures s + q + (if k - 1 < m then 1 else 0) == k * q + (if k < m then k else m)
  {
    assert k * q == (k - 1) * q + q;
  }

  /** The slots add up to the number of workers. */
  lemma SlotsSum(numWorkers: nat, nh: nat)
    requires nh > 0
    ensures Sum(Slots(numWorkers, nh)) == numWorkers
  {
    SlotsPrefixSum(numWorkers, nh, nh);
    assert Slots(numWorkers, nh)[..nh] == Slots(numWorkers, nh);
  }

  // ------------------------------------------------------------ endpoints

  /** Python `str.split(sep)` for a one-character separator. */
  function Split(s: string, sep: char): (parts: seq<string>)
    ensures |parts| >= 1
    ensures forall i :: 0 <= i < |parts| ==> sep !in parts[i]
  {
    if s == [] then [""]
    else
      var r := Split(s[1..], sep);
      if s[0] == sep then [""] + r else [[s[0]] + r[0]] + r[1..]
  }

  /** Python `sep.join(parts)`. */
  function JoinStrings(parts: seq<string>, sep: string): string
  {
    if parts == [] then ""
    else if |parts| == 1 then parts[0]
    else parts[0] + sep + JoinStrings(parts[1..], sep)
  }

  /** Joining the parts of a split with the separator gives the string back. */
  lemma {:induction false} SplitJoin(s: string, sep: char)
    ensures JoinStrings(Split(s, sep), [sep]) == s
  {
    if s != [] {
      var r := Split(s[1..], sep);
      SplitJoin(s[1..], sep);
      if s[0] == sep {
        assert ([""] + r)[1..] == r;
      } else {
        var ps := [[s[0]] + r[0]] + r[1..];
        assert ps[1..] == r[1..];
        if |r| > 1 {
          assert JoinStrings(r, [sep]) == r[0] + [sep] + JoinStrings(r[1..], [sep]);
        }
      }
    }
  }

  /** The string splits into at least two parts exactly when it holds the
      separator. */
  lemma {:induction false} SplitCount(s: string, sep: char)
    ensures |Split(s, sep)| >= 2 <==> sep in s
  {
    if s != [] {
      SplitCount(s[1..], sep);
      assert s == [s[0]] + s[1..];
    }
  }

  /** The vineyard endpoint a launcher connects with: not given, a socket
      path or address, or the parts of a `host:port` address. */
  datatype Endpoint = Unset | Address(s: string) | HostPort(parts: seq<string>)

  const NoneNotIterable: string := "argument of type 'NoneType' is not iterable"

  /** `run`'s endpoint handling as written: the endpoint defaults to `None`,
      and the membership test on it then raises. */
  function ParseEndpointAsWritten(e: Option<string>): (r: Result<Endpoint, PyError>)
    ensures r.Err? <==> e.None?
    ensures r.Err? ==> r.error == TypeError(NoneNotIterable)
  {
    if e.None? then Err(TypeError(NoneNotIterable))
    else if ':' in e.value then Ok(HostPort(Split(e.value, ':')))
    else Ok(Address(e.value))
  }

  /** `run`'s endpoint handling as documented: a missing endpoint is left
      unset (vineyard then discovers it from the environment); an endpoint
      with a colon is split into its parts. */
  function ParseEndpoint(e: Option<string>): (r: Endpoint)
    ensures r.Unset? <==> e.None?
    ensures r.Address? ==> e == Some(r.s) && ':' !in r.s
    ensures r.HostPort? ==> e.Some? && |r.parts| >= 2 && JoinStrings(r.parts, [':']) == e.value
    ensures r.HostPort? <==> e.Some? && ':' in e.value
  {
    if e.None? then Unset
    else if ':' in e.value then
      SplitJoin(e.value, ':');
      SplitCount(e.value, ':');
      HostPort(Split(e.value, ':'))
    else Address(e.value)
  }

  /** Omitting the endpoint, which the docstring allows, makes the code as
      written raise, while every given endpoint is handled the same way by
      both. */
  lemma OmittedEndpointRaises(e: Option<string>)
    ensures ParseEndpointAsWritten(None) == Err(TypeError(NoneNotIterable))
    ensures ParseEndpoint(None) == Unset
    ensures e.Some? ==> ParseEndpointAsWritten(e) == Ok(ParseEndpoint(e))
  {
  }

  // ------------------------------------------------------------ launching

  /** A positional or keyword argument passed on to a worker. */
  datatype Arg = IntArg(i: int) | StrArg(s: string)

  /** One `StreamLauncher.run(host, *proc_args, **kwargs)` call. */
  datatype Launch = Launch(host: string, args: seq<Arg>, kwargs: map<string, Arg>)

  /** The keyword arguments of `run`: the three it pops, and the rest it
      passes on to every worker. */
  datatype RunKwargs = RunKwargs(endpoint: Option<string>, hosts: Option<seq<string>>,
                                 numWorkers: Option<nat>, rest: map<string, Arg>)

  function HostsOf(kwargs: RunKwargs): seq<string>
  {
    if kwargs.hosts.Some? then kwargs.hosts.value else ["localhost"]
  }

  function NumWorkersOf(kwargs: RunKwargs): nat
  {
    if kwargs.numWorkers.Some? then kwargs.numWorkers.value else |HostsOf(kwargs)|
  }

  /** The host of every process, in launch order: each host repeated as many
      times as it has slots. */
  function HostPlan(hosts: seq<string>, slots: seq<nat>): (plan: seq<string>)
    requires |hosts| == |slots|
    ensures |plan| == Sum(slots)
  {
    if hosts == [] then []
    else
      var n := |hosts| - 1;
      HostPlan(hosts[..n], slots[..n]) + seq(slots[n], _ => hosts[n])
  }

  /** Host `i` runs the processes numbered from the slots of the hosts before
      it, one per slot of its own. */
  lemma {:induction false} HostPlanPosition(hosts: seq<string>, slots: seq<nat>, i: nat, k: nat)
    requires |hosts| == |slots| && i < |hosts| && k < slots[i]
    ensures Sum(slots[..i]) + k < |HostPlan(hosts, slots)|
    ensures HostPlan(hosts, slots)[Sum(slots[..i]) + k] == hosts[i]
    decreases |hosts|
  {
    var n := |hosts| - 1;
    SumPrefixBound(slots, i);
    var init := HostPlan(hosts[..n], slots[..n]);
    assert HostPlan(hosts, slots) == init + seq(slots[n], _ => hosts[n]);
    if i < n {
      HostPlanPosition(hosts[..n], slots[..n], i, k);
      assert slots[..n][..i] == slots[..i];
    } else {
      assert |init| == Sum(slots[..i]);
    }
  }

  /** A count and the counts before it add up to no more than the total. */
  lemma SumPrefixBound(xs: seq<nat>, i: nat)
    requires i < |xs|
    ensures Sum(xs[..i]) + xs[i] <= Sum(xs)
  {
    SumAppend(xs[..i + 1], xs[i + 1..]);
    assert xs[..i + 1] + xs[i + 1..] == xs;
    assert xs[..i + 1][..i] == xs[..i];
  }

  /** The launches of a plan: process `p` runs on `plan[p]` with the user's
      arguments followed by the worker count and its own index `p`. */
  function Launches(plan: seq<string>, args: seq<Arg>, numWorkers: nat, rest: map<string, Arg>): (ls: seq<Launch>)
    ensures |ls| == |plan|
    ensures forall p :: 0 <= p < |plan| ==>
      ls[p].host == plan[p] && ls[p].kwargs == rest &&
      ls[p].args == args + [IntArg(numWorkers), IntArg(p)]
  {
    seq(|plan|, p requires 0 <= p < |plan| => Launch(plan[p], args + [IntArg(numWorkers), IntArg(p)], rest))
  }

  /** With at least one host, `run` launches exactly `num_workers`
      processes, numbered 0 to `num_workers - 1` in launch order. */
  lemma RunLaunchesEveryWorker(hosts: seq<string>, args: seq<Arg>, numWorkers: nat, rest: map<string, Arg>)
    requires hosts != []
    ensures var ls := Launches(HostPlan(hosts, Slots(numWorkers, |hosts|)), args, numWorkers, rest);
      |ls| == numWorkers &&
      forall p :: 0 <= p < numWorkers ==> ls[p].args[|args| + 1] == IntArg(p)
  {
    SlotsSum(numWorkers, |hosts|);
  }

  /** A launcher of one worker per slot. */
  class ParallelStreamLauncher {
    const deployment: string
    const script: string
    var endpoint: Endpoint
    var procs: seq<Launch>

    constructor (deployment: string)
      requires ResolveSshScript(deployment).Ok?
      ensures this.deployment == deployment && script == ResolveSshScript(deployment).value
      ensures endpoint == Unset && procs == []
    {
      this.deployment := deployment;
      script := ResolveSshScript(deployment).value;
      endpoint := Unset;
      procs := [];
    }

    /** `run`: records the endpoint, then launches the processes host by
        host, numbering them in launch order. */
    method Run(args: seq<Arg>, kwargs: RunKwargs)
      modifies this
      ensures endpoint == ParseEndpoint(kwargs.endpoint)
      ensures var hosts := HostsOf(kwargs);
        procs == old(procs) + Launches(HostPlan(hosts, Slots(NumWorkersOf(kwargs), |hosts|)),
                                       args, NumWorkersOf(kwargs), kwargs.rest)
    {
      ghost var start := procs;
      endpoint := ParseEndpoint(kwargs.endpoint);
      var hosts := HostsOf(kwargs);
      var numWorkers := NumWorkersOf(kwargs);
      var nh := |hosts|;
      var slots := Slots(numWorkers, nh);
      ghost var plan: seq<string> := [];
      var procIdx := 0;
      var h := 0;
      assert hosts[..0] == [] && slots[..0] == [];
      while h < nh
        invariant 0 <= h <= nh
        invariant plan == HostPlan(hosts[..h], slots[..h])
        invariant procIdx == |plan|
        invariant endpoint == ParseEndpoint(kwargs.endpoint)
        invariant procs == start + Launches(plan, args, numWorkers, kwargs.rest)
      {
        HostPlanSnoc(hosts, slots, h);
        LaunchesAppend(start, plan, hosts[h], slots[h], args, numWorkers, kwargs.rest);
        procIdx := LaunchHost(hosts[h], slots[h], args, numWorkers, kwargs.rest, procIdx);
        plan := plan + seq(slots[h], _ => hosts[h]);
        h := h + 1;
      }
      assert hosts[..h] == hosts && slots[..h] == slots;
    }

    /** The inner loop of `run`: `nproc` processes on one host, numbered on
        from `procIdx`. */
    method LaunchHost(host: string, nproc: nat, args: seq<Arg>, numWorkers: nat, rest: map<string, Arg>, procIdx: nat)
      returns (next: nat)
      modifies this
      ensures next == procIdx + nproc
      ensures procs == old(procs) + HostLaunches(host, nproc, args, numWorkers, rest, procIdx)
      ensures endpoint == old(endpoint)
    {
      next := procIdx;
      var k := 0;
      while k < nproc
        invariant 0 <= k <= nproc && next == procIdx + k
        invariant procs == old(procs) + HostLaunches(host, k, args, numWorkers, rest, procIdx)
        invariant endpoint == old(endpoint)
      {
        var launch := Launch(host, args + [IntArg(numWorkers), IntArg(next)], rest);
        assert HostLaunches(host, k + 1, args, numWorkers, rest, procIdx)
            == HostLaunches(host, k, args, numWorkers, rest, procIdx) + [launch];
        procs := procs + [launch];
        next := next + 1;
        k := k + 1;
      }
    }
  }

  /** The launches of one host's processes, numbered from `first`. */
  function HostLaunches(host: string, nproc: nat, args: seq<Arg>, numWorkers: nat, rest: map<string, Arg>, first: nat)
    : (ls: seq<Launch>)
  {
    seq(nproc, k requires 0 <= k < nproc => Launch(host, args + [IntArg(numWorkers), IntArg(first + k)], rest))
  }

  lemma LaunchesAppend(start: seq<Launch>, plan: seq<string>, host: string, nproc: nat, args: seq<Arg>,
                       numWorkers: nat, rest: map<string, Arg>)
    ensures start + Launches(plan + seq(nproc, _ => host), args, numWorkers, rest)
         == (start + Launches(plan, args, numWorkers, rest)) + HostLaunches(host, nproc, args, numWorkers, rest, |plan|)
  {
    var ls := Launches(plan, args, numWorkers, rest);
    var hs := HostLaunches(host, nproc, args, numWorkers, rest, |plan|);
    assert Launches(plan + seq(nproc, _ => host), args, numWorkers, rest) == ls + hs;
    ConcatAssoc(start, ls, hs);
  }

  lemma HostPlanSnoc(hosts: seq<string>, slots: seq<nat>, h: nat)
    requires |hosts| == |slots| && h < |hosts|
    ensures HostPlan(hosts[..h + 1], slots[..h + 1]) == HostPlan(hosts[..h], slots[..h]) + seq(slots[h], _ => hosts[h])
  {
    assert hosts[..h + 1][..h] == hosts[..h] && slots[..h + 1][..h] == slots[..h];
  }

  /** `ParallelStreamLauncher(deployment)`: an unknown deployment raises
      before any launcher exists. */
  method NewParallelStreamLauncher(deployment: string) returns (l: ParallelStreamLauncher?, err: Option<PyError>)
    ensures err.Some? <==> ResolveSshScript(deployment).Err?
    ensures err.Some? ==> err.value == ResolveSshScript(deployment).error && l == null
    ensures err.None? ==> l != null && fresh(l) && l.deployment == deployment && l.procs == [] && l.endpoint == Unset
  {
    var script := ResolveSshScript(deployment);
    if script.Err? {
      return null, Some(script.error);
    }
    l := new ParallelStreamLauncher(deployment);
    err := None;
  }

  // ------------------------------------------------------------ joining

  /** `proc.command`: a list of arguments or a single command line. */
  datatype Command = ArgList(parts: seq<string>) | CommandLine(line: string)

  /** What a joined worker process reports. */
  datatype ProcStatus = ProcStatus(failed: bool, exitCode: Option<int>, command: Command,
                                   errorMessage: seq<string>, diagnostics: seq<string>)

  /** One "Failed to launch job" line: the command, the exit code and the
      captured error output. */
  datatype FailureMessage = FailureMessage(command: string, exitCode: int, error: string)

  function CommandText(c: Command): string
  {
    match c
    case ArgList(parts) => JoinStrings(parts, " ")
    case CommandLine(line) => line
  }

  predicate FailedWithCode(p: ProcStatus)
  {
    p.failed && p.exitCode.Some? && p.exitCode.value != 0
  }

  /** The messages of the processes that failed with a non-zero exit code,
      in launch order. */
  function FailureMessages(procs: seq<ProcStatus>): (ms: seq<FailureMessage>)
    ensures |ms| <= |procs|
  {
    if procs == [] then []
    else
      var p := procs[|procs| - 1];
      FailureMessages(procs[..|procs| - 1]) +
        (if FailedWithCode(p)
         then [FailureMessage(CommandText(p.command), p.exitCode.value, Flatten(p.errorMessage))]
         else [])
  }

  lemma {:induction false} FailureMessagesEmpty(procs: seq<ProcStatus>)
    ensures FailureMessages(procs) == [] <==> forall i :: 0 <= i < |procs| ==> !FailedWithCode(procs[i])
  {
    if procs != [] {
      var n := |procs| - 1;
      var init := procs[..n];
      FailureMessagesEmpty(init);
      assert forall i :: 0 <= i < n ==> init[i] == procs[i];
      var last := if FailedWithCode(procs[n])
        then [FailureMessage(CommandText(procs[n].command), procs[n].exitCode.value, Flatten(procs[n].errorMessage))]
        else [];
      assert FailureMessages(procs) == FailureMessages(init) + last;
    }
  }

  /** What `join` raises: nothing when no process failed with a non-zero
      code; otherwise all their messages, with the diagnostics of the last
      process launched (the loop variable left over from the scan). */
  function JoinOutcome(procs: seq<ProcStatus>): (r: Option<PyError>)
    ensures r.None? <==> forall i :: 0 <= i < |procs| ==> !FailedWithCode(procs[i])
    ensures r.Some? ==>
      procs != [] && r.value == SubprocessesFailed(FailureMessages(procs), procs[|procs| - 1].diagnostics)
  {
    FailureMessagesEmpty(procs);
    var ms := FailureMessages(procs);
    if ms == [] then None else Some(SubprocessesFailed(ms, procs[|procs| - 1].diagnostics))
  }

  /** `join`, after every process has been waited for. */
  method Join(procs: seq<ProcStatus>) returns (err: Option<PyError>)
    ensures err == JoinOutcome(procs)
  {
    var messages: seq<FailureMessage> := [];
    var i := 0;
    while i < |procs|
      invariant 0 <= i <= |procs|
      invariant messages == FailureMessages(procs[..i])
    {
      var p := procs[i];
      assert procs[..i + 1][..i] == procs[..i];
      if FailedWithCode(p) {
        var cmd := CommandText(p.command);
        messages := messages + [FailureMessage(cmd, p.exitCode.value, Flatten(p.errorMessage))];
      }
      i := i + 1;
    }
    assert procs[..i] == procs;
    if messages != [] {
      return Some(SubprocessesFailed(messages, procs[|procs| - 1].diagnostics));
    }
    err := None;
  }

  // ------------------------------------------------------------ metadata

  /** A plain metadata value. */
  datatype Scalar = SInt(i: int) | SStr(s: string)

  /** An object's metadata: whether it is global, its plain fields and its
      members (name and object id) in insertion order. */
  datatype Meta = Meta(isGlobal: bool, fields: map<string, Scalar>, members: seq<(string, ObjectID)>)

  function KeysOf<K(==), V>(d: seq<(K, V)>): set<K>
  {
    set i | 0 <= i < |d| :: d[i].0
  }

  function ValuesOf<K, V(==)>(d: seq<(K, V)>): set<V>
  {
    set i | 0 <= i < |d| :: d[i].1
  }

  lemma KeysValuesSnoc<K, V>(d: seq<(K, V)>, e: (K, V))
    ensures KeysOf(d + [e]) == KeysOf(d) + {e.0}
    ensures ValuesOf(d + [e]) == ValuesOf(d) + {e.1}
  {
    var r := d + [e];
    forall x | x in KeysOf(r)
      ensures x in KeysOf(d) + {e.0}
    {
      var i :| 0 <= i < |r| && r[i].0 == x;
      if i < |d| {
        assert d[i].0 == x;
      }
    }
    forall x | x in KeysOf(d)
      ensures x in KeysOf(r)
    {
      var i :| 0 <= i < |d| && d[i].0 == x;
      assert r[i].0 == x;
    }
    assert r[|d|].0 == e.0;
    forall x | x in ValuesOf(r)
      ensures x in ValuesOf(d) + {e.1}
    {
      var i :| 0 <= i < |r| && r[i].1 == x;
      if i < |d| {
        assert d[i].1 == x;
      }
    }
    forall x | x in ValuesOf(d)
      ensures x in ValuesOf(r)
    {
      var i :| 0 <= i < |d| && d[i].1 == x;
      assert r[i].1 == x;
    }
    assert r[|d|].1 == e.1;
  }

  predicate DistinctKeys<K(==), V>(d: seq<(K, V)>)
  {
    forall i, j :: 0 <= i < j < |d| ==> d[i].0 != d[j].0
  }

  /** Where `k` sits in an insertion-ordered dict, or `|d|` when absent. */
  function IndexOfKey<K(==), V>(d: seq<(K, V)>, k: K): (i: nat)
    ensures i <= |d|
    ensures i < |d| ==> d[i].0 == k
    ensures forall j :: 0 <= j < i ==> d[j].0 != k
  {
    if d == [] then 0 else if d[0].0 == k then 0 else 1 + IndexOfKey(d[1..], k)
  }

  /** Python `d[k] = v`: an existing key keeps its place and takes the new
      value; a new key goes last. */
  function DictSet<K(==), V>(d: seq<(K, V)>, k: K, v: V): (r: seq<(K, V)>)
    requires DistinctKeys(d)
    ensures DistinctKeys(r)
    ensures KeysOf(r) == KeysOf(d) + {k}
    ensures forall i :: 0 <= i < |r| && r[i].0 == k ==> r[i].1 == v
    ensures forall i :: 0 <= i < |r| && r[i].0 != k ==> r[i] in d
  {
    var i := IndexOfKey(d, k);
    if i < |d| then
      var r := d[i := (k, v)];
      assert forall j :: 0 <= j < |r| ==> r[j].0 == d[j].0;
      assert KeysOf(r) == KeysOf(d);
      r
    else
      KeysValuesSnoc(d, (k, v));
      d + [(k, v)]
  }

  /** The name of the `i`-th member of a parallel stream. */
  function StreamKey(i: nat): (k: string)
    ensures |k| > 7 && k[7..] == NatToString(i)
  {
    "stream_" + NatToString(i)
  }

  lemma StreamKeyInjective(i: nat, j: nat)
    requires StreamKey(i) == StreamKey(j)
    ensures i == j
  {
    assert NatToString(i) == StreamKey(i)[7..];
    assert NatToString(j) == StreamKey(j)[7..];
    NatToStringInjective(i, j);
  }

  const ParallelStreamType: string := "vineyard::ParallelStream"

  /** `create_parallel_stream`: a global object of type ParallelStream whose
      `size_` is the number of partial streams and whose members
      `stream_0`, `stream_1`, ... are those streams in input order. The
      member names are distinct, so no stream overwrites another. */
  method CreateParallelStream(partialIds: seq<ObjectID>) returns (meta: Meta)
    ensures meta.isGlobal
    ensures meta.fields == map["typename" := SStr(ParallelStreamType), "size_" := SInt(|partialIds|)]
    ensures DistinctKeys(meta.members) && |meta.members| == |partialIds|
    ensures forall i :: 0 <= i < |partialIds| ==> meta.members[i] == (StreamKey(i), partialIds[i])
  {
    meta := Meta(false, map[], []);
    meta := meta.(fields := meta.fields["typename" := SStr(ParallelStreamType)]);
    meta := meta.(isGlobal := true);
    meta := meta.(fields := meta.fields["size_" := SInt(|partialIds|)]);
    var idx := 0;
    while idx < |partialIds|
      invariant 0 <= idx <= |partialIds|
      invariant meta.isGlobal
      invariant meta.fields == map["typename" := SStr(ParallelStreamType), "size_" := SInt(|partialIds|)]
      invariant |meta.members| == idx
      invariant forall i :: 0 <= i < idx ==> meta.members[i] == (StreamKey(i), partialIds[i])
      invariant DistinctKeys(meta.members)
    {
      var key := StreamKey(idx);
      forall i | 0 <= i < idx
        ensures meta.members[i].0 != key
      {
        if StreamKey(i) == key {
          StreamKeyInjective(i, idx);
        }
      }
      assert IndexOfKey(meta.members, key) == idx;
      meta := meta.(members := DictSet(meta.members, key, partialIds[idx]));
      idx := idx + 1;
    }
  }

  // ------------------------------------------------------------ global dataframes

  /** The chunks of every worker, in worker order (`chunks.extend` in a
      loop). */
  method FlattenResults(results: seq<seq<ObjectID>>) returns (chunks: seq<ObjectID>)
    ensures chunks == Flatten(results)
  {
    chunks := [];
    var i := 0;
    while i < |results|
      invariant 0 <= i <= |results|
      invariant chunks == Flatten(results[..i])
    {
      assert results[..i + 1][..i] == results[..i];
      chunks := chunks + results[i];
      i := i + 1;
    }
    assert results[..i] == results;
  }

  const NameNotProvided: string := "Name of the global dataframe is not provided"

  /** What `create_global_dataframe` asks the server to build and name. */
  datatype DataframeRequest = DataframeRequest(chunks: seq<ObjectID>, partitionShapeRow: nat,
                                               partitionShapeColumn: nat, nbytes: nat, name: string)

  /** `create_global_dataframe`: without a name it raises; otherwise the
      global dataframe is made of every worker's chunks in worker order, one
      row of partitions per worker. */
  method CreateGlobalDataframe(results: seq<seq<ObjectID>>, name: Option<string>)
    returns (r: Result<DataframeRequest, PyError>)
    ensures r.Err? <==> name.None?
    ensures r.Err? ==> r.error == ValueError(NameNotProvided)
    ensures r.Ok? ==>
      r.value.chunks == Flatten(results) && r.value.partitionShapeRow == |results| &&
      r.value.partitionShapeColumn == 1 && r.value.nbytes == 0 && r.value.name == name.value
  {
    if name.None? {
      return Err(ValueError(NameNotProvided));
    }
    var chunks := FlattenResults(results);
    r := Ok(DataframeRequest(chunks, |results|, 1, 0, name.value));
  }

  // ------------------------------------------------------------ merging

  const NoSubObjects: string := "No available sub objects to merge"
  const NotAllGlobal: string := "Not all sub objects are global objects: "
  const NonGlobalOnly: string := "Unable to merge more than one non-global objects: "

  /** Index of the first global metadata, `|metas|` when there is none. */
  function FirstGlobal(metas: seq<Meta>): (g: nat)
    ensures g <= |metas|
    ensures g < |metas| ==> metas[g].isGlobal
    ensures forall j :: 0 <= j < g ==> !metas[j].isGlobal
  {
    if metas == [] then 0 else if metas[0].isGlobal then 0 else 1 + FirstGlobal(metas[1..])
  }

  /** The validation of `merge_global_object` as written: a non-global
      object is rejected only once a global one has been seen, and the list
      is rejected when no object is global. */
  function GlobalCheckAsWritten(metas: seq<Meta>): (r: Option<PyError>)
    ensures r.None? ==> exists j :: 0 <= j < |metas| && metas[j].isGlobal
    ensures r.None? ==> forall j :: FirstGlobal(metas) <= j < |metas| ==> metas[j].isGlobal
    ensures r.Some? ==> metas == [] || exists j :: 0 <= j < |metas| && !metas[j].isGlobal
  {
    var g := FirstGlobal(metas);
    if exists j :: g < j < |metas| && !metas[j].isGlobal then Some(ValueError(NotAllGlobal))
    else if g == |metas| then Some(ValueError(NonGlobalOnly))
    else None
  }

  /** The validation as its messages describe it: every object must be
      global. */
  function GlobalCheck(metas: seq<Meta>): (r: Option<PyError>)
    ensures r.None? <==> metas != [] && forall j :: 0 <= j < |metas| ==> metas[j].isGlobal
  {
    var g := FirstGlobal(metas);
    if g == |metas| then Some(ValueError(NonGlobalOnly))
    else if exists j :: 0 <= j < |metas| && !metas[j].isGlobal then Some(ValueError(NotAllGlobal))
    else None
  }

  /** A non-global object listed before the first global one passes the
      check as written, and its chunk is silently left out of the merge. */
  lemma NonGlobalBeforeGlobalIsAccepted(local: Meta, global: Meta)
    requires !local.isGlobal && global.isGlobal
    ensures GlobalCheckAsWritten([local, global]) == None
    ensures GlobalCheck([local, global]) == Some(ValueError(NotAllGlobal))
    ensures ChunkMapOf([local, global]) == ChunkMapOf([global])
  {
    assert FirstGlobal([local, global]) == 1;
    assert [local, global][..1] == [local];
    assert [local][..0] == [];
    assert [global][..0] == [];
  }

  /** The check as written accepts every list the strict check accepts, and
      rejects the same lists when the non-global objects come first only. */
  lemma GlobalCheckAsWrittenIsWeaker(metas: seq<Meta>)
    ensures GlobalCheck(metas).None? ==> GlobalCheckAsWritten(metas).None?
    ensures GlobalCheckAsWritten(metas).None? <==>
      FirstGlobal(metas) < |metas| && forall j :: FirstGlobal(metas) < j < |metas| ==> metas[j].isGlobal
  {
  }

  /** Files one global object's members into the chunk map: member id to
      member name, later entries overwriting earlier ones. */
  function AddMembers(chunkmap: seq<(ObjectID, string)>, members: seq<(string, ObjectID)>): (r: seq<(ObjectID, string)>)
    requires DistinctKeys(chunkmap)
    ensures DistinctKeys(r)
  {
    if members == [] then chunkmap
    else
      var n := |members| - 1;
      DictSet(AddMembers(chunkmap, members[..n]), members[n].1, members[n].0)
  }

  /** The chunk map built from the global objects, in order. */
  function ChunkMapOf(metas: seq<Meta>): (r: seq<(ObjectID, string)>)
    ensures DistinctKeys(r)
  {
    if metas == [] then []
    else
      var n := |metas| - 1;
      if metas[n].isGlobal then AddMembers(ChunkMapOf(metas[..n]), metas[n].members) else ChunkMapOf(metas[..n])
  }

  /** A non-global object adds nothing to the chunk map. */
  lemma ChunkMapSkips(metas: seq<Meta>, i: nat)
    requires i < |metas| && !metas[i].isGlobal
    ensures ChunkMapOf(metas[..i + 1]) == ChunkMapOf(metas[..i])
  {
    assert metas[..i + 1][..i] == metas[..i];
  }

  /** The body of the membership loop for a global object: its members go
      into the chunk map. */
  method CollectMembers(metas: seq<Meta>, i: nat, chunkmap: seq<(ObjectID, string)>)
    returns (r: seq<(ObjectID, string)>)
    requires i < |metas| && metas[i].isGlobal
    requires chunkmap == ChunkMapOf(metas[..i])
    ensures r == ChunkMapOf(metas[..i + 1])
  {
    assert metas[..i + 1][..i] == metas[..i];
    r := AddMemberEntries(chunkmap, metas[i].members);
  }

  /** Every member id of every global object is a key of the chunk map. */
  lemma {:induction false} AddMembersKeys(chunkmap: seq<(ObjectID, string)>, members: seq<(string, ObjectID)>)
    requires DistinctKeys(chunkmap)
    ensures KeysOf(AddMembers(chunkmap, members)) == KeysOf(chunkmap) + ValuesOf(members)
  {
    if members != [] {
      var n := |members| - 1;
      AddMembersKeys(chunkmap, members[..n]);
      KeysValuesSnoc(members[..n], members[n]);
      assert members[..n] + [members[n]] == members;
    }
  }

  /** The members of the merged object: `add_member(name, id)` for each
      chunk map entry in order. */
  function MembersFrom(chunkmap: seq<(ObjectID, string)>): (r: seq<(string, ObjectID)>)
    ensures DistinctKeys(r)
  {
    if chunkmap == [] then []
    else
      var n := |chunkmap| - 1;
      DictSet(MembersFrom(chunkmap[..n]), chunkmap[n].1, chunkmap[n].0)
  }

  /** Every chunk map entry gives the merged object a member of that name. */
  lemma {:induction false} MembersFromKeys(chunkmap: seq<(ObjectID, string)>)
    ensures KeysOf(MembersFrom(chunkmap)) == ValuesOf(chunkmap)
  {
    if chunkmap != [] {
      var n := |chunkmap| - 1;
      MembersFromKeys(chunkmap[..n]);
      KeysValuesSnoc(chunkmap[..n], chunkmap[n]);
      assert chunkmap[..n] + [chunkmap[n]] == chunkmap;
    }
  }

  /** Every member of the merged object comes from a chunk map entry. */
  lemma {:induction false} MembersFromEntries(chunkmap: seq<(ObjectID, string)>, i: nat)
    requires i < |MembersFrom(chunkmap)|
    ensures (MembersFrom(chunkmap)[i].1, MembersFrom(chunkmap)[i].0) in chunkmap
  {
    var n := |chunkmap| - 1;
    var r := MembersFrom(chunkmap);
    if r[i].0 != chunkmap[n].1 {
      var prev := MembersFrom(chunkmap[..n]);
      assert r[i] in prev;
      var j :| 0 <= j < |prev| && prev[j] == r[i];
      MembersFromEntries(chunkmap[..n], j);
    }
  }

  const ExcludedKeys: set<string> := {"id", "signature", "instance_id"}

  /** The merged metadata: global, the first object's plain fields except
      its identity, and the chunk map's members. */
  function BaseMeta(first: Meta, chunkmap: seq<(ObjectID, string)>): (m: Meta)
    ensures m.isGlobal
    ensures forall k :: k in m.fields <==> k in first.fields && k !in ExcludedKeys
    ensures forall k :: k in m.fields ==> m.fields[k] == first.fields[k]
  {
    Meta(true, first.fields - ExcludedKeys, MembersFrom(chunkmap))
  }

  /** What `merge_global_object` produces: the single chunk itself, or the
      metadata of a new global object. */
  datatype Merged = Existing(id: ObjectID) | NewMeta(meta: Meta)

  /** `[vineyard_client.get_meta(chunk) for chunk in chunks]`. */
  function MetasOf(chunks: seq<ObjectID>, metaOf: ObjectID -> Meta): (metas: seq<Meta>)
    ensures |metas| == |chunks|
    ensures forall i :: 0 <= i < |chunks| ==> metas[i] == metaOf(chunks[i])
  {
    seq(|chunks|, i requires 0 <= i < |chunks| => metaOf(chunks[i]))
  }

  /** The whole of `merge_global_object`, with the strict global check. */
  function MergeOutcome(results: Option<seq<seq<ObjectID>>>, metaOf: ObjectID -> Meta): (r: Result<Merged, PyError>)
    ensures r.Ok? ==> results.Some? && Flatten(results.value) != []
    ensures r.Ok? && r.value.Existing? ==> Flatten(results.value) == [r.value.id]
  {
    if results.None? || results.value == [] then Err(ValueError(NoSubObjects))
    else
      var chunks := Flatten(results.value);
      if chunks == [] then Err(ValueError(NoSubObjects))
      else if |chunks| == 1 then Ok(Existing(chunks[0]))
      else
        var metas := MetasOf(chunks, metaOf);
        var check := GlobalCheck(metas);
        if check.Some? then Err(check.value) else Ok(NewMeta(BaseMeta(metas[0], ChunkMapOf(metas))))
  }

  /** The merge fails exactly when there is no chunk, or when there are
      several and one of them is not global; a single chunk is returned as
      is. */
  lemma MergeErrors(results: Option<seq<seq<ObjectID>>>, metaOf: ObjectID -> Meta)
    ensures results.None? || Flatten(results.value) == [] ==> MergeOutcome(results, metaOf) == Err(ValueError(NoSubObjects))
    ensures results.Some? && |Flatten(results.value)| == 1 ==>
      MergeOutcome(results, metaOf) == Ok(Existing(Flatten(results.value)[0]))
    ensures results.Some? && |Flatten(results.value)| >= 2 ==>
      (MergeOutcome(results, metaOf).Err? <==>
       exists i :: 0 <= i < |Flatten(results.value)| && !metaOf(Flatten(results.value)[i]).isGlobal)
  {
    if results.Some? && results.value != [] {
      var chunks := Flatten(results.value);
      if |chunks| >= 2 {
        var metas := MetasOf(chunks, metaOf);
        if GlobalCheck(metas).Some? {
          var j :| 0 <= j < |metas| && !metas[j].isGlobal;
          assert !metaOf(chunks[j]).isGlobal;
          assert MergeOutcome(results, metaOf).Err?;
          assert exists i :: 0 <= i < |Flatten(results.value)| && !metaOf(Flatten(results.value)[i]).isGlobal;
        }
      }
    }
  }

  /** The membership loop of `merge_global_object` as written: scans the
      objects in order, collecting the members of the global ones. */
  method CollectChunkMapAsWritten(metas: seq<Meta>) returns (err: Option<PyError>, chunkmap: seq<(ObjectID, string)>)
    ensures err == GlobalCheckAsWritten(metas)
    ensures err.None? ==> chunkmap == ChunkMapOf(metas)
  {
    chunkmap := [];
    ghost var g := FirstGlobal(metas);
    var isGlobal := false;
    var i := 0;
    assert metas[..0] == [];
    while i < |metas|
      invariant 0 <= i <= |metas|
      invariant isGlobal <==> g < i
      invariant forall j :: g < j < i ==> metas[j].isGlobal
      invariant chunkmap == ChunkMapOf(metas[..i])
    {
      if metas[i].isGlobal {
        isGlobal := true;
        chunkmap := CollectMembers(metas, i, chunkmap);
      } else if isGlobal {
        return Some(ValueError(NotAllGlobal)), chunkmap;
      } else {
        ChunkMapSkips(metas, i);
      }
      i := i + 1;
    }
    assert metas[..i] == metas;
    if !isGlobal {
      return Some(ValueError(NonGlobalOnly)), chunkmap;
    }
    err := None;
  }

  /** The membership loop with the strict check: any non-global object is
      rejected, wherever it stands. */
  method CollectChunkMap(metas: seq<Meta>) returns (err: Option<PyError>, chunkmap: seq<(ObjectID, string)>)
    ensures err == GlobalCheck(metas)
    ensures err.None? ==> chunkmap == ChunkMapOf(metas)
  {
    chunkmap := [];
    ghost var g := FirstGlobal(metas);
    var isGlobal := false;
    var nonGlobal := false;
    ghost var culprit := 0;
    var i := 0;
    assert metas[..0] == [];
    while i < |metas|
      invariant 0 <= i <= |metas|
      invariant isGlobal <==> g < i
      invariant nonGlobal ==> culprit < i && !metas[culprit].isGlobal
      invariant !nonGlobal ==> forall j :: 0 <= j < i ==> metas[j].isGlobal
      invariant chunkmap == ChunkMapOf(metas[..i])
    {
      if metas[i].isGlobal {
        isGlobal := true;
        chunkmap := CollectMembers(metas, i, chunkmap);
      } else {
        nonGlobal := true;
        culprit := i;
        ChunkMapSkips(metas, i);
      }
      i := i + 1;
    }
    assert metas[..i] == metas;
    if !isGlobal {
      return Some(ValueError(NonGlobalOnly)), chunkmap;
    }
    if nonGlobal {
      return Some(ValueError(NotAllGlobal)), chunkmap;
    }
    err := None;
  }

  /** `for k, v in meta.items(): chunkmap[v.id] = k` over the members. */
  method AddMemberEntries(chunkmap: seq<(ObjectID, string)>, members: seq<(string, ObjectID)>)
    returns (r: seq<(ObjectID, string)>)
    requires DistinctKeys(chunkmap)
    ensures r == AddMembers(chunkmap, members)
  {
    r := chunkmap;
    var k := 0;
    while k < |members|
      invariant 0 <= k <= |members|
      invariant r == AddMembers(chunkmap, members[..k])
    {
      assert members[..k + 1][..k] == members[..k];
      r := DictSet(r, members[k].1, members[k].0);
      k := k + 1;
    }
    assert members[..k] == members;
  }

  /** The field-copying loop: every plain field of the first object except
      `id`, `signature` and `instance_id`. */
  method CopyPlainFields(first: Meta) returns (fields: map<string, Scalar>)
    ensures fields == first.fields - ExcludedKeys
  {
    fields := map[];
    var todo := first.fields.Keys;
    while todo != {}
      invariant todo <= first.fields.Keys
      invariant fields == (first.fields - ExcludedKeys - todo)
      decreases |todo|
    {
      var k :| k in todo;
      if k !in ExcludedKeys {
        fields := fields[k := first.fields[k]];
      }
      todo := todo - {k};
    }
  }

  /** The member-adding loop: `add_member(name, id)` per chunk map entry. */
  method AddMembersFrom(chunkmap: seq<(ObjectID, string)>) returns (members: seq<(string, ObjectID)>)
    ensures members == MembersFrom(chunkmap)
  {
    members := [];
    var i := 0;
    while i < |chunkmap|
      invariant 0 <= i <= |chunkmap|
      invariant members == MembersFrom(chunkmap[..i])
    {
      assert chunkmap[..i + 1][..i] == chunkmap[..i];
      members := DictSet(members, chunkmap[i].1, chunkmap[i].0);
      i := i + 1;
    }
    assert chunkmap[..i] == chunkmap;
  }

  /** `merge_global_object`. `metaOf` answers `get_meta` for a chunk; the
      server-side creation and persisting of the merged object is left to
      the caller, which receives the metadata to create. */
  method MergeGlobalObject(results: Option<seq<seq<ObjectID>>>, metaOf: ObjectID -> Meta)
    returns (r: Result<Merged, PyError>)
    ensures r == MergeOutcome(results, metaOf)
  {
    if results.None? || |results.value| == 0 {
      return Err(ValueError(NoSubObjects));
    }
    var chunks := FlattenResults(results.value);
    if |chunks| == 0 {
      return Err(ValueError(NoSubObjects));
    }
    if |chunks| == 1 {
      return Ok(Existing(chunks[0]));
    }
    var metas: seq<Meta> := [];
    var i := 0;
    while i < |chunks|
      invariant 0 <= i <= |chunks|
      invariant |metas| == i
      invariant forall j :: 0 <= j < i ==> metas[j] == metaOf(chunks[j])
    {
      metas := metas + [metaOf(chunks[i])];
      i := i + 1;
    }
    assert metas == seq(|chunks|, i requires 0 <= i < |chunks| => metaOf(chunks[i]));
    var err, chunkmap := CollectChunkMap(metas);
    if err.Some? {
      return Err(err.value);
    }
    var fields := CopyPlainFields(metas[0]);
    var members := AddMembersFrom(chunkmap);
    r := Ok(NewMeta(Meta(true, fields, members)));
  }
}
