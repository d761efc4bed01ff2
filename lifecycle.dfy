/** One roll-forward pass over the servers of the stored document (roll_forward_step!), as a
    function of the ledger and of what the cloud and each server answer. */
module Lifecycle {
  import opened Wrappers
  import opened Exceptions
  import opened Sessions
  import Versions

  // ---------------------------------------------------------------------------
  // Servers, configuration and the replies of the outside world
  // ---------------------------------------------------------------------------

  /** A server record of the stored document: the keys this code reads or writes (None: absent). */
  datatype Server = Server(uuid: Option<string>, instanceId: Option<string>, publicIp: Option<string>,
                           deployment: Option<string>, status: Option<string>)

  /** The keys of cloud.yml the launch reads. */
  datatype CloudConfig = CloudConfig(instanceType: Option<string>, ami: Option<string>)

  /** `run_instances`: the first instance of the reply, no instance at all, or an API error. */
  datatype LaunchReply = Launched(instanceId: Option<string>, ipAddress: Option<string>) | NoInstance | LaunchFailed(error: Exception)

  /** `describe_instances`: the listed instance with the server's id, none, or an API error. */
  datatype DescribeReply = Listed(ipAddress: Option<string>) | NotListed | DescribeFailed(error: Exception)

  /** The install steps: installing the packages, the local build, uploading and installing the
      gem, and the version the server then reports (stripped). The SFTP session is opened after
      the packages and before the build; an exception from opening it is given as `packages`.
      An exception from `gem uninstall` or `gem install` is given as `upload`. */
  datatype InstallReply = InstallReply(packages: Option<Exception>, build: bool, upload: Option<Exception>,
                                       version: Result<string, Exception>)

  /** What the outside world answers for one server during one pass; the outputs are stripped. */
  datatype Probe = Probe(launch: LaunchReply, describe: DescribeReply, connect: Option<Exception>,
                         sudo: Result<string, Exception>, version: Result<string, Exception>,
                         install: InstallReply)

  /** The conditions given to the ssh and sudo-test actions. */
  datatype Conditions = Conditions(ssh: Options, sudoTest: Options)

  /** As written, neither action has an `:if` or `:unless`. */
  const AsWritten := Conditions(Options(None, None), Options(None, None))

  /** Both actions are meant to run unconditionally. */
  const Intended := Conditions(Options(Some(true), None), Options(Some(true), None))

  const ExpectedDelay := "JeCloud::Application::ExpectedDelay"
  const UnexpectedProblem := "JeCloud::Application::UnexpectedExternalProblem"

  // ---------------------------------------------------------------------------
  // The bodies
  // ---------------------------------------------------------------------------

  /** The initial-setup body: the server with its new instance, or the exception it raises.
      A missing instance type or AMI ends in `exit` (die!), which the rescue records. */
  function LaunchBody(s: Server, cloud: CloudConfig, reply: LaunchReply): (r: Result<Server, Exception>)
    ensures cloud.instanceType.None? || cloud.ami.None? ==> r == Failure(SystemExit)
    ensures r.Success? <==> cloud.instanceType.Some? && cloud.ami.Some? && reply.Launched?
    ensures r.Success? ==> r.value == s.(instanceId := reply.instanceId, publicIp := reply.ipAddress)
  {
    if cloud.instanceType.None? || cloud.ami.None? then
      Failure(SystemExit)
    else
      match reply
      case Launched(id, ip) => Success(s.(instanceId := id, publicIp := ip))
      case NoInstance => Failure(NoMethodError("undefined method `instanceId' for nil:NilClass"))
      case LaunchFailed(e) => Failure(e)
  }

  datatype Attempt = Attempt(server: Server, error: Exception)

  function Nonempty(ip: Option<string>): bool { ip.GetOr("") != "" }

  /** The obtain-ip body: it always raises; a non-empty IP of the listed instance is kept first. */
  function ObtainIpBody(s: Server, reply: DescribeReply): (r: Attempt)
    ensures r.server == (if reply.Listed? && Nonempty(reply.ipAddress) then s.(publicIp := reply.ipAddress) else s)
    ensures reply.Listed? ==> r.error == Exception(ExpectedDelay, "No IP address assigned yet")
  {
    match reply
    case Listed(ip) =>
      var server := if Nonempty(ip) then s.(publicIp := ip) else s;
      Attempt(server, Exception(ExpectedDelay, "No IP address assigned yet"))
    case NotListed => Attempt(s, NoMethodError("undefined method `ipAddress' for nil:NilClass"))
    case DescribeFailed(e) => Attempt(s, e)
  }

  /** The sudo-test body: None when `sudo -n echo ok` prints exactly "ok". */
  function SudoBody(reply: Result<string, Exception>, ip: string): (r: Option<Exception>)
  {
    match reply
    case Failure(e) => Some(e)
    case Success(out) =>
      if out == "ok" then None else Some(Exception(UnexpectedProblem, "sudo does not work on " + ip))
  }

  /** The install-jecloud body: None when every step succeeds and the server then reports
      exactly the orchestrator's own version. */
  function InstallBody(reply: InstallReply, own: string, ip: string): (r: Option<Exception>)
  {
    if reply.packages.Some? then reply.packages
    else if !reply.build then Some(Exception(UnexpectedProblem, "JeCloud build failed"))
    else if reply.upload.Some? then reply.upload
    else
      match reply.version
      case Failure(e) => Some(e)
      case Success(v) =>
        if v == own then None else Some(Exception(UnexpectedProblem, "Installation of JeCloud failed on " + ip))
  }

  function AsOutcome(err: Option<Exception>): Outcome<()>
  {
    if err.None? then Ok(()) else Raise(err.value)
  }

  function Name(s: Server, step: string): string
  {
    s.uuid.GetOr("") + "-" + step
  }

  // ---------------------------------------------------------------------------
  // One server
  // ---------------------------------------------------------------------------

  /** How the processing of one server ends: the catch block completes, `:failed` is caught,
      the method returns true, or an exception leaves roll_forward_step!. */
  datatype End = Completed | Aborted | Deployed | Crashed(error: Exception)

  datatype Visited = Visited(server: Server, ledger: Ledger, end: End)

  /** How the body of the ssh action ends. */
  datatype BodyEnd = Normal | Raised(error: Exception) | ThrownOut | ReturnedTrue

  datatype Body = Body(server: Server, ledger: Ledger, end: BodyEnd)

  function BodyOutcome(e: BodyEnd): Outcome<()>
  {
    match e
    case Normal => Ok(())
    case Raised(x) => Raise(x)
    case ThrownOut => Abort
    case ReturnedTrue => Abort
  }

  /** The steps of one server inside its `catch :failed`. */
  function Visit(s: Server, l: Ledger, p: Probe, cloud: CloudConfig, own: string, conds: Conditions, now: int): Visited
  {
    var g := ActionGate(l, Name(s, "initial-setup"), Options(None, Some(s.instanceId.Some?)), now);
    match g.gate
    case Invalid(e) => Visited(s, g.ledger, Crashed(e))
    case Blocked => Visited(s, g.ledger, Aborted)
    case NotNeeded => ObtainIp(s, g.ledger, p, own, conds, now)
    case Open(f) =>
      var b := LaunchBody(s, cloud, p.launch);
      var x := ActionExit(g.ledger, f, if b.Success? then Ok(()) else Raise(b.error));
      if b.Success? then ObtainIp(b.value, x.ledger, p, own, conds, now) else Visited(s, x.ledger, Aborted)
  }

  function ObtainIp(s: Server, l: Ledger, p: Probe, own: string, conds: Conditions, now: int): Visited
  {
    var g := ActionGate(l, Name(s, "obtain-ip"), Options(None, Some(s.publicIp.Some?)), now);
    match g.gate
    case Invalid(e) => Visited(s, g.ledger, Crashed(e))
    case Blocked => Visited(s, g.ledger, Aborted)
    case NotNeeded => Ssh(s, g.ledger, p, own, conds, now)
    case Open(f) =>
      var a := ObtainIpBody(s, p.describe);
      var x := ActionExit(g.ledger, f, Outcome<()>.Raise(a.error));
      Visited(a.server, x.ledger, Aborted)
  }

  function Ssh(s: Server, l: Ledger, p: Probe, own: string, conds: Conditions, now: int): Visited
  {
    var g := ActionGate(l, Name(s, "ssh"), conds.ssh, now);
    match g.gate
    case Invalid(e) => Visited(s, g.ledger, Crashed(e))
    case Blocked => Visited(s, g.ledger, Aborted)
    case NotNeeded => Visited(s, g.ledger, Completed)
    case Open(f) =>
      var b := SshBody(s, g.ledger, p, own, conds, now);
      var x := ActionExit(b.ledger, f, BodyOutcome(b.end));
      Visited(b.server, x.ledger, if b.end.ReturnedTrue? then Deployed else if b.end.Normal? then Completed else Aborted)
  }

  /** Inside `Net::SSH.start`: the sudo test, the version test, the install and the deployment. */
  function SshBody(s: Server, l: Ledger, p: Probe, own: string, conds: Conditions, now: int): Body
  {
    if p.connect.Some? then
      Body(s, l, Raised(p.connect.value))
    else
      var g := ActionGate(l, Name(s, "sudo-test"), conds.sudoTest, now);
      match g.gate
      case Invalid(e) => Body(s, g.ledger, Raised(e))
      case Blocked => Body(s, g.ledger, ThrownOut)
      case NotNeeded => VersionStep(s, g.ledger, p, own, now)
      case Open(f) =>
        var err := SudoBody(p.sudo, s.publicIp.GetOr(""));
        var x := ActionExit(g.ledger, f, AsOutcome(err));
        if err.None? then VersionStep(s, x.ledger, p, own, now) else Body(s, x.ledger, ThrownOut)
  }

  /** The installed agent's version is good enough when it is a dotted version whose padded
      form is at least the padded own version. */
  function Installed(remote: string, own: string): bool
  {
    Versions.Acceptable(remote, own)
  }

  function VersionStep(s: Server, l: Ledger, p: Probe, own: string, now: int): Body
  {
    match p.version
    case Failure(e) => Body(s, l, Raised(e))
    case Success(v) =>
      var g := ActionGate(l, Name(s, "install-jecloud"), Options(None, Some(Installed(v, own))), now);
      match g.gate
      case Invalid(e) => Body(s, g.ledger, Raised(e))
      case Blocked => Body(s, g.ledger, ThrownOut)
      case NotNeeded => DeploymentStep(s, g.ledger)
      case Open(f) =>
        var err := InstallBody(p.install, own, s.publicIp.GetOr(""));
        var x := ActionExit(g.ledger, f, AsOutcome(err));
        if err.None? then DeploymentStep(s, x.ledger) else Body(s, x.ledger, ThrownOut)
  }

  /** A requested deployment is taken as done and the method returns true at once. */
  function DeploymentStep(s: Server, l: Ledger): Body
  {
    if s.deployment.Some? then Body(s.(deployment := None), l, ReturnedTrue) else Body(s, l, Normal)
  }

  // ---------------------------------------------------------------------------
  // One pass
  // ---------------------------------------------------------------------------

  datatype PassEnd = Stepped(cont: bool) | PassCrashed(error: Exception)

  datatype Pass = Pass(servers: seq<Server>, ledger: Ledger, end: PassEnd)

  /** Processing of one server (given the server, the ledger so far and the server's index)
      as a value: the loop over the servers does not depend on what that processing is.
      Server k is processed with the answers probes(k) and the clock reading clock(k). */
  function VisitorOf(probes: nat -> Probe, cloud: CloudConfig, own: string, conds: Conditions, clock: nat -> int)
    : (Server, Ledger, nat) -> Visited
  {
    (s: Server, l: Ledger, k: nat) => Visit(s, l, probes(k), cloud, own, conds, clock(k))
  }

  /** roll_forward_step! from the i-th server on: true right after a deployment is cleared,
      false once every server has been visited. */
  function StepFrom(servers: seq<Server>, i: nat, l: Ledger, visit: (Server, Ledger, nat) -> Visited): (r: Pass)
    requires i <= |servers|
    ensures |r.servers| == |servers|
    decreases |servers| - i
  {
    if i == |servers| then
      Pass(servers, l, Stepped(false))
    else
      var v := visit(servers[i], l, i);
      var next := servers[i := v.server];
      match v.end
      case Deployed => Pass(next, v.ledger, Stepped(true))
      case Crashed(e) => Pass(next, v.ledger, PassCrashed(e))
      case Completed => StepFrom(next, i + 1, v.ledger, visit)
      case Aborted => StepFrom(next, i + 1, v.ledger, visit)
  }

  /** The number of servers with a deployment request. */
  function Deployments(servers: seq<Server>): (n: nat)
    ensures n <= |servers|
  {
    if servers == [] then 0 else (if servers[0].deployment.Some? then 1 else 0) + Deployments(servers[1..])
  }

  // ---------------------------------------------------------------------------
  // Properties of one server's steps
  // ---------------------------------------------------------------------------

  /** What processing a server may change: uuid and status never, an existing instance id never,
      and the deployment request exactly when the method returns true. */
  predicate Follows(s: Server, t: Server, deployed: bool)
  {
    t.uuid == s.uuid && t.status == s.status &&
    (s.instanceId.Some? ==> t.instanceId == s.instanceId) &&
    (if deployed then s.deployment.Some? && t.deployment.None? else t.deployment == s.deployment)
  }

  lemma VersionStepFollows(s: Server, l: Ledger, p: Probe, own: string, now: int)
    ensures var b := VersionStep(s, l, p, own, now);
      Follows(s, b.server, b.end.ReturnedTrue?) && (b.end.ReturnedTrue? || b.server == s)
  {
  }

  lemma SshBodyFollows(s: Server, l: Ledger, p: Probe, own: string, conds: Conditions, now: int)
    ensures var b := SshBody(s, l, p, own, conds, now);
      Follows(s, b.server, b.end.ReturnedTrue?) && (b.end.ReturnedTrue? || b.server == s)
  {
    if p.connect.None? {
      var g := ActionGate(l, Name(s, "sudo-test"), conds.sudoTest, now);
      VersionStepFollows(s, g.ledger, p, own, now);
      if g.gate.Open? {
        var x := ActionExit(g.ledger, g.gate.frame, AsOutcome(SudoBody(p.sudo, s.publicIp.GetOr(""))));
        VersionStepFollows(s, x.ledger, p, own, now);
      }
    }
  }

  lemma SshFollows(s: Server, l: Ledger, p: Probe, own: string, conds: Conditions, now: int)
    ensures var v := Ssh(s, l, p, own, conds, now);
      Follows(s, v.server, v.end.Deployed?) && (v.end.Deployed? || v.server == s)
  {
    var g := ActionGate(l, Name(s, "ssh"), conds.ssh, now);
    SshBodyFollows(s, g.ledger, p, own, conds, now);
  }

  lemma ObtainIpFollows(s: Server, l: Ledger, p: Probe, own: string, conds: Conditions, now: int)
    ensures var v := ObtainIp(s, l, p, own, conds, now);
      Follows(s, v.server, v.end.Deployed?) && v.server.instanceId == s.instanceId
  {
    var g := ActionGate(l, Name(s, "obtain-ip"), Options(None, Some(s.publicIp.Some?)), now);
    match g.gate {
      case NotNeeded =>
        SshFollows(s, g.ledger, p, own, conds, now);
      case Open(f) =>
        var a := ObtainIpBody(s, p.describe);
        assert a.server.instanceId == s.instanceId && a.server.deployment == s.deployment;
      case Invalid(_) =>
      case Blocked =>
    }
  }

  /** A server keeps its uuid and status and never has its instance id re-pointed; its
      deployment request is cleared exactly when the pass returns true at it. */
  lemma VisitFollows(s: Server, l: Ledger, p: Probe, cloud: CloudConfig, own: string, conds: Conditions, now: int)
    ensures var v := Visit(s, l, p, cloud, own, conds, now);
      Follows(s, v.server, v.end.Deployed?)
  {
    var g := ActionGate(l, Name(s, "initial-setup"), Options(None, Some(s.instanceId.Some?)), now);
    ObtainIpFollows(s, g.ledger, p, own, conds, now);
    if g.gate.Open? {
      var b := LaunchBody(s, cloud, p.launch);
      if b.Success? {
        var x := ActionExit(g.ledger, g.gate.frame, Outcome<()>.Ok(()));
        ObtainIpFollows(b.value, x.ledger, p, own, conds, now);
      }
    }
  }

  /** Whenever the obtain-ip body runs, the server's processing ends with `:failed` and the
      failure is in the ledger; the listed IP is kept only when it is non-empty. */
  lemma ObtainIpAlwaysFails(s: Server, l: Ledger, p: Probe, own: string, conds: Conditions, now: int)
    requires s.publicIp.None?
    requires ActionGate(l, Name(s, "obtain-ip"), Options(None, Some(false)), now).gate.Open?
    ensures var v := ObtainIp(s, l, p, own, conds, now);
      v.end == Aborted && Name(s, "obtain-ip") in v.ledger.failures &&
      v.server.publicIp == (if p.describe.Listed? && Nonempty(p.describe.ipAddress) then p.describe.ipAddress else None)
  {
  }

  /** With a remote version in hand, install-jecloud is skipped exactly when that version is
      good enough; otherwise its gate is consulted. */
  lemma InstallUnlessInstalled(s: Server, l: Ledger, p: Probe, own: string, now: int, v: string)
    requires p.version == Success(v)
    ensures Installed(v, own) ==> VersionStep(s, l, p, own, now) == DeploymentStep(s, l)
    ensures !Installed(v, own) ==>
      var g := Enter(l, Name(s, "install-jecloud"), now);
      (g.gate.Blocked? ==> VersionStep(s, l, p, own, now) == Body(s, g.ledger, ThrownOut)) &&
      (g.gate.Open? && InstallBody(p.install, own, s.publicIp.GetOr("")).Some? ==>
         VersionStep(s, l, p, own, now).end == ThrownOut)
  {
  }

  /** An install succeeds only when every step succeeds and the reported version is exactly the
      orchestrator's own. */
  lemma InstallNeedsExactVersion(reply: InstallReply, own: string, ip: string)
    ensures InstallBody(reply, own, ip).None? <==>
      reply.packages.None? && reply.build && reply.upload.None? && reply.version == Success(own)
  {
  }

  /** The sudo test passes only on the output "ok". */
  lemma SudoNeedsOk(reply: Result<string, Exception>, ip: string)
    ensures SudoBody(reply, ip).None? <==> reply == Success("ok")
  {
  }

  lemma {:induction false} DistinctSteps(s: Server, a: string, b: string)
    requires a != b
    ensures Name(s, a) != Name(s, b)
  {
    var p := s.uuid.GetOr("") + "-";
    assert Name(s, a) == p + a && Name(s, b) == p + b;
    assert (p + a)[|p|..] == a && (p + b)[|p|..] == b;
  }

  /** The ledger entry of `name` is the same before and after. */
  predicate SameEntry(a: Ledger, b: Ledger, name: string)
  {
    Lookup(a.failures, name) == Lookup(b.failures, name)
  }

  lemma SshBodyFrame(s: Server, l: Ledger, p: Probe, own: string, conds: Conditions, now: int, n: string)
    requires n != Name(s, "sudo-test") && n != Name(s, "install-jecloud")
    ensures SameEntry(SshBody(s, l, p, own, conds, now).ledger, l, n)
  {
    if p.connect.None? {
      var g := ActionGate(l, Name(s, "sudo-test"), conds.sudoTest, now);
      var dummy := Frame(Name(s, "sudo-test"), None, now);
      OtherEntriesUntouched(l, Name(s, "sudo-test"), conds.sudoTest, now, dummy, Outcome<()>.Abort, n);
      match g.gate {
        case Open(f) =>
          var x := ActionExit(g.ledger, f, AsOutcome(SudoBody(p.sudo, s.publicIp.GetOr(""))));
          assert f.name == Name(s, "sudo-test");
          OtherEntriesUntouched(g.ledger, Name(s, "sudo-test"), conds.sudoTest, now, f,
                                AsOutcome(SudoBody(p.sudo, s.publicIp.GetOr(""))), n);
          VersionStepFrame(s, x.ledger, p, own, now, n);
        case NotNeeded =>
          VersionStepFrame(s, g.ledger, p, own, now, n);
        case Invalid(_) =>
        case Blocked =>
      }
    }
  }

  lemma VersionStepFrame(s: Server, l: Ledger, p: Probe, own: string, now: int, n: string)
    requires n != Name(s, "install-jecloud")
    ensures SameEntry(VersionStep(s, l, p, own, now).ledger, l, n)
  {
    if p.version.Success? {
      var opts := Options(None, Some(Installed(p.version.value, own)));
      var g := ActionGate(l, Name(s, "install-jecloud"), opts, now);
      var dummy := Frame(Name(s, "install-jecloud"), None, now);
      OtherEntriesUntouched(l, Name(s, "install-jecloud"), opts, now, dummy, Outcome<()>.Abort, n);
      match g.gate {
        case Open(f) =>
          assert f.name == Name(s, "install-jecloud");
          OtherEntriesUntouched(g.ledger, Name(s, "install-jecloud"), opts, now, f,
                                AsOutcome(InstallBody(p.install, own, s.publicIp.GetOr(""))), n);
        case NotNeeded =>
        case Invalid(_) =>
        case Blocked =>
      }
    }
  }

  /** When the ssh body is left by an inner `:failed` or by `return true`, the ssh entry, deleted
      when the action started, is not put back, and the ssh action does not count as executed. */
  lemma SshEntryLostOnNonLocalExit(s: Server, l: Ledger, p: Probe, own: string, now: int)
    requires ActionGate(l, Name(s, "ssh"), Intended.ssh, now).gate.Open?
    ensures var g := ActionGate(l, Name(s, "ssh"), Intended.ssh, now);
      var b := SshBody(s, g.ledger, p, own, Intended, now);
      var v := Ssh(s, l, p, own, Intended, now);
      b.end.ThrownOut? || b.end.ReturnedTrue? ==>
        Name(s, "ssh") !in v.ledger.failures && v.ledger == b.ledger
  {
    var g := ActionGate(l, Name(s, "ssh"), Intended.ssh, now);
    DistinctSteps(s, "ssh", "sudo-test");
    DistinctSteps(s, "ssh", "install-jecloud");
    SshBodyFrame(s, g.ledger, p, own, Intended, now, Name(s, "ssh"));
  }

  /** With the intended conditions, no exception leaves the processing of a server. */
  lemma IntendedVisitNeverCrashes(s: Server, l: Ledger, p: Probe, cloud: CloudConfig, own: string, now: int)
    ensures !Visit(s, l, p, cloud, own, Intended, now).end.Crashed?
  {
  }

  /** As written, every server that has an instance and an IP makes the pass raise at the ssh
      action, before anything is run for it; the ledger is left as it was. */
  lemma AsWrittenSshRaises(s: Server, l: Ledger, p: Probe, cloud: CloudConfig, own: string, now: int)
    requires s.instanceId.Some? && s.publicIp.Some?
    ensures Visit(s, l, p, cloud, own, AsWritten, now) == Visited(s, l, Crashed(NoCondition))
  {
  }

  // ---------------------------------------------------------------------------
  // Properties of a pass
  // ---------------------------------------------------------------------------

  lemma {:induction false} DeploymentsUpdate(servers: seq<Server>, i: nat, t: Server)
    requires i < |servers|
    ensures Deployments(servers[i := t]) + (if servers[i].deployment.Some? then 1 else 0)
         == Deployments(servers) + (if t.deployment.Some? then 1 else 0)
  {
    if i > 0 {
      DeploymentsUpdate(servers[1..], i - 1, t);
      assert servers[i := t][1..] == servers[1..][i - 1 := t];
    }
  }

  /** Every visit keeps to what processing a server may change. */
  ghost predicate VisitsFollow(visit: (Server, Ledger, nat) -> Visited)
  {
    forall s: Server, l: Ledger, k: nat :: Follows(s, visit(s, l, k).server, visit(s, l, k).end.Deployed?)
  }

  /** No visit raises. */
  ghost predicate VisitsNeverCrash(visit: (Server, Ledger, nat) -> Visited)
  {
    forall s: Server, l: Ledger, k: nat :: !visit(s, l, k).end.Crashed?
  }

  lemma VisitorFollows(probes: nat -> Probe, cloud: CloudConfig, own: string, conds: Conditions, clock: nat -> int)
    ensures VisitsFollow(VisitorOf(probes, cloud, own, conds, clock))
  {
    forall s: Server, l: Ledger, k: nat
      ensures Follows(s, VisitorOf(probes, cloud, own, conds, clock)(s, l, k).server,
                      VisitorOf(probes, cloud, own, conds, clock)(s, l, k).end.Deployed?)
    {
      VisitFollows(s, l, probes(k), cloud, own, conds, clock(k));
    }
  }

  lemma IntendedVisitorNeverCrashes(probes: nat -> Probe, cloud: CloudConfig, own: string, clock: nat -> int)
    ensures VisitsNeverCrash(VisitorOf(probes, cloud, own, Intended, clock))
  {
    forall s: Server, l: Ledger, k: nat
      ensures !VisitorOf(probes, cloud, own, Intended, clock)(s, l, k).end.Crashed?
    {
      IntendedVisitNeverCrashes(s, l, probes(k), cloud, own, clock(k));
    }
  }

  /** No visit returns true, and a visit that raises raises `e`. */
  ghost predicate CrashesOnlyWith(visit: (Server, Ledger, nat) -> Visited, e: Exception)
  {
    forall s: Server, l: Ledger, k: nat ::
      !visit(s, l, k).end.Deployed? && (visit(s, l, k).end.Crashed? ==> visit(s, l, k).end.error == e)
  }

  /** As written, the ssh action raises for every server that reaches it. */
  lemma AsWrittenSshAlwaysRaises(s: Server, l: Ledger, p: Probe, own: string, now: int)
    ensures Ssh(s, l, p, own, AsWritten, now) == Visited(s, l, Crashed(NoCondition))
  {
  }

  /** As written, the processing of a server never returns true, and the only exception that
      leaves it is the missing-condition error of the ssh action. */
  lemma AsWrittenVisitCannotDeploy(s: Server, l: Ledger, p: Probe, cloud: CloudConfig, own: string, now: int)
    ensures var v := Visit(s, l, p, cloud, own, AsWritten, now);
      !v.end.Deployed? && (v.end.Crashed? ==> v.end.error == NoCondition)
  {
    var g := ActionGate(l, Name(s, "initial-setup"), Options(None, Some(s.instanceId.Some?)), now);
    var g2 := ActionGate(g.ledger, Name(s, "obtain-ip"), Options(None, Some(s.publicIp.Some?)), now);
    AsWrittenSshAlwaysRaises(s, g2.ledger, p, own, now);
    if g.gate.Open? {
      var b := LaunchBody(s, cloud, p.launch);
      if b.Success? {
        var x := ActionExit(g.ledger, g.gate.frame, Outcome<()>.Ok(()));
        var g3 := ActionGate(x.ledger, Name(b.value, "obtain-ip"), Options(None, Some(b.value.publicIp.Some?)), now);
        AsWrittenSshAlwaysRaises(b.value, g3.ledger, p, own, now);
      }
    }
  }

  lemma AsWrittenVisitor(probes: nat -> Probe, cloud: CloudConfig, own: string, clock: nat -> int)
    ensures CrashesOnlyWith(VisitorOf(probes, cloud, own, AsWritten, clock), NoCondition)
  {
    forall s: Server, l: Ledger, k: nat
      ensures var v := VisitorOf(probes, cloud, own, AsWritten, clock)(s, l, k);
        !v.end.Deployed? && (v.end.Crashed? ==> v.end.error == NoCondition)
    {
      AsWrittenVisitCannotDeploy(s, l, probes(k), cloud, own, clock(k));
    }
  }

  /** When no visit returns true and the only exception is `e`, a server whose visit always
      raises `e` makes the pass raise `e`: the servers before it can only continue the pass
      or raise `e` themselves. */
  lemma {:induction false} PassRaisesAtServer(servers: seq<Server>, j: nat, l: Ledger,
                                              visit: (Server, Ledger, nat) -> Visited, i: nat, e: Exception)
    requires j <= i < |servers|
    requires CrashesOnlyWith(visit, e)
    requires forall m: Ledger :: visit(servers[i], m, i).end == Crashed(e)
    ensures StepFrom(servers, j, l, visit).end == PassCrashed(e)
    decreases i - j
  {
    var v := visit(servers[j], l, j);
    if j < i && !v.end.Crashed? {
      var next := servers[j := v.server];
      assert next[i] == servers[i];
      PassRaisesAtServer(next, j + 1, v.ledger, visit, i, e);
    }
  }

  /** A pass that returns true has cleared exactly one deployment request; any other pass
      clears none. */
  lemma {:induction false} PassClearsOneDeployment(servers: seq<Server>, i: nat, l: Ledger,
                                                   visit: (Server, Ledger, nat) -> Visited)
    requires i <= |servers| && VisitsFollow(visit)
    ensures var r := StepFrom(servers, i, l, visit);
      Deployments(r.servers) + (if r.end == Stepped(true) then 1 else 0) == Deployments(servers)
    decreases |servers| - i
  {
    if i < |servers| {
      var v := visit(servers[i], l, i);
      DeploymentsUpdate(servers, i, v.server);
      if !v.end.Deployed? && !v.end.Crashed? {
        PassClearsOneDeployment(servers[i := v.server], i + 1, v.ledger, visit);
      }
    }
  }

  /** A server whose processing ends by `throw :failed` (or normally) does not end the pass:
      the next server is visited with the ledger as that server left it. */
  lemma PassContinuesAfterAbort(servers: seq<Server>, i: nat, l: Ledger, visit: (Server, Ledger, nat) -> Visited)
    requires i < |servers|
    requires visit(servers[i], l, i).end.Aborted? || visit(servers[i], l, i).end.Completed?
    ensures var v := visit(servers[i], l, i);
      StepFrom(servers, i, l, visit) == StepFrom(servers[i := v.server], i + 1, v.ledger, visit)
  {
  }

  /** A pass leaves the servers before its starting point as they were. */
  lemma {:induction false} PassKeepsEarlierServers(servers: seq<Server>, i: nat, l: Ledger,
                                                   visit: (Server, Ledger, nat) -> Visited)
    requires i <= |servers|
    ensures StepFrom(servers, i, l, visit).servers[..i] == servers[..i]
    decreases |servers| - i
  {
    if i < |servers| {
      var v := visit(servers[i], l, i);
      var next := servers[i := v.server];
      if v.end.Completed? || v.end.Aborted? {
        PassKeepsEarlierServers(next, i + 1, v.ledger, visit);
        var r := StepFrom(next, i + 1, v.ledger, visit);
        assert r.servers[..i] == r.servers[..i + 1][..i];
        assert next[..i] == servers[..i];
      } else {
        assert next[..i] == servers[..i];
      }
    }
  }

  /** A pass returns true right after the server whose deployment it cleared: the servers after
      it are untouched. */
  lemma {:induction false} PassStopsAtDeployment(servers: seq<Server>, i: nat, l: Ledger,
                                                 visit: (Server, Ledger, nat) -> Visited)
    requires i <= |servers| && VisitsFollow(visit)
    ensures var r := StepFrom(servers, i, l, visit);
      r.end == Stepped(true) ==>
        exists j :: i <= j < |servers| && servers[j].deployment.Some? && r.servers[j].deployment.None? &&
                    r.servers[j + 1..] == servers[j + 1..]
    decreases |servers| - i
  {
    if i < |servers| {
      var v := visit(servers[i], l, i);
      var next := servers[i := v.server];
      if v.end.Deployed? {
        assert next[i + 1..] == servers[i + 1..];
      } else if v.end.Completed? || v.end.Aborted? {
        PassStopsAtDeployment(next, i + 1, v.ledger, visit);
        var r := StepFrom(next, i + 1, v.ledger, visit);
        if r.end == Stepped(true) {
          var j :| i + 1 <= j < |next| && next[j].deployment.Some? && r.servers[j].deployment.None? &&
                   r.servers[j + 1..] == next[j + 1..];
          assert next[j + 1..] == servers[j + 1..];
          assert servers[j] == next[j];
        }
      }
    }
  }

  /** When no visit raises, neither does the pass. */
  lemma {:induction false} PassNeverCrashes(servers: seq<Server>, i: nat, l: Ledger,
                                            visit: (Server, Ledger, nat) -> Visited)
    requires i <= |servers| && VisitsNeverCrash(visit)
    ensures StepFrom(servers, i, l, visit).end.Stepped?
    decreases |servers| - i
  {
    if i < |servers| {
      var v := visit(servers[i], l, i);
      if !v.end.Deployed? {
        PassNeverCrashes(servers[i := v.server], i + 1, v.ledger, visit);
      }
    }
  }
}
