/** The application object: the stored document and its normalisation, add_server!, deploy!,
    the pass over the servers and the roll-forward loop with its retry. */
module Fleet {
  import opened Wrappers
  import opened Exceptions
  import opened Sessions
  import opened Lifecycle

  /** Seconds the roll-forward loop is willing to sleep before retrying. */
  const MaxRepeatDelay: nat := 10

  /** The document kept in the bucket as state.json: the servers and the failure ledger. */
  datatype Document = Document(servers: seq<Server>, failures: map<string, Entry>)

  /** The document as loaded; None for a key that is absent. */
  datatype StoredDocument = StoredDocument(servers: Option<seq<Server>>, failures: Option<map<string, Entry>>)

  /** Assigning `deployment` on the plain Hash add_server! appends (it is not a Mash). */
  const NoDeploymentSetter := NoMethodError("undefined method `deployment=' for {\"status\"=>\"creating\", \"instance_id\"=>nil}:Hash")

  /** The server add_server! appends. */
  const NewServer := Server(None, None, None, None, Some("creating"))

  // ---------------------------------------------------------------------------
  // read_config
  // ---------------------------------------------------------------------------

  /** The number of servers without a uuid. */
  function Missing(servers: seq<Server>): (n: nat)
    ensures n <= |servers|
  {
    if servers == [] then 0 else (if servers[0].uuid.None? then 1 else 0) + Missing(servers[1..])
  }

  /** `server.uuid ||= uuidgen` along the list; the k-th run of uuidgen prints uuidgen(k). */
  function AssignUuids(servers: seq<Server>, uuidgen: nat -> string, k: nat): (r: seq<Server>)
    ensures |r| == |servers|
  {
    if servers == [] then
      []
    else if servers[0].uuid.Some? then
      [servers[0]] + AssignUuids(servers[1..], uuidgen, k)
    else
      [servers[0].(uuid := Some(uuidgen(k)))] + AssignUuids(servers[1..], uuidgen, k + 1)
  }

  /** The document read_config returns: `servers` defaults to [], every server gets a uuid,
      `failures` defaults to an empty ledger; no stored document at all reads as an empty one. */
  function Normalised(document: Option<StoredDocument>, uuidgen: nat -> string): Document
  {
    var d := document.GetOr(StoredDocument(None, None));
    Document(AssignUuids(d.servers.GetOr([]), uuidgen, 0), d.failures.GetOr(map[]))
  }

  method ReadConfig(document: Option<StoredDocument>, uuidgen: nat -> string) returns (config: Document)
    ensures config == Normalised(document, uuidgen)
  {
    var d := if document.Some? then document.value else StoredDocument(None, None);
    var servers := if d.servers.Some? then d.servers.value else [];
    var out := GiveUuids(servers, uuidgen);
    var failures := if d.failures.Some? then d.failures.value else map[];
    config := Document(out, failures);
  }

  /** The loop of read_config that gives every server without a uuid a fresh one. */
  method GiveUuids(servers: seq<Server>, uuidgen: nat -> string) returns (out: seq<Server>)
    ensures out == AssignUuids(servers, uuidgen, 0)
  {
    out := [];
    var i, k := 0, 0;
    assert servers[0..] == servers;
    while i < |servers|
      invariant 0 <= i <= |servers|
      invariant out + AssignUuids(servers[i..], uuidgen, k) == AssignUuids(servers, uuidgen, 0)
    {
      var server := servers[i];
      ghost var rest := AssignUuids(servers[i..], uuidgen, k);
      AssignStep(servers, i, uuidgen, k);
      if server.uuid.None? {
        server := server.(uuid := Some(uuidgen(k)));
        k := k + 1;
      }
      assert rest == [server] + AssignUuids(servers[i + 1..], uuidgen, k);
      SnocAssoc(out, server, AssignUuids(servers[i + 1..], uuidgen, k));
      out := out + [server];
      i := i + 1;
    }
    assert servers[i..] == [];
  }

  lemma SnocAssoc<T>(a: seq<T>, x: T, b: seq<T>)
    ensures (a + [x]) + b == a + ([x] + b)
  {
  }

  lemma AssignStep(servers: seq<Server>, i: nat, uuidgen: nat -> string, k: nat)
    requires i < |servers|
    ensures AssignUuids(servers[i..], uuidgen, k) ==
      if servers[i].uuid.Some? then [servers[i]] + AssignUuids(servers[i + 1..], uuidgen, k)
      else [servers[i].(uuid := Some(uuidgen(k)))] + AssignUuids(servers[i + 1..], uuidgen, k + 1)
  {
    assert servers[i..][0] == servers[i] && servers[i..][1..] == servers[i + 1..];
  }

  /** Every server ends up with a uuid: an existing one is kept, the j-th server without one gets
      the output of the uuidgen run that follows those of the servers before it; nothing else in
      a server changes. */
  lemma {:induction false} UuidsAssigned(servers: seq<Server>, uuidgen: nat -> string, k: nat)
    ensures var r := AssignUuids(servers, uuidgen, k);
      forall j :: 0 <= j < |servers| ==>
        r[j] == servers[j].(uuid := if servers[j].uuid.Some? then servers[j].uuid
                                    else Some(uuidgen(k + Missing(servers[..j]))))
  {
    forall j | 0 <= j < |servers|
      ensures AssignUuids(servers, uuidgen, k)[j] ==
        servers[j].(uuid := if servers[j].uuid.Some? then servers[j].uuid
                            else Some(uuidgen(k + Missing(servers[..j]))))
    {
      UuidAssigned(servers, uuidgen, k, j);
    }
  }

  /** The same for one position j, by induction on j. */
  lemma {:induction false} UuidAssigned(servers: seq<Server>, uuidgen: nat -> string, k: nat, j: nat)
    requires j < |servers|
    ensures AssignUuids(servers, uuidgen, k)[j] ==
      servers[j].(uuid := if servers[j].uuid.Some? then servers[j].uuid
                          else Some(uuidgen(k + Missing(servers[..j]))))
  {
    if j > 0 {
      var k' := if servers[0].uuid.Some? then k else k + 1;
      UuidAssigned(servers[1..], uuidgen, k', j - 1);
      MissingStep(servers, j);
      assert AssignUuids(servers, uuidgen, k)[j] == AssignUuids(servers[1..], uuidgen, k')[j - 1];
      assert servers[j] == servers[1..][j - 1];
    }
  }

  lemma MissingStep(servers: seq<Server>, j: nat)
    requires 0 < j <= |servers|
    ensures Missing(servers[..j]) == (if servers[0].uuid.None? then 1 else 0) + Missing(servers[1..][..j - 1])
  {
    assert servers[..j][1..] == servers[1..][..j - 1];
    assert servers[..j][0] == servers[0];
  }

  lemma NormalisedDocument(document: Option<StoredDocument>, uuidgen: nat -> string)
    ensures var d := document.GetOr(StoredDocument(None, None));
      var input := d.servers.GetOr([]);
      var r := Normalised(document, uuidgen);
      |r.servers| == |input| &&
      (forall j :: 0 <= j < |input| ==> r.servers[j].uuid.Some?) &&
      (forall j :: 0 <= j < |input| && input[j].uuid.Some? ==> r.servers[j] == input[j]) &&
      (forall j :: 0 <= j < |input| ==> r.servers[j] == input[j].(uuid := r.servers[j].uuid)) &&
      (forall j :: 0 <= j < |input| && input[j].uuid.None? ==> r.servers[j].uuid == Some(uuidgen(Missing(input[..j])))) &&
      r.failures == d.failures.GetOr(map[])
  {
    var d := document.GetOr(StoredDocument(None, None));
    UuidsAssigned(d.servers.GetOr([]), uuidgen, 0);
  }

  // ---------------------------------------------------------------------------
  // The roll-forward loop, as functions of the outside world
  // ---------------------------------------------------------------------------

  /** The outside world, indexed by the clock reading k: clock(k) is what roll_forward! reads
      after the passes; during the pass at k, server i is processed at the reading readings(k)(i)
      and answers probes(k)(i). */
  datatype Env = Env(clock: nat -> int, readings: nat -> nat -> int, probes: nat -> nat -> Probe)

  /** `[0, next_attempt - now].max` */
  function Delay(nextAttempt: int, now: int): (d: nat)
    ensures d >= nextAttempt - now
    ensures d == 0 || d == nextAttempt - now
  {
    if nextAttempt - now > 0 then nextAttempt - now else 0
  }

  datatype PassesEnd = LastPass(nextAttempt: Option<int>) | PassesRaised(error: Exception)

  datatype Passes = Passes(doc: Document, stored: seq<Document>, tick: nat, end: PassesEnd)

  datatype RunEnd = Settled | Quit(delay: nat) | RunRaised(error: Exception) | OutOfFuel

  /** The document, the documents stored so far, the sleeps so far, the next clock reading. */
  datatype Run = Run(doc: Document, stored: seq<Document>, slept: seq<nat>, tick: nat, end: RunEnd)

  /** One pass with a fresh session over the document's ledger, at clock reading `tick`, with
      `conds` given to the ssh and sudo-test actions. */
  function OnePass(doc: Document, env: Env, cloud: CloudConfig, own: string, conds: Conditions, tick: nat): Pass
  {
    StepFrom(doc.servers, 0, Ledger(doc.failures, None, false),
             VisitorOf(env.probes(tick), cloud, own, conds, env.readings(tick)))
  }

  /** roll_forward_step! on a document at a clock reading, as a value the loop is given. */
  function PassOf(env: Env, cloud: CloudConfig, own: string, conds: Conditions): (Document, nat) -> Pass
  {
    (d: Document, t: nat) => OnePass(d, env, cloud, own, conds, t)
  }

  /** `pass` is roll_forward_step! run with a fresh session against `env`. */
  ghost predicate Performs(pass: (Document, nat) -> Pass, env: Env, cloud: CloudConfig, own: string, conds: Conditions)
  {
    forall d: Document, t: nat {:trigger OnePass(d, env, cloud, own, conds, t)} ::
      pass(d, t) == OnePass(d, env, cloud, own, conds, t)
  }

  /** A pass that returns true has fewer deployment requests left. */
  ghost predicate Shrinks(pass: (Document, nat) -> Pass)
  {
    forall d: Document, t: nat :: pass(d, t).end == Stepped(true) ==> Deployments(pass(d, t).servers) < Deployments(d.servers)
  }

  /** A pass never raises. */
  ghost predicate Safe(pass: (Document, nat) -> Pass)
  {
    forall d: Document, t: nat :: pass(d, t).end.Stepped?
  }

  /** Whatever the conditions, a pass that returns true leaves fewer deployment requests. */
  lemma PassOfShrinks(env: Env, cloud: CloudConfig, own: string, conds: Conditions)
    ensures Shrinks(PassOf(env, cloud, own, conds))
  {
    forall d: Document, t: nat
      ensures PassOf(env, cloud, own, conds)(d, t).end == Stepped(true) ==>
        Deployments(PassOf(env, cloud, own, conds)(d, t).servers) < Deployments(d.servers)
    {
      var l := Ledger(d.failures, None, false);
      var visit := VisitorOf(env.probes(t), cloud, own, conds, env.readings(t));
      VisitorFollows(env.probes(t), cloud, own, conds, env.readings(t));
      PassClearsOneDeployment(d.servers, 0, l, visit);
    }
  }

  /** With the intended conditions (ssh and sudo-test run unconditionally), no pass raises. */
  lemma IntendedPassOfSafe(env: Env, cloud: CloudConfig, own: string)
    ensures Safe(PassOf(env, cloud, own, Intended))
  {
    forall d: Document, t: nat
      ensures PassOf(env, cloud, own, Intended)(d, t).end.Stepped?
    {
      var l := Ledger(d.failures, None, false);
      var visit := VisitorOf(env.probes(t), cloud, own, Intended, env.readings(t));
      IntendedVisitorNeverCrashes(env.probes(t), cloud, own, env.readings(t));
      PassNeverCrashes(d.servers, 0, l, visit);
    }
  }

  /** As written, a pass over a document with a server that has both an instance and an IP
      raises the missing-condition error of the ssh action. */
  lemma AsWrittenPassRaises(doc: Document, env: Env, cloud: CloudConfig, own: string, tick: nat, i: nat)
    requires i < |doc.servers| && doc.servers[i].instanceId.Some? && doc.servers[i].publicIp.Some?
    ensures OnePass(doc, env, cloud, own, AsWritten, tick).end == PassCrashed(NoCondition)
  {
    var visit := VisitorOf(env.probes(tick), cloud, own, AsWritten, env.readings(tick));
    AsWrittenVisitor(env.probes(tick), cloud, own, env.readings(tick));
    forall m: Ledger
      ensures visit(doc.servers[i], m, i).end == Crashed(NoCondition)
    {
      AsWrittenSshRaises(doc.servers[i], m, env.probes(tick)(i), cloud, own, env.readings(tick)(i));
    }
    PassRaisesAtServer(doc.servers, 0, Ledger(doc.failures, None, false), visit, i, NoCondition);
  }

  /** As written, roll_forward! on such a document raises the same error from its first pass:
      nothing is stored and nothing slept. */
  lemma AsWrittenRollForwardRaises(doc: Document, stored: seq<Document>, slept: seq<nat>, env: Env,
                                   cloud: CloudConfig, own: string, tick: nat, fuel: nat, i: nat)
    requires i < |doc.servers| && doc.servers[i].instanceId.Some? && doc.servers[i].publicIp.Some?
    ensures (PassOfShrinks(env, cloud, own, AsWritten);
             var run := Attempts(doc, stored, slept, PassOf(env, cloud, own, AsWritten), env.clock, tick, fuel);
             run.end == RunRaised(NoCondition) && run.stored == stored && run.slept == slept)
  {
    PassOfShrinks(env, cloud, own, AsWritten);
    AsWrittenPassRaises(doc, env, cloud, own, tick, i);
  }

  /** `while cont`: one pass after another, each stored once its block is over, until a pass
      returns false; an exception leaves before the store. */
  function RunPasses(doc: Document, stored: seq<Document>, pass: (Document, nat) -> Pass, tick: nat): Passes
    requires Shrinks(pass)
    decreases Deployments(doc.servers)
  {
    var p := pass(doc, tick);
    var next := Document(p.servers, p.ledger.failures);
    match p.end
    case PassCrashed(e) => Passes(next, stored, tick + 1, PassesRaised(e))
    case Stepped(cont) =>
      if cont then RunPasses(next, stored + [next], pass, tick + 1)
      else Passes(next, stored + [next], tick + 1, LastPass(p.ledger.nextAttempt))
  }

  /** roll_forward! from its (re)start; `fuel` bounds the number of retries. */
  function Attempts(doc: Document, stored: seq<Document>, slept: seq<nat>, pass: (Document, nat) -> Pass,
                    clock: nat -> int, tick: nat, fuel: nat): Run
    requires Shrinks(pass)
    decreases fuel, 1
  {
    AfterPasses(RunPasses(doc, stored, pass, tick), slept, pass, clock, fuel)
  }

  /** What follows the `while cont` loop: stop when nothing is due, quit when the wait is too
      long, otherwise sleep and retry. */
  function AfterPasses(r: Passes, slept: seq<nat>, pass: (Document, nat) -> Pass, clock: nat -> int, fuel: nat): Run
    requires Shrinks(pass)
    decreases fuel, 0
  {
    match r.end
    case PassesRaised(e) => Run(r.doc, r.stored, slept, r.tick, RunRaised(e))
    case LastPass(na) =>
      if na.None? then
        Run(r.doc, r.stored, slept, r.tick, Settled)
      else
        var delay := Delay(na.value, clock(r.tick));
        if delay > MaxRepeatDelay then Run(r.doc, r.stored, slept, r.tick + 1, Quit(delay))
        else if fuel == 0 then Run(r.doc, r.stored, slept, r.tick + 1, OutOfFuel)
        else Attempts(r.doc, r.stored, slept + [delay], pass, clock, r.tick + 1, fuel - 1)
  }

  /** After the passes: nothing due means no sleep; a due time more than MaxRepeatDelay away
      means quitting without a sleep; otherwise the loop sleeps max(0, due - now) and restarts,
      as far as the retry bound allows. */
  lemma WaitRule(r: Passes, slept: seq<nat>, pass: (Document, nat) -> Pass, clock: nat -> int, fuel: nat, na: Option<int>)
    requires Shrinks(pass)
    requires r.end == LastPass(na)
    ensures var run := AfterPasses(r, slept, pass, clock, fuel);
      (na.None? ==> run == Run(r.doc, r.stored, slept, r.tick, Settled)) &&
      (na.Some? && Delay(na.value, clock(r.tick)) > MaxRepeatDelay ==>
         run == Run(r.doc, r.stored, slept, r.tick + 1, Quit(Delay(na.value, clock(r.tick))))) &&
      (na.Some? && Delay(na.value, clock(r.tick)) <= MaxRepeatDelay && fuel == 0 ==>
         run == Run(r.doc, r.stored, slept, r.tick + 1, OutOfFuel)) &&
      (na.Some? && Delay(na.value, clock(r.tick)) <= MaxRepeatDelay && fuel > 0 ==>
         run == Attempts(r.doc, r.stored, slept + [Delay(na.value, clock(r.tick))], pass, clock, r.tick + 1, fuel - 1))
  {
  }

  lemma PrefixOfSnoc<T>(a: seq<T>, x: T, b: seq<T>)
    requires |b| > |a| && b[..|a| + 1] == a + [x]
    ensures b[..|a|] == a
  {
    assert b[..|a|] == b[..|a| + 1][..|a|];
  }

  /** The passes end without a raise, each pass's document is stored after it, the last stored
      document is the final one, and there is at most one more pass than there are deployment
      requests. */
  lemma {:induction false} PassesStoreEachPass(doc: Document, stored: seq<Document>, pass: (Document, nat) -> Pass, tick: nat)
    requires Shrinks(pass) && Safe(pass)
    ensures var r := RunPasses(doc, stored, pass, tick);
      r.end.LastPass? &&
      |r.stored| > |stored| && r.stored[..|stored|] == stored && r.stored[|r.stored| - 1] == r.doc &&
      r.tick - tick == |r.stored| - |stored| && r.tick - tick <= Deployments(doc.servers) + 1
    decreases Deployments(doc.servers)
  {
    var p := pass(doc, tick);
    var next := Document(p.servers, p.ledger.failures);
    assert p.end.Stepped?;
    if p.end.cont {
      PassesStoreEachPass(next, stored + [next], pass, tick + 1);
      var r := RunPasses(next, stored + [next], pass, tick + 1);
      PrefixOfSnoc(stored, next, r.stored);
    } else {
      assert (stored + [next])[..|stored|] == stored;
    }
  }

  /** The document the pass that stored `stored[k]` ran on: `doc` for the first pass after
      `base` documents, and the document stored just before otherwise. */
  function PassInput(doc: Document, stored: seq<Document>, base: nat, k: nat): Document
    requires base <= k <= |stored|
  {
    if k == base then doc else stored[k - 1]
  }

  /** What the passes store: the first pass runs on `doc`, each later pass on the document
      stored before it, and each stored document is the servers and the ledger its pass left.
      Every pass but the last returned true, the last returned false, and the passes end with
      the next_attempt of the last one. */
  lemma PassesStoreTheirResults(doc: Document, stored: seq<Document>, pass: (Document, nat) -> Pass, tick: nat)
    requires Shrinks(pass) && Safe(pass)
    ensures var r := RunPasses(doc, stored, pass, tick);
      |r.stored| > |stored| && r.tick == tick + (|r.stored| - |stored|) &&
      (forall k :: |stored| <= k < |r.stored| ==>
         var p := pass(PassInput(doc, r.stored, |stored|, k), tick + (k - |stored|));
         r.stored[k] == Document(p.servers, p.ledger.failures) && p.end == Stepped(k < |r.stored| - 1)) &&
      r.end == LastPass(pass(PassInput(doc, r.stored, |stored|, |r.stored| - 1), r.tick - 1).ledger.nextAttempt)
  {
    var r := RunPasses(doc, stored, pass, tick);
    PassesStoreEachPass(doc, stored, pass, tick);
    forall k | |stored| <= k < |r.stored|
      ensures var p := pass(PassInput(doc, r.stored, |stored|, k), tick + (k - |stored|));
        r.stored[k] == Document(p.servers, p.ledger.failures) && p.end == Stepped(k < |r.stored| - 1)
    {
      StoredAt(doc, stored, pass, tick, k);
    }
    PassesEndWithLast(doc, stored, pass, tick);
  }

  lemma {:induction false} StoredAt(doc: Document, stored: seq<Document>, pass: (Document, nat) -> Pass, tick: nat, k: nat)
    requires Shrinks(pass) && Safe(pass)
    requires |stored| <= k < |RunPasses(doc, stored, pass, tick).stored|
    ensures var r := RunPasses(doc, stored, pass, tick);
      var p := pass(PassInput(doc, r.stored, |stored|, k), tick + (k - |stored|));
      r.stored[k] == Document(p.servers, p.ledger.failures) && p.end == Stepped(k < |r.stored| - 1)
    decreases Deployments(doc.servers)
  {
    var p := pass(doc, tick);
    var next := Document(p.servers, p.ledger.failures);
    assert p.end.Stepped?;
    if p.end.cont {
      var r := RunPasses(next, stored + [next], pass, tick + 1);
      PassesStoreEachPass(next, stored + [next], pass, tick + 1);
      assert r.stored[|stored|] == r.stored[..|stored| + 1][|stored|];
      if k > |stored| {
        StoredAt(next, stored + [next], pass, tick + 1, k);
        assert PassInput(next, r.stored, |stored| + 1, k) == PassInput(doc, r.stored, |stored|, k);
      }
    }
  }

  lemma {:induction false} PassesEndWithLast(doc: Document, stored: seq<Document>, pass: (Document, nat) -> Pass, tick: nat)
    requires Shrinks(pass) && Safe(pass)
    ensures var r := RunPasses(doc, stored, pass, tick);
      |r.stored| > |stored| && r.tick == tick + (|r.stored| - |stored|) &&
      r.end == LastPass(pass(PassInput(doc, r.stored, |stored|, |r.stored| - 1), r.tick - 1).ledger.nextAttempt)
    decreases Deployments(doc.servers)
  {
    var p := pass(doc, tick);
    var next := Document(p.servers, p.ledger.failures);
    PassesStoreEachPass(doc, stored, pass, tick);
    assert p.end.Stepped?;
    if p.end.cont {
      var r := RunPasses(next, stored + [next], pass, tick + 1);
      PassesStoreEachPass(next, stored + [next], pass, tick + 1);
      PassesEndWithLast(next, stored + [next], pass, tick + 1);
      assert r.stored[|stored|] == r.stored[..|stored| + 1][|stored|];
      assert PassInput(next, r.stored, |stored| + 1, |r.stored| - 1) == PassInput(doc, r.stored, |stored|, |r.stored| - 1);
    }
  }

  /** roll_forward! never raises, every sleep is at most MaxRepeatDelay, and there are at most
      `fuel` sleeps. */
  lemma {:induction false} AttemptsSleepBriefly(doc: Document, stored: seq<Document>, slept: seq<nat>,
                                                pass: (Document, nat) -> Pass, clock: nat -> int, tick: nat, fuel: nat)
    requires Shrinks(pass) && Safe(pass)
    ensures var run := Attempts(doc, stored, slept, pass, clock, tick, fuel);
      !run.end.RunRaised? &&
      |run.slept| >= |slept| && run.slept[..|slept|] == slept && |run.slept| - |slept| <= fuel &&
      (forall k :: |slept| <= k < |run.slept| ==> run.slept[k] <= MaxRepeatDelay)
    decreases fuel
  {
    var r := RunPasses(doc, stored, pass, tick);
    PassesStoreEachPass(doc, stored, pass, tick);
    var na := r.end.nextAttempt;
    if na.Some? && fuel > 0 {
      var delay := Delay(na.value, clock(r.tick));
      if delay <= MaxRepeatDelay {
        AttemptsSleepBriefly(r.doc, r.stored, slept + [delay], pass, clock, r.tick + 1, fuel - 1);
        var run := Attempts(r.doc, r.stored, slept + [delay], pass, clock, r.tick + 1, fuel - 1);
        PrefixOfSnoc(slept, delay, run.slept);
      } else {
        assert Attempts(doc, stored, slept, pass, clock, tick, fuel).slept == slept;
      }
    }
  }

  // ---------------------------------------------------------------------------
  // The application object
  // ---------------------------------------------------------------------------

  datatype DeployEnd = InvalidRef(message: string) | DeployRaised(error: Exception) | RolledForward(end: RunEnd)

  class Application {
    const cloud: CloudConfig
    /** The orchestrator's own VERSION. */
    const own: string
    /** The conditions the ssh and sudo-test actions are given. */
    const conds: Conditions
    var servers: seq<Server>
    var failures: map<string, Entry>
    /** Every document written to the bucket, in order. */
    var stored: seq<Document>
    /** Every sleep of the roll-forward loop, in order. */
    var slept: seq<nat>

    function Config(): Document
      reads this
    {
      Document(servers, failures)
    }

    constructor(cloud: CloudConfig, own: string, conds: Conditions, document: Option<StoredDocument>, uuidgen: nat -> string)
      ensures this.cloud == cloud && this.own == own && this.conds == conds
      ensures Config() == Normalised(document, uuidgen) && stored == [] && slept == []
    {
      var config := ReadConfig(document, uuidgen);
      this.cloud := cloud;
      this.own := own;
      this.conds := conds;
      servers := config.servers;
      failures := config.failures;
      stored := [];
      slept := [];
    }

    /** update_config around add_server!'s block: append, then store; the block's value is returned. */
    method AddServer() returns (server: Server)
      modifies this
      ensures server == NewServer
      ensures servers == old(servers) + [NewServer] && failures == old(failures)
      ensures stored == old(stored) + [Config()] && slept == old(slept)
    {
      server := NewServer;
      servers := servers + [server];
      stored := stored + [Config()];
    }

    /** deploy! with `rev` the stripped output of `git rev-parse`. */
    method Deploy(gitRef: string, rev: string, env: Env, fuel: nat) returns (r: DeployEnd)
      modifies this
      ensures |rev| != 40 ==>
        r == InvalidRef("Invalid Git ref: " + gitRef) &&
        Config() == old(Config()) && stored == old(stored) && slept == old(slept)
      ensures |rev| == 40 && old(servers) == [] ==>
        r == DeployRaised(NoDeploymentSetter) &&
        servers == [NewServer] && failures == old(failures) &&
        stored == old(stored) + [Config()] && slept == old(slept)
      ensures |rev| == 40 && old(servers) != [] ==>
        var start := Document(old(servers)[0 := old(servers)[0].(deployment := Some(rev))], old(failures));
        (PassOfShrinks(env, cloud, own, conds);
         var run := Attempts(start, old(stored), old(slept), PassOf(env, cloud, own, conds), env.clock, 0, fuel);
         r == RolledForward(run.end) && Config() == run.doc && stored == run.stored && slept == run.slept)
    {
      if |rev| != 40 {
        return InvalidRef("Invalid Git ref: " + gitRef);
      }
      if servers == [] {
        var server := AddServer();
        return DeployRaised(NoDeploymentSetter);
      }
      servers := servers[0 := servers[0].(deployment := Some(rev))];
      PassOfShrinks(env, cloud, own, conds);
      var end := RollForward(env, fuel, PassOf(env, cloud, own, conds));
      return RolledForward(end);
    }

    /** roll_forward!: passes while they return true, then the wait decision and the retry. */
    method RollForward(env: Env, fuel: nat, ghost pass: (Document, nat) -> Pass) returns (end: RunEnd)
      requires Shrinks(pass) && Performs(pass, env, cloud, own, conds)
      modifies this
      ensures var run := Attempts(old(Config()), old(stored), old(slept), pass, env.clock, 0, fuel);
        end == run.end && Config() == run.doc && stored == run.stored && slept == run.slept
    {
      ghost var goal := Attempts(Config(), stored, slept, pass, env.clock, 0, fuel);
      var tick: nat := 0;
      var attempts := fuel;
      while true
        invariant Attempts(Config(), stored, slept, pass, env.clock, tick, attempts) == goal
        decreases attempts
      {
        ghost var passes := RunPasses(Config(), stored, pass, tick);
        var crash, nextAttempt;
        crash, nextAttempt, tick := PassesUntilDone(env, tick, pass);
        if crash.Some? {
          return RunRaised(crash.value);
        }
        WaitRule(passes, slept, pass, env.clock, attempts, nextAttempt);
        if nextAttempt.None? {
          return Settled;
        }
        var delay := Delay(nextAttempt.value, env.clock(tick));
        tick := tick + 1;
        if delay > MaxRepeatDelay {
          return Quit(delay);
        }
        if attempts == 0 {
          return OutOfFuel;
        }
        slept := slept + [delay];
        attempts := attempts - 1;
      }
    }

    /** The `while cont` loop of roll_forward!: a pass with a fresh session, the store once the
        pass is over, until a pass returns false or raises. */
    method PassesUntilDone(env: Env, tick: nat, ghost pass: (Document, nat) -> Pass)
      returns (crash: Option<Exception>, nextAttempt: Option<int>, tickAfter: nat)
      requires Shrinks(pass) && Performs(pass, env, cloud, own, conds)
      modifies this
      ensures var r := RunPasses(old(Config()), old(stored), pass, tick);
        Config() == r.doc && stored == r.stored && tickAfter == r.tick && slept == old(slept) &&
        (crash.Some? <==> r.end.PassesRaised?) &&
        (crash.Some? ==> r.end == PassesRaised(crash.value)) &&
        (crash.None? ==> r.end == LastPass(nextAttempt))
    {
      ghost var passes := RunPasses(Config(), stored, pass, tick);
      tickAfter := tick;
      var cont := true;
      nextAttempt := None;
      while cont
        invariant slept == old(slept)
        invariant cont ==> RunPasses(Config(), stored, pass, tickAfter) == passes
        invariant !cont ==> passes == Passes(Config(), stored, tickAfter, LastPass(nextAttempt))
        decreases if cont then Deployments(servers) + 1 else 0
      {
        ghost var before := Config();
        var session := new Session(failures);
        var result := RollForwardStep(session, env.probes(tickAfter), env.readings(tickAfter));
        assert pass(before, tickAfter) == OnePass(before, env, cloud, own, conds, tickAfter) == Pass(servers, session.State(), result);
        failures := session.failures;
        tickAfter := tickAfter + 1;
        match result {
          case PassCrashed(e) =>
            return Some(e), None, tickAfter;
          case Stepped(c) =>
            stored := stored + [Config()];
            cont := c;
            nextAttempt := session.nextAttempt;
        }
      }
      crash := None;
    }

    /** roll_forward_step!: each server in turn, each inside its own `catch :failed`. */
    method RollForwardStep(session: Session, probes: nat -> Probe, clock: nat -> int) returns (result: PassEnd)
      modifies this, session
      ensures var r := StepFrom(old(servers), 0, old(session.State()), VisitorOf(probes, cloud, own, conds, clock));
        servers == r.servers && session.State() == r.ledger && result == r.end
      ensures failures == old(failures) && stored == old(stored) && slept == old(slept)
    {
      var i := 0;
      while i < |servers|
        invariant 0 <= i <= |servers| == |old(servers)|
        invariant StepFrom(servers, i, session.State(), VisitorOf(probes, cloud, own, conds, clock))
               == StepFrom(old(servers), 0, old(session.State()), VisitorOf(probes, cloud, own, conds, clock))
        invariant failures == old(failures) && stored == old(stored) && slept == old(slept)
      {
        var end := ProcessServer(session, i, probes(i), clock(i));
        match end {
          case Deployed =>
            return Stepped(true);
          case Crashed(e) =>
            return PassCrashed(e);
          case Completed =>
          case Aborted =>
        }
        i := i + 1;
      }
      return Stepped(false);
    }

    /** One server: initial-setup, then obtain-ip and the rest. */
    method ProcessServer(session: Session, i: nat, p: Probe, now: int) returns (end: End)
      requires i < |servers|
      modifies this, session
      ensures var v := Visit(old(servers[i]), old(session.State()), p, cloud, own, conds, now);
        servers == old(servers)[i := v.server] && session.State() == v.ledger && end == v.end
      ensures failures == old(failures) && stored == old(stored) && slept == old(slept)
    {
      var server := servers[i];
      var gate := session.Action(Name(server, "initial-setup"), Options(None, Some(server.instanceId.Some?)), now);
      match gate {
        case Invalid(e) =>
          return Crashed(e);
        case Blocked =>
          return Aborted;
        case NotNeeded =>
        case Open(frame) =>
          var launched := LaunchBody(server, cloud, p.launch);
          if launched.Failure? {
            var flow := session.FinishAction(frame, Outcome<()>.Raise(launched.error));
            return Aborted;
          }
          servers := servers[i := launched.value];
          var flow := session.FinishAction(frame, Outcome<()>.Ok(()));
      }
      end := RunObtainIp(session, i, p, now);
    }

    method RunObtainIp(session: Session, i: nat, p: Probe, now: int) returns (end: End)
      requires i < |servers|
      modifies this, session
      ensures var v := ObtainIp(old(servers[i]), old(session.State()), p, own, conds, now);
        servers == old(servers)[i := v.server] && session.State() == v.ledger && end == v.end
      ensures failures == old(failures) && stored == old(stored) && slept == old(slept)
    {
      var server := servers[i];
      var gate := session.Action(Name(server, "obtain-ip"), Options(None, Some(server.publicIp.Some?)), now);
      match gate
      case Invalid(e) =>
        return Crashed(e);
      case Blocked =>
        return Aborted;
      case NotNeeded =>
        end := RunSsh(session, i, p, now);
      case Open(frame) =>
        var attempt := ObtainIpBody(server, p.describe);
        servers := servers[i := attempt.server];
        var flow := session.FinishAction(frame, Outcome<()>.Raise(attempt.error));
        return Aborted;
    }

    method RunSsh(session: Session, i: nat, p: Probe, now: int) returns (end: End)
      requires i < |servers|
      modifies this, session
      ensures var v := Ssh(old(servers[i]), old(session.State()), p, own, conds, now);
        servers == old(servers)[i := v.server] && session.State() == v.ledger && end == v.end
      ensures failures == old(failures) && stored == old(stored) && slept == old(slept)
    {
      var gate := session.Action(Name(servers[i], "ssh"), conds.ssh, now);
      match gate
      case Invalid(e) =>
        return Crashed(e);
      case Blocked =>
        return Aborted;
      case NotNeeded =>
        return Completed;
      case Open(frame) =>
        var body := RunSshBody(session, i, p, now);
        var flow := session.FinishAction(frame, BodyOutcome(body));
        end := if body.ReturnedTrue? then Deployed else if body.Normal? then Completed else Aborted;
    }

    /** The block given to `Net::SSH.start`. */
    method RunSshBody(session: Session, i: nat, p: Probe, now: int) returns (end: BodyEnd)
      requires i < |servers|
      modifies this, session
      ensures var b := SshBody(old(servers[i]), old(session.State()), p, own, conds, now);
        servers == old(servers)[i := b.server] && session.State() == b.ledger && end == b.end
      ensures failures == old(failures) && stored == old(stored) && slept == old(slept)
    {
      if p.connect.Some? {
        return Raised(p.connect.value);
      }
      var gate := session.Action(Name(servers[i], "sudo-test"), conds.sudoTest, now);
      match gate {
        case Invalid(e) =>
          return Raised(e);
        case Blocked =>
          return ThrownOut;
        case NotNeeded =>
        case Open(frame) =>
          var err := SudoBody(p.sudo, servers[i].publicIp.GetOr(""));
          var flow := session.FinishAction(frame, AsOutcome(err));
          if err.Some? {
            return ThrownOut;
          }
      }
      end := RunVersionTest(session, i, p, now);
    }

    /** The version test, install-jecloud and the deployment. */
    method RunVersionTest(session: Session, i: nat, p: Probe, now: int) returns (end: BodyEnd)
      requires i < |servers|
      modifies this, session
      ensures var b := VersionStep(old(servers[i]), old(session.State()), p, own, now);
        servers == old(servers)[i := b.server] && session.State() == b.ledger && end == b.end
      ensures failures == old(failures) && stored == old(stored) && slept == old(slept)
    {
      match p.version
      case Failure(e) =>
        return Raised(e);
      case Success(v) =>
        var installed := Installed(v, own);
        var gate := session.Action(Name(servers[i], "install-jecloud"), Options(None, Some(installed)), now);
        match gate {
          case Invalid(e) =>
            return Raised(e);
          case Blocked =>
            return ThrownOut;
          case NotNeeded =>
          case Open(frame) =>
            var err := InstallBody(p.install, own, servers[i].publicIp.GetOr(""));
            var flow := session.FinishAction(frame, AsOutcome(err));
            if err.Some? {
              return ThrownOut;
            }
        }
        end := ClearDeployment(i);
    }

    /** A requested deployment is taken as done: clear it and return true from the pass. */
    method ClearDeployment(i: nat) returns (end: BodyEnd)
      requires i < |servers|
      modifies this
      ensures var b := DeploymentStep(old(servers[i]), Ledger(map[], None, false));
        servers == old(servers)[i := b.server] && end == b.end
      ensures failures == old(failures) && stored == old(stored) && slept == old(slept)
    {
      if servers[i].deployment.Some? {
        servers := servers[i := servers[i].(deployment := None)];
        return ReturnedTrue;
      }
      return Normal;
    }
  }
}
