/** What every crashed and resumed bring-up keeps, and when it gets there. */
module BootstrapTheorems {
  import opened Basics
  import opened BootstrapModel
  import opened Records

  /** How far a phase is; a failed bring-up is nowhere. */
  function Rank(p: BootPhase): nat
  {
    match p
    case BootUnspecified => 0
    case NotBootstrapped => 0
    case GeneratingSecrets => 1
    case Staging => 2
    case AwaitingInstall => 3
    case Bootstrapping => 4
    case AwaitingHealthy => 5
    case FetchingKubeconfig => 5
    case BootReady => 6
    case BootFailed => 0
  }

  function Successor(p: BootPhase): BootPhase
  {
    match p
    case NotBootstrapped => GeneratingSecrets
    case GeneratingSecrets => Staging
    case Staging => AwaitingInstall
    case AwaitingInstall => Bootstrapping
    case Bootstrapping => AwaitingHealthy
    case AwaitingHealthy => BootReady
    case FetchingKubeconfig => BootReady
    case _ => p
  }

  /** What the bring-up was asked for; a pass changes only phase, message and start time. */
  predicate SameOrder(a: ClusterBootstrap, b: ClusterBootstrap)
  {
    a.cluster == b.cluster && a.cpMac == b.cpMac && a.cpEndpoint == b.cpEndpoint && a.cpIp == b.cpIp &&
    a.talosVersion == b.talosVersion && a.kubernetesVersion == b.kubernetesVersion
  }

  /** The machine config was rendered from bundle `b` for this bring-up. */
  predicate Rendered(c: MachineConfig, cb: ClusterBootstrap, b: Bundle)
  {
    c == ConfigFor(cb, b, c.schematic)
  }

  /** What each phase vouches for. */
  ghost predicate Good(w: World)
  {
    && w.inits == (if w.initialised then 1 else 0)
    && (w.record.Some? ==>
          var cb := w.record.value;
          && (Rank(cb.phase) >= 2 ==> w.secrets.Some?)
          && (Rank(cb.phase) >= 3 ==>
                && w.talos == Some(TalosFor(cb, w.secrets.value))
                && cb.cpMac in w.staged && Rendered(w.staged[cb.cpMac], cb, w.secrets.value))
          && (Rank(cb.phase) >= 5 ==> w.initialised)
          && (cb.phase == BootReady ==> w.kube.Some? && w.cluster.Some? && w.pool.Some? && w.machine.Some?))
  }

  /** Staging is behind: what the node boots from and what reaches it are fixed. */
  predicate Staged(w: World)
  {
    w.record.Some? && (Rank(w.record.value.phase) >= 3 || w.record.value.phase == BootFailed)
  }

  /** From one world to a later one: what is settled stays, and the phase moved at most one step or to Failed. */
  ghost predicate Onward(w: World, u: World)
  {
    && (w.initialised ==> u.initialised)
    && (Staged(w) ==> u.secrets == w.secrets && u.talos == w.talos && u.staged == w.staged)
    && (w.record.Some? && Terminal(w.record.value.phase) ==> u == w)
    && (w.secrets.Some? ==> u.secrets == w.secrets)
    && (w.record.None? ==> u.record.None?)
    && (w.record.Some? ==>
          && u.record.Some? && SameOrder(w.record.value, u.record.value)
          && (|| u.record.value.phase == w.record.value.phase
              || (!Terminal(w.record.value.phase) && u.record.value.phase in {Successor(w.record.value.phase), BootFailed})))
    && (w.cluster.Some? ==> u.cluster == w.cluster) && (w.pool.Some? ==> u.pool == w.pool) && (w.machine.Some? ==> u.machine == w.machine)
  }

  lemma CutOne(w: World, e: Effect, k: nat)
    requires k <= 1
    ensures AppliedAll(w, [e][..k]) == if k == 0 then w else Applied(w, e)
  {
    if k == 1 { assert [e][..1] == [e] && [e][1..] == []; }
  }

  lemma CutTwo(w: World, a: Effect, b: Effect, k: nat)
    requires k <= 2
    ensures AppliedAll(w, [a, b][..k]) == if k == 0 then w else if k == 1 then Applied(w, a) else Applied(Applied(w, a), b)
  {
    if k > 0 {
      assert [a, b][..k][1..] == [b][..k - 1];
      CutOne(Applied(w, a), b, k - 1);
    }
  }

  /** The first `k` effects, one after the other. */
  lemma CutCons(w: World, e: Effect, es: seq<Effect>, k: nat)
    requires k <= |es| + 1
    ensures AppliedAll(w, ([e] + es)[..k]) == if k == 0 then w else AppliedAll(Applied(w, e), es[..k - 1])
  {
    if k > 0 { assert ([e] + es)[..k][1..] == es[..k - 1]; }
  }

  lemma CutFour(w: World, a: Effect, b: Effect, c: Effect, d: Effect, k: nat)
    requires k <= 4
    ensures var w1 := Applied(w, a);
            var w2 := Applied(w1, b);
            var w3 := Applied(w2, c);
            AppliedAll(w, ([a] + ([b] + [c, d]))[..k]) ==
              if k == 0 then w else if k == 1 then w1 else if k == 2 then w2 else if k == 3 then w3 else Applied(w3, d)
  {
    CutCons(w, a, [b] + [c, d], k);
    if k > 0 {
      CutCons(Applied(w, a), b, [c, d], k - 1);
      if k > 1 { CutTwo(Applied(Applied(w, a), b), c, d, k - 2); }
    }
  }

  lemma SecretsStep(w: World, cb: ClusterBootstrap, r: Replies, k: nat)
    requires Good(w) && w.record == Some(cb) && cb.phase == GeneratingSecrets && k <= |SecretsEffects(w, cb, r)|
    ensures var u := AppliedAll(w, SecretsEffects(w, cb, r)[..k]); Good(u) && Onward(w, u)
  {
    if w.secrets.Some? {
      CutOne(w, To(cb, Staging, "secrets already present"), k);
    } else {
      CutTwo(w, PutSecrets(r.minted), To(cb, Staging, "generated cluster secrets"), k);
    }
  }

  lemma StageStep(w: World, cb: ClusterBootstrap, r: Replies, k: nat)
    requires Good(w) && w.record == Some(cb) && cb.phase == Staging && k <= |StageEffects(w, cb, r)|
    ensures var u := AppliedAll(w, StageEffects(w, cb, r)[..k]); Good(u) && Onward(w, u)
  {
    if r.schematic.Some? {
      var e1, e2, e3, e4 := PutTalos(TalosFor(cb, w.secrets.value)), PutKube(None),
        StageConfig(cb.cpMac, ConfigFor(cb, w.secrets.value, r.schematic.value)),
        To(cb, AwaitingInstall, "staged; awaiting install + boot");
      assert StageEffects(w, cb, r) == [e1] + ([e2] + [e3, e4]);
      CutFour(w, e1, e2, e3, e4, k);
    }
  }

  lemma InitStep(w: World, cb: ClusterBootstrap, r: Replies, k: nat)
    requires Good(w) && w.record == Some(cb) && cb.phase == Bootstrapping && k <= |InitEffects(w, cb, r)| && Truthful(w, r.init)
    ensures var u := AppliedAll(w, InitEffects(w, cb, r)[..k]); Good(u) && Onward(w, u)
  {
    match r.init
    case InitOk => CutTwo(w, InitEtcd(true), To(cb, AwaitingHealthy, "etcd bootstrapped"), k);
    case InitErr(m, took) =>
      if AlreadyBootstrapped(m) {
        assert InitEffects(w, cb, r) == [InitEtcd(took), To(cb, AwaitingHealthy, "etcd already bootstrapped")];
        CutTwo(w, InitEtcd(took), To(cb, AwaitingHealthy, "etcd already bootstrapped"), k);
      } else {
        assert InitEffects(w, cb, r) == [InitEtcd(took)];
        CutOne(w, InitEtcd(took), k);
      }
  }

  /** Seeding adds what is missing and touches nothing else. */
  ghost predicate OnlySeeded(w: World, u: World)
  {
    && u == w.(cluster := u.cluster, pool := u.pool, machine := u.machine)
    && (w.cluster.Some? ==> u.cluster == w.cluster) && (w.pool.Some? ==> u.pool == w.pool) && (w.machine.Some? ==> u.machine == w.machine)
  }

  predicate IsSeed(w: World, e: Effect)
  {
    (e.PutCluster? && w.cluster.None?) || (e.PutPool? && w.pool.None?) || (e.PutMachine? && w.machine.None?)
  }

  lemma {:induction false} SeedPrefix(w: World, u: World, es: seq<Effect>)
    requires OnlySeeded(w, u) && forall i :: 0 <= i < |es| ==> IsSeed(w, es[i])
    ensures OnlySeeded(w, AppliedAll(u, es))
    ensures forall e :: e in es || (e.PutCluster? && u.cluster.Some?) || (e.PutPool? && u.pool.Some?) || (e.PutMachine? && u.machine.Some?) ==>
              var v := AppliedAll(u, es);
              (e.PutCluster? ==> v.cluster.Some?) && (e.PutPool? ==> v.pool.Some?) && (e.PutMachine? ==> v.machine.Some?)
    decreases |es|
  {
    if es != [] {
      SeedPrefix(w, Applied(u, es[0]), es[1..]);
    }
  }

  lemma SeedAll(w: World, cb: ClusterBootstrap)
    ensures var u := AppliedAll(w, SeedEffects(w, cb));
            OnlySeeded(w, u) && u.cluster.Some? && u.pool.Some? && u.machine.Some?
  {
    var es := SeedEffects(w, cb);
    SeedPrefix(w, w, es);
    assert w.cluster.None? ==> PutCluster(SeedCluster(cb)) in es;
    assert w.pool.None? ==> PutPool(SeedPool(cb)) in es;
    assert w.machine.None? ==> PutMachine(SeedMachine(cb)) in es;
  }

  lemma {:induction false} AppliedConcat(w: World, s: seq<Effect>, t: seq<Effect>)
    ensures AppliedAll(w, s + t) == AppliedAll(AppliedAll(w, s), t)
    decreases |s|
  {
    if s == [] {
      assert s + t == t;
    } else {
      assert (s + t)[1..] == s[1..] + t;
      AppliedConcat(Applied(w, s[0]), s[1..], t);
    }
  }

  /** The tail of fetching, once the credentials are written: seeding, then Ready. */
  lemma SeedStep(w: World, cb: ClusterBootstrap, k: nat)
    requires Good(w) && w.record == Some(cb) && Rank(cb.phase) == 5 && w.kube.Some?
    requires k <= |SeedEffects(w, cb)| + 1
    ensures var u := AppliedAll(w, (SeedEffects(w, cb) + [To(cb, BootReady, "cluster bootstrapped")])[..k]); Good(u) && Onward(w, u)
  {
    var es, last := SeedEffects(w, cb), To(cb, BootReady, "cluster bootstrapped");
    if k <= |es| {
      assert (es + [last])[..k] == es[..k];
      SeedPrefix(w, w, es[..k]);
    } else {
      assert (es + [last])[..k] == es + [last];
      AppliedConcat(w, es, [last]);
      SeedAll(w, cb);
      var u := AppliedAll(w, es);
      CutOne(u, last, 1);
      assert [last][..1] == [last];
    }
  }

  lemma SeedAfterKube(w: World, cb: ClusterBootstrap, kubeconfig: Option<string>, k: nat)
    requires Good(w) && w.record == Some(cb) && Rank(cb.phase) == 5 && kubeconfig.Some? && k <= |SeedEffects(w, cb)| + 1
    ensures var u := AppliedAll(w.(kube := kubeconfig), (SeedEffects(w, cb) + [To(cb, BootReady, "cluster bootstrapped")])[..k]);
            Good(u) && Onward(w, u)
  {
    var w2 := w.(kube := kubeconfig);
    assert SeedEffects(w2, cb) == SeedEffects(w, cb);
    SeedStep(w2, cb, k);
  }

  lemma CutFirstTwo(w: World, e1: Effect, e2: Effect, es: seq<Effect>, k: nat)
    requires k <= |es| + 2 && Applied(w, e1) == w
    ensures AppliedAll(w, ([e1] + ([e2] + es))[..k]) == if k <= 1 then w else AppliedAll(Applied(w, e2), es[..k - 2])
  {
    CutCons(w, e1, [e2] + es, k);
    if k > 0 { CutCons(w, e2, es, k - 1); }
  }

  lemma FetchStep(w: World, cb: ClusterBootstrap, r: Replies, k: nat)
    requires Good(w) && w.record == Some(cb) && Rank(cb.phase) == 5 && k <= |FetchEffects(w, cb, r)|
    ensures var u := AppliedAll(w, FetchEffects(w, cb, r)[..k]); Good(u) && Onward(w, u)
  {
    if w.talos.Some? && r.kubeconfig.Some? {
      var e1, e2 := PutTalos(w.talos.value), PutKube(r.kubeconfig);
      var tail := SeedEffects(w, cb) + [To(cb, BootReady, "cluster bootstrapped")];
      assert FetchEffects(w, cb, r) == [e1] + ([e2] + tail);
      assert Applied(w, e1) == w;
      CutFirstTwo(w, e1, e2, tail, k);
      if k > 1 { SeedAfterKube(w, cb, r.kubeconfig, k - 2); }
    }
  }

  /** One phase's effects, cut after `k`. */
  lemma PhaseStep(w: World, cb: ClusterBootstrap, r: Replies, k: nat)
    requires Good(w) && w.record == Some(cb) && !Terminal(cb.phase) && Truthful(w, r.init) && k <= |PhaseEffects(w, cb, r)|
    ensures var u := AppliedAll(w, PhaseEffects(w, cb, r)[..k]); Good(u) && Onward(w, u)
  {
    if TimedOut(cb, r.now, r.timeout) {
      CutOne(w, To(cb, BootFailed, "bootstrap timed out"), k);
    } else {
      match cb.phase
      case NotBootstrapped => CutOne(w, To(cb.(startedAt := Some(r.now)), GeneratingSecrets, "starting bootstrap"), k);
      case GeneratingSecrets => SecretsStep(w, cb, r, k);
      case Staging => StageStep(w, cb, r, k);
      case AwaitingInstall =>
        if w.talos.Some? && r.reachable { CutOne(w, To(cb, Bootstrapping, "node reachable; bootstrapping etcd"), k); }
      case Bootstrapping => InitStep(w, cb, r, k);
      case AwaitingHealthy => FetchStep(w, cb, r, k);
      case FetchingKubeconfig => FetchStep(w, cb, r, k);
      case _ =>
    }
  }

  /** One pass, cut anywhere, with a truthful node. */
  lemma PassStep(w: World, r: Replies, cut: nat)
    requires Good(w) && Truthful(w, r.init)
    ensures Good(CutPass(w, r, cut)) && Onward(w, CutPass(w, r, cut))
  {
    var es := Effects(w, r);
    assert es[..|es|] == es;
    if w.record.Some? && !Terminal(w.record.value.phase) {
      PhaseStep(w, w.record.value, r, if cut < |es| then cut else |es|);
    }
  }

  // ----- theorems over every crashed and resumed run -----

  /**
   * From AwaitingInstall on, the staged machine config and the stored talosconfig derive from the one
   * stored bundle; etcd has been initialised by AwaitingHealthy and never more than once; Ready means
   * talosconfig, kubeconfig, Cluster, control-plane pool and Machine are all stored.
   */
  lemma {:induction false} RunGood(w: World, steps: seq<Step>)
    requires Good(w)
    ensures Good(Run(w, steps)) && Run(w, steps).inits <= 1
    decreases |steps|
  {
    if steps != [] {
      var u := if Truthful(w, steps[0].replies.init) then CutPass(w, steps[0].replies, steps[0].cut) else w;
      if Truthful(w, steps[0].replies.init) { PassStep(w, steps[0].replies, steps[0].cut); }
      RunGood(u, steps[1..]);
    }
  }

  // ----- initialise calls over a run -----

  /** The pass asks the node to initialise etcd. */
  predicate Asks(w: World, r: Replies)
  {
    w.record.Some? && w.record.value.phase == Bootstrapping && !TimedOut(w.record.value, r.now, r.timeout) && w.talos.Some?
  }

  /** How many initialise calls of the run were answered Ok. */
  function OkAnswers(w: World, steps: seq<Step>): nat
    decreases |steps|
  {
    if steps == [] then 0
    else
      var r, told := steps[0].replies, Truthful(w, steps[0].replies.init);
      (if told && steps[0].cut > 0 && Asks(w, r) && r.init.InitOk? then 1 else 0) +
      OkAnswers(if told then CutPass(w, r, steps[0].cut) else w, steps[1..])
  }

  /** A pass whose initialise call is answered Ok leaves etcd initialised, wherever it is cut after that. */
  lemma OkInitialises(w: World, r: Replies, cut: nat)
    requires Good(w) && Truthful(w, r.init) && Asks(w, r) && r.init.InitOk? && cut > 0
    ensures CutPass(w, r, cut).initialised
  {
    var cb, es := w.record.value, Effects(w, r);
    CutTwo(w, InitEtcd(true), To(cb, AwaitingHealthy, "etcd bootstrapped"), if cut < 2 then cut else 2);
    assert es[..|es|] == es;
  }

  /**
   * At most one initialise call of a run is answered Ok, and none once etcd is initialised: after a crash
   * between the call and the phase write, every repeat of the call is refused.
   */
  lemma {:induction false} OkAtMostOnce(w: World, steps: seq<Step>)
    requires Good(w)
    ensures OkAnswers(w, steps) <= (if w.initialised then 0 else 1)
    ensures OkAnswers(w, steps) > 0 ==> Run(w, steps).initialised
    decreases |steps|
  {
    if steps != [] {
      var r, cut := steps[0].replies, steps[0].cut;
      var told := Truthful(w, r.init);
      var u := if told then CutPass(w, r, cut) else w;
      if told {
        PassStep(w, r, cut);
        if cut > 0 && Asks(w, r) && r.init.InitOk? { OkInitialises(w, r, cut); }
      }
      OkAtMostOnce(u, steps[1..]);
      StaysInitialised(u, steps[1..]);
    }
  }

  lemma {:induction false} StaysInitialised(w: World, steps: seq<Step>)
    requires Good(w)
    ensures w.initialised ==> Run(w, steps).initialised
    decreases |steps|
  {
    if steps != [] {
      var u := if Truthful(w, steps[0].replies.init) then CutPass(w, steps[0].replies, steps[0].cut) else w;
      if Truthful(w, steps[0].replies.init) { PassStep(w, steps[0].replies, steps[0].cut); }
      StaysInitialised(u, steps[1..]);
    }
  }

  /**
   * Resuming after such a crash: the repeated call is answered with an error, and the pass moves on if and
   * only if the error is one the code reads as "already".
   */
  lemma ResumedInitIff(w: World, r: Replies)
    requires Good(w) && w.initialised && Truthful(w, r.init) && Asks(w, r)
    ensures r.init.InitErr?
    ensures var u := AppliedAll(w, Effects(w, r));
            u.record.Some? && (u.record.value.phase == AwaitingHealthy <==> SaysAlready(r.init.message))
  {
    AlreadyIff(r.init.message);
    var cb, es := w.record.value, Effects(w, r);
    var took, last := r.init.took, To(cb, AwaitingHealthy, "etcd already bootstrapped");
    if AlreadyBootstrapped(r.init.message) {
      assert es == [InitEtcd(took), last] && es[..2] == es;
      CutTwo(w, InitEtcd(took), last, 2);
    } else {
      assert es == [InitEtcd(took)] && es[..1] == es;
      CutOne(w, InitEtcd(took), 1);
    }
  }

  /** Armed with nothing done yet, whatever credentials and records an earlier cluster left behind. */
  predicate Armed(w: World)
  {
    w.record.Some? && w.record.value.phase == NotBootstrapped && !w.initialised && w.inits == 0
  }

  // ----- what the bring-up leaves, field by field -----

  /** The endpoint without its scheme. */
  predicate Unschemed(kube: string, endpoint: string)
  {
    if "https://" <= endpoint then "https://" + kube == endpoint else kube == endpoint
  }

  predicate ClusterAsOrdered(c: Cluster, cb: ClusterBootstrap)
  {
    && c.name == cb.cluster && c.desired.Some? && c.endpoints.Some? && !c.rolloutsEnabled && !c.provisioningEnabled
    && c.desired.value.talosVersion == cb.talosVersion && c.desired.value.kubernetesVersion == cb.kubernetesVersion
    && c.endpoints.value.talos == [cb.cpIp] && Unschemed(c.endpoints.value.kube, cb.cpEndpoint)
  }

  predicate PoolAsOrdered(np: NodePool, cb: ClusterBootstrap)
  {
    np.cluster == cb.cluster && np.name == "controlplane" && np.role == ControlPlane && np.members == [cb.cpIp] && !np.paused && np.replicas == 0
  }

  predicate MachineAsOrdered(m: Machine, cb: ClusterBootstrap)
  {
    m.cluster == cb.cluster && m.pool == "controlplane" && m.talosEndpoint == cb.cpIp && m.role == ControlPlane
  }

  /** What is stored of the inventory is what was ordered. */
  ghost predicate AsOrdered(w: World)
  {
    && w.record.Some?
    && (w.cluster.Some? ==> ClusterAsOrdered(w.cluster.value, w.record.value))
    && (w.pool.Some? ==> PoolAsOrdered(w.pool.value, w.record.value))
    && (w.machine.Some? ==> MachineAsOrdered(w.machine.value, w.record.value))
  }

  predicate Ordered(cb: ClusterBootstrap, e: Effect)
  {
    match e
    case PutRecord(next) => SameOrder(cb, next)
    case PutCluster(c) => ClusterAsOrdered(c, cb)
    case PutPool(np) => PoolAsOrdered(np, cb)
    case PutMachine(m) => MachineAsOrdered(m, cb)
    case _ => true
  }

  lemma EffectsOrdered(w: World, r: Replies, i: nat)
    requires w.record.Some? && i < |Effects(w, r)|
    ensures Ordered(w.record.value, Effects(w, r)[i])
  {
    var cb := w.record.value;
    if Rank(cb.phase) == 5 && !TimedOut(cb, r.now, r.timeout) { FetchOrdered(w, cb, r, i); }
  }

  lemma SeedsOrdered(w: World, cb: ClusterBootstrap, e: Effect)
    requires e in SeedEffects(w, cb)
    ensures Ordered(cb, e)
  {
    assert e in {PutCluster(SeedCluster(cb)), PutPool(SeedPool(cb)), PutMachine(SeedMachine(cb))};
    assert "https://" <= cb.cpEndpoint ==> "https://" + cb.cpEndpoint[8..] == cb.cpEndpoint;
  }

  lemma FetchOrdered(w: World, cb: ClusterBootstrap, r: Replies, i: nat)
    requires i < |FetchEffects(w, cb, r)|
    ensures Ordered(cb, FetchEffects(w, cb, r)[i])
  {
    var es, seeds := FetchEffects(w, cb, r), SeedEffects(w, cb);
    if 2 <= i < |es| - 1 {
      assert es[i] == seeds[i - 2];
      SeedsOrdered(w, cb, es[i]);
    }
  }

  lemma {:induction false} AppliedOrdered(w: World, cb: ClusterBootstrap, es: seq<Effect>)
    requires AsOrdered(w) && SameOrder(cb, w.record.value) && forall i :: 0 <= i < |es| ==> Ordered(cb, es[i])
    ensures AsOrdered(AppliedAll(w, es))
    decreases |es|
  {
    if es != [] {
      OneOrdered(w, cb, es[0]);
      AppliedOrdered(Applied(w, es[0]), cb, es[1..]);
    }
  }

  lemma OneOrdered(w: World, cb: ClusterBootstrap, e: Effect)
    requires AsOrdered(w) && SameOrder(cb, w.record.value) && Ordered(cb, e)
    ensures AsOrdered(Applied(w, e)) && SameOrder(cb, Applied(w, e).record.value)
  {
  }

  lemma {:induction false} RunOrdered(w: World, steps: seq<Step>)
    requires AsOrdered(w)
    ensures AsOrdered(Run(w, steps))
    decreases |steps|
  {
    if steps != [] {
      var r, cut := steps[0].replies, steps[0].cut;
      if Truthful(w, r.init) {
        var es := Effects(w, r);
        forall i | 0 <= i < |es| ensures Ordered(w.record.value, es[i]) { EffectsOrdered(w, r, i); }
        AppliedOrdered(w, w.record.value, if cut < |es| then es[..cut] else es);
        RunOrdered(CutPass(w, r, cut), steps[1..]);
      } else {
        RunOrdered(w, steps[1..]);
      }
    }
  }

  /** A pass that arrives at Ready stored the kubeconfig it was given. */
  lemma ArrivalKeepsAnswer(w: World, r: Replies, cut: nat)
    requires w.record.Some? && w.record.value.phase != BootReady
    ensures var u := CutPass(w, r, cut); u.record.Some? && (u.record.value.phase == BootReady ==> u.kube == r.kubeconfig && u.kube.Some?)
  {
    var cb, es := w.record.value, Effects(w, r);
    var k := if cut < |es| then cut else |es|;
    assert es[..|es|] == es;
    if Rank(cb.phase) == 5 && !TimedOut(cb, r.now, r.timeout) && w.talos.Some? && r.kubeconfig.Some? {
      FetchArrival(w, cb, r, k);
    } else {
      NotYetReady(w, r);
      NoArrival(w, es[..k]);
    }
  }

  lemma FetchArrival(w: World, cb: ClusterBootstrap, r: Replies, k: nat)
    requires w.record == Some(cb) && cb.phase != BootReady && w.talos.Some? && r.kubeconfig.Some? && k <= |FetchEffects(w, cb, r)|
    ensures var u := AppliedAll(w, FetchEffects(w, cb, r)[..k]); u.record.Some? && (u.record.value.phase == BootReady ==> u.kube == r.kubeconfig)
  {
    var tail := SeedEffects(w, cb) + [To(cb, BootReady, "cluster bootstrapped")];
    var e1, e2 := PutTalos(w.talos.value), PutKube(r.kubeconfig);
    assert FetchEffects(w, cb, r) == [e1] + ([e2] + tail);
    CutFirstTwo(w, e1, e2, tail, k);
    if k > 1 {
      assert forall i :: 0 <= i < |tail| ==> !tail[i].PutKube?;
      SeedsKeepKube(Applied(w, e2), tail[..k - 2]);
    }
  }

  lemma NotYetReady(w: World, r: Replies)
    requires w.record.Some?
    requires var cb := w.record.value; !(Rank(cb.phase) == 5 && !TimedOut(cb, r.now, r.timeout) && w.talos.Some? && r.kubeconfig.Some?)
    ensures var es := Effects(w, r); forall i :: 0 <= i < |es| && es[i].PutRecord? ==> es[i].cb.phase != BootReady
  {
  }

  lemma {:induction false} SeedsKeepKube(w: World, es: seq<Effect>)
    requires w.record.Some? && forall i :: 0 <= i < |es| ==> !es[i].PutKube?
    ensures AppliedAll(w, es).kube == w.kube && AppliedAll(w, es).record.Some?
    decreases |es|
  {
    if es != [] { SeedsKeepKube(Applied(w, es[0]), es[1..]); }
  }

  lemma {:induction false} NoArrival(w: World, es: seq<Effect>)
    requires w.record.Some? && w.record.value.phase != BootReady
    requires forall i :: 0 <= i < |es| && es[i].PutRecord? ==> es[i].cb.phase != BootReady
    ensures var u := AppliedAll(w, es); u.record.Some? && u.record.value.phase != BootReady
    decreases |es|
  {
    if es != [] { NoArrival(Applied(w, es[0]), es[1..]); }
  }

  /** The kubeconfig stored at Ready is one the node answered with during the run. */
  lemma {:induction false} KubeIsAnswered(w: World, steps: seq<Step>)
    requires Good(w) && w.record.Some? && w.record.value.phase != BootReady
    ensures var u := Run(w, steps);
            u.record.Some? && (u.record.value.phase == BootReady ==> u.kube.Some? && exists i :: 0 <= i < |steps| && steps[i].replies.kubeconfig == u.kube)
    decreases |steps|
  {
    if steps != [] {
      var r, told := steps[0].replies, Truthful(w, steps[0].replies.init);
      var u := if told then CutPass(w, r, steps[0].cut) else w;
      if told { PassStep(w, r, steps[0].cut); }
      ArrivalKeepsAnswer(w, r, steps[0].cut);
      if u.record.value.phase == BootReady {
        AgreementLasts(u, steps[1..]);
        assert steps[0].replies.kubeconfig == Run(w, steps).kube;
      } else {
        KubeIsAnswered(u, steps[1..]);
        var v := Run(w, steps);
        if v.record.value.phase == BootReady {
          var i :| 0 <= i < |steps| - 1 && steps[1..][i].replies.kubeconfig == v.kube;
          assert steps[i + 1].replies.kubeconfig == v.kube;
        }
      }
    }
  }

  /** The bundle stored is the one found at the start, or one minted by a pass of the run. */
  lemma {:induction false} BundleIsMinted(w: World, steps: seq<Step>)
    ensures var u := Run(w, steps);
            u.secrets == w.secrets || exists i :: 0 <= i < |steps| && u.secrets == Some(steps[i].replies.minted)
    decreases |steps|
  {
    if steps != [] {
      var r := steps[0].replies;
      var u := if Truthful(w, r.init) then CutPass(w, r, steps[0].cut) else w;
      PassMints(w, r, steps[0].cut);
      BundleIsMinted(u, steps[1..]);
      var v := Run(w, steps);
      if i :| 0 <= i < |steps| - 1 && v.secrets == Some(steps[1..][i].replies.minted) {
        assert v.secrets == Some(steps[i + 1].replies.minted);
      } else if u.secrets != w.secrets {
        assert v.secrets == Some(steps[0].replies.minted);
      }
    }
  }

  lemma PassMints(w: World, r: Replies, cut: nat)
    ensures CutPass(w, r, cut).secrets == w.secrets || CutPass(w, r, cut).secrets == Some(r.minted)
  {
    var es := Effects(w, r);
    OnlyMinted(w, r);
    SecretsKept(w, r.minted, if cut < |es| then es[..cut] else es);
  }

  lemma OnlyMinted(w: World, r: Replies)
    ensures var es := Effects(w, r); forall i :: 0 <= i < |es| && es[i].PutSecrets? ==> es[i].bundle == r.minted
  {
  }

  lemma {:induction false} SecretsKept(w: World, b: Bundle, es: seq<Effect>)
    requires forall i :: 0 <= i < |es| && es[i].PutSecrets? ==> es[i].bundle == b
    ensures AppliedAll(w, es).secrets == w.secrets || AppliedAll(w, es).secrets == Some(b)
    decreases |es|
  {
    if es != [] { SecretsKept(Applied(w, es[0]), b, es[1..]); }
  }

  /** Overdue: begun longer ago than the timeout. */
  predicate Late(cb: ClusterBootstrap, now: int, timeout: int)
  {
    cb.startedAt.Some? && cb.startedAt.value + timeout < now
  }

  /** A completed pass fails the bring-up exactly when it is overdue; the first pass is what starts the clock. */
  lemma FailsIffLate(w: World, r: Replies)
    requires w.record.Some? && !Terminal(w.record.value.phase)
    ensures var cb, u := w.record.value, AppliedAll(w, Effects(w, r));
            && u.record.Some?
            && (u.record.value.phase == BootFailed <==> Late(cb, r.now, r.timeout))
            && u.record.value.startedAt == if cb.phase == NotBootstrapped && !Late(cb, r.now, r.timeout) then Some(r.now) else cb.startedAt
  {
    var cb, es := w.record.value, Effects(w, r);
    if Late(cb, r.now, r.timeout) {
      CutOne(w, es[0], 1);
      assert es[..1] == es;
    } else if cb.phase == NotBootstrapped {
      CutOne(w, es[0], 1);
      assert es[..1] == es;
    } else {
      ClockKept(w, cb.startedAt, es);
    }
  }

  lemma {:induction false} ClockKept(w: World, started: Option<int>, es: seq<Effect>)
    requires w.record.Some? && w.record.value.phase != BootFailed && w.record.value.startedAt == started
    requires forall i :: 0 <= i < |es| && es[i].PutRecord? ==> es[i].cb.phase != BootFailed && es[i].cb.startedAt == started
    ensures var u := AppliedAll(w, es); u.record.Some? && u.record.value.phase != BootFailed && u.record.value.startedAt == started
    decreases |es|
  {
    if es != [] { ClockKept(Applied(w, es[0]), started, es[1..]); }
  }

  /** The configs were rendered from bundle `b` for this order, field by field. */
  predicate ConfigsAsOrdered(u: World, cb: ClusterBootstrap, b: Bundle)
  {
    && u.secrets == Some(b) && u.talos.Some? && cb.cpMac in u.staged
    && var t, c := u.talos.value, u.staged[cb.cpMac];
    && t.bundle == b == c.bundle && t.cluster == cb.cluster == c.cluster && t.endpoint == cb.cpEndpoint == c.endpoint
    && t.kubernetesVersion == cb.kubernetesVersion == c.kubernetesVersion && c.talosVersion == cb.talosVersion
  }

  /**
   * At Ready, if the run began with none of the inventory records: the Cluster carries the ordered versions and the
   * control-plane address, the control-plane pool has that one member, its Machine is there, and the kubeconfig is one
   * the node answered with.
   */
  lemma ReadyAsOrdered(w: World, steps: seq<Step>)
    requires Armed(w) && w.cluster.None? && w.pool.None? && w.machine.None?
    ensures var u := Run(w, steps);
            u.record.Some? && SameOrder(w.record.value, u.record.value) &&
            (u.record.value.phase == BootReady ==>
               && u.cluster.Some? && ClusterAsOrdered(u.cluster.value, w.record.value)
               && u.pool.Some? && PoolAsOrdered(u.pool.value, w.record.value)
               && u.machine.Some? && MachineAsOrdered(u.machine.value, w.record.value)
               && u.kube.Some? && exists i :: 0 <= i < |steps| && steps[i].replies.kubeconfig == u.kube)
  {
    RunGood(w, steps);
    PhasesMoveForward(w, steps);
    RunOrdered(w, steps);
    KubeIsAnswered(w, steps);
  }

  /** The two promises of a bring-up, over every run of an armed record. */
  lemma BringUp(w: World, steps: seq<Step>)
    requires Armed(w)
    ensures var u := Run(w, steps);
            && OkAnswers(w, steps) <= 1 && (OkAnswers(w, steps) > 0 ==> u.initialised)
            && u.record.Some? && SameOrder(w.record.value, u.record.value)
            && var cb := u.record.value;
            && (cb.phase in {AwaitingInstall, Bootstrapping, AwaitingHealthy, FetchingKubeconfig, BootReady} ==>
                  exists b: Bundle :: ConfigsAsOrdered(u, cb, b))
            && (cb.phase == BootReady ==>
                  u.initialised && u.talos.Some? && u.kube.Some? && u.cluster.Some? && u.pool.Some? && u.machine.Some?)
  {
    RunGood(w, steps);
    OkAtMostOnce(w, steps);
    PhasesMoveForward(w, steps);
    var u := Run(w, steps);
    if Rank(u.record.value.phase) >= 3 {
      assert ConfigsAsOrdered(u, u.record.value, u.secrets.value);
    }
  }

  /** Once stored, the bundle is the bundle, through every crash and resume. */
  lemma {:induction false} SecretsOnce(w: World, steps: seq<Step>)
    requires Good(w) && w.secrets.Some?
    ensures Run(w, steps).secrets == w.secrets
    decreases |steps|
  {
    if steps != [] {
      var u := if Truthful(w, steps[0].replies.init) then CutPass(w, steps[0].replies, steps[0].cut) else w;
      if Truthful(w, steps[0].replies.init) { PassStep(w, steps[0].replies, steps[0].cut); }
      SecretsOnce(u, steps[1..]);
    }
  }

  /**
   * Once staging is behind, the bundle, the talosconfig and every staged config stay what they are, even
   * when the bring-up later fails; and etcd, once initialised, stays so.
   */
  lemma {:induction false} AgreementLasts(w: World, steps: seq<Step>)
    requires Good(w) && Staged(w)
    ensures var u := Run(w, steps);
            && u.secrets == w.secrets && u.talos == w.talos && u.staged == w.staged
            && (w.initialised ==> u.initialised) && Staged(u)
            && (Terminal(w.record.value.phase) ==> u == w)
    decreases |steps|
  {
    if steps != [] {
      var u := if Truthful(w, steps[0].replies.init) then CutPass(w, steps[0].replies, steps[0].cut) else w;
      if Truthful(w, steps[0].replies.init) { PassStep(w, steps[0].replies, steps[0].cut); }
      AgreementLasts(u, steps[1..]);
    }
  }

  /** Phases only move forward or to Failed; Ready and Failed absorb; the order itself never changes. */
  lemma {:induction false} PhasesMoveForward(w: World, steps: seq<Step>)
    requires Good(w) && w.record.Some?
    ensures var u := Run(w, steps);
            && u.record.Some? && SameOrder(w.record.value, u.record.value)
            && (u.record.value.phase == BootFailed || Rank(u.record.value.phase) >= Rank(w.record.value.phase))
            && (Terminal(w.record.value.phase) ==> u.record.value.phase == w.record.value.phase)
    decreases |steps|
  {
    if steps != [] {
      var u := if Truthful(w, steps[0].replies.init) then CutPass(w, steps[0].replies, steps[0].cut) else w;
      if Truthful(w, steps[0].replies.init) { PassStep(w, steps[0].replies, steps[0].cut); }
      PhasesMoveForward(u, steps[1..]);
    }
  }

  // ----- progress -----

  /** Everything the phase waits for has happened, and the clock has not run out. */
  ghost predicate Obliging(w: World, r: Replies)
  {
    && Truthful(w, r.init) && w.record.Some? && !TimedOut(w.record.value, r.now, r.timeout)
    && r.schematic.Some? && r.reachable && r.kubeconfig.Some?
    && (r.init.InitOk? || AlreadyBootstrapped(r.init.message))
  }

  predicate Underway(p: BootPhase)
  {
    p != BootUnspecified && !Terminal(p)
  }

  /** An obliged, uncut pass moves exactly one phase. */
  lemma PassAdvances(w: World, r: Replies)
    requires Good(w) && Obliging(w, r) && Underway(w.record.value.phase)
    ensures var u := AppliedAll(w, Effects(w, r));
            u.record.Some? && u.record.value.phase == Successor(w.record.value.phase)
  {
    var cb, es := w.record.value, Effects(w, r);
    assert es != [] && es[|es| - 1].PutRecord? && es[|es| - 1].cb.phase == Successor(cb.phase);
    assert es == es[..|es| - 1] + [es[|es| - 1]];
    AppliedConcat(w, es[..|es| - 1], [es[|es| - 1]]);
    CutOne(AppliedAll(w, es[..|es| - 1]), es[|es| - 1], 1);
    assert [es[|es| - 1]][..1] == [es[|es| - 1]];
  }

  /** The phase's own condition for moving on, in the terms of what is stored and what was answered. */
  ghost predicate Moves(w: World, phase: BootPhase, r: Replies)
  {
    match phase
    case NotBootstrapped => true
    case GeneratingSecrets => true
    case Staging => w.secrets.Some? && r.schematic.Some?
    case AwaitingInstall => w.talos.Some? && r.reachable
    case Bootstrapping => w.talos.Some? && (r.init.InitOk? || SaysAlready(r.init.message))
    case AwaitingHealthy => w.talos.Some? && r.kubeconfig.Some?
    case FetchingKubeconfig => w.talos.Some? && r.kubeconfig.Some?
    case _ => false
  }

  /** An uncut pass that is in time moves one phase exactly when its phase's condition holds, and else stays where it is. */
  lemma PassAdvancesIff(w: World, r: Replies)
    requires w.record.Some? && Underway(w.record.value.phase) && !Late(w.record.value, r.now, r.timeout)
    ensures var phase, u := w.record.value.phase, AppliedAll(w, Effects(w, r));
            u.record.Some? && u.record.value.phase == if Moves(w, phase, r) then Successor(phase) else phase
  {
    var cb, es := w.record.value, Effects(w, r);
    if r.init.InitErr? { AlreadyIff(r.init.message); }
    if Moves(w, cb.phase, r) {
      LastEffectMoves(w, r);
      var n := |es| - 1;
      assert es == es[..n] + [es[n]];
      AppliedConcat(w, es[..n], [es[n]]);
      CutOne(AppliedAll(w, es[..n]), es[n], 1);
      assert [es[n]][..1] == [es[n]];
    } else {
      NoPhaseWrite(w, r);
      RecordKept(w, es);
    }
  }

  lemma LastEffectMoves(w: World, r: Replies)
    requires w.record.Some? && Underway(w.record.value.phase) && !Late(w.record.value, r.now, r.timeout) && Moves(w, w.record.value.phase, r)
    ensures var es := Effects(w, r); es != [] && es[|es| - 1].PutRecord? && es[|es| - 1].cb.phase == Successor(w.record.value.phase)
  {
    if r.init.InitErr? { AlreadyIff(r.init.message); }
  }

  lemma NoPhaseWrite(w: World, r: Replies)
    requires w.record.Some? && Underway(w.record.value.phase) && !Late(w.record.value, r.now, r.timeout) && !Moves(w, w.record.value.phase, r)
    ensures var es := Effects(w, r); forall i :: 0 <= i < |es| ==> !es[i].PutRecord?
  {
    if r.init.InitErr? { AlreadyIff(r.init.message); }
  }

  lemma {:induction false} RecordKept(w: World, es: seq<Effect>)
    requires forall i :: 0 <= i < |es| ==> !es[i].PutRecord?
    ensures AppliedAll(w, es).record == w.record
    decreases |es|
  {
    if es != [] { RecordKept(Applied(w, es[0]), es[1..]); }
  }

  function RunFull(w: World, rs: seq<Replies>): World
    decreases |rs|
  {
    if rs == [] then w else RunFull(AppliedAll(w, Effects(w, rs[0])), rs[1..])
  }

  ghost predicate ObligingRun(w: World, rs: seq<Replies>)
    decreases |rs|
  {
    rs != [] ==> Obliging(w, rs[0]) && ObligingRun(AppliedAll(w, Effects(w, rs[0])), rs[1..])
  }

  /** Six obliged passes from an armed record reach Ready; in general, six minus the phase's rank. */
  lemma {:induction false} ReachesReady(w: World, rs: seq<Replies>)
    requires Good(w) && w.record.Some? && (Underway(w.record.value.phase) || w.record.value.phase == BootReady)
    requires ObligingRun(w, rs) && |rs| == 6 - Rank(w.record.value.phase)
    ensures var u := RunFull(w, rs); u.record.Some? && u.record.value.phase == BootReady && Good(u)
    decreases |rs|
  {
    if rs != [] {
      var es := Effects(w, rs[0]);
      var u := AppliedAll(w, es);
      PassStep(w, rs[0], |es|);
      PassAdvances(w, rs[0]);
      ReachesReady(u, rs[1..]);
    }
  }
}
