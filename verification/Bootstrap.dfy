/** The bootstrap reconciler: its side effects and phase writes one by one, any of which may be the last. */
module Bootstrap {
  import opened Basics
  import opened BootstrapModel
  import opened BootstrapTheorems
  import opened Records

  datatype Snap = Snap(w: World, left: nat)

  /** As many of the effects as still succeed. */
  function After(s: Snap, es: seq<Effect>): Snap
  {
    if s.left < |es| then Snap(AppliedAll(s.w, es[..s.left]), 0) else Snap(AppliedAll(s.w, es), s.left - |es|)
  }

  /** Doing `a` and then, only if all of it succeeded, `b`. */
  lemma AfterConcat(s: Snap, a: seq<Effect>, b: seq<Effect>)
    ensures After(s, a + b) == if |a| <= s.left then After(After(s, a), b) else After(s, a)
  {
    if s.left < |a| {
      assert (a + b)[..s.left] == a[..s.left];
    } else if s.left < |a + b| {
      assert (a + b)[..s.left] == a + b[..s.left - |a|];
      AppliedConcat(s.w, a, b[..s.left - |a|]);
    } else {
      AppliedConcat(s.w, a, b);
    }
  }

  class Reconciler {
    var world: World
    var left: nat  // how many more effects succeed

    ghost function Now(): Snap
      reads this
    {
      Snap(world, left)
    }

    method Perform(e: Effect) returns (ok: bool)
      modifies this
      ensures Now() == After(old(Now()), [e]) && (ok <==> old(left) >= 1)
    {
      OneApplied(world, e);
      ok := left > 0;
      if ok {
        world, left := Applied(world, e), left - 1;
      }
    }

    /** Two effects, the second only if the first succeeded. */
    method Both(a: Effect, b: Effect) returns (ok: bool)
      modifies this
      ensures Now() == After(old(Now()), [a, b]) && (ok <==> old(left) >= 2)
    {
      AfterConcat(Now(), [a], [b]);
      assert [a] + [b] == [a, b];
      ok := Perform(a);
      if ok {
        ok := Perform(b);
      }
    }

    method Put(cb: ClusterBootstrap, phase: BootPhase, message: string) returns (ok: bool)
      modifies this
      ensures Now() == After(old(Now()), [To(cb, phase, message)]) && (ok <==> old(left) >= 1)
    {
      ok := Perform(PutRecord(cb.(phase := phase, message := message)));
    }

    method GenerateSecrets(cb: ClusterBootstrap, r: Replies)
      modifies this
      ensures Now() == After(old(Now()), SecretsEffects(old(world), cb, r))
    {
      if world.secrets.Some? {
        var _ := Put(cb, Staging, "secrets already present");
        return;
      }
      var _ := Both(PutSecrets(r.minted), To(cb, Staging, "generated cluster secrets"));
    }

    method Stage(cb: ClusterBootstrap, r: Replies)
      modifies this
      ensures Now() == After(old(Now()), StageEffects(old(world), cb, r))
    {
      if world.secrets.None? || r.schematic.None? {
        return;
      }
      var b := world.secrets.value;
      var creds := [PutTalos(TalosFor(cb, b)), PutKube(None)];
      var rest := [StageConfig(cb.cpMac, ConfigFor(cb, b, r.schematic.value)), To(cb, AwaitingInstall, "staged; awaiting install + boot")];
      AfterConcat(Now(), creds, rest);
      assert creds + rest == StageEffects(world, cb, r);
      var ok := Both(creds[0], creds[1]);
      if ok {
        var _ := Both(rest[0], rest[1]);
      }
    }

    method AwaitInstall(cb: ClusterBootstrap, r: Replies)
      modifies this
      ensures Now() == After(old(Now()), AwaitEffects(old(world), cb, r))
    {
      if world.talos.Some? && r.reachable {
        var _ := Put(cb, Bootstrapping, "node reachable; bootstrapping etcd");
      }
    }

    method BootstrapEtcd(cb: ClusterBootstrap, r: Replies)
      modifies this
      ensures Now() == After(old(Now()), InitEffects(old(world), cb, r))
    {
      if world.talos.None? {
        return;
      }
      match r.init
      case InitOk =>
        var _ := Both(InitEtcd(true), To(cb, AwaitingHealthy, "etcd bootstrapped"));
      case InitErr(m, took) =>
        if AlreadyBootstrapped(m) {
          assert InitEffects(world, cb, r) == [InitEtcd(took), To(cb, AwaitingHealthy, "etcd already bootstrapped")];
          var _ := Both(InitEtcd(took), To(cb, AwaitingHealthy, "etcd already bootstrapped"));
        } else {
          assert InitEffects(world, cb, r) == [InitEtcd(took)];
          var _ := Perform(InitEtcd(took));
        }
    }

    /** Each missing record is created; one that is there is left alone. */
    method SeedInventory(cb: ClusterBootstrap) returns (ok: bool)
      modifies this
      ensures Now() == After(old(Now()), SeedEffects(old(world), cb))
      ensures ok <==> old(left) >= |SeedEffects(old(world), cb)|
    {
      ghost var s := Now();
      ghost var a := if world.cluster.None? then [PutCluster(SeedCluster(cb))] else [];
      ghost var b := if world.pool.None? then [PutPool(SeedPool(cb))] else [];
      ghost var c := if world.machine.None? then [PutMachine(SeedMachine(cb))] else [];
      assert SeedEffects(world, cb) == a + b + c;
      AfterConcat(s, a + b, c);
      AfterConcat(s, a, b);
      OneApplied(s.w, PutCluster(SeedCluster(cb)));
      OneApplied(After(s, a).w, PutPool(SeedPool(cb)));
      ok := true;
      if world.cluster.None? {
        ok := Perform(PutCluster(SeedCluster(cb)));
        if !ok { return; }
      }
      assert Now() == After(s, a) && world.pool == s.w.pool && world.machine == s.w.machine;
      if world.pool.None? {
        ok := Perform(PutPool(SeedPool(cb)));
        if !ok { return; }
      }
      assert Now() == After(s, a + b) && world.machine == s.w.machine;
      if world.machine.None? {
        ok := Perform(PutMachine(SeedMachine(cb)));
      }
    }

    method FetchKubeconfig(cb: ClusterBootstrap, r: Replies)
      modifies this
      ensures Now() == After(old(Now()), FetchEffects(old(world), cb, r))
    {
      if world.talos.None? || r.kubeconfig.None? {
        return;
      }
      ghost var s := Now();
      var creds := [PutTalos(world.talos.value), PutKube(r.kubeconfig)];
      ghost var seeds, last := SeedEffects(world, cb), [To(cb, BootReady, "cluster bootstrapped")];
      assert FetchEffects(world, cb, r) == creds + seeds + last;
      AfterConcat(s, creds + seeds, last);
      AfterConcat(s, creds, seeds);
      var ok := Both(creds[0], creds[1]);
      if !ok { return; }
      assert SeedEffects(world, cb) == seeds by { TwoApplied(s.w, creds[0], creds[1]); }
      ok := SeedInventory(cb);
      if ok {
        var _ := Put(cb, BootReady, "cluster bootstrapped");
      }
    }

    method Step(cb: ClusterBootstrap, r: Replies)
      modifies this
      ensures Now() == After(old(Now()), PhaseEffects(old(world), cb, r))
    {
      if TimedOut(cb, r.now, r.timeout) {
        var _ := Put(cb, BootFailed, "bootstrap timed out");
        return;
      }
      match cb.phase
      case NotBootstrapped =>
        var _ := Put(cb.(startedAt := Some(r.now)), GeneratingSecrets, "starting bootstrap");
      case GeneratingSecrets => GenerateSecrets(cb, r);
      case Staging => Stage(cb, r);
      case AwaitingInstall => AwaitInstall(cb, r);
      case Bootstrapping => BootstrapEtcd(cb, r);
      case AwaitingHealthy => FetchKubeconfig(cb, r);
      case FetchingKubeconfig => FetchKubeconfig(cb, r);
      case _ =>
    }

    /** One pass, cut after as many effects as succeed. */
    method Reconcile(r: Replies)
      modifies this
      ensures world == CutPass(old(world), r, old(left))
      ensures old(Good(world)) && old(Truthful(world, r.init)) ==> Good(world) && Onward(old(world), world)
    {
      if Good(world) && Truthful(world, r.init) { PassStep(world, r, left); }
      if world.record.None? {
        return;
      }
      var cb := world.record.value;
      if cb.phase == BootReady || cb.phase == BootFailed {
        return;
      }
      Step(cb, r);
    }
  }

  lemma OneApplied(w: World, e: Effect)
    ensures AppliedAll(w, [e]) == Applied(w, e)
  {
    CutOne(w, e, 1);
    assert [e][..1] == [e];
  }

  lemma TwoApplied(w: World, a: Effect, b: Effect)
    ensures AppliedAll(w, [a, b]) == Applied(Applied(w, a), b)
  {
    CutTwo(w, a, b, 2);
    assert [a, b][..2] == [a, b];
  }
}
