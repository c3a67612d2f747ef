/**
 The reconciler as the program runs it: loops over a stateful client. Every method does to the client
 exactly what the function of the same name says.
 */
module Controller {
  import opened Text
  import opened Types
  import opened Trees
  import opened Builders
  import opened Cluster
  import opened Retry
  import opened RetryLaws
  import opened Secrets
  import opened Operator
  import opened Runtime
  import opened Reconciler
  import opened Client

  class ServiceReconciler {
    const client: Client

    constructor (client: Client)
      ensures this.client == client
    {
      this.client := client;
    }

    // ----- The retry loop -----

    method Attempt(t: Task) returns (t1: Task, verdict: Verdict)
      modifies client
      ensures (client.View(), t1, verdict) == Retry.Attempt(old(client.View()), t)
    {
      hide Call, Extends, AllNew, FreshObject, PlanFor, CarryNet;
      t1 := t;
      var read := client.Do(Get(KeyOf(t)));
      if read.Failed? {
        if read.error == NotFound {
          var made := client.Do(Create(KeyOf(t), FreshObject(t)));
          verdict := Done(if made.Got? then Created else Stopped(made.error));
          return;
        }
        verdict := Done(Stopped(read.error));
        return;
      }
      var existing := read.stored;
      if t.NetTask? && existing.obj.body.NetBody? {
        var net := CarryAllocations(t.built.net, existing.obj.body.net);
        t1 := NetTask(t.svc, t.built.(net := net));
      }
      var plan := PlanFor(t1, existing.obj);
      match plan {
        case Keep => verdict := Done(UpToDate);
        case Refuse(error) => verdict := Done(Stopped(error));
        case Write(obj) =>
          var written := client.Do(Update(KeyOf(t1), obj, Some(existing.version)));
          verdict := if written.Got? then Done(Updated)
                     else if written.error == Conflict then Again
                     else Done(Stopped(written.error));
      }
    }

    method Ensure(t: Task) returns (end: End)
      modifies client
      ensures (client.View(), end) == Retry.Ensure(old(client.View()), t)
    {
      hide Extends, AllNew, Retry.Attempt, RetryLoop;
      var task := t;
      var i, backoff: nat := 0, 1;
      while i < MAX_RETRIES
        invariant i <= MAX_RETRIES
        invariant RetryLoop(client.View(), task, i, backoff) == RetryLoop(old(client.View()), t, 0, 1)
      {
        LoopTurns(client.View(), task, i, backoff);
        var revised, verdict := Attempt(task);
        if verdict.Done? {
          return verdict.end;
        }
        client.Sleep(backoff);
        task, backoff, i := revised, backoff * 2, i + 1;
      }
      LoopTurns(client.View(), task, i, backoff);
      return Stopped(Exhausted);
    }

    // ----- Children of a service that is not a database -----

    method RemoveIfPresent(k: Key) returns (o: Outcome)
      modifies client
      ensures (client.View(), o) == Reconciler.RemoveIfPresent(old(client.View()), k)
    {
      hide Call, Extends;
      var read := client.Do(Get(k));
      if read.Failed? {
        return if read.error == NotFound then Ok else Err(read.error);
      }
      var gone := client.Do(Delete(k));
      o := if gone.Failed? then Err(gone.error) else Ok;
    }

    method ReconcileDeployment(svc: Service) returns (o: Outcome)
      modifies client
      ensures (client.View(), o) == Reconciler.ReconcileDeployment(old(client.View()), svc)
    {
      hide Extends, RetryLoop, DeploymentOf, Reconciler.RemoveIfPresent;
      var built := BuildDeployment(svc);
      match built {
        case NotNeeded => o := RemoveIfPresent(DeploymentKey(svc));
        case Panicked => o := Err(Panicking);
        case Built(desired) =>
          var end := Ensure(DeployTask(svc, desired));
          o := if end.Stopped? then Err(end.error) else Ok;
      }
    }

    method ReconcileIngress(svc: Service) returns (o: Outcome)
      modifies client
      ensures (client.View(), o) == Reconciler.ReconcileIngress(old(client.View()), svc)
    {
      hide Extends, RetryLoop, IngressOf, Reconciler.RemoveIfPresent;
      var built := BuildIngress(svc);
      match built {
        case NotNeeded => o := RemoveIfPresent(IngressKey(svc));
        case Panicked => o := Err(Panicking);
        case Built(desired) =>
          var end := Ensure(IngressTask(svc, desired));
          o := if end.Stopped? then Err(end.error) else Ok;
      }
    }

    /** Removes the Services of the two names that are not to be kept. */
    method CleanUpServices(svc: Service, keep: set<string>) returns (o: Outcome)
      modifies client
      ensures (client.View(), o) == RemoveServices(old(client.View()), svc, ServiceNames(svc), keep)
    {
      hide Extends, Reconciler.RemoveIfPresent, ServiceNames;
      var servicesToCheck := ServiceNames(svc);
      for i := 0 to |servicesToCheck|
        invariant RemoveServices(client.View(), svc, servicesToCheck[i..], keep) ==
            RemoveServices(old(client.View()), svc, servicesToCheck, keep)
      {
        assert servicesToCheck[i..][0] == servicesToCheck[i] && servicesToCheck[i..][1..] == servicesToCheck[i + 1..];
        if servicesToCheck[i] in keep {
          continue;
        }
        o := RemoveIfPresent(NetKey(svc, servicesToCheck[i]));
        if o.Err? {
          return;
        }
      }
      return Ok;
    }

    method ReconcileServices(svc: Service) returns (o: Outcome)
      modifies client
      ensures (client.View(), o) == Reconciler.ReconcileServices(old(client.View()), svc)
    {
      hide Extends, RetryLoop, ServicesOf, RemoveServices;
      var built := BuildServices(svc);
      if built.None? {
        o := CleanUpServices(svc, {});
        return;
      }
      var desiredServices := built.value;
      var desiredServiceNames := {};
      for i := 0 to |desiredServices|
        invariant desiredServiceNames == NamesOf(desiredServices[..i])
        invariant EnsureServices(client.View(), svc, desiredServices[i..]) ==
            EnsureServices(old(client.View()), svc, desiredServices)
      {
        var desired := desiredServices[i];
        assert desiredServices[i..][0] == desired && desiredServices[i..][1..] == desiredServices[i + 1..];
        assert desiredServices[..i + 1] == desiredServices[..i] + [desired];
        desiredServiceNames := desiredServiceNames + {desired.name};
        var end := Ensure(NetTask(svc, desired));
        match end {
          case Stopped(error) => return Err(error);
          case Created => return Err(NotFound);
          case _ =>
        }
      }
      assert desiredServices[..|desiredServices|] == desiredServices;
      o := CleanUpServices(svc, desiredServiceNames);
    }

    // ----- Credentials -----

    method CopyCredentials(f: Flavor, svc: Service) returns (o: Outcome)
      modifies client
      ensures (client.View(), o) == Secrets.CopyCredentials(old(client.View()), f, svc)
    {
      hide Extends, Call, AwaitSecret, FillFrom, SourceName, PostgresDatabase;
      var database := CopyDatabase(f, svc);
      if database.None? {
        return Err(Panicking);
      }
      var source := AwaitSource(SecretKey(svc.namespace, SourceName(f, svc, database.value)));
      match source {
        case Failed(error) => o := Err(error);
        case Got(stored) => o := FillTargetFrom(f, svc, database.value, Readable(stored));
      }
    }

    method AwaitSource(k: Key) returns (source: Reply)
      modifies client
      ensures (client.View(), source) == AwaitSecret(old(client.View()), k, 0)
    {
      hide Extends, Linked, Call, StoreFits;
      var retries := 0;
      while retries < SECRET_RETRIES
        invariant retries <= SECRET_RETRIES
        invariant AwaitSecret(client.View(), k, retries) == AwaitSecret(old(client.View()), k, 0)
      {
        source := client.Do(Get(k));
        if source != Failed(NotFound) {
          return;
        }
        retries := retries + 1;
        client.Sleep(2);
      }
      return Failed(NotFound);
    }

    method FillTargetFrom(f: Flavor, svc: Service, database: string, source: SecretData) returns (o: Outcome)
      modifies client
      ensures (client.View(), o) == FillFrom(old(client.View()), f, svc, database, source)
    {
      hide Extends, Call, FillTarget, Latched;
      var read := client.Do(Get(TargetKey(svc)));
      if read.Failed? {
        if f.Postgres? {
          return Ok;
        }
        if read.error != NotFound {
          return Err(read.error);
        }
        var newSecret := NewObject(map[], None, SecretBody(Some(FillTarget(f, map[], source, svc, database))));
        var made := client.Do(Create(TargetKey(svc), newSecret));
        return if made.Got? then Ok else Err(made.error);
      }
      var data := Readable(read.stored);
      if !Latched(data) {
        data := FillTarget(f, data, source, svc, database);
        var written := client.Do(Update(TargetKey(svc), WithData(read.stored.obj, data), Some(read.stored.version)));
        return if written.Got? then Ok else Err(written.error);
      }
      return Ok;
    }

    method CopyIfWanted(f: Flavor, svc: Service) returns (o: Outcome)
      modifies client
      ensures (client.View(), o) == Secrets.CopyIfWanted(old(client.View()), f, svc)
    {
      hide Extends, Secrets.CopyCredentials;
      o := Ok;
      if svc.spec.kubernetesSecret != "" {
        o := CopyCredentials(f, svc);
      }
    }

    method CreateSource(f: Flavor, svc: Service) returns (o: Outcome)
      modifies client
      ensures (client.View(), o) == Secrets.CreateSource(old(client.View()), f, svc)
    {
      hide Extends, Call, Draw;
      var main := client.GeneratePassword();
      if main.None? {
        return Err(NoRandomness);
      }
      var second := client.GeneratePassword();
      if second.None? {
        return Err(NoRandomness);
      }
      var data := map[MainKey(f) := main.value, SecondKey(f) := second.value];
      var made := client.Do(Create(GeneratedKey(f, svc), NewObject(map[], Some(OwnerOf(svc)), SecretBody(Some(data)))));
      return if made.Got? then Ok else Err(made.error);
    }

    /** Fills the missing keys of a source secret; a nil map panics on the first write. */
    method RepairSource(f: Flavor, svc: Service, stored: Stored) returns (o: Outcome)
      modifies client
      ensures (client.View(), o) == Secrets.RepairSource(old(client.View()), f, svc, stored)
    {
      hide Extends, Call, Draw, DataOf, MainKey, SecondKey;
      var data := DataOf(stored);
      if data.None? || MainKey(f) !in data.value {
        var password := client.GeneratePassword();
        if password.None? {
          return Err(NoRandomness);
        }
        if data.None? {
          return Err(Panicking);
        }
        data := Some(data.value[MainKey(f) := password.value]);
      }
      if SecondKey(f) !in data.value {
        var password := client.GeneratePassword();
        if password.None? {
          return Err(NoRandomness);
        }
        data := Some(data.value[SecondKey(f) := password.value]);
      }
      if !MayOwn(svc, stored.obj.controller) {
        return Err(AlreadyOwned);
      }
      var repaired := Adopt(svc, stored.obj.(body := SecretBody(data)));
      var written := client.Do(Update(GeneratedKey(f, svc), repaired, Some(stored.version)));
      return if written.Got? then Ok else Err(written.error);
    }

    method EnsureSource(f: Flavor, svc: Service) returns (o: Outcome)
      modifies client
      ensures (client.View(), o) == Secrets.EnsureSource(old(client.View()), f, svc)
    {
      hide Extends, Call, Secrets.CreateSource, Secrets.RepairSource, Secrets.CopyIfWanted, HasBoth, DataOf;
      var read := client.Do(Get(GeneratedKey(f, svc)));
      if read.Failed? {
        if read.error != NotFound {
          return Err(read.error);
        }
        o := CreateSource(f, svc);
      } else {
        if HasBoth(f, DataOf(read.stored)) {
          return Ok;
        }
        o := RepairSource(f, svc, read.stored);
      }
      if o.Ok? {
        o := CopyIfWanted(f, svc);
      }
    }

    method EnsureRedis(svc: Service) returns (o: Outcome)
      modifies client
      ensures (client.View(), o) == Secrets.EnsureRedis(old(client.View()), svc)
    {
      hide Extends, Call, Draw, RedisData;
      var read := client.Do(Get(TargetKey(svc)));
      if read.Failed? && read.error != NotFound {
        return Err(read.error);
      }
      if read.Got? && PASSWORD in Readable(read.stored) {
        return Ok;
      }
      var password := client.GeneratePassword();
      if password.None? {
        return Err(NoRandomness);
      }
      if read.Failed? {
        var newSecret := NewObject(map[], None, SecretBody(Some(map[PASSWORD := password.value])));
        var made := client.Do(Create(TargetKey(svc), newSecret));
        return if made.Got? then Ok else Err(made.error);
      }
      var filled := WithData(read.stored.obj, RedisData(Readable(read.stored), password.value, svc));
      var written := client.Do(Update(TargetKey(svc), filled, Some(read.stored.version)));
      return if written.Got? then Ok else Err(written.error);
    }

    // ----- Rendered objects -----

    method CopyAfterwards(svc: Service, crd: Crd, k: Key) returns (o: Outcome)
      modifies client
      ensures (client.View(), o) == Runtime.CopyAfterwards(old(client.View()), svc, crd, k)
    {
      hide Extends, Call, Secrets.CopyCredentials;
      if svc.spec.kubernetesSecret == "" {
        return Ok;
      }
      if !crd.Postgresql? {
        var read := client.Do(Get(k));
        if read.Failed? {
          return Err(read.error);
        }
      }
      o := CopyCredentials(FlavorOf(crd), svc);
    }

    method ReconcileCluster(svc: Service, crd: Crd, namespace: string, name: string, spec: Json) returns (o: Outcome)
      modifies client
      ensures (client.View(), o) == Runtime.ReconcileCluster(old(client.View()), svc, crd, namespace, name, spec)
    {
      hide Extends, RetryLoop, Runtime.CopyAfterwards;
      if namespace != svc.namespace {
        return Err(CrossNamespace);
      }
      var t := ManagedTask(svc, crd, namespace, name, DesiredSpec(crd, spec));
      var end := Ensure(t);
      match end {
        case Created => return Ok;
        case Stopped(error) => return Err(error);
        case _ => o := CopyAfterwards(svc, crd, KeyOf(t));
      }
    }

    method ReconcileSimple(svc: Service, crd: Crd, namespace: string, name: string, spec: Json) returns (o: Outcome)
      modifies client
      ensures (client.View(), o) == Runtime.ReconcileSimple(old(client.View()), svc, crd, namespace, name, spec)
    {
      hide Extends, Call;
      if namespace != svc.namespace {
        return Err(CrossNamespace);
      }
      var k := Key(Managed(crd), namespace, name);
      var read := client.Do(Get(k));
      if read.Failed? {
        if read.error != NotFound {
          return Err(read.error);
        }
        var made := client.Do(Create(k, NewObject(map[], Some(OwnerOf(svc)), ManagedBody(spec))));
        return if made.Got? then Ok else Err(made.error);
      }
      if read.stored.obj.body != ManagedBody(spec) {
        var written := client.Do(Update(k, read.stored.obj.(body := ManagedBody(spec)), Some(read.stored.version)));
        return if written.Got? then Ok else Err(written.error);
      }
      return Ok;
    }

    method WaitUntilGone(k: Key)
      modifies client
      ensures client.View() == AwaitGone(old(client.View()), k, 0)
    {
      hide Extends, Call;
      var retries := 0;
      while retries < DELETE_RETRIES
        invariant retries <= DELETE_RETRIES
        invariant AwaitGone(client.View(), k, retries) == AwaitGone(old(client.View()), k, 0)
      {
        var read := client.Do(Get(k));
        if read == Failed(NotFound) {
          return;
        }
        retries := retries + 1;
        client.Sleep(1);
      }
    }

    method ReplaceJob(svc: Service, k: Key, containers: Json) returns (o: Outcome)
      modifies client
      ensures (client.View(), o) == Runtime.ReplaceJob(old(client.View()), svc, k, containers)
    {
      hide Extends, Call, AwaitGone;
      var gone := client.Do(Delete(k));
      if gone.Failed? {
        return Err(gone.error);
      }
      WaitUntilGone(k);
      var made := client.Do(Create(k, NewJob(svc, containers)));
      return if made.Got? then Ok else Err(made.error);
    }

    method ReconcileJob(svc: Service, namespace: string, name: string, containers: Json) returns (o: Outcome)
      modifies client
      ensures (client.View(), o) == Runtime.ReconcileJob(old(client.View()), svc, namespace, name, containers)
    {
      hide Extends, Call, Runtime.ReplaceJob;
      if namespace != svc.namespace {
        return Err(CrossNamespace);
      }
      var k := Key(JobKind, namespace, name);
      var read := client.Do(Get(k));
      if read.Failed? {
        if read.error != NotFound {
          return Err(read.error);
        }
        var made := client.Do(Create(k, NewJob(svc, containers)));
        return if made.Got? then Ok else Err(made.error);
      }
      if JobIsStale(read.stored.obj.body, containers) {
        o := ReplaceJob(svc, k, containers);
        return;
      }
      return Ok;
    }

    method ReconcileUntyped(svc: Service, k: Key, content: Fields) returns (o: Outcome)
      modifies client
      ensures (client.View(), o) == Runtime.ReconcileUntyped(old(client.View()), svc, k, content)
    {
      hide Extends, Call, Compared, UpdatedUnstructured, WithOwner, ControllerIn, SeenContent, AsStated;
      var read := client.Do(Get(k));
      if read.Failed? {
        if read.error != NotFound {
          return Err(read.error);
        }
        if k.namespace != svc.namespace {
          return Err(CrossNamespace);
        }
        if !MayOwn(svc, ControllerIn(content)) {
          return Err(AlreadyOwned);
        }
        var made := client.Do(Create(k, NewUntyped(WithOwner(content, svc))));
        return if made.Got? then Ok else Err(made.error);
      }
      var existing := SeenContent(read.stored.obj);
      var comparedContent := RemoveNonComparedFields(content);
      var comparedExisting := RemoveNonComparedFields(existing);
      if comparedContent == comparedExisting {
        return Ok;
      }
      if k.namespace != svc.namespace {
        return Err(CrossNamespace);
      }
      var updated := UpdateUnstructured(existing, content);
      if !MayOwn(svc, ControllerIn(updated)) {
        return Err(AlreadyOwned);
      }
      var obj := AsStated(read.stored.obj.(body := UntypedBody(WithOwner(updated, svc))));
      var written := client.Do(Update(k, obj, Some(read.stored.version)));
      return if written.Got? then Ok else Err(written.error);
    }

    method ReconcileObjects(svc: Service, xs: seq<Rendered>) returns (o: Outcome)
      modifies client
      ensures (client.View(), o) == Runtime.ReconcileObjects(old(client.View()), svc, xs)
    {
      hide Extends, Runtime.ReconcileJob, Runtime.ReconcileCluster, Runtime.ReconcileSimple, Runtime.ReconcileUntyped;
      for i := 0 to |xs|
        invariant Runtime.ReconcileObjects(client.View(), svc, xs[i..]) ==
            Runtime.ReconcileObjects(old(client.View()), svc, xs)
      {
        assert xs[i..][0] == xs[i] && xs[i..][1..] == xs[i + 1..];
        match xs[i] {
          case RenderedJob(namespace, name, containers) => o := ReconcileJob(svc, namespace, name, containers);
          case RenderedManaged(crd, namespace, name, spec) =>
            if HasCredentials(crd) {
              o := ReconcileCluster(svc, crd, namespace, name, spec);
            } else {
              o := ReconcileSimple(svc, crd, namespace, name, spec);
            }
          case RenderedUntyped(_, _, _, content) => o := ReconcileUntyped(svc, RenderedKey(xs[i]), content);
        }
        if o.Err? {
          return;
        }
      }
      return Ok;
    }

    /** Creates an object; that it is there already is fine. */
    method CreateIfAbsent(k: Key, spec: Json) returns (o: Outcome)
      modifies client
      ensures (client.View(), o) == Operator.CreateIfAbsent(old(client.View()), k, spec)
    {
      hide Extends, Call;
      var made := client.Do(Create(k, NewObject(map[], None, ManagedBody(spec))));
      if made.Failed? {
        if made.error != AlreadyExists {
          return Err(made.error);
        }
      }
      return Ok;
    }

    method EnsureOperator(databaseType: string) returns (o: Outcome)
      modifies client
      ensures (client.View(), o) == Operator.EnsureOperator(old(client.View()), databaseType)
    {
      hide Extends, Operator.CreateIfAbsent;
      if !NeedsOperator(databaseType) {
        return Ok;
      }
      var namespace := client.setting.podNamespace;
      match client.setting.discovery(databaseType, client.clock) {
        case Installed => return Ok;
        case Undiscoverable => return Err(NoOperator);
        case NotInstalled =>
          o := CreateIfAbsent(RepositoryKey(databaseType, namespace), RepositorySpec(databaseType));
          if o.Ok? {
            o := CreateIfAbsent(ReleaseKey(databaseType, namespace), ReleaseSpec(databaseType, namespace));
          }
      }
    }

    method ReconcileDatabase(svc: Service) returns (o: Outcome)
      modifies client
      ensures (client.View(), o) == Runtime.ReconcileDatabase(old(client.View()), svc)
    {
      hide Extends, Operator.EnsureOperator, Secrets.EnsureRedis, Secrets.EnsureSource, Runtime.ReconcileObjects;
      var databaseType := svc.spec.config.database.databaseType;
      if client.setting.podNamespace == "" {
        return Err(NoNamespace);
      }
      o := EnsureOperator(databaseType);
      if o.Err? {
        return;
      }
      if databaseType == REDIS_TYPE {
        if svc.spec.kubernetesSecret != "" {
          o := EnsureRedis(svc);
        }
      } else if databaseType == MONGODB_TYPE {
        o := EnsureSource(Mongo, svc);
      } else if databaseType == CLICKHOUSE_TYPE {
        o := EnsureSource(ClickHouse, svc);
      }
      if o.Err? {
        return;
      }
      var rendered := client.setting.render(svc);
      if rendered.None? {
        return Err(NotRendered);
      }
      o := ReconcileObjects(svc, rendered.value);
    }

    // ----- The pass -----

    method FinalizeService(svc: Service) returns (o: Outcome)
      modifies client
      ensures (client.View(), o) == Reconciler.FinalizeService(old(client.View()), svc)
    {
      hide Extends, Call, BaseChildren;
      var ks := BaseChildren(svc);
      for i := 0 to |ks|
        invariant DeleteAll(client.View(), ks[i..]) == DeleteAll(old(client.View()), ks)
      {
        assert ks[i..][0] == ks[i] && ks[i..][1..] == ks[i + 1..];
        var gone := client.Do(Delete(ks[i]));
        if gone.Failed? && gone.error != NotFound {
          return Err(gone.error);
        }
      }
      return Ok;
    }

    method ReconcileChildren(svc: Service) returns (o: Outcome)
      modifies client
      ensures (client.View(), o) == Reconciler.ReconcileChildren(old(client.View()), svc)
    {
      hide Extends, Runtime.ReconcileDatabase, Reconciler.ReconcileDeployment, Reconciler.ReconcileServices,
        Reconciler.ReconcileIngress;
      if svc.spec.serviceType == DATABASE {
        o := ReconcileDatabase(svc);
        return;
      }
      o := ReconcileDeployment(svc);
      if o.Err? {
        return;
      }
      o := ReconcileServices(svc);
      if o.Err? {
        return;
      }
      o := ReconcileIngress(svc);
    }

    method UpdateStatusIfNeeded(stored: Stored) returns (o: Outcome)
      requires stored.obj.body.CustomBody?
      modifies client
      ensures (client.View(), o) == WriteStatus(old(client.View()), stored)
    {
      hide Extends, Call;
      var config, status := stored.obj.body.spec.config, stored.obj.body.status;
      var newURLs: seq<string> := [];
      if |config.hosts| > 0 && config.public {
        for i := 0 to |config.hosts|
          invariant newURLs == seq(i, j requires 0 <= j < i => "https://" + config.hosts[j].host)
        {
          newURLs := newURLs + ["https://" + config.hosts[i].host];
        }
      }
      assert newURLs == StatusUrls(config);
      var needsStatusUpdate := false;
      if status.deploymentStatus != READY {
        status := status.(deploymentStatus := READY);
        needsStatusUpdate := true;
      }
      if status.urls != newURLs {
        status := status.(urls := newURLs);
        needsStatusUpdate := true;
      }
      if needsStatusUpdate {
        var written := client.Do(UpdateStatus(client.actor, status, Some(stored.version)));
        return if written.Got? then Ok else Err(written.error);
      }
      return Ok;
    }

    method Reconcile() returns (o: Outcome)
      modifies client
      ensures (client.View(), o) == Reconciler.Reconcile(old(client.View()))
    {
      hide Extends, Call, Reconciler.FinalizeService, Reconciler.ReconcileChildren, WriteStatus;
      var key := client.actor;
      var read := client.Do(Get(key));
      if read.Failed? {
        return if read.error == NotFound then Ok else Err(read.error);
      }
      var stored := read.stored;
      if !stored.obj.body.CustomBody? {
        return Err(Invalid);
      }
      var svc := ServiceOf(key, stored);
      if stored.obj.deleting {
        if FINALIZER in stored.obj.finalizers {
          o := FinalizeService(svc);
          if o.Err? {
            return;
          }
          var obj := stored.obj.(finalizers := stored.obj.finalizers - {FINALIZER});
          var written := client.Do(Update(key, obj, Some(stored.version)));
          return if written.Got? then Ok else Err(written.error);
        }
        return Ok;
      }
      if FINALIZER !in stored.obj.finalizers {
        var obj := stored.obj.(finalizers := stored.obj.finalizers + {FINALIZER});
        var written := client.Do(Update(key, obj, Some(stored.version)));
        return if written.Got? then Ok else Err(written.error);
      }
      o := ReconcileChildren(svc);
      if o.Ok? {
        o := UpdateStatusIfNeeded(stored);
      }
    }
  }
}
