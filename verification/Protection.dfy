/** Protection, end to end: what the handlers write into a Secret, what the janitor reads out of it,
    and when the application reconciler lets an application expire. */
module Protection {
  import opened Wrappers
  import opened Common
  import opened Resources
  import opened Annotations
  import opened Secrets
  import opened Cluster
  import opened Credentials
  import opened Cleaner
  import opened Synchronization
  import Reconciler

  function ToTheSecond(t: Time): (s: Time)
    ensures s <= t < s + 1_000_000_000 && s % 1_000_000_000 == 0
  {
    t - t % 1_000_000_000
  }

  lemma FormattedIsNotEmpty(codec: TimeCodec, t: Time)
    requires RoundTrips(codec)
    ensures codec.format(t) != "" && codec.parse(codec.format(t)) == Some(ToTheSecond(t))
  {
  }

  lemma BaseAnnotations(app: Application, codec: TimeCodec)
    ensures var a := CreateAnnotations(app, codec);
      && (HasProtected(a) <==> app.spec.protected)
      && (HasTimeLimited(a) <==> app.spec.protected && app.spec.expiresAt.Some?)
      && (HasTimeLimited(a) ==> EXPIRES_AT in a && a[EXPIRES_AT] == codec.format(app.spec.expiresAt.value))
  {
  }

  /** The janitor reads back exactly what the application asked for: protection without an expiry for
      ever, protection with one up to and including that second, and none otherwise. */
  lemma ShieldIsWhatWasAskedFor(s: Secret, app: Application, config: Config, now: Time)
    requires IsGenerated(s, app, config) && RoundTrips(config.codec)
    ensures Shielded(s.annotations, config.codec, now) <==>
      app.spec.protected && (app.spec.expiresAt.Some? ==> now <= ToTheSecond(app.spec.expiresAt.value))
  {
    hide CreateAnnotations, CreateLabels, RoundTrips;
    BaseAnnotations(app, config.codec);
    assert {PROTECTED, WITH_TIME_LIMIT, EXPIRES_AT} <= BASE_KEYS;
    if app.spec.expiresAt.Some? {
      FormattedIsNotEmpty(config.codec, app.spec.expiresAt.value);
    }
  }

  /** The reconciler and the janitor change their minds at the same instant. */
  lemma SameInstant(s: Secret, app: Application, config: Config, now: Time)
    requires IsGenerated(s, app, config) && RoundTrips(config.codec)
    requires app.spec.protected && app.spec.expiresAt.Some?
    ensures Reconciler.IsExpired(app, config.codec, now) <==> !Shielded(s.annotations, config.codec, now)
    ensures Reconciler.IsExpired(app, config.codec, now) <==> now > ToTheSecond(app.spec.expiresAt.value)
  {
    hide IsGenerated, Shielded;
    ShieldIsWhatWasAskedFor(s, app, config, now);
    FormattedIsNotEmpty(config.codec, app.spec.expiresAt.value);
  }

  lemma GeneratedIsInScope(s: Secret, app: Application, config: Config)
    requires IsGenerated(s, app, config)
    ensures HasLabel(s.labels, SECRET_TYPE_LABEL, SECRET_TYPE) && HasLabel(s.labels, APP_LABEL, app.name)
    ensures InScope(s, Everything) && InScope(s, OfApplication(app.namespace, app.name))
  {
  }

  /** A copy of a generated Secret that is in the cluster goes with the next pass over everything or over its
      application if and only if nobody uses it and the application did not ask for protection that
      still holds; what other deletions come to makes no difference. */
  lemma GoesWithNextPass(
    requested: seq<Key>, secrets: seq<Secret>, times: Times, stored: Cluster.Secrets, scope: Scope, pods: seq<Pod>,
    users: set<Object>, scheme: set<ObjectKind>, generated: Secret, app: Application, config: Config)
    requires IsGenerated(generated, app, config) && RoundTrips(config.codec)
    requires generated.Id() in stored && IsCopy(stored[generated.Id()], generated)
    requires scope in {Everything, OfApplication(app.namespace, app.name)}
    requires Lists(secrets, stored, scope) && Exactly(requested, secrets, times, pods, users, scheme, config.codec)
    ensures var s := stored[generated.Id()];
      s.Id() in requested <==>
        && !UsedByPods(s, pods) && !UsedByObjects(s, users, scheme)
        && (app.spec.protected ==>
          app.spec.expiresAt.Some? && s.Id() in times && times[s.Id()] > ToTheSecond(app.spec.expiresAt.value))
  {
    hide UsedByObjects, IsGenerated, Shielded, UsedByPods;
    var s := stored[generated.Id()];
    GeneratedIsInScope(generated, app, config);
    assert s in secrets;
    if s.Id() in times {
      ShieldIsWhatWasAskedFor(generated, app, config, times[s.Id()]);
    }
  }

  /** A run deletes an application only after its expiry, and after it does nothing else with it. */
  lemma OnlyExpiredIsDeleted(
    end: Reconciler.End, key: Key, now: Time, hasher: Reconciler.Hasher, config: Config, resources: Instances,
    apps: Reconciler.Applications, store: Store, apps': Reconciler.Applications, store': Store)
    requires Reconciler.RunEffect(end, key, now, hasher, config, resources, apps, store, apps', store')
    requires key in apps && RoundTrips(config.codec)
    ensures var expires := apps[key].spec.expiresAt;
      && (expires.None? || now <= ToTheSecond(expires.value) ==> key in apps' && (end.Ran? || end.Unreadable?))
      && (expires.Some? && now > ToTheSecond(expires.value) ==> store' == store && apps' in {apps, apps - {key}})
  {
    hide Reconciler.Effect;
    if apps[key].spec.expiresAt.Some? {
      FormattedIsNotEmpty(config.codec, apps[key].spec.expiresAt.value);
    }
  }

  lemma ShieldedStays(before: Cluster.Secrets, pass: CleaningPass, after: Cluster.Secrets, codec: TimeCodec, key: Key)
    requires Cleans(before, pass, after, codec) && key in before
    requires key in pass.times ==> Shielded(before[key].annotations, codec, pass.times[key])
    ensures key in after && after[key] == before[key]
  {
  }

  /** No sequence of passes of any scope, whoever uses what, removes or marks a Secret of a protected
      application before its time; without an expiry that time never comes. */
  lemma {:induction false} ProtectedOutlivesPasses(
    stores: seq<Cluster.Secrets>, passes: seq<CleaningPass>, n: nat, generated: Secret, app: Application,
    config: Config)
    requires |stores| == |passes| + 1 && n <= |passes|
    requires forall i :: 0 <= i < |passes| ==> Cleans(stores[i], passes[i], stores[i + 1], config.codec)
    requires IsGenerated(generated, app, config) && RoundTrips(config.codec) && app.spec.protected
    requires generated.Id() in stores[0] && IsCopy(stores[0][generated.Id()], generated)
    requires app.spec.expiresAt.Some? ==>
      forall i :: 0 <= i < |passes| && generated.Id() in passes[i].times ==>
        passes[i].times[generated.Id()] <= ToTheSecond(app.spec.expiresAt.value)
    ensures generated.Id() in stores[n] && stores[n][generated.Id()] == stores[0][generated.Id()]
  {
    hide Cleans, IsGenerated, Shielded, RoundTrips;
    if n > 0 {
      ProtectedOutlivesPasses(stores, passes, n - 1, generated, app, config);
      var key, pass := generated.Id(), passes[n - 1];
      if key in pass.times {
        ShieldIsWhatWasAskedFor(generated, app, config, pass.times[key]);
      }
      ShieldedStays(stores[n - 1], pass, stores[n], config.codec, key);
    }
  }
}
