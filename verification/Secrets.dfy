/** pkg/utils/secret.go: the metadata of every generated Secret. */
module Secrets {
  import opened Wrappers
  import opened Text
  import opened Common
  import opened Resources
  import opened Annotations
  import Aiven

  /** What the handlers are configured with. `checksum` is CRC-32, `kafkaUserName` the naming
      scheme shared with other tools, `pools` what the Kafka name resolver answers. */
  datatype Config = Config(
    project: string,
    kafkaProjects: seq<string>,
    pools: map<string, string>,
    codec: TimeCodec,
    checksum: string -> Word32,
    kafkaUserName: (string, string, string) -> Option<string>)

  function FormatBool(b: bool): string {
    if b then "true" else "false"
  }

  function Generation(app: Application): int {
    if GENERATION_LABEL in app.labels && Atoi(app.labels[GENERATION_LABEL]).Some?
    then Atoi(app.labels[GENERATION_LABEL]).value
    else 0
  }

  function CreateLabels(app: Application): map<string, string> {
    map[
      APP_LABEL := app.name,
      TEAM_LABEL := app.namespace,
      SECRET_TYPE_LABEL := SECRET_TYPE,
      GENERATION_LABEL := Itoa(Generation(app)),
      PROTECTED := FormatBool(app.spec.protected)]
  }

  function CreateAnnotations(app: Application, codec: TimeCodec): Annotations {
    var always := map[
      CORRELATION_ID := if CORRELATION_ID in app.annotations then app.annotations[CORRELATION_ID] else "",
      PROTECTED := FormatBool(app.spec.protected)];
    if app.spec.protected && app.spec.expiresAt.Some? then
      always + map[WITH_TIME_LIMIT := FormatBool(true), EXPIRES_AT := codec.format(app.spec.expiresAt.value)]
    else always
  }

  function WithObjectMeta(s: Secret, app: Application, codec: TimeCodec): Secret {
    s.(labels := Merge(s.labels, CreateLabels(app)), annotations := Merge(s.annotations, CreateAnnotations(app, codec)))
  }

  /** The Secret every handler starts from. */
  function IndividualSecret(app: Application, name: string, codec: TimeCodec): Secret {
    WithObjectMeta(Secret(app.namespace, name, 0, map[], map[], [], false), app, codec)
  }

  lemma IndividualSecretHasBaseKeys(app: Application, name: string, codec: TimeCodec)
    ensures IndividualSecret(app, name, codec).annotations.Keys <= BASE_KEYS
  {
  }

  /** The labels, written out, and those that the Secret had beside them. */
  ghost predicate LabelsAre(labels: map<string, string>, before: map<string, string>, app: Application) {
    var generation := "aiven.nais.io/secret-generation";
    && Maps(labels, "app", app.name) && Maps(labels, "team", app.namespace)
    && Maps(labels, "type", "aivenator.aiven.nais.io")
    && Maps(labels, generation,
      if generation in app.labels && Atoi(app.labels[generation]).Some?
      then Itoa(Atoi(app.labels[generation]).value) else "0")
    && Maps(labels, "aivenator.aiven.nais.io/protected", if app.spec.protected then "true" else "false")
    && SameBut(before, labels, {"app", "team", "type", generation, "aivenator.aiven.nais.io/protected"})
  }

  /** The annotations, written out, and those that the Secret had beside them: a time limit only for an
      application that is protected and expires. */
  ghost predicate AnnotationsAre(a: Annotations, before: Annotations, app: Application, codec: TimeCodec) {
    var id, protected := "nais.io/deploymentCorrelationID", "aivenator.aiven.nais.io/protected";
    var limited, expires := "aivenator.aiven.nais.io/with-time-limit", "aivenator.aiven.nais.io/expires-at";
    && Maps(a, id, if id in app.annotations then app.annotations[id] else "")
    && Maps(a, protected, if app.spec.protected then "true" else "false")
    && if app.spec.protected && app.spec.expiresAt.Some? then
         && Maps(a, limited, "true") && Maps(a, expires, codec.format(app.spec.expiresAt.value))
         && SameBut(before, a, {id, protected, limited, expires})
       else SameBut(before, a, {id, protected})
  }

  lemma FiveMerged(before: map<string, string>, k: seq<string>, v: seq<string>)
    requires |k| == |v| == 5 && forall i, j :: 0 <= i < j < 5 ==> k[i] != k[j]
    ensures var m := Merge(before, map[k[0] := v[0], k[1] := v[1], k[2] := v[2], k[3] := v[3], k[4] := v[4]]);
      && SameBut(before, m, {k[0], k[1], k[2], k[3], k[4]})
      && forall i :: 0 <= i < 5 ==> Maps(m, k[i], v[i])
  {
  }

  lemma FourMerged(before: map<string, string>, k: seq<string>, v: seq<string>)
    requires |k| == |v| == 4 && forall i, j :: 0 <= i < j < 4 ==> k[i] != k[j]
    ensures var m := Merge(before, map[k[0] := v[0], k[1] := v[1]] + map[k[2] := v[2], k[3] := v[3]]);
      && SameBut(before, m, {k[0], k[1], k[2], k[3]})
      && forall i :: 0 <= i < 4 ==> Maps(m, k[i], v[i])
  {
  }

  lemma LabelsMeanThis(s: Secret, app: Application, codec: TimeCodec)
    ensures LabelsAre(WithObjectMeta(s, app, codec).labels, s.labels, app)
  {
    hide Maps, SameBut, Merge, CreateAnnotations;
    var k := [APP_LABEL, TEAM_LABEL, SECRET_TYPE_LABEL, GENERATION_LABEL, PROTECTED];
    var v := [app.name, app.namespace, SECRET_TYPE, Itoa(Generation(app)), FormatBool(app.spec.protected)];
    LabelKeysDiffer(k);
    FiveMerged(s.labels, k, v);
  }

  lemma LabelKeysDiffer(k: seq<string>)
    requires k == [APP_LABEL, TEAM_LABEL, SECRET_TYPE_LABEL, GENERATION_LABEL, PROTECTED]
    ensures forall i, j :: 0 <= i < j < 5 ==> k[i] != k[j]
  {
    assert k[1][1] == 'e' && k[2][1] == 'y';
    assert |k[0]| == 3 && |k[1]| == 4 && |k[2]| == 4 && |k[3]| == 31 && |k[4]| == 33;
  }

  lemma AnnotationsMeanThis(s: Secret, app: Application, codec: TimeCodec)
    ensures AnnotationsAre(WithObjectMeta(s, app, codec).annotations, s.annotations, app, codec)
  {
    hide Maps, SameBut, Merge, CreateLabels;
    var k := [CORRELATION_ID, PROTECTED, WITH_TIME_LIMIT, EXPIRES_AT];
    AnnotationKeysDiffer(k);
    var id := if CORRELATION_ID in app.annotations then app.annotations[CORRELATION_ID] else "";
    if app.spec.protected && app.spec.expiresAt.Some? {
      FourMerged(s.annotations, k,
        [id, FormatBool(app.spec.protected), FormatBool(true), codec.format(app.spec.expiresAt.value)]);
    } else {
      TwoMerged(s.annotations, k[..2], [id, FormatBool(app.spec.protected)]);
    }
  }

  lemma AnnotationKeysDiffer(k: seq<string>)
    requires k == [CORRELATION_ID, PROTECTED, WITH_TIME_LIMIT, EXPIRES_AT]
    ensures forall i, j :: 0 <= i < j < 4 ==> k[i] != k[j]
  {
    assert |k[0]| == 31 && |k[1]| == 33 && |k[2]| == 39 && |k[3]| == 34;
  }

  /** What every generated Secret has in common, written out; its annotations grew from `base`. */
  ghost predicate IsMadeFor(s: Secret, base: Annotations, app: Application, name: string, codec: TimeCodec) {
    && s.namespace == app.namespace && s.name == name && !s.terminating
    && s.finalizers == ["aivenator.aiven.nais.io/finalizer"]
    && LabelsAre(s.labels, map[], app) && AnnotationsAre(base, map[], app, codec)
  }

  lemma IndividualIsMadeFor(app: Application, name: string, a: Annotations, codec: TimeCodec)
    ensures var s := IndividualSecret(app, name, codec);
      IsMadeFor(AddFinalizer(s.(annotations := a), FINALIZER), s.annotations, app, name, codec)
  {
    hide LabelsAre, AnnotationsAre, CreateLabels, CreateAnnotations, Merge;
    var empty := Secret(app.namespace, name, 0, map[], map[], [], false);
    LabelsMeanThis(empty, app, codec);
    AnnotationsMeanThis(empty, app, codec);
  }

  method UpdateObjectMeta(app: Application, ref: SecretRef, codec: TimeCodec)
    modifies ref
    ensures ref.secret == WithObjectMeta(old(ref.secret), app, codec)
    ensures LabelsAre(ref.secret.labels, old(ref.secret.labels), app)
    ensures AnnotationsAre(ref.secret.annotations, old(ref.secret.annotations), app, codec)
  {
    hide LabelsAre, AnnotationsAre;
    LabelsMeanThis(ref.secret, app, codec);
    AnnotationsMeanThis(ref.secret, app, codec);
    var generation := 0;
    if GENERATION_LABEL in app.labels {
      var parsed := Atoi(app.labels[GENERATION_LABEL]);
      if parsed.Some? {
        generation := parsed.value;
      }
    }
    ref.secret := ref.secret.(labels := Merge(ref.secret.labels, map[
      APP_LABEL := app.name,
      TEAM_LABEL := app.namespace,
      SECRET_TYPE_LABEL := SECRET_TYPE,
      GENERATION_LABEL := Itoa(generation),
      PROTECTED := FormatBool(app.spec.protected)]));
    ref.secret := ref.secret.(annotations := Merge(ref.secret.annotations, CreateAnnotations(app, codec)));
  }

  /** Up to 63 lower-case letters, digits and dashes, and no dash at either end. */
  ghost predicate IsLabel(name: string) {
    && 1 <= |name| <= 63 && name[0] != '-' && name[|name| - 1] != '-'
    && forall c :: c in name ==> 'a' <= c <= 'z' || '0' <= c <= '9' || c == '-'
  }

  lemma LabelsAreDNS1123(name: string)
    ensures IsLabel(name) <==> IsDNS1123Label(name)
  {
    assert forall i :: 0 <= i < |name| ==> name[i] in name;
  }

  method ApplyIndividualSecret(app: Application, ref: SecretRef, api: Aiven.Api, config: Config)
    returns (e: Option<Error>)
    modifies ref
    ensures e.None? ==> IsDNS1123Label(old(ref.secret.name))
    ensures e.None? ==> ref.secret == WithObjectMeta(old(ref.secret), app, config.codec)
    ensures !IsDNS1123Label(old(ref.secret.name)) ==> e == Some(Wrapped(InvalidSecretName, Unrecoverable))
    ensures api.reliable && IsLabel(old(ref.secret.name)) ==> e.None?
    ensures e.None? ==> IsLabel(old(ref.secret.name))
  {
    LabelsAreDNS1123(ref.secret.name);
    if !IsDNS1123Label(ref.secret.name) {
      return Some(Wrapped(InvalidSecretName, Unrecoverable));
    }
    UpdateObjectMeta(app, ref, config.codec);
    var fault := api.GetCA(config.project);
    e := if fault.Some? then Some(Wrapped(NoProjectCA, fault.value)) else None;
  }
}
