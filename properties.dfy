/**
 * What the handler guarantees, stated over `Handle` for every store content
 * and every environment: which secrets Create and Delete touch, when they
 * succeed, what they report, and how they compose.
 */
module KeyPairProperties {
  import opened Wrappers
  import opened SecretNaming
  import opened Store
  import opened Callback
  import opened KeyPairHandler

  /** Everything a Create needs to get through both secrets. */
  predicate CreateCanSucceed(secrets: Secrets, props: ResourceProperties, env: Environment) {
    && env.keys.Some?
    && CreatePublic !in env.outages
    && CreatePrivate !in env.outages
    && PublicSecretName(props.name) !in secrets
    && PrivateSecretName(props.name) !in secrets
    && ArnReported(env.publicArn)
    && ArnReported(env.privateArn)
  }

  /** Everything a Delete needs: both listings answer, and each secret that
      exists can be deleted. */
  predicate DeleteCanSucceed(secrets: Secrets, props: ResourceProperties, env: Environment) {
    && ListPublic !in env.outages
    && ListPrivate !in env.outages
    && (PublicSecretName(props.name) in secrets ==> DeletePublic !in env.outages)
    && (PrivateSecretName(props.name) in secrets ==> DeletePrivate !in env.outages)
  }

  /** No store call a Delete makes fails. */
  predicate DeleteCallsAnswer(env: Environment) {
    && ListPublic !in env.outages
    && ListPrivate !in env.outages
    && DeletePublic !in env.outages
    && DeletePrivate !in env.outages
  }

  /** `secrets` with the two records of a newly created key pair. */
  function WithKeyPair(secrets: Secrets, props: ResourceProperties, keys: KeyMaterial, env: Environment): Secrets {
    secrets[PublicSecretName(props.name) := Secret(PublicDescription(props.description), keys.publicKey, env.publicArn)]
           [PrivateSecretName(props.name) := Secret(PrivateDescription(props.description), keys.privateKey, env.privateArn)]
  }

  /** The identifier of a record, absent when there is no record. */
  function ArnOf(secrets: Secrets, name: string): Option<string> {
    if name in secrets then secrets[name].arn else None
  }

  /** The response every failed Create or Delete sends. */
  function FailedResponse(event: Event, reason: string): Response {
    Response(Failed, event.resourceProperties.name, event.stackId, event.requestId,
             event.logicalResourceId, None, Some(reason))
  }

  /** The response a successful Create or Delete sends. */
  function SuccessResponse(event: Event, data: ResponseData): Response {
    Response(Success, event.resourceProperties.name, event.stackId, event.requestId,
             event.logicalResourceId, Some(data), None)
  }

  // ---------------------------------------------------------------- Create

  /** The try block of Create gets through exactly when keys are generated,
      neither store call fails, neither name is taken, and both identifiers
      are reported. */
  lemma CreateSucceedsIff(secrets: Secrets, props: ResourceProperties, env: Environment)
    ensures CreateSecrets(secrets, props, env).result.Ok? <==> CreateCanSucceed(secrets, props, env)
  {
    PublicNeverPrivate(props.name, props.name);
  }

  /** A Create that gets through adds exactly the two key-pair records, with
      the keys and described as public and private key, and reports the
      public key and the two identifiers. */
  lemma CreateSuccessEffect(secrets: Secrets, props: ResourceProperties, env: Environment)
    requires CreateCanSucceed(secrets, props, env)
    ensures var step := CreateSecrets(secrets, props, env);
            && step.secrets == WithKeyPair(secrets, props, env.keys.value, env)
            && step.secrets.Keys == secrets.Keys + {PublicSecretName(props.name), PrivateSecretName(props.name)}
            && step.result == Ok(CreatedData(env.keys.value.publicKey, env.publicArn.value, env.privateArn.value))
  {
    PublicNeverPrivate(props.name, props.name);
  }

  /** A successful Create sends SUCCESS with the public key and the
      identifiers of the two records it added; that is the only response
      unless its delivery fails. */
  lemma CreateSuccessResponse(event: Event, secrets: Secrets, env: Environment)
    requires event.requestType == Create
    requires CreateCanSucceed(secrets, event.resourceProperties, env)
    ensures var o := Handle(event, secrets, env);
            var p := event.resourceProperties;
            var keys := env.keys.value;
            && o.secrets == WithKeyPair(secrets, p, keys, env)
            && PublicSecretName(p.name) in o.secrets && PrivateSecretName(p.name) in o.secrets
            && |o.sent| >= 1
            && o.sent[0] == SuccessResponse(event, CreatedData(keys.publicKey,
                                                               o.secrets[PublicSecretName(p.name)].arn.value,
                                                               o.secrets[PrivateSecretName(p.name)].arn.value))
            && (|o.sent| == 1 <==> !DeliveryFailed(env.firstPut))
  {
    var p := event.resourceProperties;
    CreateSuccessEffect(secrets, p, env);
    PublicNeverPrivate(p.name, p.name);
  }

  /** A Create that cannot get through sends exactly one response: FAILED,
      without data, with reason "Create failed". */
  lemma CreateFailureResponse(event: Event, secrets: Secrets, env: Environment)
    requires event.requestType == Create
    requires !CreateCanSucceed(secrets, event.resourceProperties, env)
    ensures var o := Handle(event, secrets, env);
            && o.sent == [FailedResponse(event, "Create failed")]
            && (o.completed <==> !DeliveryFailed(env.firstPut))
  {
    CreateSucceedsIff(secrets, event.resourceProperties, env);
    assert FailureReason(Create) == "Create failed";
  }

  /** No rollback: once the public secret is created, a later failure (no
      public identifier, or the private secret cannot be created) reports
      FAILED but leaves the public secret in the store. */
  lemma CreateHasNoRollback(event: Event, secrets: Secrets, env: Environment)
    requires event.requestType == Create
    requires env.keys.Some? && CreatePublic !in env.outages
    requires PublicSecretName(event.resourceProperties.name) !in secrets
    requires !CreateCanSucceed(secrets, event.resourceProperties, env)
    ensures var o := Handle(event, secrets, env);
            var p := event.resourceProperties;
            && o.sent == [FailedResponse(event, "Create failed")]
            && PublicSecretName(p.name) in o.secrets
            && o.secrets[PublicSecretName(p.name)]
               == Secret(PublicDescription(p.description), env.keys.value.publicKey, env.publicArn)
            && o.secrets != secrets
  {
    var p := event.resourceProperties;
    CreateFailureResponse(event, secrets, env);
    PublicNeverPrivate(p.name, p.name);
  }

  /** Create never replaces a record: every record present before is still
      there unchanged, and at most the two key-pair names are added. */
  lemma CreateNeverOverwrites(event: Event, secrets: Secrets, env: Environment)
    requires event.requestType == Create
    ensures var o := Handle(event, secrets, env);
            var p := event.resourceProperties;
            && (forall n :: n in secrets ==> n in o.secrets && o.secrets[n] == secrets[n])
            && o.secrets.Keys <= secrets.Keys + {PublicSecretName(p.name), PrivateSecretName(p.name)}
  {
  }

  /** Create is not idempotent: a second Create while the public secret
      exists fails and changes nothing. */
  lemma CreateConflictChangesNothing(event: Event, secrets: Secrets, env: Environment)
    requires event.requestType == Create
    requires PublicSecretName(event.resourceProperties.name) in secrets
    ensures var o := Handle(event, secrets, env);
            && o.secrets == secrets
            && o.sent == [FailedResponse(event, "Create failed")]
  {
    CreateFailureResponse(event, secrets, env);
  }

  // ---------------------------------------------------------------- Delete

  /** The try block of Delete gets through exactly when both listings answer
      and each secret that exists can be deleted. */
  lemma DeleteSucceedsIff(secrets: Secrets, props: ResourceProperties, env: Environment)
    ensures DeleteSecrets(secrets, props, env).result.Ok? <==> DeleteCanSucceed(secrets, props, env)
  {
    PublicNeverPrivate(props.name, props.name);
  }

  /** A Delete that gets through removes exactly the two key-pair names and
      reports the identifiers of the records it found (absent for a name
      that was not there). */
  lemma DeleteSuccessEffect(secrets: Secrets, props: ResourceProperties, env: Environment)
    requires DeleteCanSucceed(secrets, props, env)
    ensures var step := DeleteSecrets(secrets, props, env);
            var pub, priv := PublicSecretName(props.name), PrivateSecretName(props.name);
            && step.secrets == secrets - {pub, priv}
            && step.result == Ok(DeletedData(ArnOf(secrets, pub), ArnOf(secrets, priv)))
  {
    var pub, priv := PublicSecretName(props.name), PrivateSecretName(props.name);
    PublicNeverPrivate(props.name, props.name);
    var s1 := DeleteKeySecret(secrets, pub, ListPublic in env.outages, DeletePublic in env.outages);
    assert s1.secrets == secrets - {pub};
    assert ArnOf(s1.secrets, priv) == ArnOf(secrets, priv);
  }

  /** A successful Delete leaves neither key-pair secret in the store and
      sends SUCCESS with the identifiers of what it removed. */
  lemma DeleteSuccessResponse(event: Event, secrets: Secrets, env: Environment)
    requires event.requestType == Delete
    requires DeleteCanSucceed(secrets, event.resourceProperties, env)
    ensures var o := Handle(event, secrets, env);
            var pub, priv := PublicSecretName(event.resourceProperties.name), PrivateSecretName(event.resourceProperties.name);
            && o.secrets == secrets - {pub, priv}
            && pub !in o.secrets && priv !in o.secrets
            && |o.sent| >= 1
            && o.sent[0] == SuccessResponse(event, DeletedData(ArnOf(secrets, pub), ArnOf(secrets, priv)))
            && (|o.sent| == 1 <==> !DeliveryFailed(env.firstPut))
  {
    DeleteSuccessEffect(secrets, event.resourceProperties, env);
  }

  /** A Delete that cannot get through sends exactly one response: FAILED,
      without data, with reason "Delete failed". */
  lemma DeleteFailureResponse(event: Event, secrets: Secrets, env: Environment)
    requires event.requestType == Delete
    requires !DeleteCanSucceed(secrets, event.resourceProperties, env)
    ensures var o := Handle(event, secrets, env);
            && o.sent == [FailedResponse(event, "Delete failed")]
            && (o.completed <==> !DeliveryFailed(env.firstPut))
  {
    DeleteSucceedsIff(secrets, event.resourceProperties, env);
    assert FailureReason(Delete) == "Delete failed";
  }

  /** Delete never touches a record other than the two key-pair secrets. */
  lemma DeleteTouchesOnlyKeyPair(event: Event, secrets: Secrets, env: Environment)
    requires event.requestType == Delete
    ensures var o := Handle(event, secrets, env);
            var pub, priv := PublicSecretName(event.resourceProperties.name), PrivateSecretName(event.resourceProperties.name);
            && o.secrets.Keys <= secrets.Keys
            && (forall n :: n in secrets && n != pub && n != priv ==> n in o.secrets && o.secrets[n] == secrets[n])
  {
  }

  /** Delete is idempotent: after a successful Delete, a second one (whose
      listings answer) changes nothing and reports SUCCESS with both
      identifiers absent. */
  lemma DeleteIdempotent(event: Event, secrets: Secrets, env1: Environment, env2: Environment)
    requires event.requestType == Delete
    requires DeleteCanSucceed(secrets, event.resourceProperties, env1)
    requires ListPublic !in env2.outages && ListPrivate !in env2.outages
    ensures var o1 := Handle(event, secrets, env1);
            var o2 := Handle(event, o1.secrets, env2);
            && o2.secrets == o1.secrets
            && |o2.sent| >= 1
            && o2.sent[0] == SuccessResponse(event, DeletedData(None, None))
  {
    var o1 := Handle(event, secrets, env1);
    DeleteSuccessResponse(event, secrets, env1);
    assert DeleteCanSucceed(o1.secrets, event.resourceProperties, env2);
    DeleteSuccessResponse(event, o1.secrets, env2);
    var p := event.resourceProperties;
    assert o1.secrets - {PublicSecretName(p.name), PrivateSecretName(p.name)} == o1.secrets;
  }

  /** A successful Create followed by a Delete of the same name (whose store
      calls answer) puts the store back as it was, and the Delete reports the
      identifiers that the Create reported. */
  lemma CreateThenDeleteRestores(create: Event, delete: Event, secrets: Secrets, env1: Environment, env2: Environment)
    requires create.requestType == Create && delete.requestType == Delete
    requires delete.resourceProperties.name == create.resourceProperties.name
    requires CreateCanSucceed(secrets, create.resourceProperties, env1)
    requires DeleteCallsAnswer(env2)
    ensures var o1 := Handle(create, secrets, env1);
            var o2 := Handle(delete, o1.secrets, env2);
            var p := create.resourceProperties;
            && o2.secrets == secrets
            && PublicSecretName(p.name) !in o2.secrets && PrivateSecretName(p.name) !in o2.secrets
            && |o2.sent| >= 1
            && o2.sent[0] == SuccessResponse(delete, DeletedData(env1.publicArn, env1.privateArn))
  {
    var p := create.resourceProperties;
    var pub, priv := PublicSecretName(p.name), PrivateSecretName(p.name);
    var o1 := Handle(create, secrets, env1);
    CreateSuccessResponse(create, secrets, env1);
    DeleteSuccessResponse(delete, o1.secrets, env2);
    PublicNeverPrivate(p.name, p.name);
    assert o1.secrets - {pub, priv} == secrets;
  }

  // ---------------------------------------------------------------- Update and every event

  /** Update falls through the switch: nothing changes and nothing is sent. */
  lemma UpdateIsNoOp(event: Event, secrets: Secrets, env: Environment)
    requires event.requestType == Update
    ensures Handle(event, secrets, env) == Outcome(secrets, [], true)
  {
  }

  /** Whatever the event, only the two key-pair records can change. */
  lemma OnlyKeyPairSecretsChange(event: Event, secrets: Secrets, env: Environment)
    ensures var o := Handle(event, secrets, env);
            var pub, priv := PublicSecretName(event.resourceProperties.name), PrivateSecretName(event.resourceProperties.name);
            forall n :: n != pub && n != priv ==>
              (n in o.secrets <==> n in secrets) && (n in secrets ==> o.secrets[n] == secrets[n])
  {
    match event.requestType
    case Create => CreateNeverOverwrites(event, secrets, env);
    case Delete => DeleteTouchesOnlyKeyPair(event, secrets, env);
    case Update =>
  }

  /** Every response echoes the event: physical resource id is the key
      pair's name, and the stack, request and logical resource ids are
      copied; SUCCESS carries data and no reason, FAILED a reason and no
      data. */
  lemma ResponsesEchoEvent(event: Event, secrets: Secrets, env: Environment)
    ensures forall r :: r in Handle(event, secrets, env).sent ==>
              && Echoes(r, event)
              && (r.status == Success <==> r.data.Some?)
              && (r.status == Failed <==> r.reason.Some?)
  {
  }

  /** Create and Delete send one response, or two when the SUCCESS response's
      delivery fails and the catch block then sends FAILED; the invocation
      completes exactly when its last PUT is delivered. */
  lemma ResponseCount(event: Event, secrets: Secrets, env: Environment)
    requires event.requestType != Update
    ensures var o := Handle(event, secrets, env);
            && 1 <= |o.sent| <= 2
            && (|o.sent| == 2 <==> o.sent[0].status == Success && DeliveryFailed(env.firstPut))
            && (|o.sent| == 2 ==> o.sent[1].status == Failed)
            && (o.completed <==> !DeliveryFailed(if |o.sent| == 1 then env.firstPut else env.secondPut))
  {
  }

  /** When the first PUT is delivered, exactly one response is sent. */
  lemma ExactlyOneResponse(event: Event, secrets: Secrets, env: Environment)
    requires event.requestType != Update
    requires !DeliveryFailed(env.firstPut)
    ensures |Handle(event, secrets, env).sent| == 1
    ensures Handle(event, secrets, env).completed
  {
    ResponseCount(event, secrets, env);
  }
}
