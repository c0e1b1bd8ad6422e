/**
 * The custom-resource handler: on Create it generates a key pair and stores
 * its halves as two secrets, on Delete it removes those secrets if they
 * exist, and in both cases it reports the outcome to the orchestrator. An
 * Update event is ignored.
 *
 * `Handle` is the handler as a function of the event, the store contents and
 * the environment; the methods below do the same thing step by step on a
 * `SecretStore` and a `CallbackEndpoint` and are proved to agree with it.
 */
module KeyPairHandler {
  import opened Wrappers
  import opened SecretNaming
  import opened Store
  import opened Callback

  /** A generated key pair, as the two PEM strings. */
  datatype KeyMaterial = KeyMaterial(publicKey: string, privateKey: string)

  /** The store calls the handler makes, one per call site. */
  datatype StoreCall = CreatePublic | CreatePrivate | ListPublic | DeletePublic | ListPrivate | DeletePrivate

  /** What the world outside the model decides during one invocation: the
      generated keys (None when the generator throws), the identifiers the
      store reports for the two new secrets, the store calls that fail for a
      reason other than the store's contents, and how the first and the
      second PUT of a response are delivered. */
  datatype Environment = Environment(
    keys: Option<KeyMaterial>,
    publicArn: Option<string>,
    privateArn: Option<string>,
    outages: set<StoreCall>,
    firstPut: Delivery,
    secondPut: Delivery)

  /** Why the work inside the handler's try block stopped. */
  datatype Error = KeyGenerationFailed | StoreFailed(cause: StoreError) | ArnNotFound(secretName: string)

  /** The result of a step and the store contents after it. */
  datatype Step<T> = Step(result: Result<T, Error>, secrets: Secrets)

  /** The effect of one invocation: the new store contents, the responses
      PUT to the orchestrator in order, and whether the invocation ended
      without an uncaught error. */
  datatype Outcome = Outcome(secrets: Secrets, sent: seq<Response>, completed: bool)

  /** The identifier check after CreateSecret: an absent or empty ARN throws. */
  predicate ArnReported(arn: Option<string>) {
    arn.Some? && arn.value != ""
  }

  /** The check at the end of secretExists: the listing is present and non-empty. */
  predicate AnyListed(secretList: Option<seq<string>>) {
    secretList.Some? && |secretList.value| > 0
  }

  /** createPublicKeySecret / createPrivateKeySecret: create the secret, then
      throw if the store reported no identifier (the secret stays). */
  function CreateKeySecret(secrets: Secrets, name: string, description: string, value: string,
                           arn: Option<string>, outage: bool): Step<string>
  {
    var reply := CreateSecret(secrets, name, description, value, arn, outage);
    match reply.result
    case Err(e) => Step(Err(StoreFailed(e)), reply.secrets)
    case Ok(a) =>
      if ArnReported(a) then Step(Ok(a.value), reply.secrets)
      else Step(Err(ArnNotFound(name)), reply.secrets)
  }

  /** The try block of createKeyPair up to the response: generate, create
      the public secret, then the private one. */
  function CreateSecrets(secrets: Secrets, props: ResourceProperties, env: Environment): Step<ResponseData>
  {
    match env.keys
    case None => Step(Err(KeyGenerationFailed), secrets)
    case Some(keys) =>
      var pub := CreateKeySecret(secrets, PublicSecretName(props.name), PublicDescription(props.description),
                                 keys.publicKey, env.publicArn, CreatePublic in env.outages);
      if pub.result.Err? then Step(Err(pub.result.error), pub.secrets)
      else
        var priv := CreateKeySecret(pub.secrets, PrivateSecretName(props.name), PrivateDescription(props.description),
                                    keys.privateKey, env.privateArn, CreatePrivate in env.outages);
        if priv.result.Err? then Step(Err(priv.result.error), priv.secrets)
        else Step(Ok(CreatedData(keys.publicKey, pub.result.value, priv.result.value)), priv.secrets)
  }

  /** deletePublicKeySecret / deletePrivateKeySecret: delete the secret if the
      listing shows it; an absent secret gives no identifier and no error. */
  function DeleteKeySecret(secrets: Secrets, name: string, listOutage: bool, deleteOutage: bool): Step<Option<string>>
  {
    match ListSecrets(secrets, name, listOutage)
    case Err(e) => Step(Err(StoreFailed(e)), secrets)
    case Ok(list) =>
      if AnyListed(list) then
        var reply := DeleteSecret(secrets, name, deleteOutage);
        match reply.result
        case Err(e) => Step(Err(StoreFailed(e)), reply.secrets)
        case Ok(arn) => Step(Ok(arn), reply.secrets)
      else Step(Ok(None), secrets)
  }

  /** The try block of deleteKeyPair up to the response: the public secret,
      then the private one. */
  function DeleteSecrets(secrets: Secrets, props: ResourceProperties, env: Environment): Step<ResponseData>
  {
    var pub := DeleteKeySecret(secrets, PublicSecretName(props.name),
                               ListPublic in env.outages, DeletePublic in env.outages);
    if pub.result.Err? then Step(Err(pub.result.error), pub.secrets)
    else
      var priv := DeleteKeySecret(pub.secrets, PrivateSecretName(props.name),
                                  ListPrivate in env.outages, DeletePrivate in env.outages);
      if priv.result.Err? then Step(Err(priv.result.error), priv.secrets)
      else Step(Ok(DeletedData(pub.result.value, priv.result.value)), priv.secrets)
  }

  /** The responses PUT for one event, in order, and whether the invocation
      ends without an uncaught error. */
  datatype Responses = Responses(sent: seq<Response>, completed: bool)

  /** The responses of one Create or Delete. A SUCCESS response whose delivery fails throws inside the try
      block, so the catch then sends a FAILED response as a second PUT; a
      FAILED response whose delivery fails escapes the handler. */
  function Reported(event: Event, result: Result<ResponseData, Error>, env: Environment): Responses
  {
    var failure := ResponseFor(event, Failed, None, Some(FailureReason(event.requestType)));
    match result
    case Err(_) => Responses([failure], !DeliveryFailed(env.firstPut))
    case Ok(data) =>
      var success := ResponseFor(event, Success, Some(data), None);
      if !DeliveryFailed(env.firstPut) then Responses([success], true)
      else Responses([success, failure], !DeliveryFailed(env.secondPut))
  }

  /** The handler: Create and Delete are handled, Update falls through. */
  function Handle(event: Event, secrets: Secrets, env: Environment): Outcome
  {
    match event.requestType
    case Create =>
      var step := CreateSecrets(secrets, event.resourceProperties, env);
      var r := Reported(event, step.result, env);
      Outcome(step.secrets, r.sent, r.completed)
    case Delete =>
      var step := DeleteSecrets(secrets, event.resourceProperties, env);
      var r := Reported(event, step.result, env);
      Outcome(step.secrets, r.sent, r.completed)
    case Update => Outcome(secrets, [], true)
  }

  /** secretExists: list the secrets under a name filter and check that the
      list is non-empty. */
  method SecretExists(store: SecretStore, secretId: string, outage: bool) returns (r: Result<bool, Error>)
    ensures r.Ok? <==> !outage
    ensures r.Ok? ==> (r.value <==> secretId in store.secrets)
    ensures r.Ok? ==> r.value == AnyListed(ListSecrets(store.secrets, secretId, outage).value)
    ensures r.Err? ==> r.error == StoreFailed(ListSecrets(store.secrets, secretId, outage).error)
  {
    var listed := store.List(secretId, outage);
    if listed.Err? {
      return Err(StoreFailed(listed.error));
    }
    var secretList := listed.value;
    r := Ok(AnyListed(secretList));
  }

  method CreatePublicKeySecret(store: SecretStore, publicKey: string, props: ResourceProperties, env: Environment)
    returns (r: Result<string, Error>)
    modifies store
    ensures Step(r, store.secrets)
         == CreateKeySecret(old(store.secrets), PublicSecretName(props.name), PublicDescription(props.description),
                            publicKey, env.publicArn, CreatePublic in env.outages)
  {
    var name := PublicSecretName(props.name);
    var created := store.Create(name, PublicDescription(props.description), publicKey,
                                env.publicArn, CreatePublic in env.outages);
    if created.Err? {
      return Err(StoreFailed(created.error));
    }
    var arn := created.value;
    if !ArnReported(arn) {
      return Err(ArnNotFound(name));
    }
    r := Ok(arn.value);
  }

  method CreatePrivateKeySecret(store: SecretStore, privateKey: string, props: ResourceProperties, env: Environment)
    returns (r: Result<string, Error>)
    modifies store
    ensures Step(r, store.secrets)
         == CreateKeySecret(old(store.secrets), PrivateSecretName(props.name), PrivateDescription(props.description),
                            privateKey, env.privateArn, CreatePrivate in env.outages)
  {
    var name := PrivateSecretName(props.name);
    var created := store.Create(name, PrivateDescription(props.description), privateKey,
                                env.privateArn, CreatePrivate in env.outages);
    if created.Err? {
      return Err(StoreFailed(created.error));
    }
    var arn := created.value;
    if !ArnReported(arn) {
      return Err(ArnNotFound(name));
    }
    r := Ok(arn.value);
  }

  method DeletePublicKeySecret(store: SecretStore, props: ResourceProperties, env: Environment)
    returns (r: Result<Option<string>, Error>)
    modifies store
    ensures Step(r, store.secrets)
         == DeleteKeySecret(old(store.secrets), PublicSecretName(props.name),
                            ListPublic in env.outages, DeletePublic in env.outages)
  {
    var secretId := PublicSecretName(props.name);
    var found :- SecretExists(store, secretId, ListPublic in env.outages);
    if found {
      var deleted := store.Delete(secretId, DeletePublic in env.outages);
      if deleted.Err? {
        return Err(StoreFailed(deleted.error));
      }
      return Ok(deleted.value);
    }
    r := Ok(None);
  }

  method DeletePrivateKeySecret(store: SecretStore, props: ResourceProperties, env: Environment)
    returns (r: Result<Option<string>, Error>)
    modifies store
    ensures Step(r, store.secrets)
         == DeleteKeySecret(old(store.secrets), PrivateSecretName(props.name),
                            ListPrivate in env.outages, DeletePrivate in env.outages)
  {
    var secretId := PrivateSecretName(props.name);
    var found :- SecretExists(store, secretId, ListPrivate in env.outages);
    if found {
      var deleted := store.Delete(secretId, DeletePrivate in env.outages);
      if deleted.Err? {
        return Err(StoreFailed(deleted.error));
      }
      return Ok(deleted.value);
    }
    r := Ok(None);
  }

  /** The try block of createKeyPair before the response is sent. */
  method CreateKeyPairSecrets(store: SecretStore, props: ResourceProperties, env: Environment)
    returns (r: Result<ResponseData, Error>)
    modifies store
    ensures Step(r, store.secrets) == CreateSecrets(old(store.secrets), props, env)
  {
    if env.keys.None? {
      return Err(KeyGenerationFailed);
    }
    var keys := env.keys.value;
    var publicKeyArn :- CreatePublicKeySecret(store, keys.publicKey, props, env);
    var privateKeyArn :- CreatePrivateKeySecret(store, keys.privateKey, props, env);
    r := Ok(CreatedData(keys.publicKey, publicKeyArn, privateKeyArn));
  }

  /** The try block of deleteKeyPair before the response is sent. */
  method DeleteKeyPairSecrets(store: SecretStore, props: ResourceProperties, env: Environment)
    returns (r: Result<ResponseData, Error>)
    modifies store
    ensures Step(r, store.secrets) == DeleteSecrets(old(store.secrets), props, env)
  {
    var publicKeyArn :- DeletePublicKeySecret(store, props, env);
    var privateKeyArn :- DeletePrivateKeySecret(store, props, env);
    r := Ok(DeletedData(publicKeyArn, privateKeyArn));
  }

  /** The end of the try block and the catch block shared by createKeyPair
      and deleteKeyPair: report SUCCESS, and FAILED if anything threw. */
  method Report(callback: CallbackEndpoint, event: Event, result: Result<ResponseData, Error>, env: Environment)
    returns (completed: bool)
    modifies callback
    ensures callback.attempts == old(callback.attempts) + Reported(event, result, env).sent
    ensures completed == Reported(event, result, env).completed
  {
    var failed := result.Err?;
    if result.Ok? {
      var delivered := SendResponse(callback, event, Success, Some(result.value), None, env.firstPut);
      failed := !delivered;
    }
    completed := true;
    if failed {
      var delivery := if result.Ok? then env.secondPut else env.firstPut;
      completed := SendResponse(callback, event, Failed, None, Some(FailureReason(event.requestType)), delivery);
    }
  }

  method CreateKeyPair(store: SecretStore, callback: CallbackEndpoint, event: Event, env: Environment)
    returns (completed: bool)
    requires event.requestType == Create
    modifies store, callback
    ensures var o := Handle(event, old(store.secrets), env);
            store.secrets == o.secrets && callback.attempts == old(callback.attempts) + o.sent
            && completed == o.completed
  {
    var result := CreateKeyPairSecrets(store, event.resourceProperties, env);
    completed := Report(callback, event, result, env);
  }

  method DeleteKeyPair(store: SecretStore, callback: CallbackEndpoint, event: Event, env: Environment)
    returns (completed: bool)
    requires event.requestType == Delete
    modifies store, callback
    ensures var o := Handle(event, old(store.secrets), env);
            store.secrets == o.secrets && callback.attempts == old(callback.attempts) + o.sent
            && completed == o.completed
  {
    var result := DeleteKeyPairSecrets(store, event.resourceProperties, env);
    completed := Report(callback, event, result, env);
  }

  /** The Lambda entry point. */
  method Handler(store: SecretStore, callback: CallbackEndpoint, event: Event, env: Environment)
    returns (completed: bool)
    modifies store, callback
    ensures var o := Handle(event, old(store.secrets), env);
            store.secrets == o.secrets && callback.attempts == old(callback.attempts) + o.sent
            && completed == o.completed
  {
    completed := true;
    match event.requestType {
      case Create =>
        completed := CreateKeyPair(store, callback, event, env);
      case Delete =>
        completed := DeleteKeyPair(store, callback, event, env);
      case Update =>
    }
  }
}
