/**
 * The secret store the handler talks to, reduced to a map from secret name to
 * record. A store call can also fail for a reason its contents do not decide
 * (the service is unreachable, throttles, refuses permission); that is the
 * `outage` argument of each operation.
 */
module Store {
  import opened Wrappers

  /** One secret record: its description, the secret string, and the
      identifier (ARN) the store reports for it, which the reply type allows
      to be absent. */
  datatype Secret = Secret(description: string, value: string, arn: Option<string>)

  datatype StoreError = ResourceExists | ResourceNotFound | Unavailable

  type Secrets = map<string, Secret>

  /** What a store call answers, and the store contents after it. */
  datatype Reply<T> = Reply(result: Result<T, StoreError>, secrets: Secrets)

  /** CreateSecret: refuses a name that is already taken; otherwise adds the
      record and answers with the identifier it reports for it. */
  function CreateSecret(secrets: Secrets, name: string, description: string, value: string,
                        arn: Option<string>, outage: bool): Reply<Option<string>>
  {
    if outage then Reply(Err(Unavailable), secrets)
    else if name in secrets then Reply(Err(ResourceExists), secrets)
    else Reply(Ok(arn), secrets[name := Secret(description, value, arn)])
  }

  /** ListSecrets with a name filter: the names of the matching records. */
  function ListSecrets(secrets: Secrets, name: string, outage: bool): Result<Option<seq<string>>, StoreError>
  {
    if outage then Err(Unavailable)
    else if name in secrets then Ok(Some([name]))
    else Ok(Some([]))
  }

  /** DeleteSecret without a recovery window: removes the record at once and
      answers with its identifier; an unknown name is an error. */
  function DeleteSecret(secrets: Secrets, name: string, outage: bool): Reply<Option<string>>
  {
    if outage then Reply(Err(Unavailable), secrets)
    else if name !in secrets then Reply(Err(ResourceNotFound), secrets)
    else Reply(Ok(secrets[name].arn), secrets - {name})
  }

  /** The store itself: one map the handler's calls update in place. */
  class SecretStore {
    var secrets: Secrets

    constructor (initial: Secrets)
      ensures secrets == initial
    {
      secrets := initial;
    }

    method Create(name: string, description: string, value: string, arn: Option<string>, outage: bool)
      returns (r: Result<Option<string>, StoreError>)
      modifies this
      ensures Reply(r, secrets) == CreateSecret(old(secrets), name, description, value, arn, outage)
    {
      if outage {
        r := Err(Unavailable);
      } else if name in secrets {
        r := Err(ResourceExists);
      } else {
        secrets := secrets[name := Secret(description, value, arn)];
        r := Ok(arn);
      }
    }

    method List(name: string, outage: bool) returns (r: Result<Option<seq<string>>, StoreError>)
      ensures r == ListSecrets(secrets, name, outage)
      ensures r.Ok? ==> r.value.Some? && (name in r.value.value <==> name in secrets)
    {
      if outage {
        r := Err(Unavailable);
      } else if name in secrets {
        r := Ok(Some([name]));
      } else {
        r := Ok(Some([]));
      }
    }

    method Delete(name: string, outage: bool) returns (r: Result<Option<string>, StoreError>)
      modifies this
      ensures Reply(r, secrets) == DeleteSecret(old(secrets), name, outage)
    {
      if outage {
        r := Err(Unavailable);
      } else if name !in secrets {
        r := Err(ResourceNotFound);
      } else {
        r := Ok(secrets[name].arn);
        secrets := secrets - {name};
      }
    }
  }
}
