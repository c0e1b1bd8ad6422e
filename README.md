# Key-pair custom resource handler, modelled in Dafny

This project models the CloudFormation custom-resource handler of
`aws-cdk-cloudfront-key-pair` (`lib/create-key-pair-lambda/index.ts`). The
handler receives a lifecycle event for a named key pair:

- **Create** generates an RSA key pair. It stores the public half as the secret `<Name>/public`, described as
  `<Description> (Public Key)`, and then the private half as `<Name>/private`, described as
  `<Description> (Private Key)`. It reports SUCCESS with the public key and both secret ARNs.
- **Delete** lists each of the two names. It deletes a secret only when the listing shows it, so a
  missing secret gives an absent ARN and not an error. It reports SUCCESS with the ARNs it got back.
- **Update** falls through the `switch`: nothing happens and nothing is reported.

Any exception inside Create or Delete is caught. The handler then reports FAILED with the reason
`<RequestType> failed`. Every response echoes the event's correlation fields and uses the key
pair's name as the physical resource id.

Structure:

- `wrappers.dfy` — `Option`, and `Result`, whose `:-` models a thrown exception aborting a block.
- `naming.dfy` (`SecretNaming`) — secret names and descriptions, with lemmas that the names never
  collide.
- `store.dfy` (`Store`) — the secret store. It is a class holding a `map` from name to record,
  with `Create`, `List` and `Delete`, each specified by a pure function.
- `callback.dfy` (`Callback`) — events, response records, the response assembly and the callback
  endpoint. The endpoint is a class whose `attempts` sequence records every PUT in order.
- `handler.dfy` (`KeyPairHandler`) — `Handle` is the whole handler as a function of the event,
  the store contents and an `Environment`. The methods mirror the source functions one by one on a
  `SecretStore` and a `CallbackEndpoint`, and each is proved equal to its specifying function.
- `properties.dfy` (`KeyPairProperties`) — what the handler guarantees, proved about `Handle` for
  all stores and environments.

The `Environment` holds everything the source gets from outside:

- the generated keys (absent when the generator throws);
- the ARN the store reports for each created secret (possibly absent or empty);
- the set of store calls that fail for a reason other than the store's contents (unreachable,
  throttled, not permitted);
- how the first and second response PUT were delivered.

A name clash on create and an unknown name on delete follow from the store's contents.

Two behaviours of the source are modelled as written:

- If the SUCCESS PUT fails (HTTP status of 400 or more, or a transport error), it throws inside the
  `try`. The `catch` then sends a FAILED response as a second PUT. So Create and Delete send two
  responses only when the first PUT is a SUCCESS that is not delivered, and one otherwise. A FAILED
  first PUT is the only response, whether or not it is delivered.
- If the FAILED PUT fails, the error escapes the handler. `Outcome.completed` is then false.

The property lemmas are stated over these specifying functions, which are definitions and carry
no contract of their own:

- `KeyPairHandler.Handle`: the `switch` of `handler` (lib/create-key-pair-lambda/index.ts:14-31).
- `KeyPairHandler.CreateSecrets`: the `try` block of `createKeyPair` up to the response
  (index.ts:90-101).
- `KeyPairHandler.DeleteSecrets`: the `try` block of `deleteKeyPair` up to the response
  (index.ts:185-188).
- `KeyPairHandler.CreateKeySecret`: `createPublicKeySecret` and `createPrivateKeySecret`
  (index.ts:139-179).
- `KeyPairHandler.DeleteKeySecret`: `deletePublicKeySecret`, `deletePrivateKeySecret` and
  `secretExists` (index.ts:205-254).
- `KeyPairHandler.Reported`: the SUCCESS response and the `catch` blocks (index.ts:102-116,
  189-202).
- `Callback.ResponseFor`: the response record of `sendResponse` (index.ts:42-52).

## Model

| member | source | states |
|---|---|---|
| SecretNaming.PublicNeverPrivate | lib/create-key-pair-lambda/index.ts:143-164 | no `<a>/public` name equals any `<b>/private` name, so the two secrets of a key pair never collide with each other or with another pair's opposite half |
| SecretNaming.PublicSecretNameInjective | lib/create-key-pair-lambda/index.ts:143 | two key pairs with the same public secret name have the same name |
| SecretNaming.PrivateSecretNameInjective | lib/create-key-pair-lambda/index.ts:164 | two key pairs with the same private secret name have the same name |
| Store.SecretStore.Create | lib/create-key-pair-lambda/index.ts:145-151 | CreateSecret fails on an outage or a taken name and, in this model, then leaves the store unchanged; otherwise it adds the one record and answers with its ARN |
| Store.SecretStore.List | lib/create-key-pair-lambda/index.ts:240-251 | the name-filtered listing is present and contains the name exactly when the store has that record; reads only |
| Store.SecretStore.Delete | lib/create-key-pair-lambda/index.ts:211-216 | DeleteSecret with no recovery window removes exactly that record and answers with its ARN; an unknown name is an error |
| Callback.CallbackEndpoint.Put | lib/create-key-pair-lambda/index.ts:57-82 | a PUT is recorded after all earlier ones and counts as delivered exactly when there is no transport error and no status of 400 or more |
| Callback.AssembleResponse | lib/create-key-pair-lambda/index.ts:42-52 | the response carries the given status and data, the key pair name as PhysicalResourceId, the event's StackId, RequestId and LogicalResourceId, and a Reason exactly when a non-empty one is given |
| Callback.SendResponse | lib/create-key-pair-lambda/index.ts:33-84 | one PUT of the assembled response per call; the result says whether delivery succeeded |
| KeyPairHandler.SecretExists | lib/create-key-pair-lambda/index.ts:239-254 | answers whether the store has a record of that name, or the store error when the listing fails |
| KeyPairHandler.CreatePublicKeySecret | lib/create-key-pair-lambda/index.ts:139-158 | creates `<Name>/public` with the public key and the public description; a missing or empty ARN throws after the secret was created |
| KeyPairHandler.CreatePrivateKeySecret | lib/create-key-pair-lambda/index.ts:160-179 | creates `<Name>/private` with the private key and the private description; a missing or empty ARN throws after the secret was created |
| KeyPairHandler.DeletePublicKeySecret | lib/create-key-pair-lambda/index.ts:205-220 | deletes `<Name>/public` only when listed, giving its ARN; gives no ARN and changes nothing when absent |
| KeyPairHandler.DeletePrivateKeySecret | lib/create-key-pair-lambda/index.ts:222-237 | deletes `<Name>/private` only when listed, giving its ARN; gives no ARN and changes nothing when absent |
| KeyPairHandler.CreateKeyPairSecrets | lib/create-key-pair-lambda/index.ts:90-101 | the try block of createKeyPair: generate, public secret, private secret, stopping at the first error |
| KeyPairHandler.DeleteKeyPairSecrets | lib/create-key-pair-lambda/index.ts:185-188 | the try block of deleteKeyPair: public secret, then private secret, stopping at the first error |
| KeyPairHandler.Report | lib/create-key-pair-lambda/index.ts:102-116 | sends SUCCESS with the data; on an earlier error, or when that PUT fails, sends FAILED with reason `<RequestType> failed` |
| KeyPairHandler.CreateKeyPair | lib/create-key-pair-lambda/index.ts:86-117 | the store and the sent responses end as `Handle` says for a Create event |
| KeyPairHandler.DeleteKeyPair | lib/create-key-pair-lambda/index.ts:181-203 | the store and the sent responses end as `Handle` says for a Delete event |
| KeyPairHandler.Handler | lib/create-key-pair-lambda/index.ts:14-31 | the store and the sent responses end as `Handle` says for any event |
| KeyPairProperties.CreateSucceedsIff | lib/create-key-pair-lambda/index.ts:90-101 | Create's work gets through if and only if keys are generated, neither create fails, neither name is taken and both ARNs are reported |
| KeyPairProperties.CreateSuccessEffect | lib/create-key-pair-lambda/index.ts:139-179 | a Create that gets through adds exactly `<Name>/public` and `<Name>/private` with the keys, the suffixed descriptions and the reported ARNs; nothing else changes |
| KeyPairProperties.CreateSuccessResponse | lib/create-key-pair-lambda/index.ts:96-106 | a successful Create sends SUCCESS with the public key and the ARNs of the public and private records, and no second response unless that PUT fails |
| KeyPairProperties.CreateFailureResponse | lib/create-key-pair-lambda/index.ts:107-115 | a Create that fails anywhere sends exactly one response: FAILED, no data, reason "Create failed" |
| KeyPairProperties.CreateHasNoRollback | lib/create-key-pair-lambda/index.ts:96-116 | once the public secret is created, a later failure reports FAILED but leaves that secret in the store |
| KeyPairProperties.CreateNeverOverwrites | lib/create-key-pair-lambda/index.ts:145-151 | Create keeps every existing record unchanged and adds at most the two key-pair names |
| KeyPairProperties.CreateConflictChangesNothing | lib/create-key-pair-lambda/index.ts:96 | a Create whose public name is taken fails with "Create failed" and changes nothing |
| KeyPairProperties.DeleteSucceedsIff | lib/create-key-pair-lambda/index.ts:185-188 | Delete's work gets through if and only if both listings answer and each existing secret can be deleted |
| KeyPairProperties.DeleteSuccessEffect | lib/create-key-pair-lambda/index.ts:205-237 | a Delete that gets through removes exactly the two key-pair names and reports each one's ARN, absent when it was not there |
| KeyPairProperties.DeleteSuccessResponse | lib/create-key-pair-lambda/index.ts:186-192 | a successful Delete leaves neither key-pair secret and sends SUCCESS with the ARNs of what it removed |
| KeyPairProperties.DeleteFailureResponse | lib/create-key-pair-lambda/index.ts:193-201 | a Delete that fails anywhere sends exactly one response: FAILED, no data, reason "Delete failed" |
| KeyPairProperties.DeleteTouchesOnlyKeyPair | lib/create-key-pair-lambda/index.ts:205-237 | Delete never adds a record and never changes a record other than the two key-pair secrets |
| KeyPairProperties.DeleteIdempotent | lib/create-key-pair-lambda/index.ts:210-227 | after a successful Delete, a second one changes nothing and reports SUCCESS with both ARNs absent |
| KeyPairProperties.CreateThenDeleteRestores | lib/create-key-pair-lambda/index.ts:181-192 | a successful Create followed by a Delete of the same name restores the store and reports the ARNs Create reported |
| KeyPairProperties.UpdateIsNoOp | lib/create-key-pair-lambda/index.ts:20-30 | an Update event changes nothing and sends no response |
| KeyPairProperties.OnlyKeyPairSecretsChange | lib/create-key-pair-lambda/index.ts:14-31 | for any event, records other than `<Name>/public` and `<Name>/private` are unchanged |
| KeyPairProperties.ResponsesEchoEvent | lib/create-key-pair-lambda/index.ts:42-52 | every response sent carries the name as PhysicalResourceId and the event's StackId, RequestId and LogicalResourceId; SUCCESS has data and no reason, FAILED a reason and no data |
| KeyPairProperties.ResponseCount | lib/create-key-pair-lambda/index.ts:102-116 | Create and Delete send one or two responses, two exactly when the SUCCESS PUT fails and FAILED follows; the invocation completes exactly when its last PUT is delivered |
| KeyPairProperties.ExactlyOneResponse | lib/create-key-pair-lambda/index.ts:102-116 | when the first PUT is delivered, Create and Delete send exactly one response and complete |

## Left out

- RSA key generation and PEM export (index.ts:119-137) are a foreign crypto call. The key pair is an
  opaque pair of strings in the `Environment`, and a generator failure is its absence. That the two
  keys match is not modelled.
- The HTTPS transport (URL parsing, JSON serialisation, headers) is network I/O. Only the rule that
  a transport error or a status of 400 or more fails the PUT is kept. A response is a record; JSON
  drops undefined fields, and the record shows this with `Option`.
- The store is the AWS Secrets Manager service, replaced by a map. Its ARNs and its failures other
  than name clashes are `Environment` inputs.
- Store.SecretStore.List: the listing filter is modelled as an exact name match. The service's
  `name` filter matches prefixes. The filter for `<Name>/public` therefore also matches
  `<Name>/public-key-id`, the secret that `lib/cloudfront-key-pair.ts:28` creates beside the key
  pair. Once `<Name>/public` is gone but `<Name>/public-key-id` still exists, the listing shows a
  secret that DeleteSecret does not find, and Delete reports "Delete failed". DeleteSuccessEffect,
  DeleteIdempotent and CreateThenDeleteRestores hold only under the exact-match filter.
- Store.SecretStore.Create, Store.SecretStore.Delete: a store call that fails is modelled as having
  had no effect. The real service can commit a create or delete and still throw to the handler (a
  lost reply followed by an SDK retry that gets ResourceExists or ResourceNotFound). A FAILED Create
  can then leave the very secret whose create failed, and a FAILED Delete can have removed one.
  CreateConflictChangesNothing and the "unchanged on failure" half of the store functions rest on
  this simplification.
- Secret replication regions, versions and tags are not modelled. The handler never sets them.
- Logging (`console.log`, `console.error`) is not modelled. It includes logging of the key material.
- `async`/`Promise` plumbing is not modelled. The handler is sequential, so there is no concurrency,
  and no timeout of the invoking environment is modelled either.
- The CDK constructs (`lib/key-pair.ts`, `lib/cloudfront-key-pair.ts`, `lib/trusted-group-key-pair.ts`,
  the props files, `test/lib/test-stack.ts`) are straight-line declarations with no branching. They are
  not part of this model.
