/**
 * How a key pair's name and description become the names and descriptions
 * of its two secrets: `<Name>/public` and `<Name>/private`, described as
 * `<Description> (Public Key)` and `<Description> (Private Key)`.
 */
module SecretNaming {

  /** The secret that holds the public half of key pair `name`. */
  function PublicSecretName(name: string): string {
    name + "/public"
  }

  /** The secret that holds the private half of key pair `name`. */
  function PrivateSecretName(name: string): string {
    name + "/private"
  }

  function PublicDescription(description: string): string {
    description + " (Public Key)"
  }

  function PrivateDescription(description: string): string {
    description + " (Private Key)"
  }

  /** No public secret name, of any key pair, is the private secret name of
      any key pair: the two names end in different letters. */
  lemma PublicNeverPrivate(a: string, b: string)
    ensures PublicSecretName(a) != PrivateSecretName(b)
  {
    var p, q := PublicSecretName(a), PrivateSecretName(b);
    assert p[|p| - 1] == 'c';
    assert q[|q| - 1] == 'e';
  }

  /** Different key pairs never share a public secret. */
  lemma PublicSecretNameInjective(a: string, b: string)
    requires PublicSecretName(a) == PublicSecretName(b)
    ensures a == b
  {
    var p := PublicSecretName(a);
    assert |a| == |b|;
    assert a == p[..|a|];
    assert b == p[..|b|];
  }

  /** Different key pairs never share a private secret. */
  lemma PrivateSecretNameInjective(a: string, b: string)
    requires PrivateSecretName(a) == PrivateSecretName(b)
    ensures a == b
  {
    var p := PrivateSecretName(a);
    assert |a| == |b|;
    assert a == p[..|a|];
    assert b == p[..|b|];
  }
}
