/** The admin server's secret authenticator: a request is let through when
    no secrets are configured, or when its secret equals one of the
    configured values. Extracting the secret from the HTTP request is left
    to the caller; the request secret is a parameter here. */
module SecretAuth {
  import opened Wrappers

  /** Some configured secret, under whatever name, equals `reqSecret`. */
  predicate SecretMatches(secrets: map<string, string>, reqSecret: string) {
    exists name :: name in secrets && secrets[name] == reqSecret
  }

  /** The range loop over the configured secrets, returning on the first
      equal value; the error result is always nil. */
  method Authenticate(secrets: map<string, string>, reqSecret: string)
    returns (ok: bool, err: Option<string>)
    ensures err == None
    ensures |secrets| == 0 ==> ok
    ensures |secrets| > 0 ==> (ok <==> SecretMatches(secrets, reqSecret))
  {
    err := None;
    if |secrets| == 0 {
      return true, None;
    }
    var todo := secrets.Keys;
    while todo != {}
      invariant todo <= secrets.Keys
      invariant forall name :: name in secrets && name !in todo ==> secrets[name] != reqSecret
      decreases todo
    {
      var name :| name in todo;
      if reqSecret == secrets[name] {
        return true, None;
      }
      todo := todo - {name};
    }
    return false, None;
  }

  /** Only the configured values matter, never their names: two secret maps
      with the same values accept the same requests. */
  lemma {:induction false} OnlyValuesMatter(a: map<string, string>, b: map<string, string>, reqSecret: string)
    requires a.Values == b.Values
    ensures SecretMatches(a, reqSecret) <==> SecretMatches(b, reqSecret)
    ensures |a| == 0 <==> |b| == 0
  {
    if SecretMatches(a, reqSecret) {
      var n :| n in a && a[n] == reqSecret;
      assert reqSecret in b.Values;
    }
    if SecretMatches(b, reqSecret) {
      var n :| n in b && b[n] == reqSecret;
      assert reqSecret in a.Values;
    }
  }
}
