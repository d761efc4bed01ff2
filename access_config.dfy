/** The credentials read from cloud-access.yml and the checks made when they are loaded. */
module Access {
  import opened Wrappers
  import opened Exceptions

  /** The `aws` section as loaded; None for a key that is absent or nil. */
  datatype AwsSection = AwsSection(accessKeyId: Option<string>, secretAccessKey: Option<string>)

  /** The loaded document; None for a key that is absent or nil. */
  datatype AccessDocument = AccessDocument(appName: Option<string>, aws: Option<AwsSection>)

  /** An AccessConfig object: its three frozen fields. */
  datatype AccessConfig = AccessConfig(appName: string, awsAccessKeyId: string, awsSecretAccessKey: string)

  /** The shortest key either check lets through. */
  const MinKeyLength: nat := 5

  const KeyIdMissing := RuntimeError("AWS access key id missing from cloud-access.yml")
  const SecretMissing := RuntimeError("AWS secret access key missing from cloud-access.yml")

  /** Indexing into nil: a document that loads as nil, or one without an `aws` section. */
  const IndexNil := NoMethodError("undefined method `[]' for nil:NilClass")

  /** Both keys are long enough to pass the checks. */
  predicate Plausible(c: AccessConfig)
  {
    |c.awsAccessKeyId| >= MinKeyLength && |c.awsSecretAccessKey| >= MinKeyLength
  }

  /** AccessConfig.new(hash): each value defaults to '', the key id is checked, then the secret. */
  function NewAccessConfig(hash: Option<AccessDocument>): (r: Result<AccessConfig, Exception>)
    ensures r.Success? ==> Plausible(r.value)
  {
    if hash.None? then
      Failure(IndexNil)
    else
      var appName := hash.value.appName.GetOr("");
      if hash.value.aws.None? then
        Failure(IndexNil)
      else
        var keyId := hash.value.aws.value.accessKeyId.GetOr("");
        var secret := hash.value.aws.value.secretAccessKey.GetOr("");
        if |keyId| < MinKeyLength then Failure(KeyIdMissing)
        else if |secret| < MinKeyLength then Failure(SecretMissing)
        else Success(AccessConfig(appName, keyId, secret))
  }

  /** The document that holds exactly the fields of a configuration. */
  function DocumentOf(c: AccessConfig): AccessDocument
  {
    AccessDocument(Some(c.appName), Some(AwsSection(Some(c.awsAccessKeyId), Some(c.awsSecretAccessKey))))
  }

  /** Loading keeps what it was given: a plausible configuration written out and loaded again
      comes back unchanged, and a missing app_name reads as ''. */
  lemma LoadKeepsFields(c: AccessConfig)
    ensures Plausible(c) ==> NewAccessConfig(Some(DocumentOf(c))) == Success(c)
    ensures Plausible(c) ==> NewAccessConfig(Some(DocumentOf(c).(appName := None))) == Success(c.(appName := ""))
    ensures !Plausible(c) ==> NewAccessConfig(Some(DocumentOf(c))).Failure?
  {
  }

  /** Loading succeeds exactly when the document and its aws section are there and both keys,
      missing ones read as '', have at least five characters; the stored fields are then the
      values given. */
  lemma LoadSucceedsExactly(hash: Option<AccessDocument>)
    ensures NewAccessConfig(hash).Success? <==>
      hash.Some? && hash.value.aws.Some? &&
      |hash.value.aws.value.accessKeyId.GetOr("")| >= MinKeyLength &&
      |hash.value.aws.value.secretAccessKey.GetOr("")| >= MinKeyLength
    ensures NewAccessConfig(hash).Success? ==>
      NewAccessConfig(hash).value ==
        AccessConfig(hash.value.appName.GetOr(""), hash.value.aws.value.accessKeyId.GetOr(""),
                     hash.value.aws.value.secretAccessKey.GetOr(""))
  {
  }

  /** With both keys too short the key id is the one reported; the secret is reported only when
      the key id passes. A missing key is never accepted. */
  lemma KeyIdCheckedFirst(app: Option<string>, keyId: Option<string>, secret: Option<string>)
    ensures var r := NewAccessConfig(Some(AccessDocument(app, Some(AwsSection(keyId, secret)))));
      (|keyId.GetOr("")| < MinKeyLength ==> r == Failure(KeyIdMissing)) &&
      (|keyId.GetOr("")| >= MinKeyLength && |secret.GetOr("")| < MinKeyLength ==> r == Failure(SecretMissing)) &&
      (keyId.None? ==> r == Failure(KeyIdMissing)) &&
      (keyId.Some? && |keyId.value| >= MinKeyLength && secret.None? ==> r == Failure(SecretMissing))
  {
  }
}
