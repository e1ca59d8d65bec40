/**
 * The Bitbucket connector processor of the IDP git integration: the infrastructure
 * connector type, the checks that turn a Bitbucket connector into the two catalog
 * environment variables (the user name and the token secret), and the push that
 * uses those credentials.
 */
module BitbucketConnector {
  import opened Wrappers
  import opened ConnectorPush

  /** The constants of the git integration, and the secret decryption the push relies on. */
  datatype BitbucketContext = BitbucketContext(
    bitbucketConnectorType: string,
    usernamePasswordAuthType: string,
    usernameEnvName: string,
    tokenEnvName: string,
    proxyConnectorType: string,
    directConnectorType: string,
    decrypt: (string, string, string) -> string)

  /** A catalog environment variable: a plain configuration value or a reference to a harness secret. */
  datatype EnvVariable =
    | ConfigVariable(envName: string, value: string)
    | SecretVariable(envName: string, harnessSecretIdentifier: string)

  /** getInfraConnectorType: through a delegate is PROXY, otherwise DIRECT. */
  function InfraConnectorType(info: ConnectorInfo, k: BitbucketContext): (r: string)
    ensures info.executeOnDelegate ==> r == k.proxyConnectorType
    ensures !info.executeOnDelegate ==> r == k.directConnectorType
  {
    if info.executeOnDelegate then k.proxyConnectorType else k.directConnectorType
  }

  /** getConnectorAndSecretsInfo: the connector type, then the auth type, then the password secret. */
  function ConnectorAndSecretsInfo(accountIdentifier: string, info: ConnectorInfo, k: BitbucketContext):
    (r: Result<map<string, EnvVariable>>)
    ensures info.connectorType != k.bitbucketConnectorType ==>
      r == Err(InvalidRequest("Connector with id - [" + info.identifier +
                              "] is not bitbucket connector for accountId: [" + accountIdentifier + "]"))
    ensures info.connectorType == k.bitbucketConnectorType && info.authType != k.usernamePasswordAuthType ==>
      r == Err(InvalidRequest(" Authentication is not Username and Password for Bitbucket Connector with id - [" +
                              info.identifier + "], accountId: [" + accountIdentifier + "]"))
    ensures info.connectorType == k.bitbucketConnectorType && info.authType == k.usernamePasswordAuthType &&
            info.passwordRef == "" ==>
      r == Err(InvalidRequest("Secret identifier not found for connector: [" + info.identifier +
                              "], accountId: [" + accountIdentifier + "]"))
    ensures r.Ok? <==>
      info.connectorType == k.bitbucketConnectorType && info.authType == k.usernamePasswordAuthType &&
      info.passwordRef != ""
    ensures r.Ok? ==> r.value.Keys == {k.usernameEnvName, k.tokenEnvName}
    ensures r.Ok? ==> r.value[k.tokenEnvName] == SecretVariable(k.tokenEnvName, info.passwordRef)
    ensures r.Ok? && k.usernameEnvName != k.tokenEnvName ==>
      r.value[k.usernameEnvName] == ConfigVariable(k.usernameEnvName, info.username)
  {
    if info.connectorType != k.bitbucketConnectorType then
      Err(InvalidRequest("Connector with id - [" + info.identifier +
                         "] is not bitbucket connector for accountId: [" + accountIdentifier + "]"))
    else if info.authType != k.usernamePasswordAuthType then
      Err(InvalidRequest(" Authentication is not Username and Password for Bitbucket Connector with id - [" +
                         info.identifier + "], accountId: [" + accountIdentifier + "]"))
    else if info.passwordRef == "" then
      Err(InvalidRequest("Secret identifier not found for connector: [" + info.identifier +
                         "], accountId: [" + accountIdentifier + "]"))
    else
      Ok(map[k.usernameEnvName := ConfigVariable(k.usernameEnvName, info.username)]
            [k.tokenEnvName := SecretVariable(k.tokenEnvName, info.passwordRef)])
  }

  /** The checks are ordered: a wrong connector type is reported whatever its auth and secret are. */
  lemma ConnectorTypeCheckedFirst(accountIdentifier: string, info: ConnectorInfo, k: BitbucketContext,
                                  authType: string, passwordRef: string)
    requires info.connectorType != k.bitbucketConnectorType
    ensures ConnectorAndSecretsInfo(accountIdentifier, info, k) ==
            ConnectorAndSecretsInfo(accountIdentifier, info.(authType := authType, passwordRef := passwordRef), k)
  {
  }

  /** performPushOperation: look the connector up, check it, decrypt the token and push with it. */
  method PushOperation(accountIdentifier: string, catalog: CatalogConnectorInfo, parent: string,
                       files: seq<string>, throughGrpc: bool, svc: GitServices, k: BitbucketContext)
    returns (r: Result<PushOutcome>)
    ensures GetConnectorInfo(accountIdentifier, catalog.connector.identifier, svc).Err? ==>
      r == Err(GetConnectorInfo(accountIdentifier, catalog.connector.identifier, svc).error)
    ensures GetConnectorInfo(accountIdentifier, catalog.connector.identifier, svc).Ok? ==>
      var info := GetConnectorInfo(accountIdentifier, catalog.connector.identifier, svc).value;
      var auth := Auth(info.username, k.decrypt(accountIdentifier, info.passwordRef, catalog.connector.identifier));
      && (ConnectorAndSecretsInfo(accountIdentifier, info, k).Err? ==>
            r == Err(ConnectorAndSecretsInfo(accountIdentifier, info, k).error))
      && (ConnectorAndSecretsInfo(accountIdentifier, info, k).Ok? ==>
            && r.Ok?
            && (r.value.GrpcPushed? <==> throughGrpc)
            && (throughGrpc ==> r.value == GrpcPushSpec(accountIdentifier, catalog, parent, files, auth, svc))
            && (r.value.JGitPushed? && r.value.commit.Ok? ==> r.value.commit.value.auth == auth)
            && (!throughGrpc ==> r.value == JGitPushSpec(accountIdentifier, catalog, parent, files, auth, svc)))
  {
    var info := GetConnectorInfo(accountIdentifier, catalog.connector.identifier, svc);
    if info.Err? {
      return Err(info.error);
    }
    var secrets := ConnectorAndSecretsInfo(accountIdentifier, info.value, k);
    if secrets.Err? {
      return Err(secrets.error);
    }
    var envSecretVariable := secrets.value[k.tokenEnvName];
    var secret := k.decrypt(accountIdentifier, envSecretVariable.harnessSecretIdentifier,
                            catalog.connector.identifier);
    var outcome := PushOperationInternal(accountIdentifier, catalog, parent, files, info.value.username, secret,
                                         throughGrpc, svc);
    r := Ok(outcome);
  }
}
