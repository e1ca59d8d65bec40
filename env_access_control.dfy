/**
 * Access control for an environment and its attributes: two permission checks are
 * sent, one on the environment's identifier and one on its type attribute, and the
 * action is allowed when the access-control service permits either.
 */
module EnvAccessControl {
  import opened Wrappers

  const EnvironmentResourceType := "ENVIRONMENT"
  const EnvironmentTypeAttribute := "type"

  datatype ResourceScope = ResourceScope(account: string, org: string, project: string)

  datatype PermissionCheck = PermissionCheck(
    permission: string,
    resourceIdentifier: Option<string>,
    resourceAttributes: Option<map<string, string>>,
    resourceScope: ResourceScope,
    resourceType: string)

  datatype AccessControlEntry = AccessControlEntry(check: PermissionCheck, permitted: bool)

  /** The outcome of the check; `Denied` is the NGAccessDeniedException with the checks it carries. */
  datatype AccessOutcome = Allowed | Denied(message: string, checks: seq<PermissionCheck>)

  /** getEnvironmentAttributesMap: the single attribute `type`. */
  function EnvironmentAttributes(environmentType: string): (r: map<string, string>)
    ensures r.Keys == {EnvironmentTypeAttribute}
    ensures r[EnvironmentTypeAttribute] == environmentType
  {
    map[EnvironmentTypeAttribute := environmentType]
  }

  /** getPermissionChecksDTOForEnvironment. */
  function PermissionChecks(attributes: map<string, string>, scope: ResourceScope, identifier: string,
                            permission: string): (r: seq<PermissionCheck>)
    ensures |r| == 2
    ensures forall i :: 0 <= i < 2 ==>
      r[i].permission == permission && r[i].resourceScope == scope && r[i].resourceType == EnvironmentResourceType
    ensures r[0].resourceIdentifier == Some(identifier) && r[0].resourceAttributes.None?
    ensures r[1].resourceIdentifier.None? && r[1].resourceAttributes == Some(attributes)
  {
    [PermissionCheck(permission, Some(identifier), None, scope, EnvironmentResourceType),
     PermissionCheck(permission, None, Some(attributes), scope, EnvironmentResourceType)]
  }

  /** `anyMatch(isPermitted)` over the list, a null list counting as empty. */
  predicate AnyPermitted(entries: Option<seq<AccessControlEntry>>)
  {
    entries.Some? && exists i :: 0 <= i < |entries.value| && entries.value[i].permitted
  }

  /** checkForEnvAndAttributesAccessOrThrow; `client` is the access-control service's answer list. */
  function CheckAccess(scope: ResourceScope, identifier: string, permission: string, environmentType: string,
                       client: seq<PermissionCheck> -> Option<seq<AccessControlEntry>>): (r: AccessOutcome)
    ensures var checks := PermissionChecks(EnvironmentAttributes(environmentType), scope, identifier, permission);
      && (r == Allowed <==> AnyPermitted(client(checks)))
      && (r.Denied? ==>
            && r.checks == checks
            && r.message == "Missing permission " + permission + " on " + EnvironmentResourceType +
                            " with identifier " + identifier)
  {
    var checks := PermissionChecks(EnvironmentAttributes(environmentType), scope, identifier, permission);
    var entries := client(checks);
    var isActionAllowed := entries.Some? && exists i :: 0 <= i < |entries.value| && entries.value[i].permitted;
    if !isActionAllowed then
      Denied("Missing permission " + permission + " on " + EnvironmentResourceType + " with identifier " + identifier,
             checks)
    else Allowed
  }
}
