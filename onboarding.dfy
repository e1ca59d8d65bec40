/**
 * OnboardingServiceImpl (IDP onboarding): the entities chosen for import, grouped by type and
 * parsed from their `org|project|service` identifiers into nested maps; the checks that reject
 * an empty or an unmatched import; the catalog folder path; the service filter by project; the
 * first entity among the imported kinds; and the catalog location targets. The constants of
 * io.harness.idp.onboarding.utils.Constants are parameters, since that class is not part of this
 * model. A HashMap is an entry sequence (module LinkedMap) whose order stands for its iteration order.
 */
module Onboarding {
  import opened Wrappers
  import opened Text
  import opened LinkedMap

  /** The constants the code takes from io.harness.idp.onboarding.utils.Constants. */
  datatype Names = Names(organization: string, project: string, service: string, slash: string,
                         yamlFileExtension: string, entityRequiredErrorMessage: string)

  datatype EntityForImport = EntityForImport(entityType: string, identifier: string)

  // ---- getEntitiesByType ----

  /** getEntitiesByType: the identifiers of the entries of the type, in order. */
  function EntitiesByType(entities: seq<EntityForImport>, entityType: string): (r: seq<string>)
    ensures |r| <= |entities|
    ensures forall id :: id in r <==> EntityForImport(entityType, id) in entities
  {
    if entities == [] then []
    else
      var prefix := entities[..|entities| - 1];
      var e := entities[|entities| - 1];
      assert entities == prefix + [e];
      if e.entityType == entityType then EntitiesByType(prefix, entityType) + [e.identifier]
      else EntitiesByType(prefix, entityType)
  }

  /** The selection keeps the input order: selecting from two lists one after the other is selecting from both. */
  lemma {:induction false} EntitiesByTypeAppend(a: seq<EntityForImport>, b: seq<EntityForImport>, entityType: string)
    ensures EntitiesByType(a + b, entityType) == EntitiesByType(a, entityType) + EntitiesByType(b, entityType)
  {
    if b != [] {
      assert (a + b)[..|a + b| - 1] == a + b[..|b| - 1];
      assert (a + b)[|a + b| - 1] == b[|b| - 1];
      EntitiesByTypeAppend(a, b[..|b| - 1], entityType);
    } else {
      assert a + b == a;
    }
  }

  /** The three types partition the entities of those types. */
  lemma {:induction false} EntitiesByTypeCount(entities: seq<EntityForImport>, names: Names)
    requires names.organization != names.project && names.project != names.service
      && names.organization != names.service
    requires forall e :: e in entities ==> e.entityType in {names.organization, names.project, names.service}
    ensures |EntitiesByType(entities, names.organization)| + |EntitiesByType(entities, names.project)|
      + |EntitiesByType(entities, names.service)| == |entities|
  {
    if entities != [] {
      var prefix := entities[..|entities| - 1];
      assert forall e :: e in prefix ==> e in entities;
      EntitiesByTypeCount(prefix, names);
      assert entities[|entities| - 1] in entities;
    }
  }

  // ---- the import checks ----

  /** throwExceptionIfNothingToImport. */
  function CheckSomethingToImport(orgToImport: seq<string>, projectToImport: seq<string>, serviceToImport: seq<string>,
                                  allImport: bool, names: Names): (r: Result<()>)
    ensures r.Err? <==> !allImport && orgToImport == [] && projectToImport == [] && serviceToImport == []
    ensures r.Err? ==> r.error == InvalidRequest(names.entityRequiredErrorMessage)
  {
    if |orgToImport| + |projectToImport| + |serviceToImport| == 0 && !allImport then
      Err(InvalidRequest(names.entityRequiredErrorMessage))
    else Ok(())
  }

  /** throwExceptionIfMismatchBetweenFoundAndProvided, on the numbers of entities found. */
  function CheckFoundMatchesProvided(orgToImport: seq<string>, projectToImport: seq<string>,
                                     serviceToImport: seq<string>, foundOrgs: nat, foundProjects: nat,
                                     foundServices: nat, allImport: bool): (r: Result<()>)
    ensures r.Ok? <==> (allImport || (foundOrgs == |orgToImport| && foundProjects == |projectToImport|
                                      && foundServices == |serviceToImport|))
    ensures r.Err? ==> r.error == Unexpected("Mismatch between provided and found harness entities for IDP import")
  {
    if (foundOrgs != |orgToImport| || foundProjects != |projectToImport| || foundServices != |serviceToImport|)
      && !allImport then
      Err(Unexpected("Mismatch between provided and found harness entities for IDP import"))
    else Ok(())
  }

  /** An individual import that passes both checks found exactly what was asked for, and something. */
  lemma ChecksPassedMeansSomethingFound(orgToImport: seq<string>, projectToImport: seq<string>,
                                        serviceToImport: seq<string>, foundOrgs: nat, foundProjects: nat,
                                        foundServices: nat, names: Names)
    requires CheckSomethingToImport(orgToImport, projectToImport, serviceToImport, false, names).Ok?
    requires CheckFoundMatchesProvided(orgToImport, projectToImport, serviceToImport,
                                       foundOrgs, foundProjects, foundServices, false).Ok?
    ensures foundOrgs + foundProjects + foundServices == |orgToImport| + |projectToImport| + |serviceToImport| > 0
  {
  }

  // ---- getOrgProjectsMapping ----

  type ProjectsMapping = seq<(string, seq<string>)>

  /** One `org|project` identifier put into the mapping; a second project for an org fails, since its list is immutable. */
  function AddProject(m: ProjectsMapping, parts: seq<string>): Result<ProjectsMapping>
  {
    if |parts| < 2 then Err(IndexOutOfBounds)
    else if parts[0] in KeySet(m) then Err(UnsupportedOperation)
    else Ok(Put(m, parts[0], [parts[1]]))
  }

  /** What getOrgProjectsMapping returns or throws. */
  function ProjectsMappingOf(projects: seq<string>): Result<ProjectsMapping>
  {
    if projects == [] then Ok([])
    else
      match ProjectsMappingOf(projects[..|projects| - 1])
      case Err(e) => Err(e)
      case Ok(m) => AddProject(m, Split(projects[|projects| - 1], '|'))
  }

  /** getOrgProjectsMapping. */
  method GetOrgProjectsMapping(harnessEntitiesProjects: seq<string>) returns (r: Result<ProjectsMapping>)
    ensures r == ProjectsMappingOf(harnessEntitiesProjects)
  {
    var projectIdentifiers: ProjectsMapping := [];
    var n := 0;
    while n < |harnessEntitiesProjects|
      invariant 0 <= n <= |harnessEntitiesProjects|
      invariant ProjectsMappingOf(harnessEntitiesProjects[..n]) == Ok(projectIdentifiers)
    {
      assert harnessEntitiesProjects[..n + 1][..n] == harnessEntitiesProjects[..n];
      var orgProject := Split(harnessEntitiesProjects[n], '|');
      if |orgProject| < 1 {
        ProjectsMappingFails(harnessEntitiesProjects, n + 1);
        return Err(IndexOutOfBounds);
      }
      if Get(projectIdentifiers, orgProject[0]).Some? {
        if |orgProject| < 2 {
          ProjectsMappingFails(harnessEntitiesProjects, n + 1);
          return Err(IndexOutOfBounds);
        }
        // the list held is a Collections.singletonList: `add` throws
        ProjectsMappingFails(harnessEntitiesProjects, n + 1);
        return Err(UnsupportedOperation);
      } else {
        if |orgProject| < 2 {
          ProjectsMappingFails(harnessEntitiesProjects, n + 1);
          return Err(IndexOutOfBounds);
        }
        projectIdentifiers := Put(projectIdentifiers, orgProject[0], [orgProject[1]]);
      }
      n := n + 1;
    }
    assert harnessEntitiesProjects[..n] == harnessEntitiesProjects;
    r := Ok(projectIdentifiers);
  }

  /** A mapping that fails at a prefix fails, with the same failure, for the whole list. */
  lemma {:induction false} ProjectsMappingFails(projects: seq<string>, n: nat)
    requires n <= |projects| && ProjectsMappingOf(projects[..n]).Err?
    ensures ProjectsMappingOf(projects) == ProjectsMappingOf(projects[..n])
    decreases |projects| - n
  {
    if n < |projects| {
      assert projects[..n + 1][..n] == projects[..n];
      ProjectsMappingFails(projects, n + 1);
    } else {
      assert projects[..n] == projects;
    }
  }

  predicate HasProjectParts(id: string)
  {
    |Split(id, '|')| >= 2
  }

  function OrgOf(id: string): string
    requires |Split(id, '|')| >= 1
  {
    Split(id, '|')[0]
  }

  function ProjectOf(id: string): string
    requires HasProjectParts(id)
  {
    Split(id, '|')[1]
  }

  predicate AllProjectParts(projects: seq<string>)
  {
    forall i :: 0 <= i < |projects| ==> HasProjectParts(projects[i])
  }

  predicate DistinctOrgs(projects: seq<string>)
    requires AllProjectParts(projects)
  {
    forall i, j :: 0 <= i < j < |projects| ==> OrgOf(projects[i]) != OrgOf(projects[j])
  }

  /** The identifiers before the last keep the properties of the whole list. */
  lemma PrefixParts(projects: seq<string>)
    requires projects != []
    ensures AllProjectParts(projects) ==> AllProjectParts(projects[..|projects| - 1])
    ensures AllProjectParts(projects) && DistinctOrgs(projects) ==> DistinctOrgs(projects[..|projects| - 1])
  {
  }

  /** The mapping of distinct orgs: entry `i` is the org and the project of identifier `i`. */
  predicate MapsEachProject(m: ProjectsMapping, projects: seq<string>)
    requires AllProjectParts(projects)
  {
    |m| == |projects| && forall i :: 0 <= i < |projects| ==> m[i] == (OrgOf(projects[i]), [ProjectOf(projects[i])])
  }

  lemma OrgsOfMapping(m: ProjectsMapping, projects: seq<string>, org: string)
    requires AllProjectParts(projects) && MapsEachProject(m, projects)
    ensures org in KeySet(m) <==> exists i :: 0 <= i < |projects| && OrgOf(projects[i]) == org
  {
    if org in KeySet(m) {
      var e :| e in m && e.0 == org;
      var i :| 0 <= i < |m| && m[i] == e;
      assert OrgOf(projects[i]) == org;
    }
    if exists i :: 0 <= i < |projects| && OrgOf(projects[i]) == org {
      var i :| 0 <= i < |projects| && OrgOf(projects[i]) == org;
      assert m[i] in m;
    }
  }

  /**
   * The project mapping succeeds exactly when every identifier has an org and a project part and
   * no org repeats; it then maps each org, in input order, to the one-element list of its project.
   */
  lemma {:induction false} ProjectsMappingSpec(projects: seq<string>)
    ensures ProjectsMappingOf(projects).Ok? <==> AllProjectParts(projects) && DistinctOrgs(projects)
    ensures ProjectsMappingOf(projects).Ok? ==> MapsEachProject(ProjectsMappingOf(projects).value, projects)
  {
    if projects != [] {
      ProjectsMappingSpec(projects[..|projects| - 1]);
      PrefixParts(projects);
      ProjectsStep(projects);
    }
  }

  /** One more identifier, given what is known of the mapping of the ones before it. */
  lemma ProjectsStep(projects: seq<string>)
    requires projects != []
    requires var prefix := projects[..|projects| - 1];
      (ProjectsMappingOf(prefix).Ok? <==> AllProjectParts(prefix) && DistinctOrgs(prefix))
      && (ProjectsMappingOf(prefix).Ok? ==> MapsEachProject(ProjectsMappingOf(prefix).value, prefix))
    requires AllProjectParts(projects) ==> AllProjectParts(projects[..|projects| - 1])
    requires AllProjectParts(projects) && DistinctOrgs(projects) ==> DistinctOrgs(projects[..|projects| - 1])
    ensures ProjectsMappingOf(projects).Ok? <==> AllProjectParts(projects) && DistinctOrgs(projects)
    ensures ProjectsMappingOf(projects).Ok? ==> MapsEachProject(ProjectsMappingOf(projects).value, projects)
  {
    var prefix := projects[..|projects| - 1];
    var last := projects[|projects| - 1];
    var pm := ProjectsMappingOf(prefix);
    if pm.Ok? && HasProjectParts(last) {
      var m := pm.value;
      OrgsOfMapping(m, prefix, OrgOf(last));
      if OrgOf(last) in KeySet(m) {
        var i :| 0 <= i < |prefix| && OrgOf(prefix[i]) == OrgOf(last);
        assert prefix[i] == projects[i];
      } else {
        FreshOrg(projects, m);
      }
    }
  }

  lemma FreshOrg(projects: seq<string>, m: ProjectsMapping)
    requires projects != []
    requires var prefix := projects[..|projects| - 1];
      AllProjectParts(prefix) && DistinctOrgs(prefix) && MapsEachProject(m, prefix)
    requires HasProjectParts(projects[|projects| - 1])
    requires OrgOf(projects[|projects| - 1]) !in KeySet(m)
    ensures AllProjectParts(projects) && DistinctOrgs(projects)
    ensures MapsEachProject(m + [(OrgOf(projects[|projects| - 1]), [ProjectOf(projects[|projects| - 1])])], projects)
  {
    FreshOrgParts(projects);
    FreshOrgDistinct(projects, m);
    FreshOrgMaps(projects, m);
  }

  lemma FreshOrgParts(projects: seq<string>)
    requires projects != [] && AllProjectParts(projects[..|projects| - 1])
    requires HasProjectParts(projects[|projects| - 1])
    ensures AllProjectParts(projects)
  {
    var prefix := projects[..|projects| - 1];
    forall i | 0 <= i < |projects|
      ensures HasProjectParts(projects[i])
    {
      if i < |prefix| { assert projects[i] == prefix[i]; }
    }
  }

  lemma FreshOrgDistinct(projects: seq<string>, m: ProjectsMapping)
    requires projects != [] && AllProjectParts(projects)
    requires var prefix := projects[..|projects| - 1];
      AllProjectParts(prefix) && DistinctOrgs(prefix) && MapsEachProject(m, prefix)
    requires OrgOf(projects[|projects| - 1]) !in KeySet(m)
    ensures DistinctOrgs(projects)
  {
    var prefix := projects[..|projects| - 1];
    var lastOrg := OrgOf(projects[|projects| - 1]);
    forall i | 0 <= i < |prefix|
      ensures OrgOf(prefix[i]) != lastOrg
    {
      MappedOrgIsKey(m, prefix, i);
    }
    DistinctOrgsSnoc(projects);
  }

  /** A list has distinct orgs when the list before its last does and the last org is new. */
  lemma DistinctOrgsSnoc(projects: seq<string>)
    requires projects != [] && AllProjectParts(projects)
    requires var prefix := projects[..|projects| - 1];
      AllProjectParts(prefix) && DistinctOrgs(prefix)
      && forall i :: 0 <= i < |prefix| ==> OrgOf(prefix[i]) != OrgOf(projects[|projects| - 1])
    ensures DistinctOrgs(projects)
  {
    var prefix := projects[..|projects| - 1];
    var n := |prefix|;
    var orgs := seq(|projects|, i requires 0 <= i < |projects| => OrgOf(projects[i]));
    forall i | 0 <= i < n
      ensures orgs[i] == OrgOf(prefix[i])
    {
      assert projects[i] == prefix[i];
    }
    DistinctSnoc(orgs);
    forall i, j | 0 <= i < j < |projects|
      ensures OrgOf(projects[i]) != OrgOf(projects[j])
    {
      assert orgs[i] != orgs[j];
    }
  }

  lemma DistinctSnoc(xs: seq<string>)
    requires xs != []
    requires forall i, j :: 0 <= i < j < |xs| - 1 ==> xs[i] != xs[j]
    requires forall i :: 0 <= i < |xs| - 1 ==> xs[i] != xs[|xs| - 1]
    ensures forall i, j :: 0 <= i < j < |xs| ==> xs[i] != xs[j]
  {
  }

  lemma MappedOrgIsKey(m: ProjectsMapping, projects: seq<string>, i: int)
    requires AllProjectParts(projects) && MapsEachProject(m, projects) && 0 <= i < |projects|
    ensures OrgOf(projects[i]) in KeySet(m)
  {
    assert m[i] in m;
  }

  lemma FreshOrgMaps(projects: seq<string>, m: ProjectsMapping)
    requires projects != [] && AllProjectParts(projects)
    requires var prefix := projects[..|projects| - 1];
      AllProjectParts(prefix) && MapsEachProject(m, prefix)
    ensures MapsEachProject(m + [(OrgOf(projects[|projects| - 1]), [ProjectOf(projects[|projects| - 1])])], projects)
  {
    var prefix := projects[..|projects| - 1];
    var last := projects[|projects| - 1];
    var grown := m + [(OrgOf(last), [ProjectOf(last)])];
    forall i | 0 <= i < |projects|
      ensures grown[i] == (OrgOf(projects[i]), [ProjectOf(projects[i])])
    {
      if i < |prefix| {
        assert grown[i] == m[i] && projects[i] == prefix[i];
      }
    }
  }

  // ---- getOrgProjectsServicesMapping ----

  type ServicesMapping = seq<(string, seq<(string, seq<string>)>)>

  /** The services the mapping holds under the org and the project (none when absent). */
  function ServicesAt(m: ServicesMapping, org: string, project: string): seq<string>
  {
    Get(Get(m, org).GetOr([]), project).GetOr([])
  }

  /** One `org|project|service` identifier added to the mapping. */
  function AddService(m: ServicesMapping, parts: seq<string>): Result<ServicesMapping>
  {
    if |parts| < 3 then Err(IndexOutOfBounds)
    else
      var inner := Get(m, parts[0]).GetOr([]);
      Ok(Put(m, parts[0], Put(inner, parts[1], Get(inner, parts[1]).GetOr([]) + [parts[2]])))
  }

  /** What getOrgProjectsServicesMapping returns or throws. */
  function ServicesMappingOf(services: seq<string>): Result<ServicesMapping>
  {
    if services == [] then Ok([])
    else
      match ServicesMappingOf(services[..|services| - 1])
      case Err(e) => Err(e)
      case Ok(m) => AddService(m, Split(services[|services| - 1], '|'))
  }

  /** getOrgProjectsServicesMapping. */
  method GetOrgProjectsServicesMapping(harnessEntitiesServices: seq<string>) returns (r: Result<ServicesMapping>)
    ensures r == ServicesMappingOf(harnessEntitiesServices)
  {
    var serviceIdentifiers: ServicesMapping := [];
    var n := 0;
    while n < |harnessEntitiesServices|
      invariant 0 <= n <= |harnessEntitiesServices|
      invariant ServicesMappingOf(harnessEntitiesServices[..n]) == Ok(serviceIdentifiers)
    {
      ServicesMappingSnoc(harnessEntitiesServices, n);
      var orgProjectService := Split(harnessEntitiesServices[n], '|');
      if |orgProjectService| < 3 {
        ServicesMappingFails(harnessEntitiesServices, n + 1);
        return Err(IndexOutOfBounds);
      }
      var org, project, service := orgProjectService[0], orgProjectService[1], orgProjectService[2];
      ghost var before := serviceIdentifiers;
      var existing := Get(serviceIdentifiers, org);
      if existing.Some? {
        var existingProjectsServices := existing.value;
        var existingServices := Get(existingProjectsServices, project);
        if existingServices.Some? {
          existingProjectsServices := Put(existingProjectsServices, project, existingServices.value + [service]);
          serviceIdentifiers := Put(serviceIdentifiers, org, existingProjectsServices);
        } else {
          existingProjectsServices := Put(existingProjectsServices, project, [service]);
          serviceIdentifiers := Put(serviceIdentifiers, org, existingProjectsServices);
        }
      } else {
        serviceIdentifiers := Put(serviceIdentifiers, org, [(project, [service])]);
      }
      AddServiceCases(before, orgProjectService);
      n := n + 1;
    }
    assert harnessEntitiesServices[..n] == harnessEntitiesServices;
    r := Ok(serviceIdentifiers);
  }

  /** One more identifier adds its service to the mapping of those before it. */
  lemma ServicesMappingSnoc(services: seq<string>, n: int)
    requires 0 <= n < |services|
    ensures ServicesMappingOf(services[..n + 1]) ==
      match ServicesMappingOf(services[..n])
      case Err(e) => Err(e)
      case Ok(m) => AddService(m, Split(services[n], '|'))
  {
    assert services[..n + 1][..n] == services[..n];
  }

  /** The three branches of the loop body all add the service as AddService does. */
  lemma AddServiceCases(m: ServicesMapping, parts: seq<string>)
    requires |parts| >= 3
    ensures var org, project, service := parts[0], parts[1], parts[2];
      AddService(m, parts).value
        == if Get(m, org).None? then Put(m, org, [(project, [service])])
           else if Get(Get(m, org).value, project).None? then Put(m, org, Put(Get(m, org).value, project, [service]))
           else Put(m, org, Put(Get(m, org).value, project, Get(Get(m, org).value, project).value + [service]))
  {
    var org, project, service := parts[0], parts[1], parts[2];
    if Get(m, org).None? {
      var inner: seq<(string, seq<string>)> := [];
      assert Get(m, org).GetOr([]) == inner;
      assert Get(inner, project).GetOr([]) + [service] == [service];
      assert Put(inner, project, [service]) == [(project, [service])];
    } else if Get(Get(m, org).value, project).None? {
      assert [] + [service] == [service];
    }
  }

  lemma {:induction false} ServicesMappingFails(services: seq<string>, n: nat)
    requires n <= |services| && ServicesMappingOf(services[..n]).Err?
    ensures ServicesMappingOf(services) == ServicesMappingOf(services[..n])
    decreases |services| - n
  {
    if n < |services| {
      assert services[..n + 1][..n] == services[..n];
      ServicesMappingFails(services, n + 1);
    } else {
      assert services[..n] == services;
    }
  }

  predicate HasServiceParts(id: string)
  {
    |Split(id, '|')| >= 3
  }

  /** The services, in input order, of the identifiers naming the org and the project. */
  function ServicesOf(services: seq<string>, org: string, project: string): seq<string>
  {
    if services == [] then []
    else
      var prefix := ServicesOf(services[..|services| - 1], org, project);
      var parts := Split(services[|services| - 1], '|');
      if |parts| >= 3 && parts[0] == org && parts[1] == project then prefix + [parts[2]] else prefix
  }

  lemma ServicesAtAfterAdd(m: ServicesMapping, parts: seq<string>, org: string, project: string)
    requires |parts| >= 3
    ensures ServicesAt(AddService(m, parts).value, org, project)
      == if parts[0] == org && parts[1] == project then ServicesAt(m, org, project) + [parts[2]]
         else ServicesAt(m, org, project)
  {
    var inner := Get(m, parts[0]).GetOr([]);
    var updated := Put(inner, parts[1], Get(inner, parts[1]).GetOr([]) + [parts[2]]);
    GetAfterPut(m, parts[0], updated, org);
    GetAfterPut(inner, parts[1], Get(inner, parts[1]).GetOr([]) + [parts[2]], project);
  }

  /**
   * The service mapping succeeds exactly when every identifier has org, project and service
   * parts; it then holds, under each org and project, the services of exactly those
   * identifiers, in input order.
   */
  lemma {:induction false} ServicesMappingSpec(services: seq<string>)
    ensures ServicesMappingOf(services).Ok? <==> AllServiceParts(services)
    ensures ServicesMappingOf(services).Ok? ==> HoldsServicesOf(ServicesMappingOf(services).value, services)
  {
    if services != [] {
      ServicesMappingSpec(services[..|services| - 1]);
      ServicesStep(services);
    }
  }

  predicate AllServiceParts(services: seq<string>)
  {
    forall i :: 0 <= i < |services| ==> HasServiceParts(services[i])
  }

  /** Under each org and project, the mapping holds the services of exactly those identifiers, in order. */
  ghost predicate HoldsServicesOf(m: ServicesMapping, services: seq<string>)
  {
    forall org, project :: ServicesAt(m, org, project) == ServicesOf(services, org, project)
  }

  lemma ServicesStep(services: seq<string>)
    requires services != []
    requires var prefix := services[..|services| - 1];
      (ServicesMappingOf(prefix).Ok? <==> AllServiceParts(prefix))
      && (ServicesMappingOf(prefix).Ok? ==> HoldsServicesOf(ServicesMappingOf(prefix).value, prefix))
    ensures ServicesMappingOf(services).Ok? <==> AllServiceParts(services)
    ensures ServicesMappingOf(services).Ok? ==> HoldsServicesOf(ServicesMappingOf(services).value, services)
  {
    var prefix := services[..|services| - 1];
    assert AllServiceParts(services) <==> AllServiceParts(prefix) && HasServiceParts(services[|services| - 1]) by {
      assert forall i :: 0 <= i < |prefix| ==> prefix[i] == services[i];
    }
    var sm := ServicesMappingOf(prefix);
    var parts := Split(services[|services| - 1], '|');
    if sm.Ok? && |parts| >= 3 {
      ServicesStepContents(services, sm.value, parts);
    }
  }

  lemma ServicesStepContents(services: seq<string>, m: ServicesMapping, parts: seq<string>)
    requires services != [] && parts == Split(services[|services| - 1], '|') && |parts| >= 3
    requires HoldsServicesOf(m, services[..|services| - 1])
    ensures HoldsServicesOf(AddService(m, parts).value, services)
  {
    forall org, project
      ensures ServicesAt(AddService(m, parts).value, org, project) == ServicesOf(services, org, project)
    {
      ServicesAtAfterAdd(m, parts, org, project);
    }
  }

  /** An `org|project|service` identifier whose parts hold no `|` lands under its org and project. */
  lemma ServiceIdentifierLands(services: seq<string>, org: string, project: string, service: string)
    requires '|' !in org && '|' !in project && '|' !in service && service != []
    requires ServicesMappingOf(services + [org + "|" + project + "|" + service]).Ok?
    ensures ServicesAt(ServicesMappingOf(services + [org + "|" + project + "|" + service]).value, org, project)
      == ServicesOf(services, org, project) + [service]
  {
    var all := services + [org + "|" + project + "|" + service];
    SplitThree(org, project, service, '|');
    assert org + "|" + project + "|" + service == org + ['|'] + project + ['|'] + service;
    assert all[..|all| - 1] == services;
    ServicesMappingSpec(all);
  }

  // ---- getEntitiesFolderPath ----

  /** The catalog folder path: the connector's path when set, the default otherwise, with a leading slash. */
  function EntitiesFolderPath(connectorPath: string, defaultPath: string, slash: string): (r: string)
    ensures StartsWith(r, slash)
    ensures var chosen := if connectorPath != [] then connectorPath else defaultPath;
      r == (if StartsWith(chosen, slash) then chosen else slash + chosen)
  {
    var entitiesFolderPath := if connectorPath != [] then connectorPath else defaultPath;
    if !StartsWith(entitiesFolderPath, slash) then slash + entitiesFolderPath else entitiesFolderPath
  }

  /** A folder path made once is its own folder path. */
  lemma EntitiesFolderPathIdempotent(connectorPath: string, defaultPath: string, slash: string, otherDefault: string)
    requires slash != []
    ensures var r := EntitiesFolderPath(connectorPath, defaultPath, slash);
      EntitiesFolderPath(r, otherDefault, slash) == r
  {
    var r := EntitiesFolderPath(connectorPath, defaultPath, slash);
    assert |r| >= |slash|;
  }

  // ---- filterByProject ----

  datatype ServiceResponse = ServiceResponse(identifier: string, orgIdentifier: string,
                                             projectIdentifier: Option<string>, name: string)

  predicate InProject(service: ServiceResponse, projectToFilter: string)
  {
    service.projectIdentifier.Some? && Contains(service.projectIdentifier.value, projectToFilter)
  }

  /** filterByProject: all services for an empty filter, otherwise those whose project identifier contains it. */
  function FilterByProject(services: seq<ServiceResponse>, projectToFilter: string): (r: seq<ServiceResponse>)
    ensures projectToFilter == [] ==> r == services
    ensures projectToFilter != [] ==> forall s :: s in r <==> s in services && InProject(s, projectToFilter)
    ensures |r| <= |services|
  {
    if projectToFilter == [] then services else KeepInProject(services, projectToFilter)
  }

  function KeepInProject(services: seq<ServiceResponse>, projectToFilter: string): (r: seq<ServiceResponse>)
    ensures forall s :: s in r <==> s in services && InProject(s, projectToFilter)
    ensures |r| <= |services|
  {
    if services == [] then []
    else
      var prefix := services[..|services| - 1];
      var s := services[|services| - 1];
      assert services == prefix + [s];
      if InProject(s, projectToFilter) then KeepInProject(prefix, projectToFilter) + [s]
      else KeepInProject(prefix, projectToFilter)
  }

  /** Filtering twice by the same project is filtering once. */
  lemma {:induction false} FilterByProjectIdempotent(services: seq<ServiceResponse>, projectToFilter: string)
    ensures FilterByProject(FilterByProject(services, projectToFilter), projectToFilter)
      == FilterByProject(services, projectToFilter)
  {
    if projectToFilter != [] {
      KeepInProjectIdempotent(services, projectToFilter);
    }
  }

  lemma {:induction false} KeepInProjectIdempotent(services: seq<ServiceResponse>, projectToFilter: string)
    ensures KeepInProject(KeepInProject(services, projectToFilter), projectToFilter)
      == KeepInProject(services, projectToFilter)
  {
    if services != [] {
      var prefix := services[..|services| - 1];
      var s := services[|services| - 1];
      KeepInProjectIdempotent(prefix, projectToFilter);
      if InProject(s, projectToFilter) {
        var kept := KeepInProject(prefix, projectToFilter) + [s];
        assert kept[..|kept| - 1] == KeepInProject(prefix, projectToFilter);
      }
    }
  }

  // ---- getFirstAmongAll ----

  datatype EntityKind = Domain | System | Component | OtherKind

  datatype CatalogEntity = CatalogEntity(kind: EntityKind, name: string)

  /** The first entity of the first non-empty list. */
  function FirstEntity(lists: seq<seq<CatalogEntity>>): Option<CatalogEntity>
  {
    if lists == [] then None
    else if lists[0] != [] then Some(lists[0][0])
    else FirstEntity(lists[1..])
  }

  /** List `i` is the first non-empty one and `e` its first entity. */
  predicate FirstAt(lists: seq<seq<CatalogEntity>>, i: int, e: CatalogEntity)
  {
    0 <= i < |lists| && lists[i] != [] && e == lists[i][0] && forall j :: 0 <= j < i ==> lists[j] == []
  }

  lemma {:induction false} FirstEntitySpec(lists: seq<seq<CatalogEntity>>)
    ensures FirstEntity(lists).None? <==> forall i :: 0 <= i < |lists| ==> lists[i] == []
    ensures FirstEntity(lists).Some? ==> exists i :: FirstAt(lists, i, FirstEntity(lists).value)
  {
    if lists != [] && lists[0] == [] {
      var rest := lists[1..];
      FirstEntitySpec(rest);
      assert forall i :: 1 <= i < |lists| ==> lists[i] == rest[i - 1];
      if FirstEntity(rest).Some? {
        var i :| FirstAt(rest, i, FirstEntity(rest).value);
        assert lists[i + 1] == rest[i];
        assert FirstAt(lists, i + 1, FirstEntity(lists).value);
      }
    } else if lists != [] {
      assert FirstAt(lists, 0, FirstEntity(lists).value);
    }
  }

  /** The folder of each kind of entity: organizations for domains, projects for systems, services for components. */
  function KindFolder(kind: EntityKind, names: Names): string
    requires kind != OtherKind
  {
    match kind
    case Domain => names.organization
    case System => names.project
    case Component => names.service
  }

  /** getFirstAmongAll: the first entity, with its catalog-info location and target paths. */
  method GetFirstAmongAll(catalogInfoLocationParentPath: string, entityTargetParentPath: string,
                          backstageCatalogEntities: seq<seq<CatalogEntity>>, names: Names)
    returns (r: Result<(CatalogEntity, (string, string))>)
    ensures FirstEntity(backstageCatalogEntities).None? ==>
      r == Err(Unexpected("Found invalid entity to import in IDP onboarding flow"))
    ensures FirstEntity(backstageCatalogEntities).Some? && FirstEntity(backstageCatalogEntities).value.kind == OtherKind
      ==> r == Err(Unexpected("Entity should be off one among domain / system / component"))
    ensures FirstEntity(backstageCatalogEntities).Some? && FirstEntity(backstageCatalogEntities).value.kind != OtherKind
      ==> var e := FirstEntity(backstageCatalogEntities).value;
          r == Ok((e, (catalogInfoLocationParentPath + KindFolder(e.kind, names) + names.slash,
                       entityTargetParentPath + KindFolder(e.kind, names) + names.slash)))
  {
    var n := 0;
    while n < |backstageCatalogEntities|
      invariant 0 <= n <= |backstageCatalogEntities|
      invariant FirstEntity(backstageCatalogEntities) == FirstEntity(backstageCatalogEntities[n..])
    {
      assert backstageCatalogEntities[n..][1..] == backstageCatalogEntities[n + 1..];
      var backstageCatalogEntity := backstageCatalogEntities[n];
      if |backstageCatalogEntity| > 0 {
        var catalogEntity := backstageCatalogEntity[0];
        match catalogEntity.kind
        case Domain =>
          return Ok((catalogEntity, (catalogInfoLocationParentPath + names.organization + names.slash,
                                     entityTargetParentPath + names.organization + names.slash)));
        case System =>
          return Ok((catalogEntity, (catalogInfoLocationParentPath + names.project + names.slash,
                                     entityTargetParentPath + names.project + names.slash)));
        case Component =>
          return Ok((catalogEntity, (catalogInfoLocationParentPath + names.service + names.slash,
                                     entityTargetParentPath + names.service + names.slash)));
        case OtherKind =>
          return Err(Unexpected("Entity should be off one among domain / system / component"));
      }
      n := n + 1;
    }
    r := Err(Unexpected("Found invalid entity to import in IDP onboarding flow"));
  }

  // ---- prepareEntitiesTarget ----

  /** prepareEntitiesTarget: one catalog location per entity, `<prefix><name><extension>`, in order. */
  method PrepareEntitiesTarget(entities: seq<CatalogEntity>, prefixPath: string, names: Names)
    returns (targets: seq<string>)
    ensures |targets| == |entities|
    ensures forall i :: 0 <= i < |entities| ==>
      targets[i] == prefixPath + entities[i].name + names.yamlFileExtension
    ensures (forall i, j :: 0 <= i < j < |entities| ==> entities[i].name != entities[j].name) ==>
      forall i, j :: 0 <= i < j < |targets| ==> targets[i] != targets[j]
  {
    targets := [];
    var n := 0;
    while n < |entities|
      invariant 0 <= n <= |entities| && |targets| == n
      invariant forall i :: 0 <= i < n ==> targets[i] == prefixPath + entities[i].name + names.yamlFileExtension
    {
      targets := targets + [prefixPath + entities[n].name + names.yamlFileExtension];
      n := n + 1;
    }
    forall i, j | 0 <= i < j < |targets|
      ensures entities[i].name != entities[j].name ==> targets[i] != targets[j]
    {
      TargetDeterminesName(prefixPath, entities[i].name, entities[j].name, names);
    }
  }

  /**
   * Under one prefix, a catalog location names exactly one entity: two entities get the
   * same location only when they have the same name.
   */
  lemma TargetDeterminesName(prefixPath: string, a: string, b: string, names: Names)
    ensures prefixPath + a + names.yamlFileExtension == prefixPath + b + names.yamlFileExtension <==> a == b
  {
    var ta := prefixPath + a + names.yamlFileExtension;
    var tb := prefixPath + b + names.yamlFileExtension;
    if ta == tb {
      assert |a| == |b|;
      assert ta[|prefixPath|..|prefixPath| + |a|] == a;
      assert tb[|prefixPath|..|prefixPath| + |b|] == b;
    }
  }
}
