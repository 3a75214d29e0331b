/**
 * `DaprUtils` of the Container Apps extension: provisioning a backing service
 * (redis, postgres or kafka) idempotently, then handing its id to Dapr
 * component creation.
 *
 * The control-plane client is opaque. It is modelled as a value holding the
 * answers it gives: `show` for the lookup, `create` for the per-type create
 * function registered in the supported-services table. Each procedure also
 * returns the sequence of client calls it made, in order, so that "which
 * calls happen" can be stated and proved.
 */
module DaprUtils {
  import opened Wrappers

  /** The create functions the supported-services table dispatches to. */
  datatype ServiceCreator = CreateRedisService | CreatePostgresService | CreateKafkaService

  /** A service definition as the control plane returns it: a record of named fields. */
  datatype ServiceDef = ServiceDef(fields: map<string, string>)

  /** A Dapr component definition. */
  datatype ComponentDef = ComponentDef(fields: map<string, string>)

  /** What one call into the client gives back: a value (possibly `None`), or a raised exception. */
  datatype CallOutcome = Returned(value: Option<ServiceDef>) | Raised

  /**
   * The external client. `show(resourceGroup, serviceName)` is the lookup;
   * `create(creator, serviceName, environment, resourceGroup)` runs one create function.
   */
  datatype ServiceClient = ServiceClient(
    show: (string, string) -> CallOutcome,
    create: (ServiceCreator, string, string, string) -> CallOutcome)

  /** A call made into the client, with the arguments it was given. */
  datatype ClientCall =
    | Show(resourceGroup: string, serviceName: string)
    | Create(creator: ServiceCreator, serviceName: string, environment: string, resourceGroup: string)

  /** The validation errors the provisioning code raises, by the site that raises them. */
  datatype ProvisionError =
    | UnsupportedServiceType(serviceType: string)
    | ServiceCreationRaised(serviceName: string, serviceType: string)
    | ServiceCreationReturnedNone(serviceName: string, serviceType: string)
    | MissingServiceId(serviceName: string, serviceType: string)

  /** The result of a provisioning step together with the client calls it made. */
  datatype Outcome<T> = Outcome(result: Result<T, ProvisionError>, calls: seq<ClientCall>)

  /** The arguments handed to component creation. */
  datatype ComponentRequest = ComponentRequest(componentType: string, serviceType: string,
                                               serviceName: string, serviceId: string)

  /**
   * The outcome of the orchestrator: its result, the client calls made while
   * provisioning the service, and the hand-off to component creation, if any.
   */
  datatype Provisioning = Provisioning(result: Result<(ServiceDef, Option<ComponentDef>), ProvisionError>,
                                       calls: seq<ClientCall>, handOff: Option<ComponentRequest>)

  const SupportedServiceTypes: set<string> := {"redis", "postgres", "kafka"}

  /** The supported-services table: each supported service type and its own create function. */
  function SupportedServices(): (table: map<string, ServiceCreator>)
    ensures table.Keys == SupportedServiceTypes
    ensures forall t, u :: t in table && u in table && t != u ==> table[t] != table[u]
  {
    map["redis" := CreateRedisService, "postgres" := CreatePostgresService, "kafka" := CreateKafkaService]
  }

  /** The service name derived from a service type: the prefix `dapr-` followed by the type itself. */
  function ServiceName(serviceType: string): (name: string)
    ensures |name| == |serviceType| + 5
    ensures name[..5] == "dapr-" && name[5..] == serviceType
  {
    "dapr-" + serviceType
  }

  /** Distinct service types never share a service name. */
  lemma ServiceNameInjective(t: string, u: string)
    requires ServiceName(t) == ServiceName(u)
    ensures t == u
  {
  }

  /** The field lookup `safe_get(service_def, "id", default=None)`. */
  function ServiceId(def: ServiceDef): Option<string>
  {
    if "id" in def.fields then Some(def.fields["id"]) else None
  }

  /** What the local `service_def` holds after the lookup: any exception counts as `None`. */
  function LookedUp(shown: CallOutcome): Option<ServiceDef>
  {
    match shown
    case Returned(def) => def
    case Raised => None
  }

  /** Component creation from a service. It is still a stub: whatever it is given, no component comes back. */
  function CreateDaprComponentFromService(componentType: string, serviceType: string,
                                          serviceName: string, serviceId: string): (component: Option<ComponentDef>)
    ensures component.None?
  {
    None
  }

  /** The decision table of `_create_service`, as a function of the client's answers. */
  function ServiceOutcome(client: ServiceClient, serviceType: string, serviceName: string,
                          resourceGroup: string, environment: string): Outcome<ServiceDef>
  {
    if serviceType !in SupportedServices() then
      Outcome(Failure(UnsupportedServiceType(serviceType)), [])
    else
      var lookup := Show(resourceGroup, serviceName);
      match LookedUp(client.show(resourceGroup, serviceName))
      case Some(existing) => Outcome(Success(existing), [lookup])
      case None =>
        var creator := SupportedServices()[serviceType];
        var calls := [lookup, Create(creator, serviceName, environment, resourceGroup)];
        match client.create(creator, serviceName, environment, resourceGroup)
        case Raised => Outcome(Failure(ServiceCreationRaised(serviceName, serviceType)), calls)
        case Returned(None) => Outcome(Failure(ServiceCreationReturnedNone(serviceName, serviceType)), calls)
        case Returned(Some(created)) => Outcome(Success(created), calls)
  }

  /** `_create_service`: look the service up and return it if present, else create it once. */
  method CreateService(client: ServiceClient, serviceType: string, serviceName: string,
                       resourceGroup: string, environment: string)
    returns (r: Result<ServiceDef, ProvisionError>, calls: seq<ClientCall>)
    ensures Outcome(r, calls) == ServiceOutcome(client, serviceType, serviceName, resourceGroup, environment)
  {
    calls := [];
    var supported := SupportedServices();
    if serviceType !in supported {
      return Failure(UnsupportedServiceType(serviceType)), calls;
    }

    var serviceDef: Option<ServiceDef> := None;
    var shown := client.show(resourceGroup, serviceName);
    calls := calls + [Show(resourceGroup, serviceName)];
    if shown.Returned? {
      serviceDef := shown.value;
    }
    if serviceDef.Some? {
      return Success(serviceDef.value), calls;
    }

    var createServiceFunc := supported[serviceType];
    var created := client.create(createServiceFunc, serviceName, environment, resourceGroup);
    calls := calls + [Create(createServiceFunc, serviceName, environment, resourceGroup)];
    if created.Raised? {
      return Failure(ServiceCreationRaised(serviceName, serviceType)), calls;
    }
    serviceDef := created.value;
    if serviceDef.None? {
      return Failure(ServiceCreationReturnedNone(serviceName, serviceType)), calls;
    }
    return Success(serviceDef.value), calls;
  }

  /** The decision table of `create_service_and_dapr_component`. */
  function ServiceAndComponentOutcome(client: ServiceClient, componentType: string, serviceType: string,
                                      resourceGroup: string, environment: string)
    : Provisioning
  {
    var serviceName := ServiceName(serviceType);
    var service := ServiceOutcome(client, serviceType, serviceName, resourceGroup, environment);
    match service.result
    case Failure(e) => Provisioning(Failure(e), service.calls, None)
    case Success(serviceDef) =>
      match ServiceId(serviceDef)
      case None => Provisioning(Failure(MissingServiceId(serviceName, serviceType)), service.calls, None)
      case Some(serviceId) =>
        var request := ComponentRequest(componentType, serviceType, serviceName, serviceId);
        var componentDef := CreateDaprComponentFromService(componentType, serviceType, serviceName, serviceId);
        Provisioning(Success((serviceDef, componentDef)), service.calls, Some(request))
  }

  /** `create_service_and_dapr_component`: provision the service, require its id, then create the component. */
  method CreateServiceAndDaprComponent(client: ServiceClient, componentType: string, serviceType: string,
                                       resourceGroup: string, environment: string)
    returns (r: Result<(ServiceDef, Option<ComponentDef>), ProvisionError>, calls: seq<ClientCall>,
             handOff: Option<ComponentRequest>)
    ensures Provisioning(r, calls, handOff)
         == ServiceAndComponentOutcome(client, componentType, serviceType, resourceGroup, environment)
  {
    handOff := None;
    var serviceName := ServiceName(serviceType);
    var service;
    service, calls := CreateService(client, serviceType, serviceName, resourceGroup, environment);
    if service.Failure? {
      return Failure(service.error), calls, handOff;
    }
    var serviceDef := service.value;
    var serviceId := ServiceId(serviceDef);
    if serviceId.None? {
      return Failure(MissingServiceId(serviceName, serviceType)), calls, handOff;
    }
    var request := ComponentRequest(componentType, serviceType, serviceName, serviceId.value);
    handOff := Some(request);
    var componentDef := CreateDaprComponentFromService(request.componentType, request.serviceType,
                                                       request.serviceName, request.serviceId);
    return Success((serviceDef, componentDef)), calls, handOff;
  }

  // ---------------------------------------------------------------------------
  // Properties of service provisioning

  /** Number of create calls in a trace. */
  function CreateCount(calls: seq<ClientCall>): nat
  {
    if calls == [] then 0 else (if calls[0].Create? then 1 else 0) + CreateCount(calls[1..])
  }

  /** The type is rejected exactly when it is outside the table, and then before any client call. */
  lemma UnsupportedTypeRejectedFirst(client: ServiceClient, serviceType: string, serviceName: string,
                                     resourceGroup: string, environment: string)
    ensures var o := ServiceOutcome(client, serviceType, serviceName, resourceGroup, environment);
      (o.result == Failure(UnsupportedServiceType(serviceType))) <==> serviceType !in SupportedServiceTypes
    ensures serviceType !in SupportedServiceTypes ==>
      ServiceOutcome(client, serviceType, serviceName, resourceGroup, environment).calls == []
  {
  }

  /** A supported type is always looked up first, by its service name in the given resource group. */
  lemma LookupComesFirst(client: ServiceClient, serviceType: string, serviceName: string,
                         resourceGroup: string, environment: string)
    requires serviceType in SupportedServiceTypes
    ensures var o := ServiceOutcome(client, serviceType, serviceName, resourceGroup, environment);
      |o.calls| >= 1 && o.calls[0] == Show(resourceGroup, serviceName)
  {
  }

  /** A definition found by the lookup is returned as it is, and nothing is created. */
  lemma ExistingServiceReturned(client: ServiceClient, serviceType: string, serviceName: string,
                                resourceGroup: string, environment: string, existing: ServiceDef)
    requires serviceType in SupportedServiceTypes
    requires client.show(resourceGroup, serviceName) == Returned(Some(existing))
    ensures ServiceOutcome(client, serviceType, serviceName, resourceGroup, environment)
         == Outcome(Success(existing), [Show(resourceGroup, serviceName)])
  {
  }

  /**
   * A lookup that raises is handled exactly like one that returns `None`:
   * two clients that differ only in that respect give the same outcome.
   */
  lemma LookupErrorMeansAbsent(raising: ServiceClient, empty: ServiceClient, serviceType: string,
                               serviceName: string, resourceGroup: string, environment: string)
    requires raising.show(resourceGroup, serviceName) == Raised
    requires empty.show(resourceGroup, serviceName) == Returned(None)
    requires raising.create == empty.create
    ensures ServiceOutcome(raising, serviceType, serviceName, resourceGroup, environment)
         == ServiceOutcome(empty, serviceType, serviceName, resourceGroup, environment)
  {
  }

  /**
   * Each run makes at most one create call, after the lookup, and only through
   * the create function registered for the service type, with the service name,
   * environment and resource group it was given.
   */
  lemma AtMostOneCreate(client: ServiceClient, serviceType: string, serviceName: string,
                        resourceGroup: string, environment: string)
    ensures var o := ServiceOutcome(client, serviceType, serviceName, resourceGroup, environment);
      && CreateCount(o.calls) <= 1
      && forall i :: 0 <= i < |o.calls| && o.calls[i].Create? ==>
           && i == 1
           && serviceType in SupportedServices()
           && o.calls[i] == Create(SupportedServices()[serviceType], serviceName, environment, resourceGroup)
  {
    var o := ServiceOutcome(client, serviceType, serviceName, resourceGroup, environment);
    if |o.calls| == 2 {
      assert o.calls[1..][1..] == [];
      assert CreateCount(o.calls[1..]) == (if o.calls[1].Create? then 1 else 0);
    } else if |o.calls| == 1 {
      assert o.calls[1..] == [];
    }
  }

  /**
   * When the lookup finds nothing, a create that raises or returns `None` is an
   * error; so a successful result is always a definition the lookup or the
   * create call actually returned.
   */
  lemma SuccessIsAReturnedDefinition(client: ServiceClient, serviceType: string, serviceName: string,
                                     resourceGroup: string, environment: string)
    ensures var o := ServiceOutcome(client, serviceType, serviceName, resourceGroup, environment);
      o.result.Success? ==>
        client.show(resourceGroup, serviceName) == Returned(Some(o.result.value))
        || (serviceType in SupportedServices()
            && client.create(SupportedServices()[serviceType], serviceName, environment, resourceGroup)
               == Returned(Some(o.result.value)))
    ensures serviceType in SupportedServices() && LookedUp(client.show(resourceGroup, serviceName)).None? ==>
      var created := client.create(SupportedServices()[serviceType], serviceName, environment, resourceGroup);
      var o := ServiceOutcome(client, serviceType, serviceName, resourceGroup, environment);
      && (created == Raised ==> o.result == Failure(ServiceCreationRaised(serviceName, serviceType)))
      && (created == Returned(None) ==> o.result == Failure(ServiceCreationReturnedNone(serviceName, serviceType)))
  {
  }

  /**
   * When a supported service is not found (the lookup raises or returns
   * `None`), the registered create function is called, right after the
   * lookup, and a definition it returns is the result.
   */
  lemma AbsentServiceIsCreated(client: ServiceClient, serviceType: string, serviceName: string,
                               resourceGroup: string, environment: string)
    requires serviceType in SupportedServiceTypes
    requires LookedUp(client.show(resourceGroup, serviceName)).None?
    ensures var o := ServiceOutcome(client, serviceType, serviceName, resourceGroup, environment);
      var creator := SupportedServices()[serviceType];
      && o.calls == [Show(resourceGroup, serviceName), Create(creator, serviceName, environment, resourceGroup)]
      && forall created :: client.create(creator, serviceName, environment, resourceGroup) == Returned(Some(created))
           ==> o.result == Success(created)
  {
  }

  /**
   * Re-running after a successful run, against a control plane that now shows
   * the definition, returns that same definition and creates nothing: over
   * both runs there is at most one create call.
   */
  lemma RerunIsIdempotent(first: ServiceClient, second: ServiceClient, serviceType: string, serviceName: string,
                          resourceGroup: string, environment: string, def: ServiceDef)
    requires ServiceOutcome(first, serviceType, serviceName, resourceGroup, environment).result == Success(def)
    requires second.show(resourceGroup, serviceName) == Returned(Some(def))
    ensures var o2 := ServiceOutcome(second, serviceType, serviceName, resourceGroup, environment);
      o2 == Outcome(Success(def), [Show(resourceGroup, serviceName)])
    ensures CreateCount(ServiceOutcome(first, serviceType, serviceName, resourceGroup, environment).calls
                        + ServiceOutcome(second, serviceType, serviceName, resourceGroup, environment).calls) <= 1
  {
    var c1 := ServiceOutcome(first, serviceType, serviceName, resourceGroup, environment).calls;
    var c2 := ServiceOutcome(second, serviceType, serviceName, resourceGroup, environment).calls;
    AtMostOneCreate(first, serviceType, serviceName, resourceGroup, environment);
    CreateCountAppend(c1, c2);
  }

  lemma {:induction false} CreateCountAppend(a: seq<ClientCall>, b: seq<ClientCall>)
    ensures CreateCount(a + b) == CreateCount(a) + CreateCount(b)
  {
    if a != [] {
      assert (a + b)[1..] == a[1..] + b;
      CreateCountAppend(a[1..], b);
    } else {
      assert a + b == b;
    }
  }

  // ---------------------------------------------------------------------------
  // Properties of the orchestrator

  /**
   * The orchestrator provisions the service under the name `dapr-<type>`, makes
   * exactly the client calls that provisioning makes, fails when the
   * definition carries no id (and then hands nothing to component creation),
   * and on success hands the component type, the service type, `dapr-<type>`
   * and the service's id to component creation and returns the definition
   * with the component definition, which the stub leaves `None`.
   */
  lemma OrchestratorRequiresServiceId(client: ServiceClient, componentType: string, serviceType: string,
                                      resourceGroup: string, environment: string)
    ensures var o := ServiceAndComponentOutcome(client, componentType, serviceType, resourceGroup, environment);
      var s := ServiceOutcome(client, serviceType, "dapr-" + serviceType, resourceGroup, environment);
      && o.calls == s.calls
      && (s.result.Failure? ==> o.result == Failure(s.result.error))
      && (s.result.Success? && ServiceId(s.result.value).None? ==>
            o.result == Failure(MissingServiceId("dapr-" + serviceType, serviceType)))
      && (o.result.Success? <==> s.result.Success? && ServiceId(s.result.value).Some?)
      && (o.handOff.Some? <==> o.result.Success?)
      && (o.result.Success? ==>
            && o.result.value == (s.result.value, None)
            && o.handOff == Some(ComponentRequest(componentType, serviceType, "dapr-" + serviceType,
                                                  ServiceId(s.result.value).value)))
  {
  }
}
