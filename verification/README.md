# Dapr provisioning rules, modelled in Dafny

This project models two small pieces of decision logic from the Azure CLI extensions for Dapr:

- **`DaprUtils`** (Container Apps extension, `dapr_utils.dfy`): derives the name `dapr-<type>` of a
  backing service, rejects service types outside the table `redis` / `postgres` / `kafka`, looks the
  service up and creates it only when the lookup finds nothing, and then requires the service
  definition to carry an `id` before handing off to Dapr component creation (still a stub that
  returns `None`). The control-plane client is a value holding the answers of its two entry points
  (`show` and the per-type create functions). Each answer is either a returned value, possibly
  `None`, or a raised exception. Every procedure also returns the list of client calls it made, so
  the rules about which calls happen are proved, not just the results.
- **`Dapr`** (Kubernetes-extension handler, `dapr_extension.dfy`): `Create` sets
  `global.clusterType` to `managedclusters` when the cluster type is empty or is `managedclusters`
  in any letter case, and builds the `Extension` record. `Update` sets `hooks.applyCrds` to
  `false` on a downgrade and to `true` otherwise, and builds the `PatchExtension` record. The
  downgrade test is Python's string `<`, which compares lexicographically by code point. It is
  not a version-number comparison, so moving from `1.9.0` to `1.10.0` counts as a downgrade. The
  "restore the input when the map is empty" branch of `Update` is proved unreachable: the method
  body holds `assert false` in that branch.
- `py_strings.dfy` gives the Python string semantics both rules rely on: `str.lower()` and
  `str < str`. `wrappers.dfy` holds `Option` (Python `None`) and `Result` (a value or a raised
  error).

The imperative procedures (`CreateService`, `CreateServiceAndDaprComponent`, `Create`, `Update`)
are methods that reassign locals step by step, as the source does. The two provisioning methods
are proved equal to the decision tables `ServiceOutcome` and `ServiceAndComponentOutcome`, and the
provisioning rules are lemmas about those tables.

## Model

| member | source | states |
|---|---|---|
| DaprUtils.SupportedServices | src/containerapp/azext_containerapp/_dapr_utils.py:16-30 | the table's keys are exactly redis, postgres and kafka, and each type has its own create function |
| DaprUtils.ServiceName | src/containerapp/azext_containerapp/_dapr_utils.py:32-37 | the name is the prefix `dapr-` followed by the whole service type, for every string |
| DaprUtils.ServiceNameInjective | src/containerapp/azext_containerapp/_dapr_utils.py:32-37 | two service types with the same service name are the same type |
| DaprUtils.CreateService | src/containerapp/azext_containerapp/_dapr_utils.py:56-122 | the step-by-step procedure returns exactly the result and the client calls of the decision table `ServiceOutcome` |
| DaprUtils.UnsupportedTypeRejectedFirst | src/containerapp/azext_containerapp/_dapr_utils.py:72-77 | the unsupported-type error is raised if and only if the type is outside the table, and then no client call is made |
| DaprUtils.LookupComesFirst | src/containerapp/azext_containerapp/_dapr_utils.py:79-85 | for a supported type, the first client call is the lookup of the service name in the resource group |
| DaprUtils.ExistingServiceReturned | src/containerapp/azext_containerapp/_dapr_utils.py:89-95 | a definition the lookup returns is itself the result, and the lookup is the only call made, so nothing is created |
| DaprUtils.LookupErrorMeansAbsent | src/containerapp/azext_containerapp/_dapr_utils.py:81-89 | a lookup that raises gives the same result and calls as a lookup that returns `None` |
| DaprUtils.AtMostOneCreate | src/containerapp/azext_containerapp/_dapr_utils.py:97-104 | at most one create call per run; it comes right after the lookup and uses the create function registered for the type, with the service name, environment and resource group |
| DaprUtils.SuccessIsAReturnedDefinition | src/containerapp/azext_containerapp/_dapr_utils.py:101-122 | a create that raises or returns `None` is an error; a success is always a definition that the lookup or the create call really returned |
| DaprUtils.AbsentServiceIsCreated | src/containerapp/azext_containerapp/_dapr_utils.py:97-122 | when a supported service's lookup raises or returns `None`, the registered create function is called right after the lookup with the service name, environment and resource group, and a definition it returns is the result |
| DaprUtils.RerunIsIdempotent | src/containerapp/azext_containerapp/_dapr_utils.py:79-95 | after a successful run, a second run against a control plane that shows the definition returns that definition and creates nothing; the two runs together make at most one create call |
| DaprUtils.CreateDaprComponentFromService | src/containerapp/azext_containerapp/_dapr_utils.py:39-54 | the component-creation stub returns `None` whatever it is given |
| DaprUtils.CreateServiceAndDaprComponent | src/containerapp/azext_containerapp/_dapr_utils.py:124-158 | the orchestrating procedure returns exactly the result, the client calls and the hand-off to component creation of the decision table `ServiceAndComponentOutcome` |
| DaprUtils.OrchestratorRequiresServiceId | src/containerapp/azext_containerapp/_dapr_utils.py:143-158 | the service is provisioned as `dapr-<type>` with exactly the calls that provisioning makes; its errors pass through; a definition without `id` is an error; success holds if and only if provisioning succeeded with an id; component creation is handed the component type, the service type, `dapr-<type>` and that id exactly on success, and nothing otherwise; success returns the definition with a `None` component |
| PyStrings.Lower | src/k8s-extension/azext_k8s_extension/partner_extensions/Dapr.py:37 | lower-casing keeps the length and lowers each character on its own, so `lower()` of a string is empty exactly when the string is |
| PyStrings.LowerEqualsWordIffCaseVariant | src/k8s-extension/azext_k8s_extension/partner_extensions/Dapr.py:37 | `s.lower()` equals a lower-case word exactly when `s` spells that word with each letter in either case |
| PyStrings.PyStrLessIrreflexive | src/k8s-extension/azext_k8s_extension/partner_extensions/Dapr.py:68 | no string is below itself in Python's string order |
| PyStrings.PyStrLessTransitive | src/k8s-extension/azext_k8s_extension/partner_extensions/Dapr.py:68 | Python's string order is transitive |
| PyStrings.PyStrLessTrichotomy | src/k8s-extension/azext_k8s_extension/partner_extensions/Dapr.py:68 | any two strings are equal or ordered in exactly one direction |
| PyStrings.PyStrLessProperPrefix | src/k8s-extension/azext_k8s_extension/partner_extensions/Dapr.py:68 | a proper prefix is below the longer string |
| DaprExtension.Create | src/k8s-extension/azext_k8s_extension/partner_extensions/Dapr.py:29-52 | `global.clusterType` is set to `managedclusters` when the cluster type is empty or `managedclusters` in any letter case, and the settings are otherwise untouched; the record passes type, auto-upgrade flag, release train, version, scope and protected settings through, with no identity and an empty location; the name is returned unchanged and no identity is to be created |
| DaprExtension.Update | src/k8s-extension/azext_k8s_extension/partner_extensions/Dapr.py:54-86 | `hooks.applyCrds` is `false` if and only if both versions are non-empty and the new one is below the original, and `true` in every other case, including a missing or empty version; the key set is the input's (an absent map read as empty) plus that key; every other key keeps its value; the settings are never `None` or empty, so the restore branch never fires; auto-upgrade flag, release train, version and protected settings pass through |
| DaprExtension.LexicographicNotSemantic | src/k8s-extension/azext_k8s_extension/partner_extensions/Dapr.py:68 | moving from `1.9.0` to `1.10.0` counts as a downgrade, and moving from `1.10.0` to `1.9.0` does not |
| DaprExtension.SameVersionIsNotDowngrade | src/k8s-extension/azext_k8s_extension/partner_extensions/Dapr.py:67-68 | updating to the version already installed is never a downgrade |
| DaprExtension.ExactlyOneDirectionIsDowngrade | src/k8s-extension/azext_k8s_extension/partner_extensions/Dapr.py:67-68 | between two distinct non-empty versions, exactly one direction of change is a downgrade |
| DaprExtension.DowngradesCompose | src/k8s-extension/azext_k8s_extension/partner_extensions/Dapr.py:67-68 | two successive downgrades add up to a downgrade from the first version |

## Left out

- The `cmd` context, the client object, the resource-group and cluster-name arguments of `Create`, and the unused `Create` arguments (`cluster_rp`, `target_namespace`, `release_namespace`, the settings-file paths) are left out. So is `yes` of `Update`. None of them affects a decision. Only the resource group and environment that reach the service client are kept, as call arguments.
- The HTTP lookup `ContainerAppClient.show`, the create functions `create_redis_service`, `create_postgres_service` and `create_kafka_service`, and `safe_get` live in files that are not part of this model. The first four are modelled only by the answers they give. `safe_get(def, "id")` is a field lookup.
- ServiceId: a definition whose `id` field is present but JSON `null` is not represented separately. The model treats it as a missing `id`, which the source also does, since `safe_get` returns `None` in both cases.
- Logging calls and the text of exception messages are left out. All errors are the source's `ValidationError`. The model tells them apart by the place that raises them and carries the service name and type.
- `_create_dapr_component_from_service` is a stub. It is modelled as returning `None`, and the orchestrator records the arguments it hands to it. No component naming, payload or compatibility rule is modelled, because the source has none.
- The source mutates the caller's settings dictionary in place, and the returned `Extension` or `PatchExtension` holds that same dictionary object. The model works on values: the map in the returned record is the dictionary's new content. Aliasing itself is not modelled. `copy.deepcopy` in `Update` is a value copy.
- DaprExtension.Create: takes a settings map, never `None`. With `None` and a managed cluster type, the source would fail with a Python `TypeError`, and that path is not modelled. A `None` cluster type is not modelled either, since `.lower()` would raise.
- PyStrings.Lower: lowers ASCII letters only. For the two comparisons `Create` makes (with `''` and with `managedclusters`) this decides exactly as Python's full Unicode `lower()` does. No character outside ASCII lowers to a string made only of the letters of `managedclusters`.
- The check-then-create sequence is not atomic against concurrent runs. The model covers one run against fixed client answers, plus one re-run.
