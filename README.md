# KFServing deployment service — a Dafny model

This project models the request handling of the KFServing deployment service
(`components/kfserving_deployment/src/app.py`). The service receives a
deployment request as a dict of parameters and does one of the following:

- It builds an InferenceService document from a template and creates or
  patches it in the cluster.
- It deletes such a document.
- It answers a status request.

Every outcome, an exception included, becomes a result dict with a
`"status"` entry.

The modules follow the program:

- `Values` holds the dynamically typed values and the Python behaviour the
  service relies on: truthiness, `==` (where `True == 1` and dicts compare key by key), `dict.get`,
  `"%s" %` formatting and the exceptions with their messages.
- `Ascii` holds `str.lower()` and `str.upper()`.
- `Dns1123` holds the deployment-name check and its coercion. The check is
  the DNS-1123 subdomain pattern applied by `re.match`, whose `$` also
  accepts one final newline.
- `Env` holds the env list turned into an insertion-ordered dict,
  overridden by the request and turned back into a list.
- `Manifests` holds the InferenceService document, the resource coordinates
  derived from it (the `apiVersion` split into group and version, the plural
  `kind.lower() + "s"`, the namespace `"default"`) and the spec built for a
  request.
- `Store` holds the custom-objects API of the cluster. It is a class whose
  objects change under create, patch and delete and which records each call
  it receives. Besides the refusals and reply bodies it is given, the server
  follows four fixed rules: a create whose name is not a string is rejected
  as "Unprocessable Entity" (422), a create of a name already stored as
  "Conflict" (409), and a patch, delete or get of a name not stored as
  "Not Found" (404).
- `Facade` holds the request handlers: `get_deployment_name`,
  `update_kfserving_spec`, `deploy_kfserving_spec`, `delete_deployment`,
  `get_deployment_state`, `get_service_name`, `get_http_method` and
  `run_safe`.

The model follows the code where it differs from how the service is usually
described:

- Deploy and delete use the raw `deployment_name` (app.py:66 and 117). The
  name check and its coercion are used only by the status lookup and the
  service name.
- A GET request answers `UNKNOWN` without calling the cluster (app.py:213-216).
  `get_deployment_state` is not called from any request path.
- The status lookup and the service name read the `spec.predictors[0]`
  section of the document. The spec builder copies that section from the
  template unchanged and writes the request's env vars to
  `spec.default.custom.container.env`. So the training id a deployment
  carries is not where the status lookup looks (`StateIgnoresMergedEnv`).
- A dict written back by the name check keeps the coerced name, so a second
  call returns the same name (`NormalizedNameIdempotent`). A coerced name can
  still fail the check, for example `"_a"` becomes `"-a"`
  (`CoercedNameMayStillFail`).

## Model

| member | source | states |
|---|---|---|
| Dns1123.SubdomainIsWellFormed | components/kfserving_deployment/src/app.py:174 | the label-by-label reading of the DNS-1123 pattern accepts exactly the names that are non-empty, use only `[-.a-z0-9]`, are alphanumeric at both ends and have an alphanumeric on both sides of every '.' |
| Dns1123.CoerceAt | components/kfserving_deployment/src/app.py:178-181 | the replace/replace/lower chain keeps the length and maps each character on its own: '_' and ' ' become '-', upper-case letters become lower-case |
| Dns1123.CoerceIsClean | components/kfserving_deployment/src/app.py:178-181 | a coerced name holds no '_', no space and no upper-case letter |
| Dns1123.CoerceIdempotent | components/kfserving_deployment/src/app.py:178-181 | coercing a coerced name changes nothing |
| Dns1123.NormalizeIdempotent | components/kfserving_deployment/src/app.py:176-182 | normalizing a normalized name changes nothing |
| Dns1123.DirtyNameIsCoerced | components/kfserving_deployment/src/app.py:176-182 | a name holding '_', a space or an upper-case letter fails the check and is replaced by its coercion, which has none of them |
| Dns1123.CoercedNameMayStillFail | components/kfserving_deployment/src/app.py:176-182 | the coercion does not guarantee a valid name: `"_a"` becomes `"-a"`, which still fails the check |
| Dns1123.MyModelExample | components/kfserving_deployment/src/app.py:176-182 | `"My Model"` is returned as `"my-model"` |
| Env.PutNames | components/kfserving_deployment/src/app.py:71-86 | assigning a dict key keeps the key order when the key exists and appends it otherwise |
| Env.PutLookup | components/kfserving_deployment/src/app.py:71-86 | after `d[k] = v`, `d[k]` is `v` and every other key keeps its value |
| Env.PutNoDup | components/kfserving_deployment/src/app.py:71-86 | assigning a key never makes a key appear twice |
| Env.FromListSpec | components/kfserving_deployment/src/app.py:69 | the dict comprehension over the env list keeps each name once, at its first position, with the value of its last occurrence |
| Env.OverrideTargetsDistinct | components/kfserving_deployment/src/app.py:71-86 | the eight env vars the request can set are distinct |
| Env.OverrideLookup | components/kfserving_deployment/src/app.py:71-86 | after the if-chain each env var has the value of the last present request key that sets it, or keeps its old value |
| Env.OverrideNames | components/kfserving_deployment/src/app.py:71-86 | the if-chain keeps existing names in place and appends the new ones in chain order, so names stay distinct |
| Env.MergeEnvNames | components/kfserving_deployment/src/app.py:68-89 | the env list of the built spec has the template names once each, in first-occurrence order, followed by the names the request adds, with no name twice |
| Env.MergeEnvOverride | components/kfserving_deployment/src/app.py:71-86 | every request key present sets its env var to the request's value |
| Env.MergeEnvKeep | components/kfserving_deployment/src/app.py:68-89 | an env var that no present request key sets keeps the template's last value, or stays absent |
| Manifests.SplitSpec | components/kfserving_deployment/src/app.py:98 | `str.split` yields one more part than there are separators, no part holds the separator, and joining the parts gives the string back |
| Manifests.GroupVersionSpec | components/kfserving_deployment/src/app.py:98 | unpacking the split `apiVersion` succeeds exactly when it holds one '/', and then yields the text on either side of it; otherwise it raises the ValueError for too few or too many values |
| Manifests.GroupVersionRoundTrip | components/kfserving_deployment/src/app.py:98 | a group and a version without '/' joined by '/' unpack to themselves |
| Manifests.CoordsOf | components/kfserving_deployment/src/app.py:95-98 | the coordinates exist exactly when the `apiVersion` holds one '/'; they rejoin to it, the namespace is "default" and the plural is the lower-cased kind plus "s" |
| Manifests.BuildSpec | components/kfserving_deployment/src/app.py:60-91 | the spec raises KeyError without `deployment_name`; otherwise it carries the raw name, the request's image when one is given, the template's other fields and the merged env list |
| Store.FindSpec | components/kfserving_deployment/src/app.py:103 | a name is among the listed names exactly when an object with that name is found |
| Store.RemoveWellNamed | components/kfserving_deployment/src/app.py:128 | deleting an object keeps the stored names distinct |
| Store.RemoveSpec | components/kfserving_deployment/src/app.py:128 | deleting removes the named object and leaves every other object as it was |
| Store.PatchSpec | components/kfserving_deployment/src/app.py:104 | patching keeps the names; the named object gets the new body under its own name and keeps its status; other objects are unchanged |
| Store.AppendSpec | components/kfserving_deployment/src/app.py:106 | creating adds the new object and leaves the others as they were |
| Store.EffectSpec | components/kfserving_deployment/src/app.py:104-128 | a create, patch or delete keeps names distinct, changes nothing when refused, and otherwise changes only the object it names |
| Store.CreateSpec | components/kfserving_deployment/src/app.py:106 | a create of a new string name keeps names distinct and stores the object without a status |
| Store.PatchKeepsNames | components/kfserving_deployment/src/app.py:104 | a patch of a listed name keeps names distinct and replaces only that object's body |
| Store.ObjectStore.List | components/kfserving_deployment/src/app.py:101 | listing returns the stored objects or the refusal, records the call and changes no object |
| Store.ObjectStore.Get | components/kfserving_deployment/src/app.py:160 | getting returns the named object, the refusal or "Not Found", records the call and changes no object |
| Store.ObjectStore.Apply | components/kfserving_deployment/src/app.py:104-128 | a create, patch or delete leaves the store as the server's rules say, keeps names distinct and records the call |
| Facade.DeploymentName | components/kfserving_deployment/src/app.py:172-182 | the name check returns a passing name and leaves the parameters alone; it coerces any other string name and writes it back; it raises KeyError or TypeError for a missing or non-string name |
| Facade.NormalizedNameIdempotent | components/kfserving_deployment/src/app.py:176-182 | after the write-back a second call returns the same name |
| Facade.UpdateSpec | components/kfserving_deployment/src/app.py:60-91 | the method's loop and if-chain build exactly the spec `BuildSpec` describes |
| Facade.OverrideChain | components/kfserving_deployment/src/app.py:71-86 | the eight ifs apply the request overrides in table order |
| Facade.OverrideRow | components/kfserving_deployment/src/app.py:71-72 | one if of the chain applies one row of the override table |
| Facade.UpsertCall | components/kfserving_deployment/src/app.py:103-106 | a listed name is patched and an unlisted one created, at the listed coordinates, with the spec as body |
| Facade.DeployOutcome | components/kfserving_deployment/src/app.py:94-110 | a deploy lists first; exactly when the list succeeds it issues one more call, a patch of the spec's own name if that name is listed and a create otherwise, whose effect on the store is the server's; a coordinate error or a refused list raises that error and changes nothing |
| Facade.UpsertStoresSpec | components/kfserving_deployment/src/app.py:103-106 | after a successful deploy the store holds the spec under its name (a new object has no status) and every other object as before |
| Facade.DeploySpec | components/kfserving_deployment/src/app.py:94-110 | the deploy method's reply, new store state and issued calls are those of `DeployOutcome` |
| Facade.DeleteOutcome | components/kfserving_deployment/src/app.py:113-138 | a delete lists first; a refused list raises its error with no further call; a listed name is deleted with one delete call, an unlisted one gets the "Could not find" dict and no further call |
| Facade.DeleteRemovesOnlyThatObject | components/kfserving_deployment/src/app.py:127-128 | a delete that is carried out removes the named object and leaves every other object |
| Facade.DeleteDeployment | components/kfserving_deployment/src/app.py:113-138 | the delete method's reply, new store state and issued calls are those of `DeleteOutcome` |
| Facade.ReadState | components/kfserving_deployment/src/app.py:160-169 | a state is reported exactly when the deployed training id equals the request's, the object has a status, and the status has a string state; it is then upper-cased; a mismatch or a missing status gives None |
| Facade.DeploymentState | components/kfserving_deployment/src/app.py:150-169 | the status lookup normalizes the name, lists, and gets and reads the object only when the name is listed; otherwise it returns None; errors propagate; no object changes |
| Facade.StateIgnoresMergedEnv | components/kfserving_deployment/src/app.py:161-165 | a deployed spec carries the request's training id in its merged env, yet the stored object's `spec.predictors[0]` section is the template's, and the state read from the object is the state read from the template's section with the object's status; with no such section in the template the lookup fails with its error |
| Facade.ServiceName | components/kfserving_deployment/src/app.py:141-147 | the service name is the normalized name, the predictor name and the graph name joined by '-', and it fails exactly when one of them fails |
| Facade.HttpMethod | components/kfserving_deployment/src/app.py:185-196 | `check_status_only` wins over `delete_deployment`, which wins over the upper-cased `__ow_method` (default "POST"); a method that is not a string raises AttributeError; the result has no lower-case letter |
| Facade.DeleteResult | components/kfserving_deployment/src/app.py:219-223 | the delete result copies "status" and "details" from the delete reply, or is the KeyError result when either is missing |
| Facade.RunSafe | components/kfserving_deployment/src/app.py:199-241 | every request ends in a dict with "status". GET is UNKNOWN with no store call. An unknown method is "Failed". POST/PATCH/PUT and DELETE give the results and store states of `DeployOutcome` and `DeleteOutcome`. Any exception becomes the "Error" dict |

## Left out

- The Flask routes, CORS and the OPTIONS handler (app.py:244-267) are not modelled. The model starts at `run_safe` with the parameters and the method as its inputs.
- Loading the cluster configuration and building the API clients (app.py:36-51) is not modelled. Loading is taken to succeed.
- The template file read (app.py:54-57) is not modelled. The template is a parameter, and its paths to `spec.default.custom.container` are taken to exist.
- Logging and the `print` of the deploy result are not modelled, because they do not affect any result.
- The traceback text of an exception is the `trace` parameter of `Facade.RunSafe`.
- JSON arrays and floating-point numbers are not values of the model.
- Values.Format: a dict inside a message is rendered as `{...}`, not with Python's `repr`.
- Ascii.Lower, Ascii.Upper and Dns1123.Coerce: only ASCII letters change case. Python's Unicode case mapping is not modelled.
- Store.ObjectStore: the store is one collection. The coordinates of a call are recorded in the call log but do not select a collection.
- Store.Server: which calls the server refuses, and the reply body of a create, patch or delete, are parameters. An ApiException message is its reason phrase only.
- Store.PatchSpec: a patch replaces the modelled fields of the body. The JSON merge of keys the model does not carry is not modelled. A section the patch body lacks, such as a missing `spec.predictors` (a `Failure` in `Manifests.PredictorView`), removes the stored one instead of keeping it as a JSON merge patch would.
- Concurrency is not modelled. Another client changing the store between the list and the following call is outside the model.
- Env entries without a `"value"` key (for example `valueFrom`) are not modelled. The comprehension would raise KeyError on them.
- A stored `status` that is not a dict cannot occur in the model: a status is a dict or absent.
- The lookups under `spec.predictors[0]` are kept as their results. Each field of `Manifests.PredictorView` is the value found or the exception raised, and the list indexing that gives it is not modelled step by step.
- Facade.DeploymentName: the TypeError for a name that is not a string carries a fixed message. Python's message also names the type.
- `kfserving_deployment.py`, `pytorch-serving-base/app.py` and `secret-gen/config.py` are not part of this model.
