/** The request handling of the deployment service (app.py): the name check,
    the spec built for a request, the list-then-create/patch/delete
    reconciliation against the object store, the status lookup, the service
    name, the method dispatch and the result dict every request ends in. */
module Facade {
  import opened Values
  import opened Ascii
  import Dns1123
  import opened Env
  import opened Manifests
  import opened Store

  /** The request parameters: a dict the handlers read, and into which the
      name check writes a coerced name back. */
  class Params {
    var entries: map<string, Value>

    constructor (entries: map<string, Value>)
      ensures this.entries == entries
    {
      this.entries := entries;
    }
  }

  // ---------------------------------------------------------------------
  // get_deployment_name

  /** `re.match` given something that is not a string. */
  const NotAString := Exception("TypeError", "expected string or bytes-like object")

  /** What `get_deployment_name` returns for the parameters `entries`. */
  function NormalizedName(entries: map<string, Value>): Result<string, Exception>
  {
    if "deployment_name" !in entries then Failure(KeyError("deployment_name"))
    else match entries["deployment_name"]
      case Str(s) => Success(Dns1123.Normalize(s))
      case _ => Failure(NotAString)
  }

  /** `get_deployment_name`: a name that passes the check is returned and the
      parameters stay as they are; any other string name is coerced, written
      back and returned. */
  method DeploymentName(params: Params) returns (r: Result<string, Exception>)
    modifies params
    ensures r == NormalizedName(old(params.entries))
    ensures params.entries ==
      if r.Success? then old(params.entries)["deployment_name" := Str(r.value)] else old(params.entries)
    ensures r.Success? && Dns1123.Matches(old(params.entries)["deployment_name"].s) ==>
      params.entries == old(params.entries)
  {
    if "deployment_name" !in params.entries {
      return Failure(KeyError("deployment_name"));
    }
    var name := params.entries["deployment_name"];
    if !name.Str? {
      return Failure(NotAString);
    }
    if !Dns1123.Matches(name.s) {
      params.entries := params.entries["deployment_name" := Str(Dns1123.Coerce(name.s))];
    }
    r := Success(params.entries["deployment_name"].s);
  }

  /** Calling `get_deployment_name` a second time returns the same name: the
      name written back is its own normalization. */
  lemma NormalizedNameIdempotent(entries: map<string, Value>)
    requires NormalizedName(entries).Success?
    ensures NormalizedName(entries["deployment_name" := Str(NormalizedName(entries).value)]) == NormalizedName(entries)
  {
    Dns1123.NormalizeIdempotent(entries["deployment_name"].s);
  }

  // ---------------------------------------------------------------------
  // update_kfserving_spec

  /** `update_kfserving_spec`: the template with the request's image, its raw
      deployment name and the merged env list. */
  method UpdateSpec(params: Params, template: Manifest) returns (r: Result<Manifest, Exception>)
    ensures r == BuildSpec(template, params.entries)
  {
    var entries := params.entries;
    var spec := template;
    if "container_image" in entries {
      spec := spec.(image := entries["container_image"]);
    }
    if "deployment_name" !in entries {
      return Failure(KeyError("deployment_name"));
    }
    spec := spec.(name := entries["deployment_name"]);

    var envList := spec.env;
    var envDict: seq<EnvVar> := [];
    var i := 0;
    while i < |envList|
      invariant i <= |envList|
      invariant envDict == FromList(envList[..i])
    {
      assert envList[..i + 1][..i] == envList[..i];
      envDict := Put(envDict, envList[i].name, envList[i].value);
      i := i + 1;
    }
    assert envList[..i] == envList;
    envDict := OverrideChain(envDict, entries);
    spec := spec.(env := envDict);
    r := Success(spec);
  }

  /** The if-chain of `update_kfserving_spec`: each request key present sets
      its env var in the dict. */
  method OverrideChain(d: seq<EnvVar>, entries: map<string, Value>) returns (envDict: seq<EnvVar>)
    ensures envDict == Override(d, entries, Overrides)
  {
    envDict := d;
    envDict := OverrideRow(d, entries, envDict, 0, "model_file_name", "MODEL_FILE_NAME");
    envDict := OverrideRow(d, entries, envDict, 1, "training_id", "TRAINING_ID");
    envDict := OverrideRow(d, entries, envDict, 2, "training_results_bucket", "BUCKET_NAME");
    envDict := OverrideRow(d, entries, envDict, 3, "endpoint_url", "BUCKET_ENDPOINT_URL");
    envDict := OverrideRow(d, entries, envDict, 4, "access_key_id", "BUCKET_KEY");
    envDict := OverrideRow(d, entries, envDict, 5, "secret_access_key", "BUCKET_SECRET");
    envDict := OverrideRow(d, entries, envDict, 6, "model_class_name", "MODEL_CLASS_NAME");
    envDict := OverrideRow(d, entries, envDict, 7, "model_class_file", "MODEL_CLASS_FILE");
    assert Overrides[..8] == Overrides;
  }

  /** One `if key in params: env_dict[target] = params[key]` line: row `k` of the table. */
  method OverrideRow(ghost d: seq<EnvVar>, entries: map<string, Value>, envDict: seq<EnvVar>,
                     k: nat, key: string, target: string) returns (r: seq<EnvVar>)
    requires k < |Overrides| && Overrides[k] == (key, target)
    requires envDict == Override(d, entries, Overrides[..k])
    ensures r == Override(d, entries, Overrides[..k + 1])
  {
    r := envDict;
    if key in entries {
      r := Put(r, target, entries[key]);
    }
    assert Overrides[..k + 1][..k] == Overrides[..k];
  }


  // ---------------------------------------------------------------------
  // deploy_kfserving_spec

  /** The write `deploy_kfserving_spec` issues once the list has answered
      `items`: a patch when the spec's name is listed, a create otherwise. */
  function UpsertCall(at: Coords, spec: Manifest, items: seq<Resource>): (c: Call)
    requires WellNamed(items)
    ensures c.PatchCall? <==> spec.name in ObjectNames(items)
    ensures c.PatchCall? || c.CreateCall?
    ensures c.at == at && c.body == spec
    ensures c.PatchCall? ==> Str(c.name) == spec.name
  {
    if spec.name in ObjectNames(items) then PatchCall(at, spec.name.s, spec) else CreateCall(at, spec)
  }

  /** What `deploy_kfserving_spec` does against a store holding `items`: its
      reply or error, the objects afterwards, and the calls it issues. */
  function DeployOutcome(server: Server, items: seq<Resource>, spec: Manifest)
    : (o: (Result<map<string, Value>, Exception>, seq<Resource>, seq<Call>))
    requires WellNamed(items)
    ensures CoordsOf(spec).Failure? ==> o == (Failure(CoordsOf(spec).error), items, [])
    ensures CoordsOf(spec).Success? ==> 1 <= |o.2| <= 2 && o.2[0] == ListCall(CoordsOf(spec).value)
    ensures CoordsOf(spec).Success? ==> (|o.2| == 2 <==> server.refuses(ListCall(CoordsOf(spec).value)).None?)
    ensures CoordsOf(spec).Success? && server.refuses(ListCall(CoordsOf(spec).value)).Some? ==>
      o == (Failure(server.refuses(ListCall(CoordsOf(spec).value)).value), items, [ListCall(CoordsOf(spec).value)])
    ensures |o.2| == 1 ==> o.0.Failure? && o.1 == items
    ensures |o.2| == 2 ==>
      && (o.2[1].PatchCall? <==> spec.name in ObjectNames(items))
      && (o.2[1].PatchCall? || o.2[1].CreateCall?)
      && o.2[1].at == o.2[0].at
      && o.2[1].body == spec
      && (o.2[1].PatchCall? ==> Str(o.2[1].name) == spec.name)
      && (o.2[1].CreateCall? <==> spec.name !in ObjectNames(items))
      && (o.0, o.1) == Effect(server, o.2[1], items)
  {
    match CoordsOf(spec)
    case Failure(e) => (Failure(e), items, [])
    case Success(at) =>
      var refused := server.refuses(ListCall(at));
      if refused.Some? then (Failure(refused.value), items, [ListCall(at)])
      else
        var call := UpsertCall(at, spec, items);
        var (r, after) := Effect(server, call, items);
        (r, after, [ListCall(at), call])
  }

  /** After a successful upsert the store holds the spec under its name (a new
      object without status, or the patched object with its status kept) and
      every other object as before. */
  lemma UpsertStoresSpec(server: Server, items: seq<Resource>, spec: Manifest, other: Value)
    requires WellNamed(items)
    requires DeployOutcome(server, items, spec).0.Success?
    ensures WellNamed(DeployOutcome(server, items, spec).1)
    ensures
      var after := DeployOutcome(server, items, spec).1;
      && Find(after, spec.name).Some?
      && Find(after, spec.name).value.body == spec
      && (spec.name !in ObjectNames(items) ==> Find(after, spec.name).value.status.None?)
      && (other != spec.name ==> Find(after, other) == Find(items, other))
  {
    var o := DeployOutcome(server, items, spec);
    var call := o.2[1];
    EffectSpec(server, call, items, other);
    EffectSpec(server, call, items, spec.name);
  }

  /** `deploy_kfserving_spec`: list, then patch or create. */
  method DeploySpec(store: ObjectStore, spec: Manifest) returns (r: Result<map<string, Value>, Exception>)
    requires store.Valid()
    modifies store
    ensures store.Valid()
    ensures
      var o := DeployOutcome(store.server, old(store.items), spec);
      r == o.0 && store.items == o.1 && store.log == old(store.log) + o.2
  {
    var coords := CoordsOf(spec);
    if coords.Failure? {
      return Failure(coords.error);
    }
    var at := coords.value;
    var listed := store.List(at);
    if listed.Failure? {
      return Failure(listed.error);
    }
    var call := UpsertCall(at, spec, listed.value);
    r := store.Apply(call);
  }

  // ---------------------------------------------------------------------
  // delete_deployment

  /** The dict `delete_deployment` returns for a name that is not listed. */
  function NotFoundReply(name: Value): map<string, Value>
  {
    map[
      "status" := Str("Error"),
      "details" := Str("Could not find a kfserving serving deployment with name '" + Format(name) + "'")
    ]
  }

  /** What `delete_deployment` does against a store holding `items`: its
      returned dict or error, the objects afterwards, and the calls it issues. */
  function DeleteOutcome(server: Server, items: seq<Resource>, entries: map<string, Value>, template: Manifest)
    : (o: (Result<map<string, Value>, Exception>, seq<Resource>, seq<Call>))
    requires WellNamed(items)
    ensures "deployment_name" !in entries ==> o == (Failure(KeyError("deployment_name")), items, [])
    ensures "deployment_name" in entries && CoordsOf(template).Failure? ==> o == (Failure(CoordsOf(template).error), items, [])
    ensures |o.2| <= 2
    ensures |o.2| < 2 ==> o.1 == items
    ensures "deployment_name" in entries && CoordsOf(template).Success? ==>
      var name := entries["deployment_name"];
      var at := CoordsOf(template).value;
      && 1 <= |o.2| && o.2[0] == ListCall(at)
      && (|o.2| == 2 <==> server.refuses(ListCall(at)).None? && name in ObjectNames(items))
      && (server.refuses(ListCall(at)).Some? ==>
            o == (Failure(server.refuses(ListCall(at)).value), items, [ListCall(at)]))
      && (server.refuses(ListCall(at)).None? && name !in ObjectNames(items) ==>
            o == (Success(NotFoundReply(name)), items, [ListCall(at)]))
      && (|o.2| == 2 ==>
            && o.2[1].DeleteCall? && o.2[1].at == at && Str(o.2[1].name) == name
            && (o.0, o.1) == Effect(server, o.2[1], items))
  {
    if "deployment_name" !in entries then (Failure(KeyError("deployment_name")), items, [])
    else
      var name := entries["deployment_name"];
      match CoordsOf(template)
      case Failure(e) => (Failure(e), items, [])
      case Success(at) =>
        var refused := server.refuses(ListCall(at));
        if refused.Some? then (Failure(refused.value), items, [ListCall(at)])
        else if name in ObjectNames(items) then
          var call := DeleteCall(at, name.s);
          var (r, after) := Effect(server, call, items);
          (r, after, [ListCall(at), call])
        else (Success(NotFoundReply(name)), items, [ListCall(at)])
  }

  /** A delete that is carried out removes exactly the named object. */
  lemma DeleteRemovesOnlyThatObject(server: Server, items: seq<Resource>, entries: map<string, Value>,
                                    template: Manifest, other: Value)
    requires WellNamed(items)
    requires |DeleteOutcome(server, items, entries, template).2| == 2
    requires DeleteOutcome(server, items, entries, template).0.Success?
    ensures WellNamed(DeleteOutcome(server, items, entries, template).1)
    ensures Find(DeleteOutcome(server, items, entries, template).1, other) ==
      if other == entries["deployment_name"] then None else Find(items, other)
  {
    var o := DeleteOutcome(server, items, entries, template);
    EffectSpec(server, o.2[1], items, other);
  }

  /** `delete_deployment`: list, then delete the object named by the raw
      `deployment_name`, or report that it is missing. */
  method DeleteDeployment(params: Params, template: Manifest, store: ObjectStore)
    returns (r: Result<map<string, Value>, Exception>)
    requires store.Valid()
    modifies store
    ensures store.Valid()
    ensures
      var o := DeleteOutcome(store.server, old(store.items), params.entries, template);
      r == o.0 && store.items == o.1 && store.log == old(store.log) + o.2
  {
    if "deployment_name" !in params.entries {
      return Failure(KeyError("deployment_name"));
    }
    var name := params.entries["deployment_name"];
    var coords := CoordsOf(template.(name := name));
    if coords.Failure? {
      return Failure(coords.error);
    }
    var at := coords.value;
    var listed := store.List(at);
    if listed.Failure? {
      return Failure(listed.error);
    }
    if name in ObjectNames(listed.value) {
      r := store.Apply(DeleteCall(at, name.s));
    } else {
      r := Success(NotFoundReply(name));
    }
  }

  // ---------------------------------------------------------------------
  // get_deployment_state

  /** The `TRAINING_ID` env var of a stored object, read from its
      `spec.predictors[0]` section. */
  function DeployedTrainingId(obj: Resource): Result<Value, Exception>
  {
    match obj.body.predictor.env
    case Failure(e) => Failure(e)
    case Success(env) =>
      match Lookup(FromList(env), "TRAINING_ID")
      case None => Failure(KeyError("TRAINING_ID"))
      case Some(v) => Success(v)
  }

  /** The three conditions under which the state of a listed object is
      reported: the training ids agree (Python `==`) and it has a status. */
  predicate StateReportable(entries: map<string, Value>, obj: Resource)
  {
    && DeployedTrainingId(obj).Success?
    && "training_id" in entries
    && Equal(entries["training_id"], DeployedTrainingId(obj).value)
    && obj.status.Some?
  }

  /** What `get_deployment_state` does with the object it fetched. */
  function ReadState(entries: map<string, Value>, obj: Resource): (r: Result<Option<string>, Exception>)
    ensures r.Success? && r.value.Some? <==>
      StateReportable(entries, obj) && "state" in obj.status.value && obj.status.value["state"].Str?
    ensures r.Success? && r.value.Some? ==> r.value.value == Upper(obj.status.value["state"].s)
    ensures DeployedTrainingId(obj).Success? && "training_id" in entries && !StateReportable(entries, obj) ==>
      r == Success(None)
  {
    match DeployedTrainingId(obj)
    case Failure(e) => Failure(e)
    case Success(deployed) =>
      if "training_id" !in entries then Failure(KeyError("training_id"))
      else if Equal(entries["training_id"], deployed) && obj.status.Some? then
        var status := obj.status.value;
        if "state" !in status then Failure(KeyError("state"))
        else match status["state"]
          case Str(s) => Success(Some(Upper(s)))
          case v => Failure(NoAttribute(v, "upper"))
      else Success(None)
  }

  /** `get_deployment_state`: normalize the name, list, and for a listed name
      fetch the object and report its upper-cased state when it was deployed
      for the request's training id; None when the name is not listed. */
  method DeploymentState(params: Params, template: Manifest, store: ObjectStore)
    returns (r: Result<Option<string>, Exception>)
    requires store.Valid()
    modifies params, store`log
    ensures store.Valid()
    ensures params.entries ==
      if NormalizedName(old(params.entries)).Success?
      then old(params.entries)["deployment_name" := Str(NormalizedName(old(params.entries)).value)]
      else old(params.entries)
    ensures NormalizedName(old(params.entries)).Failure? ==>
      r == Failure(NormalizedName(old(params.entries)).error) && store.log == old(store.log)
    ensures NormalizedName(old(params.entries)).Success? && CoordsOf(template).Failure? ==>
      r == Failure(CoordsOf(template).error) && store.log == old(store.log)
    ensures NormalizedName(old(params.entries)).Success? && CoordsOf(template).Success? ==>
      var name := NormalizedName(old(params.entries)).value;
      var at := CoordsOf(template).value;
      if store.server.refuses(ListCall(at)).Some? then
        r == Failure(store.server.refuses(ListCall(at)).value) && store.log == old(store.log) + [ListCall(at)]
      else if Find(store.items, Str(name)).None? then
        r == Success(None) && store.log == old(store.log) + [ListCall(at)]
      else if store.server.refuses(GetCall(at, name)).Some? then
        r == Failure(store.server.refuses(GetCall(at, name)).value) &&
        store.log == old(store.log) + [ListCall(at), GetCall(at, name)]
      else
        r == ReadState(old(params.entries), Find(store.items, Str(name)).value) &&
        store.log == old(store.log) + [ListCall(at), GetCall(at, name)]
  {
    var normalized := DeploymentName(params);
    if normalized.Failure? {
      return Failure(normalized.error);
    }
    var name := normalized.value;
    var coords := CoordsOf(template);
    if coords.Failure? {
      return Failure(coords.error);
    }
    var at := coords.value;
    var listed := store.List(at);
    if listed.Failure? {
      return Failure(listed.error);
    }
    FindSpec(listed.value, Str(name));
    if Str(name) in ObjectNames(listed.value) {
      var fetched := store.Get(at, name);
      if fetched.Failure? {
        return Failure(fetched.error);
      }
      r := ReadState(params.entries, fetched.value);
    } else {
      r := Success(None);
    }
  }

  /** The status lookup reads the `spec.predictors[0]` section, which the spec
      builder copies from the template unchanged: a spec deployed by this
      service carries its training id in `spec.default.custom.container.env`,
      which the lookup never reads. Whatever the request set, the state read
      from the stored object is the one read from the template's section with
      the object's status; when the template has no such section, the lookup
      fails with the template's lookup error. */
  lemma StateIgnoresMergedEnv(server: Server, items: seq<Resource>, template: Manifest,
                              entries: map<string, Value>)
    requires WellNamed(items)
    requires BuildSpec(template, entries).Success?
    requires DeployOutcome(server, items, BuildSpec(template, entries).value).0.Success?
    ensures
      var spec := BuildSpec(template, entries).value;
      var after := DeployOutcome(server, items, spec).1;
      && Find(after, spec.name).Some?
      && ("training_id" in entries ==> Lookup(Find(after, spec.name).value.body.env, "TRAINING_ID") == Some(entries["training_id"]))
      && Find(after, spec.name).value.body.predictor == template.predictor
      && ReadState(entries, Find(after, spec.name).value) ==
           ReadState(entries, Resource(template, Find(after, spec.name).value.status))
      && (template.predictor.env.Failure? ==>
            ReadState(entries, Find(after, spec.name).value) == Failure(template.predictor.env.error))
  {
    var spec := BuildSpec(template, entries).value;
    UpsertStoresSpec(server, items, spec, spec.name);
    if "training_id" in entries {
      MergeEnvOverride(template.env, entries, 1);
    }
  }

  // ---------------------------------------------------------------------
  // get_service_name

  /** `get_service_name`: the normalized deployment name, the first
      predictor's name and its graph's name, joined by '-'. */
  method ServiceName(params: Params, template: Manifest) returns (r: Result<string, Exception>)
    modifies params
    ensures params.entries ==
      if NormalizedName(old(params.entries)).Success?
      then old(params.entries)["deployment_name" := Str(NormalizedName(old(params.entries)).value)]
      else old(params.entries)
    ensures r.Success? <==>
      NormalizedName(old(params.entries)).Success? && template.predictor.name.Success? &&
      template.predictor.graphName.Success?
    ensures r.Success? ==>
      r.value == NormalizedName(old(params.entries)).value + "-" + template.predictor.name.value + "-" +
        template.predictor.graphName.value
  {
    var normalized := DeploymentName(params);
    if normalized.Failure? {
      return Failure(normalized.error);
    }
    var predictorName := template.predictor.name;
    if predictorName.Failure? {
      return Failure(predictorName.error);
    }
    var graphName := template.predictor.graphName;
    if graphName.Failure? {
      return Failure(graphName.error);
    }
    r := Success(normalized.value + "-" + predictorName.value + "-" + graphName.value);
  }

  // ---------------------------------------------------------------------
  // get_http_method

  /** `get_http_method`: the status-only flag wins, then the delete flag, then
      the upper-cased `__ow_method`, which defaults to "POST". */
  function HttpMethod(entries: map<string, Value>): (r: Result<string, Exception>)
    ensures Truthy(Get(entries, "check_status_only", Bool(false))) ==> r == Success("GET")
    ensures (!Truthy(Get(entries, "check_status_only", Bool(false))) &&
             Truthy(Get(entries, "delete_deployment", Bool(false)))) ==> r == Success("DELETE")
    ensures (!Truthy(Get(entries, "check_status_only", Bool(false))) &&
             !Truthy(Get(entries, "delete_deployment", Bool(false)))) ==>
      && ("__ow_method" !in entries ==> r == Success("POST"))
      && ("__ow_method" in entries && entries["__ow_method"].Str? ==>
            r == Success(Upper(entries["__ow_method"].s)))
      && ("__ow_method" in entries && !entries["__ow_method"].Str? ==>
            r == Failure(NoAttribute(entries["__ow_method"], "upper")))
    ensures r.Success? ==> forall i :: 0 <= i < |r.value| ==> !IsLower(r.value[i])
  {
    if Truthy(Get(entries, "check_status_only", Bool(false))) then Success("GET")
    else if Truthy(Get(entries, "delete_deployment", Bool(false))) then Success("DELETE")
    else
      assert Upper("POST") == "POST";
      match Get(entries, "__ow_method", Str("POST"))
      case Str(m) => Success(Upper(m))
      case v => Failure(NoAttribute(v, "upper"))
  }

  // ---------------------------------------------------------------------
  // run_safe

  const Upserts: set<string> := {"POST", "PATCH", "PUT"}

  /** The result of any request that raised `e`. */
  function ErrorResult(e: Exception, trace: string): (result: map<string, Value>)
  {
    map[
      "status" := Str("Error"),
      "details" := Obj(map["error" := Str(e.kind), "message" := Str(e.message), "trace" := Str(trace)])
    ]
  }

  /** The result of a deployment the store accepted with `reply`. */
  function DeployedResult(reply: map<string, Value>): map<string, Value>
  {
    map["deployment_status" := Str("deployed"), "details" := Obj(reply), "status" := Str("Success")]
  }

  /** The result of a request for an unknown method. */
  const FailedResult: map<string, Value> :=
    map["status" := Str("Failed"), "message" := Str("could not identify HTTP request method")]

  /** The result of a status request. */
  const UnknownResult: map<string, Value> :=
    map["deployment_status" := Str("UNKNOWN"), "status" := Str("Success")]

  /** How `run_safe` shapes the dict `delete_deployment` returned. */
  function DeleteResult(d: map<string, Value>, trace: string): (result: map<string, Value>)
    ensures "status" in result
    ensures "status" in d && "details" in d ==> result == map["status" := d["status"], "details" := d["details"]]
    ensures "status" !in d ==> result == ErrorResult(KeyError("status"), trace)
    ensures "status" in d && "details" !in d ==> result == ErrorResult(KeyError("details"), trace)
  {
    if "status" !in d then ErrorResult(KeyError("status"), trace)
    else if "details" !in d then ErrorResult(KeyError("details"), trace)
    else map["status" := d["status"], "details" := d["details"]]
  }

  /** `run_safe`: dispatch on the method and turn every outcome, exceptions
      included, into a dict with a "status". The traceback text is `trace`. */
  method RunSafe(params: Params, verb: string, template: Manifest, store: ObjectStore, trace: string)
    returns (result: map<string, Value>)
    requires store.Valid()
    modifies store
    ensures store.Valid()
    ensures "status" in result
    ensures verb == "GET" ==>
      result == UnknownResult && store.items == old(store.items) && store.log == old(store.log)
    ensures verb !in Upserts && verb != "GET" && verb != "DELETE" ==>
      result == FailedResult && store.items == old(store.items) && store.log == old(store.log)
    ensures verb in Upserts ==>
      match BuildSpec(template, params.entries)
      case Failure(e) =>
        result == ErrorResult(e, trace) && store.items == old(store.items) && store.log == old(store.log)
      case Success(spec) =>
        var o := DeployOutcome(store.server, old(store.items), spec);
        && result == (if o.0.Success? then DeployedResult(o.0.value) else ErrorResult(o.0.error, trace))
        && store.items == o.1 && store.log == old(store.log) + o.2
    ensures verb == "DELETE" ==>
      var o := DeleteOutcome(store.server, old(store.items), params.entries, template);
      && result == (if o.0.Success? then DeleteResult(o.0.value, trace) else ErrorResult(o.0.error, trace))
      && store.items == o.1 && store.log == old(store.log) + o.2
  {
    if verb in Upserts {
      if "deployment_name" !in params.entries {
        return ErrorResult(KeyError("deployment_name"), trace);
      }
      var spec := UpdateSpec(params, template);
      var deployed := DeploySpec(store, spec.value);
      if deployed.Failure? {
        return ErrorResult(deployed.error, trace);
      }
      result := map["deployment_status" := Str("deployed"), "details" := Obj(deployed.value)];
    } else if verb == "GET" {
      result := map["deployment_status" := Str("UNKNOWN")];
    } else if verb == "DELETE" {
      if "deployment_name" !in params.entries {
        return ErrorResult(KeyError("deployment_name"), trace);
      }
      var deleted := DeleteDeployment(params, template, store);
      if deleted.Failure? {
        return ErrorResult(deleted.error, trace);
      }
      var d := deleted.value;
      if "status" !in d {
        return ErrorResult(KeyError("status"), trace);
      }
      if "details" !in d {
        return ErrorResult(KeyError("details"), trace);
      }
      result := map["status" := d["status"], "details" := d["details"]];
    } else {
      result := map["status" := Str("Failed"), "message" := Str("could not identify HTTP request method")];
    }
    result := result["status" := Get(result, "status", Str("Success"))];
  }
}
