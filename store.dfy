/** The API server's store of InferenceService objects, reached through the
    Kubernetes client's custom-objects API (list, get, create, patch and
    delete of namespaced custom objects). The store holds the objects of one
    collection and records every call issued to it. */
module Store {
  import opened Values
  import opened Manifests

  /** A stored object: its document and its `status` dict, when it has one. */
  datatype Resource = Resource(body: Manifest, status: Option<map<string, Value>>)

  /** A call to the custom-objects API. */
  datatype Call =
    | ListCall(at: Coords)
    | GetCall(at: Coords, name: string)
    | CreateCall(at: Coords, body: Manifest)
    | PatchCall(at: Coords, name: string, body: Manifest)
    | DeleteCall(at: Coords, name: string)

  /** What the server answers that the model does not derive: the calls it
      refuses (unreachable server, failed authentication, rejected body, ...)
      with the exception the client raises, and the decoded reply body of a
      create, patch or delete it carries out. */
  datatype Server = Server(refuses: Call -> Option<Exception>, answer: Call -> map<string, Value>)

  /** An error status the server itself returns. */
  function ApiError(reason: string): Exception
  {
    Exception("ApiException", reason)
  }

  /** `[d["metadata"]["name"] for d in items]`. */
  function ObjectNames(items: seq<Resource>): (r: seq<Value>)
    ensures |r| == |items|
    ensures forall i :: 0 <= i < |items| ==> r[i] == items[i].body.name
  {
    seq(|items|, i requires 0 <= i < |items| => items[i].body.name)
  }

  /** Object names are strings and no two objects share one. */
  predicate WellNamed(items: seq<Resource>)
  {
    && (forall i :: 0 <= i < |items| ==> items[i].body.name.Str?)
    && (forall i, j :: 0 <= i < j < |items| ==> items[i].body.name != items[j].body.name)
  }

  /** The object named `name`, if there is one. */
  function Find(items: seq<Resource>, name: Value): Option<Resource>
  {
    if items == [] then None
    else if items[0].body.name == name then Some(items[0])
    else Find(items[1..], name)
  }

  /** The objects after deleting the one named `name`. */
  function Remove(items: seq<Resource>, name: Value): seq<Resource>
  {
    if items == [] then []
    else if items[0].body.name == name then items[1..]
    else [items[0]] + Remove(items[1..], name)
  }

  /** The objects after patching the one named `name` with `body`: the body is
      replaced (it keeps its name) and the status stays. */
  function PatchItems(items: seq<Resource>, name: string, body: Manifest): seq<Resource>
  {
    if items == [] then []
    else if items[0].body.name == Str(name) then [Resource(body.(name := Str(name)), items[0].status)] + items[1..]
    else [items[0]] + PatchItems(items[1..], name, body)
  }

  lemma ObjectNamesHead(items: seq<Resource>)
    requires items != []
    ensures ObjectNames(items) == [items[0].body.name] + ObjectNames(items[1..])
  {
  }

  lemma {:induction false} FindSpec(items: seq<Resource>, name: Value)
    ensures Find(items, name).Some? <==> name in ObjectNames(items)
    ensures Find(items, name).Some? ==> Find(items, name).value in items && Find(items, name).value.body.name == name
  {
    if items != [] {
      FindSpec(items[1..], name);
      ObjectNamesHead(items);
    }
  }

  /** Deleting keeps the names distinct. */
  lemma {:induction false} RemoveWellNamed(items: seq<Resource>, name: Value)
    requires WellNamed(items)
    ensures WellNamed(Remove(items, name))
  {
    if items != [] && items[0].body.name != name {
      var rest := Remove(items[1..], name);
      RemoveWellNamed(items[1..], name);
      RemoveKeeps(items[1..], name);
      forall j | 0 <= j < |rest| ensures rest[j].body.name != items[0].body.name {
        assert rest[j] in items[1..];
        var m :| 0 <= m < |items| - 1 && items[1..][m] == rest[j];
        assert items[m + 1] == rest[j];
      }
      assert Remove(items, name) == [items[0]] + rest;
    }
  }

  /** Deleting removes exactly the named object and keeps the names distinct. */
  lemma {:induction false} RemoveSpec(items: seq<Resource>, name: Value, other: Value)
    requires WellNamed(items)
    ensures WellNamed(Remove(items, name))
    ensures Find(Remove(items, name), other) == if other == name then None else Find(items, other)
  {
    RemoveWellNamed(items, name);
    if items != [] {
      RemoveSpec(items[1..], name, other);
      if items[0].body.name == name && other == name {
        FindSpec(items[1..], name);
        assert name !in ObjectNames(items[1..]);
      }
    }
  }

  lemma {:induction false} RemoveKeeps(items: seq<Resource>, name: Value)
    ensures forall r :: r in Remove(items, name) ==> r in items
  {
    if items != [] {
      RemoveKeeps(items[1..], name);
    }
  }

  /** Patching changes the named object only: its body becomes the patch under
      the same name, its status stays; names are unchanged. */
  lemma {:induction false} PatchSpec(items: seq<Resource>, name: string, body: Manifest, other: Value)
    ensures ObjectNames(PatchItems(items, name, body)) == ObjectNames(items)
    ensures Find(PatchItems(items, name, body), other) ==
      if other == Str(name) && Find(items, other).Some?
      then Some(Resource(body.(name := Str(name)), Find(items, other).value.status))
      else Find(items, other)
  {
    if items != [] {
      PatchSpec(items[1..], name, body, other);
      assert PatchItems(items, name, body)[1..] == if items[0].body.name == Str(name) then items[1..] else PatchItems(items[1..], name, body);
    }
  }

  /** Creating adds the object at the end. */
  lemma {:induction false} AppendSpec(items: seq<Resource>, r: Resource, other: Value)
    requires r.body.name !in ObjectNames(items)
    ensures Find(items + [r], other) == if other == r.body.name then Some(r) else Find(items, other)
  {
    if items != [] {
      AppendSpec(items[1..], r, other);
      assert (items + [r])[1..] == items[1..] + [r];
      ObjectNamesHead(items);
    } else {
      assert ([] + [r])[1..] == [];
    }
  }

  /** What the server does with a create, patch or delete call on `before`:
      its reply or error, and the objects afterwards. */
  function Effect(server: Server, call: Call, before: seq<Resource>): (Result<map<string, Value>, Exception>, seq<Resource>)
    requires call.CreateCall? || call.PatchCall? || call.DeleteCall?
  {
    if server.refuses(call).Some? then (Failure(server.refuses(call).value), before)
    else match call
      case CreateCall(_, body) =>
        if !body.name.Str? then (Failure(ApiError("Unprocessable Entity")), before)
        else if body.name in ObjectNames(before) then (Failure(ApiError("Conflict")), before)
        else (Success(server.answer(call)), before + [Resource(body, None)])
      case PatchCall(_, name, body) =>
        if Str(name) !in ObjectNames(before) then (Failure(ApiError("Not Found")), before)
        else (Success(server.answer(call)), PatchItems(before, name, body))
      case DeleteCall(_, name) =>
        if Str(name) !in ObjectNames(before) then (Failure(ApiError("Not Found")), before)
        else (Success(server.answer(call)), Remove(before, Str(name)))
  }

  /** Every call keeps the names distinct; a refused call changes nothing; a
      call carried out changes the object it names and no other. */
  lemma EffectSpec(server: Server, call: Call, before: seq<Resource>, other: Value)
    requires call.CreateCall? || call.PatchCall? || call.DeleteCall?
    requires WellNamed(before)
    ensures WellNamed(Effect(server, call, before).1)
    ensures Effect(server, call, before).0.Failure? ==> Effect(server, call, before).1 == before
    ensures Effect(server, call, before).0.Success? ==>
      var after := Effect(server, call, before).1;
      match call
      case CreateCall(_, body) =>
        Find(after, other) == if other == body.name then Some(Resource(body, None)) else Find(before, other)
      case PatchCall(_, name, body) =>
        && Find(before, Str(name)).Some?
        && Find(after, other) ==
          if other == Str(name) then Some(Resource(body.(name := Str(name)), Find(before, other).value.status))
          else Find(before, other)
      case DeleteCall(_, name) =>
        Find(after, other) == if other == Str(name) then None else Find(before, other)
  {
    if server.refuses(call).None? {
      match call
      case CreateCall(_, body) =>
        if body.name.Str? && body.name !in ObjectNames(before) {
          CreateSpec(before, body, other);
        }
      case PatchCall(_, name, body) =>
        if Str(name) in ObjectNames(before) {
          PatchKeepsNames(before, name, body, other);
        }
      case DeleteCall(_, name) =>
        if Str(name) in ObjectNames(before) {
          RemoveSpec(before, Str(name), other);
        }
    }
  }

  lemma CreateSpec(before: seq<Resource>, body: Manifest, other: Value)
    requires WellNamed(before) && body.name.Str? && body.name !in ObjectNames(before)
    ensures WellNamed(before + [Resource(body, None)])
    ensures Find(before + [Resource(body, None)], other) ==
      if other == body.name then Some(Resource(body, None)) else Find(before, other)
  {
    AppendSpec(before, Resource(body, None), other);
    forall i | 0 <= i < |before| ensures before[i].body.name != body.name {
      assert before[i].body.name == ObjectNames(before)[i];
    }
  }

  lemma PatchKeepsNames(before: seq<Resource>, name: string, body: Manifest, other: Value)
    requires WellNamed(before) && Str(name) in ObjectNames(before)
    ensures WellNamed(PatchItems(before, name, body))
    ensures Find(before, Str(name)).Some?
    ensures Find(PatchItems(before, name, body), other) ==
      if other == Str(name) then Some(Resource(body.(name := Str(name)), Find(before, other).value.status))
      else Find(before, other)
  {
    var after := PatchItems(before, name, body);
    PatchSpec(before, name, body, other);
    FindSpec(before, Str(name));
    forall i | 0 <= i < |after| ensures after[i].body.name == before[i].body.name {
      assert ObjectNames(after)[i] == ObjectNames(before)[i];
    }
  }

  class ObjectStore {
    var items: seq<Resource>
    var log: seq<Call>
    const server: Server

    ghost predicate Valid()
      reads this
    {
      WellNamed(items)
    }

    constructor (items: seq<Resource>, server: Server)
      requires WellNamed(items)
      ensures Valid()
      ensures this.items == items && this.log == [] && this.server == server
    {
      this.items := items;
      this.log := [];
      this.server := server;
    }

    /** `list_namespaced_custom_object`: the objects, unless the call is refused. */
    method List(at: Coords) returns (r: Result<seq<Resource>, Exception>)
      modifies this`log
      ensures log == old(log) + [ListCall(at)]
      ensures r == if server.refuses(ListCall(at)).Some? then Failure(server.refuses(ListCall(at)).value) else Success(items)
    {
      log := log + [ListCall(at)];
      var refused := server.refuses(ListCall(at));
      if refused.Some? {
        r := Failure(refused.value);
      } else {
        r := Success(items);
      }
    }

    /** `get_namespaced_custom_object`: the named object, or an error. */
    method Get(at: Coords, name: string) returns (r: Result<Resource, Exception>)
      modifies this`log
      ensures log == old(log) + [GetCall(at, name)]
      ensures server.refuses(GetCall(at, name)).Some? ==> r == Failure(server.refuses(GetCall(at, name)).value)
      ensures server.refuses(GetCall(at, name)).None? ==>
        r == match Find(items, Str(name))
             case Some(obj) => Success(obj)
             case None => Failure(ApiError("Not Found"))
    {
      log := log + [GetCall(at, name)];
      var refused := server.refuses(GetCall(at, name));
      if refused.Some? {
        r := Failure(refused.value);
      } else {
        var found := Find(items, Str(name));
        r := if found.Some? then Success(found.value) else Failure(ApiError("Not Found"));
      }
    }

    /** `create_`, `patch_` or `delete_namespaced_custom_object`. */
    method Apply(call: Call) returns (r: Result<map<string, Value>, Exception>)
      requires call.CreateCall? || call.PatchCall? || call.DeleteCall?
      requires Valid()
      modifies this`items, this`log
      ensures Valid()
      ensures log == old(log) + [call]
      ensures (r, items) == Effect(server, call, old(items))
    {
      EffectSpec(server, call, items, Null);
      log := log + [call];
      var (reply, after) := Effect(server, call, items);
      r, items := reply, after;
    }
  }
}
