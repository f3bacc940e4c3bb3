/** The InferenceService document app.py reads from its template and submits
    to the API server, the resource coordinates it derives from it, and the
    spec it builds for a deployment request. */
module Manifests {
  import opened Values
  import opened Ascii
  import opened Env

  /** What a document holds under `spec.predictors[0]` (a section the status
      lookup and the service name read): each field is the value found at its
      path, or the exception the lookup along that path raises. */
  datatype PredictorView = PredictorView(
    name: Result<string, Exception>,             // spec.predictors[0].name
    graphName: Result<string, Exception>,        // spec.predictors[0].graph.name
    env: Result<seq<EnvVar>, Exception>)         // ...componentSpecs[0].spec.containers[0].env

  /** An InferenceService document: the template, a spec built from it, or the
      body of a stored object. */
  datatype Manifest = Manifest(
    apiVersion: string,
    kind: string,
    name: Value,                 // metadata.name
    image: Value,                // spec.default.custom.container.image
    env: seq<EnvVar>,            // spec.default.custom.container.env
    predictor: PredictorView)

  /** The namespace every call uses. */
  const Namespace := "default"

  /** Where the custom objects live: group, version, namespace and plural. */
  datatype Coords = Coords(group: string, version: string, namespace: string, plural: string)

  /** Python's `s.split(sep)`. */
  function Split(s: string, sep: char): (parts: seq<string>)
    ensures |parts| >= 1
  {
    if s == [] then [""]
    else
      var rest := Split(s[1..], sep);
      if s[0] == sep then [""] + rest else [[s[0]] + rest[0]] + rest[1..]
  }

  /** `sep.join(parts)`. */
  function Join(parts: seq<string>, sep: char): string
    requires |parts| >= 1
  {
    if |parts| == 1 then parts[0] else parts[0] + [sep] + Join(parts[1..], sep)
  }

  function Count(s: string, c: char): nat
  {
    if s == [] then 0 else (if s[0] == c then 1 else 0) + Count(s[1..], c)
  }

  /** Splitting cuts at every separator: joining the parts gives the string
      back, there is one part more than separators, and no part holds one. */
  lemma {:induction false} SplitSpec(s: string, sep: char)
    ensures Join(Split(s, sep), sep) == s
    ensures |Split(s, sep)| == Count(s, sep) + 1
    ensures forall i :: 0 <= i < |Split(s, sep)| ==> sep !in Split(s, sep)[i]
  {
    if s != [] {
      var rest := Split(s[1..], sep);
      SplitSpec(s[1..], sep);
      var parts := Split(s, sep);
      if s[0] == sep {
        assert parts[1..] == rest;
      } else {
        assert parts[0] == [s[0]] + rest[0];
        assert parts[1..] == rest[1..];
        if |rest| > 1 {
          assert Join(parts, sep) == [s[0]] + (rest[0] + [sep] + Join(rest[1..], sep));
        }
        forall i | 0 <= i < |parts| ensures sep !in parts[i] {
          if i > 0 { assert parts[i] == rest[i]; }
        }
      }
    }
  }

  /** A string without the separator prefixed to another splits off as one part. */
  lemma {:induction false} SplitAfter(g: string, sep: char, t: string)
    requires sep !in g
    ensures Split(g + [sep] + t, sep) == [g] + Split(t, sep)
  {
    if g != [] {
      SplitAfter(g[1..], sep, t);
      var s := g + [sep] + t;
      assert s[0] == g[0] && g[0] != sep;
      assert s[1..] == g[1..] + [sep] + t;
      var rest := Split(s[1..], sep);
      assert rest[0] == g[1..] && rest[1..] == Split(t, sep);
      assert [s[0]] + rest[0] == g;
    } else {
      assert (g + [sep] + t)[1..] == t;
    }
  }

  lemma {:induction false} SplitWithout(s: string, sep: char)
    requires sep !in s
    ensures Split(s, sep) == [s]
  {
    if s != [] {
      SplitWithout(s[1..], sep);
      assert s[0] != sep;
      assert [s[0]] + s[1..] == s;
    }
  }

  /** `group, version = api_version.split("/")`: two-value unpacking of the split. */
  function GroupVersion(apiVersion: string): Result<(string, string), Exception>
  {
    var parts := Split(apiVersion, '/');
    if |parts| < 2 then Failure(Exception("ValueError", "not enough values to unpack (expected 2, got 1)"))
    else if |parts| > 2 then Failure(Exception("ValueError", "too many values to unpack (expected 2)"))
    else Success((parts[0], parts[1]))
  }

  /** The unpacking succeeds exactly when the apiVersion holds one '/', and
      then yields the text on either side of it. */
  lemma GroupVersionSpec(apiVersion: string)
    ensures GroupVersion(apiVersion).Success? <==> Count(apiVersion, '/') == 1
    ensures Count(apiVersion, '/') == 0 ==>
      GroupVersion(apiVersion) == Failure(Exception("ValueError", "not enough values to unpack (expected 2, got 1)"))
    ensures Count(apiVersion, '/') > 1 ==>
      GroupVersion(apiVersion) == Failure(Exception("ValueError", "too many values to unpack (expected 2)"))
    ensures GroupVersion(apiVersion).Success? ==>
      var (group, version) := GroupVersion(apiVersion).value;
      group + "/" + version == apiVersion && '/' !in group && '/' !in version
  {
    SplitSpec(apiVersion, '/');
    var parts := Split(apiVersion, '/');
    if |parts| == 2 {
      assert Join(parts[1..], '/') == parts[1];
    }
  }

  /** The other direction: joining a group and a version with '/' and
      unpacking gives them back. */
  lemma GroupVersionRoundTrip(group: string, version: string)
    requires '/' !in group && '/' !in version
    ensures GroupVersion(group + "/" + version) == Success((group, version))
  {
    SplitAfter(group, '/', version);
    SplitWithout(version, '/');
  }

  /** The resource plural: `kind.lower() + "s"`. */
  function Plural(kind: string): string
  {
    Lower(kind) + "s"
  }

  /** The coordinates app.py derives from a document. */
  function CoordsOf(m: Manifest): (r: Result<Coords, Exception>)
    ensures r.Success? <==> Count(m.apiVersion, '/') == 1
    ensures r.Success? ==>
      && r.value.group + "/" + r.value.version == m.apiVersion
      && r.value.namespace == "default"
      && r.value.plural == Lower(m.kind) + "s"
  {
    GroupVersionSpec(m.apiVersion);
    match GroupVersion(m.apiVersion)
    case Failure(e) => Failure(e)
    case Success((group, version)) => Success(Coords(group, version, Namespace, Plural(m.kind)))
  }

  /** The spec `update_kfserving_spec` builds from the template for a request. */
  function BuildSpec(template: Manifest, params: map<string, Value>): (r: Result<Manifest, Exception>)
    ensures "deployment_name" !in params ==> r == Failure(KeyError("deployment_name"))
    ensures "deployment_name" in params ==> r.Success? && r.value.name == params["deployment_name"]
    ensures r.Success? ==>
      r.value.image == if "container_image" in params then params["container_image"] else template.image
    ensures r.Success? ==>
      && r.value.apiVersion == template.apiVersion
      && r.value.kind == template.kind
      && r.value.predictor == template.predictor
      && r.value.env == MergeEnv(template.env, params)
  {
    if "deployment_name" !in params then Failure(KeyError("deployment_name"))
    else
      Success(template.(
        name := params["deployment_name"],
        image := Get(params, "container_image", template.image),
        env := MergeEnv(template.env, params)))
  }
}
