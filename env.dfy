/** The container environment of the deployment spec. app.py turns the
    template's env list into a dict (`{var["name"]: var["value"] ...}`),
    assigns the request's overrides into it and turns it back into a list; a
    Python dict keeps insertion order, so the dict is modelled as a sequence
    of entries with distinct names. */
module Env {
  import opened Values

  datatype EnvVar = EnvVar(name: string, value: Value)

  function Names(d: seq<EnvVar>): (r: seq<string>)
    ensures |r| == |d|
    ensures forall i :: 0 <= i < |d| ==> r[i] == d[i].name
  {
    seq(|d|, i requires 0 <= i < |d| => d[i].name)
  }

  predicate NoDup(s: seq<string>)
  {
    forall i, j :: 0 <= i < j < |s| ==> s[i] != s[j]
  }

  /** `d[k]`, or None when `k` is not a key. */
  function Lookup(d: seq<EnvVar>, k: string): Option<Value>
  {
    if d == [] then None
    else if d[0].name == k then Some(d[0].value)
    else Lookup(d[1..], k)
  }

  /** `d[k] = v`: an existing key keeps its position, a new key goes last. */
  function Put(d: seq<EnvVar>, k: string, v: Value): seq<EnvVar>
  {
    if d == [] then [EnvVar(k, v)]
    else if d[0].name == k then [EnvVar(k, v)] + d[1..]
    else [d[0]] + Put(d[1..], k, v)
  }

  lemma NamesCons(e: EnvVar, d: seq<EnvVar>)
    ensures Names([e] + d) == [e.name] + Names(d)
  {
  }

  lemma {:induction false} PutNames(d: seq<EnvVar>, k: string, v: Value)
    ensures Names(Put(d, k, v)) == if k in Names(d) then Names(d) else Names(d) + [k]
  {
    if d != [] {
      var t := Names(d[1..]);
      NamesCons(d[0], d[1..]);
      assert d == [d[0]] + d[1..];
      if d[0].name == k {
        NamesCons(EnvVar(k, v), d[1..]);
        assert Names(d)[0] == k;
      } else {
        var p := Put(d[1..], k, v);
        PutNames(d[1..], k, v);
        NamesCons(d[0], p);
        assert (k in Names(d)) == (k in t);
        if k !in t {
          assert [d[0].name] + (t + [k]) == ([d[0].name] + t) + [k];
        }
      }
    }
  }

  lemma {:induction false} PutLookup(d: seq<EnvVar>, k: string, v: Value, k': string)
    ensures Lookup(Put(d, k, v), k') == if k' == k then Some(v) else Lookup(d, k')
  {
    if d != [] && d[0].name != k {
      PutLookup(d[1..], k, v, k');
      assert Put(d, k, v)[1..] == Put(d[1..], k, v);
    }
  }

  lemma PutNoDup(d: seq<EnvVar>, k: string, v: Value)
    requires NoDup(Names(d))
    ensures NoDup(Names(Put(d, k, v)))
  {
    PutNames(d, k, v);
  }

  // ---------------------------------------------------------------------
  // The dict comprehension over the template's env list

  /** `{var["name"]: var["value"] for var in l}`. */
  function FromList(l: seq<EnvVar>): seq<EnvVar>
  {
    if l == [] then []
    else Put(FromList(l[..|l| - 1]), l[|l| - 1].name, l[|l| - 1].value)
  }

  /** Each name of `ns` once, in the order of its first occurrence. */
  function FirstOccurrences(ns: seq<string>): seq<string>
  {
    if ns == [] then []
    else
      var init := ns[..|ns| - 1];
      FirstOccurrences(init) + if ns[|ns| - 1] in init then [] else [ns[|ns| - 1]]
  }

  /** The value of the last entry of `l` named `k`. */
  function LastValue(l: seq<EnvVar>, k: string): Option<Value>
  {
    if l == [] then None
    else if l[|l| - 1].name == k then Some(l[|l| - 1].value)
    else LastValue(l[..|l| - 1], k)
  }

  lemma {:induction false} FirstOccurrencesMembers(ns: seq<string>)
    ensures forall x :: x in FirstOccurrences(ns) <==> x in ns
    ensures NoDup(FirstOccurrences(ns))
  {
    if ns != [] {
      var init := ns[..|ns| - 1];
      FirstOccurrencesMembers(init);
      assert ns == init + [ns[|ns| - 1]];
    }
  }

  /** The comprehension keeps each name once, at its first position, with the
      value of its last occurrence. */
  lemma {:induction false} FromListSpec(l: seq<EnvVar>)
    ensures Names(FromList(l)) == FirstOccurrences(Names(l))
    ensures NoDup(Names(FromList(l)))
    ensures forall k :: Lookup(FromList(l), k) == LastValue(l, k)
  {
    FirstOccurrencesMembers(Names(l));
    if l != [] {
      var init := l[..|l| - 1];
      var x := l[|l| - 1];
      FromListSpec(init);
      assert Names(init) == Names(l)[..|l| - 1];
      FirstOccurrencesMembers(Names(init));
      assert x.name in Names(FromList(init)) <==> x.name in Names(init);
      PutNames(FromList(init), x.name, x.value);
      PutNoDup(FromList(init), x.name, x.value);
      forall k ensures Lookup(FromList(l), k) == LastValue(l, k) {
        PutLookup(FromList(init), x.name, x.value, k);
      }
    }
  }

  // ---------------------------------------------------------------------
  // The if-chain of request overrides

  /** The request keys app.py looks for and the env var each one sets, in the
      order of its if-chain. */
  const Overrides: seq<(string, string)> := [
    ("model_file_name", "MODEL_FILE_NAME"),
    ("training_id", "TRAINING_ID"),
    ("training_results_bucket", "BUCKET_NAME"),
    ("endpoint_url", "BUCKET_ENDPOINT_URL"),
    ("access_key_id", "BUCKET_KEY"),
    ("secret_access_key", "BUCKET_SECRET"),
    ("model_class_name", "MODEL_CLASS_NAME"),
    ("model_class_file", "MODEL_CLASS_FILE")
  ]

  function Targets(table: seq<(string, string)>): (r: seq<string>)
    ensures |r| == |table|
    ensures forall i :: 0 <= i < |table| ==> r[i] == table[i].1
  {
    seq(|table|, i requires 0 <= i < |table| => table[i].1)
  }

  lemma OverrideTargetsDistinct()
    ensures NoDup(Targets(Overrides))
  {
    assert Targets(Overrides) == ["MODEL_FILE_NAME", "TRAINING_ID", "BUCKET_NAME",
      "BUCKET_ENDPOINT_URL", "BUCKET_KEY", "BUCKET_SECRET", "MODEL_CLASS_NAME", "MODEL_CLASS_FILE"];
  }

  /** `if key in params: d[target] = params[key]` for each row of `table`, in order. */
  function Override(d: seq<EnvVar>, params: map<string, Value>, table: seq<(string, string)>): seq<EnvVar>
  {
    if table == [] then d
    else
      var prev := Override(d, params, table[..|table| - 1]);
      var (key, target) := table[|table| - 1];
      if key in params then Put(prev, target, params[key]) else prev
  }

  /** The request value the last row setting `k` assigns, if any row does. */
  function SetBy(params: map<string, Value>, table: seq<(string, string)>, k: string): Option<Value>
  {
    if table == [] then None
    else
      var (key, target) := table[|table| - 1];
      if target == k && key in params then Some(params[key])
      else SetBy(params, table[..|table| - 1], k)
  }

  /** The targets the chain adds to a dict with names `ns`, in chain order. */
  function NewNames(ns: seq<string>, params: map<string, Value>, table: seq<(string, string)>): seq<string>
  {
    if table == [] then []
    else
      var (key, target) := table[|table| - 1];
      NewNames(ns, params, table[..|table| - 1]) +
        if key in params && target !in ns then [target] else []
  }

  lemma {:induction false} OverrideLookup(d: seq<EnvVar>, params: map<string, Value>, table: seq<(string, string)>, k: string)
    ensures Lookup(Override(d, params, table), k) ==
      if SetBy(params, table, k).Some? then SetBy(params, table, k) else Lookup(d, k)
  {
    if table != [] {
      var (key, target) := table[|table| - 1];
      OverrideLookup(d, params, table[..|table| - 1], k);
      if key in params {
        PutLookup(Override(d, params, table[..|table| - 1]), target, params[key], k);
      }
    }
  }

  lemma {:induction false} NewNamesAreTargets(ns: seq<string>, params: map<string, Value>, table: seq<(string, string)>)
    ensures forall x :: x in NewNames(ns, params, table) ==> x in Targets(table) && x !in ns
  {
    if table != [] {
      NewNamesAreTargets(ns, params, table[..|table| - 1]);
      assert Targets(table[..|table| - 1]) == Targets(table)[..|table| - 1];
    }
  }

  lemma {:induction false} NewNamesMembership(ns: seq<string>, ms: seq<string>, params: map<string, Value>, table: seq<(string, string)>)
    requires forall x :: x in ns <==> x in ms
    ensures NewNames(ns, params, table) == NewNames(ms, params, table)
  {
    if table != [] {
      NewNamesMembership(ns, ms, params, table[..|table| - 1]);
    }
  }

  /** With distinct targets, the chain keeps every existing name where it is
      and appends the names it adds in chain order, so names stay distinct. */
  lemma {:induction false} OverrideNames(d: seq<EnvVar>, params: map<string, Value>, table: seq<(string, string)>)
    requires NoDup(Targets(table))
    ensures Names(Override(d, params, table)) == Names(d) + NewNames(Names(d), params, table)
    ensures NoDup(Names(d)) ==> NoDup(Names(Override(d, params, table)))
  {
    if table != [] {
      var init := table[..|table| - 1];
      var (key, target) := table[|table| - 1];
      var prev := Override(d, params, init);
      assert Targets(init) == Targets(table)[..|table| - 1];
      OverrideNames(d, params, init);
      if key in params {
        PutNames(prev, target, params[key]);
        NewNamesAreTargets(Names(d), params, init);
        assert target !in NewNames(Names(d), params, init) by {
          assert Targets(table)[|table| - 1] == target;
        }
        if NoDup(Names(d)) { PutNoDup(prev, target, params[key]); }
      }
    }
  }

  lemma {:induction false} SetByRow(params: map<string, Value>, table: seq<(string, string)>, i: nat)
    requires NoDup(Targets(table))
    requires i < |table| && table[i].0 in params
    ensures SetBy(params, table, table[i].1) == Some(params[table[i].0])
  {
    var n := |table| - 1;
    if i < n {
      assert Targets(table[..n]) == Targets(table)[..n];
      assert table[n].1 != table[i].1 by { assert Targets(table)[i] != Targets(table)[n]; }
      SetByRow(params, table[..n], i);
    }
  }

  lemma {:induction false} SetByUnset(params: map<string, Value>, table: seq<(string, string)>, k: string)
    requires forall i :: 0 <= i < |table| && table[i].1 == k ==> table[i].0 !in params
    ensures SetBy(params, table, k) == None
  {
    if table != [] {
      SetByUnset(params, table[..|table| - 1], k);
    }
  }

  // ---------------------------------------------------------------------
  // The whole merge

  /** The env list of the deployment spec: the template's list through the
      dict, then the request overrides. */
  function MergeEnv(template: seq<EnvVar>, params: map<string, Value>): seq<EnvVar>
  {
    Override(FromList(template), params, Overrides)
  }

  /** Order: template names once each, at their first position, then the names
      the request adds, in if-chain order; no name twice. */
  lemma MergeEnvNames(template: seq<EnvVar>, params: map<string, Value>)
    ensures Names(MergeEnv(template, params)) ==
      FirstOccurrences(Names(template)) + NewNames(Names(template), params, Overrides)
    ensures NoDup(Names(MergeEnv(template, params)))
  {
    FromListSpec(template);
    FirstOccurrencesMembers(Names(template));
    OverrideTargetsDistinct();
    OverrideNames(FromList(template), params, Overrides);
    NewNamesMembership(FirstOccurrences(Names(template)), Names(template), params, Overrides);
  }

  /** Every request key present sets its env var. */
  lemma MergeEnvOverride(template: seq<EnvVar>, params: map<string, Value>, i: nat)
    requires i < |Overrides| && Overrides[i].0 in params
    ensures Lookup(MergeEnv(template, params), Overrides[i].1) == Some(params[Overrides[i].0])
  {
    OverrideTargetsDistinct();
    SetByRow(params, Overrides, i);
    OverrideLookup(FromList(template), params, Overrides, Overrides[i].1);
  }

  /** A var no present request key sets keeps the template's (last) value, or
      stays absent. */
  lemma MergeEnvKeep(template: seq<EnvVar>, params: map<string, Value>, k: string)
    requires forall i :: 0 <= i < |Overrides| && Overrides[i].1 == k ==> Overrides[i].0 !in params
    ensures Lookup(MergeEnv(template, params), k) == LastValue(template, k)
  {
    SetByUnset(params, Overrides, k);
    OverrideLookup(FromList(template), params, Overrides, k);
    FromListSpec(template);
  }
}
