/** The speed-test parameters (`build_params` inside `auto_run_test`): each
    value parameter from the environment or the built-in default, each
    switch from the environment. */
module Params {
  import opened Wrappers
  import opened Text
  import opened Seqs
  import opened Files

  /** An insertion-ordered dictionary of value parameters. */
  type Values = seq<(string, string)>

  /** The value parameters the binary accepts, in the order they are read. */
  const VALUE_PARAMS: seq<string> := [
    "n", "t", "tp", "httping-code", "cfcolo",
    "dn", "dt", "url",
    "tl", "tll", "tlr", "sl",
    "p", "f", "ip", "o"
  ]

  /** The switches the binary accepts. */
  const FLAG_PARAMS: seq<string> := ["httping", "dd", "allip", "debug"]

  const DEFAULT_RESULT_CSV: string := "cfst_result.csv"

  /** `CUSTOM_PARAMS`: the built-in values, in declaration order. */
  const CUSTOM_PARAMS: Values := [
    ("f", "Cloudflare.txt"), ("dn", "10"), ("sl", "1"),
    ("tl", "1000"), ("o", DEFAULT_RESULT_CSV), ("n", "50")
  ]

  /** `CUSTOM_FLAG_PARAMS`: every built-in switch is off. */
  const CUSTOM_FLAG_PARAMS: seq<(string, bool)> := [
    ("httping", false), ("dd", false), ("allip", false), ("debug", false)
  ]

  /** `CUSTOM_FLAG_PARAMS.get(p, False)`. */
  function CustomFlag(p: string): bool {
    FlagDefault(CUSTOM_FLAG_PARAMS, p)
  }

  function FlagDefault(table: seq<(string, bool)>, p: string): bool {
    if table == [] then false
    else if table[0].0 == p then table[0].1
    else FlagDefault(table[1..], p)
  }

  /** The keys of a dictionary, in order. */
  function Keys(vs: Values): (r: seq<string>)
    ensures |r| == |vs|
  {
    if vs == [] then [] else [vs[0].0] + Keys(vs[1..])
  }

  /** `vs.get(k)`. */
  function Lookup(vs: Values, k: string): Option<string> {
    if vs == [] then None
    else if vs[0].0 == k then Some(vs[0].1)
    else Lookup(vs[1..], k)
  }

  /** `vs[k] = v`: an existing key keeps its place, a new one goes last. */
  function Put(vs: Values, k: string, v: string): Values {
    if vs == [] then [(k, v)]
    else if vs[0].0 == k then [(k, v)] + vs[1..]
    else [vs[0]] + Put(vs[1..], k, v)
  }

  /** `vs.pop(k, None)`. */
  function Pop(vs: Values, k: string): Values {
    if vs == [] then []
    else if vs[0].0 == k then Pop(vs[1..], k)
    else [vs[0]] + Pop(vs[1..], k)
  }

  /** A key is found exactly when it is listed. */
  lemma {:induction false} LookupKeys(vs: Values, k: string)
    ensures Lookup(vs, k).Some? <==> k in Keys(vs)
  {
    if vs != [] {
      LookupKeys(vs[1..], k);
    }
  }

  /** After `vs[k] = v`, `k` maps to `v` and every other key to what it did. */
  lemma {:induction false} PutLookup(vs: Values, k: string, v: string, j: string)
    ensures Lookup(Put(vs, k, v), j) == if j == k then Some(v) else Lookup(vs, j)
  {
    if vs != [] && vs[0].0 != k {
      PutLookup(vs[1..], k, v, j);
    }
  }

  /** `vs[k] = v` keeps the key order, adding a new key at the end. */
  lemma {:induction false} PutKeys(vs: Values, k: string, v: string)
    ensures k in Keys(vs) ==> Keys(Put(vs, k, v)) == Keys(vs)
    ensures k !in Keys(vs) ==> Keys(Put(vs, k, v)) == Keys(vs) + [k]
  {
    if vs != [] && vs[0].0 != k {
      PutKeys(vs[1..], k, v);
      assert Keys(vs) == [vs[0].0] + Keys(vs[1..]);
    }
  }

  /** After `vs.pop(k)`, `k` is gone and every other key maps to what it did. */
  lemma {:induction false} PopLookup(vs: Values, k: string, j: string)
    ensures Lookup(Pop(vs, k), j) == if j == k then None else Lookup(vs, j)
  {
    if vs != [] {
      PopLookup(vs[1..], k, j);
    }
  }

  /** `os.environ.get(p) or CUSTOM_PARAMS.get(p)`, kept (stripped) only
      when it is not blank. */
  function ResolveValue(env: Env, p: string): Option<string> {
    var v := if p in env && env[p] != "" then Some(env[p]) else Lookup(CUSTOM_PARAMS, p);
    if v.Some? && Strip(v.value) != "" then Some(Strip(v.value)) else None
  }

  /** The dictionary built by reading `names` in order. */
  function ResolveAll(names: seq<string>, env: Env): Values {
    if names == [] then []
    else
      var init := ResolveAll(names[..|names| - 1], env);
      var p := names[|names| - 1];
      match ResolveValue(env, p)
      case None => init
      case Some(v) => Put(init, p, v)
  }

  /** The value parameters `build_params` returns. */
  function ResolvedValues(env: Env): Values {
    ResolveAll(VALUE_PARAMS, env)
  }

  /** Whether switch `p` is on: `true`, `1` or `yes` (trimmed, any case)
      turns it on, `false` or `0` off, and anything else leaves the
      built-in setting. */
  function FlagOn(env: Env, p: string): bool {
    var ev := Lower(Strip(EnvGet(env, p)));
    if ev in {"true", "1", "yes"} then true
    else if ev in {"false", "0"} then false
    else CustomFlag(p)
  }

  /** The switches `build_params` returns. */
  function ResolvedFlags(env: Env): set<string> {
    set p | p in FLAG_PARAMS && FlagOn(env, p)
  }

  /** The value loop of `build_params` over `names`. */
  method ResolveEach(names: seq<string>, env: Env) returns (uv: Values)
    ensures uv == ResolveAll(names, env)
  {
    uv := [];
    for i := 0 to |names|
      invariant uv == ResolveAll(names[..i], env)
    {
      var p := names[i];
      assert names[..i + 1][..i] == names[..i];
      var v := if p in env && env[p] != "" then Some(env[p]) else Lookup(CUSTOM_PARAMS, p);
      if v.Some? && Strip(v.value) != "" {
        uv := Put(uv, p, Strip(v.value));
      }
    }
    assert names[..|names|] == names;
  }

  /** The switch loop of `build_params` over `names`. */
  method CollectFlags(names: seq<string>, env: Env) returns (uf: set<string>)
    ensures uf == set p | p in names && FlagOn(env, p)
  {
    uf := {};
    for i := 0 to |names|
      invariant uf == set p | p in names[..i] && FlagOn(env, p)
    {
      var p := names[i];
      var ev := Lower(Strip(EnvGet(env, p)));
      var on := false;
      if ev in {"true", "1", "yes"} {
        on := true;
      } else if ev in {"false", "0"} {
      } else if CustomFlag(p) {
        on := true;
      }
      OnFlagsStep(names, i, env);
      if on {
        uf := uf + {p};
      }
    }
    assert names[..|names|] == names;
  }

  /** Reading one more name adds it exactly when it is on. */
  lemma OnFlagsStep(names: seq<string>, i: nat, env: Env)
    requires i < |names|
    ensures (set p | p in names[..i + 1] && FlagOn(env, p))
      == (set p | p in names[..i] && FlagOn(env, p)) + (if FlagOn(env, names[i]) then {names[i]} else {})
  {
    assert names[..i + 1] == names[..i] + [names[i]];
  }

  /** `build_params()`. */
  method BuildParams(env: Env) returns (uv: Values, uf: set<string>)
    ensures uv == ResolvedValues(env) && uf == ResolvedFlags(env)
  {
    uv := ResolveEach(VALUE_PARAMS, env);
    uf := CollectFlags(FLAG_PARAMS, env);
  }

  // ----- properties -----

  /** The value parameters are distinct names. */
  lemma ValueParamsDistinct()
    ensures NoDup(VALUE_PARAMS)
  {
  }

  /** Reading distinct names gives each of them its resolved value and
      nothing else. */
  lemma {:induction false} ResolveAllLookup(names: seq<string>, env: Env, p: string)
    requires NoDup(names)
    ensures Lookup(ResolveAll(names, env), p) == if p in names then ResolveValue(env, p) else None
  {
    if names != [] {
      var init := names[..|names| - 1];
      var q := names[|names| - 1];
      assert NoDup(init);
      ResolveAllLookup(init, env, p);
      assert names == init + [q];
      if ResolveValue(env, q).Some? {
        PutLookup(ResolveAll(init, env), q, ResolveValue(env, q).value, p);
      }
    }
  }

  /** Reading distinct names lists each key once, in reading order, and
      only for names that resolve. */
  lemma {:induction false} ResolveAllKeys(names: seq<string>, env: Env)
    requires NoDup(names)
    ensures var ks := Keys(ResolveAll(names, env));
      NoDup(ks) && forall i :: 0 <= i < |ks| ==> ks[i] in names && ResolveValue(env, ks[i]).Some?
  {
    if names != [] {
      var init := names[..|names| - 1];
      var q := names[|names| - 1];
      assert NoDup(init);
      ResolveAllKeys(init, env);
      assert names == init + [q];
      var r0 := ResolveAll(init, env);
      if ResolveValue(env, q).Some? {
        var ks0 := Keys(r0);
        PutKeys(r0, q, ResolveValue(env, q).value);
        assert q !in init;
        assert q !in ks0;
        NoDupSnoc(ks0, q);
        var ks := Keys(ResolveAll(names, env));
        assert ks == ks0 + [q];
        forall i | 0 <= i < |ks| ensures ks[i] in names && ResolveValue(env, ks[i]).Some? {
          if i < |ks0| {
            assert ks[i] == ks0[i];
          }
        }
      } else {
        assert ResolveAll(names, env) == r0;
        forall i | 0 <= i < |Keys(r0)| ensures Keys(r0)[i] in names {
          assert Keys(r0)[i] in init;
        }
      }
    }
  }

  /** Every key is a known value parameter, appears once, and carries a
      stripped, non-empty value. */
  lemma ValuesWellFormed(env: Env)
    ensures var r := ResolvedValues(env);
      && NoDup(Keys(r))
      && (forall i :: 0 <= i < |r| ==> r[i].0 in VALUE_PARAMS)
      && (forall i :: 0 <= i < |r| ==> r[i].1 != "" && Strip(r[i].1) == r[i].1)
  {
    var r := ResolvedValues(env);
    ValueParamsDistinct();
    ResolveAllKeys(VALUE_PARAMS, env);
    forall i | 0 <= i < |r| ensures r[i].0 in VALUE_PARAMS && r[i].1 != "" && Strip(r[i].1) == r[i].1 {
      var k := r[i].0;
      KeysAt(r, i);
      KeysUnique(r, i);
      ResolveAllLookup(VALUE_PARAMS, env, k);
      var raw := if k in env && env[k] != "" then Some(env[k]) else Lookup(CUSTOM_PARAMS, k);
      StripIdempotent(raw.value);
    }
  }

  lemma {:induction false} KeysAt(vs: Values, i: nat)
    requires i < |vs|
    ensures Keys(vs)[i] == vs[i].0
  {
    if i > 0 {
      KeysAt(vs[1..], i - 1);
    }
  }

  /** With distinct keys, the lookup of an entry's key finds that entry. */
  lemma {:induction false} KeysUnique(vs: Values, i: nat)
    requires i < |vs| && NoDup(Keys(vs))
    ensures Lookup(vs, vs[i].0) == Some(vs[i].1)
  {
    if i > 0 {
      KeysAt(vs, i);
      assert Keys(vs)[0] == vs[0].0;
      assert Keys(vs)[0] != Keys(vs)[i];
      assert Keys(vs) == [vs[0].0] + Keys(vs[1..]);
      assert NoDup(Keys(vs[1..])) by {
        assert forall a :: 0 <= a < |vs| - 1 ==> Keys(vs[1..])[a] == Keys(vs)[a + 1];
      }
      KeysUnique(vs[1..], i - 1);
    }
  }

  /** With distinct names, the lookup finds the entry at the index returned. */
  lemma {:induction false} LookupEntry(vs: Values, k: string) returns (i: nat)
    requires Lookup(vs, k).Some?
    ensures i < |vs| && vs[i] == (k, Lookup(vs, k).value)
  {
    if vs[0].0 == k {
      i := 0;
    } else {
      var j := LookupEntry(vs[1..], k);
      i := j + 1;
    }
  }

  /** Every built-in value is a non-blank word. */
  lemma CustomValuesNotBlank(p: string)
    requires Lookup(CUSTOM_PARAMS, p).Some?
    ensures var v := Lookup(CUSTOM_PARAMS, p).value; v != "" && Strip(v) == v
  {
    var i := LookupEntry(CUSTOM_PARAMS, p);
    var v := CUSTOM_PARAMS[i].1;
    assert v in ["Cloudflare.txt", "10", "1", "1000", "cfst_result.csv", "50"];
    assert !IsSpace(v[0]) && !IsSpace(v[|v| - 1]);
    StripUnchanged(v);
  }

  /** The value `build_params` uses for each parameter: the environment's
      when it is set and not blank, the built-in one when the environment's
      is missing or empty, and none when the environment's is only
      whitespace, even where a built-in value exists. */
  lemma ValueResolution(env: Env, p: string)
    ensures p !in VALUE_PARAMS ==> Lookup(ResolvedValues(env), p) == None
    ensures p in VALUE_PARAMS && p in env && Strip(env[p]) != "" ==>
              Lookup(ResolvedValues(env), p) == Some(Strip(env[p]))
    ensures p in VALUE_PARAMS && (p !in env || env[p] == "") ==>
              Lookup(ResolvedValues(env), p) == Lookup(CUSTOM_PARAMS, p)
    ensures p in VALUE_PARAMS && p in env && env[p] != "" && Strip(env[p]) == "" ==>
              Lookup(ResolvedValues(env), p) == None
  {
    ValueParamsDistinct();
    ResolveAllLookup(VALUE_PARAMS, env, p);
    if p in VALUE_PARAMS && (p !in env || env[p] == "") && Lookup(CUSTOM_PARAMS, p).Some? {
      CustomValuesNotBlank(p);
    }
    if p in env && Strip(env[p]) != "" {
      assert env[p] != "";
    }
  }

  /** A switch is on exactly when the environment says `true`, `1` or `yes`
      (trimmed, any case), since no built-in switch is on; and only known
      switches are ever reported. */
  lemma FlagResolution(env: Env, p: string)
    ensures p in ResolvedFlags(env) <==> p in FLAG_PARAMS && Lower(Strip(EnvGet(env, p))) in {"true", "1", "yes"}
  {
    DefaultsOff(CUSTOM_FLAG_PARAMS, p);
    assert !CustomFlag(p);
  }

  /** A table whose every switch is off gives off for any name. */
  lemma {:induction false} DefaultsOff(table: seq<(string, bool)>, p: string)
    requires forall i :: 0 <= i < |table| ==> !table[i].1
    ensures !FlagDefault(table, p)
  {
    if table != [] && table[0].0 != p {
      DefaultsOff(table[1..], p);
    }
  }
}
