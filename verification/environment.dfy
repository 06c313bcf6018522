/** The child's environment: one operation log read by three loops (command.rs, policy.rs). */
module Environment {
  import opened Base

  type Key = string
  type Value = string
  type Vars = map<Key, Value>

  const PATH: Key := "PATH"

  datatype EnvOp = Set(key: Key, value: Value) | Remove(key: Key)

  datatype EnvironmentPolicy = Clean | Allowlist(keys: set<Key>) | InheritAll {
    predicate Allows(key: Key) {
      match this
      case Clean => false
      case Allowlist(keys) => key in keys
      case InheritAll => true
    }
  }

  /** What matters of a program path for lookup. */
  datatype Program = Program(absolute: bool, components: nat)

  // ---------------------------------------------------------------------------------------------
  // What the log means, operation by operation and key by key.

  /** The part of the parent environment a policy lets through. */
  function Filtered(policy: EnvironmentPolicy, parent: Vars): Vars {
    map key | key in parent && policy.Allows(key) :: parent[key]
  }

  /** The three policies: nothing, the named keys that exist, everything. */
  lemma PoliciesLetThrough(keys: set<Key>, parent: Vars, key: Key)
    ensures Filtered(Clean, parent) == map[]
    ensures Filtered(InheritAll, parent) == parent
    ensures key in Filtered(Allowlist(keys), parent) <==> key in keys && key in parent
    ensures key in Filtered(Allowlist(keys), parent) ==> Filtered(Allowlist(keys), parent)[key] == parent[key]
  {
  }

  /** The operation that decides a key: the last one to name it. */
  function Deciding(ops: seq<EnvOp>, key: Key): Option<EnvOp>
    decreases |ops|
  {
    if ops == [] then None
    else if ops[|ops| - 1].key == key then Some(ops[|ops| - 1])
    else Deciding(ops[..|ops| - 1], key)
  }

  /** The value a key must have in the child, if any. */
  function Expected(policy: EnvironmentPolicy, parent: Vars, ops: seq<EnvOp>, key: Key): Option<Value> {
    match Deciding(ops, key)
    case Some(Set(_, value)) => Some(value)
    case Some(Remove(_)) => None
    case None => if key in Filtered(policy, parent) then Some(parent[key]) else None
  }

  /** `effective` describes exactly the keys the log names, each by its deciding operation. */
  ghost predicate Describes(effective: map<Key, Option<Value>>, ops: seq<EnvOp>) {
    forall key :: (key in effective <==> Deciding(ops, key).Some?) &&
      (key in effective ==>
        effective[key] == (if Deciding(ops, key).value.Set? then Some(Deciding(ops, key).value.value) else None))
  }

  ghost predicate Matches(env: Vars, policy: EnvironmentPolicy, parent: Vars, ops: seq<EnvOp>) {
    forall key :: (key in env <==> Expected(policy, parent, ops, key).Some?) &&
      (key in env ==> Some(env[key]) == Expected(policy, parent, ops, key))
  }

  /** An effective view laid over a base environment. */
  function Overlay(base: Vars, effective: map<Key, Option<Value>>): Vars {
    map key | key in base.Keys + effective.Keys && (key in effective ==> effective[key].Some?) ::
      if key in effective then effective[key].value else base[key]
  }

  lemma DecidingOneMore(ops: seq<EnvOp>, op: EnvOp, key: Key)
    ensures Deciding(ops + [op], key) == (if op.key == key then Some(op) else Deciding(ops, key))
  {
    assert (ops + [op])[..|ops + [op]| - 1] == ops;
  }

  /** The deciding operation, by position. */
  lemma {:induction false} DecidingIsTheLast(ops: seq<EnvOp>, key: Key)
    ensures Deciding(ops, key).None? <==> forall i :: 0 <= i < |ops| ==> ops[i].key != key
    ensures Deciding(ops, key).Some? ==>
              exists i :: 0 <= i < |ops| && ops[i] == Deciding(ops, key).value && ops[i].key == key &&
                forall j :: i < j < |ops| ==> ops[j].key != key
    decreases |ops|
  {
    if ops != [] && ops[|ops| - 1].key != key {
      DecidingIsTheLast(ops[..|ops| - 1], key);
    }
  }

  /**
   * The agreement the three loops owe each other: an environment that replays the log over the
   * filtered parent is the filtered parent overlaid with the effective view.
   */
  lemma ReplayIsOverlay(env: Vars, policy: EnvironmentPolicy, parent: Vars, ops: seq<EnvOp>,
                        effective: map<Key, Option<Value>>)
    requires Matches(env, policy, parent, ops) && Describes(effective, ops)
    ensures env == Overlay(Filtered(policy, parent), effective)
  {
    var overlaid := Overlay(Filtered(policy, parent), effective);
    forall key
      ensures key in env <==> key in overlaid
      ensures key in env ==> env[key] == overlaid[key]
    {
      assert key in env <==> Expected(policy, parent, ops, key).Some?;
      assert key in effective <==> Deciding(ops, key).Some?;
    }
  }

  // ---------------------------------------------------------------------------------------------
  // The process builder (the environment part of `std::process::Command`).

  class ProcessBuilder {
    var cleared: bool
    var vars: map<Key, Option<Value>>

    /** The environment a child spawned now would get. */
    function Captured(parent: Vars): Vars
      reads this
    {
      Overlay(if cleared then map[] else parent, vars)
    }

    constructor ()
      ensures !cleared && vars == map[]
    {
      cleared, vars := false, map[];
    }

    method EnvClear()
      modifies this
      ensures cleared && vars == map[]
    {
      cleared, vars := true, map[];
    }

    method Env(key: Key, value: Value)
      modifies this`vars
      ensures vars == old(vars)[key := Some(value)]
    {
      vars := vars[key := Some(value)];
    }

    method EnvRemove(key: Key)
      modifies this`vars
      ensures vars == if cleared then old(vars) - {key} else old(vars)[key := None]
    {
      vars := if cleared then vars - {key} else vars[key := None];
    }
  }

  /** A cleared builder holds exactly the environment expected after `ops`. */
  ghost predicate Holds(process: ProcessBuilder, policy: EnvironmentPolicy, parent: Vars, ops: seq<EnvOp>)
    reads process
  {
    && process.cleared
    && forall key :: (key in process.vars <==> Expected(policy, parent, ops, key).Some?) &&
         (key in process.vars ==> process.vars[key] == Expected(policy, parent, ops, key))
  }

  lemma HoldsCaptures(process: ProcessBuilder, policy: EnvironmentPolicy, parent: Vars, ops: seq<EnvOp>, later: Vars)
    requires Holds(process, policy, parent, ops)
    ensures Matches(process.Captured(later), policy, parent, ops)
  {
  }

  /** The base policy: what the allowlist and the inherit loops copy from the parent. */
  method ApplyPolicy(process: ProcessBuilder, policy: EnvironmentPolicy, parent: Vars)
    requires process.cleared && process.vars == map[]
    modifies process`vars
    ensures Holds(process, policy, parent, [])
  {
    match policy {
      case Clean =>
      case Allowlist(keys) =>
        var left := keys;
        while left != {}
          invariant left <= keys
          invariant forall key :: key in process.vars <==> key in keys - left && key in parent
          invariant forall key :: key in process.vars ==> process.vars[key] == Some(parent[key])
          decreases left
        {
          var key :| key in left;
          if key in parent {
            process.Env(key, parent[key]);
          }
          left := left - {key};
        }
      case InheritAll =>
        var left := parent.Keys;
        while left != {}
          invariant left <= parent.Keys
          invariant forall key :: key in process.vars <==> key in parent.Keys - left
          invariant forall key :: key in process.vars ==> process.vars[key] == Some(parent[key])
          decreases left
        {
          var key :| key in left;
          process.Env(key, parent[key]);
          left := left - {key};
        }
    }
  }

  /** The environment part of `prepare`; what the parent becomes later does not matter. */
  method PrepareEnvironment(policy: EnvironmentPolicy, ops: seq<EnvOp>, parent: Vars)
    returns (process: ProcessBuilder)
    ensures fresh(process) && process.cleared
    ensures forall later :: Matches(process.Captured(later), policy, parent, ops)
  {
    process := new ProcessBuilder();
    process.EnvClear();
    ApplyPolicy(process, policy, parent);
    assert ops[..0] == [];
    for i := 0 to |ops|
      invariant Holds(process, policy, parent, ops[..i])
    {
      assert ops[..i + 1] == ops[..i] + [ops[i]];
      forall key
        ensures Deciding(ops[..i + 1], key) == (if ops[i].key == key then Some(ops[i]) else Deciding(ops[..i], key))
      {
        DecidingOneMore(ops[..i], ops[i], key);
      }
      match ops[i] {
        case Set(key, value) => process.Env(key, value);
        case Remove(key) => process.EnvRemove(key);
      }
    }
    assert ops[..|ops|] == ops;
    forall later
      ensures Matches(process.Captured(later), policy, parent, ops)
    {
      HoldsCaptures(process, policy, parent, ops, later);
    }
  }

  /** `get_envs`: the effective view of the log. */
  method GetEnvs(ops: seq<EnvOp>) returns (effective: map<Key, Option<Value>>)
    ensures Describes(effective, ops)
  {
    effective := map[];
    assert ops[..0] == [];
    for i := 0 to |ops|
      invariant Describes(effective, ops[..i])
    {
      assert ops[..i + 1] == ops[..i] + [ops[i]];
      forall key
        ensures Deciding(ops[..i + 1], key) == (if ops[i].key == key then Some(ops[i]) else Deciding(ops[..i], key))
      {
        DecidingOneMore(ops[..i], ops[i], key);
      }
      match ops[i] {
        case Set(key, value) => effective := effective[key := Some(value)];
        case Remove(key) => effective := effective[key := None];
      }
    }
    assert ops[..|ops|] == ops;
  }

  /** `validate_path_policy`: a bare program is accepted exactly when the child will have a PATH. */
  method ValidatePathPolicy(program: Program, policy: EnvironmentPolicy, ops: seq<EnvOp>, parent: Vars)
    returns (accepted: bool)
    ensures accepted <==> program.absolute || program.components > 1 || Expected(policy, parent, ops, PATH).Some?
  {
    if program.absolute || program.components > 1 {
      return true;
    }
    var pathAvailable := policy.Allows(PATH) && PATH in parent;
    assert ops[..0] == [];
    for i := 0 to |ops|
      invariant pathAvailable <==> Expected(policy, parent, ops[..i], PATH).Some?
    {
      assert ops[..i + 1] == ops[..i] + [ops[i]];
      DecidingOneMore(ops[..i], ops[i], PATH);
      match ops[i] {
        case Set(key, _) =>
          if key == PATH {
            pathAvailable := true;
          }
        case Remove(key) =>
          if key == PATH {
            pathAvailable := false;
          }
      }
    }
    assert ops[..|ops|] == ops;
    return pathAvailable;
  }

  /** The three loops of the source, side by side on one command: they agree on the child's environment. */
  method AgreeOnOneCommand(program: Program, policy: EnvironmentPolicy, ops: seq<EnvOp>, parent: Vars, later: Vars)
    returns (child: Vars, effective: map<Key, Option<Value>>, accepted: bool)
    ensures child == Overlay(Filtered(policy, parent), effective)
    ensures Describes(effective, ops) && Matches(child, policy, parent, ops)
    ensures accepted <==> program.absolute || program.components > 1 || PATH in child
  {
    var process := PrepareEnvironment(policy, ops, parent);
    child := process.Captured(later);
    effective := GetEnvs(ops);
    accepted := ValidatePathPolicy(program, policy, ops, parent);
    ReplayIsOverlay(child, policy, parent, ops, effective);
  }
}
