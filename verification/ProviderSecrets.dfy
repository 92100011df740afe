/**
 Environment variables of provider instances: the persisted settings carry only a
 redaction mark for a sensitive value, and the value itself lives in the secret store.
 A secret is named by its instance and variable.
 */
module ProviderSecrets {
  import opened Wrappers

  type InstanceId = string
  type SecretName = (InstanceId, string)

  datatype Variable = Variable(name: string, value: string, sensitive: bool, redacted: bool)

  type Environment = seq<Variable>

  /** The provider instances of the settings; an instance may have no environment at all. */
  type Instances = map<InstanceId, Option<Environment>>

  function EnvironmentOf(s: Instances, i: InstanceId): Environment {
    if i in s && s[i].Some? then s[i].value else []
  }

  function Lookup(secrets: map<SecretName, string>, name: SecretName): Option<string> {
    if name in secrets then Some(secrets[name]) else None
  }

  predicate DistinctNames(env: Environment) {
    forall j, k :: 0 <= j < k < |env| ==> env[j].name != env[k].name
  }

  predicate SensitiveIn(s: Instances, name: SecretName) {
    exists v <- EnvironmentOf(s, name.0) :: v.name == name.1 && v.sensitive
  }

  /** What a client is shown. */
  function Redacted(v: Variable): Variable {
    if !v.sensitive then v.(redacted := false)
    else v.(value := "", redacted := v.value != "" || v.redacted)
  }

  /** The last variable of a name wins. */
  function FindLast(env: Environment, name: string): (r: Option<Variable>)
    ensures r.None? <==> forall v <- env :: v.name != name
    ensures r.Some? ==> r.value in env && r.value.name == name
  {
    if env == [] then None
    else if env[|env|-1].name == name then Some(env[|env|-1])
    else FindLast(env[..|env|-1], name)
  }

  /** A plaintext value of a sensitive variable that is still on disk. */
  function InlineOf(name: string, current: Environment): (r: Option<string>)
    ensures r.Some? ==> r.value != ""
  {
    var previous := FindLast(current, name);
    if previous.Some? && previous.value.sensitive && !previous.value.redacted && previous.value.value != ""
    then Some(previous.value.value) else None
  }

  /** The plaintext value still on disk that a redacted variable stands for. */
  function InlineValue(v: Variable, current: Environment): Option<string> {
    if v.redacted then InlineOf(v.name, current) else None
  }

  /** The value an update supplies for a sensitive variable, or None if the stored one is to be kept. */
  function Supplied(v: Variable, current: Environment): Option<string> {
    var inline := InlineValue(v, current);
    if inline.Some? then inline else if !v.redacted then Some(v.value) else None
  }

  function PersistedVariable(v: Variable, current: Environment): Variable {
    if !v.sensitive then Redacted(v)
    else match Supplied(v, current)
      case None => Redacted(v)
      case Some(value) => if value != "" then v.(value := "", redacted := true) else v.(redacted := false)
  }

  /** The secret of a variable's own name after the variable has been handled. */
  function SecretAfter(v: Variable, current: Environment, stored: Option<string>): Option<string> {
    if !v.sensitive then None
    else match Supplied(v, current)
      case None => stored
      case Some(value) => if value != "" then Some(value) else None
  }

  /** The secret called `name` after all variables of an environment have been handled in order. */
  function SecretAfterAll(name: string, env: Environment, current: Environment,
                          stored: Option<string>): Option<string> {
    if env == [] then stored
    else
      var before := SecretAfterAll(name, env[..|env|-1], current, stored);
      if env[|env|-1].name == name then SecretAfter(env[|env|-1], current, before) else before
  }

  /** The stored secret of a name after a whole update. */
  function FinalSecret(name: SecretName, current: Instances, next: Instances, stored: Option<string>): Option<string> {
    if SensitiveIn(current, name) && !SensitiveIn(next, name) then None
    else SecretAfterAll(name.1, EnvironmentOf(next, name.0), EnvironmentOf(current, name.0), stored)
  }

  function PersistedEnvironment(env: Environment, current: Environment): (r: Environment)
    ensures |r| == |env|
  {
    seq(|env|, j requires 0 <= j < |env| => PersistedVariable(env[j], current))
  }

  function MaterializedVariable(v: Variable, secret: Option<string>): Variable {
    if !v.sensitive || !v.redacted then v
    else v.(value := if secret.Some? then secret.value else "")
  }

  // ---------------------------------------------------------------------------
  // The loops

  class SecretStore {
    var secrets: map<SecretName, string>

    method Set(name: SecretName, value: string)
      modifies this
      ensures secrets == old(secrets)[name := value]
    {
      secrets := secrets[name := value];
    }

    method Remove(name: SecretName)
      modifies this
      ensures secrets == old(secrets) - {name}
    {
      secrets := secrets - {name};
    }

    /** Handle one variable: move its value into the store, drop the stored one, or leave it. */
    method PersistOne(i: InstanceId, v: Variable, current: Environment) returns (p: Variable)
      modifies this
      ensures p == PersistedVariable(v, current)
      ensures forall name :: Lookup(secrets, name) ==
                if name == (i, v.name) then SecretAfter(v, current, Lookup(old(secrets), name))
                else Lookup(old(secrets), name)
    {
      if !v.sensitive {
        Remove((i, v.name));
        return Redacted(v);
      }
      var inline := InlineValue(v, current);
      var value := if inline.Some? then inline.value else v.value;
      if !v.redacted || inline.Some? {
        if value != "" {
          Set((i, v.name), value);
          return v.(value := "", redacted := true);
        }
        Remove((i, v.name));
        return v.(redacted := false);
      }
      return Redacted(v);
    }

    method PersistInstance(i: InstanceId, env: Environment, current: Environment) returns (persisted: Environment)
      modifies this
      ensures persisted == PersistedEnvironment(env, current)
      ensures forall name :: Lookup(secrets, name) ==
                if name.0 == i then SecretAfterAll(name.1, env, current, Lookup(old(secrets), name))
                else Lookup(old(secrets), name)
    {
      persisted := [];
      for n := 0 to |env|
        invariant |persisted| == n
        invariant forall j :: 0 <= j < n ==> persisted[j] == PersistedVariable(env[j], current)
        invariant forall name :: Lookup(secrets, name) ==
                    if name.0 == i then SecretAfterAll(name.1, env[..n], current, Lookup(old(secrets), name))
                    else Lookup(old(secrets), name)
      {
        var p := PersistOne(i, env[n], current);
        persisted := persisted + [p];
        assert env[..n + 1][..n] == env[..n];
      }
      assert env[..|env|] == env;
    }

    /** Persist an update: all instances of the next settings, then the secrets nothing needs any more. */
    method Persist(current: Instances, next: Instances) returns (persisted: Instances)
      modifies this
      ensures persisted == Persisted(current, next)
      ensures forall name :: Lookup(secrets, name) == FinalSecret(name, current, next, Lookup(old(secrets), name))
    {
      persisted := next;
      var todo := next.Keys;
      while todo != {}
        invariant todo <= next.Keys && persisted.Keys == next.Keys
        invariant forall i <- next.Keys - todo :: persisted[i] ==
                    if next[i].None? then None else Some(PersistedEnvironment(next[i].value, EnvironmentOf(current, i)))
        invariant forall i <- todo :: persisted[i] == next[i]
        invariant forall name :: Lookup(secrets, name) ==
                    if name.0 in next.Keys - todo
                    then SecretAfterAll(name.1, EnvironmentOf(next, name.0), EnvironmentOf(current, name.0),
                                        Lookup(old(secrets), name))
                    else Lookup(old(secrets), name)
        decreases todo
      {
        var i :| i in todo;
        if next[i].Some? {
          var env := PersistInstance(i, next[i].value, EnvironmentOf(current, i));
          persisted := persisted[i := Some(env)];
        }
        todo := todo - {i};
      }
      RemoveStale(current, next);
    }

    method RemoveStale(current: Instances, next: Instances)
      modifies this
      ensures forall name :: Lookup(secrets, name) ==
                if SensitiveIn(current, name) && !SensitiveIn(next, name) then None else Lookup(old(secrets), name)
    {
      var todo := current.Keys;
      while todo != {}
        invariant todo <= current.Keys
        invariant forall name :: Lookup(secrets, name) ==
                    if name.0 !in todo && SensitiveIn(current, name) && !SensitiveIn(next, name) then None
                    else Lookup(old(secrets), name)
        decreases todo
      {
        var i :| i in todo;
        var env := EnvironmentOf(current, i);
        for n := 0 to |env|
          invariant forall name :: Lookup(secrets, name) ==
                      if (name.0 !in todo ||
                          (name.0 == i && exists v <- env[..n] :: v.name == name.1 && v.sensitive)) &&
                         SensitiveIn(current, name) && !SensitiveIn(next, name) then None
                      else Lookup(old(secrets), name)
        {
          if env[n].sensitive && !SensitiveIn(next, (i, env[n].name)) {
            Remove((i, env[n].name));
          }
          assert env[..n + 1] == env[..n] + [env[n]];
        }
        assert env[..|env|] == env;
        todo := todo - {i};
      }
    }

    /** Fill redacted variables in from the store. */
    method MaterializeInstance(i: InstanceId, env: Environment) returns (r: Environment)
      ensures |r| == |env|
      ensures forall j :: 0 <= j < |env| ==> r[j] == MaterializedVariable(env[j], Lookup(secrets, (i, env[j].name)))
    {
      r := [];
      for n := 0 to |env|
        invariant |r| == n
        invariant forall j :: 0 <= j < n ==> r[j] == MaterializedVariable(env[j], Lookup(secrets, (i, env[j].name)))
      {
        var v := env[n];
        if v.sensitive && v.redacted {
          var secret := Lookup(secrets, (i, v.name));
          v := v.(value := if secret.Some? then secret.value else "");
        }
        r := r + [v];
      }
    }
  }

  // ---------------------------------------------------------------------------
  // What an update guarantees

  /**
   Every stored secret belongs to a name whose last variable, the one that counts, is sensitive and
   marked redacted.
   */
  ghost predicate SecretsBelong(s: Instances, secrets: SecretName -> Option<string>) {
    forall name :: secrets(name).Some? ==>
      var v := FindLast(EnvironmentOf(s, name.0), name.1);
      v.Some? && v.value.sensitive && v.value.redacted
  }

  /** No sensitive value is written to the settings file, whatever the names. */
  lemma NoPlaintextPersisted(env: Environment, current: Environment, j: nat)
    requires j < |env| && env[j].sensitive
    ensures PersistedEnvironment(env, current)[j].value == ""
    ensures PersistedEnvironment(env, current)[j].sensitive
  {
  }

  /** A plain variable is persisted and read back with its value, and no secret is left under its name. */
  lemma PlainStaysPlain(env: Environment, current: Environment, j: nat, secret: Option<string>)
    requires j < |env| && !env[j].sensitive
    ensures PersistedEnvironment(env, current)[j] == env[j].(redacted := false)
    ensures MaterializedVariable(PersistedEnvironment(env, current)[j], secret) == env[j].(redacted := false)
    ensures SecretAfter(env[j], current, secret) == None
  {
  }

  /** A sensitive variable is persisted marked exactly if it has a value then or keeps the stored one. */
  lemma SensitiveIsMarked(env: Environment, current: Environment, j: nat)
    requires j < |env| && env[j].sensitive
    ensures PersistedEnvironment(env, current)[j] ==
            Variable(env[j].name, "", true, env[j].redacted || env[j].value != "")
  {
  }

  /** What was persisted is shown as it is; what a client is shown of any variable holds no sensitive value. */
  lemma ShownHoldsNoSecret(v: Variable, current: Environment)
    ensures Redacted(PersistedVariable(v, current)) == PersistedVariable(v, current)
    ensures Redacted(v).name == v.name && Redacted(v).sensitive == v.sensitive
    ensures Redacted(v).value == if v.sensitive then "" else v.value
    ensures Redacted(v).redacted <==> v.sensitive && (v.value != "" || v.redacted)
  {
  }

  /** Handling an environment variable by variable leaves each where it is. */
  lemma {:induction false} FindLastPersisted(env: Environment, current: Environment, name: string)
    ensures FindLast(PersistedEnvironment(env, current), name) ==
            match FindLast(env, name)
            case None => None
            case Some(v) => Some(PersistedVariable(v, current))
    decreases |env|
  {
    if env != [] {
      var rest := env[..|env|-1];
      FindLastPersisted(rest, current, name);
      assert PersistedEnvironment(env, current)[..|env|-1] == PersistedEnvironment(rest, current);
    }
  }

  lemma {:induction false} UnmentionedIsKept(name: string, env: Environment, current: Environment,
                                             stored: Option<string>)
    requires FindLast(env, name) == None
    ensures SecretAfterAll(name, env, current, stored) == stored
    decreases |env|
  {
    if env != [] {
      assert env[|env|-1] in env;
      UnmentionedIsKept(name, env[..|env|-1], current, stored);
    }
  }

  /**
   If a secret is left for a name the environment mentions, its last variable of that name is
   persisted as redacted.
   */
  lemma {:induction false} LastVariableDecides(name: string, env: Environment, current: Environment,
                                               stored: Option<string>)
    requires FindLast(env, name).Some? && SecretAfterAll(name, env, current, stored).Some?
    ensures FindLast(env, name).value.sensitive && PersistedVariable(FindLast(env, name).value, current).redacted
    decreases |env|
  {
    if env[|env|-1].name != name {
      LastVariableDecides(name, env[..|env|-1], current, stored);
    }
  }

  /** The result of Persist as a function of the settings alone. */
  function Persisted(current: Instances, next: Instances): Instances {
    map i | i in next ::
      if next[i].None? then None else Some(PersistedEnvironment(next[i].value, EnvironmentOf(current, i)))
  }

  /** Every update keeps the invariant of the store, even with repeated variable names. */
  lemma SecretsStillBelong(current: Instances, next: Instances, secrets: SecretName -> Option<string>)
    requires SecretsBelong(current, secrets)
    ensures SecretsBelong(Persisted(current, next), name => FinalSecret(name, current, next, secrets(name)))
  {
    forall name: SecretName | FinalSecret(name, current, next, secrets(name)).Some?
      ensures var v := FindLast(EnvironmentOf(Persisted(current, next), name.0), name.1);
              v.Some? && v.value.sensitive && v.value.redacted
    {
      SecretStillBelongs(name, current, next, secrets(name));
    }
  }

  lemma SecretStillBelongs(name: SecretName, current: Instances, next: Instances, stored: Option<string>)
    requires stored.Some? ==> SensitiveIn(current, name)
    requires FinalSecret(name, current, next, stored).Some?
    ensures var v := FindLast(EnvironmentOf(Persisted(current, next), name.0), name.1);
            v.Some? && v.value.sensitive && v.value.redacted
  {
    var env, cur := EnvironmentOf(next, name.0), EnvironmentOf(current, name.0);
    FindLastPersisted(env, cur, name.1);
    if FindLast(env, name.1) == None {
      UnmentionedIsKept(name.1, env, cur, stored);
    } else {
      LastVariableDecides(name.1, env, cur, stored);
    }
  }

  /** The value a sensitive variable had: plaintext still on disk, or what the store holds. */
  function ValueBefore(s: Instances, name: SecretName, stored: Option<string>): string {
    var v := FindLast(EnvironmentOf(s, name.0), name.1);
    if v.None? || !v.value.sensitive then ""
    else MaterializedVariable(v.value, stored).value
  }

  /** The value a name has for the provider, which takes the last variable of the name. */
  function EffectiveValue(env: Environment, name: string, secret: Option<string>): string
    requires FindLast(env, name).Some?
  {
    MaterializedVariable(FindLast(env, name).value, secret).value
  }

  /** A variable that asks for the value it had to be kept. */
  predicate AsksToKeep(v: Variable) {
    v.sensitive && v.redacted
  }

  /** The last variable of a name that does not. */
  function LastSupplying(env: Environment, name: string): (r: Option<Variable>)
    ensures r.None? <==> forall v <- env :: v.name == name ==> AsksToKeep(v)
    ensures r.Some? ==> r.value in env && r.value.name == name && !AsksToKeep(r.value)
  {
    if env == [] then None
    else if env[|env|-1].name == name && !AsksToKeep(env[|env|-1]) then Some(env[|env|-1])
    else LastSupplying(env[..|env|-1], name)
  }

  /** Without plaintext on disk, the last variable that supplies a value decides the secret. */
  lemma {:induction false} SecretAfterSupplying(name: string, env: Environment, current: Environment,
                                                stored: Option<string>)
    requires InlineOf(name, current) == None
    ensures SecretAfterAll(name, env, current, stored) ==
            match LastSupplying(env, name)
            case None => stored
            case Some(u) => if u.sensitive && u.value != "" then Some(u.value) else None
    decreases |env|
  {
    if env != [] {
      SecretAfterSupplying(name, env[..|env|-1], current, stored);
    }
  }

  /** A variable that comes last decides alone if it supplies a value, or stands for plaintext on disk. */
  lemma {:induction false} SecretAfterLast(name: string, env: Environment, current: Environment, stored: Option<string>)
    requires FindLast(env, name).Some? && FindLast(env, name).value.sensitive
    ensures !FindLast(env, name).value.redacted ==>
              SecretAfterAll(name, env, current, stored) ==
              if FindLast(env, name).value.value != "" then Some(FindLast(env, name).value.value) else None
    ensures FindLast(env, name).value.redacted && InlineOf(name, current).Some? ==>
              SecretAfterAll(name, env, current, stored) == InlineOf(name, current)
    decreases |env|
  {
    if env[|env|-1].name != name {
      SecretAfterLast(name, env[..|env|-1], current, stored);
    }
  }

  /** What the settings and the store give for a name after an update. */
  function ValueAfter(current: Instances, next: Instances, name: SecretName, stored: Option<string>): string
    requires FindLast(EnvironmentOf(next, name.0), name.1).Some?
  {
    FindLastPersisted(EnvironmentOf(next, name.0), EnvironmentOf(current, name.0), name.1);
    EffectiveValue(EnvironmentOf(Persisted(current, next), name.0), name.1, FinalSecret(name, current, next, stored))
  }

  /**
   Reading back an update, for every name of every instance.  A value that is supplied is read
   back.  A redacted one stands for the value the name had before; only if the same
   environment also supplies a value for that name, and no plaintext of it was on disk, for that.
   */
  lemma ReadsBackWhatWasWritten(current: Instances, next: Instances, secrets: SecretName -> Option<string>,
                                name: SecretName)
    requires SecretsBelong(current, secrets) && FindLast(EnvironmentOf(next, name.0), name.1).Some?
    ensures var env := EnvironmentOf(next, name.0);
            var v := FindLast(env, name.1).value;
            var u := LastSupplying(env, name.1);
            ValueAfter(current, next, name, secrets(name)) ==
            if !AsksToKeep(v) then v.value
            else if u.None? || InlineOf(name.1, EnvironmentOf(current, name.0)).Some?
            then ValueBefore(current, name, secrets(name))
            else if u.value.sensitive then u.value.value
            else ""
  {
    var env, cur := EnvironmentOf(next, name.0), EnvironmentOf(current, name.0);
    var v := FindLast(env, name.1).value;
    FindLastPersisted(env, cur, name.1);
    if v.sensitive {
      assert SensitiveIn(next, name);
      SecretAfterLast(name.1, env, cur, secrets(name));
      if InlineOf(name.1, cur) == None {
        SecretAfterSupplying(name.1, env, cur, secrets(name));
      }
    }
  }

  lemma {:induction false} FindLastIsThe(env: Environment, j: nat)
    requires DistinctNames(env) && j < |env|
    ensures FindLast(env, env[j].name) == Some(env[j])
    decreases |env|
  {
    if j < |env| - 1 {
      FindLastIsThe(env[..|env|-1], j);
    }
  }

  /** With distinct names, every variable is read back: with the value supplied, or redacted with the one it had. */
  lemma EachReadsBack(current: Instances, next: Instances, secrets: SecretName -> Option<string>, i: InstanceId, j: nat)
    requires SecretsBelong(current, secrets)
    requires j < |EnvironmentOf(next, i)| && DistinctNames(EnvironmentOf(next, i))
    ensures var v := EnvironmentOf(next, i)[j];
            var name := (i, v.name);
            MaterializedVariable(EnvironmentOf(Persisted(current, next), i)[j],
                                 FinalSecret(name, current, next, secrets(name))).value ==
            if AsksToKeep(v) then ValueBefore(current, name, secrets(name)) else v.value
  {
    var env := EnvironmentOf(next, i);
    var name := (i, env[j].name);
    FindLastIsThe(env, j);
    FindLastPersisted(env, EnvironmentOf(current, i), name.1);
    ReadsBackWhatWasWritten(current, next, secrets, name);
  }

  /** What a client is shown of the settings. */
  function Shown(s: Instances): Instances {
    map i | i in s :: if s[i].None? then None else Some(ShownEnvironment(s[i].value))
  }

  function ShownEnvironment(env: Environment): (r: Environment)
    ensures |r| == |env|
  {
    seq(|env|, j requires 0 <= j < |env| => Redacted(env[j]))
  }

  lemma ShownRest(env: Environment)
    requires env != []
    ensures ShownEnvironment(env)[..|env|-1] == ShownEnvironment(env[..|env|-1])
    ensures ShownEnvironment(env)[|env|-1] == Redacted(env[|env|-1])
  {
  }

  lemma {:induction false} FindLastShown(env: Environment, name: string)
    ensures FindLast(ShownEnvironment(env), name) ==
            match FindLast(env, name)
            case None => None
            case Some(v) => Some(Redacted(v))
    decreases |env|
  {
    if env != [] {
      ShownRest(env);
      FindLastShown(env[..|env|-1], name);
    }
  }

  /** What is shown supplies a value exactly where a variable is shown unmarked, and an empty one if it is sensitive. */
  lemma {:induction false} LastSupplyingShown(env: Environment, name: string)
    ensures LastSupplying(ShownEnvironment(env), name).Some? <==>
              exists u <- env :: u.name == name && !AsksToKeep(Redacted(u))
    ensures var u := LastSupplying(ShownEnvironment(env), name); u.Some? && u.value.sensitive ==> u.value.value == ""
    decreases |env|
  {
    if env != [] {
      ShownRest(env);
      LastSupplyingShown(env[..|env|-1], name);
      assert env == env[..|env|-1] + [env[|env|-1]];
    }
  }

  /**
   A client that sends back exactly what it was shown changes no value, but for one case: the
   stored value of a name whose last variable is redacted is lost exactly if the name is
   repeated with a variable that is plain, or sensitive with neither value nor mark.
   */
  lemma SendingBack(current: Instances, secrets: SecretName -> Option<string>, name: SecretName)
    requires SecretsBelong(current, secrets) && FindLast(EnvironmentOf(current, name.0), name.1).Some?
    ensures var env := EnvironmentOf(current, name.0);
            && FindLast(EnvironmentOf(Shown(current), name.0), name.1).Some?
            && (EffectiveValue(env, name.1, secrets(name)) ==
                ValueAfter(current, Shown(current), name, secrets(name)) <==>
                !(&& AsksToKeep(FindLast(env, name.1).value) && secrets(name).Some? && secrets(name).value != ""
                  && exists u <- env :: u.name == name.1 && (!u.sensitive || (u.value == "" && !u.redacted))))
  {
    var env := EnvironmentOf(current, name.0);
    FindLastShown(env, name.1);
    LastSupplyingShown(env, name.1);
    ReadsBackWhatWasWritten(current, Shown(current), secrets, name);
    assert forall u <- env :: !AsksToKeep(Redacted(u)) <==> !u.sensitive || (u.value == "" && !u.redacted);
  }
}
