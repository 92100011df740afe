/**
 The settings file holds only what differs from the defaults.  Stripping walks the current
 settings and the defaults together; keys in a fixed set are compared and kept as a whole.
 */
module SparseSettings {
  /** A settings value.  Null is a leaf; Undefined is what reading a missing key gives. */
  datatype Json =
    | Undefined
    | Leaf(value: int)
    | Array(items: seq<Json>)
    | Object(fields: map<string, Json>)

  const ATOMIC_KEYS: set<string> := {
    "backgroundActivity",
    "automaticGitFetchInterval",
    "providerHealthRefreshInterval",
    "sourceControlWriterModelSelection",
    "textGenerationModelSelection",
    "pullRequestMergeMethod"
  }

  function Get(fields: map<string, Json>, key: string): Json {
    if key in fields then fields[key] else Undefined
  }

  /** What is left of the current value once its defaults are taken away; Undefined if nothing is. */
  function Strip(current: Json, defaults: Json): Json
    decreases current
  {
    if current.Array? || defaults.Array? then
      if current == defaults then Undefined else current
    else if current.Object? && defaults.Object? then
      var next := map key | key in current.fields && StripField(current, defaults, key) != Undefined ::
        StripField(current, defaults, key);
      if next != map[] then Object(next) else Undefined
    else if current == defaults then Undefined else current
  }

  function StripField(current: Json, defaults: Json, key: string): Json
    requires current.Object? && defaults.Object? && key in current.fields
    decreases current, 0
  {
    if key in ATOMIC_KEYS then
      if current.fields[key] == Get(defaults.fields, key) then Undefined else current.fields[key]
    else Strip(current.fields[key], Get(defaults.fields, key))
  }

  /** The walk itself, key by key. */
  method StripDefaultServerSettings(current: Json, defaults: Json) returns (r: Json)
    ensures r == Strip(current, defaults)
    decreases current
  {
    if current.Array? || defaults.Array? {
      return if current == defaults then Undefined else current;
    }
    if current.Object? && defaults.Object? {
      var next: map<string, Json> := map[];
      var todo := current.fields.Keys;
      while todo != {}
        invariant todo <= current.fields.Keys
        invariant forall key :: key in next <==>
                    key in current.fields.Keys - todo && StripField(current, defaults, key) != Undefined
        invariant forall key <- next :: next[key] == StripField(current, defaults, key)
        decreases todo
      {
        var key :| key in todo;
        if key in ATOMIC_KEYS {
          if current.fields[key] != Get(defaults.fields, key) {
            next := if current.fields[key] == Undefined then next else next[key := current.fields[key]];
          }
        } else {
          var stripped := StripDefaultServerSettings(current.fields[key], Get(defaults.fields, key));
          if stripped != Undefined {
            next := next[key := stripped];
          }
        }
        todo := todo - {key};
      }
      assert next == map key | key in current.fields && StripField(current, defaults, key) != Undefined ::
        StripField(current, defaults, key);
      return if next != map[] then Object(next) else Undefined;
    }
    return if current == defaults then Undefined else current;
  }

  /** Defaults with a sparse value laid over them: missing keys take their default, atomic keys are replaced whole. */
  function Overlay(defaults: Json, sparse: Json): Json
    decreases sparse
  {
    if sparse == Undefined then defaults
    else if sparse.Object? && defaults.Object? then
      Object(map key | key in defaults.fields.Keys + sparse.fields.Keys :: OverlayField(defaults, sparse, key))
    else sparse
  }

  function OverlayField(defaults: Json, sparse: Json, key: string): Json
    requires defaults.Object? && sparse.Object?
    decreases sparse, 0
  {
    if key !in sparse.fields then Get(defaults.fields, key)
    else if key in ATOMIC_KEYS then sparse.fields[key]
    else Overlay(Get(defaults.fields, key), sparse.fields[key])
  }

  /** No part of the value is Undefined; a key set to undefined counts as missing. */
  predicate Defined(j: Json)
    decreases j
  {
    match j
    case Undefined => false
    case Leaf(_) => true
    case Array(items) => forall i :: 0 <= i < |items| ==> Defined(items[i])
    case Object(fields) => forall key <- fields :: Defined(fields[key])
  }

  /** The current value has every key of the defaults, at every level that is compared key by key. */
  predicate Covers(current: Json, defaults: Json)
    decreases current
  {
    current.Object? && defaults.Object? ==>
      && defaults.fields.Keys <= current.fields.Keys
      && forall key <- current.fields :: key !in ATOMIC_KEYS ==> Covers(current.fields[key], Get(defaults.fields, key))
  }

  /** Nothing of a default is left in a sparse value, nor an empty object. */
  predicate HoldsNoDefault(sparse: Json, defaults: Json)
    decreases sparse
  {
    && sparse != Undefined && sparse != defaults
    && (sparse.Object? && defaults.Object? ==>
          && sparse.fields != map[]
          && forall key <- sparse.fields ::
               if key in ATOMIC_KEYS then sparse.fields[key] != Get(defaults.fields, key)
               else HoldsNoDefault(sparse.fields[key], Get(defaults.fields, key)))
  }

  lemma FieldRestored(current: Json, defaults: Json, key: string)
    requires current.Object? && defaults.Object? && key in current.fields && Defined(current)
    ensures var sparse := Strip(current, defaults);
            var overlaid :=
              if sparse == Undefined then Get(defaults.fields, key) else OverlayField(defaults, sparse, key);
            && overlaid == (if key in ATOMIC_KEYS then current.fields[key]
                            else Overlay(Get(defaults.fields, key),
                                         Strip(current.fields[key], Get(defaults.fields, key))))
            && (sparse != Undefined && sparse.Object? ==> key in defaults.fields || key in sparse.fields)
            && (sparse == Undefined ==> key in defaults.fields)
  {
    var sparse := Strip(current, defaults);
    assert Defined(current.fields[key]);
    assert key !in defaults.fields ==> Strip(current.fields[key], Undefined) == current.fields[key];
    if sparse == Undefined {
      assert StripField(current, defaults, key) == Undefined by {
        var next := map k | k in current.fields && StripField(current, defaults, k) != Undefined ::
          StripField(current, defaults, k);
        assert next == map[] && key !in next;
      }
    }
  }

  /**
   Laying the stripped settings over the same defaults gives the settings back exactly when
   they have all keys of the defaults.
   */
  lemma {:induction false} OverlayRestores(current: Json, defaults: Json)
    requires Defined(current) && (defaults == Undefined || Defined(defaults))
    ensures Overlay(defaults, Strip(current, defaults)) == current <==> Covers(current, defaults)
    decreases current
  {
    if current.Object? && defaults.Object? {
      var restored := Overlay(defaults, Strip(current, defaults));
      assert restored.Object?;
      forall key | key in current.fields
        ensures key in restored.fields
        ensures key in ATOMIC_KEYS ==> restored.fields[key] == current.fields[key]
        ensures key !in ATOMIC_KEYS ==>
                  (restored.fields[key] == current.fields[key] <==>
                   Covers(current.fields[key], Get(defaults.fields, key)))
      {
        FieldRestored(current, defaults, key);
        OverlayRestores(current.fields[key], Get(defaults.fields, key));
      }
      assert defaults.fields.Keys <= restored.fields.Keys;
      if Covers(current, defaults) {
        assert restored.fields.Keys == current.fields.Keys;
        assert restored.fields == current.fields;
      }
    }
  }

  /** A stripped value holds no leaf, array or atomic value equal to its default, and no empty object. */
  lemma {:induction false} StrippedHoldsNoDefault(current: Json, defaults: Json)
    requires Defined(current) && Strip(current, defaults) != Undefined
    ensures HoldsNoDefault(Strip(current, defaults), defaults)
    decreases current
  {
    var sparse := Strip(current, defaults);
    if current.Object? && defaults.Object? {
      forall key | key in sparse.fields
        ensures if key in ATOMIC_KEYS then sparse.fields[key] != Get(defaults.fields, key)
                else HoldsNoDefault(sparse.fields[key], Get(defaults.fields, key))
      {
        if key !in ATOMIC_KEYS {
          StrippedHoldsNoDefault(current.fields[key], Get(defaults.fields, key));
        }
      }
      NotTheDefaults(sparse, defaults);
    }
  }

  /** An object none of whose fields equals its default is not the defaults themselves. */
  lemma NotTheDefaults(sparse: Json, defaults: Json)
    requires sparse.Object? && defaults.Object? && sparse.fields != map[]
    requires forall key <- sparse.fields ::
               if key in ATOMIC_KEYS then sparse.fields[key] != Get(defaults.fields, key)
               else HoldsNoDefault(sparse.fields[key], Get(defaults.fields, key))
    ensures sparse != defaults
  {
    var key :| key in sparse.fields;
    assert sparse.fields[key] != Get(defaults.fields, key);
  }
}
