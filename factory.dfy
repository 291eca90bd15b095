/**
 * The callback registry: a class-level map from (requirement, framework) to
 * a callback class, filled by a registration decorator and read when a
 * learner asks for the callbacks its aggregator requires.
 */
module Factory {
  import opened Common

  /** `CallbackRequirement`, with the two members the callbacks register under. */
  datatype Requirement = GradientCapture | Scaffold

  /** A callback class, known by its name. */
  datatype CallbackClass = CallbackClass(name: string)

  /** The object made by calling a callback class with no arguments. */
  datatype Callback = Instance(cls: CallbackClass)

  /** A registry key; the framework is the lower-cased module name of the class or learner. */
  datatype Key = Key(requirement: Requirement, framework: string)

  /** The `ValueError` raised for a second registration under one key. */
  datatype RegistrationError = AlreadyRegistered(
    requirement: Requirement, framework: string, registered: CallbackClass, rejected: CallbackClass)

  /** The callbacks made for `required`: one instance per registered requirement, in order. */
  function Resolved(registry: map<Key, CallbackClass>, required: seq<Requirement>, framework: string): seq<Callback>
  {
    if required == [] then []
    else
      var key := Key(required[|required| - 1], framework);
      Resolved(registry, required[..|required| - 1], framework)
        + (if key in registry then [Instance(registry[key])] else [])
  }

  /** The requirements that have a callback for `framework`, in order. */
  function Registered(registry: map<Key, CallbackClass>, required: seq<Requirement>, framework: string): seq<Requirement>
  {
    if required == [] then []
    else
      var r := required[|required| - 1];
      Registered(registry, required[..|required| - 1], framework)
        + (if Key(r, framework) in registry then [r] else [])
  }

  /** The requirements skipped with a warning, in order. */
  function Unregistered(registry: map<Key, CallbackClass>, required: seq<Requirement>, framework: string): seq<Requirement>
  {
    if required == [] then []
    else
      var r := required[|required| - 1];
      Unregistered(registry, required[..|required| - 1], framework)
        + (if Key(r, framework) !in registry then [r] else [])
  }

  /**
   * Every requirement is either resolved or warned about; the i-th callback
   * is an instance of the class registered for the i-th registered
   * requirement.
   */
  lemma {:induction false} ResolvedPartition(registry: map<Key, CallbackClass>, required: seq<Requirement>, framework: string)
    ensures var callbacks, hit, miss :=
        Resolved(registry, required, framework), Registered(registry, required, framework),
        Unregistered(registry, required, framework);
      && |callbacks| == |hit|
      && |hit| + |miss| == |required|
      && (forall i :: 0 <= i < |hit| ==> Key(hit[i], framework) in registry)
      && (forall i :: 0 <= i < |miss| ==> Key(miss[i], framework) !in registry)
      && (forall i :: 0 <= i < |callbacks| ==> callbacks[i] == Instance(registry[Key(hit[i], framework)]))
  {
    if required != [] {
      ResolvedPartition(registry, required[..|required| - 1], framework);
    }
  }

  /** At most one callback per requirement, and exactly one each when every key is registered. */
  lemma {:induction false} ResolvedComplete(registry: map<Key, CallbackClass>, required: seq<Requirement>, framework: string)
    ensures |Resolved(registry, required, framework)| <= |required|
    ensures |Resolved(registry, required, framework)| == |required|
      <==> forall i :: 0 <= i < |required| ==> Key(required[i], framework) in registry
  {
    if required != [] {
      var init := required[..|required| - 1];
      ResolvedComplete(registry, init, framework);
      if forall i :: 0 <= i < |required| ==> Key(required[i], framework) in registry {
        assert forall i :: 0 <= i < |init| ==> Key(init[i], framework) in registry by {
          forall i | 0 <= i < |init| ensures Key(init[i], framework) in registry {
            assert init[i] == required[i];
          }
        }
      }
    }
  }

  /** Resolution works requirement by requirement, so a repeated requirement yields a repeated instance. */
  lemma {:induction false} ResolvedAppend(registry: map<Key, CallbackClass>, a: seq<Requirement>, b: seq<Requirement>, framework: string)
    ensures Resolved(registry, a + b, framework) == Resolved(registry, a, framework) + Resolved(registry, b, framework)
  {
    if b != [] {
      var init := b[..|b| - 1];
      assert (a + b)[..|a + b| - 1] == a + init;
      ResolvedAppend(registry, a, init, framework);
    } else {
      assert a + b == a;
    }
  }

  class CallbackFactory {
    /** `_registry`: (requirement, framework) to callback class. */
    var registry: map<Key, CallbackClass>

    constructor ()
      ensures registry == map[]
    {
      registry := map[];
    }

    /**
     * The registration decorator applied to `callbackCls`: adds exactly the
     * new key and hands the class back unchanged; a key that is already
     * taken raises, and the earlier registration stays.
     */
    method RegisterCallback(requirement: Requirement, framework: string, callbackCls: CallbackClass)
      returns (r: Result<CallbackClass, RegistrationError>)
      modifies this
      ensures var key := Key(requirement, framework);
        key in old(registry) ==>
          && registry == old(registry)
          && r == Failure(AlreadyRegistered(requirement, framework, old(registry)[key], callbackCls))
      ensures var key := Key(requirement, framework);
        key !in old(registry) ==>
          && registry == old(registry)[key := callbackCls]
          && r == Success(callbackCls)
    {
      var key := Key(requirement, framework);
      if key in registry {
        return Failure(AlreadyRegistered(requirement, framework, registry[key], callbackCls));
      }
      registry := registry[key := callbackCls];
      r := Success(callbackCls);
    }

    /**
     * Walks the required requirements in order, instantiating each one that
     * has a callback for `framework` and reporting the others as warnings.
     * The registry is left as it was.
     */
    method CreateCallbacks(framework: string, required: seq<Requirement>)
      returns (callbacks: seq<Callback>, warnings: seq<Requirement>)
      ensures callbacks == Resolved(registry, required, framework)
      ensures warnings == Unregistered(registry, required, framework)
    {
      callbacks, warnings := [], [];
      var i := 0;
      while i < |required|
        invariant 0 <= i <= |required|
        invariant callbacks == Resolved(registry, required[..i], framework)
        invariant warnings == Unregistered(registry, required[..i], framework)
      {
        assert required[..i + 1][..i] == required[..i];
        var key := Key(required[i], framework);
        if key in registry {
          callbacks := callbacks + [Instance(registry[key])];
        } else {
          warnings := warnings + [required[i]];
        }
        i := i + 1;
      }
      assert required[..i] == required;
    }
  }
}
