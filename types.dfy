/**
 * The base `Type` of a resource declaration: choosing its provider class,
 * building the provider from the Type, copying the Type's fields onto it and
 * resolving the Lookups among them; plus the context accessor pair and the
 * diagnostic label.
 *
 * Two hooks that subtypes supply are constructor arguments of `Type`: the
 * named-provider hook (`get_provider`; the base class's is `GetProvider`,
 * which knows no name) and the default provider class (`default_provider`).
 * Lookup evaluation and the `%s` rendering of a value are parameters.
 */
module Types {
  import opened Wrappers
  import opened Fields

  /**
   * A provider class: its name and the attributes its constructor sets on
   * every new instance, before any field is copied.
   */
  datatype ProviderClass = ProviderClass(name: string, initial: Attrs)

  /** The engine's execution context, held by reference only. */
  datatype ContextHandle = ContextHandle(id: nat)

  /**
   * Why `provider()` produced nothing: the chosen class was `None` (calling
   * it fails), or the Type has no field spec (resolution dereferences it).
   */
  datatype Failure = ProviderClassIsNone | FieldSpecIsNone

  /** The base class's `get_provider`: no provider name is known. */
  function GetProvider(name: Value): Option<ProviderClass>
  {
    None
  }

  /**
   * The class `provider()` instantiates: the named-provider hook applied to
   * `kwargs["method"]` when the declaration has a `method` entry, the
   * default provider class otherwise.
   */
  function SelectProviderClass(kwargs: Attrs, getProvider: Value -> Option<ProviderClass>,
                               defaultProvider: ProviderClass): Option<ProviderClass>
  {
    if "method" in kwargs then getProvider(kwargs["method"]) else Some(defaultProvider)
  }

  /**
   * Exactly one of the two hooks decides: with a `method` entry the default
   * class plays no part, without one the named-provider hook plays none.
   */
  lemma SelectionConsultsOneHook(kwargs: Attrs, g1: Value -> Option<ProviderClass>, g2: Value -> Option<ProviderClass>,
                                 d1: ProviderClass, d2: ProviderClass)
    ensures "method" in kwargs ==>
      SelectProviderClass(kwargs, g1, d1) == SelectProviderClass(kwargs, g1, d2) == g1(kwargs["method"])
    ensures "method" !in kwargs ==>
      SelectProviderClass(kwargs, g1, d1) == SelectProviderClass(kwargs, g2, d1) == Some(d1)
  {
  }

  /** With the base class's hook, a class is chosen exactly when there is no `method` entry. */
  lemma BaseHookDispatch(kwargs: Attrs, defaultProvider: ProviderClass)
    ensures SelectProviderClass(kwargs, GetProvider, defaultProvider).None? <==> "method" in kwargs
    ensures "method" !in kwargs ==> SelectProviderClass(kwargs, GetProvider, defaultProvider) == Some(defaultProvider)
  {
  }

  /** One optional part of the label: `open`, the rendered value, `close`; or nothing. */
  function LabelPart(kwargs: Attrs, key: string, open: string, close: string, show: Value -> string): string
  {
    if key in kwargs then open + show(kwargs[key]) + close else ""
  }

  /**
   * The diagnostic label: the class name, then `: name`, ` (signals: ...)`
   * and ` (handles: ...)`, each present exactly when its entry is declared.
   */
  function LabelOf(className: string, kwargs: Attrs, show: Value -> string): string
  {
    className
      + LabelPart(kwargs, "name", ": ", "", show)
      + LabelPart(kwargs, "signals", " (signals: ", ")", show)
      + LabelPart(kwargs, "handles", " (handles: ", ")", show)
  }

  /**
   * The label starts with the class name; the character after it is ':'
   * exactly when a name is declared; and the label is the bare class name
   * exactly when none of the three entries is declared.
   */
  lemma LabelShape(className: string, kwargs: Attrs, show: Value -> string)
    ensures className <= LabelOf(className, kwargs, show)
    ensures "name" in kwargs <==>
      |LabelOf(className, kwargs, show)| > |className| && LabelOf(className, kwargs, show)[|className|] == ':'
    ensures LabelOf(className, kwargs, show) == className <==>
      "name" !in kwargs && "signals" !in kwargs && "handles" !in kwargs
  {
  }

  /** The object a provider class builds: its class, its resource, its attributes. */
  class Provider {
    const cls: ProviderClass
    const resource: Type
    var attrs: Attrs

    /** `cls(resource)`: a new instance that refers back to the Type that built it. */
    constructor (cls: ProviderClass, resource: Type)
      ensures this.cls == cls && this.resource == resource
      ensures attrs == cls.initial
    {
      this.cls := cls;
      this.resource := resource;
      attrs := cls.initial;
    }
  }

  class Type {
    const className: string
    /** The class's field spec. */
    const fieldSpec: Schema
    /** The declared keyword arguments, never changed after construction. */
    const kwargs: Attrs
    /** The subtype's `get_provider`. */
    const getProvider: Value -> Option<ProviderClass>
    /** What the subtype's `default_provider()` returns. */
    const defaultProvider: ProviderClass
    /** The Type's own attributes, one per spec field when there is a spec. */
    var attrs: Attrs
    /** The execution context; `None` until the engine attaches one. */
    var ctx: Option<ContextHandle>

    /**
     * A field spec names each field once, and construction has made every
     * spec field an attribute of the Type.
     */
    ghost predicate Valid()
      reads this
    {
      fieldSpec.Fixed? ==> Distinct(fieldSpec.fields) && Covers(attrs, fieldSpec.fields)
    }

    constructor (className: string, fieldSpec: Schema, kwargs: Attrs, attrs: Attrs,
                 getProvider: Value -> Option<ProviderClass>, defaultProvider: ProviderClass)
      ensures this.className == className && this.fieldSpec == fieldSpec && this.kwargs == kwargs
      ensures this.attrs == attrs && this.getProvider == getProvider && this.defaultProvider == defaultProvider
      ensures ctx == None
      ensures Valid() <==> (fieldSpec.Fixed? ==> Distinct(fieldSpec.fields) && Covers(attrs, fieldSpec.fields))
    {
      this.className := className;
      this.fieldSpec := fieldSpec;
      this.kwargs := kwargs;
      this.attrs := attrs;
      this.getProvider := getProvider;
      this.defaultProvider := defaultProvider;
      ctx := None;
    }

    /**
     * Build the provider: choose the class, construct it with this Type as
     * its resource, copy the fields, then resolve the Lookups among them.
     */
    method Provider(eval: (Lookup, Type) -> Value) returns (r: Result<Provider, Failure>)
      requires Valid()
      ensures SelectProviderClass(kwargs, getProvider, defaultProvider).None? ==> r == Err(ProviderClassIsNone)
      ensures SelectProviderClass(kwargs, getProvider, defaultProvider).Some? && fieldSpec.Open? ==>
        r == Err(FieldSpecIsNone)
      ensures SelectProviderClass(kwargs, getProvider, defaultProvider).Some? && fieldSpec.Fixed? ==>
        && r.Ok? && fresh(r.value)
        && r.value.cls == SelectProviderClass(kwargs, getProvider, defaultProvider).value
        && r.value.resource == this
        && Covers(AssignFields(r.value.cls.initial, fieldSpec.fields, attrs), fieldSpec.fields)
        && r.value.attrs == ResolveFields(AssignFields(r.value.cls.initial, fieldSpec.fields, attrs),
                                          fieldSpec.fields, eval, this)
    {
      var cls: Option<ProviderClass>;
      if "method" in kwargs {
        cls := getProvider(kwargs["method"]);
      } else {
        cls := Some(defaultProvider);
      }
      if cls.None? {
        return Err(ProviderClassIsNone);
      }
      var inst := new Provider(cls.value, this);
      CopyFieldsToProvider(inst);
      if fieldSpec.Open? {
        return Err(FieldSpecIsNone);
      }
      AssignFieldsSpec(cls.value.initial, fieldSpec.fields, attrs);
      ResolveProviderFields(inst, eval);
      return Ok(inst);
    }

    /**
     * Two calls build two distinct providers, and building one changes
     * nothing the other is built from. Lookup evaluation runs again on each
     * call and may give a different value (`eval1`, `eval2`): the two
     * providers agree on every attribute except the spec fields that hold a
     * Lookup on the Type, and agree on those too when the two evaluations
     * agree.
     */
    method ProviderTwice(eval1: (Lookup, Type) -> Value, eval2: (Lookup, Type) -> Value)
      returns (first: Result<Provider, Failure>, second: Result<Provider, Failure>)
      requires Valid()
      ensures first.Ok? <==> second.Ok?
      ensures first.Err? ==> first == second
      ensures first.Ok? ==>
        && fieldSpec.Fixed?
        && first.value != second.value
        && first.value.cls == second.value.cls
        && first.value.attrs.Keys == second.value.attrs.Keys
        && (forall k :: k in first.value.attrs && k !in fieldSpec.fields ==>
              first.value.attrs[k] == second.value.attrs[k])
        && Covers(attrs, fieldSpec.fields) && Covers(first.value.attrs, fieldSpec.fields)
        && (forall k :: k in fieldSpec.fields && attrs[k].Literal? ==>
              first.value.attrs[k] == second.value.attrs[k] == attrs[k])
        && ((forall l :: eval1(l, this) == eval2(l, this)) ==> first.value.attrs == second.value.attrs)
    {
      first := Provider(eval1);
      second := Provider(eval2);
      if first.Ok? {
        TwoEvaluations(first.value.cls.initial, fieldSpec.fields, attrs, eval1, eval2, this);
      }
    }

    /**
     * Put the Type's fields on the provider: without a field spec every
     * keyword argument; with one, each spec field's attribute value.
     */
    method CopyFieldsToProvider(p: Provider)
      requires Valid()
      modifies p
      ensures p.attrs == CopyFields(old(p.attrs), kwargs, fieldSpec, attrs)
    {
      match fieldSpec {
        case Open =>
          var todo := kwargs.Keys;
          while todo != {}
            invariant todo <= kwargs.Keys
            invariant p.attrs == old(p.attrs) + (map k | k in kwargs && k !in todo :: kwargs[k])
            decreases todo
          {
            var k :| k in todo;
            p.attrs := p.attrs[k := kwargs[k]];
            todo := todo - {k};
          }
          assert (map k | k in kwargs && k !in todo :: kwargs[k]) == kwargs;
        case Fixed(fs) =>
          for i := 0 to |fs|
            invariant p.attrs == AssignFields(old(p.attrs), fs[..i], attrs)
          {
            assert fs[..i + 1][..i] == fs[..i];
            p.attrs := p.attrs[fs[i] := attrs[fs[i]]];
          }
          assert fs[..|fs|] == fs;
      }
    }

    /**
     * Replace each spec field's Lookup on the provider by its evaluation
     * against the provider's resource; write other values back unchanged.
     */
    method ResolveProviderFields(p: Provider, eval: (Lookup, Type) -> Value)
      requires fieldSpec.Fixed? && Covers(p.attrs, fieldSpec.fields)
      modifies p
      ensures p.attrs == ResolveFields(old(p.attrs), fieldSpec.fields, eval, p.resource)
    {
      var fs := fieldSpec.fields;
      for i := 0 to |fs|
        invariant Covers(old(p.attrs), fs[..i])
        invariant p.attrs == ResolveFields(old(p.attrs), fs[..i], eval, p.resource)
      {
        assert fs[..i + 1][..i] == fs[..i];
        var value := p.attrs[fs[i]];
        if value.Deferred? {
          value := eval(value.lookup, p.resource);
        }
        p.attrs := p.attrs[fs[i] := value];
      }
      assert fs[..|fs|] == fs;
    }

    /** The execution context the engine attached, if any. */
    function Context(): Option<ContextHandle>
      reads this
    {
      ctx
    }

    /** Set the execution context (possibly to `None`); nothing else about the Type changes. */
    method SetContext(value: Option<ContextHandle>)
      modifies this`ctx
      ensures Context() == value
    {
      ctx := value;
    }

    /** The diagnostic label `__str__` builds from the declared keyword arguments. */
    method Label(show: Value -> string) returns (s: string)
      ensures s == LabelOf(className, kwargs, show)
    {
      if "name" in kwargs {
        s := className + ": " + show(kwargs["name"]);
      } else {
        s := className;
      }
      assert s == className + LabelPart(kwargs, "name", ": ", "", show);
      if "signals" in kwargs {
        s := s + " (signals: " + show(kwargs["signals"]) + ")";
      }
      assert s == className + LabelPart(kwargs, "name", ": ", "", show)
                  + LabelPart(kwargs, "signals", " (signals: ", ")", show);
      if "handles" in kwargs {
        s := s + " (handles: " + show(kwargs["handles"]) + ")";
      }
    }
  }
}
