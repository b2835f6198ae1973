# opsmop `Type`: provider dispatch and field marshalling

A model, in Dafny, of the base `Type` class of opsmop, the declarative
configuration-management engine. A `Type` is a declared resource (a file, a
package, a service). At execution time it picks a provider class, builds a
provider with itself as the provider's `resource`, copies its fields onto the
provider and replaces the Lookups (deferred values) among them by their
evaluation.

Files:

- `wrappers.dfy`: `Option` and `Result`.
- `fields.dfy` (module `Fields`): field values (`Literal` or `Deferred`
  Lookup), the field spec as `Open | Fixed(fields)`, attribute stores as
  maps, and the copy and resolve loops described as folds over the field
  names in loop order, with lemmas that state their effect field by field.
- `types.dfy` (module `Types`): provider classes, provider selection, the
  diagnostic label, and the classes `Provider` and `Type`, whose methods
  update attribute maps in place and are proved against the functions of
  `Fields`.

Modelling choices:

- Python attributes reached with `getattr`/`setattr` are maps from name to
  value: `Type.attrs`, `Type.kwargs` and `Provider.attrs`.
- "Is this value a Lookup" (`issubclass(type(value), Lookup)`) is the
  `Deferred` case of `Value`.
- `Lookup.evaluate` is the parameter `eval: (Lookup, Type) -> Value`. It is
  applied to the provider's `resource`, as at line 69.
- `get_provider` and `default_provider` can be overridden by a subtype. They
  are the constructor arguments `getProvider` and `defaultProvider` of
  `Type`. The base class's `get_provider` is `Types.GetProvider`, which
  returns `None` for every name.
- A provider class is a name plus the attributes its constructor sets on a
  new instance (`ProviderClass.initial`).
- `%s` rendering in `__str__` is the parameter `show: Value -> string`.
- A Lookup is known by its identity only (`Lookup(id)`), as a distinct
  Python object is.
- The execution context is an opaque handle, or `None`; it is `None` until
  `SetContext` is called.

Behaviour of the code the model follows:

- An unknown `method` name does not raise a dedicated "unknown provider"
  error. `get_provider` returns `None` (line 47) and `cls(self)` at line 41
  then fails. The model returns `Err(ProviderClassIsNone)`.
- With no field spec, `provider()` still calls `resolve_provider_fields`
  (line 43), which dereferences `self._field_spec.fields` (line 66) and
  fails. So an open-schema Type never yields a provider from the base
  `provider()`, even when its provider class exists. The model returns
  `Err(FieldSpecIsNone)` after the copy, and `ResolveProviderFields`
  requires a `Fixed` schema.
- Lookups are evaluated against `provider.resource` (line 69). The model's
  provider constructor stores the Type as `resource`, so this is the Type.

## Model

| member | source | states |
|---|---|---|
| `Types.Type.Provider` | opsmop/types/type.py:25-44 | No class chosen gives `Err(ProviderClassIsNone)`. A class but no field spec gives `Err(FieldSpecIsNone)`. Otherwise the result is a fresh instance of the chosen class whose `resource` is this Type, and whose attributes are the class's initial ones after copy, then resolve, over the spec fields. |
| `Types.Type.ProviderTwice` | opsmop/types/type.py:41-44 | Two calls succeed or fail together, and successes are distinct objects of the same class with the same attribute names. Line 69 runs Lookup evaluation again on each call, so the two calls get two evaluation functions. The providers agree on every attribute outside the spec, and on every spec field whose Type value is plain. They are equal when the two evaluations agree on every Lookup. |
| `Fields.TwoEvaluations` | opsmop/types/type.py:59-70 | Copy then resolve, run with two evaluation functions: the same attribute names, agreement outside the spec and on plain spec fields, and equality when the evaluations agree. |
| `Types.GetProvider` | opsmop/types/type.py:46-47 | The base class's named-provider hook: no class for any name. |
| `Types.SelectProviderClass` | opsmop/types/type.py:35-40 | The chosen class: the hook applied to `kwargs["method"]` if that entry exists, else the default class. |
| `Fields.CopyFields` | opsmop/types/type.py:55-62 | The copy by schema: `CopyAll` of `kwargs` with no spec, `AssignFields` from the Type's attributes with one. |
| `Fields.AssignFields` | opsmop/types/type.py:60-62 | One `setattr(provider, k, getattr(self, k))` per spec field, in spec order. |
| `Fields.Evaluated` | opsmop/types/type.py:67-70 | One resolution step: a Lookup becomes its evaluation against the resource, any other value is written back as it was. |
| `Types.LabelOf` | opsmop/types/type.py:90-99 | The class name followed by the optional name, signals and handles parts, in that order. |
| `Types.Type.Context` | opsmop/types/type.py:75-76 | The stored execution context. |
| `Types.SelectionConsultsOneHook` | opsmop/types/type.py:35-40 | With a `method` entry the class is `getProvider(kwargs["method"])` and the default class plays no part. Without one it is the default class, and the named-provider hook plays no part. |
| `Types.BaseHookDispatch` | opsmop/types/type.py:46-47 | With the base `get_provider`, no class is chosen exactly when `kwargs` has a `method` entry. Otherwise the default class is chosen. |
| `Types.Type.CopyFieldsToProvider` | opsmop/types/type.py:49-62 | The provider's new attribute map is `CopyFields` of its old one. That is `kwargs` laid over it with no spec, and each spec field set from the Type's own attribute, in spec order, with a spec. |
| `Fields.CopyAll` | opsmop/types/type.py:55-58 | No field spec: the keys afterwards are the old keys plus the `kwargs` keys. Every `kwargs` key holds its `kwargs` value. Every other attribute keeps its value. |
| `Fields.AssignFieldsSpec` | opsmop/types/type.py:59-62 | With a spec: the keys afterwards are the old keys plus the spec fields. Each spec field holds the Type's attribute. Every attribute outside the spec keeps its value. |
| `Fields.CopyFieldsSpec` | opsmop/types/type.py:55-62 | Both copy modes, field by field, as in the two rows above. |
| `Fields.FixedCopyIgnoresKwargs` | opsmop/types/type.py:59-62 | With a spec, a `kwargs` entry outside the spec never reaches the provider. The attribute is present afterwards exactly when it was before, with the same value. |
| `Fields.CopyFieldsIdempotent` | opsmop/types/type.py:49-62 | Copying twice from the same Type leaves the same attribute map as copying once, in both modes. |
| `Types.Type.ResolveProviderFields` | opsmop/types/type.py:64-70 | Requires a field spec whose fields are all provider attributes. The new attribute map is `ResolveFields` of the old one, against the provider's `resource`. |
| `Fields.ResolveFields` | opsmop/types/type.py:64-70 | Resolution keeps the set of attribute names: it only rewrites existing attributes. |
| `Fields.ResolveFieldsSpec` | opsmop/types/type.py:66-70 | With distinct spec fields: a spec field that held Lookup `l` holds `eval(l, resource)`. A spec field holding a plain value keeps it. Every attribute outside the spec is unchanged. |
| `Fields.CopyThenResolve` | opsmop/types/type.py:41-44 | Copy then resolve with a spec: each spec field ends up with the Type's attribute value, or its evaluation if it is a Lookup. Attributes a new provider had outside the spec are untouched. |
| `Fields.PathModeExample` | opsmop/types/type.py:59-70 | Spec fields `path` and `mode`, where `mode` is a Lookup evaluating to "0644": the provider ends with `path = "/etc/x"` and `mode = "0644"`. |
| `Types.Type.SetContext` | opsmop/types/type.py:78-79 | After `SetContext(v)`, `Context()` returns `v`, including `v = None`. The frame lets nothing but the context change. |
| `Types.Type.Label` | opsmop/types/type.py:87-99 | The label built step by step equals `LabelOf`. That is the class name, then `": " + name`, `" (signals: …)"` and `" (handles: …)"`, each exactly when its `kwargs` entry exists, in that order. |
| `Types.LabelShape` | opsmop/types/type.py:90-99 | The label starts with the class name. The next character is `:` exactly when a name is declared. The label is the bare class name exactly when none of `name`, `signals` and `handles` is declared. |

## Left out

- `validate` (lines 22-23) is a no-op in the base class; there is nothing to model.
- `facts()` (lines 72-73) only builds a `Facts` object; fact gathering is not part of this model.
- `template` and `template_file` (lines 81-85) delegate to the template renderer, which is not part of this model.
- `Lookup.evaluate` is a parameter function; what a Lookup computes (facts, templates, other resources) is not modelled. It receives the resource's identity, not its state.
- How `Resource` initialises a Type's attributes and context from `kwargs` is outside this file. The model takes `attrs`, `kwargs` and the spec as given, and `Type.Valid` assumes every spec field is already an attribute.
- `default_provider` is supplied by each subtype and is not in this file. The model always has a default class, so a subtype that lacks one is not modelled.
- Python's dynamic typing and reflection are replaced by the `Value` union and by maps. A failing `getattr` on a missing attribute is excluded by `Type.Valid` and by the requires of `ResolveProviderFields`, not modelled as an error.
- A Lookup evaluation that raises is not modelled; `eval` always returns a value.
- Provider attributes (`Provider.attrs`) and the provider's back-reference (`Provider.resource`) are separate in the model. In Python they share one attribute namespace, so a spec field or keyword argument named `resource` would overwrite the back-reference at line 58 or 62. Line 69 would then evaluate Lookups against the copied value instead of the Type. The model does not capture that overwrite.
- Field values are copied as values. Python shares references, so aliasing between a Type's attribute and a provider's attribute is not modelled.
- `Types.Type.Label`: a value is rendered with `show`, standing in for Python's `%s`. Its actual text is not modelled.
