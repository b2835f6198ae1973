/**
 * Field values, field specifications and what copying and resolving do to a
 * provider's attribute map.
 *
 * The attribute stores of a Type (its declared `kwargs`, its own attributes)
 * and of a Provider are maps from field name to value. The loops of
 * `copy_fields_to_provider` and `resolve_provider_fields` are described here
 * as folds over the field names, in the order the loops visit them; the
 * lemmas say what the folds leave behind, field by field.
 */
module Fields {

  /**
   * A deferred value, known only by its identity: two Lookups are the same
   * exactly when they are the same object, whatever their class.
   */
  datatype Lookup = Lookup(id: nat)

  /** A field value: a plain value, or a Lookup still to be evaluated. */
  datatype Value = Literal(text: string) | Deferred(lookup: Lookup)

  /**
   * A Type's field specification: `Open` when the class has no field spec
   * (any keyword argument is accepted), otherwise the spec's field names in
   * declaration order.
   */
  datatype Schema = Open | Fixed(fields: seq<string>)

  /** An attribute store: attribute name to value. */
  type Attrs = map<string, Value>

  /** The field names of a spec are the keys of a dictionary: no repeats. */
  predicate Distinct(fs: seq<string>)
  {
    forall i, j :: 0 <= i < j < |fs| ==> fs[i] != fs[j]
  }

  /** Every name in `fs` is an attribute of `m`. */
  predicate Covers(m: Attrs, fs: seq<string>)
  {
    forall k :: k in fs ==> k in m
  }

  /**
   * What one resolution step leaves in a field that held `v`: a Lookup is
   * replaced by its evaluation against `res`, anything else stays.
   */
  function Evaluated<R>(v: Value, eval: (Lookup, R) -> Value, res: R): Value
  {
    match v
    case Literal(_) => v
    case Deferred(l) => eval(l, res)
  }

  /** Unconstrained copy: every declared keyword argument, verbatim. */
  function CopyAll(before: Attrs, kwargs: Attrs): (r: Attrs)
    ensures forall k :: k in r <==> k in before || k in kwargs
    ensures forall k :: k in kwargs ==> r[k] == kwargs[k]
    ensures forall k :: k in before && k !in kwargs ==> r[k] == before[k]
  {
    before + kwargs
  }

  /** Constrained copy: `setattr(provider, k, src[k])` for each k of `fs`, in order. */
  function AssignFields(before: Attrs, fs: seq<string>, src: Attrs): Attrs
    requires Covers(src, fs)
    decreases |fs|
  {
    if fs == [] then before
    else
      var k := fs[|fs| - 1];
      AssignFields(before, fs[..|fs| - 1], src)[k := src[k]]
  }

  /** The copy that `copy_fields_to_provider` performs, by schema. */
  function CopyFields(before: Attrs, kwargs: Attrs, schema: Schema, typeAttrs: Attrs): Attrs
    requires schema.Fixed? ==> Covers(typeAttrs, schema.fields)
  {
    match schema
    case Open => CopyAll(before, kwargs)
    case Fixed(fs) => AssignFields(before, fs, typeAttrs)
  }

  /**
   * Resolution: for each k of `fs`, in order, the provider's value under k
   * is read and written back as `Evaluated`.
   */
  function ResolveFields<R>(before: Attrs, fs: seq<string>, eval: (Lookup, R) -> Value, res: R): (r: Attrs)
    requires Covers(before, fs)
    ensures r.Keys == before.Keys
    decreases |fs|
  {
    if fs == [] then before
    else
      var prev := ResolveFields(before, fs[..|fs| - 1], eval, res);
      var k := fs[|fs| - 1];
      prev[k := Evaluated(prev[k], eval, res)]
  }

  lemma PrefixMembers(fs: seq<string>, k: string)
    requires fs != []
    ensures k in fs <==> k in fs[..|fs| - 1] || k == fs[|fs| - 1]
  {
  }

  /**
   * After a constrained copy, each spec field holds the source's value, and
   * every other attribute is exactly as before (present, absent, value).
   */
  lemma {:induction false} AssignFieldsSpec(before: Attrs, fs: seq<string>, src: Attrs)
    requires Covers(src, fs)
    ensures forall k :: k in AssignFields(before, fs, src) <==> k in before || k in fs
    ensures forall k :: k in fs ==> AssignFields(before, fs, src)[k] == src[k]
    ensures forall k :: k in before && k !in fs ==> AssignFields(before, fs, src)[k] == before[k]
    decreases |fs|
  {
    if fs != [] {
      var init := fs[..|fs| - 1];
      AssignFieldsSpec(before, init, src);
      forall k ensures k in fs <==> k in init || k == fs[|fs| - 1] {
        PrefixMembers(fs, k);
      }
    }
  }

  /**
   * After resolution over distinct spec fields, each spec field holds the
   * evaluation of what it held before, and every other attribute is
   * unchanged.
   */
  lemma {:induction false} ResolveFieldsSpec<R>(before: Attrs, fs: seq<string>, eval: (Lookup, R) -> Value, res: R)
    requires Covers(before, fs) && Distinct(fs)
    ensures forall k :: k in fs ==> ResolveFields(before, fs, eval, res)[k] == Evaluated(before[k], eval, res)
    ensures forall k :: k in before && k !in fs ==> ResolveFields(before, fs, eval, res)[k] == before[k]
    decreases |fs|
  {
    if fs != [] {
      var init := fs[..|fs| - 1];
      var last := fs[|fs| - 1];
      assert Distinct(init);
      ResolveFieldsSpec(before, init, eval, res);
      assert last !in init by {
        forall i | 0 <= i < |init| ensures init[i] != last {
          assert fs[i] == init[i];
        }
      }
      forall k ensures k in fs <==> k in init || k == last {
        PrefixMembers(fs, k);
      }
    }
  }

  /** Both copy modes, stated field by field. */
  lemma CopyFieldsSpec(before: Attrs, kwargs: Attrs, schema: Schema, typeAttrs: Attrs)
    requires schema.Fixed? ==> Covers(typeAttrs, schema.fields)
    ensures schema.Open? ==>
      && (forall k :: k in CopyFields(before, kwargs, schema, typeAttrs) <==> k in before || k in kwargs)
      && (forall k :: k in kwargs ==> CopyFields(before, kwargs, schema, typeAttrs)[k] == kwargs[k])
      && (forall k :: k in before && k !in kwargs ==> CopyFields(before, kwargs, schema, typeAttrs)[k] == before[k])
    ensures schema.Fixed? ==>
      && (forall k :: k in CopyFields(before, kwargs, schema, typeAttrs) <==> k in before || k in schema.fields)
      && (forall k :: k in schema.fields ==> CopyFields(before, kwargs, schema, typeAttrs)[k] == typeAttrs[k])
      && (forall k :: k in before && k !in schema.fields ==> CopyFields(before, kwargs, schema, typeAttrs)[k] == before[k])
  {
    if schema.Fixed? {
      AssignFieldsSpec(before, schema.fields, typeAttrs);
    }
  }

  /**
   * With a field spec, a keyword argument outside the spec never reaches the
   * provider: the copy does not depend on `kwargs` at all.
   */
  lemma FixedCopyIgnoresKwargs(before: Attrs, kwargs: Attrs, fs: seq<string>, typeAttrs: Attrs, k: string)
    requires Covers(typeAttrs, fs) && k in kwargs && k !in fs
    ensures k in CopyFields(before, kwargs, Fixed(fs), typeAttrs) <==> k in before
    ensures k in before ==> CopyFields(before, kwargs, Fixed(fs), typeAttrs)[k] == before[k]
  {
    AssignFieldsSpec(before, fs, typeAttrs);
  }

  /** Copying twice from the same Type leaves what copying once leaves. */
  lemma CopyFieldsIdempotent(before: Attrs, kwargs: Attrs, schema: Schema, typeAttrs: Attrs)
    requires schema.Fixed? ==> Covers(typeAttrs, schema.fields)
    ensures CopyFields(CopyFields(before, kwargs, schema, typeAttrs), kwargs, schema, typeAttrs)
         == CopyFields(before, kwargs, schema, typeAttrs)
  {
    var once := CopyFields(before, kwargs, schema, typeAttrs);
    var twice := CopyFields(once, kwargs, schema, typeAttrs);
    CopyFieldsSpec(before, kwargs, schema, typeAttrs);
    CopyFieldsSpec(once, kwargs, schema, typeAttrs);
    assert twice.Keys == once.Keys;
  }

  /**
   * Copy then resolve, as `provider()` does: each spec field ends up holding
   * the Type's attribute value, or its evaluation when that value is a
   * Lookup; attributes the provider had outside the spec are untouched.
   */
  lemma {:induction false} CopyThenResolve<R>(init: Attrs, fs: seq<string>, typeAttrs: Attrs, eval: (Lookup, R) -> Value, res: R)
    requires Covers(typeAttrs, fs) && Distinct(fs)
    ensures Covers(AssignFields(init, fs, typeAttrs), fs)
    ensures forall k :: k in ResolveFields(AssignFields(init, fs, typeAttrs), fs, eval, res) <==> k in init || k in fs
    ensures forall k :: k in fs ==>
      ResolveFields(AssignFields(init, fs, typeAttrs), fs, eval, res)[k] == Evaluated(typeAttrs[k], eval, res)
    ensures forall k :: k in init && k !in fs ==>
      ResolveFields(AssignFields(init, fs, typeAttrs), fs, eval, res)[k] == init[k]
  {
    AssignFieldsSpec(init, fs, typeAttrs);
    ResolveFieldsSpec(AssignFields(init, fs, typeAttrs), fs, eval, res);
  }

  /**
   * Building twice from the same Type with two runs of Lookup evaluation:
   * the results have the same attribute names and differ at most in spec
   * fields whose Type value is a Lookup; where the two runs agree on every
   * Lookup, the results are equal.
   */
  lemma TwoEvaluations<R>(init: Attrs, fs: seq<string>, typeAttrs: Attrs,
                          eval1: (Lookup, R) -> Value, eval2: (Lookup, R) -> Value, res: R)
    requires Covers(typeAttrs, fs) && Distinct(fs)
    ensures Covers(AssignFields(init, fs, typeAttrs), fs)
    ensures ResolveFields(AssignFields(init, fs, typeAttrs), fs, eval1, res).Keys
         == ResolveFields(AssignFields(init, fs, typeAttrs), fs, eval2, res).Keys
    ensures forall k :: k in ResolveFields(AssignFields(init, fs, typeAttrs), fs, eval1, res) && k !in fs ==>
      ResolveFields(AssignFields(init, fs, typeAttrs), fs, eval1, res)[k]
        == ResolveFields(AssignFields(init, fs, typeAttrs), fs, eval2, res)[k]
    ensures forall k :: k in fs && typeAttrs[k].Literal? ==>
      ResolveFields(AssignFields(init, fs, typeAttrs), fs, eval1, res)[k]
        == ResolveFields(AssignFields(init, fs, typeAttrs), fs, eval2, res)[k] == typeAttrs[k]
    ensures (forall l :: eval1(l, res) == eval2(l, res)) ==>
      ResolveFields(AssignFields(init, fs, typeAttrs), fs, eval1, res)
        == ResolveFields(AssignFields(init, fs, typeAttrs), fs, eval2, res)
  {
    CopyThenResolve(init, fs, typeAttrs, eval1, res);
    CopyThenResolve(init, fs, typeAttrs, eval2, res);
    var a := ResolveFields(AssignFields(init, fs, typeAttrs), fs, eval1, res);
    var b := ResolveFields(AssignFields(init, fs, typeAttrs), fs, eval2, res);
    assert a.Keys == b.Keys;
    if forall l :: eval1(l, res) == eval2(l, res) {
      forall k | k in a ensures a[k] == b[k] {
        if k in fs {
          assert Evaluated(typeAttrs[k], eval1, res) == Evaluated(typeAttrs[k], eval2, res);
        }
      }
    }
  }

  /**
   * A file-like declaration with spec fields `path` and `mode`, where `mode`
   * is a Lookup that evaluates to "0644": the built provider holds the plain
   * path and the evaluated mode.
   */
  lemma PathModeExample<R>(eval: (Lookup, R) -> Value, res: R, mode: Lookup)
    requires eval(mode, res) == Literal("0644")
    ensures ResolveFields(AssignFields(map[], ["path", "mode"], map["path" := Literal("/etc/x"), "mode" := Deferred(mode)]),
                          ["path", "mode"], eval, res)
         == map["path" := Literal("/etc/x"), "mode" := Literal("0644")]
  {
  }
}
