/**
 * Reform::Base, the root of every declarative form type.
 *
 * Two kinds of state live in the library:
 *  - class-level metadata: every qualifying form type owns one record (action,
 *    method, renderer class, default values, ordered field specs), created when
 *    the type is introduced and grown by its `field` declarations. `Registry`
 *    holds these records, keyed by the type's name;
 *  - instances: `Form` is what `new` builds from a type's record and the
 *    run-time options; it renders itself by concatenating markup fragments.
 *
 * Field and renderer classes are collaborators outside the core. A field
 * object is represented by the class it was built from and the options it was
 * given; its `label` and `to_s` are passed to `ToS` as functions. A renderer
 * class is represented by the four fragments its (argument-free) instances
 * produce.
 */
module Reform {

  datatype Option<+T> = None | Some(value: T)

  /** Calling a class-level operation on a type that never received metadata:
      the record is nil, so Ruby raises NoMethodError. */
  datatype Error = NoMetadata(klass: TypeName)

  datatype Result<+T> = Ok(value: T) | Err(error: Error)

  /** An option value. nil and false are the only falsy values; every truthy
      value the core looks at is a name, a string or a symbol, and the model
      does not tell strings from symbols. */
  datatype Value = Nil | False | Str(s: string)

  predicate Truthy(v: Value) {
    !v.Nil? && !v.False?
  }

  /** An options hash or a values hash, keyed by option name. */
  type Options = map<string, Value>

  /** Hash#[]: the value stored under `key`, nil when there is none. */
  function Get(o: Options, key: string): Value {
    if key in o then o[key] else Nil
  }

  /** `supplied || default`, where an absent, nil or false run-time option is None. */
  function Or<T>(supplied: Option<T>, default: T): T {
    if supplied.Some? then supplied.value else default
  }

  /** The name of a form type, as `self.name` gives it. */
  type TypeName = string

  /** The name of a field class (a Field implementation). */
  type FieldClass = string

  /** What a `field` declaration records: the field class and its options. */
  datatype FieldSpec = FieldSpec(fieldClass: FieldClass, options: Options)

  /** A field object, as built by `fieldClass.new(options)`. */
  datatype Field = Field(fieldClass: FieldClass, options: Options)

  /** A renderer class, given by the fragments its instances return. */
  datatype Renderer = Renderer(
    innerFormOpen: string,
    innerFormClose: string,
    labelOuterOpen: string,
    fieldOuterClose: string)

  /** A form type's metadata record (the keys field_lookup, field_names and
      fieldsets are never read and are left out). */
  datatype Meta = Meta(
    action: string,
    httpMethod: string,
    renderer: Renderer,
    values: Options,
    fields: seq<FieldSpec>)

  /** The record a qualifying type starts with. */
  function FreshMeta(renderer: Renderer): Meta {
    Meta("", "post", renderer, map[], [])
  }

  /** A new type gets metadata only when its superclass's name starts with "Reform::". */
  predicate Qualifies(superName: string) {
    "Reform::" <= superName
  }

  /** Every spec that `field` produces has a truthy name and a truthy id. */
  predicate Declared(spec: FieldSpec) {
    Truthy(Get(spec.options, "name")) && Truthy(Get(spec.options, "id"))
  }

  /** The spec that `field(name, fieldClass, options)` pushes on type `klass`:
      `name` defaults to the field name and `id` to "<TypeName>_<name>", each
      only where the caller left it absent, nil or false. */
  function Declare(klass: TypeName, name: string, fieldClass: FieldClass, options: Options): (spec: FieldSpec)
    ensures spec.fieldClass == fieldClass
    ensures Get(spec.options, "name") == if Truthy(Get(options, "name")) then options["name"] else Str(name)
    ensures Get(spec.options, "id") == if Truthy(Get(options, "id")) then options["id"] else Str(klass + "_" + name)
    ensures spec.options.Keys == options.Keys + {"name", "id"}
    ensures forall key :: key in options && key != "name" && key != "id" ==> spec.options[key] == options[key]
    ensures Declared(spec)
  {
    var named := if Truthy(Get(options, "name")) then options else options["name" := Str(name)];
    var identified := if Truthy(Get(named, "id")) then named else named["id" := Str(klass + "_" + name)];
    FieldSpec(fieldClass, identified)
  }

  /** A declaration without options records exactly the two defaults. */
  lemma DeclareDefaults(klass: TypeName, name: string, fieldClass: FieldClass)
    ensures Declare(klass, name, fieldClass, map[]) ==
            FieldSpec(fieldClass, map["name" := Str(name), "id" := Str(klass + "_" + name)])
  {
  }

  /** The options a spec carries once an instance has been built with `values`:
      a spec with a name gets `value = values[name]`, nil when that key is
      absent; a spec without one is left alone. */
  function Bind(options: Options, values: Options): (bound: Options)
    ensures Truthy(Get(options, "name")) ==>
              bound.Keys == options.Keys + {"value"} &&
              bound["value"] == Get(values, Get(options, "name").s)
    ensures !Truthy(Get(options, "name")) ==> bound == options
    ensures forall key :: key in options && key != "value" ==> key in bound && bound[key] == options[key]
  {
    var name := Get(options, "name");
    if Truthy(name) then options["value" := Get(values, name.s)] else options
  }

  /** Binding keeps a declared spec declared: its name and id are untouched. */
  lemma BindKeepsDeclaration(spec: FieldSpec, values: Options)
    requires Declared(spec)
    ensures Declared(spec.(options := Bind(spec.options, values)))
    ensures Get(Bind(spec.options, values), "name") == Get(spec.options, "name")
    ensures Get(Bind(spec.options, values), "id") == Get(spec.options, "id")
    ensures Get(Bind(spec.options, values), "value") == Get(values, Get(spec.options, "name").s)
  {
  }

  /** Binding overwrites what an earlier binding wrote: after any sequence of
      constructions the stored specs carry the values of the last one only. */
  lemma BindLastWins(options: Options, earlier: Options, later: Options)
    ensures Bind(Bind(options, earlier), later) == Bind(options, later)
  {
  }

  // ---------------------------------------------------------------------------
  // Rendering

  /** The opening form tag, `<form method="M" action="A">`. */
  function Header(httpMethod: string, action: string): string {
    "<form method=\"" + httpMethod + "\" action=\"" + action + "\">"
  }

  /** One field's block: label-open fragment, label, field body, field-close fragment. */
  function Block(r: Renderer, f: Field, labelOf: Field -> string, bodyOf: Field -> string): string {
    r.labelOuterOpen + labelOf(f) + bodyOf(f) + r.fieldOuterClose
  }

  /** The blocks of all fields, in field order. */
  function Blocks(r: Renderer, fields: seq<Field>, labelOf: Field -> string, bodyOf: Field -> string): string
  {
    if fields == [] then ""
    else Blocks(r, fields[..|fields| - 1], labelOf, bodyOf) + Block(r, fields[|fields| - 1], labelOf, bodyOf)
  }

  /** The markup of a form: tag, inner-open fragment, field blocks, inner-close
      fragment, closing tag. */
  function Render(httpMethod: string, action: string, r: Renderer, fields: seq<Field>,
                  labelOf: Field -> string, bodyOf: Field -> string): string
  {
    Header(httpMethod, action) + r.innerFormOpen + Blocks(r, fields, labelOf, bodyOf) + r.innerFormClose + "</form>"
  }

  /** The blocks of two consecutive runs of fields are the two runs' blocks, concatenated. */
  lemma {:induction false} BlocksAppend(r: Renderer, a: seq<Field>, b: seq<Field>,
                                        labelOf: Field -> string, bodyOf: Field -> string)
    ensures Blocks(r, a + b, labelOf, bodyOf) == Blocks(r, a, labelOf, bodyOf) + Blocks(r, b, labelOf, bodyOf)
    decreases |b|
  {
    if b == [] {
      assert a + b == a;
    } else {
      var front := b[..|b| - 1];
      assert (a + b)[..|a + b| - 1] == a + front;
      assert (a + b)[|a + b| - 1] == b[|b| - 1];
      BlocksAppend(r, a, front, labelOf, bodyOf);
    }
  }

  /** Each field's block stands between the blocks of the fields before it and
      those of the fields after it. */
  lemma BlocksInOrder(r: Renderer, fields: seq<Field>, i: nat, labelOf: Field -> string, bodyOf: Field -> string)
    requires i < |fields|
    ensures Blocks(r, fields, labelOf, bodyOf) ==
            Blocks(r, fields[..i], labelOf, bodyOf) + Block(r, fields[i], labelOf, bodyOf) + Blocks(r, fields[i + 1..], labelOf, bodyOf)
  {
    assert fields == fields[..i] + [fields[i]] + fields[i + 1..];
    assert [fields[i]][..0] == [];
    BlocksAppend(r, fields[..i] + [fields[i]], fields[i + 1..], labelOf, bodyOf);
    BlocksAppend(r, fields[..i], [fields[i]], labelOf, bodyOf);
  }

  /** A form without fields renders as the tag pair around the two inner fragments. */
  lemma RenderNoFields(httpMethod: string, action: string, r: Renderer, labelOf: Field -> string, bodyOf: Field -> string)
    ensures Render(httpMethod, action, r, [], labelOf, bodyOf) ==
            Header(httpMethod, action) + r.innerFormOpen + r.innerFormClose + "</form>"
  {
  }

  /** Every rendering starts with the form tag and the inner-open fragment and
      ends with the inner-close fragment and `</form>`. */
  lemma RenderFrame(httpMethod: string, action: string, r: Renderer, fields: seq<Field>,
                    labelOf: Field -> string, bodyOf: Field -> string)
    ensures Header(httpMethod, action) + r.innerFormOpen <= Render(httpMethod, action, r, fields, labelOf, bodyOf)
    ensures var html := Render(httpMethod, action, r, fields, labelOf, bodyOf);
            var tail := r.innerFormClose + "</form>";
            |tail| <= |html| && html[|html| - |tail|..] == tail
  {
  }

  // ---------------------------------------------------------------------------
  // Class-level metadata

  /** The metadata of every form type (the `@__meta` of each class), keyed by type name. */
  class Registry {
    /** The renderer class a new type starts with (Reform::Renderer::OlRenderer in the library). */
    const defaultRenderer: Renderer
    var meta: map<TypeName, Meta>

    /** Every stored spec was declared through `field`, so it has a name and an id. */
    ghost predicate Valid()
      reads this
    {
      forall k, i :: k in meta && 0 <= i < |meta[k].fields| ==> Declared(meta[k].fields[i])
    }

    constructor (defaultRenderer: Renderer)
      ensures this.defaultRenderer == defaultRenderer
      ensures meta == map[]
      ensures Valid()
    {
      this.defaultRenderer := defaultRenderer;
      meta := map[];
    }

    /** `inherited`: a type introduced under a superclass named "Reform::..." gets a
        fresh record of its own; any other new type has none, even when an
        earlier type of the same name had one. No other type's record changes. */
    method Inherited(klass: TypeName, superName: string)
      modifies this
      ensures Qualifies(superName) ==> meta == old(meta)[klass := FreshMeta(defaultRenderer)]
      ensures Qualifies(superName) ==>
                meta[klass].action == "" && meta[klass].httpMethod == "post" &&
                meta[klass].renderer == defaultRenderer && meta[klass].values == map[] && meta[klass].fields == []
      ensures !Qualifies(superName) ==> meta == old(meta) - {klass} && klass !in meta
      ensures forall k :: k in old(meta) && k != klass ==> k in meta && meta[k] == old(meta)[k]
      ensures old(Valid()) ==> Valid()
    {
      if Qualifies(superName) {
        meta := meta[klass := FreshMeta(defaultRenderer)];
      } else {
        meta := meta - {klass};
      }
    }

    /** `field`: append the declared spec to the end of `klass`'s own list and
        return that list; fails on a type without metadata. */
    method DeclareField(klass: TypeName, name: string, fieldClass: FieldClass, options: Options)
      returns (r: Result<seq<FieldSpec>>)
      modifies this
      ensures klass !in old(meta) ==> r == Err(NoMetadata(klass)) && meta == old(meta)
      ensures klass in old(meta) ==>
                var m := old(meta)[klass];
                meta == old(meta)[klass := m.(fields := m.fields + [Declare(klass, name, fieldClass, options)])] &&
                r == Ok(meta[klass].fields)
      ensures forall k :: k in old(meta) && k != klass ==> k in meta && meta[k] == old(meta)[k]
      ensures old(Valid()) ==> Valid()
    {
      if klass !in meta {
        return Err(NoMetadata(klass));
      }
      var m := meta[klass];
      meta := meta[klass := m.(fields := m.fields + [Declare(klass, name, fieldClass, options)])];
      r := Ok(meta[klass].fields);
    }

    /** `renderer`: with no argument (or nil/false) read the type's renderer class;
        with one, store it and return it; fails on a type without metadata. */
    method ChooseRenderer(klass: TypeName, renderer: Option<Renderer>) returns (r: Result<Renderer>)
      modifies this
      ensures klass !in old(meta) ==> r == Err(NoMetadata(klass)) && meta == old(meta)
      ensures klass in old(meta) && renderer.None? ==> r == Ok(old(meta)[klass].renderer) && meta == old(meta)
      ensures klass in old(meta) && renderer.Some? ==>
                r == Ok(renderer.value) &&
                meta == old(meta)[klass := old(meta)[klass].(renderer := renderer.value)]
      ensures old(Valid()) ==> Valid()
    {
      if klass !in meta {
        return Err(NoMetadata(klass));
      }
      if renderer.Some? {
        meta := meta[klass := meta[klass].(renderer := renderer.value)];
      }
      r := Ok(meta[klass].renderer);
    }

    /** `fields`: the type's declared specs, in declaration order. */
    function FieldsOf(klass: TypeName): (r: Result<seq<FieldSpec>>)
      reads this
      ensures r.Ok? <==> klass in meta
      ensures r.Ok? ==> r.value == meta[klass].fields
      ensures r.Err? ==> r.error == NoMetadata(klass)
    {
      if klass in meta then Ok(meta[klass].fields) else Err(NoMetadata(klass))
    }
  }

  // ---------------------------------------------------------------------------
  // Instances

  /** The run-time options of `new`; None stands for an option that is absent, nil or false. */
  datatype InitOptions = InitOptions(
    action: Option<string>,
    httpMethod: Option<string>,
    values: Option<Options>,
    renderer: Option<Renderer>)

  /** `new` with no options. */
  const NoOptions := InitOptions(None, None, None, None)

  /** An instance of a form type. */
  class Form {
    var action: string
    var httpMethod: string
    var values: Options
    var renderer: Renderer
    var fields: seq<Field>

    /** `initialize`: each run-time option that is given wins over the type's
        default; one field per spec, in declaration order, each built from its
        spec's options with `value` bound. The binding is written back into the
        type's stored specs, which is the only change to the registry. */
    constructor (reg: Registry, klass: TypeName, opts: InitOptions)
      requires klass in reg.meta
      modifies reg
      ensures action == Or(opts.action, old(reg.meta[klass].action))
      ensures httpMethod == Or(opts.httpMethod, old(reg.meta[klass].httpMethod))
      ensures values == Or(opts.values, old(reg.meta[klass].values))
      ensures renderer == Or(opts.renderer, old(reg.meta[klass].renderer))
      ensures |fields| == |old(reg.meta[klass].fields)|
      ensures forall i :: 0 <= i < |fields| ==>
                fields[i] == Field(old(reg.meta[klass].fields[i].fieldClass), Bind(old(reg.meta[klass].fields[i].options), values))
      ensures reg.meta.Keys == old(reg.meta.Keys)
      ensures forall k :: k in reg.meta && k != klass ==> reg.meta[k] == old(reg.meta[k])
      ensures reg.meta[klass] == old(reg.meta[klass]).(fields := reg.meta[klass].fields)
      ensures |reg.meta[klass].fields| == |fields|
      ensures forall i :: 0 <= i < |fields| ==> reg.meta[klass].fields[i] == FieldSpec(fields[i].fieldClass, fields[i].options)
      ensures old(reg.Valid()) ==> reg.Valid()
      ensures old(reg.Valid()) ==> forall i :: 0 <= i < |fields| ==> "value" in fields[i].options
    {
      var m := reg.meta[klass];
      var resolved := Or(opts.values, m.values);
      action := Or(opts.action, m.action);
      httpMethod := Or(opts.httpMethod, m.httpMethod);
      values := resolved;
      renderer := Or(opts.renderer, m.renderer);
      var built: seq<Field> := [];
      for i := 0 to |m.fields|
        invariant klass in reg.meta
        invariant reg.meta == old(reg.meta)[klass := reg.meta[klass]]
        invariant reg.meta[klass] == m.(fields := reg.meta[klass].fields)
        invariant |reg.meta[klass].fields| == |m.fields|
        invariant |built| == i
        invariant forall j :: 0 <= j < i ==> built[j] == Field(m.fields[j].fieldClass, Bind(m.fields[j].options, resolved))
        invariant forall j :: 0 <= j < i ==>
                    reg.meta[klass].fields[j] == FieldSpec(m.fields[j].fieldClass, Bind(m.fields[j].options, resolved))
        invariant forall j :: i <= j < |m.fields| ==> reg.meta[klass].fields[j] == m.fields[j]
      {
        var spec := reg.meta[klass].fields[i];
        var fieldOptions := spec.options;
        var name := Get(fieldOptions, "name");
        if Truthy(name) {
          fieldOptions := fieldOptions["value" := Get(resolved, name.s)];
          var stored := reg.meta[klass];
          reg.meta := reg.meta[klass := stored.(fields := stored.fields[i := spec.(options := fieldOptions)])];
        }
        built := built + [Field(spec.fieldClass, fieldOptions)];
      }
      fields := built;
      if old(reg.Valid()) {
        forall k, i | k in reg.meta && 0 <= i < |reg.meta[k].fields|
          ensures Declared(reg.meta[k].fields[i])
        {
          if k == klass {
            BindKeepsDeclaration(m.fields[i], resolved);
          }
        }
      }
    }

    /** `valid?`: the base form accepts every instance. */
    function IsValid(): (valid: bool)
      ensures valid
    {
      true
    }

    /** `to_s`: the form's markup, accumulated fragment by fragment. */
    method ToS(labelOf: Field -> string, bodyOf: Field -> string) returns (html: string)
      ensures html == Render(httpMethod, action, renderer, fields, labelOf, bodyOf)
    {
      html := Header(httpMethod, action);
      html := html + renderer.innerFormOpen;
      for i := 0 to |fields|
        invariant html == Header(httpMethod, action) + renderer.innerFormOpen + Blocks(renderer, fields[..i], labelOf, bodyOf)
      {
        assert fields[..i + 1][..i] == fields[..i];
        html := html + renderer.labelOuterOpen;
        html := html + labelOf(fields[i]);
        html := html + bodyOf(fields[i]);
        html := html + renderer.fieldOuterClose;
      }
      assert fields[..|fields|] == fields;
      html := html + renderer.innerFormClose;
      html := html + "</form>";
    }
  }
}
