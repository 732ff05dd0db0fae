# Reform::Base in Dafny

A model of `Reform::Base`, the base class of the Reform declarative form
library. The library has three pieces of behaviour:

- **Class-level metadata.** Every form type whose superclass's name starts
  with `Reform::` receives its own fresh metadata record when it is
  introduced. The record holds action `""`, method `"post"`, the default
  renderer class, an empty values hash and an empty list of field specs. A
  `field` declaration appends one `(field class, options)` spec to the type's own
  list. In that spec, `name` defaults to the field name and `id` to
  `"<TypeName>_<name>"`. `renderer` reads or replaces the type's renderer class,
  and `fields` lists the specs.
- **Instances.** `new` resolves action, method, values and renderer class. A
  run-time option that is given (not nil or false) wins over the type's
  default. It then walks the specs in order: a spec with a name gets
  `value = values[name]`, which is nil when the key is absent, and one field is
  built from each spec's options. `valid?` is always true.
- **Rendering.** `to_s` concatenates `<form method="M" action="A">`, the
  renderer's inner-open fragment, then, for each field in order, the label-open
  fragment, the field's label, the field's body and the field-close fragment.
  It ends with the inner-close fragment and `</form>`.

`base.dfy` (module `Reform`) holds the model:

- `Registry` holds the class-level records of all types, keyed by type name.
  Its `Valid` invariant says every stored spec has a name and an id.
- `Form` is an instance.
- `Render` is the pure specification of `to_s`, and `Form.ToS` is proved
  against it.

`contact_form.dfy` (module `ContactFormScenario`) holds client scenarios proved
from the contracts alone:

- a contact form with two fields, rendered;
- two sibling types that do not see each other's declarations;
- a type derived from a form type whose name lies outside `Reform::`, which
  gets no record, and one derived from a form type named under `Reform::`,
  which gets a fresh record;
- an instance built without run-time options.

Two behaviours of the code are worth stating plainly, and the model keeps both:

- Building an instance writes `value` into the type's stored specs
  (reform/base.rb:83), so class-level metadata changes after the type is
  defined. `Form.constructor` states the write-back, and `BindLastWins` shows
  that the stored specs then carry the values of the latest construction only.
- Only a type whose superclass name starts with `Reform::` gets a record
  (line 15). The comment at lines 10-11 states the intent, that "first-order
  descendents" get one; the name test at line 15 is broader, since it also
  admits a child of any form type named under `Reform::`. A type derived from
  a form type whose name lies outside `Reform::` gets none, so `field`,
  `renderer` and `fields` fail on it. `Registry.Inherited`,
  `SubclassOfFormType` and `NamespacedParent` show both cases.

## Model

| member | source | states |
|---|---|---|
| `Reform.Declare` | reform/base.rb:37-39 | the pushed spec keeps the field class. Its `name` is the caller's when truthy, else the field name. Its `id` is the caller's when truthy, else `"<TypeName>_<name>"`. Every other option is unchanged, the keys are the caller's plus `name` and `id`, and the spec is declared (name and id truthy) |
| `Reform.DeclareDefaults` | reform/base.rb:37-39 | a declaration without options records exactly `{name: <field name>, id: "<TypeName>_<field name>"}` |
| `Reform.Bind` | reform/base.rb:82-84 | a spec with a truthy name gains exactly the key `value`, bound to `values[name]` (nil when absent). A spec without a name is unchanged, and no other option changes |
| `Reform.BindKeepsDeclaration` | reform/base.rb:79-84 | binding a declared spec keeps its name and id, so it stays declared, and its `value` is `values[name]` |
| `Reform.BindLastWins` | reform/base.rb:82-83 | binding twice equals binding once with the later values: the stored specs remember only the last construction's values |
| `Reform.BlocksAppend` | reform/base.rb:112-117 | the field blocks of two consecutive runs of fields are the two runs' blocks concatenated |
| `Reform.BlocksInOrder` | reform/base.rb:112-117 | each field's block sits after the blocks of all earlier fields and before those of all later fields |
| `Reform.RenderNoFields` | reform/base.rb:108-122 | with zero fields the markup is the form tag, inner-open, inner-close and `</form>` |
| `Reform.RenderFrame` | reform/base.rb:108-122 | every rendering starts with the form tag followed by inner-open and ends with inner-close followed by `</form>` |
| `Reform.Registry.constructor` | reform/base.rb:10-15 | before any type is introduced no type has metadata, and the invariant holds |
| `Reform.Registry.Inherited` | reform/base.rb:14-29 | a type whose superclass name starts with `Reform::` gets a fresh record: action `""`, method `"post"`, the default renderer, no values, no fields. Any other new type has no record, even if an earlier type of the same name had one. Every other type's record is unchanged, and the invariant is preserved |
| `Reform.Registry.DeclareField` | reform/base.rb:37-41 | on a type with metadata, exactly the `Declare` spec is appended at the end of that type's list, and the new list is returned. Earlier specs and every other type's record are unchanged. A type without metadata gets `NoMetadata` and nothing changes. The invariant is preserved |
| `Reform.Registry.ChooseRenderer` | reform/base.rb:46-52 | with no argument it returns the stored renderer and changes nothing. With one it stores it, returns it and changes nothing else. A type without metadata gets `NoMetadata` |
| `Reform.Registry.FieldsOf` | reform/base.rb:57-59 | the type's specs in declaration order, or `NoMetadata` exactly when the type has no record |
| `Reform.Form.constructor` | reform/base.rb:67-90 | action, method, values and renderer are each the run-time option when given, else the type's default. There is one field per spec, in order, built from the spec's class and its options bound to the resolved values. The stored specs are rewritten to those same bound options. Nothing else in the registry changes. The invariant is preserved, and under it every field carries a `value` key |
| `Reform.Form.IsValid` | reform/base.rb:93-95 | always true |
| `Reform.Form.ToS` | reform/base.rb:108-122 | the accumulated string equals `Render` of the instance's method, action, renderer and fields |
| `ContactFormScenario.ContactFieldsBound` | reform/base.rb:37-39 | ContactForm's defaulted `email` spec, bound as at lines 82-83 bound to `{email: "a@b.com"}` carries value `"a@b.com"`, and its `subscribe` spec carries nil |
| `ContactFormScenario.RenderTwoFields` | reform/base.rb:108-122 | a two-field form renders as the frame around the first field's block followed by the second's |
| `ContactFormScenario.NewContactForm` | reform/base.rb:67-90 | ContactForm built with action `/submit`, method `post` and `{email: "a@b.com"}` has exactly the fields email, then subscribe, with the values bound as above |
| `ContactFormScenario.RenderContactForm` | reform/base.rb:108-122 | that instance renders as `<form method="post" action="/submit">`, inner-open, the email block, the subscribe block, inner-close, `</form>` |
| `ContactFormScenario.SiblingIsolation` | reform/base.rb:14-59 | a field declared on one type (and a renderer chosen for it) leaves a sibling type's field list empty |
| `ContactFormScenario.SubclassOfFormType` | reform/base.rb:14-41 | a type derived from a form type whose name lies outside `Reform::` has no record, so declaring a field on it and listing its fields both fail, and it does not see its parent's fields |
| `ContactFormScenario.ReintroducedType` | reform/base.rb:14-29 | a type re-created under an existing name with a superclass outside `Reform::` has no record, so listing its fields fails instead of returning the earlier type's list |
| `ContactFormScenario.NamespacedParent` | reform/base.rb:14-29 | a type derived from a form type named under `Reform::` passes the name test and gets a fresh, empty record of its own |
| `ContactFormScenario.BuildWithoutOptions` | reform/base.rb:67-90 | an instance built without run-time options has action `""`, method `"post"`, the default renderer and no values, and its one field is bound to nil |

## Left out

- Ruby's metaprogramming is replaced by a registry keyed by type name. This covers `instance_eval`, `instance_variable_get` and the protected `meta` reader at lines 100-103; the constructor reads the record directly. The test `/^Reform::/` becomes a prefix test, because class names contain no line breaks.
- The concrete field classes and `Reform::Renderer::OlRenderer` are not part of this model. The default renderer class is a parameter of `Registry`. A renderer class is represented by the four fragments its instances return. A field's `label` and `to_s` are function parameters of `ToS`.
- The metadata keys `field_lookup`, `field_names` and `fieldsets` are left out, because nothing reads them.
- There is no HTML escaping to model: the source does none.
- Strings and symbols are not told apart. Truthy option values other than strings and symbols (numbers, `true`, arrays) are not modelled, so the `NoMethodError` that `to_sym` raises on them is not modelled either.
- Aliasing is not modelled. `field` applies `||=` to the caller's own options hash. Each field class is handed the stored spec's own options hash (line 87), so a field that keeps it would see later constructions' values. The model copies values.
- Anonymous classes, whose `self.name` is nil, are not modelled: every type has a name.
- Failures raised inside field or renderer constructors belong to those external classes.
- Reform.Form.constructor: requires the type to have a metadata record. Ruby raises `NoMethodError` when the record is nil, but a Dafny constructor cannot fail. The class-level operations model the same case as a `NoMetadata` result.
