/**
 * Clients of Reform::Base: what a caller can conclude from the contracts alone.
 */
module ContactFormScenario {
  import opened Reform

  /** The `email` field of ContactForm as built with values {email: "a@b.com"}. */
  function EmailField(): Field {
    Field("TextField", map["name" := Str("email"), "id" := Str("ContactForm_email"), "value" := Str("a@b.com")])
  }

  /** The `subscribe` field of the same instance: no value was supplied, so it is bound to nil. */
  function SubscribeField(): Field {
    Field("CheckboxField", map["name" := Str("subscribe"), "id" := Str("ContactForm_subscribe"), "value" := Nil])
  }

  /** The values ContactForm's instance is built with. */
  function ContactValues(): Options {
    map["email" := Str("a@b.com")]
  }

  /** Binding the two declared specs to ContactValues gives the two fields above. */
  lemma ContactFieldsBound()
    ensures Field("TextField", Bind(Declare("ContactForm", "email", "TextField", map[]).options, ContactValues())) == EmailField()
    ensures Field("CheckboxField", Bind(Declare("ContactForm", "subscribe", "CheckboxField", map[]).options, ContactValues())) == SubscribeField()
  {
    assert "ContactForm" + "_" + "email" == "ContactForm_email";
    assert "ContactForm" + "_" + "subscribe" == "ContactForm_subscribe";
    DeclareDefaults("ContactForm", "email", "TextField");
    DeclareDefaults("ContactForm", "subscribe", "CheckboxField");
  }

  /** A form with two fields renders as the frame around their two blocks, in order. */
  lemma RenderTwoFields(httpMethod: string, action: string, r: Renderer, first: Field, second: Field,
                        labelOf: Field -> string, bodyOf: Field -> string)
    ensures Render(httpMethod, action, r, [first, second], labelOf, bodyOf) ==
            Header(httpMethod, action) + r.innerFormOpen + Block(r, first, labelOf, bodyOf)
            + Block(r, second, labelOf, bodyOf) + r.innerFormClose + "</form>"
  {
    var one := Block(r, first, labelOf, bodyOf);
    var two := Block(r, second, labelOf, bodyOf);
    assert [first, second][..1] == [first];
    assert [first][..0] == [];
    assert Blocks(r, [first], labelOf, bodyOf) == "" + one == one;
    assert Blocks(r, [first, second], labelOf, bodyOf) == one + two;
  }

  /** ContactForm declares `email` (TextField) then `subscribe` (CheckboxField);
      an instance built with action "/submit", method "post" and values
      {email: "a@b.com"} renders as the form tag, the inner-open fragment, the
      two field blocks in declaration order, the inner-close fragment and the
      closing tag. */
  method RenderContactForm(ol: Renderer, labelOf: Field -> string, bodyOf: Field -> string) returns (html: string)
    ensures html == "<form method=\"post\" action=\"/submit\">" + ol.innerFormOpen
                    + Block(ol, EmailField(), labelOf, bodyOf)
                    + Block(ol, SubscribeField(), labelOf, bodyOf)
                    + ol.innerFormClose + "</form>"
  {
    var form := NewContactForm(ol);
    html := form.ToS(labelOf, bodyOf);
    RenderTwoFields("post", "/submit", ol, EmailField(), SubscribeField(), labelOf, bodyOf);
  }

  /** Defines ContactForm and builds the instance the scenario renders. */
  method NewContactForm(ol: Renderer) returns (form: Form)
    ensures form.action == "/submit" && form.httpMethod == "post" && form.renderer == ol
    ensures form.fields == [EmailField(), SubscribeField()]
  {
    var reg := new Registry(ol);
    reg.Inherited("ContactForm", "Reform::Base");
    var _ := reg.DeclareField("ContactForm", "email", "TextField", map[]);
    var _ := reg.DeclareField("ContactForm", "subscribe", "CheckboxField", map[]);
    ghost var specs := [Declare("ContactForm", "email", "TextField", map[]),
                        Declare("ContactForm", "subscribe", "CheckboxField", map[])];
    assert reg.meta["ContactForm"].fields == specs;
    var opts := InitOptions(Some("/submit"), Some("post"), Some(ContactValues()), None);
    form := new Form(reg, "ContactForm", opts);
    ContactFieldsBound();
    assert form.values == ContactValues();
    assert form.fields[0] == EmailField();
    assert form.fields[1] == SubscribeField();
  }

  /** Two types introduced side by side: declaring fields on one leaves the
      other's list empty, and each keeps its own renderer choice. */
  method SiblingIsolation(ol: Renderer, other: Renderer) returns (first: Result<seq<FieldSpec>>, second: Result<seq<FieldSpec>>)
    ensures first == Ok([FieldSpec("TextField", map["name" := Str("q"), "id" := Str("SearchForm_q")])])
    ensures second == Ok([])
  {
    var reg := new Registry(ol);
    reg.Inherited("SearchForm", "Reform::Base");
    reg.Inherited("LoginForm", "Reform::Base");
    var _ := reg.DeclareField("SearchForm", "q", "TextField", map[]);
    assert "SearchForm" + "_" + "q" == "SearchForm_q";
    DeclareDefaults("SearchForm", "q", "TextField");
    assert reg.meta["SearchForm"].fields == [FieldSpec("TextField", map["name" := Str("q"), "id" := Str("SearchForm_q")])];
    assert reg.meta["LoginForm"].fields == [];
    var _ := reg.ChooseRenderer("SearchForm", Some(other));
    assert reg.meta["SearchForm"].fields == [FieldSpec("TextField", map["name" := Str("q"), "id" := Str("SearchForm_q")])];
    first := reg.FieldsOf("SearchForm");
    second := reg.FieldsOf("LoginForm");
  }

  /** A type derived from a form type whose name lies outside Reform:: gets no
      record of its own, so declaring a field on it fails, and it does not see
      its parent's fields either. */
  method SubclassOfFormType(ol: Renderer) returns (declared: Result<seq<FieldSpec>>, listed: Result<seq<FieldSpec>>)
    ensures declared == Err(NoMetadata("ExtendedContactForm"))
    ensures listed == Err(NoMetadata("ExtendedContactForm"))
  {
    var reg := new Registry(ol);
    reg.Inherited("ContactForm", "Reform::Base");
    var _ := reg.DeclareField("ContactForm", "email", "TextField", map[]);
    assert "ContactForm"[0] != "Reform::"[0];
    reg.Inherited("ExtendedContactForm", "ContactForm");
    declared := reg.DeclareField("ExtendedContactForm", "phone", "TextField", map[]);
    listed := reg.FieldsOf("ExtendedContactForm");
  }

  /** A type re-created under an existing name, this time under a superclass
      outside Reform::, starts without a record: the earlier type's fields are
      not listed for it. */
  method ReintroducedType(ol: Renderer) returns (listed: Result<seq<FieldSpec>>)
    ensures listed == Err(NoMetadata("SearchForm"))
  {
    var reg := new Registry(ol);
    reg.Inherited("SearchForm", "Reform::Base");
    var _ := reg.DeclareField("SearchForm", "q", "TextField", map[]);
    assert "Object"[0] != "Reform::"[0];
    reg.Inherited("SearchForm", "Object");
    listed := reg.FieldsOf("SearchForm");
  }

  /** A type derived from a form type whose name lies under Reform:: passes
      the name test and gets a fresh record of its own, without its parent's
      fields. */
  method NamespacedParent(ol: Renderer) returns (listed: Result<seq<FieldSpec>>)
    ensures listed == Ok([])
  {
    var reg := new Registry(ol);
    reg.Inherited("Reform::LoginForm", "Reform::Base");
    var _ := reg.DeclareField("Reform::LoginForm", "user", "TextField", map[]);
    assert "Reform::" <= "Reform::LoginForm";
    reg.Inherited("AdminLogin", "Reform::LoginForm");
    listed := reg.FieldsOf("AdminLogin");
  }

  /** An instance built without run-time options takes the type's defaults, and
      its one field is bound to nil, since the default values hash is empty. */
  method BuildWithoutOptions(ol: Renderer) returns (form: Form)
    ensures form.action == "" && form.httpMethod == "post" && form.renderer == ol && form.values == map[]
    ensures |form.fields| == 1
    ensures "value" in form.fields[0].options && form.fields[0].options["value"] == Nil
  {
    var reg := new Registry(ol);
    reg.Inherited("SearchForm", "Reform::Base");
    var _ := reg.DeclareField("SearchForm", "q", "TextField", map[]);
    form := new Form(reg, "SearchForm", NoOptions);
  }
}
