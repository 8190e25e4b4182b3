/** The contact form: a three-field record that every change event replaces
    with a copy in which exactly one field holds the event's value; submitting
    only prevents the browser's default action and logs the record. */
module Contact {

  /** The `name` attribute of the form's three inputs. */
  datatype Field = Name | Email | Message

  datatype FormData = FormData(name: string, email: string, message: string)

  /** The `useState` initial value: every field empty. */
  const EmptyForm := FormData("", "", "")

  /** `formData[field]`. */
  function Get(data: FormData, field: Field): string
  {
    match field
    case Name => data.name
    case Email => data.email
    case Message => data.message
  }

  /** `{ ...formData, [field]: value }`. */
  function WithField(data: FormData, field: Field, value: string): (r: FormData)
    ensures Get(r, field) == value
    ensures forall other :: other != field ==> Get(r, other) == Get(data, other)
  {
    match field
    case Name => data.(name := value)
    case Email => data.(email := value)
    case Message => data.(message := value)
  }

  /** Two records with the same three fields are the same record. */
  lemma FieldsDetermineForm(a: FormData, b: FormData)
    requires forall f :: Get(a, f) == Get(b, f)
    ensures a == b
  {
    assert Get(a, Name) == Get(b, Name);
    assert Get(a, Email) == Get(b, Email);
    assert Get(a, Message) == Get(b, Message);
  }

  /** The same change applied twice gives the record it gives once, and a
      later change to a field overwrites an earlier one. */
  lemma ChangeIdempotent(data: FormData, field: Field, v1: string, v2: string)
    ensures WithField(WithField(data, field, v1), field, v1) == WithField(data, field, v1)
    ensures WithField(WithField(data, field, v1), field, v2) == WithField(data, field, v2)
  {
  }

  /** Changes to two different fields do not interfere. */
  lemma ChangesCommute(data: FormData, f: Field, g: Field, v: string, w: string)
    requires f != g
    ensures WithField(WithField(data, f, v), g, w) == WithField(WithField(data, g, w), f, v)
  {
    var a := WithField(WithField(data, f, v), g, w);
    var b := WithField(WithField(data, g, w), f, v);
    FieldsDetermineForm(a, b);
  }

  /** The component's state and its handlers. */
  class ContactSection {
    var formData: FormData

    constructor ()
      ensures formData == EmptyForm
    {
      formData := EmptyForm;
    }

    /** `handleChange` for an input named `field` whose value is `value`. */
    method HandleChange(field: Field, value: string)
      modifies this
      ensures formData == WithField(old(formData), field, value)
    {
      match field {
        case Name => formData := formData.(name := value);
        case Email => formData := formData.(email := value);
        case Message => formData := formData.(message := value);
      }
    }

    /** `handleSubmit`: prevents the default submission and hands the record
        to the log; it changes no state. */
    method HandleSubmit() returns (defaultPrevented: bool, logged: FormData)
      ensures defaultPrevented
      ensures logged == formData
    {
      defaultPrevented := true;
      logged := formData;
    }
  }
}
