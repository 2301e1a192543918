/** The useState page: a click counter and a three-field form merged field by field. */
module StateExamples {

  /** The counter card's `count` cell. */
  class CounterCard {
    var count: int

    /** `useState<number>(0)`. */
    constructor ()
      ensures count == 0
    {
      count := 0;
    }

    /** The "Count" button: `setCount(count + 1)`. */
    method Click()
      modifies this
      ensures count == old(count) + 1
    {
      count := count + 1;
    }

    /** The "Reset" button: `setCount(0)`, whatever the count was. */
    method Reset()
      modifies this
      ensures count == 0
    {
      count := 0;
    }
  }

  datatype FormData = FormData(username: string, email: string, password: string)

  /** The `name` attribute of each of the form's three inputs. */
  datatype Field = Username | Email | Password

  const EmptyForm := FormData("", "", "")

  /** `formData[name]`. */
  function Get(form: FormData, name: Field): string {
    match name
    case Username => form.username
    case Email => form.email
    case Password => form.password
  }

  /** The updater `prev => ({ ...prev, [name]: value })`. */
  function Merge(prev: FormData, name: Field, value: string): (r: FormData)
    ensures Get(r, name) == value
    ensures forall other :: other != name ==> Get(r, other) == Get(prev, other)
  {
    match name
    case Username => prev.(username := value)
    case Email => prev.(email := value)
    case Password => prev.(password := value)
  }

  /** A record is determined by its three fields. */
  lemma FieldsDetermine(a: FormData, b: FormData)
    requires forall f :: Get(a, f) == Get(b, f)
    ensures a == b
  {
    assert Get(a, Username) == Get(b, Username);
    assert Get(a, Email) == Get(b, Email);
    assert Get(a, Password) == Get(b, Password);
  }

  /** Replaying the same change event is the same as applying it once. */
  lemma MergeIdempotent(prev: FormData, name: Field, value: string)
    ensures Merge(Merge(prev, name, value), name, value) == Merge(prev, name, value)
  {
    var once := Merge(prev, name, value);
    FieldsDetermine(Merge(once, name, value), once);
  }

  /** Change events on two different fields commute. */
  lemma MergeCommutes(prev: FormData, f: Field, v: string, g: Field, w: string)
    requires f != g
    ensures Merge(Merge(prev, f, v), g, w) == Merge(Merge(prev, g, w), f, v)
  {
    FieldsDetermine(Merge(Merge(prev, f, v), g, w), Merge(Merge(prev, g, w), f, v));
  }

  /** The form card's `formData` cell. */
  class FormCard {
    var formData: FormData

    /** All three fields start empty. */
    constructor ()
      ensures formData == EmptyForm
    {
      formData := EmptyForm;
    }

    /** `handleInputChange` for an input named `name` now holding `value`. */
    method HandleInputChange(name: Field, value: string)
      modifies this
      ensures formData == Merge(old(formData), name, value)
      ensures Get(formData, name) == value
      ensures forall other :: other != name ==> Get(formData, other) == Get(old(formData), other)
    {
      formData := Merge(formData, name, value);
    }
  }
}
