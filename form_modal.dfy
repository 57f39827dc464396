/** The generic form dialog (Common/FormModal.tsx): which field descriptions
    are usable, typing into a field, validating every field in turn, and
    submitting only a valid form. */
module FormModal {
  import opened Common

  /** A value in the form data: absent (undefined or null), a string or a number. */
  datatype FormValue = Absent | Str(s: string) | Num(n: int)

  /** JavaScript truthiness of a form value. */
  predicate Truthy(v: FormValue) {
    match v
    case Absent => false
    case Str(s) => s != ""
    case Num(n) => n != 0
  }

  /** A field description; an empty name, label (title) or type stands for a missing one.
      `validation` returns an error message or None. */
  datatype Field = Field(
    name: string,
    title: string,
    kind: string,
    required: bool,
    validation: Option<FormValue -> Option<string>>)

  type FormData = map<string, FormValue>

  function Lookup(data: FormData, name: string): FormValue {
    if name in data then data[name] else Absent
  }

  // ---------------------------------------------------------------------------
  // Usable fields
  // ---------------------------------------------------------------------------

  predicate Complete(f: Field) {
    f.name != "" && f.title != "" && f.kind != ""
  }

  function CompleteTest(): Field -> bool {
    (f: Field) => Complete(f)
  }

  /** validFields: the descriptions with a name, a label and a type, in order. */
  function ValidFields(fields: seq<Field>): (r: seq<Field>)
    ensures |r| <= |fields| && multiset(r) <= multiset(fields)
    ensures forall f :: f in r <==> f in fields && Complete(f)
  {
    FilterMembers(fields, CompleteTest());
    Filter(fields, CompleteTest())
  }

  /** Descriptions that are all complete are all kept. */
  lemma CompleteFieldsAllKept(fields: seq<Field>)
    requires forall i :: 0 <= i < |fields| ==> Complete(fields[i])
    ensures ValidFields(fields) == fields
  {
    FilterAll(fields, CompleteTest());
  }

  // ---------------------------------------------------------------------------
  // Validation
  // ---------------------------------------------------------------------------

  /** A required field is missing when its value is falsy (0 included) or a
      string of white space only. */
  predicate Blank(v: FormValue) {
    !Truthy(v) || (v.Str? && Trim(v.s) == "")
  }

  function RequiredMessage(title: string): string {
    title + "은(는) 필수 입력 항목입니다."
  }

  /** The error one field contributes: the required message first; the custom
      check only for a truthy value that passed it, and only a non-empty
      message counts. */
  function FieldError(f: Field, data: FormData): (r: Option<string>)
    ensures f.required && Blank(Lookup(data, f.name)) ==> r == Some(RequiredMessage(f.title))
    ensures r.Some? && r != Some(RequiredMessage(f.title)) ==>
              f.validation.Some? && Truthy(Lookup(data, f.name)) && f.validation.value(Lookup(data, f.name)) == r
    ensures r.None? ==> !(f.required && Blank(Lookup(data, f.name)))
    ensures !f.required && (f.validation.None? || !Truthy(Lookup(data, f.name))) ==> r.None?
    ensures r.Some? ==> r.value != ""
  {
    var value := Lookup(data, f.name);
    if f.required && Blank(value) then Some(RequiredMessage(f.title))
    else if f.validation.Some? && Truthy(value) then
      var e := f.validation.value(value);
      if e.Some? && e.value != "" then e else None
    else None
  }

  /** The error map after the first fields have been checked; a later field
      with the same name overwrites an earlier message. Every key is the name
      of a field that fails its check, with a non-empty message. */
  function ErrorsOf(fields: seq<Field>, data: FormData): (r: map<string, string>)
    ensures forall k :: k in r ==> r[k] != "" && HasError(fields, data, k)
  {
    if fields == [] then map[]
    else
      var m := ErrorsOf(fields[..|fields| - 1], data);
      var f := fields[|fields| - 1];
      assert forall i :: 0 <= i < |fields| - 1 ==> fields[..|fields| - 1][i] == fields[i];
      if f.name == "" then m
      else match FieldError(f, data)
        case Some(e) => m[f.name := e]
        case None => m
  }

  predicate HasError(fields: seq<Field>, data: FormData, name: string) {
    exists i :: 0 <= i < |fields| && fields[i].name == name && name != "" && FieldError(fields[i], data).Some?
  }

  /** A name has an error exactly when some named field of that name fails its check. */
  lemma {:induction false} ErrorsOfMeaning(fields: seq<Field>, data: FormData, name: string)
    ensures name in ErrorsOf(fields, data) <==> HasError(fields, data, name)
  {
    if fields != [] {
      var init := fields[..|fields| - 1];
      ErrorsOfMeaning(init, data, name);
      var last := |fields| - 1;
      if HasError(init, data, name) {
        var i :| 0 <= i < |init| && init[i].name == name && name != "" && FieldError(init[i], data).Some?;
        assert fields[i] == init[i];
      }
      if HasError(fields, data, name) {
        var i :| 0 <= i < |fields| && fields[i].name == name && name != "" && FieldError(fields[i], data).Some?;
        if i < last {
          assert init[i] == fields[i];
        }
      }
    }
  }

  /** The form is valid (no error keys) iff every named field passes. */
  lemma ValidIffAllPass(fields: seq<Field>, data: FormData)
    ensures |ErrorsOf(fields, data)| == 0 <==>
              forall i :: 0 <= i < |fields| && fields[i].name != "" ==> FieldError(fields[i], data).None?
  {
    var m := ErrorsOf(fields, data);
    if |m| == 0 {
      forall i | 0 <= i < |fields| && fields[i].name != ""
        ensures FieldError(fields[i], data).None?
      {
        ErrorsOfMeaning(fields, data, fields[i].name);
        assert fields[i].name !in m;
      }
    } else {
      var k :| k in m;
      ErrorsOfMeaning(fields, data, k);
    }
  }

  /** validateForm's loop: each field in turn, a required miss skipping the custom check. */
  method ValidateFields(fields: seq<Field>, data: FormData) returns (errors: map<string, string>, valid: bool)
    ensures errors == ErrorsOf(fields, data)
    ensures valid <==> forall i :: 0 <= i < |fields| && fields[i].name != "" ==> FieldError(fields[i], data).None?
  {
    errors := map[];
    var i := 0;
    while i < |fields|
      invariant 0 <= i <= |fields|
      invariant errors == ErrorsOf(fields[..i], data)
    {
      var f := fields[i];
      assert fields[..i + 1][..i] == fields[..i];
      if f.name != "" {
        var value := Lookup(data, f.name);
        if f.required && Blank(value) {
          errors := errors[f.name := RequiredMessage(f.title)];
        } else if f.validation.Some? && Truthy(value) {
          var e := f.validation.value(value);
          if e.Some? && e.value != "" {
            errors := errors[f.name := e.value];
          }
        }
      }
      i := i + 1;
    }
    assert fields[..|fields|] == fields;
    ValidIffAllPass(fields, data);
    valid := |errors| == 0;
  }

  // ---------------------------------------------------------------------------
  // The dialog
  // ---------------------------------------------------------------------------

  /** The open effect: initialData when it is an object, otherwise an empty form. */
  function OpeningData(initialData: Option<FormData>): (r: FormData)
    ensures initialData.Some? ==> r == initialData.value
    ensures initialData.None? ==> r == map[]
  {
    if initialData.Some? then initialData.value else map[]
  }

  class FormModal {
    const fields: seq<Field>
    var isOpen: bool
    var formData: FormData
    var errors: map<string, string>
    /** The forms handed to onSubmit, oldest first. */
    var submitted: seq<FormData>

    constructor (fields: seq<Field>)
      ensures this.fields == fields && !isOpen && formData == map[] && errors == map[] && submitted == []
    {
      this.fields := fields;
      isOpen := false;
      formData := map[];
      errors := map[];
      submitted := [];
    }

    /** Opening resets the data to initialData and forgets every error. */
    method Open(initialData: Option<FormData>)
      modifies this`isOpen, this`formData, this`errors
      ensures isOpen && formData == OpeningData(initialData) && errors == map[]
    {
      isOpen := true;
      formData := OpeningData(initialData);
      errors := map[];
    }

    /** Closing empties the data and the errors. */
    method Close()
      modifies this`isOpen, this`formData, this`errors
      ensures !isOpen && formData == map[] && errors == map[]
    {
      isOpen := false;
      formData := map[];
      errors := map[];
    }

    /** A new initialData while open is spread over what was typed. */
    method InitialDataChanged(initialData: Option<FormData>)
      requires isOpen
      modifies this`formData
      ensures formData == old(formData) + OpeningData(initialData)
    {
      formData := formData + OpeningData(initialData);
    }

    /** handleChange: only that key changes, and only its error is blanked. */
    method Change(name: string, value: FormValue)
      modifies this`formData, this`errors
      ensures formData == old(formData)[name := value]
      ensures errors == if name in old(errors) && old(errors)[name] != "" then old(errors)[name := ""] else old(errors)
    {
      formData := formData[name := value];
      if name in errors && errors[name] != "" {
        errors := errors[name := ""];
      }
    }

    /** handleSubmit: validate, and call onSubmit with the data only when valid. */
    method Submit() returns (valid: bool)
      modifies this`errors, this`submitted
      ensures errors == ErrorsOf(ValidFields(fields), formData)
      ensures valid <==> |errors| == 0
      ensures submitted == if valid then old(submitted) + [formData] else old(submitted)
    {
      var e, ok := ValidateFields(ValidFields(fields), formData);
      ValidIffAllPass(ValidFields(fields), formData);
      errors := e;
      valid := ok;
      if valid {
        submitted := submitted + [formData];
      }
    }
  }
}
