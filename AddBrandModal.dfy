/** The Add Brand dialog: its form fields, the per-field error set, field
    validation and the payload handed to `onSubmit`. The callbacks the dialog
    calls are recorded as the list of submitted payloads and a count of
    cancellations. */
module AddBrandModal {
  import opened Js

  datatype Field = Code | Name | Description

  /** The `brandData` passed to `onSubmit`; `description` is absent unless
      given. */
  datatype BrandInput = BrandInput(code: string, name: string, description: Option<string>)

  /** The fields `validateForm` flags: code and name when empty after trimming. */
  function RequiredErrors(code: string, name: string): set<Field> {
    (if Trim(code) == "" then {Code} else {}) + (if Trim(name) == "" then {Name} else {})
  }

  /** The submit payload: trimmed code and name, and the trimmed description
      only when it is not empty. */
  function Payload(code: string, name: string, description: string): BrandInput {
    BrandInput(Trim(code), Trim(name), if Trim(description) != "" then Some(Trim(description)) else None)
  }

  class Form {
    var code: string
    var name: string
    var description: string
    var errors: set<Field>
    var submitted: seq<BrandInput>
    var cancelled: nat

    /** The form opens empty, without errors. */
    constructor ()
      ensures code == "" && name == "" && description == "" && errors == {}
      ensures submitted == [] && cancelled == 0
    {
      code, name, description := "", "", "";
      errors := {};
      submitted := [];
      cancelled := 0;
    }

    /** Empties the fields and the errors. */
    method Reset()
      modifies this
      ensures code == "" && name == "" && description == "" && errors == {}
      ensures submitted == old(submitted) && cancelled == old(cancelled)
    {
      code, name, description := "", "", "";
      errors := {};
    }

    /** `handleInputChange`: sets one field and drops that field's error only. */
    method InputChange(field: Field, value: string)
      modifies this
      ensures code == (if field == Code then value else old(code))
      ensures name == (if field == Name then value else old(name))
      ensures description == (if field == Description then value else old(description))
      ensures errors == old(errors) - {field}
      ensures submitted == old(submitted) && cancelled == old(cancelled)
    {
      if field == Code {
        code := value;
      } else if field == Name {
        name := value;
      } else {
        description := value;
      }
      if field in errors {
        errors := errors - {field};
      }
    }

    /** `validateForm`: collects the errors field by field, replaces the
        error set with them, and passes when there are none. */
    method ValidateForm() returns (ok: bool)
      modifies this
      ensures errors == RequiredErrors(code, name) && (ok <==> errors == {})
      ensures code == old(code) && name == old(name) && description == old(description)
      ensures submitted == old(submitted) && cancelled == old(cancelled)
    {
      var codeBlank := Trim(code) == "";
      var nameBlank := Trim(name) == "";
      var newErrors: set<Field> := {};
      if codeBlank {
        newErrors := newErrors + {Code};
      }
      if nameBlank {
        newErrors := newErrors + {Name};
      }
      assert newErrors == RequiredErrors(code, name);
      errors := newErrors;
      ok := newErrors == {};
    }

    /** `handleSubmit`: submits the payload only when validation passes. */
    method HandleSubmit()
      modifies this
      ensures errors == RequiredErrors(code, name)
      ensures code == old(code) && name == old(name) && description == old(description)
      ensures submitted == old(submitted) + (if errors == {} then [Payload(code, name, description)] else [])
      ensures cancelled == old(cancelled)
    {
      var ok := ValidateForm();
      if ok {
        submitted := submitted + [Payload(code, name, description)];
      }
    }

    /** `handleCancel`: resets the form, then calls `onCancel`. */
    method HandleCancel()
      modifies this
      ensures code == "" && name == "" && description == "" && errors == {}
      ensures submitted == old(submitted) && cancelled == old(cancelled) + 1
    {
      Reset();
      cancelled := cancelled + 1;
    }

    /** The visibility effect: closing the dialog resets the form; opening
        it changes nothing. */
    method VisibilityChanged(visible: bool)
      modifies this
      ensures !visible ==> code == "" && name == "" && description == "" && errors == {}
      ensures visible ==> code == old(code) && name == old(name) && description == old(description) && errors == old(errors)
      ensures submitted == old(submitted) && cancelled == old(cancelled)
    {
      if !visible {
        Reset();
      }
    }
  }

  // Properties

  /** Validation flags code and name exactly when they are blank, and never
      the description. */
  lemma RequiredErrorsExact(code: string, name: string)
    ensures Code in RequiredErrors(code, name) <==> forall i :: 0 <= i < |code| ==> IsSpace(code[i])
    ensures Name in RequiredErrors(code, name) <==> forall i :: 0 <= i < |name| ==> IsSpace(name[i])
    ensures Description !in RequiredErrors(code, name)
  {
    assert Code in RequiredErrors(code, name) <==> Trim(code) == "";
    assert Name in RequiredErrors(code, name) <==> Trim(name) == "";
    TrimEmptyIffBlank(code);
    TrimEmptyIffBlank(name);
  }

  /** A payload that passes validation has non-empty code and name with no
      white space at either end, and a description only when one was given. */
  lemma PayloadTrimmed(code: string, name: string, description: string)
    requires RequiredErrors(code, name) == {}
    ensures var p := Payload(code, name, description);
      p.code != "" && p.name != "" && Trim(p.code) == p.code && Trim(p.name) == p.name &&
      (p.description.Some? <==> exists i :: 0 <= i < |description| && !IsSpace(description[i])) &&
      (p.description.Some? ==> Trim(p.description.value) == p.description.value)
  {
    assert Code !in RequiredErrors(code, name);
    assert Name !in RequiredErrors(code, name);
    TrimIdempotent(code);
    TrimIdempotent(name);
    TrimIdempotent(description);
    TrimEmptyIffBlank(description);
  }

  /** Re-entering a submitted payload gives the same payload. */
  lemma PayloadStable(code: string, name: string, description: string)
    ensures var p := Payload(code, name, description);
      Payload(p.code, p.name, if p.description.Some? then p.description.value else "") == p
  {
    TrimIdempotent(code);
    TrimIdempotent(name);
    TrimIdempotent(description);
    assert Trim("") == "";
  }
}
