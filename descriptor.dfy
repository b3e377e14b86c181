/**
 * The publisher descriptor's form checks: a tag or branch name field must
 * not be blank.
 */
module PublisherDescriptor {
  import opened Wrappers
  import opened Strings

  /** `FormValidation`: accepted, or an error with its message. */
  datatype FormValidation = Ok | Error(message: string)

  /** `checkFieldNotEmpty`: the value is stripped and a blank result is an
      error naming the field. Stripping keeps blankness, so the check fails
      exactly when the value as entered is null, empty or whitespace. */
  function CheckFieldNotEmpty(value: Option<string>, field: string): (r: FormValidation)
    ensures r.Error? <==> IsBlank(value)
    ensures r.Error? ==> r.message == field + " is required."
  {
    var stripped := Strip(value);
    if IsBlank(stripped) then Error(field + " is required.") else Ok
  }

  /** `doCheckTagName`. */
  function DoCheckTagName(value: Option<string>): (r: FormValidation)
    ensures r.Error? <==> IsBlank(value)
    ensures r.Error? ==> r.message == "Tag Name is required."
  {
    CheckFieldNotEmpty(value, "Tag Name")
  }

  /** `doCheckBranchName`. */
  function DoCheckBranchName(value: Option<string>): (r: FormValidation)
    ensures r.Error? <==> IsBlank(value)
    ensures r.Error? ==> r.message == "Branch Name is required."
  {
    CheckFieldNotEmpty(value, "Branch Name")
  }
}
