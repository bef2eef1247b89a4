/**
 * RegistroUsuarioForm.clean (STIWEBSERVICE/forms.py): the registration form
 * accepts its cleaned data only when the two password entries agree.
 */
module Forms {
  import opened Wrappers
  import opened Models

  const ContrasenasNoCoinciden := "Las contraseñas no coinciden."

  /**
   * The form's clean step over the cleaned field values (a field that failed
   * its own validation is absent): the data passes unchanged when `password`
   * and `confirm_password` are equal, both absent included.
   */
  function RegistroClean(cleanedData: map<string, string>): (r: Result<map<string, string>, ValidationError>)
    ensures r.Err? <==> Get(cleanedData, "password") != Get(cleanedData, "confirm_password")
    ensures r.Ok? ==> r.value == cleanedData
    ensures r.Err? ==> r.error == ValidationError(ContrasenasNoCoinciden)
  {
    var password := Get(cleanedData, "password");
    var confirmPassword := Get(cleanedData, "confirm_password");
    if password != confirmPassword then Err(ValidationError(ContrasenasNoCoinciden))
    else Ok(cleanedData)
  }

  /** Equality is the only rule: any password, the empty one included, is accepted when repeated. */
  lemma AnyRepeatedPasswordAccepted(cleanedData: map<string, string>, p: string)
    ensures RegistroClean(cleanedData["password" := p]["confirm_password" := p]).Ok?
  {
  }

  /** Two absent entries compare equal and pass. */
  lemma AbsentPasswordsAccepted(cleanedData: map<string, string>)
    requires "password" !in cleanedData && "confirm_password" !in cleanedData
    ensures RegistroClean(cleanedData) == Ok(cleanedData)
  {
  }

  /** The verdict does not depend on which entry holds which value. */
  lemma VerdictSymmetric(cleanedData: map<string, string>, p: string, q: string)
    ensures RegistroClean(cleanedData["password" := p]["confirm_password" := q]).Ok? ==
            RegistroClean(cleanedData["password" := q]["confirm_password" := p]).Ok?
  {
  }
}
