/** The new-employee form (`src/components/staff/NewStaffModal.tsx`): the
    checks made before the form is handed to the save callback, and what
    the form shows afterwards. */
module NewStaffModal {
  import opened Common

  const MSG_REQUIRED: string := "Por favor completa todos los campos requeridos."
  const MSG_RANGE: string := "El porcentaje de comisión debe estar entre 0 y 100."
  const MSG_SAVE_DEFAULT: string := "Error al guardar el colaborador."

  /** The form fields; the rate is `Number` of the text typed. */
  datatype StaffForm = StaffForm(nombre: string, rol: string, comisionPorcentaje: real)

  /** The form as first shown and after each save. */
  const INITIAL_FORM: StaffForm := StaffForm("", "", 30.0)

  /** What a submission leaves behind: the form, the error shown, the data
      handed to `onSave` (if it was called) and whether the modal closed. */
  datatype SubmitOutcome = SubmitOutcome(
    form: StaffForm,
    error: Option<string>,
    saved: Option<StaffForm>,
    closed: bool)

  predicate HasRequired(f: StaffForm) {
    f.nombre != "" && f.rol != ""
  }

  predicate RateInRange(f: StaffForm) {
    0.0 <= f.comisionPorcentaje <= 100.0
  }

  /** The message of the first failed check, if any. */
  function ValidationError(f: StaffForm): (m: Option<string>)
    ensures m.None? <==> HasRequired(f) && RateInRange(f)
    ensures !HasRequired(f) ==> m == Some(MSG_REQUIRED)
    ensures HasRequired(f) && !RateInRange(f) ==> m == Some(MSG_RANGE)
  {
    if f.nombre == "" || f.rol == "" then Some(MSG_REQUIRED)
    else if f.comisionPorcentaje < 0.0 || f.comisionPorcentaje > 100.0 then Some(MSG_RANGE)
    else None
  }

  /** `handleSubmit`; `onSave` is the outcome the save callback would give
      for this form, and is only used when the checks pass. */
  function HandleSubmit(f: StaffForm, onSave: Result<()>): (r: SubmitOutcome)
    ensures r.saved.Some? <==> HasRequired(f) && RateInRange(f)
    ensures r.saved.Some? ==> r.saved.value == f
    ensures r.closed <==> r.saved.Some? && onSave.Ok?
    ensures r.closed ==> r.form == INITIAL_FORM && r.error.None?
    ensures !r.closed ==> r.form == f && r.error.Some? && r.error.value != ""
    ensures !HasRequired(f) ==> r.error == Some(MSG_REQUIRED)
    ensures HasRequired(f) && !RateInRange(f) ==> r.error == Some(MSG_RANGE)
    ensures r.saved.Some? && onSave.Threw? ==> r.error == Some(MessageOrIfEmpty(onSave.thrown, MSG_SAVE_DEFAULT))
  {
    match ValidationError(f)
    case Some(m) => SubmitOutcome(f, Some(m), None, false)
    case None =>
      match onSave
      case Ok(_) => SubmitOutcome(INITIAL_FORM, None, Some(f), true)
      case Threw(t) => SubmitOutcome(f, Some(MessageOrIfEmpty(t, MSG_SAVE_DEFAULT)), Some(f), false)
  }

  /** The rate bounds are inclusive: with both text fields filled, a rate of
      0 or 100 is handed to the save callback, and anything outside is not. */
  lemma RateBoundsInclusive(nombre: string, rol: string, rate: real, onSave: Result<()>)
    requires nombre != "" && rol != ""
    ensures HandleSubmit(StaffForm(nombre, rol, rate), onSave).saved.Some? <==> 0.0 <= rate <= 100.0
    ensures HandleSubmit(StaffForm(nombre, rol, 0.0), onSave).saved.Some?
    ensures HandleSubmit(StaffForm(nombre, rol, 100.0), onSave).saved.Some?
  {
  }

  /** A missing field is reported even when the rate is also out of range. */
  lemma RequiredCheckFirst(f: StaffForm, onSave: Result<()>)
    requires f.nombre == "" || f.rol == ""
    ensures HandleSubmit(f, onSave).error == Some(MSG_REQUIRED)
    ensures HandleSubmit(f, onSave).saved.None?
  {
  }

  /** After a save the form is back at its first state, so submitting it
      again is refused for the missing fields without calling `onSave`. */
  lemma ResetFormIsRejected(f: StaffForm, first: Result<()>, second: Result<()>)
    requires HandleSubmit(f, first).closed
    ensures var again := HandleSubmit(HandleSubmit(f, first).form, second);
            again.saved.None? && again.error == Some(MSG_REQUIRED)
  {
  }
}
