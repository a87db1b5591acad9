/** The mileage-record modal: the form it fills from a record or resets
    (cutting the record's date at its `T`), the submit-time checks, the
    toasts, and the vehicle fetch that runs only while it is open. */
module MileageModal {
  import opened Base
  import opened Text
  import Ui

  /** The fields of a mileage record the modal reads. */
  datatype Mileage = Mileage(arac: int, kilometre: int, tarih: string, aciklama: string)

  datatype Form = Form(arac: int, kilometre: int, tarih: string, aciklama: string)

  /** The populate/reset effect. With a record, its fields are copied and
      its date is cut at the first `T` (the part before it, no `T` left;
      the record's own date continues with a `T` wherever the cut is). With
      none, the form is reset: vehicle 0, 0 km, today's date, no description. */
  function Populate(mileage: Option<Mileage>, nowIso: string): (f: Form)
    ensures mileage.Some? ==>
      && f.arac == mileage.value.arac
      && f.kilometre == mileage.value.kilometre
      && f.aciklama == mileage.value.aciklama
      && f.tarih <= mileage.value.tarih
      && 'T' !in f.tarih
      && (|f.tarih| < |mileage.value.tarih| ==> mileage.value.tarih[|f.tarih|] == 'T')
    ensures mileage.None? ==>
      && f.arac == 0 && f.kilometre == 0 && f.aciklama == ""
      && f.tarih <= nowIso && 'T' !in f.tarih
      && (|f.tarih| < |nowIso| ==> nowIso[|f.tarih|] == 'T')
  {
    match mileage
    case Some(m) => Form(m.arac, m.kilometre, BeforeFirst(m.tarih, 'T'), m.aciklama)
    case None => Form(0, 0, BeforeFirst(nowIso, 'T'), "")
  }

  /** Populating from a record that was itself read from a populated form
      gives the same form: the date cut is done once and for all. */
  lemma PopulateStable(mileage: Mileage, nowIso: string)
    ensures var f := Populate(Some(mileage), nowIso);
      Populate(Some(Mileage(f.arac, f.kilometre, f.tarih, f.aciklama)), nowIso) == f
  {
    BeforeFirstIdempotent(mileage.tarih, 'T');
  }

  datatype Problem = NoVehicle | BadDistance

  function ProblemMessage(p: Problem): string {
    match p
    case NoVehicle => "Lütfen bir araç seçin"
    case BadDistance => "Kilometre değeri 0'dan büyük olmalıdır"
  }

  /** The first failing check: a falsy vehicle id (0), then a distance that
      is not positive. */
  function Validate(f: Form): (r: Option<Problem>)
    ensures r.None? <==> f.arac != 0 && f.kilometre > 0
    ensures r == Some(NoVehicle) <==> f.arac == 0
    ensures r == Some(BadDistance) <==> f.arac != 0 && f.kilometre <= 0
  {
    if f.arac == 0 then Some(NoVehicle)
    else if f.kilometre <= 0 then Some(BadDistance)
    else None
  }

  function SuccessMessage(editing: bool): string {
    if editing then "Kilometre kaydı güncellendi" else "Yeni kilometre kaydı oluşturuldu"
  }

  const ErrorPrefix: string := "Hata: "
  const SaveFailed: string := "Kilometre kaydı kaydedilirken bir hata oluştu"

  /** The toast for a rejected save: for an axios error, `Hata: ` followed
      by the server's `detail` when it is a non-empty string and by the
      error's own message otherwise; anything else gets a fixed message. */
  function SaveErrorMessage(err: Ui.ClientError): (m: string)
    ensures err.AxiosError? ==> ErrorPrefix <= m && m[|ErrorPrefix|..] == Ui.DetailOrMessage(err.body, err.message)
    ensures err.OtherError? ==> m == SaveFailed
  {
    match err
    case AxiosError(body, message) =>
      var m := ErrorPrefix + Ui.DetailOrMessage(body, message);
      assert m[|ErrorPrefix|..] == Ui.DetailOrMessage(body, message);
      m
    case OtherError => SaveFailed
  }

  /** `handleSubmit`. A failed check shows its message and `onSave` is not
      called. A valid form sets `loading`, hands the form to `onSave`, and
      only once that has settled shows the success toast BEFORE closing, or
      shows the error toast and stays open; `loading` is cleared last
      either way. */
  function HandleSubmit(f: Form, editing: bool, save: Ui.SaveResult): (effects: seq<Ui.Effect<Form>>)
    ensures Validate(f).Some? ==> effects == [Ui.ToastError(ProblemMessage(Validate(f).value))]
    ensures forall d :: Ui.Save(d) in effects <==> d == f && Validate(f).None?
    ensures Ui.Close in effects <==> Validate(f).None? && save.Saved?
    ensures Validate(f).None? ==>
      && |effects| > 2
      && effects[0] == Ui.SetLoading(true)
      && effects[1] == Ui.Save(f)
      && effects[|effects| - 1] == Ui.SetLoading(false)
    ensures Validate(f).None? && save.Saved? ==>
      effects[2..] == [Ui.ToastSuccess(SuccessMessage(editing)), Ui.Close, Ui.SetLoading(false)]
    ensures Validate(f).None? && save.SaveRejected? ==>
      effects[2..] == [Ui.ToastError(SaveErrorMessage(save.error)), Ui.SetLoading(false)]
  {
    match Validate(f)
    case Some(p) => [Ui.ToastError(ProblemMessage(p))]
    case None =>
      var outcome := match save
        case Saved => [Ui.ToastSuccess(SuccessMessage(editing)), Ui.Close]
        case SaveRejected(err) => [Ui.ToastError(SaveErrorMessage(err))];
      [Ui.SetLoading(true), Ui.Save(f)] + outcome + [Ui.SetLoading(false)]
  }

  /** `onSave` is awaited: the save comes before every toast and before
      the close, a success toast appears exactly when the modal closes, and
      `loading` is on for the whole save. */
  lemma SaveBeforeOutcome(f: Form, editing: bool, save: Ui.SaveResult)
    ensures var effects := HandleSubmit(f, editing, save);
      && (forall i, j ::
            0 <= i < |effects| && 0 <= j < |effects| && effects[i].Save? && Ui.IsOutcome(effects[j])
            ==> i < j)
      && (forall j :: 0 <= j < |effects| && effects[j].ToastSuccess? ==> Ui.Close in effects)
      && (forall i :: 0 <= i < |effects| && effects[i].Save? ==>
            0 < i < |effects| - 1 && effects[i - 1] == Ui.SetLoading(true) &&
            effects[|effects| - 1] == Ui.SetLoading(false))
  {
  }

  /** The vehicle-list effect, run whenever `isOpen` changes: it fetches
      the vehicles exactly when the modal is open. */
  function OnOpenChange(isOpen: bool): (effects: seq<Ui.Effect<Form>>)
    ensures Ui.FetchVehicles in effects <==> isOpen
    ensures forall e :: e in effects ==> e == Ui.FetchVehicles
  {
    if isOpen then [Ui.FetchVehicles] else []
  }
}
