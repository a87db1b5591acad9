/** The expense modal: the form it fills from an expense or resets, the
    submit-time checks with their first-failure toast, and the message it
    builds from a server's validation errors. */
module ExpenseModal {
  import opened Base
  import opened Text
  import Ui

  /** The fields of an expense the modal reads. */
  datatype Expense = Expense(arac: int, tarih: string, tip: string, tutar: int, aciklama: Option<string>)

  /** The form; `arac` is `undefined` until a vehicle is chosen. Amounts
      are whole numbers here. */
  datatype Form = Form(arac: Option<int>, tarih: string, tip: string, tutar: int, aciklama: string)

  const DefaultType: string := "bakim"

  /** The populate/reset effect. With an expense, its vehicle, date, type
      and amount are copied and a missing description becomes `''`. With
      none, the form is reset: no vehicle, today's date (the ISO timestamp
      `nowIso` cut at its `T`), type `bakim`, amount 0, no description. */
  function Populate(expense: Option<Expense>, nowIso: string): (f: Form)
    ensures expense.Some? ==>
      && f.arac == Some(expense.value.arac)
      && f.tarih == expense.value.tarih
      && f.tip == expense.value.tip
      && f.tutar == expense.value.tutar
      && f.aciklama == (match expense.value.aciklama case Some(a) => a case None => "")
    ensures expense.None? ==>
      && f.arac == None && f.tip == DefaultType && f.tutar == 0 && f.aciklama == ""
      && f.tarih <= nowIso && 'T' !in f.tarih
      && (|f.tarih| < |nowIso| ==> nowIso[|f.tarih|] == 'T')
  {
    match expense
    case Some(e) => Form(Some(e.arac), e.tarih, e.tip, e.tutar, OrElse(e.aciklama, ""))
    case None => Form(None, BeforeFirst(nowIso, 'T'), DefaultType, 0, "")
  }

  /** Populating from the expense a populated form describes gives the
      same form again. */
  lemma PopulateStable(expense: Expense, nowIso: string)
    ensures var f := Populate(Some(expense), nowIso);
      Populate(Some(Expense(f.arac.value, f.tarih, f.tip, f.tutar, Some(f.aciklama))), nowIso) == f
  {
  }

  /** The reset date is exactly today's date: the three facts `Populate`
      promises about it leave no other choice. */
  lemma ResetDateIsToday(nowIso: string)
    ensures Populate(None, nowIso).tarih == BeforeFirst(nowIso, 'T')
  {
    var f := Populate(None, nowIso);
    BeforeFirstUnique(nowIso, 'T', f.tarih);
  }

  /** The three submit-time checks, in the order they run. */
  datatype Problem = NoVehicle | NoDate | BadAmount

  function ProblemMessage(p: Problem): string {
    match p
    case NoVehicle => "Lütfen bir araç seçin"
    case NoDate => "Lütfen bir tarih seçin"
    case BadAmount => "Lütfen geçerli bir tutar girin"
  }

  /** The first check that fails: a falsy vehicle (`undefined` or 0), then
      an empty date, then an amount that is not positive. A later problem
      is reported only when every earlier check passes. */
  function Validate(f: Form): (r: Option<Problem>)
    ensures r.None? <==> TruthyNumber(f.arac) && f.tarih != "" && f.tutar > 0
    ensures r == Some(NoVehicle) <==> !TruthyNumber(f.arac)
    ensures r == Some(NoDate) <==> TruthyNumber(f.arac) && f.tarih == ""
    ensures r == Some(BadAmount) <==> TruthyNumber(f.arac) && f.tarih != "" && f.tutar <= 0
  {
    if !TruthyNumber(f.arac) then Some(NoVehicle)
    else if f.tarih == "" then Some(NoDate)
    else if f.tutar <= 0 then Some(BadAmount)
    else None
  }

  const SaveFailed: string := "Harcama kaydedilirken bir hata oluştu"

  function SuccessMessage(editing: bool): string {
    if editing then "Harcama güncellendi" else "Harcama eklendi"
  }

  /** One line of the validation report: `field: messages`. */
  function EntryLine(entry: (string, string)): string {
    entry.0 + ": " + entry.1
  }

  /** The toast for a rejected save. An axios error whose body is an object
      gives one `field: messages` line per entry joined by newlines; an
      axios error without such a body gives a fixed message, and so does
      anything else that was thrown. */
  function SaveErrorMessage(err: Ui.ClientError): (m: string)
    ensures err.OtherError? ==> m == Ui.UnexpectedError
    ensures err.AxiosError? && !err.body.ObjectBody? ==> m == SaveFailed
    ensures err.AxiosError? && err.body.ObjectBody? && |err.body.entries| == 0 ==> m == ""
    ensures err.AxiosError? && err.body.ObjectBody? && |err.body.entries| > 0 ==>
      EntryLine(err.body.entries[0]) <= m
  {
    match err
    case AxiosError(ObjectBody(entries), _) =>
      var lines := seq(|entries|, i requires 0 <= i < |entries| => EntryLine(entries[i]));
      var m := Join(lines, '\n');
      assert |lines| > 1 ==> m == lines[0] + ['\n'] + Join(lines[1..], '\n');
      m
    case AxiosError(_, _) => SaveFailed
    case OtherError => Ui.UnexpectedError
  }

  /** The report can be read back: when no field name or message holds a
      newline, splitting the toast at its newlines gives exactly one
      `field: messages` line per entry, in entry order. */
  lemma ServerErrorLines(entries: seq<(string, string)>, message: string)
    requires |entries| > 0
    requires forall i :: 0 <= i < |entries| ==> '\n' !in entries[i].0 && '\n' !in entries[i].1
    ensures var lines := Split(SaveErrorMessage(Ui.AxiosError(Ui.ObjectBody(entries), message)), '\n');
      && |lines| == |entries|
      && forall i :: 0 <= i < |entries| ==> lines[i] == entries[i].0 + ": " + entries[i].1
  {
    var lines := seq(|entries|, i requires 0 <= i < |entries| => EntryLine(entries[i]));
    forall i | 0 <= i < |lines| ensures '\n' !in lines[i] {
      assert lines[i] == entries[i].0 + ": " + entries[i].1;
    }
    SplitJoin(lines, '\n');
  }

  /** `handleSubmit`. A failed check shows its message and nothing else
      happens: `onSave` is not called. A valid form sets `loading`, hands
      the form unchanged to `onSave`, and only once that has settled either
      closes the modal and shows the edit-or-create success toast (in that
      order), or keeps the modal open and shows the error toast; `loading`
      is cleared last either way. */
  function HandleSubmit(f: Form, editing: bool, save: Ui.SaveResult): (effects: seq<Ui.Effect<Form>>)
    ensures Validate(f).Some? ==> effects == [Ui.ToastError(ProblemMessage(Validate(f).value))]
    ensures forall d :: Ui.Save(d) in effects <==> d == f && Validate(f).None?
    ensures Ui.Close in effects <==> Validate(f).None? && save.Saved?
    ensures Validate(f).None? ==>
      && |effects| > 2
      && effects[0] == Ui.SetLoading(true)
      && effects[1] == Ui.Save(f)
      && effects[|effects| - 1] == Ui.SetLoading(false)
    ensures Validate(f).None? && save.Saved? ==>
      effects[2..] == [Ui.Close, Ui.ToastSuccess(SuccessMessage(editing)), Ui.SetLoading(false)]
    ensures Validate(f).None? && save.SaveRejected? ==>
      effects[2..] == [Ui.ToastError(SaveErrorMessage(save.error)), Ui.SetLoading(false)]
  {
    match Validate(f)
    case Some(p) => [Ui.ToastError(ProblemMessage(p))]
    case None =>
      var outcome := match save
        case Saved => [Ui.Close, Ui.ToastSuccess(SuccessMessage(editing))]
        case SaveRejected(err) => [Ui.ToastError(SaveErrorMessage(err))];
      [Ui.SetLoading(true), Ui.Save(f)] + outcome + [Ui.SetLoading(false)]
  }

  /** `onSave` is awaited: the save comes before the close and before
      every toast, a success toast appears exactly when the modal closes,
      and `loading` is on for the whole save. */
  lemma SaveBeforeOutcome(f: Form, editing: bool, save: Ui.SaveResult)
    ensures var effects := HandleSubmit(f, editing, save);
      && (forall i, j ::
            0 <= i < |effects| && 0 <= j < |effects| && effects[i].Save? && Ui.IsOutcome(effects[j])
            ==> i < j)
      && (forall j :: 0 <= j < |effects| && effects[j].ToastSuccess? ==> Ui.Close in effects)
      && (forall i :: 0 <= i < |effects| && effects[i].Save? ==>
            0 < i < |effects| - 1 && effects[i - 1] == Ui.SetLoading(true) &&
            effects[|effects| - 1] == Ui.SetLoading(false))
  {
  }
}
