/** The vehicle modal: its initial form, a populate effect that only ever
    copies a vehicle in (it never resets), a plate field that upper-cases
    what is typed, and a submit that hands the form over and nothing more. */
module VehicleModal {
  import opened Base
  import opened Text
  import Ui

  datatype Vehicle = Vehicle(
    id: Option<int>,
    plaka: string,
    marka: string,
    model: string,
    yil: int,
    tip: string,
    kaynakTipi: string,
    mevcutDurum: string,
    aciklama: string)

  /** The form on first render; `currentYear` is `new Date().getFullYear()`.
      Empty text fields, this year, an owned vehicle (`ozmal`) in the pool
      (`havuzda`). */
  function Initial(currentYear: int): (f: Vehicle)
    ensures f.id.None? && f.plaka == "" && f.marka == "" && f.model == "" && f.tip == "" && f.aciklama == ""
    ensures f.yil == currentYear && f.kaynakTipi == "ozmal" && f.mevcutDurum == "havuzda"
  {
    Vehicle(None, "", "", "", currentYear, "", "ozmal", "havuzda", "")
  }

  /** The populate effect: a given vehicle replaces the form; with none the
      form is left as it was. */
  function Populate(prev: Vehicle, vehicle: Option<Vehicle>): (f: Vehicle)
    ensures vehicle.Some? ==> f == vehicle.value
    ensures vehicle.None? ==> f == prev
  {
    match vehicle
    case Some(v) => v
    case None => prev
  }

  /** Opening the modal for a new vehicle after editing one shows the
      edited vehicle's data, not the initial form. */
  lemma AddAfterEditShowsEdited(currentYear: int, v: Vehicle)
    ensures Populate(Populate(Initial(currentYear), Some(v)), None) == v
  {
  }

  /** The plate field's change handler: the plate becomes the typed text
      upper-cased — same length, no lower-case letter left, every other
      character as typed, the same letters up to case — and every other
      field keeps its value. */
  function EditPlate(f: Vehicle, input: string): (r: Vehicle)
    ensures r.(plaka := f.plaka) == f
    ensures |r.plaka| == |input|
    ensures forall i :: 0 <= i < |input| ==> !IsLowerAscii(r.plaka[i])
    ensures forall i :: 0 <= i < |input| ==> IsLowerAscii(input[i]) || r.plaka[i] == input[i]
    ensures forall i :: 0 <= i < |input| ==> LowerChar(r.plaka[i]) == LowerChar(input[i])
  {
    f.(plaka := Upper(input))
  }

  /** Re-entering the plate the field already shows changes nothing. */
  lemma EditPlateStable(f: Vehicle, input: string)
    ensures EditPlate(EditPlate(f, input), EditPlate(f, input).plaka) == EditPlate(f, input)
  {
    UpperNormalises(input);
  }

  /** `handleSubmit`: the form goes to `onSave`, which is not awaited; the
      modal neither closes itself nor reports anything. */
  function HandleSubmit(f: Vehicle): (effects: seq<Ui.Effect<Vehicle>>)
    ensures Ui.Save(f) in effects
    ensures forall e :: e in effects ==> e.Save?
    ensures |effects| == 1
  {
    [Ui.Save(f)]
  }

  /** What is on screen: nothing while closed, the form while open. */
  function Render(isOpen: bool, f: Vehicle): (shown: Option<Vehicle>)
    ensures shown.Some? <==> isOpen
    ensures shown.Some? ==> shown.value == f
  {
    if isOpen then Some(f) else None
  }
}
