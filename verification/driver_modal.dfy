/** The driver modal: a form that mirrors the driver being edited or
    starts blank and active, an `aktif` checkbox, and a submit that closes
    the modal only after the save has gone through. */
module DriverModal {
  import opened Base
  import Ui

  datatype Driver = Driver(id: Option<int>, ad: string, soyad: string, telefon: string, ehliyetNo: string, aktif: bool)

  /** The populate/reset effect: the driver itself when one is given (the
      earlier form contents play no part), otherwise a blank form whose
      driver is active. */
  function Populate(driver: Option<Driver>): (f: Driver)
    ensures driver.Some? ==> f == driver.value
    ensures driver.None? ==>
      f.id.None? && f.ad == "" && f.soyad == "" && f.telefon == "" && f.ehliyetNo == "" && f.aktif
  {
    match driver
    case Some(d) => d
    case None => Driver(None, "", "", "", "", true)
  }

  /** The checkbox handler: `aktif` takes the box's state and every other
      field keeps its value. */
  function SetAktif(f: Driver, checked: bool): (r: Driver)
    ensures r.aktif == checked
    ensures r.(aktif := f.aktif) == f
  {
    f.(aktif := checked)
  }

  /** Ticking the box twice leaves only the last state. */
  lemma SetAktifLastWins(f: Driver, first: bool, second: bool)
    ensures SetAktif(SetAktif(f, first), second) == SetAktif(f, second)
    ensures SetAktif(SetAktif(f, first), f.aktif) == f
  {
  }

  datatype Submitted = Submitted(effects: seq<Ui.Effect<Driver>>, rejected: Option<Ui.ClientError>)

  /** `handleSubmit`: the form goes to `onSave`; the modal closes only
      when the save resolves, and a rejection escapes the handler with the
      modal left open. */
  function HandleSubmit(f: Driver, save: Ui.SaveResult): (r: Submitted)
    ensures |r.effects| > 0 && r.effects[0] == Ui.Save(f)
    ensures Ui.Close in r.effects <==> save.Saved?
    ensures r.rejected.Some? <==> save.SaveRejected?
    ensures r.rejected.Some? ==> r.rejected.value == save.error
    ensures r.effects == [Ui.Save(f)] + (if save.Saved? then [Ui.Close] else [])
  {
    match save
    case Saved => Submitted([Ui.Save(f), Ui.Close], None)
    case SaveRejected(err) => Submitted([Ui.Save(f)], Some(err))
  }

  /** Editing a driver and saving sends exactly the edited driver, with
      the checkbox's last state. */
  lemma EditedDriverIsSent(d: Driver, checked: bool)
    ensures var r := HandleSubmit(SetAktif(Populate(Some(d)), checked), Ui.Saved);
      r.effects[0] == Ui.Save(d.(aktif := checked)) && r.rejected.None?
  {
  }
}
