/** The task modal: the form it fills from a task or resets, the driver
    list it loads on mount, and the submission it builds — dates turned
    into ISO timestamps, the status defaulted, and the chosen vehicle's
    plate and driver's name looked up by id. */
module TaskModal {
  import opened Base
  import opened Text
  import Seqs
  import Ui

  /** A task as the form holds it. `arac` and `surucu` are `undefined`
      until chosen; the plate and driver name are filled in on submit. */
  datatype Task = Task(
    id: Option<int>,
    baslik: string,
    aciklama: string,
    durum: string,
    baslangic: string,
    bitis: string,
    arac: Option<int>,
    surucu: Option<int>,
    aracPlaka: Option<string>,
    surucuAdi: Option<string>)

  datatype Vehicle = Vehicle(id: int, plaka: string)
  datatype Driver = Driver(id: int, ad: string, soyad: string)

  const DefaultStatus: string := "beklemede"

  /** Appended to a form date before it is parsed as local midnight. */
  const MidnightSuffix: string := "T00:00:00"

  /** The populate/reset effect. A task is copied whole, except that both
      of its dates are cut at their first `T`. Without one the form is
      reset: empty title and description, status `beklemede`, both dates
      today (`nowIso` cut at its `T`), no vehicle, no driver. */
  function Populate(task: Option<Task>, nowIso: string): (f: Task)
    ensures task.Some? ==>
      && f == task.value.(baslangic := f.baslangic, bitis := f.bitis)
      && f.baslangic <= task.value.baslangic && 'T' !in f.baslangic
      && (|f.baslangic| < |task.value.baslangic| ==> task.value.baslangic[|f.baslangic|] == 'T')
      && f.bitis <= task.value.bitis && 'T' !in f.bitis
      && (|f.bitis| < |task.value.bitis| ==> task.value.bitis[|f.bitis|] == 'T')
    ensures task.None? ==>
      && f.baslik == "" && f.aciklama == "" && f.durum == DefaultStatus
      && f.id.None? && f.arac.None? && f.surucu.None?
      && f.aracPlaka.None? && f.surucuAdi.None?
      && f.baslangic == f.bitis && f.baslangic <= nowIso && 'T' !in f.baslangic
      && (|f.baslangic| < |nowIso| ==> nowIso[|f.baslangic|] == 'T')
  {
    match task
    case Some(t) => t.(baslangic := BeforeFirst(t.baslangic, 'T'), bitis := BeforeFirst(t.bitis, 'T'))
    case None =>
      var today := BeforeFirst(nowIso, 'T');
      Task(None, "", "", DefaultStatus, today, today, None, None, None, None)
  }

  /** Populating from a task the form already holds changes nothing: both
      date cuts are done once and for all. */
  lemma PopulateStable(task: Task, nowIso: string)
    ensures var f := Populate(Some(task), nowIso);
      Populate(Some(f), nowIso) == f
  {
    BeforeFirstIdempotent(task.baslangic, 'T');
    BeforeFirstIdempotent(task.bitis, 'T');
  }

  /** `v.id === formData.arac`: an unset vehicle matches nothing. */
  function VehicleChosen(arac: Option<int>): Vehicle -> bool {
    (v: Vehicle) => Some(v.id) == arac
  }

  function DriverChosen(surucu: Option<int>): Driver -> bool {
    (d: Driver) => Some(d.id) == surucu
  }

  /** The `${ad} ${soyad}` shown for a driver. */
  function FullName(d: Driver): string {
    d.ad + " " + d.soyad
  }

  /** The data handed to `onSave`. Every form field is kept except five:
      both dates become the ISO timestamp of their local midnight (`toIso`
      stands for `new Date(..).toISOString()`), an empty status becomes
      `beklemede`, and the plate and driver name are those of the FIRST
      vehicle and driver whose id equals the chosen one — absent when no
      id matches. */
  function Submission(f: Task, vehicles: seq<Vehicle>, drivers: seq<Driver>, toIso: string -> string): (r: Task)
    ensures r == f.(baslangic := r.baslangic, bitis := r.bitis, durum := r.durum,
                    aracPlaka := r.aracPlaka, surucuAdi := r.surucuAdi)
    ensures r.baslangic == toIso(f.baslangic + MidnightSuffix)
    ensures r.bitis == toIso(f.bitis + MidnightSuffix)
    ensures r.durum == (if f.durum == "" then DefaultStatus else f.durum)
    ensures r.aracPlaka.None? <==> forall i :: 0 <= i < |vehicles| ==> Some(vehicles[i].id) != f.arac
    ensures r.aracPlaka.Some? ==>
      exists i :: 0 <= i < |vehicles| && Some(vehicles[i].id) == f.arac
        && r.aracPlaka.value == vehicles[i].plaka
        && forall j :: 0 <= j < i ==> Some(vehicles[j].id) != f.arac
    ensures r.surucuAdi.None? <==> forall i :: 0 <= i < |drivers| ==> Some(drivers[i].id) != f.surucu
    ensures r.surucuAdi.Some? ==>
      exists i :: 0 <= i < |drivers| && Some(drivers[i].id) == f.surucu
        && r.surucuAdi.value == FullName(drivers[i])
        && forall j :: 0 <= j < i ==> Some(drivers[j].id) != f.surucu
  {
    var plaka := match Seqs.FirstIndex(vehicles, VehicleChosen(f.arac))
      case Some(i) => Some(vehicles[i].plaka)
      case None => None;
    var adi := match Seqs.FirstIndex(drivers, DriverChosen(f.surucu))
      case Some(i) => Some(FullName(drivers[i]))
      case None => None;
    f.(baslangic := toIso(f.baslangic + MidnightSuffix),
       bitis := toIso(f.bitis + MidnightSuffix),
       durum := OrElse(Some(f.durum), DefaultStatus),
       aracPlaka := plaka,
       surucuAdi := adi)
  }

  /** With unique ids, the submission carries the plate of exactly the
      chosen vehicle and the name of exactly the chosen driver. */
  lemma SubmissionNamesChosen(f: Task, vehicles: seq<Vehicle>, drivers: seq<Driver>, toIso: string -> string, k: nat, m: nat)
    requires k < |vehicles| && f.arac == Some(vehicles[k].id)
    requires m < |drivers| && f.surucu == Some(drivers[m].id)
    requires forall i, j :: 0 <= i < j < |vehicles| ==> vehicles[i].id != vehicles[j].id
    requires forall i, j :: 0 <= i < j < |drivers| ==> drivers[i].id != drivers[j].id
    ensures Submission(f, vehicles, drivers, toIso).aracPlaka == Some(vehicles[k].plaka)
    ensures Submission(f, vehicles, drivers, toIso).surucuAdi == Some(FullName(drivers[m]))
  {
    var r := Submission(f, vehicles, drivers, toIso);
    var i :| 0 <= i < |vehicles| && Some(vehicles[i].id) == f.arac
      && r.aracPlaka.value == vehicles[i].plaka
      && forall j :: 0 <= j < i ==> Some(vehicles[j].id) != f.arac;
    assert i == k;
    var n :| 0 <= n < |drivers| && Some(drivers[n].id) == f.surucu
      && r.surucuAdi.value == FullName(drivers[n])
      && forall j :: 0 <= j < n ==> Some(drivers[j].id) != f.surucu;
    assert n == m;
  }

  /** A task submitted from a fresh form goes out with status `beklemede`,
      no id, and no plate or driver name. */
  lemma FreshSubmission(nowIso: string, vehicles: seq<Vehicle>, drivers: seq<Driver>, toIso: string -> string)
    ensures var r := Submission(Populate(None, nowIso), vehicles, drivers, toIso);
      r.durum == DefaultStatus && r.id.None? && r.aracPlaka.None? && r.surucuAdi.None? && r.baslangic == r.bitis
  {
  }

  // ---------------------------------------------------------------------
  // The driver list the modal holds
  // ---------------------------------------------------------------------

  /** The `drivers` state: an array of drivers, or the axios response
      object that wraps such an array in its `data`. */
  datatype DriverState = DriverArray(items: seq<Driver>) | DriverResponse(data: seq<Driver>)

  /** The mount effect as written: the whole response of `getDrivers()` is
      stored, not its `data`. */
  function LoadDriversAsWritten(data: seq<Driver>): DriverState {
    DriverResponse(data)
  }

  /** The mount effect as intended: the array the server sent. */
  function LoadDrivers(data: seq<Driver>): DriverState {
    DriverArray(data)
  }

  /** Why a submit ends without completing. */
  datatype Thrown = TypeError | Rethrown(error: Ui.ClientError)

  datatype Submitted = Submitted(effects: seq<Ui.Effect<Task>>, thrown: Option<Thrown>)

  /** `handleSubmit`. Looking the driver up with `find` throws a TypeError
      when the held list is not an array, before `onSave` is called. With
      an array, the submission goes to `onSave`; the modal closes once it
      resolves, and a rejection is passed on to the caller unchanged. */
  function HandleSubmit(f: Task, vehicles: seq<Vehicle>, ds: DriverState, toIso: string -> string, save: Ui.SaveResult): (r: Submitted)
    ensures ds.DriverResponse? ==> r.effects == [] && r.thrown == Some(TypeError)
    ensures ds.DriverArray? ==>
      && |r.effects| > 0
      && r.effects[0] == Ui.Save(Submission(f, vehicles, ds.items, toIso))
      && (Ui.Close in r.effects <==> save.Saved?)
      && r.thrown == (if save.Saved? then None else Some(Rethrown(save.error)))
    ensures ds.DriverArray? ==>
      r.effects == [Ui.Save(Submission(f, vehicles, ds.items, toIso))] + (if save.Saved? then [Ui.Close] else [])
  {
    match ds
    case DriverResponse(_) => Submitted([], Some(TypeError))
    case DriverArray(drivers) =>
      var data := Submission(f, vehicles, drivers, toIso);
      match save
      case Saved => Submitted([Ui.Save(data), Ui.Close], None)
      case SaveRejected(err) => Submitted([Ui.Save(data)], Some(Rethrown(err)))
  }

  /** The source as written: once the drivers have loaded, no task can be
      submitted — every submit throws before `onSave` is called. */
  lemma SubmitAfterLoadAsWrittenThrows(f: Task, vehicles: seq<Vehicle>, data: seq<Driver>, toIso: string -> string, save: Ui.SaveResult)
    ensures HandleSubmit(f, vehicles, LoadDriversAsWritten(data), toIso, save).thrown == Some(TypeError)
    ensures forall t :: Ui.Save(t) !in HandleSubmit(f, vehicles, LoadDriversAsWritten(data), toIso, save).effects
  {
  }

  /** As intended: after the drivers have loaded, a submit hands `onSave`
      the chosen driver's name, and closes the modal once it is saved. */
  lemma SubmitAfterLoadSaves(f: Task, vehicles: seq<Vehicle>, data: seq<Driver>, toIso: string -> string, m: nat)
    requires m < |data| && f.surucu == Some(data[m].id)
    requires forall i, j :: 0 <= i < j < |data| ==> data[i].id != data[j].id
    ensures var r := HandleSubmit(f, vehicles, LoadDrivers(data), toIso, Ui.Saved);
      && r.thrown.None?
      && Ui.Close in r.effects
      && r.effects[0].Save?
      && r.effects[0].data.surucuAdi == Some(FullName(data[m]))
  {
    var s := Submission(f, vehicles, data, toIso);
    var n :| 0 <= n < |data| && Some(data[n].id) == f.surucu
      && s.surucuAdi.value == FullName(data[n])
      && forall j :: 0 <= j < n ==> Some(data[j].id) != f.surucu;
    assert n == m;
  }
}
