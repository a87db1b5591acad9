/** The drivers page: its list fetch, a search over name and licence
    number, and the active/passive badge. */
module DriversPage {
  import opened Text
  import ListPage
  import Seqs
  import Ui

  datatype Driver = Driver(id: int, adSoyad: string, ehliyetNo: string, telefon: string, aktif: bool)

  const FetchErrorPrefix: string := "Sürücüler yüklenirken hata oluştu: "

  /** A failed list fetch leaves the page showing only the error: this
      page's prefix and the server's detail or the error message for an
      axios error, the fixed message otherwise. */
  lemma FetchFailureScreen(err: Ui.ClientError)
    ensures var v := ListPage.Render(ListPage.Fetch(ListPage.Initial<Driver>(), FetchErrorPrefix, ListPage.FetchFailed(err)), Searched);
      && v.Alert?
      && (err.AxiosError? ==>
            FetchErrorPrefix <= v.message && v.message[|FetchErrorPrefix|..] == Ui.DetailOrMessage(err.body, err.message))
      && (err.OtherError? ==> v.message == Ui.UnexpectedError)
  {
    ListPage.FirstScreen(FetchErrorPrefix, ListPage.FetchFailed(err), Searched);
  }

  /** The fields the search box looks in: full name, then licence number. */
  function Searched(d: Driver): (string, string) {
    (d.adSoyad, d.ehliyetNo)
  }

  /** `filteredDrivers`: the drivers, in order, whose full name or licence
      number contains the search term up to case. */
  function Search(drivers: seq<Driver>, term: string): (r: seq<Driver>)
    ensures Seqs.IsSubsequence(r, drivers)
    ensures forall i :: 0 <= i < |drivers| ==>
      (drivers[i] in r <==>
        OccursIn(Lower(term), Lower(drivers[i].adSoyad)) || OccursIn(Lower(term), Lower(drivers[i].ehliyetNo)))
    ensures forall i :: 0 <= i < |drivers| ==>
      multiset(r)[drivers[i]] ==
        if OccursIn(Lower(term), Lower(drivers[i].adSoyad)) || OccursIn(Lower(term), Lower(drivers[i].ehliyetNo))
        then multiset(drivers)[drivers[i]] else 0
  {
    ListPage.Search(drivers, Searched, term)
  }

  datatype Badge = Badge(text: string, color: string)

  /** The status badge: `Aktif` in green exactly for an active driver,
      `Pasif` in red exactly for an inactive one. */
  function StatusBadge(aktif: bool): (b: Badge)
    ensures b.text == "Aktif" <==> aktif
    ensures b.text == "Pasif" <==> !aktif
    ensures b.color == "bg-green-100 text-green-700" <==> aktif
    ensures b.color == "bg-red-100 text-red-700" <==> !aktif
  {
    if aktif then Badge("Aktif", "bg-green-100 text-green-700")
    else Badge("Pasif", "bg-red-100 text-red-700")
  }
}
