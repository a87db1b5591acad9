/** The mileage-records page: its list fetch and a search over plate and
    driver name. */
module MileagesPage {
  import opened Text
  import ListPage
  import Seqs
  import Ui

  datatype Mileage = Mileage(id: int, aracPlaka: string, surucuAdi: string, kilometre: int, tarih: string)

  const FetchErrorPrefix: string := "Kilometre kayıtları yüklenirken hata oluştu: "

  /** A failed list fetch leaves the page showing only the error: this
      page's prefix and the server's detail or the error message for an
      axios error, the fixed message otherwise. */
  lemma FetchFailureScreen(err: Ui.ClientError)
    ensures var v := ListPage.Render(ListPage.Fetch(ListPage.Initial<Mileage>(), FetchErrorPrefix, ListPage.FetchFailed(err)), Searched);
      && v.Alert?
      && (err.AxiosError? ==>
            FetchErrorPrefix <= v.message && v.message[|FetchErrorPrefix|..] == Ui.DetailOrMessage(err.body, err.message))
      && (err.OtherError? ==> v.message == Ui.UnexpectedError)
  {
    ListPage.FirstScreen(FetchErrorPrefix, ListPage.FetchFailed(err), Searched);
  }

  /** The fields the search box looks in: plate, then driver name. */
  function Searched(m: Mileage): (string, string) {
    (m.aracPlaka, m.surucuAdi)
  }

  /** `filteredMileages`: the records, in order, whose plate or driver name
      contains the search term up to case. */
  function Search(mileages: seq<Mileage>, term: string): (r: seq<Mileage>)
    ensures Seqs.IsSubsequence(r, mileages)
    ensures forall i :: 0 <= i < |mileages| ==>
      (mileages[i] in r <==>
        OccursIn(Lower(term), Lower(mileages[i].aracPlaka)) || OccursIn(Lower(term), Lower(mileages[i].surucuAdi)))
    ensures forall i :: 0 <= i < |mileages| ==>
      multiset(r)[mileages[i]] ==
        if OccursIn(Lower(term), Lower(mileages[i].aracPlaka)) || OccursIn(Lower(term), Lower(mileages[i].surucuAdi))
        then multiset(mileages)[mileages[i]] else 0
  {
    ListPage.Search(mileages, Searched, term)
  }

  /** Searching by a plate typed in lower case finds a record whose plate
      contains it in upper case. */
  lemma PlateSearchIgnoresCase(mileages: seq<Mileage>, k: nat, term: string)
    requires k < |mileages| && OccursIn(Upper(term), mileages[k].aracPlaka)
    ensures mileages[k] in Search(mileages, term)
  {
    var plate := mileages[k].aracPlaka;
    var i :| 0 <= i <= |plate| && Upper(term) <= plate[i..];
    assert Lower(Upper(term)) == Lower(term) by {
      forall j | 0 <= j < |term| ensures LowerChar(UpperChar(term[j])) == LowerChar(term[j]) { }
    }
    assert Lower(term) <= Lower(plate)[i..];
  }
}
