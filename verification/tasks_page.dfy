/** The tasks page: its list fetch, a search over title and description,
    and the badge each task's status gets. */
module TasksPage {
  import opened Text
  import ListPage
  import Seqs
  import Ui

  datatype Task = Task(id: int, baslik: string, aciklama: string, durum: string, baslangic: string, bitis: string)

  const FetchErrorPrefix: string := "Görevler yüklenirken hata oluştu: "

  /** A failed list fetch leaves the page showing only the error: this
      page's prefix and the server's detail or the error message for an
      axios error, the fixed message otherwise. */
  lemma FetchFailureScreen(err: Ui.ClientError)
    ensures var v := ListPage.Render(ListPage.Fetch(ListPage.Initial<Task>(), FetchErrorPrefix, ListPage.FetchFailed(err)), Searched);
      && v.Alert?
      && (err.AxiosError? ==>
            FetchErrorPrefix <= v.message && v.message[|FetchErrorPrefix|..] == Ui.DetailOrMessage(err.body, err.message))
      && (err.OtherError? ==> v.message == Ui.UnexpectedError)
  {
    ListPage.FirstScreen(FetchErrorPrefix, ListPage.FetchFailed(err), Searched);
  }

  /** The fields the search box looks in: title, then description. */
  function Searched(t: Task): (string, string) {
    (t.baslik, t.aciklama)
  }

  /** `filteredTasks`: the tasks, in order, whose title or description
      contains the search term up to case. */
  function Search(tasks: seq<Task>, term: string): (r: seq<Task>)
    ensures Seqs.IsSubsequence(r, tasks)
    ensures forall i :: 0 <= i < |tasks| ==>
      (tasks[i] in r <==>
        OccursIn(Lower(term), Lower(tasks[i].baslik)) || OccursIn(Lower(term), Lower(tasks[i].aciklama)))
    ensures forall i :: 0 <= i < |tasks| ==>
      multiset(r)[tasks[i]] ==
        if OccursIn(Lower(term), Lower(tasks[i].baslik)) || OccursIn(Lower(term), Lower(tasks[i].aciklama))
        then multiset(tasks)[tasks[i]] else 0
  {
    ListPage.Search(tasks, Searched, term)
  }

  /** The four statuses the page knows. */
  predicate IsKnownStatus(durum: string) {
    durum == "beklemede" || durum == "devam_ediyor" || durum == "tamamlandi" || durum == "iptal_edildi"
  }

  const NeutralColor: string := "bg-gray-100 text-gray-700"

  /** `getStatusColor`: yellow, blue, green and red for the four known
      statuses; grey for anything else — and only for anything else. */
  function StatusColor(durum: string): (r: string)
    ensures r == NeutralColor <==> !IsKnownStatus(durum)
    ensures durum == "beklemede" ==> r == "bg-yellow-100 text-yellow-700"
    ensures durum == "devam_ediyor" ==> r == "bg-blue-100 text-blue-700"
    ensures durum == "tamamlandi" ==> r == "bg-green-100 text-green-700"
    ensures durum == "iptal_edildi" ==> r == "bg-red-100 text-red-700"
  {
    match durum
    case "beklemede" => "bg-yellow-100 text-yellow-700"
    case "devam_ediyor" => "bg-blue-100 text-blue-700"
    case "tamamlandi" => "bg-green-100 text-green-700"
    case "iptal_edildi" => "bg-red-100 text-red-700"
    case _ => NeutralColor
  }

  /** `getStatusText`: a Turkish label for each known status; any other
      status is shown as it is. A known status never shows its raw value. */
  function StatusText(durum: string): (r: string)
    ensures r == durum <==> !IsKnownStatus(durum)
    ensures IsKnownStatus(durum) ==> r in ["Beklemede", "Devam Ediyor", "Tamamlandı", "İptal Edildi"]
    ensures durum == "beklemede" ==> r == "Beklemede"
    ensures durum == "devam_ediyor" ==> r == "Devam Ediyor"
    ensures durum == "tamamlandi" ==> r == "Tamamlandı"
    ensures durum == "iptal_edildi" ==> r == "İptal Edildi"
  {
    match durum
    case "beklemede" => "Beklemede"
    case "devam_ediyor" => "Devam Ediyor"
    case "tamamlandi" => "Tamamlandı"
    case "iptal_edildi" => "İptal Edildi"
    case _ => durum
  }

  /** Colour and label agree: a status is shown in grey exactly when it is
      shown by its raw value, and two known statuses never share a label
      or a colour. */
  lemma StatusBadgeConsistent(a: string, b: string)
    ensures StatusColor(a) == NeutralColor <==> StatusText(a) == a
    ensures IsKnownStatus(a) && IsKnownStatus(b) && a != b ==>
      StatusText(a) != StatusText(b) && StatusColor(a) != StatusColor(b)
  {
  }
}
