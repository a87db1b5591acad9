/** The expenses page: its list fetch, a search over description and
    category, and the icon each expense's category gets. */
module ExpensesPage {
  import opened Text
  import ListPage
  import Seqs
  import Ui

  datatype Expense = Expense(id: int, aciklama: string, kategori: string, tutar: int, tarih: string)

  const FetchErrorPrefix: string := "Harcamalar yüklenirken hata oluştu: "

  /** A failed list fetch leaves the page showing only the error: this
      page's prefix and the server's detail or the error message for an
      axios error, the fixed message otherwise. */
  lemma FetchFailureScreen(err: Ui.ClientError)
    ensures var v := ListPage.Render(ListPage.Fetch(ListPage.Initial<Expense>(), FetchErrorPrefix, ListPage.FetchFailed(err)), Searched);
      && v.Alert?
      && (err.AxiosError? ==>
            FetchErrorPrefix <= v.message && v.message[|FetchErrorPrefix|..] == Ui.DetailOrMessage(err.body, err.message))
      && (err.OtherError? ==> v.message == Ui.UnexpectedError)
  {
    ListPage.FirstScreen(FetchErrorPrefix, ListPage.FetchFailed(err), Searched);
  }

  /** The fields the search box looks in: description, then category. */
  function Searched(e: Expense): (string, string) {
    (e.aciklama, e.kategori)
  }

  /** `filteredExpenses`: the expenses, in order, whose description or
      category contains the search term up to case. */
  function Search(expenses: seq<Expense>, term: string): (r: seq<Expense>)
    ensures Seqs.IsSubsequence(r, expenses)
    ensures forall i :: 0 <= i < |expenses| ==>
      (expenses[i] in r <==>
        OccursIn(Lower(term), Lower(expenses[i].aciklama)) || OccursIn(Lower(term), Lower(expenses[i].kategori)))
    ensures forall i :: 0 <= i < |expenses| ==>
      multiset(r)[expenses[i]] ==
        if OccursIn(Lower(term), Lower(expenses[i].aciklama)) || OccursIn(Lower(term), Lower(expenses[i].kategori))
        then multiset(expenses)[expenses[i]] else 0
  {
    ListPage.Search(expenses, Searched, term)
  }

  /** The categories that have an icon of their own, compared lower-cased. */
  predicate HasOwnIcon(kategori: string) {
    var k := Lower(kategori);
    k == "yakit" || k == "bakim" || k == "sigorta" || k == "vergi"
  }

  const DefaultIcon: string := "💳"

  /** `getExpenseIcon`: fuel, maintenance, insurance and tax each have an
      icon, matched after lower-casing the category; every other category
      gets the card icon, and only those do. */
  function ExpenseIcon(kategori: string): (r: string)
    ensures r == DefaultIcon <==> !HasOwnIcon(kategori)
    ensures Lower(kategori) == "yakit" ==> r == "⛽"
    ensures Lower(kategori) == "bakim" ==> r == "🔧"
    ensures Lower(kategori) == "sigorta" ==> r == "📄"
    ensures Lower(kategori) == "vergi" ==> r == "💰"
  {
    match Lower(kategori)
    case "yakit" => "⛽"
    case "bakim" => "🔧"
    case "sigorta" => "📄"
    case "vergi" => "💰"
    case _ => DefaultIcon
  }

  /** The icon does not depend on the category's case: a category and its
      lower-cased form get the same icon. */
  lemma IconIgnoresCase(kategori: string)
    ensures ExpenseIcon(Lower(kategori)) == ExpenseIcon(kategori)
  {
    LowerNormalises(kategori);
  }

  /** The fuel category as the expense form spells it, with a dotless `ı`,
      is not the `yakit` the icon switch matches, so it gets the card icon;
      lower-casing does not map `ı` to `i`. */
  lemma FormFuelSpellingGetsDefaultIcon()
    ensures ExpenseIcon("yakıt") == DefaultIcon
    ensures ExpenseIcon("YAKIT") == "⛽"
  {
    assert Lower("yakıt")[3] == 'ı';
    assert Lower("YAKIT") == "yakit";
  }
}
