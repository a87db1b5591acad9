/** What the four list pages (tasks, expenses, drivers, mileage records)
    share: a fetch on mount that fills the list or sets an error message,
    a case-insensitive search over two text fields of each item, and a
    render rule — spinner while loading, the error if there is one,
    otherwise the total count and the matching items. */
module ListPage {
  import opened Base
  import opened Text
  import Seqs
  import Ui

  /** `loading`, `error`, the fetched items and `searchTerm`. */
  datatype PageState<T> = PageState(loading: bool, error: Option<string>, items: seq<T>, term: string)

  /** The state on first render: loading, no error, nothing fetched yet,
      an empty search. */
  function Initial<T>(): PageState<T> {
    PageState(true, None, [], "")
  }

  /** How the list request settled. */
  datatype FetchOutcome<T> = Fetched(data: seq<T>) | FetchFailed(error: Ui.ClientError)

  /** The error a page shows: for an axios error, the page's prefix
      followed by the server's `detail` (when a non-empty string) or else
      the error's message; for anything else, a fixed message. */
  function FetchErrorMessage(prefix: string, err: Ui.ClientError): (m: string)
    ensures err.AxiosError? ==> prefix <= m && m[|prefix|..] == Ui.DetailOrMessage(err.body, err.message)
    ensures err.OtherError? ==> m == Ui.UnexpectedError
  {
    match err
    case AxiosError(body, message) =>
      var m := prefix + Ui.DetailOrMessage(body, message);
      assert m[|prefix|..] == Ui.DetailOrMessage(body, message);
      m
    case OtherError => Ui.UnexpectedError
  }

  /** The mount effect from start to settle: the error is cleared when it
      starts; a success replaces the list; a failure keeps the list and
      sets the message; `loading` is off at the end either way, and the
      search term is untouched. */
  function Fetch<T>(s: PageState<T>, prefix: string, outcome: FetchOutcome<T>): (r: PageState<T>)
    ensures !r.loading && r.term == s.term
    ensures outcome.Fetched? ==> r.error.None? && r.items == outcome.data
    ensures outcome.FetchFailed? ==>
      r.items == s.items && r.error == Some(FetchErrorMessage(prefix, outcome.error))
  {
    var started := s.(loading := true, error := None);
    var settled := match outcome
      case Fetched(data) => started.(items := data)
      case FetchFailed(err) => started.(error := Some(FetchErrorMessage(prefix, err)));
    settled.(loading := false)
  }

  /** An item matches when either of its two searched fields contains the
      search term, both lower-cased. */
  predicate Matches(first: string, second: string, term: string) {
    Includes(Lower(first), Lower(term)) || Includes(Lower(second), Lower(term))
  }

  /** The filtered list: the items, in their order, whose searched fields
      (`fields`) contain the term up to case. */
  function Search<T>(items: seq<T>, fields: T -> (string, string), term: string): (r: seq<T>)
    ensures Seqs.IsSubsequence(r, items)
    ensures forall i :: 0 <= i < |r| ==> r[i] in items
    ensures forall i :: 0 <= i < |items| ==>
      (items[i] in r <==>
        OccursIn(Lower(term), Lower(fields(items[i]).0)) || OccursIn(Lower(term), Lower(fields(items[i]).1)))
    ensures forall i :: 0 <= i < |items| ==>
      multiset(r)[items[i]] ==
        if OccursIn(Lower(term), Lower(fields(items[i]).0)) || OccursIn(Lower(term), Lower(fields(items[i]).1))
        then multiset(items)[items[i]] else 0
  {
    var keep := (x: T) => Matches(fields(x).0, fields(x).1, term);
    Seqs.FilterIsSubsequence(items, keep);
    Seqs.FilterMembershipIndexed(items, keep);
    forall i | 0 <= i < |items|
      ensures multiset(Seqs.Filter(items, keep))[items[i]] ==
        if keep(items[i]) then multiset(items)[items[i]] else 0
    {
      Seqs.FilterCount(items, keep, items[i]);
    }
    Seqs.Filter(items, keep)
  }

  /** An empty search shows every item, in order. */
  lemma EmptySearchKeepsAll<T>(items: seq<T>, fields: T -> (string, string))
    ensures Search(items, fields, "") == items
  {
    var keep := (x: T) => Matches(fields(x).0, fields(x).1, "");
    forall i | 0 <= i < |items| ensures keep(items[i]) {
      EmptyOccurs(Lower(fields(items[i]).0));
    }
    Seqs.FilterAllKept(items, keep);
  }

  /** The case of the search term does not matter. */
  lemma SearchIgnoresTermCase<T>(items: seq<T>, fields: T -> (string, string), term: string)
    ensures Search(items, fields, Lower(term)) == Search(items, fields, term)
  {
    LowerNormalises(term);
    Seqs.FilterCongruent(items,
      (x: T) => Matches(fields(x).0, fields(x).1, Lower(term)),
      (x: T) => Matches(fields(x).0, fields(x).1, term));
  }

  /** Typing more narrows the list: every item shown for `term + more` is
      also shown for `term`. */
  lemma SearchNarrows<T>(items: seq<T>, fields: T -> (string, string), term: string, more: string)
    ensures forall i :: 0 <= i < |items| && items[i] in Search(items, fields, term + more) ==>
      items[i] in Search(items, fields, term)
  {
    LowerConcat(term, more);
    forall i | 0 <= i < |items| && items[i] in Search(items, fields, term + more)
      ensures items[i] in Search(items, fields, term)
    {
      var x := items[i];
      if OccursIn(Lower(term) + Lower(more), Lower(fields(x).0)) {
        OccursInPrefix(Lower(term), Lower(more), Lower(fields(x).0));
      } else {
        OccursInPrefix(Lower(term), Lower(more), Lower(fields(x).1));
      }
    }
  }

  /** What the page shows. */
  datatype View<T> = Spinner | Alert(message: string) | Content(total: nat, shown: seq<T>)

  /** The render rule: the spinner exactly while loading; then the error
      exactly when there is one; otherwise the count of ALL fetched items
      and the list of the matching ones. */
  function Render<T>(s: PageState<T>, fields: T -> (string, string)): (v: View<T>)
    ensures v.Spinner? <==> s.loading
    ensures v.Alert? <==> !s.loading && Truthy(s.error)
    ensures v.Alert? ==> Some(v.message) == s.error
    ensures v.Content? ==> v.total == |s.items| && v.shown == Search(s.items, fields, s.term)
  {
    if s.loading then Spinner
    else if Truthy(s.error) then Alert(s.error.value)
    else Content(|s.items|, Search(s.items, fields, s.term))
  }

  /** A page's first screen after its fetch settles: every fetched item
      with the full count, or the error message alone. */
  lemma FirstScreen<T>(prefix: string, outcome: FetchOutcome<T>, fields: T -> (string, string))
    requires |prefix| > 0
    ensures outcome.Fetched? ==>
      Render(Fetch(Initial(), prefix, outcome), fields) == Content(|outcome.data|, outcome.data)
    ensures outcome.FetchFailed? ==>
      Render(Fetch(Initial(), prefix, outcome), fields) == Alert(FetchErrorMessage(prefix, outcome.error))
  {
    match outcome
    case Fetched(data) => EmptySearchKeepsAll(data, fields);
    case FetchFailed(err) =>
      var m := FetchErrorMessage(prefix, err);
      assert |m| > 0 by {
        if err.AxiosError? { assert prefix <= m; }
      }
  }
}
