/** Sidebar menus: which entry is highlighted for the current path, and
    the pages that exist under `src/app`. */
module Navigation {
  import Seqs

  datatype MenuItem = MenuItem(path: string, title: string)

  /** The pages of the application other than the login page. */
  const Pages: seq<string> :=
    ["/", "/araclar", "/suruculer", "/gorevler", "/harcamalar", "/kilometre-kayitlari"]

  /** `pathname === item.path`: exact equality, no prefix matching. */
  predicate IsActive(pathname: string, item: MenuItem) {
    pathname == item.path
  }

  /** The highlighted entries of a menu, in menu order: exactly the
      entries whose path equals the current path. */
  function ActiveItems(items: seq<MenuItem>, pathname: string): (r: seq<MenuItem>)
    ensures forall it :: it in r <==> it in items && it.path == pathname
    ensures Seqs.IsSubsequence(r, items)
  {
    Seqs.FilterMembershipAll(items, ActiveAt(pathname));
    Seqs.FilterIsSubsequence(items, ActiveAt(pathname));
    Seqs.Filter(items, ActiveAt(pathname))
  }

  function ActiveAt(pathname: string): MenuItem -> bool {
    it => IsActive(pathname, it)
  }

  /** A path that no entry carries highlights nothing. */
  lemma ActiveNone(items: seq<MenuItem>, pathname: string)
    requires forall k :: 0 <= k < |items| ==> items[k].path != pathname
    ensures ActiveItems(items, pathname) == []
  {
    Seqs.FilterNone(items, ActiveAt(pathname));
  }

  /** A path that only entry `j` carries highlights that entry alone. */
  lemma ActiveSingle(items: seq<MenuItem>, pathname: string, j: nat)
    requires j < |items| && items[j].path == pathname
    requires forall k :: 0 <= k < |items| && k != j ==> items[k].path != pathname
    ensures ActiveItems(items, pathname) == [items[j]]
  {
    Seqs.FilterSingle(items, ActiveAt(pathname), j);
  }

  /** Every page of the application highlights exactly one menu entry. */
  predicate HighlightsEachPageOnce(items: seq<MenuItem>) {
    forall i :: 0 <= i < |Pages| ==> |ActiveItems(items, Pages[i])| == 1
  }
}
