/**
 * The lead-management page (src/app/leads/page.tsx): the selection and
 * favourite toggles on the page's state, the search filter, and the
 * status and score classifiers.
 */
module LeadsPage {
  import opened Wrappers
  import opened Text
  import opened Lists

  /** A lead row; fields the page's logic never reads are left out. */
  datatype Lead = Lead(
    id: string,
    userId: string,
    userName: string,
    content: string,
    noteTitle: string,
    aiAnalysis: string,
    leadScore: real,
    tags: seq<string>,
    intentLevel: string,
    contactPotential: string,
    status: Option<string>,
    favorite: Option<bool>,
    assignedTo: Option<string>)

  /** `!!x` of an optional flag: an absent favourite reads as false. */
  predicate IsFavorite(l: Lead) {
    l.favorite == Some(true)
  }

  /** `leads.map((lead) => lead.id)`. */
  function Ids(leads: seq<Lead>): (r: seq<string>)
    ensures |r| == |leads|
    ensures forall i | 0 <= i < |leads| :: r[i] == leads[i].id
  {
    seq(|leads|, i requires 0 <= i < |leads| => leads[i].id)
  }

  /** `selectedLeads.filter((leadId) => leadId !== id)`. */
  function Without(ids: seq<string>, id: string): seq<string> {
    Filter(ids, x => x != id)
  }

  /** The lead with its favourite negated; an absent favourite becomes true. */
  function Flipped(l: Lead): (r: Lead)
    ensures IsFavorite(r) <==> !IsFavorite(l)
    ensures r.favorite.Some?
    ensures r == l.(favorite := r.favorite)
  {
    l.(favorite := Some(!IsFavorite(l)))
  }

  /** The leads after `toggleFavorite(id)`. */
  function FavoriteToggled(leads: seq<Lead>, id: string): (r: seq<Lead>)
    ensures |r| == |leads|
    ensures forall i | 0 <= i < |leads| :: leads[i].id != id ==> r[i] == leads[i]
    ensures forall i | 0 <= i < |leads| :: leads[i].id == id ==> r[i] == Flipped(leads[i])
  {
    seq(|leads|, i requires 0 <= i < |leads| => if leads[i].id == id then Flipped(leads[i]) else leads[i])
  }

  /** `lead.tags.some((tag) => tag.toLowerCase().includes(q))`, with `q` already lower-cased. */
  predicate SomeTagContains(tags: seq<string>, q: string)
  {
    exists i | 0 <= i < |tags| :: Contains(Lower(tags[i]), q)
  }

  /** The search test of `filteredLeads`, with the query already lower-cased. */
  predicate Matches(l: Lead, q: string) {
    Contains(Lower(l.userName), q) || Contains(Lower(l.content), q) || SomeTagContains(l.tags, q)
  }

  /** `filteredLeads`: the leads whose name, content or a tag contains the query, ignoring case. */
  function Filtered(leads: seq<Lead>, query: string): seq<Lead> {
    var q := Lower(query);
    Filter(leads, l => Matches(l, q))
  }

  /** `getStatusText`. */
  function StatusText(status: Option<string>): string {
    match status
    case Some("new") => "新线索"
    case Some("contacted") => "已联系"
    case Some("qualified") => "已确认"
    case Some("converted") => "已转化"
    case Some("lost") => "已流失"
    case _ => "未分类"
  }

  /** `getStatusColor`. */
  function StatusColor(status: Option<string>): string {
    match status
    case Some("new") => "bg-blue-100 text-blue-800"
    case Some("contacted") => "bg-yellow-100 text-yellow-800"
    case Some("qualified") => "bg-green-100 text-green-800"
    case Some("converted") => "bg-purple-100 text-purple-800"
    case Some("lost") => "bg-gray-100 text-gray-800"
    case _ => "bg-gray-100 text-gray-800"
  }

  /** The statuses the page names. */
  predicate KnownStatus(status: Option<string>) {
    status.Some? && status.value in ["new", "contacted", "qualified", "converted", "lost"]
  }

  /** `getScoreColor` of the leads page. */
  function ScoreColor(score: real): (c: string)
    ensures c == "text-green-600" <==> score >= 90.0
    ensures c == "text-blue-600" <==> 80.0 <= score < 90.0
    ensures c == "text-yellow-600" <==> 70.0 <= score < 80.0
    ensures c == "text-orange-600" <==> score < 70.0
  {
    if score >= 90.0 then "text-green-600"
    else if score >= 80.0 then "text-blue-600"
    else if score >= 70.0 then "text-yellow-600"
    else "text-orange-600"
  }

  /** The select-all checkbox's `checked`. */
  predicate AllChecked(selected: seq<string>, leads: seq<Lead>) {
    |selected| == |leads| && |leads| > 0
  }

  /** The page's lead list, selection and search box. */
  class LeadsPageState {
    var leads: seq<Lead>
    var selected: seq<string>
    var searchQuery: string

    /**
     * The selection holds lead ids without repeats, and leads have distinct
     * ids; the page keeps this because it only toggles ids of listed leads.
     */
    predicate Valid()
      reads this
    {
      NoDup(Ids(leads)) && NoDup(selected) && forall x | x in selected :: x in Ids(leads)
    }

    /** The page starts from the given leads; with distinct ids it starts valid. */
    constructor(initial: seq<Lead>)
      ensures leads == initial && selected == [] && searchQuery == ""
      ensures NoDup(Ids(initial)) ==> Valid()
    {
      leads := initial;
      selected := [];
      searchQuery := "";
    }

    /** `toggleSelectAll`: compares lengths, not sets. */
    method ToggleSelectAll()
      modifies this
      ensures leads == old(leads) && searchQuery == old(searchQuery)
      ensures |old(selected)| == |leads| ==> selected == []
      ensures |old(selected)| != |leads| ==> selected == Ids(leads)
      ensures old(Valid()) ==> Valid()
    {
      if |selected| == |leads| {
        selected := [];
      } else {
        selected := Ids(leads);
      }
    }

    /** `toggleSelectLead(id)`: membership of `id` flips and no other id changes. */
    method ToggleSelectLead(id: string)
      modifies this
      ensures leads == old(leads) && searchQuery == old(searchQuery)
      ensures id in old(selected) ==> selected == Without(old(selected), id)
      ensures id !in old(selected) ==> selected == old(selected) + [id]
      ensures id in selected <==> id !in old(selected)
      ensures forall x | x != id :: x in selected <==> x in old(selected)
      ensures old(Valid()) && id in Ids(leads) ==> Valid()
    {
      FilterMembers(selected, x => x != id);
      if id in selected {
        ghost var before := selected;
        selected := Without(selected, id);
        if NoDup(before) {
          WithoutKeepsNoDup(before, id);
        }
      } else {
        selected := selected + [id];
      }
    }

    /** `toggleFavorite(id)`. */
    method ToggleFavorite(id: string)
      modifies this
      ensures selected == old(selected) && searchQuery == old(searchQuery)
      ensures leads == FavoriteToggled(old(leads), id)
      ensures Ids(leads) == Ids(old(leads))
      ensures old(Valid()) ==> Valid()
    {
      leads := FavoriteToggled(leads, id);
      assert Ids(leads) == Ids(old(leads));
    }

    /** `filteredLeads` for the current search box. */
    function FilteredLeads(): seq<Lead>
      reads this
    {
      Filtered(leads, searchQuery)
    }
  }

  /** Removing an id from a list without repeats leaves a list without repeats. */
  lemma WithoutKeepsNoDup(ids: seq<string>, id: string)
    requires NoDup(ids)
    ensures NoDup(Without(ids, id))
  {
    FilterIsSublist(ids, x => x != id);
    SublistNoDup(Without(ids, id), ids);
  }

  /** A sub-list of a list without repeats has none either. */
  lemma {:induction false} SublistNoDup(a: seq<string>, b: seq<string>)
    requires IsSublist(a, b) && NoDup(b)
    ensures NoDup(a)
    decreases |b|
  {
    if a != [] {
      var m := |b| - 1;
      assert NoDup(b[..m]);
      if a[|a| - 1] == b[m] {
        SublistNoDup(a[..|a| - 1], b[..m]);
        SublistMembers(a[..|a| - 1], b[..m]);
        forall i, j | 0 <= i < j < |a| ensures a[i] != a[j] {
          if j == |a| - 1 {
            assert a[i] in a[..|a| - 1];
            assert b[m] !in b[..m];
          } else {
            assert a[i] == a[..|a| - 1][i] && a[j] == a[..|a| - 1][j];
          }
        }
      } else {
        SublistNoDup(a, b[..m]);
      }
    }
  }

  /** Every element of a sub-list is an element of the list. */
  lemma {:induction false} SublistMembers(a: seq<string>, b: seq<string>)
    requires IsSublist(a, b)
    ensures forall x | x in a :: x in b
    decreases |b|
  {
    if a != [] {
      var m := |b| - 1;
      if a[|a| - 1] == b[m] {
        SublistMembers(a[..|a| - 1], b[..m]);
        assert a == a[..|a| - 1] + [a[|a| - 1]];
        assert b == b[..m] + [b[m]];
      } else {
        SublistMembers(a, b[..m]);
        assert b == b[..m] + [b[m]];
      }
    }
  }

  /** Toggling a favourite twice restores every lead whose favourite was set, and every flag. */
  lemma FavoriteTwice(leads: seq<Lead>, id: string)
    ensures var r := FavoriteToggled(FavoriteToggled(leads, id), id);
      && |r| == |leads|
      && (forall i | 0 <= i < |leads| :: IsFavorite(r[i]) == IsFavorite(leads[i]))
      && (forall i | 0 <= i < |leads| :: leads[i].favorite.Some? ==> r[i] == leads[i])
  {
    var once := FavoriteToggled(leads, id);
    var r := FavoriteToggled(once, id);
    forall i | 0 <= i < |leads|
      ensures IsFavorite(r[i]) == IsFavorite(leads[i])
      ensures leads[i].favorite.Some? ==> r[i] == leads[i]
    {
      var l := leads[i];
      if l.id == id {
        assert once[i] == Flipped(l) && once[i].id == id;
        assert r[i] == l.(favorite := Some(IsFavorite(l)));
        if l.favorite.Some? {
          var b := l.favorite.value;
          if b {
            assert IsFavorite(l);
          } else {
            assert !IsFavorite(l);
          }
        }
      }
    }
  }

  /** `filteredLeads` keeps the order of the leads and keeps exactly the matching ones. */
  lemma FilteredSpec(leads: seq<Lead>, query: string)
    ensures IsSublist(Filtered(leads, query), leads)
    ensures forall l :: l in Filtered(leads, query) <==> l in leads && Matches(l, Lower(query))
    ensures forall l :: multiset(Filtered(leads, query))[l] == if Matches(l, Lower(query)) then multiset(leads)[l] else 0
  {
    var q := Lower(query);
    FilterIsSublist(leads, l => Matches(l, q));
    FilterMembers(leads, l => Matches(l, q));
    FilterCount(leads, l => Matches(l, q));
  }

  /** An empty search box shows every lead. */
  lemma EmptyQueryKeepsAll(leads: seq<Lead>)
    ensures Filtered(leads, "") == leads
  {
    forall i | 0 <= i < |leads| ensures Matches(leads[i], Lower("")) {
      assert Contains(Lower(leads[i].userName), []);
    }
    FilterAll(leads, l => Matches(l, Lower("")));
  }

  /** The five statuses get five different labels, and nothing else gets any of them. */
  lemma StatusTextSpec(status: Option<string>)
    ensures StatusText(status) == "未分类" <==> !KnownStatus(status)
    ensures forall s, t | KnownStatus(s) && KnownStatus(t) && s != t :: StatusText(s) != StatusText(t)
  {
  }

  /** Lost and unknown statuses share the gray badge; every other status has a colour of its own. */
  lemma StatusColorSpec(status: Option<string>)
    ensures StatusColor(status) == "bg-gray-100 text-gray-800" <==> !KnownStatus(status) || status == Some("lost")
  {
  }

  lemma ProperSubsetSmaller(a: set<string>, b: set<string>)
    requires a < b
    ensures |a| < |b|
  {
    var x :| x in b && x !in a;
    SubsetNoLarger(a, b - {x});
  }

  lemma {:induction false} SubsetNoLarger(a: set<string>, b: set<string>)
    requires a <= b
    ensures |a| <= |b|
    decreases a
  {
    if a != {} {
      var y :| y in a;
      SubsetNoLarger(a - {y}, b - {y});
    }
  }

  /** Under the page's invariant, the select-all box is checked exactly when every listed lead is selected. */
  lemma AllCheckedMeansAllSelected(selected: seq<string>, leads: seq<Lead>)
    requires NoDup(Ids(leads)) && NoDup(selected) && forall x | x in selected :: x in Ids(leads)
    ensures AllChecked(selected, leads) <==> |leads| > 0 && forall i | 0 <= i < |leads| :: leads[i].id in selected
  {
    var sel := set x | x in selected;
    var all := set x | x in Ids(leads);
    NoDupCard(selected);
    NoDupCard(Ids(leads));
    assert sel <= all;
    if |selected| == |leads| {
      assert |sel| == |all|;
      if sel != all {
        ProperSubsetSmaller(sel, all);
      }
      forall i | 0 <= i < |leads| ensures leads[i].id in selected {
        assert Ids(leads)[i] in all;
      }
    }
    if forall i | 0 <= i < |leads| :: leads[i].id in selected {
      forall x | x in all ensures x in sel {
        var i :| 0 <= i < |leads| && Ids(leads)[i] == x;
      }
      assert sel == all;
    }
  }
}
