/**
  The Atom feed of the bulletin service, and the selection of its entries
  by title: an entry is kept when its title is among the filters, or, in
  blacklist mode, when it is not; the kept entries are grouped by title.
*/
module Feed {
  import opened Base

  datatype Author = Author(name: string)

  datatype Content = Content(contentType: string, value: string)

  datatype Link = Link(linkType: Option<string>, rel: Option<string>, href: string)

  datatype Rights = Rights(rightsType: string, item: string)

  datatype Entry = Entry(title: string, id: string, updated: DateTime, author: Author, link: Link, content: Content)

  datatype AtomFeed = AtomFeed(
    lang: string,
    title: string,
    subtitle: string,
    updated: DateTime,
    id: string,
    link: seq<Link>,
    rights: Rights,
    entries: seq<Entry>)

  /** The filter strings collected into a set: repeats collapse. */
  function FilterSet(titleFilters: seq<string>): set<string>
  {
    set f | f in titleFilters
  }

  /** Whether an entry with this title is kept. */
  predicate Kept(title: string, filters: set<string>, isTitleBlacklist: bool)
  {
    (title in filters) != isTitleBlacklist
  }

  /** The entries of `s` with title `t`, in input order. */
  function TitleGroup(s: seq<Entry>, t: string): seq<Entry>
  {
    if s == [] then []
    else TitleGroup(s[..|s| - 1], t) + (if s[|s| - 1].title == t then [s[|s| - 1]] else [])
  }

  /** The kept entries of `s`, in input order. */
  function KeptEntries(s: seq<Entry>, filters: set<string>, isTitleBlacklist: bool): seq<Entry>
  {
    if s == [] then []
    else
      KeptEntries(s[..|s| - 1], filters, isTitleBlacklist) +
      (if Kept(s[|s| - 1].title, filters, isTitleBlacklist) then [s[|s| - 1]] else [])
  }

  /** The titles of the kept entries. */
  ghost function KeptTitles(s: seq<Entry>, filters: set<string>, isTitleBlacklist: bool): set<string>
  {
    set e | e in s && Kept(e.title, filters, isTitleBlacklist) :: e.title
  }

  /** The grouping the selection produces: each title of a kept entry maps
      to the entries with that title, in input order. */
  ghost function TitledEntries(s: seq<Entry>, filters: set<string>, isTitleBlacklist: bool): map<string, seq<Entry>>
  {
    map t | t in KeptTitles(s, filters, isTitleBlacklist) :: TitleGroup(s, t)
  }

  /** Selects and groups the entries of a feed by title. */
  method IntoTitledEntries(feed: AtomFeed, titleFilters: seq<string>, isTitleBlacklist: bool)
    returns (result: map<string, seq<Entry>>)
    ensures result == TitledEntries(feed.entries, FilterSet(titleFilters), isTitleBlacklist)
  {
    var filters := FilterSet(titleFilters);
    result := map[];
    assert KeptTitles(feed.entries[..0], filters, isTitleBlacklist) == {};
    for i := 0 to |feed.entries|
      invariant result == TitledEntries(feed.entries[..i], filters, isTitleBlacklist)
    {
      var entry := feed.entries[i];
      assert feed.entries[..i + 1] == feed.entries[..i] + [entry];
      TitledEntriesSnoc(feed.entries[..i], entry, filters, isTitleBlacklist);
      if (entry.title in filters) != isTitleBlacklist {
        var group := if entry.title in result then result[entry.title] else [];
        result := result[entry.title := group + [entry]];
      }
    }
    assert feed.entries[..|feed.entries|] == feed.entries;
  }

  // ---- Facts about title groups ----

  lemma {:induction false} TitleGroupSnoc(s: seq<Entry>, e: Entry, t: string)
    ensures TitleGroup(s + [e], t) == TitleGroup(s, t) + (if e.title == t then [e] else [])
  {
    assert (s + [e])[..|s + [e]| - 1] == s;
  }

  /** A group holds exactly the entries carrying its title, each as often
      as it occurs in the input. */
  lemma {:induction false} TitleGroupCount(s: seq<Entry>, t: string, x: Entry)
    ensures multiset(TitleGroup(s, t))[x] == if x.title == t then multiset(s)[x] else 0
    decreases |s|
  {
    if s != [] {
      var p := s[..|s| - 1];
      TitleGroupCount(p, t, x);
      assert s == p + [s[|s| - 1]];
    }
  }

  /** A group is the subsequence of the input at exactly the positions of
      the entries carrying its title. */
  lemma {:induction false} TitleGroupOrder(s: seq<Entry>, t: string) returns (idx: seq<nat>)
    ensures |idx| == |TitleGroup(s, t)|
    ensures forall j :: 0 <= j < |idx| ==> idx[j] < |s| && s[idx[j]] == TitleGroup(s, t)[j]
    ensures forall j, k :: 0 <= j < k < |idx| ==> idx[j] < idx[k]
    ensures forall i :: 0 <= i < |s| ==> (s[i].title == t <==> i in idx)
    decreases |s|
  {
    if s == [] {
      idx := [];
    } else {
      var n := |s| - 1;
      var p := s[..n];
      var pidx := TitleGroupOrder(p, t);
      assert s == p + [s[n]];
      TitleGroupSnoc(p, s[n], t);
      idx := pidx + (if s[n].title == t then [n] else []);
      forall i | 0 <= i < |s| ensures s[i].title == t <==> i in idx {
        if i < n {
          assert s[i] == p[i];
          assert i in pidx ==> i != n;
        }
      }
    }
  }

  lemma {:induction false} TitleGroupAbsent(s: seq<Entry>, t: string)
    requires forall x :: x in s ==> x.title != t
    ensures TitleGroup(s, t) == []
    decreases |s|
  {
    if s != [] {
      TitleGroupAbsent(s[..|s| - 1], t);
    }
  }

  /** One more entry extends the grouping the way `entry(..).or_default().push(..)`
      does: only when it is kept, and only in its own title's group. */
  lemma {:induction false} KeptTitlesSnoc(s: seq<Entry>, e: Entry, filters: set<string>, isTitleBlacklist: bool)
    ensures KeptTitles(s + [e], filters, isTitleBlacklist) ==
            KeptTitles(s, filters, isTitleBlacklist) + (if Kept(e.title, filters, isTitleBlacklist) then {e.title} else {})
  {
    assert forall x :: x in s + [e] <==> x in s || x == e;
  }

  /** A kept title that no earlier entry carries has an empty group so far. */
  lemma {:induction false} NewTitle(s: seq<Entry>, e: Entry, filters: set<string>, isTitleBlacklist: bool)
    requires Kept(e.title, filters, isTitleBlacklist) && e.title !in KeptTitles(s, filters, isTitleBlacklist)
    ensures TitleGroup(s, e.title) == []
  {
    forall x | x in s ensures x.title != e.title {
      assert x.title == e.title ==> x.title in KeptTitles(s, filters, isTitleBlacklist);
    }
    TitleGroupAbsent(s, e.title);
  }

  /** One more entry extends the grouping the way `entry(..).or_default().push(..)`
      does: only when it is kept, and only in its own title's group. */
  lemma {:induction false} TitledEntriesSnoc(s: seq<Entry>, e: Entry, filters: set<string>, isTitleBlacklist: bool)
    ensures TitledEntries(s + [e], filters, isTitleBlacklist) ==
              var m := TitledEntries(s, filters, isTitleBlacklist);
              if Kept(e.title, filters, isTitleBlacklist)
              then m[e.title := (if e.title in m then m[e.title] else []) + [e]]
              else m
  {
    var m := TitledEntries(s, filters, isTitleBlacklist);
    var m' := TitledEntries(s + [e], filters, isTitleBlacklist);
    var kept := Kept(e.title, filters, isTitleBlacklist);
    KeptTitlesSnoc(s, e, filters, isTitleBlacklist);
    if kept && e.title !in m {
      NewTitle(s, e, filters, isTitleBlacklist);
    }
    var m2 := if kept then m[e.title := (if e.title in m then m[e.title] else []) + [e]] else m;
    assert m'.Keys == m2.Keys;
    forall t | t in m' ensures m'[t] == m2[t] {
      TitleGroupSnoc(s, e, t);
    }
  }

  // ---- Properties of the selection ----

  /** An entry's title is a key exactly when the title's membership among
      the filters differs from the blacklist flag; every key is such a title. */
  lemma {:induction false} KeptIffXor(entries: seq<Entry>, filters: set<string>, isTitleBlacklist: bool)
    ensures var m := TitledEntries(entries, filters, isTitleBlacklist);
            && (forall e :: e in entries ==> (e.title in m <==> (e.title in filters) != isTitleBlacklist))
            && (forall k :: k in m ==> (k in filters) != isTitleBlacklist &&
                                       exists e :: e in entries && e.title == k)
  {
  }

  lemma {:induction false} TitleGroupMembers(s: seq<Entry>, t: string)
    ensures forall x :: x in TitleGroup(s, t) <==> x in s && x.title == t
    decreases |s|
  {
    if s != [] {
      var p := s[..|s| - 1];
      TitleGroupMembers(p, t);
      assert s == p + [s[|s| - 1]];
    }
  }

  /** Every group is non-empty and holds only kept entries carrying its
      title; so a dropped entry appears in no group. */
  lemma {:induction false} GroupsNonEmpty(entries: seq<Entry>, filters: set<string>, isTitleBlacklist: bool)
    ensures var m := TitledEntries(entries, filters, isTitleBlacklist);
            forall k :: k in m ==>
              && |m[k]| > 0
              && forall x :: x in m[k] ==> x in entries && x.title == k && Kept(x.title, filters, isTitleBlacklist)
  {
    var m := TitledEntries(entries, filters, isTitleBlacklist);
    forall k | k in m
      ensures |m[k]| > 0
      ensures forall x :: x in m[k] ==> x in entries && x.title == k && Kept(x.title, filters, isTitleBlacklist)
    {
      TitleGroupMembers(entries, k);
      var e :| e in entries && Kept(e.title, filters, isTitleBlacklist) && e.title == k;
      assert e in m[k];
    }
  }

  /** Each group holds every entry with its title exactly as often as the
      input does, and no other entry. */
  lemma {:induction false} GroupCounts(entries: seq<Entry>, filters: set<string>, isTitleBlacklist: bool)
    ensures var m := TitledEntries(entries, filters, isTitleBlacklist);
            forall k, x: Entry :: k in m ==> multiset(m[k])[x] == if x.title == k then multiset(entries)[x] else 0
  {
    var m := TitledEntries(entries, filters, isTitleBlacklist);
    forall k, x: Entry | k in m ensures multiset(m[k])[x] == if x.title == k then multiset(entries)[x] else 0 {
      TitleGroupCount(entries, k, x);
    }
  }

  /** The entries of a group appear in the input in the same order, and
      they are all the entries with that title. */
  lemma {:induction false} GroupOrder(entries: seq<Entry>, filters: set<string>, isTitleBlacklist: bool, k: string)
    returns (idx: seq<nat>)
    requires k in TitledEntries(entries, filters, isTitleBlacklist)
    ensures var g := TitledEntries(entries, filters, isTitleBlacklist)[k];
            && |idx| == |g|
            && (forall j :: 0 <= j < |idx| ==> idx[j] < |entries| && entries[idx[j]] == g[j])
            && (forall j, j' :: 0 <= j < j' < |idx| ==> idx[j] < idx[j'])
            && (forall i :: 0 <= i < |entries| ==> (entries[i].title == k <==> i in idx))
  {
    idx := TitleGroupOrder(entries, k);
  }

  // ---- Group sizes ----

  predicate Distinct(ks: seq<string>)
  {
    forall i, j :: 0 <= i < j < |ks| ==> ks[i] != ks[j]
  }

  /** The total size of the groups under the keys `ks`. */
  function GroupSizes(m: map<string, seq<Entry>>, ks: seq<string>): nat
    requires forall k :: k in ks ==> k in m
  {
    if ks == [] then 0 else |m[ks[0]]| + GroupSizes(m, ks[1..])
  }

  /** The total size of the title groups of `s` under the keys `ks`. */
  function TitleGroupSizes(s: seq<Entry>, ks: seq<string>): nat
  {
    if ks == [] then 0 else |TitleGroup(s, ks[0])| + TitleGroupSizes(s, ks[1..])
  }

  lemma {:induction false} TitleGroupSizesSnoc(s: seq<Entry>, e: Entry, ks: seq<string>)
    requires Distinct(ks)
    ensures TitleGroupSizes(s + [e], ks) == TitleGroupSizes(s, ks) + (if e.title in ks then 1 else 0)
  {
    if ks != [] {
      TitleGroupSnoc(s, e, ks[0]);
      TitleGroupSizesSnoc(s, e, ks[1..]);
      assert e.title in ks <==> e.title == ks[0] || e.title in ks[1..];
      assert ks[0] !in ks[1..];
    }
  }

  lemma {:induction false} TitleGroupSizesCount(s: seq<Entry>, ks: seq<string>, filters: set<string>, isTitleBlacklist: bool)
    requires Distinct(ks)
    requires forall x :: x in s ==> (x.title in ks <==> Kept(x.title, filters, isTitleBlacklist))
    ensures TitleGroupSizes(s, ks) == |KeptEntries(s, filters, isTitleBlacklist)|
    decreases |s|
  {
    if s == [] {
      TitleGroupSizesEmpty(ks);
    } else {
      var n := |s| - 1;
      assert s == s[..n] + [s[n]];
      TitleGroupSizesCount(s[..n], ks, filters, isTitleBlacklist);
      TitleGroupSizesSnoc(s[..n], s[n], ks);
    }
  }

  lemma {:induction false} TitleGroupSizesEmpty(ks: seq<string>)
    ensures TitleGroupSizes([], ks) == 0
  {
    if ks != [] { TitleGroupSizesEmpty(ks[1..]); }
  }

  lemma {:induction false} GroupSizesOfGroups(entries: seq<Entry>, m: map<string, seq<Entry>>, ks: seq<string>)
    requires forall k :: k in ks ==> k in m && m[k] == TitleGroup(entries, k)
    ensures GroupSizes(m, ks) == TitleGroupSizes(entries, ks)
  {
    if ks != [] { GroupSizesOfGroups(entries, m, ks[1..]); }
  }

  /** Each kept entry lands in exactly one group: over any enumeration of
      the keys without repeats, the group sizes add up to the number of
      kept entries. */
  lemma {:induction false} SizesSumToKept(entries: seq<Entry>, filters: set<string>, isTitleBlacklist: bool, ks: seq<string>)
    requires Distinct(ks)
    requires forall k :: k in ks <==> k in TitledEntries(entries, filters, isTitleBlacklist)
    ensures GroupSizes(TitledEntries(entries, filters, isTitleBlacklist), ks) ==
            |KeptEntries(entries, filters, isTitleBlacklist)|
  {
    var m := TitledEntries(entries, filters, isTitleBlacklist);
    GroupSizesOfGroups(entries, m, ks);
    TitleGroupSizesCount(entries, ks, filters, isTitleBlacklist);
  }

  // ---- Edge cases of the filter list ----

  /** A whitelist without filters keeps nothing. */
  lemma {:induction false} EmptyWhitelist(entries: seq<Entry>)
    ensures TitledEntries(entries, FilterSet([]), false) == map[]
  {
    assert KeptTitles(entries, FilterSet([]), false) == {};
  }

  lemma {:induction false} KeepAll(s: seq<Entry>)
    ensures KeptEntries(s, {}, true) == s
    decreases |s|
  {
    if s != [] {
      KeepAll(s[..|s| - 1]);
      assert s == s[..|s| - 1] + [s[|s| - 1]];
    }
  }

  /** A blacklist without filters keeps every entry, each in the group of
      its title, as often as it occurs. */
  lemma {:induction false} EmptyBlacklist(entries: seq<Entry>)
    ensures KeptEntries(entries, FilterSet([]), true) == entries
    ensures var m := TitledEntries(entries, FilterSet([]), true);
            forall e :: e in entries ==> e.title in m && multiset(m[e.title])[e] == multiset(entries)[e]
  {
    assert FilterSet([]) == {};
    KeepAll(entries);
    forall e | e in entries
      ensures multiset(TitleGroup(entries, e.title))[e] == multiset(entries)[e]
    {
      TitleGroupCount(entries, e.title, e);
    }
  }

  /** Repeating a filter string changes nothing. */
  lemma {:induction false} DuplicateFilters(entries: seq<Entry>, titleFilters: seq<string>, i: nat, isTitleBlacklist: bool)
    requires i < |titleFilters|
    ensures TitledEntries(entries, FilterSet(titleFilters + [titleFilters[i]]), isTitleBlacklist) ==
            TitledEntries(entries, FilterSet(titleFilters), isTitleBlacklist)
  {
    assert FilterSet(titleFilters + [titleFilters[i]]) == FilterSet(titleFilters);
  }
}
