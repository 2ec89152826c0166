/** The check that a repository name is unused, from an untrusted listing read
    page by page. */
module NamespaceInventory {
  import opened Basics

  datatype Repo = Unreadable | Repo(name: string, id: string)

  datatype Cursor = NoCursor | BadCursor | Cursor(text: string)

  /** One reply of the provider's list call, as far as it parses. */
  datatype Reply = Junk | Page(repos: seq<Repo>, total: int, cursor: Cursor)

  datatype Verdict = Absent | AlreadyBound | Unqualified

  const MaxSafeInteger := 0x1F_FFFF_FFFF_FFFF

  predicate NameOk(name: string) {
    && name != "" && name[0] != '.'
    && (forall c | c in name :: 'A' <= c <= 'Z' || 'a' <= c <= 'z' || '0' <= c <= '9' || c in {'.', '_', '-'})
    && NoDoubleDot(name)
  }

  predicate NoDoubleDot(name: string) {
    |name| < 2 || (name[..2] != ".." && NoDoubleDot(name[1..]))
  }

  predicate EntryOk(repo: Repo) {
    repo.Repo? && NameOk(repo.name) && !Blank(repo.id)
  }

  function Names(repos: seq<Repo>): set<string> {
    set repo | repo in repos && repo.Repo? :: repo.name
  }

  function IdsOf(repos: seq<Repo>): set<string> {
    set repo | repo in repos && repo.Repo? :: repo.id
  }

  /** Readable entries whose names and ids are new and do not repeat. */
  predicate Clean(repos: seq<Repo>, names: set<string>, ids: set<string>) {
    && (forall repo | repo in repos :: EntryOk(repo) && repo.name !in names && repo.id !in ids)
    && forall i, j | 0 <= i < j < |repos| :: repos[i].Repo? && repos[j].Repo? ==> repos[i].name != repos[j].name && repos[i].id != repos[j].id
  }

  /** Everything listed on the first pages. */
  function Listed(replies: nat -> Reply, pages: nat): set<string> {
    if pages == 0 then {}
    else Listed(replies, pages - 1) + if replies(pages - 1).Page? then Names(replies(pages - 1).repos) else {}
  }

  function ListedIds(replies: nat -> Reply, pages: nat): set<string> {
    if pages == 0 then {}
    else ListedIds(replies, pages - 1) + if replies(pages - 1).Page? then IdsOf(replies(pages - 1).repos) else {}
  }

  /** How many entries the first pages have. */
  function Count(replies: nat -> Reply, pages: nat): nat {
    if pages == 0 then 0
    else Count(replies, pages - 1) + if replies(pages - 1).Page? then |replies(pages - 1).repos| else 0
  }

  predicate TotalOk(total: int) {
    0 <= total <= MaxSafeInteger
  }

  /** One page of a complete listing in n pages. */
  predicate PageOf(replies: nat -> Reply, n: nat, k: nat) {
    && SanePage(replies, k)
    && (n > 1 ==> replies(k).repos != [])
    && if k == n - 1 then replies(k).cursor == NoCursor else NewCursor(replies, k)
  }

  predicate NewCursor(replies: nat -> Reply, k: nat)
    requires replies(k).Page?
  {
    replies(k).cursor.Cursor? && replies(k).cursor.text != "" && replies(k).cursor.text !in Cursors(replies, k)
  }

  /** The cursors the first pages returned. */
  function Cursors(replies: nat -> Reply, pages: nat): set<string> {
    if pages == 0 then {}
    else
      Cursors(replies, pages - 1)
      + if replies(pages - 1).Page? && replies(pages - 1).cursor.Cursor? then {replies(pages - 1).cursor.text} else {}
  }

  /** The page announces a usable total, the same as the first one's. */
  predicate Counted(replies: nat -> Reply, k: nat) {
    && replies(k).Page? && replies(0).Page?
    && replies(k).total == replies(0).total && TotalOk(replies(k).total)
  }

  /** The replies are a complete listing: n pages, no name or id twice, a new
      cursor on every page but the last, and as many names as announced. */
  predicate Complete(replies: nat -> Reply, n: nat) {
    && n > 0 && replies(0).Page?
    && (forall k | 0 <= k < n :: PageOf(replies, n, k))
    && Count(replies, n) == replies(0).total
  }

  /** An entry that may follow the ones before it on the page. */
  predicate New(repos: seq<Repo>, i: nat, names: set<string>, ids: set<string>)
    requires i < |repos|
  {
    EntryOk(repos[i]) && repos[i].name !in names + Names(repos[..i]) && repos[i].id !in ids + IdsOf(repos[..i])
  }

  lemma CleanStep(repos: seq<Repo>, i: nat, names: set<string>, ids: set<string>)
    requires i < |repos| && Clean(repos[..i], names, ids) && New(repos, i, names, ids)
    ensures Clean(repos[..i + 1], names, ids)
    ensures Names(repos[..i + 1]) == Names(repos[..i]) + {repos[i].name}
    ensures IdsOf(repos[..i + 1]) == IdsOf(repos[..i]) + {repos[i].id}
  {
    assert repos[..i + 1] == repos[..i] + [repos[i]];
    forall j | 0 <= j < i && repos[j].Repo?
      ensures repos[j].name in Names(repos[..i]) && repos[j].id in IdsOf(repos[..i])
    {
      assert repos[..i][j] == repos[j];
    }
  }

  lemma CleanEntriesNew(repos: seq<Repo>, i: nat, names: set<string>, ids: set<string>)
    requires Clean(repos, names, ids) && i < |repos|
    ensures New(repos, i, names, ids)
  {
    assert repos[i] in repos;
  }

  /** One page's entries, in order. */
  method ReadPage(repos: seq<Repo>, names: set<string>, ids: set<string>, target: string)
    returns (r: Option<Verdict>, names': set<string>, ids': set<string>)
    ensures r.None? <==> Clean(repos, names, ids) && target !in Names(repos)
    ensures r.None? ==> names' == names + Names(repos) && ids' == ids + IdsOf(repos)
    ensures r == Some(AlreadyBound) ==> target in Names(repos)
    ensures r.Some? ==> r != Some(Absent) && (Clean(repos, names, ids) ==> r == Some(AlreadyBound))
  {
    names', ids' := names, ids;
    ghost var pageNames: set<string>, pageIds: set<string> := {}, {};
    for i := 0 to |repos|
      invariant Clean(repos[..i], names, ids) && target !in pageNames
      invariant pageNames == Names(repos[..i]) && pageIds == IdsOf(repos[..i])
      invariant names' == names + pageNames && ids' == ids + pageIds
    {
      var repo := repos[i];
      if Clean(repos, names, ids) {
        CleanEntriesNew(repos, i, names, ids);
      }
      if !EntryOk(repo) || repo.name in names' || repo.id in ids' {
        return Some(Unqualified), names', ids';
      }
      CleanStep(repos, i, names, ids);
      if repo.name == target {
        assert repo in repos;
        return Some(AlreadyBound), names', ids';
      }
      UnionStep(names, pageNames, repo.name);
      UnionStep(ids, pageIds, repo.id);
      names', ids' := names' + {repo.name}, ids' + {repo.id};
      pageNames, pageIds := pageNames + {repo.name}, pageIds + {repo.id};
    }
    assert repos[..|repos|] == repos;
    r := None;
  }

  // ------------------------------------------------------------ a complete listing

  lemma {:induction false} ListedOn(replies: nat -> Reply, j: nat, k: nat)
    requires j <= k
    ensures Listed(replies, j) <= Listed(replies, k)
  {
    if j < k {
      ListedOn(replies, j, k - 1);
    }
  }

  lemma {:induction false} CountOn(replies: nat -> Reply, j: nat, k: nat)
    requires j <= k
    ensures Count(replies, j) <= Count(replies, k)
  {
    if j < k {
      CountOn(replies, j, k - 1);
    }
  }

  /** Before its last page a complete listing has names to come. */
  lemma {:induction false} MoreToCome(replies: nat -> Reply, n: nat, k: nat)
    requires Complete(replies, n) && 0 < k < n
    ensures Count(replies, k) < Count(replies, n)
  {
    assert PageOf(replies, n, k);
    CountOn(replies, k + 1, n);
  }

  /** A clean page adds as many names as it has entries. */
  lemma {:induction false} CleanAdds(repos: seq<Repo>, names: set<string>, ids: set<string>)
    requires Clean(repos, names, ids)
    ensures |names + Names(repos)| == |names| + |repos|
  {
    if repos == [] {
      assert names + Names(repos) == names;
    } else {
      var n := |repos| - 1;
      assert forall repo | repo in repos[..n] :: repo in repos;
      CleanAdds(repos[..n], names, ids);
      CleanEntriesNew(repos, n, names, ids);
      NamesSnoc(repos);
      UnionStep(names, Names(repos[..n]), repos[n].name);
    }
  }

  lemma NamesSnoc(repos: seq<Repo>)
    requires repos != [] && repos[|repos| - 1].Repo?
    ensures Names(repos) == Names(repos[..|repos| - 1]) + {repos[|repos| - 1].name}
  {
    var n := |repos| - 1;
    assert repos == repos[..n] + [repos[n]];
  }

  lemma UnionStep(a: set<string>, b: set<string>, x: string)
    ensures a + b + {x} == a + (b + {x})
  {
  }

  lemma SubsetSize(a: set<string>, b: set<string>)
    requires a <= b
    ensures |a| <= |b|
    ensures |a| == |b| ==> a == b
  {
    assert b == a + (b - a);
    if |a| == |b| {
      assert |b - a| == 0;
    }
  }

  // ----------------------------------------------------------------------- the check

  predicate Sane(replies: nat -> Reply, pages: nat) {
    forall k | 0 <= k < pages :: SanePage(replies, k)
  }

  /** The page announces the total and lists only new, readable entries. */
  predicate SanePage(replies: nat -> Reply, k: nat) {
    Counted(replies, k) && Clean(replies(k).repos, Listed(replies, k), ListedIds(replies, k))
  }

  lemma SaneStep(replies: nat -> Reply, pages: nat)
    requires Sane(replies, pages) && Counted(replies, pages)
    requires Clean(replies(pages).repos, Listed(replies, pages), ListedIds(replies, pages))
    ensures Sane(replies, pages + 1)
  {
  }

  lemma ListedStep(replies: nat -> Reply, pages: nat)
    requires replies(pages).Page?
    ensures Listed(replies, pages + 1) == Listed(replies, pages) + Names(replies(pages).repos)
    ensures ListedIds(replies, pages + 1) == ListedIds(replies, pages) + IdsOf(replies(pages).repos)
  {
  }

  /** What a complete listing promises of the page at hand. */
  lemma {:induction false} CompletePage(replies: nat -> Reply, n: nat, pages: nat, cursors: set<string>)
    requires Complete(replies, n) && pages < n && cursors == Cursors(replies, pages)
    ensures SanePage(replies, pages)
    ensures pages + 1 == n <==> replies(pages).cursor == NoCursor
    ensures pages + 1 < n ==> replies(pages).repos != []
    ensures pages + 1 < n ==> replies(pages).cursor.Cursor? && replies(pages).cursor.text != "" && replies(pages).cursor.text !in cursors
  {
    assert PageOf(replies, n, pages);
  }

  lemma {:induction false} LastPage(replies: nat -> Reply, n: nat, pages: nat)
    requires replies(pages).Page? && pages + 1 == n
    ensures Listed(replies, n) == Listed(replies, pages) + Names(replies(pages).repos)
  {
  }

  /** What is known after some pages that left the question open. */
  ghost predicate Reading(replies: nat -> Reply, pages: nat, names: set<string>, ids: set<string>, cursors: set<string>, total: Option<int>) {
    match total
    case None => pages == 0 && names == {} && ids == {} && cursors == {}
    case Some(t) =>
      && names == Listed(replies, pages) && ids == ListedIds(replies, pages) && cursors == Cursors(replies, pages)
      && |names| == Count(replies, pages) && Sane(replies, pages)
      && replies(0).Page? && replies(0).total == t && 0 < pages <= |names| < t
  }

  /** The verdict a complete listing of n pages deserves after some of them. */
  predicate Exact(replies: nat -> Reply, target: string, n: nat, r: Option<Verdict>, pages: nat) {
    match r
    case None => pages < n
    case Some(AlreadyBound) => pages <= n && target in Listed(replies, n)
    case Some(Absent) => pages == n && target !in Listed(replies, n)
    case Some(Unqualified) => false
  }

  /** What a verdict says whatever the provider replied: no more pages were read
      than names announced; an absent name is none of exactly as many listed; a
      bound one is listed. */
  ghost predicate Answer(replies: nat -> Reply, target: string, r: Verdict, pages: nat) {
    match r
    case Unqualified => WithinTotal(replies, pages)
    case AlreadyBound => WithinTotal(replies, pages) && target in Listed(replies, pages)
    case Absent =>
      && WithinTotal(replies, pages) && Sane(replies, pages) && replies(0).Page?
      && |Listed(replies, pages)| == replies(0).total && target !in Listed(replies, pages)
  }

  predicate WithinTotal(replies: nat -> Reply, pages: nat) {
    pages > 1 ==> replies(0).Page? && pages <= replies(0).total
  }

  /** Pages are being read, and a complete listing has more to come. */
  ghost predicate Undecided(replies: nat -> Reply, target: string, n: nat, pages: nat, names: set<string>, ids: set<string>,
                            cursors: set<string>, total: Option<int>) {
    && Reading(replies, pages, names, ids, cursors, total) && target !in names
    && (Complete(replies, n) ==> pages < n)
  }

  /** The verdict is sound, and exact on a complete listing. */
  ghost predicate Decided(replies: nat -> Reply, target: string, n: nat, r: Verdict, pages: nat) {
    && Answer(replies, target, r, pages)
    && (Complete(replies, n) ==> Exact(replies, target, n, Some(r), pages))
  }

  /** The page can be counted with the ones before it. */
  predicate Fits(page: Reply, total: Option<int>) {
    page.Page? && TotalOk(page.total) && (total.Some? ==> page.total == total.value)
  }

  /** The page fits a complete listing of which it is the last page or not. */
  predicate Proper(page: Reply, names: set<string>, ids: set<string>, cursors: set<string>, total: Option<int>, last: bool) {
    && Fits(page, total) && Clean(page.repos, names, ids)
    && (last <==> page.cursor == NoCursor)
    && (last <==> |names| + |page.repos| == page.total) && |names| + |page.repos| <= page.total
    && (!last ==> page.repos != [] && page.cursor.Cursor? && page.cursor.text != "" && page.cursor.text !in cursors)
  }

  /** The right answer, if the page is proper. */
  predicate Deserved(page: Reply, target: string, names: set<string>, ids: set<string>, cursors: set<string>, total: Option<int>, r: Option<Verdict>) {
    && (Proper(page, names, ids, cursors, total, true) ==> r == if target in Names(page.repos) then Some(AlreadyBound) else Some(Absent))
    && (Proper(page, names, ids, cursors, total, false) ==> r == if target in Names(page.repos) then Some(AlreadyBound) else None)
  }

  /** One page. Without a verdict, another page is to be read. */
  method TakePage(page: Reply, target: string, names: set<string>, ids: set<string>, cursors: set<string>, total: Option<int>)
    returns (r: Option<Verdict>, names': set<string>, ids': set<string>, cursors': set<string>)
    ensures r.None? || r == Some(Absent) ==>
              && Fits(page, total) && Clean(page.repos, names, ids) && target !in Names(page.repos)
              && names' == names + Names(page.repos) && ids' == ids + IdsOf(page.repos) && |names'| == |names| + |page.repos|
    ensures r.None? ==> page.repos != [] && |names'| < page.total && page.cursor.Cursor? && cursors' == cursors + {page.cursor.text}
    ensures r == Some(Absent) ==> |names'| == page.total
    ensures r == Some(AlreadyBound) ==> page.Page? && target in Names(page.repos)
    ensures Deserved(page, target, names, ids, cursors, total, r)
  {
    names', ids', cursors' := names, ids, cursors;
    if !Fits(page, total) {
      r := Some(Unqualified);
      return;
    }
    r, names', ids' := ReadPage(page.repos, names, ids, target);
    if r.Some? {
      return;
    }
    CleanAdds(page.repos, names, ids);
    if |names'| > page.total {
      r := Some(Unqualified);
    } else if page.cursor == NoCursor {
      r := Some(if |names'| == page.total then Absent else Unqualified);
    } else if page.cursor.BadCursor? || page.cursor.text == "" || page.cursor.text in cursors || page.repos == [] || |names'| >= page.total {
      r := Some(Unqualified);
    } else {
      cursors' := cursors + {page.cursor.text};
    }
  }

  /** A clean page that fits carries the reading one page further. */
  lemma {:induction false} ReadingStep(replies: nat -> Reply, pages: nat, names: set<string>, ids: set<string>, cursors: set<string>, total: Option<int>)
    requires Reading(replies, pages, names, ids, cursors, total)
    requires var page := replies(pages); Fits(page, total) && Clean(page.repos, names, ids)
    ensures Sane(replies, pages + 1) && replies(0).Page? && replies(pages).total == replies(0).total
  {
    assert Listed(replies, 0) == {} && ListedIds(replies, 0) == {};
    SaneStep(replies, pages);
  }

  /** The entries read so far and those of the page, against the total. */
  lemma CountedPage(replies: nat -> Reply, n: nat, pages: nat)
    requires Complete(replies, n) && pages < n
    ensures Count(replies, pages + 1) <= replies(0).total
    ensures pages + 1 == n <==> Count(replies, pages + 1) == replies(0).total
  {
    CountOn(replies, pages + 1, n);
    if pages + 1 < n {
      MoreToCome(replies, n, pages + 1);
    }
  }

  lemma ProperPage(replies: nat -> Reply, n: nat, pages: nat, names: set<string>, ids: set<string>, cursors: set<string>, total: Option<int>)
    requires Complete(replies, n) && pages < n && Reading(replies, pages, names, ids, cursors, total)
    ensures Proper(replies(pages), names, ids, cursors, total, pages + 1 == n)
  {
    CompletePage(replies, n, pages, cursors);
    CountedPage(replies, n, pages);
  }

  /** Reads pages until the listing ends or is refused. Whatever the provider
      replies, at most max(1, total) pages are read; on a complete listing the
      answer is exact. */
  method AssertAbsent(replies: nat -> Reply, target: string, ghost n: nat) returns (r: Verdict, pages: nat)
    ensures pages > 0 && Answer(replies, target, r, pages)
    ensures Complete(replies, n) ==> Exact(replies, target, n, Some(r), pages)
  {
    var names: set<string>, ids: set<string>, cursors: set<string> := {}, {}, {};
    var total: Option<int> := None;
    pages := 0;
    while true
      invariant Undecided(replies, target, n, pages, names, ids, cursors, total)
      decreases if total.None? then 1 else 0, if total.None? then 0 else total.value - |names|
    {
      ghost var before, known, seen := names, ids, cursors;
      var page := replies(pages);
      var verdict;
      verdict, names, ids, cursors := TakePage(page, target, names, ids, cursors, total);
      if verdict.Some? {
        Decide(replies, target, n, pages, before, known, seen, total, verdict.value);
        return verdict.value, pages + 1;
      }
      Continue(replies, target, n, pages, before, known, seen, total);
      total := Some(page.total);
      pages := pages + 1;
    }
  }

  lemma Decide(replies: nat -> Reply, target: string, n: nat, pages: nat, names: set<string>, ids: set<string>, cursors: set<string>,
               total: Option<int>, r: Verdict)
    requires Undecided(replies, target, n, pages, names, ids, cursors, total)
    requires var page := replies(pages);
             && (r == Absent ==> Fits(page, total) && Clean(page.repos, names, ids) && target !in Names(page.repos)
                                 && |names + Names(page.repos)| == page.total)
             && (r == AlreadyBound ==> page.Page? && target in Names(page.repos))
             && Deserved(page, target, names, ids, cursors, total, Some(r))
    ensures Decided(replies, target, n, r, pages + 1)
  {
    if replies(pages).Page? {
      ListedStep(replies, pages);
    }
    if r == Absent {
      ReadingStep(replies, pages, names, ids, cursors, total);
      ReadingSets(replies, pages, names, ids, cursors, total);
    }
    if Complete(replies, n) {
      CompleteAnswer(replies, target, n, pages, names, ids, cursors, total, Some(r));
      DecideExact(replies, target, n, pages, r);
    }
  }

  /** A proper page gets the right answer, and none but the last a final no. */
  lemma DeservedMeans(page: Reply, target: string, names: set<string>, ids: set<string>, cursors: set<string>, total: Option<int>,
                      r: Option<Verdict>, last: bool)
    requires Proper(page, names, ids, cursors, total, last) && Deserved(page, target, names, ids, cursors, total, r)
    ensures if target in Names(page.repos) then r == Some(AlreadyBound) else if last then r == Some(Absent) else r == None
  {
    if last {
      assert Proper(page, names, ids, cursors, total, true);
    } else {
      assert Proper(page, names, ids, cursors, total, false);
    }
  }

  lemma CompleteAnswer(replies: nat -> Reply, target: string, n: nat, pages: nat, names: set<string>, ids: set<string>,
                       cursors: set<string>, total: Option<int>, r: Option<Verdict>)
    requires Complete(replies, n) && pages < n && Reading(replies, pages, names, ids, cursors, total)
    requires Deserved(replies(pages), target, names, ids, cursors, total, r)
    ensures replies(pages).Page?
    ensures if target in Names(replies(pages).repos) then r == Some(AlreadyBound)
            else if pages + 1 == n then r == Some(Absent) else r == None
  {
    ProperPage(replies, n, pages, names, ids, cursors, total);
    DeservedMeans(replies(pages), target, names, ids, cursors, total, r, pages + 1 == n);
  }

  lemma DecideExact(replies: nat -> Reply, target: string, n: nat, pages: nat, r: Verdict)
    requires pages < n && replies(pages).Page? && target !in Listed(replies, pages)
    requires if target in Names(replies(pages).repos) then r == AlreadyBound else pages + 1 == n && r == Absent
    ensures Exact(replies, target, n, Some(r), pages + 1)
  {
    ListedOn(replies, pages + 1, n);
    ListedStep(replies, pages);
    if r == Absent {
      LastPage(replies, n, pages);
    }
  }

  lemma Continue(replies: nat -> Reply, target: string, n: nat, pages: nat, names: set<string>, ids: set<string>, cursors: set<string>,
                 total: Option<int>)
    requires Undecided(replies, target, n, pages, names, ids, cursors, total)
    requires var page := replies(pages);
             && Fits(page, total) && Clean(page.repos, names, ids) && target !in Names(page.repos)
             && page.repos != [] && |names + Names(page.repos)| < page.total && page.cursor.Cursor?
             && Deserved(page, target, names, ids, cursors, total, None)
    ensures var page := replies(pages);
            Undecided(replies, target, n, pages + 1, names + Names(page.repos), ids + IdsOf(page.repos), cursors + {page.cursor.text},
                      Some(page.total))
  {
    ReadOn(replies, pages, names, ids, cursors, total);
    if Complete(replies, n) {
      CompleteAnswer(replies, target, n, pages, names, ids, cursors, total, None);
    }
  }

  lemma ReadOn(replies: nat -> Reply, pages: nat, names: set<string>, ids: set<string>, cursors: set<string>, total: Option<int>)
    requires Reading(replies, pages, names, ids, cursors, total)
    requires var page := replies(pages);
             && Fits(page, total) && Clean(page.repos, names, ids)
             && page.repos != [] && |names + Names(page.repos)| < page.total && page.cursor.Cursor?
    ensures var page := replies(pages);
            Reading(replies, pages + 1, names + Names(page.repos), ids + IdsOf(page.repos), cursors + {page.cursor.text}, Some(page.total))
  {
    ReadingStep(replies, pages, names, ids, cursors, total);
    ReadingSets(replies, pages, names, ids, cursors, total);
    CleanAdds(replies(pages).repos, names, ids);
  }

  /** The sets after one more page, and that no more pages than names were read. */
  lemma ReadingSets(replies: nat -> Reply, pages: nat, names: set<string>, ids: set<string>, cursors: set<string>, total: Option<int>)
    requires Reading(replies, pages, names, ids, cursors, total) && replies(pages).Page?
    ensures Listed(replies, pages + 1) == names + Names(replies(pages).repos)
    ensures ListedIds(replies, pages + 1) == ids + IdsOf(replies(pages).repos)
    ensures Count(replies, pages + 1) == |names| + |replies(pages).repos| && pages <= |names|
    ensures replies(pages).cursor.Cursor? ==> Cursors(replies, pages + 1) == cursors + {replies(pages).cursor.text}
  {
    ListedStep(replies, pages);
  }

  /** A normal return proves the name unused, if the listing spoke of a stable
      inventory of as many names as it announced. */
  lemma {:induction false} AbsenceIsReal(replies: nat -> Reply, pages: nat, target: string, inventory: set<string>)
    requires Answer(replies, target, Absent, pages) && |inventory| == replies(0).total && Listed(replies, pages) <= inventory
    ensures target !in inventory
  {
    SubsetSize(Listed(replies, pages), inventory);
  }
}
