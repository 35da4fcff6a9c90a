/** Installation warm start: listing, ranking and binding repositories
    (bridge/bridge/github_install.py). */
module RepoWarmStart {
  import opened Options

  const REPOS_PER_PAGE := 100
  const MAX_REPOS_TO_FETCH := 500
  const MAX_BINDINGS := 5

  datatype Repo = Repo(
    fullName: Option<string>,
    pushedAt: Option<string>,
    stars: Option<int>,
    defaultBranch: Option<string>)

  /** An entry of GitHub's list. `Unreadable` is one the ranking cannot compute a key
      for: not an object, a push time that is not text, stars that are no number. */
  datatype Item = Readable(repo: Repo) | Unreadable

  // ------------------------------------------------------------- pagination

  datatype Reply = HttpError(code: int) | NetworkError | WrongShape | Page(items: seq<Item>)

  datatype ListError = TokenRequired | RequestFailed(page: nat, reply: Reply)

  function FirstOf<T>(items: seq<T>, limit: int): seq<T> {
    if limit <= 0 then [] else if limit <= |items| then items[..limit] else items
  }

  /** The listing that goes on from `page` with `repos` already there. */
  function ListedFrom(respond: nat -> Reply, perPage: nat, maxRepos: int, page: nat, repos: seq<Item>): Result<seq<Item>, ListError>
    requires perPage > 0
    decreases maxRepos - |repos|
  {
    if |repos| >= maxRepos then Ok(FirstOf(repos, maxRepos))
    else
      var reply := respond(page);
      if !reply.Page? then Err(RequestFailed(page, reply))
      else if |reply.items| < perPage then Ok(FirstOf(repos + reply.items, maxRepos))
      else ListedFrom(respond, perPage, maxRepos, page + 1, repos + reply.items)
  }

  /** Page through the installation's repositories; `respond(p)` is what the
      server answers for page `p`. */
  method ListInstallationRepos(token: string, respond: nat -> Reply, perPage: nat, maxRepos: int)
    returns (listed: Result<seq<Item>, ListError>)
    requires perPage > 0
    ensures token == "" ==> listed == Err(TokenRequired)
    ensures token != "" ==> listed == ListedFrom(respond, perPage, maxRepos, 1, [])
  {
    if token == "" {
      return Err(TokenRequired);
    }
    var repos: seq<Item> := [];
    var page := 1;
    while true
      invariant page >= 1
      invariant ListedFrom(respond, perPage, maxRepos, 1, []) == ListedFrom(respond, perPage, maxRepos, page, repos)
      decreases maxRepos - |repos|
    {
      if |repos| >= maxRepos {
        break;
      }
      var reply := respond(page);
      if !reply.Page? {
        return Err(RequestFailed(page, reply));
      }
      if |reply.items| < perPage {
        return Ok(FirstOf(repos + reply.items, maxRepos));
      }
      repos := repos + reply.items;
      page := page + 1;
    }
    return Ok(FirstOf(repos, maxRepos));
  }

  /** A server that pages the fixed list `all`, except that some requests fail. */
  ghost predicate Pages(respond: nat -> Reply, all: seq<Item>, perPage: nat) {
    forall page: nat | page >= 1 && respond(page).Page? ::
      respond(page).items == PageOf(all, perPage, page)
  }

  /** How many items come before a page. */
  function Offset(perPage: nat, page: nat): nat
    requires page >= 1
  {
    (page - 1) * perPage
  }

  function PageOf(all: seq<Item>, perPage: nat, page: nat): seq<Item>
    requires page >= 1
  {
    FirstOf(DropFirst(all, Offset(perPage, page)), perPage)
  }

  function DropFirst(all: seq<Item>, n: nat): seq<Item> {
    if n <= |all| then all[n..] else []
  }

  /** The pages that are asked for: those that start before the cap, up to and
      including the first that is not full. */
  predicate Needed(all: seq<Item>, perPage: nat, maxRepos: int, page: nat)
  {
    page >= 1 && Offset(perPage, page) < maxRepos && Offset(perPage, page) <= |all|
  }

  /** Against such a server the listing is exactly the first `maxRepos` items of
      the list, unless one of the needed pages fails. */
  lemma {:induction false} ListsTheFirst(respond: nat -> Reply, all: seq<Item>, perPage: nat, maxRepos: int, page: nat)
    requires perPage > 0 && page >= 1 && Pages(respond, all, perPage)
    requires Offset(perPage, page) <= |all|
    ensures var listed := ListedFrom(respond, perPage, maxRepos, page, all[..Offset(perPage, page)]);
            && (listed.Ok? ==> listed.value == FirstOf(all, maxRepos))
            && (listed.Ok? <==> forall p: nat | page <= p && Needed(all, perPage, maxRepos, p) :: respond(p).Page?)
    decreases |all| - Offset(perPage, page)
  {
    var offset := Offset(perPage, page);
    var repos := all[..offset];
    PagesAscend(perPage, page, page);
    hide Offset;
    if offset >= maxRepos {
      forall p: nat | page <= p ensures !Needed(all, perPage, maxRepos, p) {
        PagesAscend(perPage, page, p);
      }
    } else {
      assert Needed(all, perPage, maxRepos, page);
      if respond(page).Page? {
        var got := respond(page).items;
        assert got == PageOf(all, perPage, page);
        if |got| < perPage {
          assert repos + got == all;
          forall p: nat | page < p ensures !Needed(all, perPage, maxRepos, p) {
            PagesAscend(perPage, page + 1, p);
          }
        } else {
          assert repos + got == all[..offset + perPage];
          ListsTheFirst(respond, all, perPage, maxRepos, page + 1);
        }
      }
    }
  }

  lemma PagesAscend(perPage: nat, page: nat, p: nat)
    requires 1 <= page <= p
    ensures Offset(perPage, page) <= Offset(perPage, p)
    ensures Offset(perPage, page + 1) == Offset(perPage, page) + perPage
  {
    assert Offset(perPage, p) - Offset(perPage, page) == (p - page) * perPage;
  }

  /** The whole listing, from the first page. */
  lemma ListingIsExact(respond: nat -> Reply, all: seq<Item>, perPage: nat, maxRepos: int)
    requires perPage > 0 && Pages(respond, all, perPage)
    ensures var listed := ListedFrom(respond, perPage, maxRepos, 1, []);
            && (listed.Ok? ==> listed.value == FirstOf(all, maxRepos))
            && (listed.Ok? <==> forall p: nat | Needed(all, perPage, maxRepos, p) :: respond(p).Page?)
  {
    assert all[..0] == [];
    ListsTheFirst(respond, all, perPage, maxRepos, 1);
  }

  /** The repositories of a list, if all of them can be ranked. */
  function ReposOf(items: seq<Item>): Option<seq<Repo>> {
    if Unreadable in items then None
    else Some(seq(|items|, i requires 0 <= i < |items| && items[i] in items => items[i].repo))
  }

  // ---------------------------------------------------------------- ranking

  predicate StringLess(a: string, b: string) {
    if b == "" then false
    else if a == "" then true
    else a[0] < b[0] || (a[0] == b[0] && StringLess(a[1..], b[1..]))
  }

  datatype Key = Key(hasTimestamp: int, pushedAt: string, stars: int)

  predicate Less(a: Key, b: Key) {
    || a.hasTimestamp < b.hasTimestamp
    || (a.hasTimestamp == b.hasTimestamp && StringLess(a.pushedAt, b.pushedAt))
    || (a.hasTimestamp == b.hasTimestamp && a.pushedAt == b.pushedAt && a.stars < b.stars)
  }

  function SortKey(repo: Repo): Key {
    var pushedAt := if repo.pushedAt.Some? then repo.pushedAt.value else "";
    var stars := if repo.stars.Some? then repo.stars.value else 0;
    Key(if pushedAt != "" then 1 else 0, pushedAt, stars)
  }

  lemma {:induction false} StringsAreOrdered(a: string, b: string)
    ensures StringLess(a, b) || a == b || StringLess(b, a)
    ensures !(StringLess(a, b) && StringLess(b, a)) && !(a == b && StringLess(a, b))
  {
    if a != "" && b != "" {
      StringsAreOrdered(a[1..], b[1..]);
      assert a == [a[0]] + a[1..] && b == [b[0]] + b[1..];
    }
  }

  lemma {:induction false} StringLessTransitive(a: string, b: string, c: string)
    requires StringLess(a, b) && StringLess(b, c)
    ensures StringLess(a, c)
  {
    if a != "" && a[0] == b[0] && b[0] == c[0] {
      StringLessTransitive(a[1..], b[1..], c[1..]);
    }
  }

  lemma KeysAreOrdered(a: Key, b: Key)
    ensures Less(a, b) || a == b || Less(b, a)
    ensures !(Less(a, b) && Less(b, a)) && !Less(a, a)
  {
    StringsAreOrdered(a.pushedAt, b.pushedAt);
    StringsAreOrdered(a.pushedAt, a.pushedAt);
  }

  lemma LessTransitive(a: Key, b: Key, c: Key)
    requires Less(a, b) && Less(b, c)
    ensures Less(a, c)
  {
    if StringLess(a.pushedAt, b.pushedAt) && StringLess(b.pushedAt, c.pushedAt) {
      StringLessTransitive(a.pushedAt, b.pushedAt, c.pushedAt);
    }
  }

  /** "Not below" is transitive too. */
  lemma NotLessTransitive(a: Key, b: Key, c: Key)
    requires !Less(a, b) && !Less(b, c)
    ensures !Less(a, c)
  {
    hide StringLess;
    KeysAreOrdered(a, b);
    KeysAreOrdered(b, c);
    hide Less;
    if Less(a, c) {
      if b != a && b != c {
        LessTransitive(a, c, b);
        KeysAreOrdered(a, b);
      }
    }
  }

  /** Put a repository before all those its key is not below. */
  function Insert(repo: Repo, ranked: seq<Repo>): seq<Repo> {
    if ranked == [] || !Less(SortKey(repo), SortKey(ranked[0])) then [repo] + ranked
    else [ranked[0]] + Insert(repo, ranked[1..])
  }

  /** The source's stable descending sort. */
  function RankRepos(repos: seq<Repo>): seq<Repo> {
    if repos == [] then [] else Insert(repos[0], RankRepos(repos[1..]))
  }

  predicate Descending(ranked: seq<Repo>) {
    forall i, j | 0 <= i < j < |ranked| :: !Less(SortKey(ranked[i]), SortKey(ranked[j]))
  }

  /** The repositories with one key, in the order they come. */
  function WithKey(repos: seq<Repo>, key: Key): seq<Repo> {
    if repos == [] then []
    else (if SortKey(repos[0]) == key then [repos[0]] else []) + WithKey(repos[1..], key)
  }

  /** Descending, and every group of equals keeps its order and its members. */
  ghost predicate StablyRanks(ranked: seq<Repo>, repos: seq<Repo>) {
    Descending(ranked) && forall key :: WithKey(ranked, key) == WithKey(repos, key)
  }

  lemma WithKeyCons(repo: Repo, repos: seq<Repo>, key: Key)
    ensures WithKey([repo] + repos, key) == (if SortKey(repo) == key then [repo] else []) + WithKey(repos, key)
  {
    assert ([repo] + repos)[1..] == repos;
  }

  lemma {:induction false} InsertKeepsGroups(repo: Repo, ranked: seq<Repo>, key: Key)
    ensures WithKey(Insert(repo, ranked), key) == WithKey([repo] + ranked, key)
  {
    if ranked != [] && Less(SortKey(repo), SortKey(ranked[0])) {
      var first, rest := ranked[0], ranked[1..];
      KeysAreOrdered(SortKey(repo), SortKey(first));
      InsertKeepsGroups(repo, rest, key);
      hide Less, SortKey;
      WithKeyCons(first, Insert(repo, rest), key);
      WithKeyCons(repo, rest, key);
      WithKeyCons(repo, ranked, key);
      hide WithKey, Insert;
      assert WithKey(ranked, key) == (if SortKey(first) == key then [first] else []) + WithKey(rest, key) by {
        WithKeyCons(first, rest, key);
        assert ranked == [first] + rest;
      }
    }
  }

  lemma {:induction false} InsertKeepsMembers(repo: Repo, ranked: seq<Repo>)
    ensures multiset(Insert(repo, ranked)) == multiset{repo} + multiset(ranked)
  {
    hide Less;
    if ranked != [] {
      assert ranked == [ranked[0]] + ranked[1..];
      InsertKeepsMembers(repo, ranked[1..]);
    }
  }

  lemma {:induction false} InsertKeepsDescending(repo: Repo, ranked: seq<Repo>)
    requires Descending(ranked)
    ensures Descending(Insert(repo, ranked))
  {
    hide SortKey;
    if ranked == [] {
    } else if !Less(SortKey(repo), SortKey(ranked[0])) {
      forall j | 0 <= j < |ranked| ensures !Less(SortKey(repo), SortKey(ranked[j])) {
        if j > 0 {
          NotLessTransitive(SortKey(repo), SortKey(ranked[0]), SortKey(ranked[j]));
        }
      }
      hide Less;
    } else {
      var first, rest := ranked[0], Insert(repo, ranked[1..]);
      InsertKeepsDescending(repo, ranked[1..]);
      InsertKeepsMembers(repo, ranked[1..]);
      KeysAreOrdered(SortKey(repo), SortKey(first));
      hide Less;
      assert Insert(repo, ranked) == [first] + rest;
      hide Insert;
      forall j | 0 <= j < |rest| ensures !Less(SortKey(first), SortKey(rest[j])) {
        MemberOfInsert(repo, ranked[1..], rest, j);
      }
    }
  }

  lemma MemberOfInsert(repo: Repo, ranked: seq<Repo>, inserted: seq<Repo>, j: nat)
    requires multiset(inserted) == multiset{repo} + multiset(ranked) && j < |inserted|
    ensures inserted[j] == repo || exists i :: 0 <= i < |ranked| && ranked[i] == inserted[j]
  {
    assert inserted[j] in multiset(inserted);
    assert inserted[j] == repo || inserted[j] in multiset(ranked);
  }

  /** Ranking is a stable descending permutation. */
  lemma {:induction false} RankingIsStable(repos: seq<Repo>)
    ensures StablyRanks(RankRepos(repos), repos)
    ensures multiset(RankRepos(repos)) == multiset(repos)
  {
    hide SortKey, Insert, Less;
    if repos != [] {
      var first, rest := repos[0], RankRepos(repos[1..]);
      RankingIsStable(repos[1..]);
      InsertKeepsDescending(first, rest);
      InsertKeepsMembers(first, rest);
      assert repos == [first] + repos[1..];
      hide Descending;
      forall key ensures WithKey(Insert(first, rest), key) == WithKey(repos, key) {
        InsertKeepsGroups(first, rest, key);
        WithKeyCons(first, rest, key);
        WithKeyCons(first, repos[1..], key);
      }
    }
  }

  lemma {:induction false} GroupMembers(repos: seq<Repo>, key: Key)
    ensures WithKey(repos, key) != [] <==> exists i :: 0 <= i < |repos| && SortKey(repos[i]) == key
  {
    hide SortKey;
    if repos != [] {
      GroupMembers(repos[1..], key);
      if SortKey(repos[0]) != key && WithKey(repos, key) != [] {
        var i :| 0 <= i < |repos[1..]| && SortKey(repos[1..][i]) == key;
        assert SortKey(repos[i + 1]) == key;
      }
      if i :| 0 < i < |repos| && SortKey(repos[i]) == key {
        assert SortKey(repos[1..][i - 1]) == key;
      }
    }
  }

  /** Two stable rankings of the same groups start alike ... */
  lemma SameBest(a: seq<Repo>, b: seq<Repo>)
    requires a != [] && Descending(a) && Descending(b)
    requires forall key :: WithKey(a, key) == WithKey(b, key)
    ensures b != [] && a[0] == b[0]
  {
    GroupMembers(a, SortKey(a[0]));
    GroupMembers(b, SortKey(a[0]));
    assert WithKey(a, SortKey(a[0])) == WithKey(b, SortKey(a[0]));
    GroupMembers(b, SortKey(b[0]));
    GroupMembers(a, SortKey(b[0]));
    assert WithKey(a, SortKey(b[0])) == WithKey(b, SortKey(b[0]));
    KeysAreOrdered(SortKey(a[0]), SortKey(b[0]));
    hide Less, SortKey;
    assert SortKey(a[0]) == SortKey(b[0]);
    assert a[0] == WithKey(a, SortKey(a[0]))[0] == b[0];
  }

  /** ... and go on alike. */
  lemma SameRest(a: seq<Repo>, b: seq<Repo>, key: Key)
    requires a != [] && b != [] && a[0] == b[0] && WithKey(a, key) == WithKey(b, key)
    ensures WithKey(a[1..], key) == WithKey(b[1..], key)
  {
    hide SortKey;
    var head := if SortKey(a[0]) == key then [a[0]] else [];
    assert WithKey(a[1..], key) == WithKey(a, key)[|head|..];
    assert WithKey(b[1..], key) == WithKey(b, key)[|head|..];
  }

  /** So these properties pin the ranking down. */
  lemma {:induction false} RankingIsUnique(a: seq<Repo>, b: seq<Repo>)
    requires Descending(a) && Descending(b)
    requires forall key :: WithKey(a, key) == WithKey(b, key)
    ensures a == b
  {
    if a == [] {
      if b != [] {
        SameBest(b, a);
      }
    } else {
      SameBest(a, b);
      forall key ensures WithKey(a[1..], key) == WithKey(b[1..], key) {
        SameRest(a, b, key);
      }
      hide WithKey;
      RankingIsUnique(a[1..], b[1..]);
      assert a == [a[0]] + a[1..] && b == [b[0]] + b[1..];
    }
  }

  // ------------------------------------------------ the order in plain terms

  /** `a` comes before `b` in the order of code points: they agree up to `k`, where `a`
      ends first or has the smaller one. */
  predicate DiffersAt(a: string, b: string, k: int) {
    && 0 <= k <= |a| && k < |b| && a[..k] == b[..k]
    && (k < |a| ==> a[k] < b[k])
  }

  lemma AgreesFirst(a: string, b: string, k: int)
    requires DiffersAt(a, b, k)
    ensures b != "" && (k == 0 || (a != "" && a[0] == b[0]))
  {
    if k > 0 {
      assert a[..k][0] == b[..k][0];
    }
  }

  lemma {:induction false} StringLessMeans(a: string, b: string)
    ensures StringLess(a, b) <==> exists k :: DiffersAt(a, b, k)
  {
    if a != "" && b != "" && a[0] == b[0] {
      StringLessMeans(a[1..], b[1..]);
      if k :| DiffersAt(a[1..], b[1..], k) {
        assert a[..k + 1] == [a[0]] + a[1..][..k] && b[..k + 1] == [b[0]] + b[1..][..k];
        assert DiffersAt(a, b, k + 1);
      }
      if k :| DiffersAt(a, b, k) {
        assert k > 0;
        assert a[1..][..k - 1] == a[..k][1..] && b[1..][..k - 1] == b[..k][1..];
        assert DiffersAt(a[1..], b[1..], k - 1);
      }
    } else if StringLess(a, b) {
      assert DiffersAt(a, b, 0);
    } else if k :| DiffersAt(a, b, k) {
      AgreesFirst(a, b, k);
    }
  }

  /** When a repository was last pushed to; never is the empty text. */
  function Pushed(repo: Repo): string {
    match repo.pushedAt
    case None => ""
    case Some(time) => time
  }

  function Stars(repo: Repo): int {
    match repo.stars
    case None => 0
    case Some(stars) => stars
  }

  /** In the ranking nothing stands before something pushed to later, nor before
      something pushed to at the same time that has more stars. */
  lemma RankedByPush(repos: seq<Repo>, i: nat, j: nat)
    requires i < j < |RankRepos(repos)|
    ensures var above, below := RankRepos(repos)[i], RankRepos(repos)[j];
            && (forall k :: !DiffersAt(Pushed(above), Pushed(below), k))
            && (Pushed(above) == Pushed(below) ==> Stars(above) >= Stars(below))
  {
    RankingIsStable(repos);
    hide RankRepos;
    var above, below := RankRepos(repos)[i], RankRepos(repos)[j];
    StringLessMeans(Pushed(above), Pushed(below));
    assert !Less(SortKey(above), SortKey(below));
    hide DiffersAt;
    NothingIsLessThanEmpty(Pushed(above));
  }

  lemma NothingIsLessThanEmpty(a: string)
    ensures !StringLess(a, "")
  {
  }

  // --------------------------------------------------------------- bindings

  datatype Binding = Binding(repo: string, defaultBranch: string, aliases: seq<string>, channels: seq<string>)

  predicate Named(repo: Repo) {
    repo.fullName.Some? && repo.fullName.value != ""
  }

  function BindingOf(repo: Repo): Binding
    requires Named(repo)
  {
    var branch := if repo.defaultBranch.Some? then repo.defaultBranch.value else "";
    Binding(repo.fullName.value, if branch != "" then branch else "main", [], [])
  }

  /** The bindings of the named repositories, in their order. */
  function Bound(repos: seq<Repo>): seq<Binding> {
    if repos == [] then []
    else
      var n := |repos| - 1;
      Bound(repos[..n]) + if Named(repos[n]) then [BindingOf(repos[n])] else []
  }

  /** A repository's binding: its name, its default branch or `main` when GitHub has
      none, and nothing else. */
  predicate Binds(b: Binding, repo: Repo) {
    && repo.fullName == Some(b.repo) && b.repo != ""
    && b.defaultBranch == (if repo.defaultBranch in {None, Some("")} then "main" else repo.defaultBranch.value)
    && b.aliases == [] && b.channels == []
  }

  /** The named repositories are bound one by one, in their order. */
  lemma {:induction false} BoundInOrder(repos: seq<Repo>, i: nat)
    requires i < |repos| && Named(repos[i])
    ensures var at := |Bound(repos[..i])|;
            at < |Bound(repos)| && Binds(Bound(repos)[at], repos[i])
  {
    var n := |repos| - 1;
    if i < n {
      BoundInOrder(repos[..n], i);
      assert repos[..n][..i] == repos[..i];
    }
  }

  /** ... and nothing else is. */
  lemma {:induction false} BoundCount(repos: seq<Repo>)
    ensures |Bound(repos)| <= |repos|
    ensures forall b | b in Bound(repos) :: exists i :: 0 <= i < |repos| && Named(repos[i]) && Binds(b, repos[i])
  {
    if repos != [] {
      var n := |repos| - 1;
      BoundCount(repos[..n]);
      forall b | b in Bound(repos) ensures exists i :: 0 <= i < |repos| && Named(repos[i]) && Binds(b, repos[i]) {
        if b in Bound(repos[..n]) {
          var i :| 0 <= i < n && Named(repos[..n][i]) && Binds(b, repos[..n][i]);
          assert Binds(b, repos[i]);
        } else {
          assert Binds(b, repos[n]);
        }
      }
    }
  }

  method ReposToBindings(ranked: seq<Repo>, limit: nat) returns (bindings: seq<Binding>)
    ensures bindings == Bound(FirstOf(ranked, limit))
  {
    var top := FirstOf(ranked, limit);
    bindings := [];
    for i := 0 to |top|
      invariant bindings == Bound(top[..i])
    {
      assert top[..i + 1][..i] == top[..i];
      if !Named(top[i]) {
        continue;
      }
      var branch := if top[i].defaultBranch.Some? && top[i].defaultBranch.value != "" then top[i].defaultBranch.value else "main";
      bindings := bindings + [Binding(top[i].fullName.value, branch, [], [])];
    }
    assert top[..|top|] == top;
  }

  /** `i` is the first named repository. */
  predicate FirstNamed(repos: seq<Repo>, i: nat) {
    i < |repos| && Named(repos[i]) && forall j | 0 <= j < i :: !Named(repos[j])
  }

  lemma {:induction false} BoundStartsWithFirstNamed(repos: seq<Repo>)
    ensures Bound(repos) == [] ==> forall i | 0 <= i < |repos| :: !Named(repos[i])
    ensures Bound(repos) != [] ==> exists i: nat :: FirstNamed(repos, i) && Bound(repos)[0] == BindingOf(repos[i])
  {
    hide BindingOf;
    if repos != [] {
      var n := |repos| - 1;
      BoundStartsWithFirstNamed(repos[..n]);
      if Bound(repos[..n]) != [] {
        var i: nat :| FirstNamed(repos[..n], i) && Bound(repos[..n])[0] == BindingOf(repos[..n][i]);
        assert FirstNamed(repos, i);
      } else if Named(repos[n]) {
        forall j | 0 <= j < n ensures !Named(repos[j]) {
          assert repos[j] == repos[..n][j];
        }
        assert FirstNamed(repos, n);
      } else {
        forall j | 0 <= j < |repos| ensures !Named(repos[j]) {
          assert j < n ==> repos[j] == repos[..n][j];
        }
      }
    }
  }

  /** The five best. */
  function Top(repos: seq<Repo>): seq<Repo> {
    FirstOf(RankRepos(repos), MAX_BINDINGS)
  }

  /** In the ranking of all repositories the one at `i` is the first with a name, and
      it is among the five best: whatever is ranked above it, by key or by its place
      among equals, has no name. */
  ghost predicate BestNamed(repos: seq<Repo>, i: nat, name: string) {
    i < MAX_BINDINGS && FirstNamed(RankRepos(repos), i) && RankRepos(repos)[i].fullName.value == name
  }

  lemma TopIsFive(repos: seq<Repo>)
    ensures Top(repos) == if |RankRepos(repos)| <= 5 then RankRepos(repos) else RankRepos(repos)[..5]
  {
    hide RankRepos;
  }

  /** What the warm start writes for an installation's repositories. */
  method ChooseRepos(repos: seq<Repo>) returns (defaultRepo: Option<string>, bindings: seq<Binding>)
    ensures bindings == Bound(Top(repos))
    ensures defaultRepo == None <==> forall r | r in Top(repos) :: !Named(r)
    ensures defaultRepo == if bindings == [] then None else Some(bindings[0].repo)
    ensures defaultRepo.Some? ==> exists i :: BestNamed(repos, i, defaultRepo.value)
  {
    var ranked := RankRepos(repos);
    bindings := ReposToBindings(ranked, MAX_BINDINGS);
    defaultRepo := if bindings != [] then Some(bindings[0].repo) else None;
    hide RankRepos, BestNamed;
    assert bindings == Bound(Top(repos));
    DefaultIsBest(repos);
    hide *;
  }

  lemma DefaultIsBest(repos: seq<Repo>)
    ensures var bindings := Bound(Top(repos));
            && (bindings == [] <==> forall r | r in Top(repos) :: !Named(r))
            && (bindings != [] ==> exists i :: BestNamed(repos, i, bindings[0].repo))
  {
    var top := Top(repos);
    hide Named, RankRepos;
    BoundStartsWithFirstNamed(top);
    if Bound(top) != [] {
      var i: nat :| FirstNamed(top, i) && Bound(top)[0] == BindingOf(top[i]);
      hide Bound;
      forall j | 0 <= j < i ensures !Named(RankRepos(repos)[j]) {
        assert top[j] == RankRepos(repos)[j];
      }
      assert BestNamed(repos, i, Bound(top)[0].repo);
    }
  }
}
