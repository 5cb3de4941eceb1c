/**
 * The `/sweep` command: fetch the server's whole membership, then strip every
 * role from each member that lacks the primary role.
 *
 * The platform is replaced by values: the member count, the result of the single
 * unpaged fetch, the full membership that paged fetches read from, the fetch at
 * which paging fails (if any), and the outcome of each removal request.
 */
module Sweep {
  import opened Ids
  import Data

  /** The largest page the platform returns. */
  const BatchSize: nat := 1000

  datatype Member = Member(userId: UserId, roles: seq<RoleId>, isBot: bool)

  /** One "remove these roles" request sent to the platform. */
  datatype Removal = Removal(userId: UserId, roles: seq<RoleId>)

  datatype Classification = Compliant | ExemptBot | NoRolesHeld | MustRevokeAll

  /** The sweep's per-member checks, in the order they are made. */
  function Classify(m: Member, primary: RoleId): Classification {
    if primary in m.roles then Compliant
    else if m.isBot then ExemptBot
    else if m.roles == [] then NoRolesHeld
    else MustRevokeAll
  }

  /** The removal requests a sweep issues, in member order. */
  function Revocations(ms: seq<Member>, primary: RoleId): seq<Removal> {
    if ms == [] then []
    else
      var last := ms[|ms| - 1];
      Revocations(ms[..|ms| - 1], primary)
      + (if Classify(last, primary) == MustRevokeAll then [Removal(last.userId, last.roles)] else [])
  }

  /** How many of the first `n` removal requests succeed, `ok(k)` being the outcome of request `k`. */
  function CountSuccesses(ok: nat -> bool, n: nat): nat {
    if n == 0 then 0 else CountSuccesses(ok, n - 1) + (if ok(n - 1) then 1 else 0)
  }

  /** The role sets sent for user `u`, in order. */
  function RequestsFor(rs: seq<Removal>, u: UserId): seq<seq<RoleId>> {
    if rs == [] then []
    else RequestsFor(rs[..|rs| - 1], u) + (if rs[|rs| - 1].userId == u then [rs[|rs| - 1].roles] else [])
  }

  predicate UniqueIds(ms: seq<Member>) {
    forall i, j :: 0 <= i < j < |ms| ==> ms[i].userId != ms[j].userId
  }

  /** The direct message sent to the invoking user when the sweep completes. */
  function SummaryText(total: nat, removed: nat): string {
    "Completed sweeping through " + Decimal(total) + " members, removed roles from "
    + Decimal(removed) + " members"
  }

  /**
   * Walks the members: holders of the primary role, bots and members with no
   * roles are skipped; every other member gets one request for its full role
   * set, and only a successful request is counted. A failure does not stop the walk.
   */
  method SweepMembers(members: seq<Member>, primary: RoleId, removeOk: nat -> bool)
    returns (removedRoles: nat, requests: seq<Removal>, report: string)
    ensures requests == Revocations(members, primary)
    ensures removedRoles == CountSuccesses(removeOk, |requests|)
    ensures removedRoles <= |requests| <= |members|
    ensures report == SummaryText(|members|, removedRoles)
  {
    var memberCount := |members|;
    removedRoles := 0;
    requests := [];
    for i := 0 to |members|
      invariant requests == Revocations(members[..i], primary)
      invariant removedRoles == CountSuccesses(removeOk, |requests|)
    {
      assert members[..i + 1][..i] == members[..i];
      var member := members[i];
      if primary in member.roles {
        continue;
      }
      if member.isBot {
        continue;
      }
      if |member.roles| == 0 {
        continue;
      }
      var ok := removeOk(|requests|);
      requests := requests + [Removal(member.userId, member.roles)];
      if ok {
        removedRoles := removedRoles + 1;
      }
    }
    assert members[..|members|] == members;
    RevocationsBounded(members, primary);
    SuccessesBounded(removeOk, |requests|);
    report := SummaryText(memberCount, removedRoles);
  }

  lemma {:induction false} RevocationsBounded(ms: seq<Member>, primary: RoleId)
    ensures |Revocations(ms, primary)| <= |ms|
  {
    if ms != [] {
      RevocationsBounded(ms[..|ms| - 1], primary);
    }
  }

  /** At most every request succeeds; when all succeed, each is counted. */
  lemma {:induction false} SuccessesBounded(ok: nat -> bool, n: nat)
    ensures CountSuccesses(ok, n) <= n
    ensures (forall k :: 0 <= k < n ==> ok(k)) ==> CountSuccesses(ok, n) == n
  {
    if n > 0 {
      SuccessesBounded(ok, n - 1);
    }
  }

  /**
   * Every request is for a member that must lose its roles, carries that member's
   * full role set, and so never names the primary role and is never empty.
   */
  lemma {:induction false} RevocationsSound(ms: seq<Member>, primary: RoleId, k: nat)
    requires k < |Revocations(ms, primary)|
    ensures exists i :: 0 <= i < |ms| && Classify(ms[i], primary) == MustRevokeAll
                        && Revocations(ms, primary)[k] == Removal(ms[i].userId, ms[i].roles)
    ensures primary !in Revocations(ms, primary)[k].roles && Revocations(ms, primary)[k].roles != []
  {
    var init := ms[..|ms| - 1];
    var last := |ms| - 1;
    if k < |Revocations(init, primary)| {
      RevocationsSound(init, primary, k);
      var i :| 0 <= i < |init| && Classify(init[i], primary) == MustRevokeAll
               && Revocations(init, primary)[k] == Removal(init[i].userId, init[i].roles);
      assert ms[i] == init[i];
    } else {
      assert Classify(ms[last], primary) == MustRevokeAll;
      assert Revocations(ms, primary)[k] == Removal(ms[last].userId, ms[last].roles);
    }
  }

  lemma {:induction false} RequestsForAppend(a: seq<Removal>, b: seq<Removal>, u: UserId)
    ensures RequestsFor(a + b, u) == RequestsFor(a, u) + RequestsFor(b, u)
  {
    if b != [] {
      assert (a + b)[..|a + b| - 1] == a + b[..|b| - 1];
      RequestsForAppend(a, b[..|b| - 1], u);
    } else {
      assert a + b == a;
    }
  }

  /** A user that is not among the members gets no request. */
  lemma {:induction false} NoRequestsForStranger(ms: seq<Member>, primary: RoleId, u: UserId)
    requires forall i :: 0 <= i < |ms| ==> ms[i].userId != u
    ensures RequestsFor(Revocations(ms, primary), u) == []
  {
    if ms != [] {
      var init := ms[..|ms| - 1];
      var last := ms[|ms| - 1];
      var tail := if Classify(last, primary) == MustRevokeAll then [Removal(last.userId, last.roles)] else [];
      NoRequestsForStranger(init, primary, u);
      RequestsForAppend(Revocations(init, primary), tail, u);
      assert tail != [] ==> tail[..0] == [];
    }
  }

  /**
   * With distinct user ids, each member that must lose its roles gets exactly one
   * request, for its full role set, and every other member gets none.
   */
  lemma {:induction false} ExactlyOneRequest(ms: seq<Member>, primary: RoleId, i: nat)
    requires UniqueIds(ms) && i < |ms|
    ensures RequestsFor(Revocations(ms, primary), ms[i].userId)
            == if Classify(ms[i], primary) == MustRevokeAll then [ms[i].roles] else []
  {
    var init := ms[..|ms| - 1];
    var last := ms[|ms| - 1];
    var u := ms[i].userId;
    var tail := if Classify(last, primary) == MustRevokeAll then [Removal(last.userId, last.roles)] else [];
    RequestsForAppend(Revocations(init, primary), tail, u);
    assert tail != [] ==> tail[..0] == [];
    if i == |ms| - 1 {
      NoRequestsForStranger(init, primary, u);
    } else {
      ExactlyOneRequest(init, primary, i);
      assert init[i] == ms[i];
    }
  }

  /** The sweep's classification exempts exactly holders of the primary role, bots and role-less members. */
  lemma ClassifyOrder(m: Member, primary: RoleId)
    ensures primary in m.roles ==> Classify(m, primary) == Compliant
    ensures Classify(m, primary) == MustRevokeAll <==> primary !in m.roles && !m.isBot && m.roles != []
  {
  }

  // Pagination.

  /** True when `m` lies strictly after the cursor. */
  predicate Above(m: Member, cursor: Option<UserId>) {
    cursor.None? || m.userId > cursor.value
  }

  /** The members, in order, that lie after the cursor. */
  function After(ms: seq<Member>, cursor: Option<UserId>): seq<Member> {
    if ms == [] then []
    else (if Above(ms[0], cursor) then [ms[0]] else []) + After(ms[1..], cursor)
  }

  /** One page of a paged fetch: the first `BatchSize` members after the cursor. */
  function Page(ms: seq<Member>, cursor: Option<UserId>): seq<Member> {
    var rest := After(ms, cursor);
    if |rest| <= BatchSize then rest else rest[..BatchSize]
  }

  /** The platform lists members by strictly ascending user id. */
  predicate Ascending(ms: seq<Member>) {
    forall i, j :: 0 <= i < j < |ms| ==> ms[i].userId < ms[j].userId
  }

  lemma AscendingIsUnique(ms: seq<Member>)
    requires Ascending(ms)
    ensures UniqueIds(ms)
  {
  }

  /** How many members paging collects when fetch number `failAt` (counting from 0) fails. */
  function PagedLength(n: nat, failAt: Option<nat>): nat {
    match failAt
    case None => n
    case Some(k) => if BatchSize * k < n then BatchSize * k else n
  }

  /** How many fetches paging makes: the last one is empty, short or failed. */
  function PagedFetches(n: nat, failAt: Option<nat>): nat {
    match failAt
    case None => n / BatchSize + 1
    case Some(k) => (if k < n / BatchSize then k else n / BatchSize) + 1
  }

  lemma {:induction false} AfterElements(ms: seq<Member>, cursor: Option<UserId>, k: nat)
    requires k < |After(ms, cursor)|
    ensures Above(After(ms, cursor)[k], cursor)
    ensures exists i :: 0 <= i < |ms| && ms[i] == After(ms, cursor)[k]
  {
    var head := if Above(ms[0], cursor) then [ms[0]] else [];
    if k < |head| {
      assert After(ms, cursor)[k] == ms[0];
    } else {
      assert After(ms, cursor)[k] == After(ms[1..], cursor)[k - |head|];
      AfterElements(ms[1..], cursor, k - |head|);
      var i :| 0 <= i < |ms[1..]| && ms[1..][i] == After(ms[1..], cursor)[k - |head|];
      assert ms[i + 1] == ms[1..][i];
    }
  }

  /** Moving the cursor forward to an id after the old cursor never adds members. */
  lemma {:induction false} AfterMonotone(ms: seq<Member>, cursor: Option<UserId>, x: UserId)
    requires cursor.None? || x > cursor.value
    ensures |After(ms, Some(x))| <= |After(ms, cursor)|
  {
    if ms != [] {
      AfterMonotone(ms[1..], cursor, x);
    }
  }

  /** Moving the cursor to the id of a member after it strictly shrinks what lies after. */
  lemma {:induction false} AfterShrinks(ms: seq<Member>, cursor: Option<UserId>, i: nat)
    requires i < |ms| && Above(ms[i], cursor)
    ensures |After(ms, Some(ms[i].userId))| < |After(ms, cursor)|
  {
    var x := ms[i].userId;
    if i == 0 {
      AfterMonotone(ms[1..], cursor, x);
    } else {
      assert ms[1..][i - 1] == ms[i];
      AfterShrinks(ms[1..], cursor, i - 1);
    }
  }

  /** Continuing after the last member of a non-empty page leaves strictly fewer members to fetch. */
  lemma PageProgress(ms: seq<Member>, cursor: Option<UserId>, page: seq<Member>)
    requires page == Page(ms, cursor) && page != []
    ensures |After(ms, Some(page[|page| - 1].userId))| < |After(ms, cursor)|
  {
    var k := |page| - 1;
    assert page[k] == After(ms, cursor)[k];
    AfterElements(ms, cursor, k);
    var i :| 0 <= i < |ms| && ms[i] == After(ms, cursor)[k];
    AfterShrinks(ms, cursor, i);
  }

  lemma {:induction false} AfterAllAbove(ms: seq<Member>, cursor: Option<UserId>)
    requires forall i :: 0 <= i < |ms| ==> Above(ms[i], cursor)
    ensures After(ms, cursor) == ms
  {
    if ms != [] {
      AfterAllAbove(ms[1..], cursor);
    }
  }

  /** Over an ascending list, the members after the id of member `n - 1` are exactly those from `n` on. */
  lemma {:induction false} AfterCursor(ms: seq<Member>, n: nat)
    requires Ascending(ms) && 0 < n <= |ms|
    ensures After(ms, Some(ms[n - 1].userId)) == ms[n..]
  {
    var c := Some(ms[n - 1].userId);
    if n == 1 {
      AfterAllAbove(ms[1..], c);
    } else {
      assert ms[1..][n - 2] == ms[n - 1];
      AfterCursor(ms[1..], n - 1);
      assert ms[1..][n - 1..] == ms[n..];
    }
  }

  lemma AfterStart(ms: seq<Member>)
    ensures After(ms, None) == ms
  {
    AfterAllAbove(ms, None);
  }

  /** What paging yields: the members collected and the number of fetches made. */
  datatype Paging = Paging(members: seq<Member>, fetches: nat)

  /** The page fetch number `f` returns: empty when it fails, otherwise the page after the cursor. */
  function NextBatch(all: seq<Member>, cursor: Option<UserId>, f: nat, failAt: Option<nat>): seq<Member> {
    if failAt == Some(f) then [] else Page(all, cursor)
  }

  /**
   * Paging from fetch number `f` with the given cursor, after collecting `acc`:
   * an empty batch ends it, a short batch is appended as the last one, and a
   * full batch is appended and moves the cursor to its last member. It ends for
   * any membership, since each full batch strictly shrinks what lies after the
   * cursor.
   */
  function PagesFrom(all: seq<Member>, cursor: Option<UserId>, f: nat, failAt: Option<nat>,
                     acc: seq<Member>): Paging
    decreases |After(all, cursor)|
  {
    var batch := NextBatch(all, cursor, f, failAt);
    if |batch| == 0 then Paging(acc, f + 1)
    else if |batch| < BatchSize then Paging(acc + batch, f + 1)
    else
      PageProgress(all, cursor, batch);
      PagesFrom(all, Some(batch[|batch| - 1].userId), f + 1, failAt, acc + batch)
  }

  /** Paging from the start. */
  function Paged(all: seq<Member>, failAt: Option<nat>): Paging {
    PagesFrom(all, None, 0, failAt, [])
  }

  /**
   * The paging loop: fetch pages after the last id seen, appending each, and
   * stop on an empty page or a short one. A failed fetch reads as an empty page.
   */
  method Paginate(all: seq<Member>, failAt: Option<nat>) returns (members: seq<Member>, fetches: nat)
    ensures Paging(members, fetches) == Paged(all, failAt)
  {
    members := [];
    var lastId: Option<UserId> := None;
    fetches := 0;
    while true
      invariant PagesFrom(all, lastId, fetches, failAt, members) == Paged(all, failAt)
      decreases |After(all, lastId)|
    {
      ghost var cursor, f, collected := lastId, fetches, members;
      var batch := FetchPage(all, lastId, fetches, failAt);
      fetches := fetches + 1;
      if |batch| == 0 {
        assert Paging(members, fetches) == Paged(all, failAt) by {
          PagingStep(all, cursor, f, failAt, collected);
        }
        break;
      }
      lastId := Some(batch[|batch| - 1].userId);
      members := members + batch;
      if |batch| < BatchSize {
        assert Paging(members, fetches) == Paged(all, failAt) by {
          PagingStep(all, cursor, f, failAt, collected);
        }
        break;
      }
      assert |After(all, lastId)| < |After(all, cursor)|
             && PagesFrom(all, lastId, fetches, failAt, members) == Paged(all, failAt) by {
        PagingStep(all, cursor, f, failAt, collected);
      }
    }
  }

  lemma AppendAssociates(a: seq<Member>, b: seq<Member>, c: seq<Member>)
    ensures (a + b) + c == a + (b + c)
  {
  }

  /** Every member of `batch` is a member of `all` lying after the cursor. */
  predicate AllAfter(batch: seq<Member>, all: seq<Member>, cursor: Option<UserId>) {
    forall k :: 0 <= k < |batch| ==> batch[k] in all && Above(batch[k], cursor)
  }

  /** One paged member fetch: the page after the cursor, or nothing when fetch number `f` fails. */
  method FetchPage(all: seq<Member>, cursor: Option<UserId>, f: nat, failAt: Option<nat>) returns (batch: seq<Member>)
    ensures batch == NextBatch(all, cursor, f, failAt)
    ensures |batch| <= BatchSize
  {
    if failAt == Some(f) {
      batch := [];
    } else {
      batch := Page(all, cursor);
    }
  }

  /** Every member a fetch returns is a member of the guild lying after the cursor. */
  lemma FetchedFromGuild(all: seq<Member>, cursor: Option<UserId>, f: nat, failAt: Option<nat>)
    ensures AllAfter(NextBatch(all, cursor, f, failAt), all, cursor)
  {
    var batch := NextBatch(all, cursor, f, failAt);
    forall k | 0 <= k < |batch|
      ensures batch[k] in all && Above(batch[k], cursor)
    {
      assert batch[k] == After(all, cursor)[k];
      AfterElements(all, cursor, k);
    }
  }

  /**
   * Where one fetch leaves paging: an empty batch ends it with what was
   * collected, a short batch is appended as the last one, and a full batch is
   * appended and followed by paging after its last member, with strictly fewer
   * members left after the new cursor.
   */
  lemma PagingStep(all: seq<Member>, cursor: Option<UserId>, f: nat, failAt: Option<nat>, acc: seq<Member>)
    ensures var batch := NextBatch(all, cursor, f, failAt);
            |batch| == 0 ==> PagesFrom(all, cursor, f, failAt, acc) == Paging(acc, f + 1)
    ensures var batch := NextBatch(all, cursor, f, failAt);
            0 < |batch| < BatchSize ==> PagesFrom(all, cursor, f, failAt, acc) == Paging(acc + batch, f + 1)
    ensures var batch := NextBatch(all, cursor, f, failAt);
            |batch| >= BatchSize ==>
              var next := Some(batch[|batch| - 1].userId);
              |After(all, next)| < |After(all, cursor)|
              && PagesFrom(all, cursor, f, failAt, acc) == PagesFrom(all, next, f + 1, failAt, acc + batch)
  {
    var batch := NextBatch(all, cursor, f, failAt);
    if |batch| >= BatchSize {
      PageProgress(all, cursor, batch);
    }
  }

  /** The cursor after the first `done` members of the list. */
  function CursorAt(all: seq<Member>, done: nat): Option<UserId>
    requires done <= |all|
  {
    if done == 0 then None else Some(all[done - 1].userId)
  }

  /**
   * Paging over an ascending list, by position: from fetch number `f`, after the
   * first `done` members, a failed fetch ends it, a rest shorter than a page is
   * the last page, and otherwise the next `BatchSize` members form a full page.
   */
  function Collected(all: seq<Member>, done: nat, f: nat, failAt: Option<nat>): Paging
    requires done <= |all|
    decreases |all| - done
  {
    if failAt == Some(f) then Paging([], f + 1)
    else if |all| < done + BatchSize then Paging(all[done..], f + 1)
    else
      var rest := Collected(all, done + BatchSize, f + 1, failAt);
      Paging(all[done..done + BatchSize] + rest.members, rest.fetches)
  }

  /** Over a list whose cursors mark its suffixes, cursor paging is paging by position. */
  lemma {:induction false} PagesFromPositions(all: seq<Member>, done: nat, f: nat, failAt: Option<nat>,
                                             acc: seq<Member>)
    requires SuffixCursors(all) && done <= |all|
    ensures var c := Collected(all, done, f, failAt);
            PagesFrom(all, CursorAt(all, done), f, failAt, acc) == Paging(acc + c.members, c.fetches)
    decreases |all| - done
  {
    if failAt != Some(f) && done + BatchSize <= |all| {
      var page := all[done..done + BatchSize];
      PagesFromPositions(all, done + BatchSize, f + 1, failAt, acc + page);
      FullPageAt(all, done, f, failAt, acc);
    } else {
      LastPageAt(all, done, f, failAt, acc);
    }
  }

  /** The fetch that fails or finds less than a full page left is the last. */
  lemma LastPageAt(all: seq<Member>, done: nat, f: nat, failAt: Option<nat>, acc: seq<Member>)
    requires SuffixCursors(all) && done <= |all|
    requires failAt == Some(f) || |all| < done + BatchSize
    ensures var c := Collected(all, done, f, failAt);
            PagesFrom(all, CursorAt(all, done), f, failAt, acc) == Paging(acc + c.members, c.fetches)
  {
    BatchAt(all, done, f, failAt);
    PagingStep(all, CursorAt(all, done), f, failAt, acc);
    if failAt == Some(f) {
      assert acc + [] == acc;
    } else if done == |all| {
      assert acc + all[done..] == acc;
    }
  }

  /** A full page is appended and paging goes on from the next position. */
  lemma FullPageAt(all: seq<Member>, done: nat, f: nat, failAt: Option<nat>, acc: seq<Member>)
    requires SuffixCursors(all) && done + BatchSize <= |all| && failAt != Some(f)
    requires var page := all[done..done + BatchSize];
             var c := Collected(all, done + BatchSize, f + 1, failAt);
             PagesFrom(all, CursorAt(all, done + BatchSize), f + 1, failAt, acc + page)
             == Paging(acc + page + c.members, c.fetches)
    ensures var c := Collected(all, done, f, failAt);
            PagesFrom(all, CursorAt(all, done), f, failAt, acc) == Paging(acc + c.members, c.fetches)
  {
    var page := all[done..done + BatchSize];
    BatchAt(all, done, f, failAt);
    PagingStep(all, CursorAt(all, done), f, failAt, acc);
    assert CursorAt(all, done + BatchSize) == Some(page[BatchSize - 1].userId);
    AppendAssociates(acc, page, Collected(all, done + BatchSize, f + 1, failAt).members);
  }

  /** Over such a list, fetch number `f` after `done` members returns the next slice, or nothing if it fails. */
  lemma BatchAt(all: seq<Member>, done: nat, f: nat, failAt: Option<nat>)
    requires SuffixCursors(all) && done <= |all|
    ensures failAt == Some(f) ==> NextBatch(all, CursorAt(all, done), f, failAt) == []
    ensures failAt != Some(f) && |all| < done + BatchSize ==> NextBatch(all, CursorAt(all, done), f, failAt) == all[done..]
    ensures failAt != Some(f) && done + BatchSize <= |all| ==>
              NextBatch(all, CursorAt(all, done), f, failAt) == all[done..done + BatchSize]
  {
    assert After(all, CursorAt(all, done)) == all[done..];
  }

  /**
   * Paging by position from `f` full pages on collects the rest of the list up
   * to the failing fetch, and makes as many fetches as the closed forms say.
   */
  lemma {:induction false} CollectedCounts(all: seq<Member>, done: nat, f: nat, failAt: Option<nat>)
    requires done == BatchSize * f <= |all|
    requires failAt.Some? ==> f <= failAt.value
    requires PagedLength(|all|, failAt) >= done
    ensures Collected(all, done, f, failAt)
            == Paging(all[done..PagedLength(|all|, failAt)], PagedFetches(|all|, failAt))
    decreases |all| - done
  {
    if failAt == Some(f) {
      StopCounts(|all|, f, failAt, done);
    } else if |all| < done + BatchSize {
      StopCounts(|all|, f, failAt, |all|);
      assert all[done..] == all[done..|all|];
    } else {
      NextPageCounts(|all|, done, f, failAt);
      CollectedCounts(all, done + BatchSize, f + 1, failAt);
      var next, stop := done + BatchSize, PagedLength(|all|, failAt);
      assert all[done..stop] == all[done..next] + all[next..stop];
    }
  }

  /** After a full page that did not fail, `f + 1` full pages are collected and paging collects at least that many. */
  lemma NextPageCounts(n: nat, done: nat, f: nat, failAt: Option<nat>)
    requires done == BatchSize * f && done + BatchSize <= n
    requires failAt.Some? ==> f <= failAt.value
    requires failAt != Some(f)
    ensures done + BatchSize == BatchSize * (f + 1)
    ensures failAt.Some? ==> f + 1 <= failAt.value
    ensures PagedLength(n, failAt) >= done + BatchSize
  {
  }

  /**
   * Over an ascending membership, paging collects the list's prefix up to the
   * failing fetch (all of it when no fetch fails), and makes `n / 1000 + 1`
   * fetches, or one more than the failing fetch's number, whichever is fewer.
   */
  lemma PagedAscending(all: seq<Member>, failAt: Option<nat>)
    requires Ascending(all)
    ensures Paged(all, failAt) == Paging(all[..PagedLength(|all|, failAt)], PagedFetches(|all|, failAt))
  {
    AscendingSuffixes(all);
    PagesFromPositions(all, 0, 0, failAt, []);
    CollectedCounts(all, 0, 0, failAt);
  }

  /** The members after the cursor of each collected prefix are the rest of the list. */
  predicate SuffixCursors(all: seq<Member>) {
    forall d {:trigger CursorAt(all, d)} :: 0 <= d <= |all| ==> After(all, CursorAt(all, d)) == all[d..]
  }

  lemma AscendingSuffixes(all: seq<Member>)
    requires Ascending(all)
    ensures SuffixCursors(all)
  {
    forall d | 0 <= d <= |all|
      ensures After(all, CursorAt(all, d)) == all[d..]
    {
      RestIsSuffix(all, d, CursorAt(all, d));
    }
  }

  /** Over an ascending list, what lies after the cursor of the first `done` members is the rest of the list. */
  lemma RestIsSuffix(all: seq<Member>, done: nat, cursor: Option<UserId>)
    requires Ascending(all) && done <= |all|
    requires cursor == if done == 0 then None else Some(all[done - 1].userId)
    ensures After(all, cursor) == all[done..]
    ensures Page(all, cursor) == all[done..if done + BatchSize <= |all| then done + BatchSize else |all|]
  {
    if done == 0 {
      AfterStart(all);
    } else {
      AfterCursor(all, done);
    }
  }

  /**
   * The counts at the fetch that ends paging (fetch number `f`, after `f` full
   * pages): either it failed, or it found the rest of the list shorter than a page.
   */
  lemma StopCounts(n: nat, f: nat, failAt: Option<nat>, collected: nat)
    requires BatchSize * f <= n
    requires failAt.Some? ==> f <= failAt.value
    requires (failAt == Some(f) && collected == BatchSize * f)
             || (failAt != Some(f) && collected == n && n < BatchSize * f + BatchSize)
    ensures PagedLength(n, failAt) == collected
    ensures PagedFetches(n, failAt) == f + 1
  {
    assert n / BatchSize >= f;
    if failAt != Some(f) {
      assert n / BatchSize == f;
    }
  }

  /** The work `run` hands to the background sweep: the fetched members and the primary role. */
  datatype SweepJob = SweepJob(members: seq<Member>, primaryRole: RoleId)

  const NoGuildMessage := "No server ID was given"
  const NoCountMessage := "Failed to get the member count for this server"
  const NoPrimaryMessage := "Failed to determine the primary role for this server"
  const NoMembersMessage := "No members found in this server"
  const FetchFailedMessage := "Failed to retrieve the list of members from the server"

  function StartedMessage(n: nat): string {
    "Sweeping through " + Decimal(n) + " members"
  }

  /** What `run` gives back: the reply, and the sweep it starts, if any. */
  datatype Launch = Launch(reply: string, job: Option<SweepJob>)

  /** A sweep over `members` with the given primary role, announced with the number of members. */
  function Started(members: seq<Member>, primary: RoleId): Launch {
    Launch(StartedMessage(|members|), Some(SweepJob(members, primary)))
  }

  /**
   * The command as a value: the guild, the member count, the primary role (a
   * failed read counts as none) and a count of zero are checked in that order;
   * below `BatchSize` the unpaged fetch is swept, which has its own reply when it
   * fails; from `BatchSize` on, what paging collects is swept.
   */
  function RunOutcome(t: Data.Table, guild: Option<GuildId>, memberCount: Option<nat>, readFails: bool,
                      unpaged: Option<seq<Member>>, all: seq<Member>, failAt: Option<nat>): Launch
  {
    if guild.None? then Launch(NoGuildMessage, None)
    else if memberCount.None? then Launch(NoCountMessage, None)
    else
      var role := if readFails then None else Data.PrimaryRole(t, guild.value);
      if role.None? then Launch(NoPrimaryMessage, None)
      else if memberCount.value == 0 then Launch(NoMembersMessage, None)
      else if memberCount.value < BatchSize then
        if unpaged.None? then Launch(FetchFailedMessage, None) else Started(unpaged.value, role.value)
      else Started(Paged(all, failAt).members, role.value)
  }

  /**
   * The command: checks, in order, the guild, the member count, the primary role
   * and a count of zero, each with its own reply and no sweep; then fetches the
   * members (one unpaged fetch below `BatchSize`, paging from `BatchSize` on) and
   * starts the sweep over what was fetched. The store is only read.
   */
  method Run(data: Data.AppData, guild: Option<GuildId>, memberCount: Option<nat>, readFails: bool,
             unpaged: Option<seq<Member>>, all: seq<Member>, failAt: Option<nat>)
    returns (reply: string, job: Option<SweepJob>)
    ensures Launch(reply, job) == RunOutcome(data.rows, guild, memberCount, readFails, unpaged, all, failAt)
    ensures guild.None? ==> reply == NoGuildMessage && job.None?
    ensures guild.Some? && memberCount.None? ==> reply == NoCountMessage && job.None?
    ensures guild.Some? && memberCount.Some? && (readFails || Data.PrimaryRole(data.rows, guild.value).None?)
            ==> reply == NoPrimaryMessage && job.None?
    ensures guild.Some? && memberCount == Some(0) && !readFails && Data.PrimaryRole(data.rows, guild.value).Some?
            ==> reply == NoMembersMessage && job.None?
    ensures guild.Some? && memberCount.Some? && 0 < memberCount.value < BatchSize && !readFails
            && Data.PrimaryRole(data.rows, guild.value).Some? && unpaged.None?
            ==> reply == FetchFailedMessage && job.None?
    ensures job.Some? ==> guild.Some? && !readFails && memberCount.Some? && memberCount.value > 0
                          && Data.PrimaryRole(data.rows, guild.value) == Some(job.value.primaryRole)
                          && reply == StartedMessage(|job.value.members|)
    ensures job.Some? && memberCount.value < BatchSize ==> unpaged == Some(job.value.members)
    ensures guild.Some? && memberCount.Some? && 0 < memberCount.value < BatchSize && !readFails
            && Data.PrimaryRole(data.rows, guild.value).Some? && unpaged.Some?
            ==> job == Some(SweepJob(unpaged.value, Data.PrimaryRole(data.rows, guild.value).value))
                && reply == StartedMessage(|unpaged.value|)
    ensures (guild.Some? && memberCount.Some? && memberCount.value >= BatchSize && !readFails
             && Data.PrimaryRole(data.rows, guild.value).Some?) ==> job.Some?
    ensures job.Some? && memberCount.value >= BatchSize ==> job.value.members == Paged(all, failAt).members
    ensures job.Some? && memberCount.value >= BatchSize && Ascending(all)
            ==> job.value.members == all[..PagedLength(|all|, failAt)]
  {
    if guild.None? {
      return NoGuildMessage, None;
    }
    var guildId := guild.value;
    if memberCount.None? {
      return NoCountMessage, None;
    }
    var count := memberCount.value;
    var primaryRole := data.GetPrimaryRole(guildId, readFails);
    if primaryRole.None? {
      return NoPrimaryMessage, None;
    }
    var memberList: seq<Member>;
    if count == 0 {
      return NoMembersMessage, None;
    } else if count < BatchSize {
      if unpaged.None? {
        return FetchFailedMessage, None;
      }
      memberList := unpaged.value;
    } else {
      var fetches;
      memberList, fetches := Paginate(all, failAt);
      if Ascending(all) {
        PagedAscending(all, failAt);
      }
    }
    reply := StartedMessage(|memberList|);
    job := Some(SweepJob(memberList, primaryRole.value));
  }

  /**
   * Conservation: over an ascending membership where no fetch fails, paging
   * collects every member once, so the sweep scans all of them: each member that
   * must lose its roles gets exactly one request, for its whole role list, and
   * every other member none. Its count is the number of successful requests;
   * when every request succeeds, that is all of them.
   */
  lemma SweepConservation(all: seq<Member>, primary: RoleId, removeOk: nat -> bool)
    requires Ascending(all)
    ensures Paged(all, None) == Paging(all, |all| / BatchSize + 1)
    ensures CountSuccesses(removeOk, |Revocations(all, primary)|) <= |Revocations(all, primary)| <= |all|
    ensures (forall k :: 0 <= k < |Revocations(all, primary)| ==> removeOk(k))
            ==> CountSuccesses(removeOk, |Revocations(all, primary)|) == |Revocations(all, primary)|
    ensures forall i :: 0 <= i < |all| ==>
              RequestsFor(Revocations(all, primary), all[i].userId)
              == if Classify(all[i], primary) == MustRevokeAll then [all[i].roles] else []
  {
    PagedAscending(all, None);
    assert all[..|all|] == all;
    AscendingIsUnique(all);
    forall i | 0 <= i < |all|
      ensures RequestsFor(Revocations(all, primary), all[i].userId)
              == if Classify(all[i], primary) == MustRevokeAll then [all[i].roles] else []
    {
      ExactlyOneRequest(all, primary, i);
    }
    RevocationsBounded(all, primary);
    SuccessesBounded(removeOk, |Revocations(all, primary)|);
  }

  /** 2500 members in pages of 1000 take three fetches (1000, 1000, 500); an exact multiple ends on an empty fetch. */
  lemma PagingBoundaries()
    ensures PagedFetches(2500, None) == 3 && PagedLength(2500, None) == 2500
    ensures PagedFetches(2000, None) == 3
    ensures forall k: nat :: PagedFetches(BatchSize * k, None) == k + 1
  {
  }
}
