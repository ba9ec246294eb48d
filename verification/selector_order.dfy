/** When exactly the selector's decision depends on the order of the sections. Attaching looks, page
    after page, at the first section in the given order that starts on the next page; ties between
    sections on one page are all that order can decide. */
module SelectorOrder {
  import opened Selector

  /** The first block in the list that starts on page `p`. */
  function FirstAt(b: seq<Block>, p: nat): (x: Option<Block>)
    requires Paged(b)
    ensures x.Some? ==> x.value in b && x.value.pages != [] && x.value.pages[0] == p
    ensures x.None? ==> forall y :: y in b ==> y.pages[0] != p
  {
    if b == [] then None
    else
      assert b[0] in b && forall y :: y in b ==> y == b[0] || y in b[1..];
      if b[0].pages[0] == p then Some(b[0]) else FirstAt(b[1..], p)
  }

  /** How many blocks start on page `p` or later. */
  function Later(b: seq<Block>, p: nat): nat
    requires Paged(b)
  {
    if b == [] then 0
    else
      assert b[0] in b;
      Later(b[1..], p) + (if b[0].pages[0] >= p then 1 else 0)
  }

  lemma {:induction false} LaterLess(b: seq<Block>, p: nat, q: nat, x: Block)
    requires Paged(b) && p <= q
    ensures Later(b, q) <= Later(b, p)
    ensures x in b && x.pages[0] == p < q ==> Later(b, q) < Later(b, p)
  {
    if b != [] {
      assert b[0] in b;
      LaterLess(b[1..], p, q, x);
    }
  }

  /** Attaching, told by the given order instead of the sorted one. */
  function Follow(b: seq<Block>, pages: seq<nat>): (r: seq<nat>)
    requires Paged(b) && pages != []
    ensures pages <= r
    decreases Later(b, pages[|pages| - 1] + 1)
  {
    var next := pages[|pages| - 1] + 1;
    match FirstAt(b, next)
    case None => pages
    case Some(x) =>
      if Attachable(x, next) then
        LastPage(x.pages);
        LaterLess(b, next, x.pages[|x.pages| - 1] + 1, x);
        Follow(b, pages + x.pages)
      else pages
  }

  /** Only the first blocks on later pages matter. */
  lemma {:induction false} FollowSame(b: seq<Block>, c: seq<Block>, pages: seq<nat>)
    requires Paged(b) && Paged(c) && pages != []
    requires forall q :: q > pages[|pages| - 1] ==> FirstAt(b, q) == FirstAt(c, q)
    ensures Follow(b, pages) == Follow(c, pages)
    decreases Later(b, pages[|pages| - 1] + 1)
  {
    var next := pages[|pages| - 1] + 1;
    assert FirstAt(b, next) == FirstAt(c, next);
    var x := FirstAt(b, next);
    if x.Some? && Attachable(x.value, next) {
      LastPage(x.value.pages);
      LaterLess(b, next, x.value.pages[|x.value.pages| - 1] + 1, x.value);
      FollowSame(b, c, pages + x.value.pages);
    }
  }

  // --------------------------------------------------------- the sort is stable

  lemma {:induction false} InsertFirst(x: Block, b: seq<Block>, p: nat)
    requires x.pages != [] && Paged(b)
    ensures FirstAt(Insert(x, b), p) == if x.pages[0] == p then Some(x) else FirstAt(b, p)
  {
    if b != [] {
      assert b[0] in b;
      if x.pages[0] <= b[0].pages[0] {
        assert ([x] + b)[1..] == b;
      } else {
        InsertFirst(x, b[1..], p);
        assert ([b[0]] + Insert(x, b[1..]))[1..] == Insert(x, b[1..]);
      }
    }
  }

  lemma {:induction false} SortedFirst(b: seq<Block>, p: nat)
    requires Paged(b)
    ensures FirstAt(Sorted(b), p) == FirstAt(b, p)
  {
    if b != [] {
      assert b[0] in b;
      SortedFirst(b[1..], p);
      InsertFirst(b[0], Sorted(b[1..]), p);
    }
  }

  lemma TailFirst(b: seq<Block>, q: nat)
    requires Paged(b) && b != []
    ensures b[0] in b && (b[0].pages[0] != q ==> FirstAt(b, q) == FirstAt(b[1..], q))
  {
  }

  /** Sorting first changes nothing. */
  lemma {:induction false} AttachFollows(b: seq<Block>, pages: seq<nat>)
    requires Paged(b) && Ascends(b) && pages != []
    ensures Attach(b, pages) == Follow(b, pages)
  {
    if b != [] {
      var x, next := b[0], pages[|pages| - 1] + 1;
      assert x in b;
      if x.pages[0] < next {
        AttachFollows(b[1..], pages);
        forall q | q > pages[|pages| - 1] ensures FirstAt(b, q) == FirstAt(b[1..], q) { TailFirst(b, q); }
        FollowSame(b, b[1..], pages);
      } else if Attachable(x, next) {
        LastPage(x.pages);
        AttachFollows(b[1..], pages + x.pages);
        forall q | q > (pages + x.pages)[|pages + x.pages| - 1] ensures FirstAt(b, q) == FirstAt(b[1..], q) {
          TailFirst(b, q);
        }
        FollowSame(b, b[1..], pages + x.pages);
      }
    }
  }

  lemma AddendaFollow(sections: seq<Section>, selected: seq<nat>)
    requires selected != []
    ensures WithAddenda(sections, selected) == Follow(PagedBlocks(sections), selected)
  {
    var b := PagedBlocks(sections);
    SortedAscends(b);
    AttachFollows(Sorted(b), selected);
    forall q ensures FirstAt(Sorted(b), q) == FirstAt(b, q) { SortedFirst(b, q); }
    FollowSame(Sorted(b), b, selected);
  }

  // ------------------------------------------------------------------------ stops

  /** Some order stops here: nothing starts on page `p`, or something does that cannot be attached. */
  predicate StopsAt(b: seq<Block>, p: nat)
    requires Paged(b)
  {
    (forall x :: x in b ==> x.pages[0] != p) || exists x :: x in b && x.pages[0] == p && !Attachable(x, p)
  }

  /** Attaching that has come to page `p` can stop on page `e` after at most `n` more blocks. It only looks
      at which blocks there are, not at their order. */
  ghost predicate CanStopIn(b: seq<Block>, p: nat, e: nat, n: nat)
    requires Paged(b)
    decreases n
  {
    || (p == e && StopsAt(b, p))
    || (n > 0 && exists x :: x in b && Attachable(x, p) && CanStopIn(b, p + |x.pages|, e, n - 1))
  }

  ghost predicate CanStop(b: seq<Block>, p: nat, e: nat)
    requires Paged(b)
  {
    exists n :: CanStopIn(b, p, e, n)
  }

  /** The page after the last one. */
  function Next(pages: seq<nat>): nat
    requires pages != []
  {
    pages[|pages| - 1] + 1
  }

  lemma AttachableLength(x: Block, p: nat)
    requires Attachable(x, p)
    ensures x.pages[|x.pages| - 1] + 1 == p + |x.pages|
  {
  }

  /** One more block attached. */
  lemma FollowOn(b: seq<Block>, pages: seq<nat>, x: Block)
    requires Paged(b) && pages != [] && FirstAt(b, Next(pages)) == Some(x) && Attachable(x, Next(pages))
    ensures x in b && x.pages != [] && Next(pages + x.pages) == Next(pages) + |x.pages|
    ensures Later(b, Next(pages) + |x.pages|) < Later(b, Next(pages))
    ensures Follow(b, pages) == Follow(b, pages + x.pages)
  {
    AttachableLength(x, Next(pages));
    LaterLess(b, Next(pages), Next(pages) + |x.pages|, x);
    hide Later, Consecutive, FirstAt, Paged;
  }

  lemma FollowEnd(b: seq<Block>, pages: seq<nat>)
    requires Paged(b) && pages != []
    requires var x := FirstAt(b, Next(pages)); x.None? || !Attachable(x.value, Next(pages))
    ensures Follow(b, pages) == pages && StopsAt(b, Next(pages))
  {
  }

  lemma StopStep(b: seq<Block>, p: nat, e: nat, n: nat, x: Block)
    requires Paged(b) && x in b && Attachable(x, p) && CanStopIn(b, p + |x.pages|, e, n)
    ensures CanStopIn(b, p, e, n + 1)
  {
  }

  lemma StopNow(b: seq<Block>, p: nat)
    requires Paged(b) && StopsAt(b, p)
    ensures CanStopIn(b, p, p, 0)
  {
  }

  /** Every order stops where some order can stop. */
  lemma {:induction false} FollowStops(b: seq<Block>, pages: seq<nat>) returns (n: nat)
    requires Paged(b) && pages != []
    ensures Follow(b, pages) != [] && CanStopIn(b, Next(pages), Next(Follow(b, pages)), n)
    decreases Later(b, Next(pages))
  {
    hide *;
    var next := Next(pages);
    var x := FirstAt(b, next);
    if x.Some? && Attachable(x.value, next) {
      FollowOn(b, pages, x.value);
      var k := FollowStops(b, pages + x.value.pages);
      n := k + 1;
      StopStep(b, next, Next(Follow(b, pages)), k, x.value);
    } else {
      FollowEnd(b, pages);
      n := 0;
      StopNow(b, next);
    }
  }

  lemma {:induction false} FollowRuns(b: seq<Block>, pages: seq<nat>)
    requires Paged(b) && pages != []
    ensures Consecutive(Follow(b, pages)[|pages| - 1..])
    decreases Later(b, Next(pages))
  {
    var next := Next(pages);
    var x := FirstAt(b, next);
    if x.Some? && Attachable(x.value, next) {
      AttachableLength(x.value, next);
      LaterLess(b, next, next + |x.value.pages|, x.value);
      FollowRuns(b, pages + x.value.pages);
      RunsJoin(Follow(b, pages), pages, x.value.pages);
    }
  }

  /** What is attached is told by where it stops. */
  lemma StopTells(pages: seq<nat>, r: seq<nat>, r': seq<nat>)
    requires pages != [] && pages <= r && pages <= r'
    requires Consecutive(r[|pages| - 1..]) && Consecutive(r'[|pages| - 1..])
    ensures |r| == |pages| + (Next(r) - Next(pages)) && Next(r) >= Next(pages)
    ensures Next(r) == Next(r') ==> r == r'
  {
    LastInRun(pages, r);
    LastInRun(pages, r');
    if Next(r) == Next(r') {
      forall i | |pages| <= i < |r| ensures r[i] == r'[i] { InRun(pages, r, i); InRun(pages, r', i); }
    }
  }

  lemma InRun(pages: seq<nat>, r: seq<nat>, i: nat)
    requires pages != [] && pages <= r && Consecutive(r[|pages| - 1..]) && |pages| <= i < |r|
    ensures r[i] == pages[|pages| - 1] + (i - (|pages| - 1))
  {
    var k := |pages| - 1;
    assert r[k..][0] == pages[k] && r[k..][i - k] == r[i];
  }

  lemma LastInRun(pages: seq<nat>, r: seq<nat>)
    requires pages != [] && pages <= r && Consecutive(r[|pages| - 1..])
    ensures |r| == |pages| + (Next(r) - Next(pages)) && Next(r) >= Next(pages)
  {
    if |r| > |pages| { InRun(pages, r, |r| - 1); }
  }

  // ------------------------------------------------------------------ promotions

  /** The same blocks with one of them moved to the front. */
  function Promote(b: seq<Block>, i: nat): seq<Block>
    requires i < |b|
  {
    [b[i]] + b[..i] + b[i + 1..]
  }

  lemma PromoteSame(b: seq<Block>, i: nat)
    requires Paged(b) && i < |b|
    ensures Paged(Promote(b, i)) && multiset(Promote(b, i)) == multiset(b)
  {
    assert b == b[..i] + [b[i]] + b[i + 1..];
    assert multiset(Promote(b, i)) == multiset(b);
    forall x | x in Promote(b, i) ensures x.pages != [] { assert x in multiset(Promote(b, i)); }
  }

  lemma {:induction false} WithoutFirst(b: seq<Block>, i: nat, q: nat)
    requires Paged(b) && i < |b| && b[i] in b && b[i].pages[0] != q
    ensures Paged(b[..i] + b[i + 1..]) && FirstAt(b[..i] + b[i + 1..], q) == FirstAt(b, q)
  {
    var c := b[..i] + b[i + 1..];
    assert forall x :: x in c ==> x in b;
    if i == 0 {
      assert c == b[1..];
    } else {
      assert c[0] == b[0] && c[1..] == b[1..][..i - 1] + b[1..][i..];
      WithoutFirst(b[1..], i - 1, q);
    }
  }

  /** A promotion decides its own page and no other. */
  lemma PromoteFirst(b: seq<Block>, i: nat, q: nat)
    requires Paged(b) && i < |b| && Paged(Promote(b, i)) && b[i] in b
    ensures FirstAt(Promote(b, i), q) == if b[i].pages[0] == q then Some(b[i]) else FirstAt(b, q)
  {
    assert Promote(b, i)[1..] == b[..i] + b[i + 1..];
    if b[i].pages[0] != q { WithoutFirst(b, i, q); }
  }

  lemma Promoted(b: seq<Block>, x: Block) returns (c: seq<Block>)
    requires Paged(b) && x in b
    ensures Paged(c) && multiset(c) == multiset(b)
    ensures forall q :: FirstAt(c, q) == if x.pages[0] == q then Some(x) else FirstAt(b, q)
  {
    var i :| 0 <= i < |b| && b[i] == x;
    PromoteSame(b, i);
    c := Promote(b, i);
    forall q ensures FirstAt(c, q) == if x.pages[0] == q then Some(x) else FirstAt(b, q) { PromoteFirst(b, i, q); }
  }

  lemma SamePaged(b: seq<Block>, c: seq<Block>)
    requires Paged(b) && multiset(b) == multiset(c)
    ensures Paged(c) && forall x :: x in b <==> x in c
  {
    forall x ensures x in b <==> x in c { assert x in multiset(b) <==> x in multiset(c); }
  }

  /** Every possible stop is reached by some order, which need not disturb earlier pages. */
  lemma {:induction false} StopReached(b: seq<Block>, c: seq<Block>, pages: seq<nat>, e: nat, n: nat)
    returns (r: seq<Block>)
    requires Paged(b) && Paged(c) && multiset(c) == multiset(b) && pages != [] && CanStopIn(b, Next(pages), e, n)
    ensures Paged(r) && multiset(r) == multiset(b) && Follow(r, pages) != [] && Next(Follow(r, pages)) == e
    ensures forall q: nat :: q < Next(pages) ==> FirstAt(r, q) == FirstAt(c, q)
    decreases n
  {
    var p := Next(pages);
    SamePaged(b, c);
    if p == e && StopsAt(b, p) {
      if z :| z in b && z.pages[0] == p && !Attachable(z, p) {
        r := Promoted(c, z);
      } else {
        r := c;
      }
    } else {
      var x :| x in b && Attachable(x, p) && CanStopIn(b, p + |x.pages|, e, n - 1);
      AttachableLength(x, p);
      var r' := StopReached(b, c, pages + x.pages, e, n - 1);
      SamePaged(b, r');
      r := Promoted(r', x);
      FollowSame(r, r', pages + x.pages);
    }
  }

  // -------------------------------------------------------------------- sections

  lemma PlaceOf(s: seq<Section>, b: seq<Block>) returns (k: nat)
    requires b != [] && multiset(Blocks(s)) == multiset(b)
    ensures k < |s| && Blocks(s)[k] == b[0]
  {
    assert b[0] in multiset(Blocks(s));
    k :| 0 <= k < |s| && Blocks(s)[k] == b[0];
  }

  lemma InFront(s: seq<Section>, k: nat, rest: seq<Section>, b: seq<Block>)
    requires k < |s| && b != [] && Blocks(s)[k] == b[0]
    requires multiset(rest) == multiset(s[..k] + s[k + 1..]) && Blocks(rest) == b[1..]
    ensures multiset([s[k]] + rest) == multiset(s) && Blocks([s[k]] + rest) == b
  {
    ToFront(s, k);
    BlocksFirst([s[k]] + rest);
    FirstBlock(s, k);
    hide Blocks, BlockOf;
    assert ([s[k]] + rest)[1..] == rest;
    assert multiset([s[k]] + rest) == multiset{s[k]} + multiset(rest);
    assert multiset([s[k]] + (s[..k] + s[k + 1..])) == multiset{s[k]} + multiset(s[..k] + s[k + 1..]);
  }

  /** Sections arranged to show the blocks in a given order. */
  lemma {:induction false} Arranged(s: seq<Section>, b: seq<Block>) returns (t: seq<Section>)
    requires multiset(Blocks(s)) == multiset(b)
    ensures multiset(t) == multiset(s) && Blocks(t) == b
    decreases |b|
  {
    assert |Blocks(s)| == |multiset(Blocks(s))| && |b| == |multiset(b)|;
    if b == [] {
      t := [];
    } else {
      hide *;
      var k := PlaceOf(s, b);
      Removed(s, b, k);
      var rest := Arranged(s[..k] + s[k + 1..], b[1..]);
      InFront(s, k, rest, b);
      t := [s[k]] + rest;
    }
  }

  lemma Removed(s: seq<Section>, b: seq<Block>, k: nat)
    requires k < |s| && b != [] && Blocks(s)[k] == b[0] && multiset(Blocks(s)) == multiset(b)
    ensures multiset(Blocks(s[..k] + s[k + 1..])) == multiset(b[1..])
  {
    var rest := s[..k] + s[k + 1..];
    hide BlockOf, Blocks;
    ToFront(s, k);
    BlocksPermute(s, [s[k]] + rest);
    BlocksFirst([s[k]] + rest);
    FirstBlock(s, k);
    assert ([s[k]] + rest)[1..] == rest;
    Dropped(b, Blocks(rest));
  }

  lemma ToFront(s: seq<Section>, k: nat)
    requires k < |s|
    ensures multiset([s[k]] + (s[..k] + s[k + 1..])) == multiset(s)
  {
    assert s == s[..k] + [s[k]] + s[k + 1..];
  }

  lemma Dropped(b: seq<Block>, c: seq<Block>)
    requires b != [] && multiset([b[0]] + c) == multiset(b)
    ensures multiset(c) == multiset(b[1..])
  {
    assert b == [b[0]] + b[1..];
    assert multiset(c) == multiset([b[0]] + c) - multiset{b[0]};
    assert multiset(b[1..]) == multiset([b[0]] + b[1..]) - multiset{b[0]};
  }

  lemma FirstBlock(s: seq<Section>, k: nat)
    requires k < |s|
    ensures Blocks(s)[k] == BlockOf(s[k])
  {
  }

  predicate NoPages(s: Section) { !HasPages(s) }

  lemma {:induction false} FilterAll(p: Section -> bool, s: seq<Section>, t: seq<Section>)
    requires (forall x :: x in s ==> p(x)) && (forall x :: x in t ==> !p(x))
    ensures Filter(p, s + t) == s
  {
    if s != [] {
      assert (s + t)[1..] == s[1..] + t && s[0] in s;
      FilterAll(p, s[1..], t);
    } else {
      assert s + t == t;
      FilterNone(p, t);
    }
  }

  /** Any order of the blocks is the order of some permutation of the sections. */
  lemma Permuted(s: seq<Section>, b: seq<Block>) returns (t: seq<Section>)
    requires multiset(b) == multiset(PagedBlocks(s))
    ensures multiset(t) == multiset(s) && PagedBlocks(t) == b
  {
    var paged, others := Filter(HasPages, s), Filter(NoPages, s);
    var front := Arranged(paged, b);
    t := front + others;
    AllPaged(s, front);
    Parted(s, front);
    FilterAll(HasPages, front, others);
  }

  lemma AllPaged(s: seq<Section>, front: seq<Section>)
    requires multiset(front) == multiset(Filter(HasPages, s))
    ensures forall x :: x in front ==> HasPages(x)
    ensures forall x :: x in Filter(NoPages, s) ==> !HasPages(x)
  {
    forall x | x in front ensures HasPages(x) { assert x in multiset(front); }
  }

  lemma Parted(s: seq<Section>, front: seq<Section>)
    requires multiset(front) == multiset(Filter(HasPages, s))
    ensures multiset(front + Filter(NoPages, s)) == multiset(s)
  {
    var t := front + Filter(NoPages, s);
    forall x ensures multiset(t)[x] == multiset(s)[x] {
      FilterCount(HasPages, s, x);
      FilterCount(NoPages, s, x);
      hide Filter, Pages;
    }
  }

  // -------------------------------------------------------------- the exact condition

  /** The decision comes down to attaching addenda to a winner. */
  predicate Attaching(s: seq<Section>, loan: string, limit: nat) {
    && Winner(s, loan, limit).Some?
    && (Filter(Matching(limit, loan), s) != [] || Filter(Naming(limit), s) == [])
  }

  function Own(s: seq<Section>, loan: string, limit: nat): (pages: seq<nat>)
    requires Winner(s, loan, limit).Some?
    ensures pages != []
  {
    Pages(Winner(s, loan, limit).value.pageIds)
  }

  /** How many pages are selected when attaching stops on page `e`. */
  function Size(own: seq<nat>, e: nat): int
    requires own != []
  {
    |own| + (e - Next(own))
  }

  /** All possible stops give one decision: they are the same, or both exceed the page limit. */
  ghost predicate OneStop(s: seq<Section>, own: seq<nat>, limit: nat)
    requires own != []
  {
    forall e, e' :: CanStop(PagedBlocks(s), Next(own), e) && CanStop(PagedBlocks(s), Next(own), e') ==>
      e == e' || (Size(own, e) > limit && Size(own, e') > limit)
  }

  ghost predicate OrderIndependent(s: seq<Section>, loan: string, limit: nat) {
    forall t :: multiset(t) == multiset(s) ==> Select(t, loan, limit) == Select(s, loan, limit)
  }

  /** The decision when a winner attaches. */
  function Attached(winner: Section, limit: nat, pages: seq<nat>): Decision {
    if |pages| > limit then Held(PageLimitExceeded) else Selected(winner, pages)
  }

  lemma WinnerCandidates(s: seq<Section>, loan: string, limit: nat)
    requires Winner(s, loan, limit).Some?
    ensures Filter(IsDisclosure, s) != [] && Filter(Within(limit), s) != []
  {
    var eligible := Eligible(s, loan, limit);
    var pool := Filter(eligible, s);
    var x := pool[0];
    assert x in pool && x in Filter(Within(limit), s) && x in Filter(IsDisclosure, s);
  }

  lemma SelectAttaches(s: seq<Section>, loan: string, limit: nat)
    requires Attaching(s, loan, limit)
    ensures Select(s, loan, limit) ==
      Attached(Winner(s, loan, limit).value, limit, Follow(PagedBlocks(s), Own(s, loan, limit)))
  {
    WinnerCandidates(s, loan, limit);
    AddendaFollow(s, Own(s, loan, limit));
    hide Filter, Winner, WithAddenda, Follow, PagedBlocks;
  }

  lemma AttachingPermutes(s: seq<Section>, t: seq<Section>, loan: string, limit: nat)
    requires multiset(s) == multiset(t)
    ensures Winner(t, loan, limit) == Winner(s, loan, limit)
    ensures Attaching(t, loan, limit) <==> Attaching(s, loan, limit)
  {
    WinnerPermutes(s, t, loan, limit);
    FilterEmpty(Matching(limit, loan), s, t);
    FilterEmpty(Naming(limit), s, t);
    hide Filter, Winner;
  }

  /** Nothing to attach: order never matters. */
  lemma HeldPermutes(s: seq<Section>, t: seq<Section>, loan: string, limit: nat)
    requires multiset(s) == multiset(t) && !Attaching(s, loan, limit)
    ensures Select(t, loan, limit) == Select(s, loan, limit)
  {
    hide Filter, Winner, WithAddenda;
    FilterEmpty(IsDisclosure, s, t);
    FilterEmpty(IsCandidate, s, t);
    FilterEmpty(Within(limit), s, t);
    FilterEmpty(Naming(limit), s, t);
    FilterEmpty(Matching(limit, loan), s, t);
    WinnerPermutes(s, t, loan, limit);
  }

  lemma {:induction false} StopsPermute(b: seq<Block>, c: seq<Block>, p: nat, e: nat, n: nat)
    requires Paged(b) && multiset(b) == multiset(c) && Paged(c) && CanStopIn(b, p, e, n)
    ensures CanStopIn(c, p, e, n)
    decreases n
  {
    SamePaged(b, c);
    if !(p == e && StopsAt(b, p)) {
      var x :| x in b && Attachable(x, p) && CanStopIn(b, p + |x.pages|, e, n - 1);
      StopsPermute(b, c, p + |x.pages|, e, n - 1);
    }
  }

  lemma PagedPermutes(s: seq<Section>, t: seq<Section>)
    requires multiset(s) == multiset(t)
    ensures multiset(PagedBlocks(s)) == multiset(PagedBlocks(t))
  {
    FilterPermutes(HasPages, s, t);
    BlocksPermute(Filter(HasPages, s), Filter(HasPages, t));
  }

  /** Where attaching stops for one permutation. */
  lemma StopOf(s: seq<Section>, t: seq<Section>, own: seq<nat>) returns (e: nat)
    requires multiset(s) == multiset(t) && own != []
    ensures var r := Follow(PagedBlocks(t), own);
      r != [] && e == Next(r) && |r| == Size(own, e) && own <= r && Consecutive(r[|own| - 1..])
    ensures CanStop(PagedBlocks(s), Next(own), e)
  {
    var b := PagedBlocks(t);
    var n := FollowStops(b, own);
    FollowRuns(b, own);
    e := Next(Follow(b, own));
    StopTells(own, Follow(b, own), Follow(b, own));
    PagedPermutes(s, t);
    StopsPermute(b, PagedBlocks(s), Next(own), e, n);
  }

  lemma OneStopSuffices(s: seq<Section>, t: seq<Section>, loan: string, limit: nat)
    requires multiset(t) == multiset(s) && Attaching(s, loan, limit) && OneStop(s, Own(s, loan, limit), limit)
    ensures Select(t, loan, limit) == Select(s, loan, limit)
  {
    hide Select, Winner, Filter, Follow, PagedBlocks, CanStop, Pages;
    var own := Own(s, loan, limit);
    AttachingPermutes(s, t, loan, limit);
    SelectAttaches(s, loan, limit);
    SelectAttaches(t, loan, limit);
    var e := StopOf(s, s, own);
    var e' := StopOf(s, t, own);
    StopTells(own, Follow(PagedBlocks(s), own), Follow(PagedBlocks(t), own));
  }

  /** A permutation whose attaching stops on a possible stop. */
  lemma Realized(s: seq<Section>, own: seq<nat>, e: nat) returns (t: seq<Section>)
    requires own != [] && CanStop(PagedBlocks(s), Next(own), e)
    ensures multiset(t) == multiset(s)
    ensures Follow(PagedBlocks(t), own) != [] && Next(Follow(PagedBlocks(t), own)) == e
  {
    var b := PagedBlocks(s);
    var n :| CanStopIn(b, Next(own), e, n);
    var r := StopReached(b, b, own, e, n);
    t := Permuted(s, r);
  }

  lemma OneStopNeeded(s: seq<Section>, loan: string, limit: nat, e: nat, e': nat)
    requires Attaching(s, loan, limit)
    requires var own := Own(s, loan, limit);
      && CanStop(PagedBlocks(s), Next(own), e) && CanStop(PagedBlocks(s), Next(own), e') && e != e'
      && (Size(own, e) <= limit || Size(own, e') <= limit)
    ensures exists t, t' :: multiset(t) == multiset(s) && multiset(t') == multiset(s)
                            && Select(t, loan, limit) != Select(t', loan, limit)
  {
    hide Select, Winner, Filter, Follow, PagedBlocks, CanStop, Pages;
    var own := Own(s, loan, limit);
    var t := Realized(s, own, e);
    var t' := Realized(s, own, e');
    AttachingPermutes(s, t, loan, limit);
    AttachingPermutes(s, t', loan, limit);
    SelectAttaches(t, loan, limit);
    SelectAttaches(t', loan, limit);
    var x := StopOf(s, t, own);
    var x' := StopOf(s, t', own);
    assert Select(t, loan, limit) != Select(t', loan, limit);
  }

  /** Order independence, exactly: the decision is the same for every permutation of the sections if and
      only if there is nothing to attach to, or attaching, whichever block it takes on each page where
      several start, can only stop in one place, or only beyond the page limit. */
  lemma IndependentExactly(s: seq<Section>, loan: string, limit: nat)
    ensures OrderIndependent(s, loan, limit) <==>
      (Attaching(s, loan, limit) ==> OneStop(s, Own(s, loan, limit), limit))
  {
    hide Select, Winner, Filter, Follow, PagedBlocks, CanStop, Pages;
    if !Attaching(s, loan, limit) {
      forall t | multiset(t) == multiset(s) ensures Select(t, loan, limit) == Select(s, loan, limit) {
        HeldPermutes(s, t, loan, limit);
      }
    } else if OneStop(s, Own(s, loan, limit), limit) {
      forall t | multiset(t) == multiset(s) ensures Select(t, loan, limit) == Select(s, loan, limit) {
        OneStopSuffices(s, t, loan, limit);
      }
    } else {
      var own := Own(s, loan, limit);
      var e, e' :| CanStop(PagedBlocks(s), Next(own), e) && CanStop(PagedBlocks(s), Next(own), e')
                   && !(e == e' || (Size(own, e) > limit && Size(own, e') > limit));
      OneStopNeeded(s, loan, limit, e, e');
    }
  }

  // ------------------------------------------------------------------------- ties

  /** Attaching can come to page `q`. */
  ghost predicate Reaches(b: seq<Block>, p: nat, q: nat, n: nat)
    requires Paged(b)
    decreases n
  {
    p == q || (n > 0 && exists x :: x in b && Attachable(x, p) && Reaches(b, p + |x.pages|, q, n - 1))
  }

  lemma {:induction false} ReachesStop(b: seq<Block>, p: nat, q: nat, n: nat, e: nat, m: nat)
    requires Paged(b) && Reaches(b, p, q, n) && CanStopIn(b, q, e, m)
    ensures CanStop(b, p, e) && e >= q
    decreases n
  {
    StopLater(b, q, e, m);
    if p != q {
      var x :| x in b && Attachable(x, p) && Reaches(b, p + |x.pages|, q, n - 1);
      ReachesStop(b, p + |x.pages|, q, n - 1, e, m);
      var k: nat :| CanStopIn(b, p + |x.pages|, e, k);
      assert CanStopIn(b, p, e, k + 1);
    } else {
      assert CanStopIn(b, p, e, m);
    }
  }

  lemma {:induction false} StopLater(b: seq<Block>, p: nat, e: nat, n: nat)
    requires Paged(b) && CanStopIn(b, p, e, n)
    ensures e >= p
    decreases n
  {
    if !(p == e && StopsAt(b, p)) {
      var x :| x in b && Attachable(x, p) && CanStopIn(b, p + |x.pages|, e, n - 1);
      StopLater(b, p + |x.pages|, e, n - 1);
    }
  }

  /** Whenever attaching can come, within the page limit, to a page on which both an addendum that fits and
      a section that cannot be attached start, some two orders of the sections give different decisions. */
  lemma MixedTieDecides(s: seq<Section>, loan: string, limit: nat, q: nat, n: nat, x: Block, z: Block)
    requires Attaching(s, loan, limit) && Reaches(PagedBlocks(s), Next(Own(s, loan, limit)), q, n)
    requires x in PagedBlocks(s) && Attachable(x, q)
    requires z in PagedBlocks(s) && z.pages[0] == q && !Attachable(z, q)
    requires Size(Own(s, loan, limit), q) <= limit
    ensures exists t, t' :: multiset(t) == multiset(s) && multiset(t') == multiset(s)
                            && Select(t, loan, limit) != Select(t', loan, limit)
  {
    var b, own := PagedBlocks(s), Own(s, loan, limit);
    hide Select, Winner, Filter, PagedBlocks, Pages;
    StopHere(b, q, z);
    var e, m := StopBeyond(b, q, x);
    hide CanStopIn, Reaches, CanStop, OneStop, Attachable;
    ReachesStop(b, Next(own), q, n, q, 0);
    ReachesStop(b, Next(own), q, n, e, m);
    OneStopNeeded(s, loan, limit, q, e);
  }

  lemma StopHere(b: seq<Block>, q: nat, z: Block)
    requires Paged(b) && z in b && z.pages[0] == q && !Attachable(z, q)
    ensures CanStopIn(b, q, q, 0)
  {
  }

  lemma StopBeyond(b: seq<Block>, q: nat, x: Block) returns (e: nat, m: nat)
    requires Paged(b) && x in b && Attachable(x, q)
    ensures CanStopIn(b, q, e, m) && e > q
  {
    var after := [q + |x.pages| - 1];
    hide Follow, CanStopIn;
    var k := FollowStops(b, after);
    e, m := Next(Follow(b, after)), k + 1;
    StopLater(b, q + |x.pages|, e, k);
    StopStep(b, q, e, k, x);
  }
}
