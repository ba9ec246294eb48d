/** The Closing Disclosure selector: which section of a screened package goes on to full
    extraction, and which directly following addendum pages go with it. */
module Selector {

  datatype Class = ClosingDisclosure | Addendum | Other

  /** A page id is a positive decimal numeral or something that is not. */
  datatype PageId = Numeral(n: nat) | Malformed

  datatype Variant = Pccd | Corrected | Final | Unknown

  /** A classified section. Page ids are None if they are not a list; dates are ordinals, -1 if
      unreadable; an empty loan identifier means that the extractor found none. */
  datatype Section = Section(
    id: string, class_: Class, pageIds: seq<PageId>,
    variant: Variant, evidence: bool,
    borrowerSigned: bool, coBorrowerSigned: bool,
    issued: int, borrowerExecuted: int, coBorrowerExecuted: int,
    loanIdentifier: string)

  datatype Reason = NotFound | PageLimitExceeded | PageIdsInvalid | LoanIdMismatch | Ambiguous

  datatype Decision = Selected(winner: Section, pages: seq<nat>) | Held(reason: Reason)

  // --------------------------------------------------------------- page lists

  predicate Increasing(pages: seq<nat>) {
    forall i, j :: 0 <= i < j < |pages| ==> pages[i] < pages[j]
  }

  predicate AllNumerals(ids: seq<PageId>) {
    forall i :: 0 <= i < |ids| ==> ids[i].Numeral? && ids[i].n >= 1
  }

  function Values(ids: seq<PageId>): (pages: seq<nat>)
    requires AllNumerals(ids)
    ensures |pages| == |ids| && forall i :: 0 <= i < |ids| ==> pages[i] == ids[i].n
  {
    seq(|ids|, i requires 0 <= i < |ids| => ids[i].n)
  }

  /** The pages of a section: all its ids, if they are numerals in strictly increasing order. */
  function Pages(ids: seq<PageId>): (pages: seq<nat>)
    ensures Increasing(pages) && forall i :: 0 <= i < |pages| ==> pages[i] >= 1
  {
    if AllNumerals(ids) && Increasing(Values(ids)) then Values(ids) else []
  }

  predicate Ascending(pages: seq<nat>) {
    forall i :: 0 < i < |pages| ==> pages[i - 1] <= pages[i]
  }

  lemma {:induction false} AscendingDistinct(pages: seq<nat>)
    requires Ascending(pages) && forall i, j :: 0 <= i < j < |pages| ==> pages[i] != pages[j]
    ensures Increasing(pages)
  {
    if |pages| > 0 {
      var front := pages[..|pages| - 1];
      AscendingDistinct(front);
      forall i, j | 0 <= i < j < |pages| ensures pages[i] < pages[j] {
        if j == |pages| - 1 && i < j - 1 { assert front[i] < front[j - 1]; }
        if j < |pages| - 1 { assert front[i] < front[j]; }
      }
    }
  }

  /** `page_numbers`: refuse a malformed or repeated id as soon as it turns up, and an unsorted
      list at the end. */
  method PageNumbers(ids: seq<PageId>) returns (pages: seq<nat>)
    ensures pages == Pages(ids)
  {
    pages := [];
    for i := 0 to |ids|
      invariant AllNumerals(ids[..i]) && pages == Values(ids[..i])
      invariant forall j, k :: 0 <= j < k < |pages| ==> pages[j] != pages[k]
    {
      if ids[i].Malformed? || ids[i].n < 1 {
        assert !AllNumerals(ids);
        return [];
      }
      if ids[i].n in pages {
        var j :| 0 <= j < |pages| && pages[j] == ids[i].n;
        assert AllNumerals(ids) ==> Values(ids)[j] == Values(ids)[i];
        return [];
      }
      assert ids[..i + 1] == ids[..i] + [ids[i]];
      pages := pages + [ids[i].n];
    }
    assert ids[..|ids|] == ids;
    if !Ascending(pages) {
      return [];
    }
    AscendingDistinct(pages);
  }

  // --------------------------------------------------------------------- ranks

  /** Variant priority, issue date, signatures, latest execution date. */
  datatype Rank = Rank(priority: int, issued: int, signatures: int, executed: int)

  function Priority(v: Variant): int {
    match v
    case Pccd => 3
    case Corrected => 3
    case Final => 2
    case Unknown => 1
  }

  function Count(b: bool): int { if b then 1 else 0 }
  function Max(a: int, b: int): int { if a < b then b else a }

  /** A variant counts only with printed evidence. */
  function RankOf(s: Section): Rank {
    Rank(Priority(if s.evidence then s.variant else Unknown), s.issued,
         Count(s.borrowerSigned) + Count(s.coBorrowerSigned),
         Max(s.borrowerExecuted, s.coBorrowerExecuted))
  }

  /** Lexicographic order, most significant component first. */
  predicate Below(a: Rank, b: Rank) {
    || a.priority < b.priority
    || (a.priority == b.priority
        && (|| a.issued < b.issued
            || (a.issued == b.issued
                && (a.signatures < b.signatures || (a.signatures == b.signatures && a.executed < b.executed)))))
  }

  // --- the same order, on the sections' own fields

  /** A post-closing or corrected disclosure, by printed evidence. */
  predicate PostClosing(s: Section) { s.evidence && s.variant in {Pccd, Corrected} }

  predicate PrintedFinal(s: Section) { s.evidence && s.variant == Final }

  predicate SameClass(s: Section, t: Section) {
    (PostClosing(s) <==> PostClosing(t)) && (PrintedFinal(s) <==> PrintedFinal(t))
  }

  function Signatures(s: Section): nat {
    (if s.borrowerSigned then 1 else 0) + (if s.coBorrowerSigned then 1 else 0)
  }

  /** Some execution date of `t` is later than both of `s`. */
  predicate ExecutedEarlier(s: Section, t: Section) {
    || (s.borrowerExecuted < t.borrowerExecuted && s.coBorrowerExecuted < t.borrowerExecuted)
    || (s.borrowerExecuted < t.coBorrowerExecuted && s.coBorrowerExecuted < t.coBorrowerExecuted)
  }

  /** Class first, then the date of issue, then signatures, then the date of execution. */
  predicate Beaten(s: Section, w: Section) {
    || (PostClosing(w) && !PostClosing(s))
    || (PrintedFinal(w) && !PostClosing(s) && !PrintedFinal(s))
    || (SameClass(s, w)
        && (|| s.issued < w.issued
            || (s.issued == w.issued
                && (|| Signatures(s) < Signatures(w)
                    || (Signatures(s) == Signatures(w) && ExecutedEarlier(s, w))))))
  }

  lemma BelowExactly(s: Section, w: Section)
    ensures Below(RankOf(s), RankOf(w)) <==> Beaten(s, w)
  {
  }

  predicate NoBetter(s: Section, w: Section) {
    && (PostClosing(s) ==> PostClosing(w))
    && (PrintedFinal(s) ==> PostClosing(w) || PrintedFinal(w))
    && (SameClass(s, w) ==>
          && s.issued <= w.issued
          && (s.issued == w.issued ==>
                && Signatures(s) <= Signatures(w)
                && (Signatures(s) == Signatures(w) ==> ExecutedEarlier(s, w))))
  }

  lemma BeatenNoBetter(s: Section, w: Section)
    requires Beaten(s, w)
    ensures NoBetter(s, w)
  {
  }

  function TopRank(s: seq<Section>): Rank
    requires s != []
  {
    if |s| == 1 then RankOf(s[0])
    else
      var rest := TopRank(s[1..]);
      if Below(rest, RankOf(s[0])) then RankOf(s[0]) else rest
  }

  /** The top rank is somebody's, and nobody's is above it. */
  lemma {:induction false} TopRankIsTop(s: seq<Section>)
    requires s != []
    ensures exists x :: x in s && RankOf(x) == TopRank(s)
    ensures forall x :: x in s ==> !Below(TopRank(s), RankOf(x))
  {
    if |s| > 1 {
      TopRankIsTop(s[1..]);
      assert forall x :: x in s <==> x == s[0] || x in s[1..];
      var x :| x in s[1..] && RankOf(x) == TopRank(s[1..]);
      assert x in s;
    } else {
      assert s[0] in s;
    }
  }

  // ------------------------------------------------------------------- filters

  function Filter<T(!new)>(p: T -> bool, s: seq<T>): (r: seq<T>)
    ensures forall x :: x in r <==> x in s && p(x)
  {
    if s == [] then [] else if p(s[0]) then [s[0]] + Filter(p, s[1..]) else Filter(p, s[1..])
  }

  lemma {:induction false} FilterCount<T(!new)>(p: T -> bool, s: seq<T>, x: T)
    ensures multiset(Filter(p, s))[x] == if p(x) then multiset(s)[x] else 0
  {
    if s != [] {
      FilterCount(p, s[1..], x);
      assert s == [s[0]] + s[1..];
    }
  }

  lemma FilterPermutes<T(!new)>(p: T -> bool, s: seq<T>, t: seq<T>)
    requires multiset(s) == multiset(t)
    ensures multiset(Filter(p, s)) == multiset(Filter(p, t))
    ensures |Filter(p, s)| == |Filter(p, t)|
  {
    forall x ensures multiset(Filter(p, s))[x] == multiset(Filter(p, t))[x] {
      FilterCount(p, s, x);
      FilterCount(p, t, x);
    }
    assert multiset(Filter(p, s)) == multiset(Filter(p, t));
    assert |multiset(Filter(p, s))| == |Filter(p, s)|;
  }

  // ------------------------------------------------------------------- addenda

  /** All that attaching looks at in a section: its pages, and whether it is an addendum. */
  datatype Block = Block(pages: seq<nat>, addendum: bool)

  function BlockOf(s: Section): Block { Block(Pages(s.pageIds), s.class_.Addendum?) }

  predicate HasPages(s: Section) { Pages(s.pageIds) != [] }

  predicate Paged(b: seq<Block>) {
    forall x :: x in b ==> x.pages != []
  }

  function Blocks(s: seq<Section>): (b: seq<Block>)
    ensures |b| == |s| && forall i :: 0 <= i < |s| ==> b[i] == BlockOf(s[i])
  {
    seq(|s|, i requires 0 <= i < |s| => BlockOf(s[i]))
  }

  /** A stable sort by first page. */
  function Insert(x: Block, b: seq<Block>): (r: seq<Block>)
    requires x.pages != [] && Paged(b)
    ensures multiset(r) == multiset(b) + multiset{x} && Paged(r)
  {
    if b == [] then [x]
    else
      assert b == [b[0]] + b[1..] && b[0] in b;
      if x.pages[0] <= b[0].pages[0] then
        assert multiset([x] + b) == multiset{x} + multiset(b);
        var r := [x] + b;
        assert forall y :: y in r ==> y == x || y in b;
        r
      else
        var r := [b[0]] + Insert(x, b[1..]);
        assert forall y :: y in r ==> y == b[0] || y in Insert(x, b[1..]);
        r
  }

  function Sorted(b: seq<Block>): (r: seq<Block>)
    requires Paged(b)
    ensures multiset(r) == multiset(b) && Paged(r)
  {
    if b == [] then []
    else
      assert b == [b[0]] + b[1..] && b[0] in b;
      Insert(b[0], Sorted(b[1..]))
  }

  /** The sections with valid pages, as the attaching loop sees them. */
  function PagedBlocks(sections: seq<Section>): (b: seq<Block>)
    ensures Paged(b)
  {
    var paged := Filter(HasPages, sections);
    assert forall i :: 0 <= i < |paged| ==> paged[i] in paged;
    Blocks(paged)
  }

  function Ordered(sections: seq<Section>): (r: seq<Block>)
    ensures Paged(r)
  {
    Sorted(PagedBlocks(sections))
  }

  predicate Consecutive(pages: seq<nat>) {
    forall i, j :: 0 <= i < j < |pages| ==> pages[j] == pages[i] + (j - i)
  }

  /** An addendum whose pages start right here and run without a gap. */
  predicate Attachable(b: Block, next: nat) {
    b.pages != [] && b.pages[0] == next && b.addendum && Consecutive(b.pages)
  }

  /** What the loop of `contiguous_addendum_pages` does with the ordered sections from here on. */
  function Attach(ordered: seq<Block>, pages: seq<nat>): (r: seq<nat>)
    requires pages != [] && Paged(ordered)
    ensures pages <= r
  {
    if ordered == [] then pages
    else
      var b, next := ordered[0], pages[|pages| - 1] + 1;
      assert b in ordered;
      if b.pages[0] < next then Attach(ordered[1..], pages)
      else if Attachable(b, next) then Attach(ordered[1..], pages + b.pages)
      else pages
  }

  function WithAddenda(sections: seq<Section>, selected: seq<nat>): (r: seq<nat>)
    requires selected != []
    ensures selected <= r
  {
    Attach(Ordered(sections), selected)
  }

  method ContiguousAddendumPages(sections: seq<Section>, selected: seq<nat>) returns (pages: seq<nat>)
    requires selected != []
    ensures pages == WithAddenda(sections, selected)
  {
    pages := selected;
    var next := pages[|pages| - 1] + 1;
    var ordered := Ordered(sections);
    for i := 0 to |ordered|
      invariant pages != [] && next == pages[|pages| - 1] + 1
      invariant Attach(ordered[i..], pages) == WithAddenda(sections, selected)
    {
      var own, addendum := ordered[i].pages, ordered[i].addendum;
      assert ordered[i] in ordered;
      assert ordered[i..][0] == ordered[i] && ordered[i..][1..] == ordered[i + 1..];
      if own[0] < next { continue; }
      if own[0] > next { break; }
      if !addendum { break; }
      if !Consecutive(own) { break; }
      pages := pages + own;
      next := pages[|pages| - 1] + 1;
    }
  }

  /** The attached pages continue the selected ones without a gap. */
  lemma {:induction false} AttachRuns(ordered: seq<Block>, pages: seq<nat>)
    requires pages != [] && Paged(ordered)
    ensures Consecutive(Attach(ordered, pages)[|pages| - 1..])
  {
    if ordered != [] {
      var b, next := ordered[0], pages[|pages| - 1] + 1;
      assert b in ordered;
      if b.pages[0] < next {
        AttachRuns(ordered[1..], pages);
      } else if Attachable(b, next) {
        AttachRuns(ordered[1..], pages + b.pages);
        RunsJoin(Attach(ordered, pages), pages, b.pages);
      }
    }
  }

  lemma RunsJoin(r: seq<nat>, pages: seq<nat>, own: seq<nat>)
    requires pages != [] && own != [] && pages + own <= r && own[0] == pages[|pages| - 1] + 1
    requires Consecutive(own) && Consecutive(r[|pages + own| - 1..])
    ensures Consecutive(r[|pages| - 1..])
  {
    var k := |pages| - 1;
    forall i, j | 0 <= i < j < |r[k..]| ensures r[k..][j] == r[k..][i] + (j - i) {
      RunAt(r, pages, own, k + i, k + j);
    }
  }

  lemma RunAt(r: seq<nat>, pages: seq<nat>, own: seq<nat>, i: nat, j: nat)
    requires pages != [] && own != [] && pages + own <= r && own[0] == pages[|pages| - 1] + 1
    requires Consecutive(own) && Consecutive(r[|pages + own| - 1..])
    requires |pages| - 1 <= i < j < |r|
    ensures r[j] == r[i] + (j - i)
  {
    var last := |pages + own| - 1;
    assert r[last] == r[last..][0];
    assert forall k :: last <= k < |r| ==> r[k] == r[last..][k - last];
    assert forall k :: |pages| <= k <= last ==> r[k] == (pages + own)[k] && r[k] == own[k - |pages|];
    assert r[|pages| - 1] == (pages + own)[|pages| - 1];
  }

  /** No later block starts before an earlier one. */
  predicate Ascends(b: seq<Block>)
    requires Paged(b)
  {
    b == [] || (b[0] in b && (forall x :: x in b ==> b[0].pages[0] <= x.pages[0]) && Ascends(b[1..]))
  }

  lemma {:induction false} InsertAscends(x: Block, b: seq<Block>)
    requires x.pages != [] && Paged(b) && Ascends(b)
    ensures Ascends(Insert(x, b))
  {
    if b != [] {
      assert b[0] in b && b == [b[0]] + b[1..];
      if x.pages[0] <= b[0].pages[0] {
        assert ([x] + b)[1..] == b;
      } else {
        InsertAscends(x, b[1..]);
        var r := Insert(x, b);
        assert r[1..] == Insert(x, b[1..]);
        forall y | y in r ensures b[0].pages[0] <= y.pages[0] {
          assert y in multiset(r) && y in multiset(b) + multiset{x};
        }
      }
    }
  }

  lemma {:induction false} SortedAscends(b: seq<Block>)
    requires Paged(b)
    ensures Ascends(Sorted(b))
  {
    if b != [] {
      assert b[0] in b && b == [b[0]] + b[1..];
      SortedAscends(b[1..]);
      InsertAscends(b[0], Sorted(b[1..]));
    }
  }

  /** Sections that start on the same page look alike to the attaching loop. In particular this is
      so if no two sections with valid pages share a first page. */
  predicate Alike(b: seq<Block>)
    requires Paged(b)
  {
    forall x, y :: x in b && y in b && x.pages[0] == y.pages[0] ==> x == y
  }

  lemma {:induction false} OrderUnique(a: seq<Block>, b: seq<Block>)
    requires Paged(a) && Paged(b) && Ascends(a) && Ascends(b) && Alike(a) && multiset(a) == multiset(b)
    ensures a == b
  {
    assert |a| == |multiset(a)| && |b| == |multiset(b)|;
    if a != [] {
      assert a[0] in multiset(b) && b[0] in multiset(a);
      assert a[0] in b && b[0] in a;
      assert a == [a[0]] + a[1..] && b == [b[0]] + b[1..];
      assert multiset(a[1..]) == multiset(a) - multiset{a[0]};
      assert multiset(b[1..]) == multiset(b) - multiset{b[0]};
      OrderUnique(a[1..], b[1..]);
    }
  }

  function Showing(b: Block): Section -> bool { (s: Section) => BlockOf(s) == b }

  lemma BlocksFirst(s: seq<Section>)
    requires s != []
    ensures Blocks(s) == [BlockOf(s[0])] + Blocks(s[1..])
  {
    hide BlockOf;
  }

  lemma {:induction false} BlocksCount(s: seq<Section>, b: Block)
    ensures multiset(Blocks(s))[b] == |Filter(Showing(b), s)|
  {
    if s != [] {
      BlocksCount(s[1..], b);
      BlocksFirst(s);
      hide BlockOf, Blocks;
      assert multiset(Blocks(s)) == multiset{BlockOf(s[0])} + multiset(Blocks(s[1..]));
    }
  }

  lemma BlocksPermute(s: seq<Section>, t: seq<Section>)
    requires multiset(s) == multiset(t)
    ensures multiset(Blocks(s)) == multiset(Blocks(t))
  {
    forall b ensures multiset(Blocks(s))[b] == multiset(Blocks(t))[b] {
      BlocksCount(s, b);
      BlocksCount(t, b);
      FilterPermutes(Showing(b), s, t);
    }
  }

  /** Attaching does not depend on the order of the sections. */
  lemma AddendaPermute(s: seq<Section>, t: seq<Section>, selected: seq<nat>)
    requires multiset(s) == multiset(t) && Alike(PagedBlocks(s)) && selected != []
    ensures WithAddenda(s, selected) == WithAddenda(t, selected)
  {
    FilterPermutes(HasPages, s, t);
    BlocksPermute(Filter(HasPages, s), Filter(HasPages, t));
    SortedAscends(PagedBlocks(s));
    SortedAscends(PagedBlocks(t));
    OrderedSame(s);
    hide Sorted, Filter, Blocks, Ascends;
    var a, b := Sorted(PagedBlocks(s)), Sorted(PagedBlocks(t));
    OrderUnique(a, b);
  }

  /** Whatever is attached comes from addendum sections that run without a gap. */
  predicate FromAddenda(b: seq<Block>, pages: seq<nat>, from: nat) {
    forall k :: from <= k < |pages| ==>
      exists x :: x in b && x.addendum && Consecutive(x.pages) && pages[k] in x.pages
  }

  lemma {:induction false} AttachedAddenda(ordered: seq<Block>, pages: seq<nat>, all: seq<Block>, from: nat)
    requires pages != [] && Paged(ordered) && FromAddenda(all, pages, from)
    requires forall x :: x in ordered ==> x in all
    ensures FromAddenda(all, Attach(ordered, pages), from)
  {
    if ordered != [] {
      var b, next := ordered[0], pages[|pages| - 1] + 1;
      assert b in ordered && b in all;
      if b.pages[0] < next {
        AttachedAddenda(ordered[1..], pages, all, from);
      } else if Attachable(b, next) {
        var more := pages + b.pages;
        forall k | from <= k < |more|
          ensures exists x :: x in all && x.addendum && Consecutive(x.pages) && more[k] in x.pages
        {
          if k >= |pages| { assert more[k] == b.pages[k - |pages|]; }
        }
        AttachedAddenda(ordered[1..], more, all, from);
      }
    }
  }

  lemma AttachStep(ordered: seq<Block>, pages: seq<nat>)
    requires pages != [] && ordered != [] && Paged(ordered)
    ensures var b, next := ordered[0], pages[|pages| - 1] + 1;
      && b.pages != []
      && Attach(ordered, pages) ==
           if b.pages[0] < next then Attach(ordered[1..], pages)
           else if Attachable(b, next) then Attach(ordered[1..], pages + b.pages)
           else pages
  {
  }

  /** Attaching stops only when nothing can be attached any more. */
  lemma {:induction false} AttachMaximal(ordered: seq<Block>, pages: seq<nat>, x: Block)
    requires pages != [] && Paged(ordered) && Ascends(ordered) && Alike(ordered)
    requires x in ordered || (x.pages != [] && x.pages[0] <= pages[|pages| - 1])
    ensures var r := Attach(ordered, pages);
      !Attachable(x, r[|r| - 1] + 1) && r[|r| - 1] >= pages[|pages| - 1]
  {
    if ordered != [] {
      var b, next := ordered[0], pages[|pages| - 1] + 1;
      TailKeeps(ordered);
      InTail(ordered, x);
      AttachStep(ordered, pages);
      hide Ascends, Alike, Consecutive, Attach, Paged;
      if b.pages[0] < next {
        AttachMaximal(ordered[1..], pages, x);
      } else if Attachable(b, next) {
        LastPage(b.pages);
        AttachMaximal(ordered[1..], pages + b.pages, x);
      } else {
        Stopped(ordered, next, x);
      }
    }
  }

  lemma TailKeeps(b: seq<Block>)
    requires b != [] && Paged(b) && Ascends(b) && Alike(b)
    ensures b[0] in b && Paged(b[1..]) && Ascends(b[1..]) && Alike(b[1..])
  {
  }

  lemma Stopped(b: seq<Block>, next: nat, x: Block)
    requires b != [] && Paged(b) && Ascends(b) && Alike(b)
    requires b[0] in b && b[0].pages[0] >= next && !Attachable(b[0], next)
    requires x in b || (x.pages != [] && x.pages[0] < next)
    ensures !Attachable(x, next)
  {
  }

  lemma InTail(b: seq<Block>, x: Block)
    requires b != []
    ensures x in b <==> x == b[0] || x in b[1..]
  {
    assert b == [b[0]] + b[1..];
  }

  lemma LastPage(pages: seq<nat>)
    requires pages != []
    ensures Consecutive(pages) ==> pages[|pages| - 1] >= pages[0]
  {
  }

  // ------------------------------------------------------------------ selecting

  predicate IsDisclosure(s: Section) { s.class_.ClosingDisclosure? }
  predicate IsCandidate(s: Section) { IsDisclosure(s) && HasPages(s) }
  predicate IsWithin(s: Section, limit: nat) { IsCandidate(s) && |Pages(s.pageIds)| <= limit }

  function Within(limit: nat): Section -> bool { (s: Section) => IsWithin(s, limit) }
  function Naming(limit: nat): Section -> bool { (s: Section) => IsWithin(s, limit) && s.loanIdentifier != "" }
  function Matching(limit: nat, loan: string): Section -> bool {
    (s: Section) => IsWithin(s, limit) && s.loanIdentifier != "" && s.loanIdentifier == loan
  }
  function Topping(p: Section -> bool, top: Rank): Section -> bool { (s: Section) => p(s) && RankOf(s) == top }

  /** Who competes: the candidates naming this loan if there are any, else all of them. */
  function Eligible(sections: seq<Section>, loan: string, limit: nat): (p: Section -> bool)
    ensures forall s :: p(s) ==> IsWithin(s, limit)
  {
    if Filter(Matching(limit, loan), sections) != [] then Matching(limit, loan) else Within(limit)
  }

  datatype Option<T> = None | Some(value: T)

  /** The one eligible section of highest rank, if there is just one. */
  function Winner(sections: seq<Section>, loan: string, limit: nat): (w: Option<Section>)
    ensures w.Some? ==> IsWithin(w.value, limit)
  {
    var eligible := Eligible(sections, loan, limit);
    var pool := Filter(eligible, sections);
    if pool == [] then None
    else
      var winners := Filter(Topping(eligible, TopRank(pool)), sections);
      if |winners| != 1 then None
      else
        assert winners[0] in winners;
        Some(winners[0])
  }

  /** `select_closing_disclosure`, for a normalized loan identifier and a page limit. */
  function Select(sections: seq<Section>, loan: string, limit: nat): Decision {
    if Filter(IsDisclosure, sections) == [] then Held(NotFound)
    else if Filter(IsCandidate, sections) != [] && Filter(Within(limit), sections) == [] then
      Held(PageLimitExceeded)
    else if Filter(Within(limit), sections) == [] then Held(PageIdsInvalid)
    else if Filter(Matching(limit, loan), sections) == [] && Filter(Naming(limit), sections) != [] then
      Held(LoanIdMismatch)
    else
      match Winner(sections, loan, limit)
      case None => Held(Ambiguous)
      case Some(winner) =>
        var pages := WithAddenda(sections, Pages(winner.pageIds));
        if |pages| > limit then Held(PageLimitExceeded) else Selected(winner, pages)
  }

  lemma {:induction false} OnlyOne(p: Section -> bool, s: seq<Section>)
    requires |Filter(p, s)| == 1
    ensures exists i :: 0 <= i < |s| && s[i] == Filter(p, s)[0]
                        && forall j :: 0 <= j < |s| && j != i ==> !p(s[j])
  {
    if p(s[0]) {
      assert Filter(p, s[1..]) == [];
      forall j | 0 < j < |s| ensures !p(s[j]) { assert s[1..][j - 1] in s[1..]; }
      assert s[0] == Filter(p, s)[0];
    } else {
      OnlyOne(p, s[1..]);
      var i :| 0 <= i < |s[1..]| && s[1..][i] == Filter(p, s[1..])[0]
               && forall j :: 0 <= j < |s[1..]| && j != i ==> !p(s[1..][j]);
      forall j | 0 <= j < |s| && j != i + 1 ensures !p(s[j]) {
        if j > 0 { assert s[1..][j - 1] == s[j]; }
      }
      assert s[i + 1] == Filter(p, s)[0];
    }
  }

  /** At place `i` stands an eligible section that outranks every other eligible one. */
  predicate StrictMaximum(sections: seq<Section>, eligible: Section -> bool, i: nat) {
    && i < |sections| && eligible(sections[i])
    && forall j :: 0 <= j < |sections| && j != i && eligible(sections[j]) ==>
         Below(RankOf(sections[j]), RankOf(sections[i]))
  }

  /** No other eligible section has a better printed class, a later date of issue in the same class, more
      signatures on the same date, or as many and an execution that is not earlier. */
  predicate Best(sections: seq<Section>, eligible: Section -> bool, i: nat) {
    && i < |sections|
    && forall j :: 0 <= j < |sections| && j != i && eligible(sections[j]) ==> NoBetter(sections[j], sections[i])
  }

  lemma MaximumIsBest(sections: seq<Section>, eligible: Section -> bool, i: nat)
    requires StrictMaximum(sections, eligible, i)
    ensures Best(sections, eligible, i)
  {
    hide Below, RankOf, NoBetter, Beaten;
    forall j | 0 <= j < |sections| && j != i && eligible(sections[j]) ensures NoBetter(sections[j], sections[i]) {
      BelowExactly(sections[j], sections[i]);
      BeatenNoBetter(sections[j], sections[i]);
    }
  }

  lemma WinnerIsMaximum(sections: seq<Section>, loan: string, limit: nat)
    requires Winner(sections, loan, limit).Some?
    ensures exists i: nat :: StrictMaximum(sections, Eligible(sections, loan, limit), i)
                        && Best(sections, Eligible(sections, loan, limit), i)
                        && sections[i] == Winner(sections, loan, limit).value
  {
    var eligible := Eligible(sections, loan, limit);
    var pool := Filter(eligible, sections);
    TopRankIsTop(pool);
    var top := Topping(eligible, TopRank(pool));
    OnlyOne(top, sections);
    var i :| 0 <= i < |sections| && sections[i] == Filter(top, sections)[0]
             && forall j :: 0 <= j < |sections| && j != i ==> !top(sections[j]);
    assert sections[i] in Filter(top, sections);
    assert StrictMaximum(sections, eligible, i);
    MaximumIsBest(sections, eligible, i);
  }

  lemma {:induction false} FilterNone(p: Section -> bool, s: seq<Section>)
    requires forall x :: x in s ==> !p(x)
    ensures Filter(p, s) == []
  {
    if s != [] {
      assert s[0] in s;
      FilterNone(p, s[1..]);
    }
  }

  lemma {:induction false} OnlyOneBack(p: Section -> bool, s: seq<Section>, i: nat)
    requires i < |s| && p(s[i]) && forall j :: 0 <= j < |s| && j != i ==> !p(s[j])
    ensures Filter(p, s) == [s[i]]
  {
    if i == 0 {
      forall x | x in s[1..] ensures !p(x) {
        var j :| 0 <= j < |s[1..]| && s[1..][j] == x;
        assert s[j + 1] == x;
      }
      FilterNone(p, s[1..]);
    } else {
      assert !p(s[0]);
      forall j | 0 <= j < |s[1..]| && j != i - 1 ensures !p(s[1..][j]) { assert s[j + 1] == s[1..][j]; }
      OnlyOneBack(p, s[1..], i - 1);
    }
  }

  /** And conversely: a strict maximum among the eligible wins, wherever it stands. */
  lemma MaximumWins(sections: seq<Section>, loan: string, limit: nat, i: nat)
    requires StrictMaximum(sections, Eligible(sections, loan, limit), i)
    ensures Winner(sections, loan, limit) == Some(sections[i])
  {
    var eligible := Eligible(sections, loan, limit);
    var pool := Filter(eligible, sections);
    assert sections[i] in pool;
    TopRankIsTop(pool);
    var x :| x in pool && RankOf(x) == TopRank(pool);
    var j :| 0 <= j < |sections| && sections[j] == x;
    assert RankOf(sections[i]) == TopRank(pool);
    OnlyOneBack(Topping(eligible, TopRank(pool)), sections, i);
  }

  /** Soundness: SELECTED names a strict, unique, lexicographic maximum over the eligible sections;
      the pages are strictly increasing, begin with the winner's, and go on without a gap and only
      through addendum sections; and there are at least one and at most `limit` of them, so the
      later page-limit checks cannot fail. */
  lemma SelectedSound(sections: seq<Section>, loan: string, limit: nat)
    requires Select(sections, loan, limit).Selected?
    ensures var r := Select(sections, loan, limit);
      var own := Pages(r.winner.pageIds);
      && (exists i: nat :: StrictMaximum(sections, Eligible(sections, loan, limit), i)
                           && Best(sections, Eligible(sections, loan, limit), i) && sections[i] == r.winner)
      && own != [] && own <= r.pages && Increasing(r.pages) && 1 <= |r.pages| <= limit
      && Consecutive(r.pages[|own| - 1..])
      && FromAddenda(PagedBlocks(sections), r.pages, |own|)
  {
    var r := Select(sections, loan, limit);
    var own := Pages(r.winner.pageIds);
    WinnerIsMaximum(sections, loan, limit);
    AttachRuns(Ordered(sections), own);
    assert forall x :: x in Ordered(sections) ==> x in multiset(PagedBlocks(sections));
    AttachedAddenda(Ordered(sections), own, PagedBlocks(sections), |own|);
    IncreasingOn(own, r.pages);
  }

  lemma IncreasingOn(own: seq<nat>, pages: seq<nat>)
    requires own != [] && own <= pages && Increasing(own) && Consecutive(pages[|own| - 1..])
    ensures Increasing(pages)
  {
    var last := |own| - 1;
    assert forall k :: last <= k < |pages| ==> pages[k] == pages[last..][k - last];
    forall i, j | 0 <= i < j < |pages| ensures pages[i] < pages[j] {
      if j <= last { assert own[i] < own[j]; }
      else if i < last { assert own[i] < own[last]; }
    }
  }

  /** Maximality: if sections that start on one page look alike, no section could be attached to the
      selected pages any more. */
  lemma SelectedMaximal(sections: seq<Section>, loan: string, limit: nat, s: Section)
    requires Select(sections, loan, limit).Selected? && Alike(PagedBlocks(sections)) && s in sections
    ensures var pages := Select(sections, loan, limit).pages;
      pages != [] && !Attachable(BlockOf(s), pages[|pages| - 1] + 1)
  {
    hide *;
    SelectedPages(sections, loan, limit);
    var w := Winner(sections, loan, limit).value;
    if HasPages(s) {
      BlockIn(sections, s);
      OrderedMaximal(sections, Pages(w.pageIds), BlockOf(s));
    } else {
      NothingToAttach(s);
    }
  }

  lemma SelectedPages(sections: seq<Section>, loan: string, limit: nat)
    requires Select(sections, loan, limit).Selected?
    ensures var w := Winner(sections, loan, limit);
      && w.Some? && Pages(w.value.pageIds) != []
      && Select(sections, loan, limit).pages == WithAddenda(sections, Pages(w.value.pageIds))
  {
    hide Winner, Filter, WithAddenda;
  }

  lemma NothingToAttach(s: Section)
    ensures !HasPages(s) ==> forall p :: !Attachable(BlockOf(s), p)
  {
    hide Pages;
  }

  lemma OrderedMaximal(sections: seq<Section>, own: seq<nat>, x: Block)
    requires own != [] && Alike(PagedBlocks(sections)) && x in PagedBlocks(sections)
    ensures var pages := WithAddenda(sections, own);
      pages != [] && !Attachable(x, pages[|pages| - 1] + 1)
  {
    hide *;
    OrderedSame(sections);
    OrderedPaged(sections);
    AttachMaximal(Ordered(sections), own, x);
    AddendaAttach(sections, own);
  }

  lemma OrderedPaged(sections: seq<Section>)
    ensures Paged(Ordered(sections))
  {
  }

  lemma AddendaAttach(sections: seq<Section>, own: seq<nat>)
    requires own != []
    ensures WithAddenda(sections, own) == Attach(Ordered(sections), own) && WithAddenda(sections, own) != []
  {
  }

  lemma BlockIn(sections: seq<Section>, s: Section)
    requires s in sections && HasPages(s)
    ensures BlockOf(s) in PagedBlocks(sections)
  {
    var paged := Filter(HasPages, sections);
    assert s in paged;
    var i :| 0 <= i < |paged| && paged[i] == s;
    assert PagedBlocks(sections)[i] == BlockOf(s);
  }

  lemma OrderedSame(sections: seq<Section>)
    ensures Ascends(Ordered(sections))
    ensures forall x :: x in Ordered(sections) <==> x in PagedBlocks(sections)
    ensures Alike(PagedBlocks(sections)) ==> Alike(Ordered(sections))
  {
    SortedAscends(PagedBlocks(sections));
    assert forall x :: x in Ordered(sections) <==> x in multiset(PagedBlocks(sections));
  }

  // -------------------------------------------------------------- permutations

  lemma TopRankPermutes(s: seq<Section>, t: seq<Section>)
    requires multiset(s) == multiset(t) && s != []
    ensures t != [] && TopRank(s) == TopRank(t)
  {
    assert |multiset(s)| == |s| && |multiset(t)| == |t|;
    TopRankIsTop(s);
    TopRankIsTop(t);
    var x :| x in s && RankOf(x) == TopRank(s);
    var y :| y in t && RankOf(y) == TopRank(t);
    assert x in multiset(t) && y in multiset(s);
  }

  lemma WinnerPermutes(s: seq<Section>, t: seq<Section>, loan: string, limit: nat)
    requires multiset(s) == multiset(t)
    ensures Winner(s, loan, limit) == Winner(t, loan, limit)
  {
    FilterPermutes(Matching(limit, loan), s, t);
    var eligible := Eligible(s, loan, limit);
    FilterPermutes(eligible, s, t);
    var pool := Filter(eligible, s);
    if pool != [] {
      TopRankPermutes(pool, Filter(eligible, t));
      var top := Topping(eligible, TopRank(pool));
      FilterPermutes(top, s, t);
      OnlyPermutes(Filter(top, s), Filter(top, t));
    }
  }

  lemma FilterEmpty(p: Section -> bool, s: seq<Section>, t: seq<Section>)
    requires multiset(s) == multiset(t)
    ensures Filter(p, s) == [] <==> Filter(p, t) == []
  {
    FilterPermutes(p, s, t);
  }

  lemma OnlyPermutes(a: seq<Section>, b: seq<Section>)
    requires multiset(a) == multiset(b)
    ensures |a| == 1 ==> a == b
  {
    assert |multiset(a)| == |a| && |multiset(b)| == |b|;
    if |a| == 1 { assert a[0] in multiset(b); }
  }

  /** Order independence: if sections that start on one page look alike, the status, the reason, the
      winner and the selected pages are the same for every permutation of the sections. */
  lemma SelectPermutes(s: seq<Section>, t: seq<Section>, loan: string, limit: nat)
    requires multiset(s) == multiset(t) && Alike(PagedBlocks(s))
    ensures Select(s, loan, limit) == Select(t, loan, limit)
  {
    hide Filter, Winner, WithAddenda, PagedBlocks, Alike;
    FilterEmpty(IsDisclosure, s, t);
    FilterEmpty(IsCandidate, s, t);
    FilterEmpty(Within(limit), s, t);
    FilterEmpty(Naming(limit), s, t);
    FilterEmpty(Matching(limit, loan), s, t);
    WinnerPermutes(s, t, loan, limit);
    var w := Winner(s, loan, limit);
    if w.Some? { AddendaPermute(s, t, Pages(w.value.pageIds)); }
  }

  /** Distinct first pages are enough for that. */
  lemma DistinctFirstsAlike(s: seq<Section>)
    requires forall i, j :: 0 <= i < j < |s| && HasPages(s[i]) && HasPages(s[j]) ==>
      Pages(s[i].pageIds)[0] != Pages(s[j].pageIds)[0]
    ensures Alike(PagedBlocks(s))
  {
    forall x, y | x in PagedBlocks(s) && y in PagedBlocks(s) && x.pages[0] == y.pages[0] ensures x == y {
      var i := BlockFrom(s, x);
      var j := BlockFrom(s, y);
      assert i == j;
    }
  }

  lemma BlockFrom(s: seq<Section>, x: Block) returns (i: nat)
    requires x in PagedBlocks(s)
    ensures i < |s| && HasPages(s[i]) && BlockOf(s[i]) == x
  {
    var paged := Filter(HasPages, s);
    var k :| 0 <= k < |paged| && BlockOf(paged[k]) == x;
    assert paged[k] in paged && paged[k] in s;
    i :| i < |s| && s[i] == paged[k];
  }

  /** A section that is not eligible, or ranks strictly below, never changes a winner that names the
      loan, wherever it is put among the others. */
  lemma ExtraSectionKeepsWinner(s: seq<Section>, t: seq<Section>, x: Section, loan: string, limit: nat)
    requires multiset(t) == multiset(s) + multiset{x}
    requires Winner(s, loan, limit).Some? && Filter(Matching(limit, loan), s) != []
    requires Matching(limit, loan)(x) ==> Below(RankOf(x), RankOf(Winner(s, loan, limit).value))
    ensures Winner(t, loan, limit) == Winner(s, loan, limit)
  {
    WinnerIsMaximum(s, loan, limit);
    var i: nat :| StrictMaximum(s, Eligible(s, loan, limit), i) && s[i] == Winner(s, loan, limit).value;
    var more := s + [x];
    var match_ := Matching(limit, loan);
    assert match_(s[i]) && more[i] == s[i];
    assert more[i] in Filter(match_, more);
    assert Eligible(more, loan, limit) == match_;
    forall j | 0 <= j < |more| && j != i && match_(more[j]) ensures Below(RankOf(more[j]), RankOf(more[i])) {
      if j < |s| { assert more[j] == s[j]; }
    }
    assert StrictMaximum(more, match_, i);
    MaximumWins(more, loan, limit, i);
    WinnerPermutes(t, more, loan, limit);
  }

  // ---------------------------------------------------------- where order matters

  function Plain(id: string, class_: Class, page: nat): Section {
    Section(id, class_, [Numeral(page)], Final, true, true, true, 1, 1, 1, "7")
  }

  lemma PlainPages(id: string, class_: Class, page: nat)
    requires page >= 1
    ensures var s := Plain(id, class_, page);
      Pages(s.pageIds) == [page] && s.class_ == class_ && s.loanIdentifier == "7"
      && (IsDisclosure(s) <==> class_.ClosingDisclosure?)
  {
    assert Values([Numeral(page)]) == [page];
  }

  lemma PagedThree(x: Section, y: Section, z: Section)
    requires HasPages(x) && HasPages(y) && HasPages(z)
    ensures PagedBlocks([x, y, z]) == [BlockOf(x), BlockOf(y), BlockOf(z)]
  {
    assert [x, y, z][1..] == [y, z] && [y, z][1..] == [z] && [z][1..] == [];
    hide HasPages, Pages;
    assert Filter(HasPages, [z]) == [z];
    assert Filter(HasPages, [y, z]) == [y, z];
    assert Filter(HasPages, [x, y, z]) == [x, y, z];
  }

  /** Sorting leaves alone what is in order. */
  lemma {:induction false} AscendingSorted(b: seq<Block>)
    requires Paged(b) && Ascends(b)
    ensures Sorted(b) == b
  {
    if b != [] {
      assert b[0] in b && b == [b[0]] + b[1..];
      AscendingSorted(b[1..]);
      if b[1..] != [] { assert b[1..][0] in b; }
    }
  }

  lemma AscendsFirst(x: Block, b: seq<Block>)
    requires x.pages != [] && Paged(b) && Ascends(b) && forall y :: y in b ==> x.pages[0] <= y.pages[0]
    ensures Paged([x] + b) && Ascends([x] + b)
  {
    assert ([x] + b)[1..] == b;
  }

  lemma SortedThree(a: Block, b: Block, c: Block)
    requires a.pages == [1] && b.pages == [2] && c.pages == [2]
    ensures Sorted([a, b, c]) == [a, b, c]
  {
    AscendsFirst(c, []);
    assert [c] + [] == [c];
    AscendsFirst(b, [c]);
    assert [b] + [c] == [b, c];
    AscendsFirst(a, [b, c]);
    assert [a] + [b, c] == [a, b, c];
    hide Sorted, Ascends;
    AscendingSorted([a, b, c]);
  }

  lemma AttachTwo(x: Block, y: Block, z: Block)
    requires x.pages == [1] && y.pages == [2] && z.pages == [2]
    ensures Attach([x, y, z], [1]) == if y.addendum then [1, 2] else [1]
  {
    assert [x, y, z][1..] == [y, z] && [y, z][1..] == [z] && [z][1..] == [];
    assert Attach([z], [1, 2]) == [1, 2];
    assert [1] + [2] == [1, 2];
  }

  lemma FirstWins(x: Section, y: Section, z: Section)
    requires IsWithin(x, 8) && x.loanIdentifier == "7" && !IsDisclosure(y) && !IsDisclosure(z)
    ensures Winner([x, y, z], "7", 8) == Some(x)
    ensures Select([x, y, z], "7", 8) ==
      var pages := WithAddenda([x, y, z], Pages(x.pageIds));
      if |pages| > 8 then Held(PageLimitExceeded) else Selected(x, pages)
  {
    var s := [x, y, z];
    assert s[0] in s;
    assert x in Filter(Matching(8, "7"), s) && x in Filter(IsDisclosure, s) && x in Filter(Within(8), s);
    assert StrictMaximum(s, Matching(8, "7"), 0);
    MaximumWins(s, "7", 8, 0);
  }

  lemma ThreeSections(x: Section, y: Section, z: Section)
    requires Pages(x.pageIds) == [1] && Pages(y.pageIds) == [2] && Pages(z.pageIds) == [2]
    requires IsDisclosure(x) && x.loanIdentifier == "7" && !IsDisclosure(y) && !IsDisclosure(z)
    ensures Select([x, y, z], "7", 8) == Selected(x, if y.class_.Addendum? then [1, 2] else [1])
  {
    hide Select, Winner, Filter, Sorted, Attach, Pages;
    FirstWins(x, y, z);
    PagedThree(x, y, z);
    SortedThree(BlockOf(x), BlockOf(y), BlockOf(z));
    AttachTwo(BlockOf(x), BlockOf(y), BlockOf(z));
  }

  lemma SwapTwo(x: Section, y: Section, z: Section)
    ensures multiset([x, y, z]) == multiset([x, z, y])
  {
    assert multiset([x, y, z]) == multiset{x, y, z} && multiset([x, z, y]) == multiset{x, z, y};
  }

  /** When an addendum and another section both start on the page after the winner, their order
      decides: attached one way, not attached the other. */
  lemma SharedFirstPageDepends()
    ensures var cd, addendum, other := Plain("a", ClosingDisclosure, 1), Plain("b", Addendum, 2), Plain("c", Other, 2);
      && multiset([cd, addendum, other]) == multiset([cd, other, addendum])
      && Select([cd, addendum, other], "7", 8) == Selected(cd, [1, 2])
      && Select([cd, other, addendum], "7", 8) == Selected(cd, [1])
  {
    var cd, addendum, other := Plain("a", ClosingDisclosure, 1), Plain("b", Addendum, 2), Plain("c", Other, 2);
    hide *;
    PlainPages("a", ClosingDisclosure, 1);
    PlainPages("b", Addendum, 2);
    PlainPages("c", Other, 2);
    ThreeSections(cd, addendum, other);
    ThreeSections(cd, other, addendum);
    SwapTwo(cd, addendum, other);
  }
}
