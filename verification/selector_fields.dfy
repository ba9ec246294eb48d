/** The selector's decision, told on the fields of the sections themselves: who competes, who wins and why,
    which pages go along, and why a package is held. */
module SelectorFields {
  import opened Selector

  /** At least one page id, all of them positive numerals, each larger than the one before. */
  predicate Readable(ids: seq<PageId>) {
    && ids != [] && (forall i :: 0 <= i < |ids| ==> ids[i].Numeral? && ids[i].n >= 1)
    && forall i :: 0 < i < |ids| ==> ids[i - 1].n < ids[i].n
  }

  lemma {:induction false} StepsUp(pages: seq<nat>)
    requires forall i :: 0 < i < |pages| ==> pages[i - 1] < pages[i]
    ensures Increasing(pages)
  {
    if pages != [] {
      var front := pages[..|pages| - 1];
      StepsUp(front);
      forall i, j | 0 <= i < j < |pages| ensures pages[i] < pages[j] {
        if j < |front| { assert front[i] < front[j]; }
        else if i < j - 1 { assert front[i] < front[j - 1]; }
      }
    }
  }

  /** A section has its listed pages exactly if all its ids are readable, else none. */
  lemma PagesExactly(ids: seq<PageId>)
    ensures Pages(ids) != [] <==> Readable(ids)
    ensures Readable(ids) ==> |Pages(ids)| == |ids| && forall i :: 0 <= i < |ids| ==> Pages(ids)[i] == ids[i].n
  {
    if Readable(ids) { StepsUp(Values(ids)); }
    if Pages(ids) != [] {
      var pages := Pages(ids);
      forall i | 0 < i < |ids| ensures ids[i - 1].n < ids[i].n { assert pages[i - 1] < pages[i]; }
    }
  }

  // ------------------------------------------------------------------ competing

  /** A Closing Disclosure with readable pages, no more of them than may be selected. */
  predicate Candidate(s: Section, limit: nat) {
    s.class_ == ClosingDisclosure && Readable(s.pageIds) && |s.pageIds| <= limit
  }

  predicate Names(s: Section, loan: string) { loan != "" && s.loanIdentifier == loan }

  /** Some candidate names this loan. */
  predicate Named(sections: seq<Section>, loan: string, limit: nat) {
    exists x :: x in sections && Candidate(x, limit) && Names(x, loan)
  }

  /** Candidates compete; if some name this loan, only those do. */
  predicate Competes(sections: seq<Section>, loan: string, limit: nat, s: Section) {
    Candidate(s, limit) && (Named(sections, loan, limit) ==> Names(s, loan))
  }

  lemma CandidateExactly(s: Section, limit: nat)
    ensures IsWithin(s, limit) <==> Candidate(s, limit)
    ensures IsCandidate(s) <==> s.class_ == ClosingDisclosure && Readable(s.pageIds)
  {
    PagesExactly(s.pageIds);
  }

  lemma NamedExactly(sections: seq<Section>, loan: string, limit: nat)
    ensures Filter(Matching(limit, loan), sections) != [] <==> Named(sections, loan, limit)
  {
    if Filter(Matching(limit, loan), sections) != [] {
      var x := Filter(Matching(limit, loan), sections)[0];
      assert x in Filter(Matching(limit, loan), sections);
      CandidateExactly(x, limit);
    }
    if x :| x in sections && Candidate(x, limit) && Names(x, loan) {
      CandidateExactly(x, limit);
      assert x in Filter(Matching(limit, loan), sections);
    }
  }

  lemma EligibleExactly(sections: seq<Section>, loan: string, limit: nat, s: Section)
    ensures Eligible(sections, loan, limit)(s) <==> Competes(sections, loan, limit, s)
  {
    hide Filter, Readable, Pages, Named;
    NamedExactly(sections, loan, limit);
    CandidateExactly(s, limit);
  }

  // -------------------------------------------------------------------- ranking

  /** The section at place `i` competes and beats every other that does. */
  predicate BeatsAll(sections: seq<Section>, loan: string, limit: nat, i: nat) {
    && i < |sections| && Competes(sections, loan, limit, sections[i])
    && forall j :: 0 <= j < |sections| && j != i && Competes(sections, loan, limit, sections[j]) ==>
         Beaten(sections[j], sections[i])
  }

  lemma MaximumExactly(sections: seq<Section>, loan: string, limit: nat, i: nat)
    ensures StrictMaximum(sections, Eligible(sections, loan, limit), i) <==> BeatsAll(sections, loan, limit, i)
  {
    hide Eligible, Competes, RankOf, Below, Beaten;
    if i < |sections| {
      EligibleExactly(sections, loan, limit, sections[i]);
      forall j | 0 <= j < |sections|
        ensures Eligible(sections, loan, limit)(sections[j]) <==> Competes(sections, loan, limit, sections[j])
        ensures Below(RankOf(sections[j]), RankOf(sections[i])) <==> Beaten(sections[j], sections[i])
      {
        EligibleExactly(sections, loan, limit, sections[j]);
        BelowExactly(sections[j], sections[i]);
      }
    }
  }

  /** There is a winner exactly if one section beats all others that compete, and then it is that one. */
  lemma WinnerExactly(sections: seq<Section>, loan: string, limit: nat)
    ensures Winner(sections, loan, limit).Some? <==> exists i: nat :: BeatsAll(sections, loan, limit, i)
    ensures forall i: nat :: BeatsAll(sections, loan, limit, i) ==>
      Winner(sections, loan, limit) == Selector.Some(sections[i])
  {
    hide Winner, Eligible, Competes, Beaten, Below, RankOf;
    if Winner(sections, loan, limit).Some? {
      WinnerIsMaximum(sections, loan, limit);
      var i: nat :| StrictMaximum(sections, Eligible(sections, loan, limit), i)
                    && sections[i] == Winner(sections, loan, limit).value;
      MaximumExactly(sections, loan, limit, i);
    }
    forall i: nat | BeatsAll(sections, loan, limit, i)
      ensures Winner(sections, loan, limit) == Selector.Some(sections[i])
    {
      MaximumExactly(sections, loan, limit, i);
      MaximumWins(sections, loan, limit, i);
    }
  }

  /** What the selected section has over any other that competes: no better printed class; in the same class
      no later date of issue, on the same date no more signatures, and with as many an earlier execution. */
  lemma WinnerBeats(sections: seq<Section>, loan: string, limit: nat)
    requires Select(sections, loan, limit).Selected?
    ensures var w := Select(sections, loan, limit).winner;
      && Competes(sections, loan, limit, w)
      && exists i :: 0 <= i < |sections| && sections[i] == w
           && forall j :: 0 <= j < |sections| && j != i && Competes(sections, loan, limit, sections[j]) ==>
                NoBetter(sections[j], w)
  {
    SelectedWins(sections, loan, limit);
    hide Winner, Select, Competes, Beaten, NoBetter;
    WinnerExactly(sections, loan, limit);
    var i: nat :| BeatsAll(sections, loan, limit, i);
    var w := Select(sections, loan, limit).winner;
    assert sections[i] == w;
    forall j | 0 <= j < |sections| && j != i && Competes(sections, loan, limit, sections[j])
      ensures NoBetter(sections[j], w)
    {
      BeatenNoBetter(sections[j], w);
    }
  }

  lemma SelectedWins(sections: seq<Section>, loan: string, limit: nat)
    requires Select(sections, loan, limit).Selected?
    ensures Winner(sections, loan, limit) == Selector.Some(Select(sections, loan, limit).winner)
  {
    hide Winner, Filter;
  }

  // --------------------------------------------------------------------- holding

  lemma NoneExactly(p: Section -> bool, sections: seq<Section>)
    ensures Filter(p, sections) == [] <==> forall s :: s in sections ==> !p(s)
  {
    if Filter(p, sections) != [] { assert Filter(p, sections)[0] in Filter(p, sections); }
    else { assert forall s :: s in sections && p(s) ==> s in Filter(p, sections); }
  }

  /** A competing loan: nobody names this one, but somebody names another. */
  predicate OtherLoan(sections: seq<Section>, loan: string, limit: nat) {
    !Named(sections, loan, limit) && exists s :: s in sections && Candidate(s, limit) && s.loanIdentifier != ""
  }

  predicate AnyDisclosure(sections: seq<Section>) {
    exists s :: s in sections && s.class_ == ClosingDisclosure
  }

  predicate AnyReadable(sections: seq<Section>) {
    exists s :: s in sections && s.class_ == ClosingDisclosure && Readable(s.pageIds)
  }

  predicate AnyCandidate(sections: seq<Section>, limit: nat) {
    exists s :: s in sections && Candidate(s, limit)
  }

  ghost predicate SomeWinner(sections: seq<Section>, loan: string, limit: nat) {
    exists i: nat :: BeatsAll(sections, loan, limit, i)
  }

  /** The winner's pages and what is attached to them are more than may be selected. */
  predicate TooLong(sections: seq<Section>, loan: string, limit: nat) {
    var w := Winner(sections, loan, limit);
    w.Some? && |WithAddenda(sections, Pages(w.value.pageIds))| > limit
  }

  lemma WinnerCompetes(sections: seq<Section>, loan: string, limit: nat)
    ensures SomeWinner(sections, loan, limit) || OtherLoan(sections, loan, limit) ==> AnyCandidate(sections, limit)
    ensures AnyCandidate(sections, limit) ==> AnyReadable(sections)
    ensures AnyReadable(sections) ==> AnyDisclosure(sections)
  {
    if i: nat :| BeatsAll(sections, loan, limit, i) { assert sections[i] in sections; }
  }

  lemma FiltersExactly(sections: seq<Section>, loan: string, limit: nat)
    ensures Filter(IsDisclosure, sections) != [] <==> AnyDisclosure(sections)
    ensures Filter(IsCandidate, sections) != [] <==> AnyReadable(sections)
    ensures Filter(Within(limit), sections) != [] <==> AnyCandidate(sections, limit)
    ensures Filter(Matching(limit, loan), sections) == [] && Filter(Naming(limit), sections) != [] <==>
      OtherLoan(sections, loan, limit)
  {
    NoneExactly(IsDisclosure, sections);
    NoneExactly(IsCandidate, sections);
    NoneExactly(Within(limit), sections);
    NoneExactly(Naming(limit), sections);
    NamedExactly(sections, loan, limit);
    hide Filter, Readable, Pages;
    forall s | s in sections
      ensures IsCandidate(s) <==> s.class_ == ClosingDisclosure && Readable(s.pageIds)
      ensures IsWithin(s, limit) <==> Candidate(s, limit)
    {
      CandidateExactly(s, limit);
    }
  }

  /** Each reason for a hold, exactly; a package is selected exactly if none of them applies. */
  lemma HeldExactly(sections: seq<Section>, loan: string, limit: nat)
    ensures var r := Select(sections, loan, limit);
      && (r == Held(NotFound) <==> !AnyDisclosure(sections))
      && (r == Held(PageIdsInvalid) <==> AnyDisclosure(sections) && !AnyReadable(sections))
      && (r == Held(LoanIdMismatch) <==> OtherLoan(sections, loan, limit))
      && (r == Held(Ambiguous) <==>
            AnyCandidate(sections, limit) && !OtherLoan(sections, loan, limit) && !SomeWinner(sections, loan, limit))
      && (r == Held(PageLimitExceeded) <==>
            || (AnyReadable(sections) && !AnyCandidate(sections, limit))
            || (SomeWinner(sections, loan, limit) && !OtherLoan(sections, loan, limit) && TooLong(sections, loan, limit)))
      && (r.Selected? <==>
            SomeWinner(sections, loan, limit) && !OtherLoan(sections, loan, limit) && !TooLong(sections, loan, limit))
  {
    hide Winner, Filter, Readable, BeatsAll, WithAddenda, Pages, OtherLoan, AnyReadable, AnyDisclosure;
    FiltersExactly(sections, loan, limit);
    WinnerExactly(sections, loan, limit);
    WinnerCompetes(sections, loan, limit);
  }

  // ------------------------------------------------------------------------ pages

  /** An addendum with readable pages that run without a gap. */
  predicate RunningAddendum(s: Section) {
    && s.class_ == Addendum && Readable(s.pageIds)
    && forall i :: 0 < i < |s.pageIds| ==> s.pageIds[i].n == s.pageIds[i - 1].n + 1
  }

  predicate Shows(s: Section, page: nat) {
    exists i :: 0 <= i < |s.pageIds| && s.pageIds[i] == Numeral(page)
  }

  lemma {:induction false} RunsExactly(pages: seq<nat>)
    ensures Consecutive(pages) <==> forall i :: 0 < i < |pages| ==> pages[i] == pages[i - 1] + 1
  {
    if pages != [] {
      var front := pages[..|pages| - 1];
      RunsExactly(front);
      if forall i :: 0 < i < |pages| ==> pages[i] == pages[i - 1] + 1 {
        assert forall i :: 0 < i < |front| ==> front[i] == front[i - 1] + 1;
        forall i, j | 0 <= i < j < |pages| ensures pages[j] == pages[i] + (j - i) {
          if j < |front| { assert front[j] == front[i] + (j - i); }
          else if i < j - 1 { assert front[j - 1] == front[i] + (j - 1 - i); }
        }
      }
    }
  }

  lemma AddendumExactly(s: Section)
    requires HasPages(s)
    ensures BlockOf(s).addendum && Consecutive(BlockOf(s).pages) <==> RunningAddendum(s)
    ensures forall p :: p in BlockOf(s).pages ==> Shows(s, p)
    ensures BlockOf(s).pages == Pages(s.pageIds)
  {
    PagesExactly(s.pageIds);
    RunsExactly(Pages(s.pageIds));
    forall p | p in BlockOf(s).pages ensures Shows(s, p) {
      var i :| 0 <= i < |Pages(s.pageIds)| && Pages(s.pageIds)[i] == p;
      assert s.pageIds[i] == Numeral(p);
    }
  }

  lemma BlockFrom(sections: seq<Section>, x: Block) returns (s: Section)
    requires x in PagedBlocks(sections)
    ensures s in sections && HasPages(s) && BlockOf(s) == x
  {
    var paged := Filter(HasPages, sections);
    var i :| 0 <= i < |paged| && Blocks(paged)[i] == x;
    s := paged[i];
    assert s in paged;
  }

  lemma FollowsOn(pages: seq<nat>, own: nat, k: nat)
    requires 1 <= own <= k < |pages| && Consecutive(pages[own - 1..])
    ensures pages[k] == pages[k - 1] + 1
  {
    var tail := pages[own - 1..];
    assert tail[k - own + 1] == tail[k - own] + 1;
  }

  predicate AddendumPage(sections: seq<Section>, page: nat) {
    exists s :: s in sections && RunningAddendum(s) && Shows(s, page)
  }

  lemma Supplied(sections: seq<Section>, pages: seq<nat>, own: nat, k: nat)
    requires own <= k < |pages| && FromAddenda(PagedBlocks(sections), pages, own)
    ensures AddendumPage(sections, pages[k])
  {
    var b, page := PagedBlocks(sections), pages[k];
    hide Pages, Readable, PagedBlocks, RunningAddendum, Shows, Consecutive;
    var x :| x in b && x.addendum && Consecutive(x.pages) && page in x.pages;
    var s := BlockFrom(sections, x);
    AddendumExactly(s);
  }

  lemma Begins(ids: seq<PageId>, pages: seq<nat>)
    requires Pages(ids) != [] && Pages(ids) <= pages
    ensures Readable(ids) && |ids| == |Pages(ids)| <= |pages|
    ensures forall i :: 0 <= i < |ids| ==> pages[i] == ids[i].n
  {
    hide Pages;
    PagesExactly(ids);
    forall i | 0 <= i < |ids| ensures pages[i] == ids[i].n { assert pages[i] == Pages(ids)[i]; }
  }

  /** The selected pages: all of the winner's, in order; then, one by one, pages of running addenda; and no
      more than the limit. */
  lemma PagesChosen(sections: seq<Section>, loan: string, limit: nat)
    requires Select(sections, loan, limit).Selected?
    ensures var w, pages := Select(sections, loan, limit).winner, Select(sections, loan, limit).pages;
      && Readable(w.pageIds) && |w.pageIds| <= |pages| <= limit
      && (forall i :: 0 <= i < |w.pageIds| ==> pages[i] == w.pageIds[i].n)
      && (forall k :: |w.pageIds| <= k < |pages| ==>
            pages[k] == pages[k - 1] + 1 && AddendumPage(sections, pages[k]))
  {
    hide Select, Pages, Consecutive, FromAddenda, StrictMaximum, Increasing, AddendumPage, PagedBlocks;
    SelectedSound(sections, loan, limit);
    var w, pages := Select(sections, loan, limit).winner, Select(sections, loan, limit).pages;
    Begins(w.pageIds, pages);
    forall k | |w.pageIds| <= k < |pages|
      ensures pages[k] == pages[k - 1] + 1 && AddendumPage(sections, pages[k])
    {
      FollowsOn(pages, |w.pageIds|, k);
      Supplied(sections, pages, |w.pageIds|, k);
    }
  }

  /** And none is left: if sections that start on one page look alike, no running addendum starts on the page
      after the last. */
  lemma NoneLeft(sections: seq<Section>, loan: string, limit: nat, s: Section)
    requires Select(sections, loan, limit).Selected? && Alike(PagedBlocks(sections))
    requires s in sections && RunningAddendum(s)
    ensures var pages := Select(sections, loan, limit).pages;
      pages != [] && s.pageIds[0].n != pages[|pages| - 1] + 1
  {
    hide Select, Alike, PagedBlocks;
    SelectedMaximal(sections, loan, limit, s);
    PagesExactly(s.pageIds);
    AddendumExactly(s);
  }
}
