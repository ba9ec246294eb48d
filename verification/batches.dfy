/** The loops at the edges: change-record batches, paginated queries, streamed request bodies. */
module Batches {
  import opened Records
  import Up = UploadProcessor

  // ------------------------------------------------------------ change records

  /** One record of a batch; `raises` says whether reconciling it would raise. */
  datatype ChangeRecord =
    | Change(sequence: nat, old_: Option<Upload>, new_: Upload, raises: bool)
    | Unreadable

  predicate Fails(c: ChangeRecord) {
    c.Change?
    && match Up.StreamSignal(c.old_, c.new_)
       case Ignored => false
       case Malformed => true
       case Wake(_) => c.raises
  }

  /** The record tells of an upload that is VALIDATING now and of a change that matters to the join. */
  predicate Concerns(c: ChangeRecord) {
    && c.Change? && c.new_.status == Validating
    && (c.old_.Some? ==>
          || c.old_.value.status != c.new_.status || c.old_.value.completed != c.new_.completed
          || c.old_.value.sourceVersion != c.new_.sourceVersion
          || c.old_.value.scan != c.new_.scan || c.old_.value.scanVersion != c.new_.scanVersion)
  }

  /** It must be delivered again: the row it shows is not fit to be reconciled, or reconciling it raised. */
  predicate ComesAgain(c: ChangeRecord) {
    Concerns(c) && (!c.new_.completed || c.new_.sourceVersion == None || c.raises)
  }

  lemma FailsExactly(c: ChangeRecord)
    ensures Fails(c) <==> ComesAgain(c)
  {
  }

  /** The records of a batch that must come again, in order. */
  function Failures(batch: seq<ChangeRecord>): seq<nat>
    requires forall i :: 0 <= i < |batch| ==> batch[i].Change?
  {
    if batch == [] then []
    else
      var n := |batch| - 1;
      Failures(batch[..n]) + (if Fails(batch[n]) then [batch[n].sequence] else [])
  }

  /** Exactly the failing records are reported, and only they: partial-batch retry loses nothing and
      repeats nothing that went through. */
  lemma {:induction false} FailuresExact(batch: seq<ChangeRecord>, x: nat)
    requires forall i :: 0 <= i < |batch| ==> batch[i].Change?
    ensures x in Failures(batch) <==> exists i :: 0 <= i < |batch| && ComesAgain(batch[i]) && batch[i].sequence == x
  {
    forall c ensures Fails(c) <==> ComesAgain(c) { FailsExactly(c); }
    hide Fails, ComesAgain;
    if batch != [] {
      var n := |batch| - 1;
      FailuresExact(batch[..n], x);
      assert forall i :: 0 <= i < n ==> batch[..n][i] == batch[i];
      if i :| 0 <= i < |batch| && ComesAgain(batch[i]) && batch[i].sequence == x {
        if i < n { assert ComesAgain(batch[..n][i]); }
      }
      if x in Failures(batch[..n]) {
        var i :| 0 <= i < n && ComesAgain(batch[..n][i]) && batch[..n][i].sequence == x;
        assert ComesAgain(batch[i]);
      }
    }
  }

  /** `handle_stream_event`: None if it raises for the whole batch. */
  method HandleStreamEvent(batch: seq<ChangeRecord>) returns (failures: Option<seq<nat>>)
    ensures failures.Some? <==> batch != [] && forall i :: 0 <= i < |batch| ==> batch[i].Change?
    ensures failures.Some? ==> failures.value == Failures(batch)
    ensures failures.Some? ==> forall x ::
      x in failures.value <==> exists i :: 0 <= i < |batch| && ComesAgain(batch[i]) && batch[i].sequence == x
  {
    if batch == [] { return None; }
    var failed: seq<nat> := [];
    for n := 0 to |batch|
      invariant forall i :: 0 <= i < n ==> batch[i].Change?
      invariant failed == Failures(batch[..n])
    {
      if batch[n].Unreadable? { return None; }
      assert batch[..n + 1][..n] == batch[..n];
      match Up.StreamSignal(batch[n].old_, batch[n].new_) {
        case Ignored =>
        case Malformed => failed := failed + [batch[n].sequence];
        case Wake(_) => if batch[n].raises { failed := failed + [batch[n].sequence]; }
      }
    }
    assert batch[..|batch|] == batch;
    forall x ensures x in failed <==> exists i :: 0 <= i < |batch| && ComesAgain(batch[i]) && batch[i].sequence == x {
      FailuresExact(batch, x);
    }
    return Some(failed);
  }

  // ------------------------------------------------------------ paginated queries

  function Joined<T>(pages: seq<seq<T>>): seq<T> {
    if pages == [] then [] else Joined(pages[..|pages| - 1]) + pages[|pages| - 1]
  }

  lemma {:induction false} JoinedGrows<T>(pages: seq<seq<T>>, n: nat)
    requires n <= |pages|
    ensures |Joined(pages[..n])| <= |Joined(pages)|
    decreases |pages|
  {
    if n < |pages| {
      var front := pages[..|pages| - 1];
      JoinedGrows(front, n);
      assert front[..n] == pages[..n];
    } else {
      assert pages[..n] == pages;
    }
  }

  /** `query_all`: every page's items in order, or a refusal exactly if they are too many. */
  method QueryAll<T>(pages: seq<seq<T>>, maximum: nat) returns (items: Option<seq<T>>)
    requires pages != []
    ensures items == if |Joined(pages)| <= maximum then Some(Joined(pages)) else None
  {
    var read: seq<T>, cursor := [], 0;
    while true
      invariant 0 <= cursor < |pages| && read == Joined(pages[..cursor]) && |read| <= maximum
      decreases |pages| - cursor
    {
      assert pages[..cursor + 1][..cursor] == pages[..cursor];
      if |read| + |pages[cursor]| > maximum {
        JoinedGrows(pages, cursor + 1);
        return None;
      }
      read := read + pages[cursor];
      cursor := cursor + 1;
      if cursor == |pages| {
        assert pages[..cursor] == pages;
        return Some(read);
      }
    }
  }

  // -------------------------------------------------------------- request bodies

  /** The Content-Length header: absent, not a number, or a number. */
  datatype Declared = Absent | NotANumber | Length(n: int)
  datatype Body = Accepted(bytes: seq<nat>) | BadLength | TooLarge | Mismatch

  /** `_bounded_body`: never more than `maximum` bytes, and what is accepted is the whole stream. */
  method BoundedBody(declared: Declared, chunks: seq<seq<nat>>, maximum: nat) returns (body: Body)
    ensures body.Accepted? ==> body.bytes == Joined(chunks)
    ensures body.Accepted? <==>
      |Joined(chunks)| <= maximum && !declared.NotANumber? && (declared.Length? ==> declared.n == |Joined(chunks)|)
    ensures body.BadLength? <==> declared.NotANumber? || (declared.Length? && declared.n < 0)
    ensures body.Mismatch? ==> declared.Length? && declared.n != |Joined(chunks)| <= maximum
  {
    if declared.NotANumber? || (declared.Length? && declared.n < 0) { return BadLength; }
    if declared.Length? && declared.n > maximum { return TooLarge; }
    var bytes: seq<nat> := [];
    for i := 0 to |chunks|
      invariant bytes == Joined(chunks[..i]) && |bytes| <= maximum
    {
      assert chunks[..i + 1][..i] == chunks[..i];
      if |bytes| + |chunks[i]| > maximum {
        JoinedGrows(chunks, i + 1);
        return TooLarge;
      }
      bytes := bytes + chunks[i];
    }
    assert chunks[..|chunks|] == chunks;
    if declared.Length? && declared.n != |bytes| { return Mismatch; }
    return Accepted(bytes);
  }
}
