/** The two route tables: the gateway's permission rules and the domain's dispatch table are kept
    apart, and have to agree on every path. */
module Routes {

  datatype Option<+T> = None | Some(value: T)
  datatype Method = Get | Post

  datatype Permission =
    | LoanCreate | LoanArchive | LoanRead | DocumentUpload | DocumentArchive | DocumentRead | DataPointsRead

  datatype Word = V1 | Loans | Archive | Archives | Documents | Uploads | Complete | DataPoints | Download

  function Text(w: Word): string {
    match w
    case V1 => "v1"
    case Loans => "loans"
    case Archive => "archive"
    case Archives => "archives"
    case Documents => "documents"
    case Uploads => "uploads"
    case Complete => "complete"
    case DataPoints => "data-points"
    case Download => "download"
  }

  /** One path segment of a pattern: a word, or `[^/]+`. */
  datatype Piece = Lit(word: Word) | Any

  /** A pattern of the dispatch table: `/piece/piece/...`, anchored at both ends. */
  type Pattern = seq<Piece>

  predicate NoSlash(s: string) { forall i :: 0 <= i < |s| ==> s[i] != '/' }

  /** The first `n` characters can be a slash and this piece. */
  predicate Head(piece: Piece, path: string, n: nat) {
    && 1 <= n <= |path| && path[0] == '/'
    && match piece
       case Lit(w) => path[1..n] == Text(w)
       case Any => n > 1 && NoSlash(path[1..n])
  }

  /** The regular expression's own semantics, on characters. */
  ghost predicate Matches(p: Pattern, path: string)
    decreases |p|
  {
    if p == [] then path == ""
    else exists n: nat :: Head(p[0], path, n) && Matches(p[1..], path[n..])
  }

  /** A rule's pattern may hold optional groups, `(?:/piece...)?`. */
  datatype Token = One(piece: Piece) | Maybe(pieces: Pattern)

  function Expand(ts: seq<Token>): (r: seq<Pattern>)
    ensures r != []
    decreases |ts|
  {
    if ts == [] then [[]]
    else
      var rest := Expand(ts[1..]);
      match ts[0]
      case One(piece) => Prefix([piece], rest)
      case Maybe(pieces) => Prefix(pieces, rest) + rest
  }

  function Prefix(pieces: Pattern, rest: seq<Pattern>): (r: seq<Pattern>)
    ensures |r| == |rest| && forall i :: 0 <= i < |rest| ==> r[i] == pieces + rest[i]
  {
    seq(|rest|, i requires 0 <= i < |rest| => pieces + rest[i])
  }

  /** An optional group is there or it is not. */
  ghost predicate MatchesTokens(ts: seq<Token>, path: string) {
    exists p :: p in Expand(ts) && Matches(p, path)
  }

  // -------------------------------------------------------------------- segments

  /** Where the segment that starts at `i` ends. */
  function End(path: string, i: nat): (j: nat)
    requires i <= |path|
    ensures i <= j <= |path| && NoSlash(path[i..j]) && (j < |path| ==> path[j] == '/')
    decreases |path| - i
  {
    if i == |path| || path[i] == '/' then i
    else
      var j := End(path, i + 1);
      assert path[i..j] == [path[i]] + path[i + 1..j];
      j
  }

  /** The segments of a path that starts with a slash. */
  function Cut(path: string): Option<seq<string>>
    decreases |path|
  {
    if path == "" then Some([])
    else if path[0] != '/' then None
    else
      var j := End(path, 1);
      match Cut(path[j..])
      case None => None
      case Some(rest) => Some([path[1..j]] + rest)
  }

  predicate Fits(p: Pattern, segments: seq<string>) {
    if p == [] then segments == []
    else segments != [] && Suits(p[0], segments[0]) && Fits(p[1..], segments[1..])
  }

  predicate Suits(piece: Piece, segment: string) {
    match piece
    case Lit(w) => segment == Text(w)
    case Any => segment != ""
  }

  lemma TextPlain(w: Word)
    ensures NoSlash(Text(w)) && Text(w) != ""
  {
  }

  /** A run without slashes that ends at a slash or at the end of the path is the whole segment. */
  lemma {:induction false} EndUnique(path: string, i: nat, n: nat)
    requires i <= n <= |path| && NoSlash(path[i..n]) && (n < |path| ==> path[n] == '/')
    ensures End(path, i) == n
    decreases n - i
  {
    if i < n {
      assert path[i..n][0] == path[i] && path[i..n][1..] == path[i + 1..n];
      EndUnique(path, i + 1, n);
    }
  }

  lemma RestStarts(p: Pattern, path: string)
    requires Matches(p, path)
    ensures path == "" || path[0] == '/'
  {
  }

  lemma HeadIsSegment(piece: Piece, path: string, n: nat)
    requires Head(piece, path, n) && (n < |path| ==> path[n] == '/')
    ensures End(path, 1) == n && Suits(piece, path[1..n])
  {
    if piece.Lit? { TextPlain(piece.word); }
    EndUnique(path, 1, n);
  }

  lemma SegmentIsHead(piece: Piece, path: string)
    requires path != "" && path[0] == '/' && Suits(piece, path[1..End(path, 1)])
    ensures Head(piece, path, End(path, 1))
  {
  }

  predicate FitsCut(p: Pattern, path: string) {
    Cut(path).Some? && Fits(p, Cut(path).value)
  }

  lemma CutFirst(p: Pattern, path: string)
    requires p != [] && path != "" && path[0] == '/'
    ensures FitsCut(p, path) <==> Suits(p[0], path[1..End(path, 1)]) && FitsCut(p[1..], path[End(path, 1)..])
  {
    var j := End(path, 1);
    if Cut(path[j..]).Some? {
      assert Cut(path).value[0] == path[1..j] && Cut(path).value[1..] == Cut(path[j..]).value;
    }
  }

  lemma FirstPiece(p: Pattern, path: string) returns (n: nat)
    requires p != [] && Matches(p, path)
    ensures Head(p[0], path, n) && Matches(p[1..], path[n..]) && n == End(path, 1)
    ensures path != "" && path[0] == '/' && Suits(p[0], path[1..n])
  {
    n :| Head(p[0], path, n) && Matches(p[1..], path[n..]);
    RestStarts(p[1..], path[n..]);
    HeadIsSegment(p[0], path, n);
  }

  /** Matching characters is the same as fitting the segments. */
  lemma {:induction false} MatchesFits(p: Pattern, path: string)
    ensures Matches(p, path) <==> FitsCut(p, path)
    decreases |p|
  {
    if p != [] && path != "" && path[0] == '/' {
      CutFirst(p, path);
      MatchesFits(p[1..], path[End(path, 1)..]);
      hide FitsCut, Fits;
      if Suits(p[0], path[1..End(path, 1)]) { SegmentIsHead(p[0], path); }
      if Matches(p, path) { var n := FirstPiece(p, path); }
    }
  }

  // ---------------------------------------------------------------------- tables

  datatype Route = Route(method_: Method, pattern: Pattern, permission: Permission)
  datatype Rule = Rule(method_: Method, tokens: seq<Token>, permission: Permission)

  const LOAN: Pattern := [Lit(V1), Lit(Loans), Any]
  const ARCHIVED: Pattern := [Lit(V1), Lit(Loans), Any, Lit(Archives), Any]
  const DOCUMENT: Pattern := [Lit(V1), Lit(Loans), Any, Lit(Documents), Any]
  const DOCUMENT_ARCHIVE: Pattern := [Lit(V1), Lit(Loans), Any, Lit(Documents), Any, Lit(Archives), Any]
  const ARCHIVED_DOCUMENT: Pattern := [Lit(V1), Lit(Loans), Any, Lit(Archives), Any, Lit(Documents), Any]
  const ARCHIVED_DOCUMENT_ARCHIVE: Pattern :=
    [Lit(V1), Lit(Loans), Any, Lit(Archives), Any, Lit(Documents), Any, Lit(Archives), Any]

  const DATA: Pattern := [Lit(DataPoints)]
  const DATA_DOWNLOAD: Pattern := [Lit(DataPoints), Lit(Download)]
  const DOWNLOAD: Pattern := [Lit(Download)]

  /** The domain's dispatch table, in its order. */
  const ROUTES: seq<Route> := [
    Route(Post, [Lit(V1), Lit(Loans)], LoanCreate),
    Route(Post, LOAN + [Lit(Archive)], LoanArchive),
    Route(Get, ARCHIVED_DOCUMENT_ARCHIVE + DATA_DOWNLOAD, DataPointsRead),
    Route(Get, ARCHIVED_DOCUMENT_ARCHIVE + DATA, DataPointsRead),
    Route(Get, ARCHIVED_DOCUMENT_ARCHIVE + DOWNLOAD, DocumentRead),
    Route(Get, ARCHIVED_DOCUMENT_ARCHIVE, DocumentRead),
    Route(Get, ARCHIVED_DOCUMENT + DATA_DOWNLOAD, DataPointsRead),
    Route(Get, ARCHIVED_DOCUMENT + DATA, DataPointsRead),
    Route(Get, ARCHIVED_DOCUMENT + DOWNLOAD, DocumentRead),
    Route(Get, ARCHIVED_DOCUMENT, DocumentRead),
    Route(Get, ARCHIVED, LoanRead),
    Route(Post, LOAN + [Lit(Documents)], DocumentUpload),
    Route(Post, DOCUMENT + [Lit(Uploads)], DocumentUpload),
    Route(Post, DOCUMENT + [Lit(Uploads), Any, Lit(Complete)], DocumentUpload),
    Route(Post, DOCUMENT + [Lit(Archive)], DocumentArchive),
    Route(Get, DOCUMENT_ARCHIVE + DATA_DOWNLOAD, DataPointsRead),
    Route(Get, DOCUMENT_ARCHIVE + DATA, DataPointsRead),
    Route(Get, DOCUMENT_ARCHIVE + DOWNLOAD, DocumentRead),
    Route(Get, DOCUMENT_ARCHIVE, DocumentRead),
    Route(Get, DOCUMENT + DATA_DOWNLOAD, DataPointsRead),
    Route(Get, DOCUMENT + DATA, DataPointsRead),
    Route(Get, DOCUMENT + DOWNLOAD, DocumentRead),
    Route(Get, DOCUMENT, DocumentRead),
    Route(Get, LOAN, LoanRead)]

  const MAYBE_ARCHIVE: Token := Maybe([Lit(Archives), Any])
  const LOAN_TOKENS: seq<Token> := [One(Lit(V1)), One(Lit(Loans)), One(Any)]
  const DOCUMENT_TOKENS: seq<Token> := [One(Lit(Documents)), One(Any)]

  /** The gateway's permission rules, in their order. */
  const RULES: seq<Rule> := [
    Rule(Post, [One(Lit(V1)), One(Lit(Loans))], LoanCreate),
    Rule(Post, LOAN_TOKENS + [One(Lit(Archive))], LoanArchive),
    Rule(Post, LOAN_TOKENS + [One(Lit(Documents))], DocumentUpload),
    Rule(Post, LOAN_TOKENS + DOCUMENT_TOKENS + [One(Lit(Uploads))], DocumentUpload),
    Rule(Post, LOAN_TOKENS + DOCUMENT_TOKENS + [One(Lit(Uploads)), One(Any), One(Lit(Complete))], DocumentUpload),
    Rule(Post, LOAN_TOKENS + DOCUMENT_TOKENS + [One(Lit(Archive))], DocumentArchive),
    Rule(Get, LOAN_TOKENS + [MAYBE_ARCHIVE], LoanRead),
    Rule(Get, LOAN_TOKENS + [MAYBE_ARCHIVE] + DOCUMENT_TOKENS
              + [MAYBE_ARCHIVE, One(Lit(DataPoints)), Maybe([Lit(Download)])], DataPointsRead),
    Rule(Get, LOAN_TOKENS + [MAYBE_ARCHIVE] + DOCUMENT_TOKENS
              + [MAYBE_ARCHIVE, Maybe([Lit(Download)])], DocumentRead)]

  /** `required_permission`: the first rule that matches. */
  ghost function RequiredPermission(rules: seq<Rule>, m: Method, path: string): Option<Permission> {
    if rules == [] then None
    else if rules[0].method_ == m && MatchesTokens(rules[0].tokens, path) then Some(rules[0].permission)
    else RequiredPermission(rules[1..], m, path)
  }

  /** `dispatch_request`: the permission of the first route that matches. */
  ghost function DispatchPermission(routes: seq<Route>, m: Method, path: string): Option<Permission> {
    if routes == [] then None
    else if routes[0].method_ == m && Matches(routes[0].pattern, path) then Some(routes[0].permission)
    else DispatchPermission(routes[1..], m, path)
  }

  // -------------------------------------------------------------- one route at most

  /** Which route a pattern of this method and length is, told by its words. */
  function Place(m: Method, n: nat, at3: Word, at5: Word, at7: Word, at9: Word): nat {
    match m
    case Post =>
      if n == 2 then 0
      else if n == 4 then (if at3 == Archive then 1 else 11)
      else if n == 6 then (if at5 == Uploads then 12 else 14)
      else 13
    case Get =>
      if n == 3 then 23
      else if n == 5 then (if at3 == Archives then 10 else 22)
      else if n == 6 then (if at5 == Download then 21 else 20)
      else if n == 7 then (if at3 == Archives then 9 else if at5 == Archives then 18 else 19)
      else if n == 8 then
        (if at3 == Archives then (if at7 == Download then 8 else 7) else (if at7 == Download then 17 else 16))
      else if n == 9 then (if at3 == Archives then (if at7 == Archives then 5 else 6) else 15)
      else if n == 10 then (if at9 == Download then 4 else 3)
      else 2
  }

  /** The word at an odd place of a pattern; V1 beyond its end. */
  function WordAt(p: Pattern, i: nat): Word {
    if i < |p| && p[i].Lit? then p[i].word else V1
  }

  predicate LitAt(p: Pattern, i: nat) { i < |p| ==> p[i].Lit? }

  predicate WordsAtOdd(p: Pattern) {
    LitAt(p, 3) && LitAt(p, 5) && LitAt(p, 7) && LitAt(p, 9)
  }

  lemma RoutePlace(i: nat)
    requires i < |ROUTES|
    ensures var p := ROUTES[i].pattern;
      Place(ROUTES[i].method_, |p|, WordAt(p, 3), WordAt(p, 5), WordAt(p, 7), WordAt(p, 9)) == i
  {
  }

  lemma RouteWords(i: nat)
    requires i < |ROUTES|
    ensures WordsAtOdd(ROUTES[i].pattern)
  {
  }

  lemma TextInjective(a: Word, b: Word)
    requires Text(a) == Text(b)
    ensures a == b
  {
  }

  lemma {:induction false} FitsAt(p: Pattern, s: seq<string>)
    requires Fits(p, s)
    ensures |p| == |s| && forall i :: 0 <= i < |p| ==> Suits(p[i], s[i])
  {
    if p != [] {
      FitsAt(p[1..], s[1..]);
      forall i | 0 <= i < |p| ensures Suits(p[i], s[i]) {
        if i > 0 { assert p[1..][i - 1] == p[i] && s[1..][i - 1] == s[i]; }
      }
    }
  }

  lemma SameWord(p: Pattern, q: Pattern, s: seq<string>, i: nat)
    requires Fits(p, s) && Fits(q, s) && LitAt(p, i) && LitAt(q, i)
    ensures |p| == |q| && WordAt(p, i) == WordAt(q, i)
  {
    FitsAt(p, s);
    FitsAt(q, s);
    if i < |p| {
      assert Suits(p[i], s[i]) && Suits(q[i], s[i]);
      TextInjective(p[i].word, q[i].word);
    }
  }

  lemma FitsSame(p: Pattern, q: Pattern, path: string)
    requires FitsCut(p, path) && FitsCut(q, path) && WordsAtOdd(p) && WordsAtOdd(q)
    ensures |p| == |q| && WordAt(p, 3) == WordAt(q, 3) && WordAt(p, 5) == WordAt(q, 5)
    ensures WordAt(p, 7) == WordAt(q, 7) && WordAt(p, 9) == WordAt(q, 9)
  {
    var s := Cut(path).value;
    SameWord(p, q, s, 3);
    SameWord(p, q, s, 5);
    SameWord(p, q, s, 7);
    SameWord(p, q, s, 9);
  }

  /** No path matches two routes of one method. */
  lemma OneRoute(i: nat, j: nat, path: string)
    requires i < |ROUTES| && j < |ROUTES| && ROUTES[i].method_ == ROUTES[j].method_
    requires Matches(ROUTES[i].pattern, path) && Matches(ROUTES[j].pattern, path)
    ensures i == j
  {
    var p, q := ROUTES[i].pattern, ROUTES[j].pattern;
    RoutePlace(i);
    RoutePlace(j);
    RouteWords(i);
    RouteWords(j);
    hide *;
    MatchesFits(p, path);
    MatchesFits(q, path);
    FitsSame(p, q, path);
  }

  // ------------------------------------------------------------- the tables agree

  lemma ExpandOne(piece: Piece, ts: seq<Token>)
    ensures Expand([One(piece)] + ts) == Prefix([piece], Expand(ts))
  {
    assert ([One(piece)] + ts)[1..] == ts;
  }

  lemma ExpandMaybe(pieces: Pattern, ts: seq<Token>)
    ensures Expand([Maybe(pieces)] + ts) == Prefix(pieces, Expand(ts)) + Expand(ts)
  {
    assert ([Maybe(pieces)] + ts)[1..] == ts;
  }

  lemma PrefixTwice(a: Pattern, b: Pattern, r: seq<Pattern>)
    ensures Prefix(a, Prefix(b, r)) == Prefix(a + b, r)
  {
    forall i | 0 <= i < |r| ensures Prefix(a, Prefix(b, r))[i] == Prefix(a + b, r)[i] {
      assert a + (b + r[i]) == (a + b) + r[i];
    }
  }

  lemma PrefixBoth(a: Pattern, r: seq<Pattern>, t: seq<Pattern>)
    ensures Prefix(a, r + t) == Prefix(a, r) + Prefix(a, t)
  {
  }

  function Ones(p: Pattern): (ts: seq<Token>)
    ensures |ts| == |p| && forall i :: 0 <= i < |p| ==> ts[i] == One(p[i])
  {
    seq(|p|, i requires 0 <= i < |p| => One(p[i]))
  }

  /** Fixed pieces in front of a pattern come in front of each of its alternatives. */
  lemma {:induction false} ExpandOnes(p: Pattern, ts: seq<Token>)
    ensures Expand(Ones(p) + ts) == Prefix(p, Expand(ts))
    decreases |p|
  {
    if p == [] {
      assert Ones(p) + ts == ts;
      assert forall i :: 0 <= i < |Expand(ts)| ==> p + Expand(ts)[i] == Expand(ts)[i];
      assert Prefix(p, Expand(ts)) == Expand(ts);
    } else {
      assert Ones(p) + ts == [One(p[0])] + (Ones(p[1..]) + ts);
      ExpandOne(p[0], Ones(p[1..]) + ts);
      ExpandOnes(p[1..], ts);
      PrefixTwice([p[0]], p[1..], Expand(ts));
      assert [p[0]] + p[1..] == p;
    }
  }

  const ARCHIVE_PART: Pattern := [Lit(Archives), Any]
  const DOCUMENT_PART: Pattern := [Lit(Documents), Any]

  /** An optional group between two fixed parts gives the alternatives with it, then those without. */
  lemma ExpandAround(a: Pattern, group: Pattern, b: Pattern, ts: seq<Token>)
    ensures Expand(Ones(a) + [Maybe(group)] + Ones(b) + ts) ==
      Prefix(a + group + b, Expand(ts)) + Prefix(a + b, Expand(ts))
  {
    var e := Expand(ts);
    assert Ones(a) + [Maybe(group)] + Ones(b) + ts == Ones(a) + ([Maybe(group)] + (Ones(b) + ts));
    ExpandOnes(a, [Maybe(group)] + (Ones(b) + ts));
    ExpandMaybe(group, Ones(b) + ts);
    ExpandOnes(b, ts);
    PrefixTwice(group, b, e);
    PrefixBoth(a, Prefix(group + b, e), Prefix(b, e));
    PrefixTwice(a, group + b, e);
    PrefixTwice(a, b, e);
    assert a + (group + b) == a + group + b;
  }

  /** The alternatives of a document rule with the given ending. */
  lemma ExpandDocument(ts: seq<Token>)
    ensures Expand(LOAN_TOKENS + [MAYBE_ARCHIVE] + DOCUMENT_TOKENS + ([MAYBE_ARCHIVE] + ts)) ==
      (Prefix(ARCHIVED_DOCUMENT_ARCHIVE, Expand(ts)) + Prefix(ARCHIVED_DOCUMENT, Expand(ts)))
      + (Prefix(DOCUMENT_ARCHIVE, Expand(ts)) + Prefix(DOCUMENT, Expand(ts)))
  {
    var e := Expand(ts);
    assert LOAN_TOKENS == Ones(LOAN) && DOCUMENT_TOKENS == Ones(DOCUMENT_PART);
    ExpandAround(LOAN, ARCHIVE_PART, DOCUMENT_PART, [MAYBE_ARCHIVE] + ts);
    assert LOAN + ARCHIVE_PART + DOCUMENT_PART == ARCHIVED_DOCUMENT && LOAN + DOCUMENT_PART == DOCUMENT;
    ExpandMaybe(ARCHIVE_PART, ts);
    PrefixBoth(ARCHIVED_DOCUMENT, Prefix(ARCHIVE_PART, e), e);
    PrefixBoth(DOCUMENT, Prefix(ARCHIVE_PART, e), e);
    PrefixTwice(ARCHIVED_DOCUMENT, ARCHIVE_PART, e);
    PrefixTwice(DOCUMENT, ARCHIVE_PART, e);
    assert ARCHIVED_DOCUMENT + ARCHIVE_PART == ARCHIVED_DOCUMENT_ARCHIVE;
    assert DOCUMENT + ARCHIVE_PART == DOCUMENT_ARCHIVE;
  }

  lemma ExpandFixed(p: Pattern)
    ensures Expand(Ones(p)) == [p]
  {
    ExpandOnes(p, []);
    assert Ones(p) + [] == Ones(p) && p + [] == p;
    assert Prefix(p, [[]]) == [p];
  }

  /** The rule that speaks for a route. */
  function RuleOf(i: nat): nat {
    if i < 2 then i
    else if i == 10 || i == 23 then 6
    else if 11 <= i <= 14 then i - 9
    else if i == 2 || i == 3 || i == 6 || i == 7 || i == 15 || i == 16 || i == 19 || i == 20 then 7
    else 8
  }

  /** The alternatives of a rule are the patterns of the routes it speaks for. */
  ghost predicate Speaks(k: nat) {
    k < |RULES| && forall p :: p in Expand(RULES[k].tokens) <==>
      exists i :: 0 <= i < |ROUTES| && RuleOf(i) == k && ROUTES[i].pattern == p
  }

  lemma FixedRule(k: nat, i: nat)
    requires k < 6 && i < |ROUTES| && RuleOf(i) == k && RULES[k].tokens == Ones(ROUTES[i].pattern)
    ensures Speaks(k)
  {
    ExpandFixed(ROUTES[i].pattern);
    hide Expand;
    forall p ensures p in Expand(RULES[k].tokens) <==>
      exists j :: 0 <= j < |ROUTES| && RuleOf(j) == k && ROUTES[j].pattern == p
    {
      if p in Expand(RULES[k].tokens) { assert p == ROUTES[i].pattern; }
    }
  }

  lemma PostRules()
    ensures Speaks(0) && Speaks(1) && Speaks(2) && Speaks(3) && Speaks(4) && Speaks(5)
  {
    hide *;
    PostRule(0, 0);
    PostRule(1, 1);
    PostRule(2, 11);
    PostRule(3, 12);
    PostRule(4, 13);
    PostRule(5, 14);
  }

  lemma PostRule(k: nat, i: nat)
    requires (k < 2 && i == k) || (2 <= k < 6 && i == k + 9)
    ensures Speaks(k)
  {
    assert RULES[k].tokens == Ones(ROUTES[i].pattern);
    FixedRule(k, i);
  }

  lemma LoanRule()
    ensures Expand(RULES[6].tokens) == [ROUTES[10].pattern, ROUTES[23].pattern]
  {
    assert RULES[6].tokens == Ones(LOAN) + [Maybe(ARCHIVE_PART)] + Ones([]) + [];
    ExpandAround(LOAN, ARCHIVE_PART, [], []);
    assert LOAN + ARCHIVE_PART + [] + [] == ARCHIVED && LOAN + [] + [] == LOAN;
    assert Prefix(LOAN + ARCHIVE_PART + [], [[]]) == [ARCHIVED];
    assert Prefix(LOAN + [], [[]]) == [LOAN];
  }

  lemma DataRule()
    ensures Expand(RULES[7].tokens) ==
      [ROUTES[2].pattern, ROUTES[3].pattern, ROUTES[6].pattern, ROUTES[7].pattern,
       ROUTES[15].pattern, ROUTES[16].pattern, ROUTES[19].pattern, ROUTES[20].pattern]
  {
    var ts := [One(Lit(DataPoints)), Maybe([Lit(Download)])];
    assert RULES[7].tokens == LOAN_TOKENS + [MAYBE_ARCHIVE] + DOCUMENT_TOKENS + ([MAYBE_ARCHIVE] + ts);
    hide Expand, Prefix;
    ExpandDocument(ts);
    DataEnding();
    forall q: Pattern ensures Prefix(q, [DATA_DOWNLOAD, DATA]) == [q + DATA_DOWNLOAD, q + DATA] {
      PrefixPair(q, DATA_DOWNLOAD, DATA);
    }
  }

  lemma DataEnding()
    ensures Expand([One(Lit(DataPoints)), Maybe([Lit(Download)])]) == [DATA_DOWNLOAD, DATA]
  {
    FileEnding();
    assert [One(Lit(DataPoints)), Maybe([Lit(Download)])] == [One(Lit(DataPoints))] + [Maybe([Lit(Download)])];
    ExpandOne(Lit(DataPoints), [Maybe([Lit(Download)])]);
    assert [Lit(DataPoints)] + DOWNLOAD == DATA_DOWNLOAD && [Lit(DataPoints)] + [] == DATA;
  }

  lemma FileEnding()
    ensures Expand([Maybe([Lit(Download)])]) == [DOWNLOAD, []]
  {
    ExpandMaybe(DOWNLOAD, []);
    assert [Maybe(DOWNLOAD)] + [] == [Maybe([Lit(Download)])];
    assert Prefix(DOWNLOAD, [[]]) == [DOWNLOAD + []] && DOWNLOAD + [] == DOWNLOAD;
  }

  lemma FileRule()
    ensures Expand(RULES[8].tokens) ==
      [ROUTES[4].pattern, ROUTES[5].pattern, ROUTES[8].pattern, ROUTES[9].pattern,
       ROUTES[17].pattern, ROUTES[18].pattern, ROUTES[21].pattern, ROUTES[22].pattern]
  {
    var ts := [Maybe([Lit(Download)])];
    assert RULES[8].tokens == LOAN_TOKENS + [MAYBE_ARCHIVE] + DOCUMENT_TOKENS + ([MAYBE_ARCHIVE] + ts);
    hide Expand, Prefix;
    ExpandDocument(ts);
    FileEnding();
    forall q: Pattern ensures Prefix(q, [DOWNLOAD, []]) == [q + DOWNLOAD, q] {
      PrefixPair(q, DOWNLOAD, []);
      assert q + [] == q;
    }
  }

  lemma PrefixPair(q: Pattern, a: Pattern, b: Pattern)
    ensures Prefix(q, [a, b]) == [q + a, q + b]
  {
  }

  lemma GetRules()
    ensures Speaks(6) && Speaks(7) && Speaks(8)
  {
    hide *;
    LoanSpeaks();
    DataSpeaks();
    FileSpeaks();
  }

  lemma LoanSpeaks()
    ensures Speaks(6)
  {
    LoanRule();
    hide Expand;
  }

  lemma DataSpeaks()
    ensures Speaks(7)
  {
    DataRule();
    hide Expand;
  }

  lemma FileSpeaks()
    ensures Speaks(8)
  {
    FileRule();
    hide Expand;
  }

  lemma SamePermission(i: nat)
    requires i < |ROUTES|
    ensures RuleOf(i) < |RULES| && RULES[RuleOf(i)].method_ == ROUTES[i].method_
            && RULES[RuleOf(i)].permission == ROUTES[i].permission
  {
  }

  lemma AllSpeak(k: nat)
    requires k < |RULES|
    ensures Speaks(k)
  {
    hide Speaks;
    PostRules();
    GetRules();
  }

  /** A rule matches a path exactly when one of its routes does. */
  lemma RuleMatches(k: nat, path: string)
    requires k < |RULES|
    ensures MatchesTokens(RULES[k].tokens, path) <==>
      exists i :: 0 <= i < |ROUTES| && RuleOf(i) == k && Matches(ROUTES[i].pattern, path)
  {
    AllSpeak(k);
    if i :| 0 <= i < |ROUTES| && RuleOf(i) == k && Matches(ROUTES[i].pattern, path) {
      assert ROUTES[i].pattern in Expand(RULES[k].tokens);
    }
    if MatchesTokens(RULES[k].tokens, path) {
      var p :| p in Expand(RULES[k].tokens) && Matches(p, path);
      var i :| 0 <= i < |ROUTES| && RuleOf(i) == k && ROUTES[i].pattern == p;
    }
  }

  lemma {:induction false} OnlyRule(rules: seq<Rule>, m: Method, path: string, k: nat)
    requires k < |rules| && rules[k].method_ == m && MatchesTokens(rules[k].tokens, path)
    requires forall j :: 0 <= j < |rules| && j != k && rules[j].method_ == m ==> !MatchesTokens(rules[j].tokens, path)
    ensures RequiredPermission(rules, m, path) == Some(rules[k].permission)
  {
    if k > 0 {
      assert forall j :: 0 <= j < |rules[1..]| ==> rules[1..][j] == rules[j + 1];
      OnlyRule(rules[1..], m, path, k - 1);
    }
  }

  lemma {:induction false} NoRule(rules: seq<Rule>, m: Method, path: string)
    requires forall j :: 0 <= j < |rules| && rules[j].method_ == m ==> !MatchesTokens(rules[j].tokens, path)
    ensures RequiredPermission(rules, m, path) == None
  {
    if rules != [] {
      assert forall j :: 0 <= j < |rules[1..]| ==> rules[1..][j] == rules[j + 1];
      NoRule(rules[1..], m, path);
    }
  }

  /** The first route that matches, if any does. */
  lemma {:induction false} FirstRoute(routes: seq<Route>, m: Method, path: string)
    ensures match DispatchPermission(routes, m, path)
            case None => forall i :: 0 <= i < |routes| && routes[i].method_ == m ==> !Matches(routes[i].pattern, path)
            case Some(permission) =>
              exists i :: 0 <= i < |routes| && routes[i].method_ == m && Matches(routes[i].pattern, path)
                          && routes[i].permission == permission
  {
    if routes != [] && !(routes[0].method_ == m && Matches(routes[0].pattern, path)) {
      assert forall j :: 0 <= j < |routes[1..]| ==> routes[1..][j] == routes[j + 1];
      FirstRoute(routes[1..], m, path);
    }
  }

  /** The gateway asks for exactly the permission that the domain's own first matching route demands,
      and knows exactly the domain's routes: for every path, and both methods. */
  lemma TablesAgree(m: Method, path: string)
    ensures RequiredPermission(RULES, m, path) == DispatchPermission(ROUTES, m, path)
  {
    hide Matches, MatchesTokens, Expand;
    FirstRoute(ROUTES, m, path);
    if DispatchPermission(ROUTES, m, path).Some? {
      var i :| 0 <= i < |ROUTES| && ROUTES[i].method_ == m && Matches(ROUTES[i].pattern, path)
               && Some(ROUTES[i].permission) == DispatchPermission(ROUTES, m, path);
      SamePermission(i);
      RuleMatches(RuleOf(i), path);
      forall k | 0 <= k < |RULES| && k != RuleOf(i) && RULES[k].method_ == m
        ensures !MatchesTokens(RULES[k].tokens, path)
      {
        OtherRule(m, path, i, k);
      }
      OnlyRule(RULES, m, path, RuleOf(i));
    } else {
      forall k | 0 <= k < |RULES| && RULES[k].method_ == m ensures !MatchesTokens(RULES[k].tokens, path) {
        RuleMatches(k, path);
        forall j | 0 <= j < |ROUTES| && RuleOf(j) == k ensures ROUTES[j].method_ == m { SamePermission(j); }
      }
      NoRule(RULES, m, path);
    }
  }

  lemma OtherRule(m: Method, path: string, i: nat, k: nat)
    requires i < |ROUTES| && ROUTES[i].method_ == m && Matches(ROUTES[i].pattern, path)
    requires k < |RULES| && k != RuleOf(i) && RULES[k].method_ == m
    ensures !MatchesTokens(RULES[k].tokens, path)
  {
    hide Matches, MatchesTokens;
    RuleMatches(k, path);
    forall j | 0 <= j < |ROUTES| && RuleOf(j) == k ensures !Matches(ROUTES[j].pattern, path) {
      SamePermission(j);
      if Matches(ROUTES[j].pattern, path) { OneRoute(i, j, path); }
    }
  }

  // ------------------------------------------------------- the tables in plain words

  /** The path with these segments. */
  function Path(segments: seq<string>): string {
    if segments == [] then "" else "/" + segments[0] + Path(segments[1..])
  }

  /** Something to fill a segment with. */
  predicate Filled(segment: string) { segment != "" && NoSlash(segment) }

  lemma {:induction false} PathMatches(p: Pattern, segments: seq<string>)
    requires Fits(p, segments) && forall i :: 0 <= i < |segments| ==> NoSlash(segments[i])
    ensures Matches(p, Path(segments))
    decreases |p|
  {
    if p != [] {
      var path, n := Path(segments), 1 + |segments[0]|;
      assert path == ("/" + segments[0]) + Path(segments[1..]);
      assert path[1..n] == segments[0] && path[n..] == Path(segments[1..]);
      PathMatches(p[1..], segments[1..]);
      assert Head(p[0], path, n);
    }
  }

  /** The segments fill the pattern one by one. */
  predicate Fills(p: Pattern, segments: seq<string>) {
    |segments| == |p| && forall i :: 0 <= i < |p| ==> Suits(p[i], segments[i]) && NoSlash(segments[i])
  }

  lemma {:induction false} FillsFits(p: Pattern, segments: seq<string>)
    requires Fills(p, segments)
    ensures Fits(p, segments)
    decreases |p|
  {
    if p != [] { FillsFits(p[1..], segments[1..]); }
  }

  lemma PermissionIs(i: nat, segments: seq<string>)
    requires i < |ROUTES| && Fills(ROUTES[i].pattern, segments)
    ensures RequiredPermission(RULES, ROUTES[i].method_, Path(segments)) == Some(ROUTES[i].permission)
  {
    var m, path := ROUTES[i].method_, Path(segments);
    FillsFits(ROUTES[i].pattern, segments);
    PathMatches(ROUTES[i].pattern, segments);
    hide Matches, Fits, Path, MatchesTokens, Fills;
    FirstRoute(ROUTES, m, path);
    TablesAgree(m, path);
    if DispatchPermission(ROUTES, m, path).Some? {
      var j :| 0 <= j < |ROUTES| && ROUTES[j].method_ == m && Matches(ROUTES[j].pattern, path)
               && Some(ROUTES[j].permission) == DispatchPermission(ROUTES, m, path);
      OneRoute(i, j, path);
    }
  }

  lemma LoanFills(loan: string)
    requires Filled(loan)
    ensures Fills(LOAN, ["v1", "loans", loan])
  {
  }

  lemma FillsMore(p: Pattern, s: seq<string>, q: Pattern, t: seq<string>)
    requires Fills(p, s) && Fills(q, t)
    ensures Fills(p + q, s + t)
  {
  }

  lemma WordFills()
    ensures Fills([Lit(Archive)], ["archive"]) && Fills([Lit(Documents)], ["documents"])
    ensures Fills([Lit(Uploads)], ["uploads"]) && Fills([Lit(V1), Lit(Loans)], ["v1", "loans"])
    ensures Fills(DOWNLOAD, ["download"]) && Fills(DATA, ["data-points"])
    ensures Fills(DATA_DOWNLOAD, ["data-points", "download"])
  {
  }

  lemma BelowFills(x: string)
    requires Filled(x)
    ensures Fills([Lit(Documents), Any], ["documents", x]) && Fills([Lit(Archives), Any], ["archives", x])
    ensures Fills([Lit(Uploads), Any, Lit(Complete)], ["uploads", x, "complete"])
  {
  }

  /** The paths of a loan, of one of its archives, and of a document below either. */
  function LoanPath(loan: string): seq<string> { ["v1", "loans", loan] }
  function ArchivePath(loan: string, sequence: string): seq<string> { LoanPath(loan) + ["archives", sequence] }
  function DocumentPath(base: seq<string>, document: string): seq<string> { base + ["documents", document] }
  function VersionPath(base: seq<string>, number: string): seq<string> { base + ["archives", number] }

  lemma BasesFill(loan: string, sequence: string, document: string, number: string)
    requires Filled(loan) && Filled(sequence) && Filled(document) && Filled(number)
    ensures Fills(LOAN, LoanPath(loan)) && Fills(ARCHIVED, ArchivePath(loan, sequence))
    ensures Fills(DOCUMENT, DocumentPath(LoanPath(loan), document))
    ensures Fills(ARCHIVED_DOCUMENT, DocumentPath(ArchivePath(loan, sequence), document))
    ensures Fills(DOCUMENT_ARCHIVE, VersionPath(DocumentPath(LoanPath(loan), document), number))
    ensures Fills(ARCHIVED_DOCUMENT_ARCHIVE, VersionPath(DocumentPath(ArchivePath(loan, sequence), document), number))
  {
    Bases();
    LoanFills(loan);
    BelowFills(sequence);
    BelowFills(document);
    BelowFills(number);
    hide Fills;
    FillsMore(LOAN, LoanPath(loan), [Lit(Archives), Any], ["archives", sequence]);
    FillsMore(LOAN, LoanPath(loan), [Lit(Documents), Any], ["documents", document]);
    FillsMore(ARCHIVED, ArchivePath(loan, sequence), [Lit(Documents), Any], ["documents", document]);
    FillsMore(DOCUMENT, DocumentPath(LoanPath(loan), document), [Lit(Archives), Any], ["archives", number]);
    FillsMore(ARCHIVED_DOCUMENT, DocumentPath(ArchivePath(loan, sequence), document), [Lit(Archives), Any],
              ["archives", number]);
  }

  lemma Bases()
    ensures ARCHIVED == LOAN + [Lit(Archives), Any] && DOCUMENT == LOAN + [Lit(Documents), Any]
    ensures ARCHIVED_DOCUMENT == ARCHIVED + [Lit(Documents), Any]
    ensures DOCUMENT_ARCHIVE == DOCUMENT + [Lit(Archives), Any]
    ensures ARCHIVED_DOCUMENT_ARCHIVE == ARCHIVED_DOCUMENT + [Lit(Archives), Any]
  {
  }

  ghost predicate Needs(m: Method, segments: seq<string>, permission: Permission) {
    RequiredPermission(RULES, m, Path(segments)) == Some(permission)
  }

  /** What a POST needs, path by path. */
  lemma PostPermissions(loan: string, document: string, upload: string)
    requires Filled(loan) && Filled(document) && Filled(upload)
    ensures Needs(Post, ["v1", "loans"], LoanCreate)
    ensures Needs(Post, LoanPath(loan) + ["archive"], LoanArchive)
    ensures Needs(Post, LoanPath(loan) + ["documents"], DocumentUpload)
    ensures Needs(Post, DocumentPath(LoanPath(loan), document) + ["uploads"], DocumentUpload)
    ensures Needs(Post, DocumentPath(LoanPath(loan), document) + ["uploads", upload, "complete"], DocumentUpload)
    ensures Needs(Post, DocumentPath(LoanPath(loan), document) + ["archive"], DocumentArchive)
  {
    BasesFill(loan, loan, document, document);
    hide Fills, RequiredPermission, LoanPath, DocumentPath, Needs;
    LoanPosts(LoanPath(loan));
    DocumentPosts(DocumentPath(LoanPath(loan), document), upload);
  }

  lemma LoanPosts(l: seq<string>)
    requires Fills(LOAN, l)
    ensures Needs(Post, ["v1", "loans"], LoanCreate)
    ensures Needs(Post, l + ["archive"], LoanArchive) && Needs(Post, l + ["documents"], DocumentUpload)
  {
    WordFills();
    hide Fills, RequiredPermission, Path;
    FillsMore(LOAN, l, [Lit(Archive)], ["archive"]);
    FillsMore(LOAN, l, [Lit(Documents)], ["documents"]);
    PermissionIs(0, ["v1", "loans"]);
    PermissionIs(1, l + ["archive"]);
    PermissionIs(11, l + ["documents"]);
  }

  lemma DocumentPosts(d: seq<string>, upload: string)
    requires Fills(DOCUMENT, d) && Filled(upload)
    ensures Needs(Post, d + ["uploads"], DocumentUpload) && Needs(Post, d + ["archive"], DocumentArchive)
    ensures Needs(Post, d + ["uploads", upload, "complete"], DocumentUpload)
  {
    WordFills();
    BelowFills(upload);
    hide Fills, RequiredPermission, Path;
    FillsMore(DOCUMENT, d, [Lit(Uploads)], ["uploads"]);
    FillsMore(DOCUMENT, d, [Lit(Uploads), Any, Lit(Complete)], ["uploads", upload, "complete"]);
    FillsMore(DOCUMENT, d, [Lit(Archive)], ["archive"]);
    PermissionIs(12, d + ["uploads"]);
    PermissionIs(13, d + ["uploads", upload, "complete"]);
    PermissionIs(14, d + ["archive"]);
  }

  /** A document, its file, its data and their download, at one place. */
  ghost predicate ReadsDocument(base: seq<string>) {
    && Needs(Get, base, DocumentRead) && Needs(Get, base + ["download"], DocumentRead)
    && Needs(Get, base + ["data-points"], DataPointsRead)
    && Needs(Get, base + ["data-points", "download"], DataPointsRead)
  }

  lemma DocumentPermissions(p: Pattern, base: seq<string>, i: nat)
    requires Fills(p, base) && 3 <= i < |ROUTES| && ROUTES[i] == Route(Get, p, DocumentRead)
    requires ROUTES[i - 1] == Route(Get, p + DOWNLOAD, DocumentRead)
    requires ROUTES[i - 2] == Route(Get, p + DATA, DataPointsRead)
    requires ROUTES[i - 3] == Route(Get, p + DATA_DOWNLOAD, DataPointsRead)
    ensures ReadsDocument(base)
  {
    WordFills();
    hide Fills, RequiredPermission;
    FillsMore(p, base, DOWNLOAD, ["download"]);
    FillsMore(p, base, DATA, ["data-points"]);
    FillsMore(p, base, DATA_DOWNLOAD, ["data-points", "download"]);
    PermissionIs(i, base);
    PermissionIs(i - 1, base + ["download"]);
    PermissionIs(i - 2, base + ["data-points"]);
    PermissionIs(i - 3, base + ["data-points", "download"]);
  }

  /** What a GET needs, path by path: for a loan and its archives, and for a document wherever it is reached,
      below the loan or one of its archives, at its current version or one of its own archives. */
  lemma GetPermissions(loan: string, sequence: string, document: string, number: string)
    requires Filled(loan) && Filled(sequence) && Filled(document) && Filled(number)
    ensures Needs(Get, LoanPath(loan), LoanRead) && Needs(Get, ArchivePath(loan, sequence), LoanRead)
    ensures ReadsDocument(DocumentPath(LoanPath(loan), document))
    ensures ReadsDocument(VersionPath(DocumentPath(LoanPath(loan), document), number))
    ensures ReadsDocument(DocumentPath(ArchivePath(loan, sequence), document))
    ensures ReadsDocument(VersionPath(DocumentPath(ArchivePath(loan, sequence), document), number))
  {
    BasesFill(loan, sequence, document, number);
    hide Fills, ReadsDocument, RequiredPermission, LoanPath, ArchivePath, DocumentPath, VersionPath;
    PermissionIs(23, LoanPath(loan));
    PermissionIs(10, ArchivePath(loan, sequence));
    DocumentPermissions(DOCUMENT, DocumentPath(LoanPath(loan), document), 22);
    DocumentPermissions(DOCUMENT_ARCHIVE, VersionPath(DocumentPath(LoanPath(loan), document), number), 18);
    DocumentPermissions(ARCHIVED_DOCUMENT, DocumentPath(ArchivePath(loan, sequence), document), 9);
    DocumentPermissions(ARCHIVED_DOCUMENT_ARCHIVE,
                        VersionPath(DocumentPath(ArchivePath(loan, sequence), document), number), 5);
  }
}
