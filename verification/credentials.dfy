/** The federated credential cache of an API replica, and the time limits of what it signs. Times
    are microseconds, settings and grants whole seconds. */
module FederatedCredentials {
  import opened Records

  const SECOND: int := 1_000_000

  datatype Settings = Settings(duration: int, refresh: int, uploadUrl: int, downloadUrl: int)

  function Max(a: int, b: int): int { if a < b then b else a }
  function Min(a: int, b: int): int { if a < b then a else b }

  /** `max_grant_seconds`. */
  function MaxGrant(s: Settings): int { Max(s.uploadUrl, s.downloadUrl) }

  /** The bounds that `Settings.from_env` checks. */
  predicate Accepted(s: Settings) {
    && 900 <= s.duration <= 43200 && 60 <= s.refresh <= 3600 && s.refresh < s.duration - 60
    && 60 <= s.uploadUrl <= 3600 && 30 <= s.downloadUrl <= 900
    && MaxGrant(s) + s.refresh < s.duration
  }

  datatype Credentials = Credentials(key: nat, expiration: int)

  predicate ValidFor(c: Credentials, now: int, seconds: int) {
    c.expiration - now > seconds * SECOND
  }

  datatype Problem = NegativeWindow | WindowInvalid | ExchangeFailed | InsufficientLifetime
  datatype Answer = Granted(credentials: Credentials) | Refused(problem: Problem)

  /** What a call asks for, its two clock reads, and what STS would say if it were asked. */
  datatype Ask = Ask(minimum: int, before: int, now: int, sts: Option<Credentials>)

  function Window(s: Settings, minimum: int): int { Max(minimum, s.refresh) }

  predicate Fresh(cached: Option<Credentials>, now: int, window: int) {
    cached.Some? && ValidFor(cached.value, now, window)
  }

  /** `credentials`: the answer and the cache after it. An exchange that comes back expired fails
      and leaves the cache as it was; one that is too short for the caller empties it. */
  function Obtain(s: Settings, cached: Option<Credentials>, q: Ask): (Answer, Option<Credentials>) {
    var window := Window(s, q.minimum);
    if q.minimum < 0 then (Refused(NegativeWindow), cached)
    else if window >= s.duration - 60 then (Refused(WindowInvalid), cached)
    else if Fresh(cached, q.before, window) || Fresh(cached, q.now, window) then (Granted(cached.value), cached)
    else if q.sts.None? || !ValidFor(q.sts.value, q.now, 0) then (Refused(ExchangeFailed), cached)
    else if !ValidFor(q.sts.value, q.now, q.minimum) then (Refused(InsufficientLifetime), None)
    else (Granted(q.sts.value), q.sts)
  }

  /** More than either window is left at `now`. */
  predicate Outlives(c: Credentials, now: int, minimum: int, refresh: int) {
    c.expiration > now + minimum * SECOND && c.expiration > now + refresh * SECOND
  }

  class AwsFederatedSessionProvider {
    const settings: Settings
    var cached: Option<Credentials>

    constructor (s: Settings)
      ensures settings == s && cached == None
    {
      settings := s;
      cached := None;
    }

    /** The credentials handed out, when any are, outlive the requested window from the clock read
        that decided, and are what the cache now holds. Cached ones are handed out as long as they outlive
        the larger of the two windows at either clock read, whatever STS would say; then STS is asked. */
    method GetCredentials(q: Ask) returns (r: Answer)
      modifies this`cached
      ensures (r, cached) == Obtain(settings, old(cached), q)
      ensures r == Refused(NegativeWindow) <==> q.minimum < 0
      ensures r == Refused(WindowInvalid) <==>
        q.minimum >= 0 && (q.minimum >= settings.duration - 60 || settings.refresh >= settings.duration - 60)
      ensures r in {Refused(NegativeWindow), Refused(WindowInvalid)} ==> cached == old(cached)
      ensures q.minimum >= 0 && q.minimum < settings.duration - 60 && settings.refresh < settings.duration - 60 ==>
        if old(cached).Some? && (Outlives(old(cached).value, q.before, q.minimum, settings.refresh)
                                 || Outlives(old(cached).value, q.now, q.minimum, settings.refresh)) then
          r == Granted(old(cached).value) && cached == old(cached)
        else if q.sts.None? || q.sts.value.expiration <= q.now then
          r == Refused(ExchangeFailed) && cached == old(cached)
        else if q.sts.value.expiration <= q.now + q.minimum * SECOND then
          r == Refused(InsufficientLifetime) && cached == None
        else r == Granted(q.sts.value) && cached == q.sts
      ensures r.Granted? ==> cached == Some(r.credentials)
      ensures r.Granted? ==>
        ValidFor(r.credentials, q.before, q.minimum) || ValidFor(r.credentials, q.now, q.minimum)
      ensures r.Granted? && q.before <= q.now ==> ValidFor(r.credentials, q.before, q.minimum)
    {
      if q.minimum < 0 { return Refused(NegativeWindow); }
      var window := Max(q.minimum, settings.refresh);
      if window >= settings.duration - 60 { return Refused(WindowInvalid); }
      if cached.Some? && ValidFor(cached.value, q.before, window) { return Granted(cached.value); }
      if cached.Some? && ValidFor(cached.value, q.now, window) { return Granted(cached.value); }
      if q.sts.None? || !ValidFor(q.sts.value, q.now, 0) { return Refused(ExchangeFailed); }
      cached := q.sts;
      if !ValidFor(cached.value, q.now, q.minimum) {
        cached := None;
        return Refused(InsufficientLifetime);
      }
      return Granted(cached.value);
    }

    method Clear()
      modifies this`cached
      ensures cached == None
    {
      cached := None;
    }
  }

  // ------------------------------------------------------------------- grants

  /** Python's `int(x / 1e6)` on microseconds: towards zero. */
  function WholeSeconds(x: int): (s: int)
    ensures x >= 0 ==> s * SECOND <= x < (s + 1) * SECOND
    ensures x < 0 ==> s <= 0
  {
    if x >= 0 then x / SECOND else -((-x) / SECOND)
  }

  datatype Grant = Signed(seconds: int) | NotConfigured | Expiring

  /** `effective_grant_seconds` with the expiry that the session was bound with. */
  function EffectiveGrant(configured: int, expiry: int, now: int): Grant {
    if configured < 1 then NotConfigured
    else
      var remaining := WholeSeconds(expiry - now) - 30;
      if remaining < 30 then Expiring else Signed(Min(configured, remaining))
  }

  // --------------------------------------------------------------- over a run

  /** One product request of a replica, all under the domain lock: it obtains a session and then
      signs grants at the given times. */
  datatype Event = Request(ask: Ask, grants: seq<(int, int)>) | Cleared

  function After(s: Settings, cached: Option<Credentials>, e: Event): Option<Credentials> {
    match e
    case Request(ask, _) => Obtain(s, cached, ask).1
    case Cleared => None
  }

  function CacheAt(s: Settings, es: seq<Event>, i: nat): Option<Credentials>
    requires i <= |es|
  {
    if i == 0 then None else After(s, CacheAt(s, es, i - 1), es[i - 1])
  }

  function AnswerAt(s: Settings, es: seq<Event>, i: nat): Answer
    requires i < |es| && es[i].Request?
  {
    Obtain(s, CacheAt(s, es, i), es[i].ask).0
  }

  function MinimumLifetime(s: Settings): int { MaxGrant(s) + s.refresh }

  /** Requests one after the other on a clock that never goes back, asking for the minimum lifetime
      that the gateway asks for, and signing grants for configured durations after they have it. */
  predicate Schedule(s: Settings, es: seq<Event>) {
    forall i :: 0 <= i < |es| && es[i].Request? ==>
      && es[i].ask.before <= es[i].ask.now
      && es[i].ask.minimum == MinimumLifetime(s)
      && (forall k :: 0 <= k < |es[i].grants| ==>
            es[i].ask.now <= es[i].grants[k].1
            && (es[i].grants[k].0 == s.uploadUrl || es[i].grants[k].0 == s.downloadUrl))
      && (forall j :: i < j < |es| && es[j].Request? ==> es[i].ask.now <= es[j].ask.before)
  }

  /** Request `j` got what the cache holds before event `i`, and nothing has touched it since. */
  predicate Origin(s: Settings, es: seq<Event>, i: nat, j: nat)
    requires i <= |es|
  {
    && j < i && es[j].Request? && es[j].ask.sts == CacheAt(s, es, i)
    && (forall k :: j < k < i ==> CacheAt(s, es, k) == CacheAt(s, es, i) && !es[k].Cleared?)
  }

  /** The cache holds nothing, or credentials that an earlier request got from STS and that nothing
      has cleared or replaced since. */
  lemma {:induction false} CacheOrigin(s: Settings, es: seq<Event>, i: nat)
    requires i <= |es|
    ensures CacheAt(s, es, i).Some? ==> exists j: nat :: Origin(s, es, i, j)
  {
    if i > 0 && CacheAt(s, es, i).Some? {
      CacheOrigin(s, es, i - 1);
      if CacheAt(s, es, i) == CacheAt(s, es, i - 1) {
        var j: nat :| Origin(s, es, i - 1, j);
        assert Origin(s, es, i, j);
      } else {
        assert Origin(s, es, i, i - 1);
      }
    }
  }

  /** The cache works: once a request has been answered, every later one gets the same credentials, without
      another exchange and even if STS fails, as long as nothing clears them and more than the window is left. */
  lemma {:induction false} ServedFromCache(s: Settings, es: seq<Event>, i: nat, j: nat)
    requires Accepted(s) && Schedule(s, es) && i < j < |es| && es[i].Request? && es[j].Request?
    requires AnswerAt(s, es, i).Granted? && forall k :: i < k < j ==> !es[k].Cleared?
    requires var c := AnswerAt(s, es, i).credentials;
      c.expiration > es[j].ask.before + MinimumLifetime(s) * SECOND
    ensures AnswerAt(s, es, j) == AnswerAt(s, es, i)
    ensures CacheAt(s, es, j) == Some(AnswerAt(s, es, i).credentials) == CacheAt(s, es, j + 1)
  {
    var c := AnswerAt(s, es, i).credentials;
    StaysCached(s, es, i, j, c);
    assert ValidFor(c, es[j].ask.before, Window(s, es[j].ask.minimum));
  }

  lemma {:induction false} StaysCached(s: Settings, es: seq<Event>, i: nat, k: nat, c: Credentials)
    requires Accepted(s) && Schedule(s, es) && i < k < |es| && es[i].Request?
    requires AnswerAt(s, es, i) == Granted(c) && forall x :: i < x < k ==> !es[x].Cleared?
    requires exists j :: k <= j < |es| && es[j].Request? && c.expiration > es[j].ask.before + MinimumLifetime(s) * SECOND
    ensures CacheAt(s, es, k) == Some(c)
  {
    if k > i + 1 {
      StaysCached(s, es, i, k - 1, c);
      var j :| k <= j < |es| && es[j].Request? && c.expiration > es[j].ask.before + MinimumLifetime(s) * SECOND;
      var q := es[k - 1].ask;
      assert q.before <= q.now <= es[j].ask.before;
      assert ValidFor(c, q.before, Window(s, q.minimum));
    }
  }

  /** A grant is signed exactly if it is configured and a minute is left, for its configured length or for
      all whole seconds but thirty that are left, whichever is less. */
  lemma GrantExactly(configured: int, expiry: int, now: int)
    ensures var g := EffectiveGrant(configured, expiry, now);
      && (g == NotConfigured <==> configured < 1)
      && (g.Signed? <==> configured >= 1 && expiry >= now + 60 * SECOND)
      && (g.Signed? ==>
            && now + g.seconds * SECOND + 30 * SECOND <= expiry && g.seconds <= configured
            && (g.seconds == configured || expiry < now + (g.seconds + 1) * SECOND + 30 * SECOND))
  {
  }

  /** Grant safety: whatever a request signs, during any run, ends at least 30 s before the
      credentials that sign it expire; and until refresh - 30 s after it got them, every grant has
      its full configured length. */
  lemma GrantSafety(s: Settings, es: seq<Event>, i: nat, k: nat)
    requires Accepted(s) && Schedule(s, es) && i < |es| && es[i].Request?
    requires AnswerAt(s, es, i).Granted? && k < |es[i].grants|
    ensures var expiry := AnswerAt(s, es, i).credentials.expiration;
      var (configured, at) := es[i].grants[k];
      var g := EffectiveGrant(configured, expiry, at);
      && ValidFor(AnswerAt(s, es, i).credentials, es[i].ask.before, MinimumLifetime(s))
      && (g.Signed? ==> 30 <= g.seconds <= configured && at + g.seconds * SECOND + 30 * SECOND <= expiry)
      && (at <= es[i].ask.before + (s.refresh - 30) * SECOND ==> g == Signed(configured))
  {
    var q := es[i].ask;
    var c := AnswerAt(s, es, i).credentials;
    var (configured, at) := es[i].grants[k];
    assert ValidFor(c, q.before, q.minimum);
    if at <= q.before + (s.refresh - 30) * SECOND {
      EnoughLeft(c.expiration - at, MaxGrant(s) + 30);
    }
  }

  lemma EnoughLeft(x: int, seconds: int)
    requires x >= seconds * SECOND && seconds >= 0
    ensures WholeSeconds(x) >= seconds
  {
  }

  // --------------------------------------------------- settings and the provider

  /** Settings that are accepted can still be settings under which the provider refuses every
      product request: exactly those whose grant and refresh windows come within a minute of the
      session duration. */
  lemma AcceptedButRefused(s: Settings, es: seq<Event>, i: nat)
    requires Accepted(s) && Schedule(s, es) && i < |es| && es[i].Request?
    ensures AnswerAt(s, es, i) == Refused(WindowInvalid) <==> MinimumLifetime(s) >= s.duration - 60
  {
  }

  lemma AcceptedButRefusedExample()
    ensures var s := Settings(900, 240, 600, 120);
      Accepted(s) && forall cached, q: Ask :: q.minimum == MinimumLifetime(s) ==>
                       Obtain(s, cached, q) == (Refused(WindowInvalid), cached)
  {
  }

  /** Below that, a request is refused only if STS does not deliver: long enough credentials are
      always handed on. */
  lemma ServedOtherwise(s: Settings, cached: Option<Credentials>, q: Ask)
    requires Accepted(s) && MinimumLifetime(s) < s.duration - 60 && q.minimum == MinimumLifetime(s)
    requires q.sts.Some? && ValidFor(q.sts.value, q.now, q.minimum)
    ensures Obtain(s, cached, q).0.Granted?
  {
  }
}
