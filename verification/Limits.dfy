/** Connection admission and per-source accounting. Times are in milliseconds. */
module Limits {
  import opened Basics

  datatype Limits = Limits(
    maxClonesPerIp: nat, maxClients: nat, maxConnects: nat, connectWindow: nat,
    maxMessages: nat, messageWindow: nat, maxViolations: nat)

  datatype Refusal = TooManyClones | ConnectingTooFast | ServerFull

  datatype Verdict = Admitted | Refused(why: Refusal)

  datatype Source = Source(active: nat, connects: seq<nat>, messages: seq<nat>, violations: nat)

  const Blank := Source(0, [], [], 0)

  datatype Table = Table(sources: map<string, Source>, total: nat)

  const Empty := Table(map[], 0)

  /** How long `release` keeps connect times, whatever window admission uses. */
  const Retention := 60_000

  function Entry(t: Table, key: string): Source {
    if key in t.sources then t.sources[key] else Blank
  }

  /** The times still inside a window that ends now. */
  function Recent(ts: seq<nat>, now: nat, window: nat): seq<nat> {
    if ts == [] then []
    else
      var rest := Recent(ts[..|ts|-1], now, window);
      if Since(now, ts[|ts|-1]) < window then rest + [ts[|ts|-1]] else rest
  }

  function TryAdmit(t: Table, l: Limits, key: string, exempt: bool, now: nat): (Table, Verdict) {
    if exempt then
      var e := Entry(t, key);
      (t.(sources := t.sources[key := e.(active := e.active + 1)]), Admitted)
    else if l.maxClients > 0 && t.total >= l.maxClients then (t, Refused(ServerFull))
    else
      var e := Entry(t, key).(connects := Recent(Entry(t, key).connects, now, l.connectWindow));
      var pruned := t.(sources := t.sources[key := e]);
      if l.maxClonesPerIp > 0 && e.active >= l.maxClonesPerIp then (pruned, Refused(TooManyClones))
      else if l.maxConnects > 0 && |e.connects| >= l.maxConnects then (pruned, Refused(ConnectingTooFast))
      else
        (Table(t.sources[key := e.(connects := e.connects + [now], active := e.active + 1)], t.total + 1), Admitted)
  }

  /** `saturating_sub(1)`. */
  function Less(n: nat): nat {
    if n == 0 then 0 else n - 1
  }

  function Release(t: Table, key: string, exempt: bool, now: nat): Table {
    if key !in t.sources then t
    else
      var e := t.sources[key];
      var e' := e.(active := Less(e.active), connects := Recent(e.connects, now, Retention));
      var total := if exempt then t.total else Less(t.total);
      if e'.active == 0 && e'.connects == [] then Table(t.sources - {key}, total)
      else Table(t.sources[key := e'], total)
  }

  /** The new table, and whether the message is accepted, dropped, or ends the connection. */
  datatype Charge = Within | Dropped | Close

  function ChargeMessage(t: Table, l: Limits, key: string, exempt: bool, now: nat): (Table, Charge) {
    if exempt || l.maxMessages == 0 then (t, Within)
    else
      var e := Entry(t, key).(messages := Recent(Entry(t, key).messages, now, l.messageWindow));
      if |e.messages| >= l.maxMessages then
        var e' := e.(violations := e.violations + 1);
        (t.(sources := t.sources[key := e']),
         if l.maxViolations > 0 && e'.violations >= l.maxViolations then Close else Dropped)
      else (t.(sources := t.sources[key := e.(messages := e.messages + [now])]), Within)
  }

  // ---- runs ----

  datatype Event =
    | Arrive(key: string, exempt: bool)
    | Leave(key: string, exempt: bool)
    | Message(key: string, exempt: bool)

  /**
   * The table with what it should account for: the slots held, by key, and the times of
   * every non-exempt admission and of every accepted message.
   */
  datatype Book = Book(
    table: Table, held: multiset<string>, exempt: multiset<string>,
    admits: map<string, seq<nat>>, accepted: map<string, seq<nat>>)

  const Start := Book(Empty, multiset{}, multiset{}, map[], map[])

  function Times(m: map<string, seq<nat>>, key: string): seq<nat> {
    if key in m then m[key] else []
  }

  function Do(b: Book, l: Limits, now: nat, e: Event): Book {
    match e
    case Arrive(key, exempt) =>
      var (t, v) := TryAdmit(b.table, l, key, exempt, now);
      if v.Refused? then b.(table := t)
      else if exempt then b.(table := t, exempt := b.exempt + multiset{key})
      else b.(table := t, held := b.held + multiset{key}, admits := b.admits[key := Times(b.admits, key) + [now]])
    case Leave(key, exempt) =>
      var t := Release(b.table, key, exempt, now);
      if exempt then b.(table := t, exempt := b.exempt - multiset{key})
      else b.(table := t, held := b.held - multiset{key})
    case Message(key, exempt) =>
      var (t, c) := ChargeMessage(b.table, l, key, exempt, now);
      if c.Within? && !exempt && l.maxMessages > 0
      then b.(table := t, accepted := b.accepted[key := Times(b.accepted, key) + [now]])
      else b.(table := t)
  }

  function Run(l: Limits, es: seq<(nat, Event)>): Book {
    if es == [] then Start else Do(Run(l, es[..|es|-1]), l, es[|es|-1].0, es[|es|-1].1)
  }

  /** Each release returns a slot that is held, with the key and flag it was admitted under. */
  predicate Matched(b: Book, e: Event) {
    e.Leave? ==> e.key in if e.exempt then b.exempt else b.held
  }

  ghost predicate MatchedRun(l: Limits, es: seq<(nat, Event)>) {
    forall i :: 0 <= i < |es| ==> Matched(Run(l, es[..i]), es[i].1)
  }

  ghost predicate Timely(es: seq<(nat, Event)>) {
    forall i, j :: 0 <= i < j < |es| ==> es[i].0 <= es[j].0
  }

  // ---- slot conservation ----

  ghost predicate Conserved(b: Book) {
    && b.table.total == |b.held|
    && forall key :: Entry(b.table, key).active == b.held[key] + b.exempt[key]
  }

  ghost predicate WithinCaps(b: Book, l: Limits) {
    && (l.maxClients > 0 ==> |b.held| <= l.maxClients)
    && (l.maxClonesPerIp > 0 ==> forall key :: b.held[key] <= l.maxClonesPerIp)
  }

  /** The subtractions of `release` never saturate. */
  lemma ReleaseExact(b: Book, e: Event)
    requires Conserved(b) && e.Leave? && Matched(b, e)
    ensures e.key in b.table.sources && b.table.sources[e.key].active > 0
    ensures !e.exempt ==> b.table.total > 0
  {
    assert Entry(b.table, e.key).active > 0;
    if !e.exempt {
      assert b.held == (b.held - multiset{e.key}) + multiset{e.key};
    }
  }

  lemma ArriveConserves(b: Book, l: Limits, now: nat, e: Event)
    requires Conserved(b) && WithinCaps(b, l) && e.Arrive?
    ensures Conserved(Do(b, l, now, e)) && WithinCaps(Do(b, l, now, e), l)
  {
    hide Recent;
  }

  lemma MultisetTake(m: multiset<string>, key: string)
    requires key in m
    ensures |m - multiset{key}| == |m| - 1
    ensures forall k :: (m - multiset{key})[k] == if k == key then m[k] - 1 else m[k]
  {
    assert m == (m - multiset{key}) + multiset{key};
  }

  /** What a release does to each source's counter, however it treats the entry itself. */
  lemma ReleasedActive(t: Table, key: string, exempt: bool, now: nat, k: string)
    requires key in t.sources && t.sources[key].active > 0
    ensures Entry(Release(t, key, exempt, now), k).active == Entry(t, k).active - if k == key then 1 else 0
  {
    hide Recent;
  }

  lemma ReleasedTotal(t: Table, key: string, exempt: bool, now: nat)
    requires key in t.sources && (exempt || t.total > 0)
    ensures Release(t, key, exempt, now).total == t.total - if exempt then 0 else 1
  {
    hide Recent;
  }

  lemma LeaveConserves(b: Book, l: Limits, now: nat, e: Event)
    requires Conserved(b) && WithinCaps(b, l) && e.Leave? && Matched(b, e)
    ensures Conserved(Do(b, l, now, e)) && WithinCaps(Do(b, l, now, e), l)
  {
    hide Recent, Release;
    ReleaseExact(b, e);
    ReleasedTotal(b.table, e.key, e.exempt, now);
    MultisetTake(if e.exempt then b.exempt else b.held, e.key);
    var b' := Do(b, l, now, e);
    forall k ensures Entry(b'.table, k).active == b'.held[k] + b'.exempt[k] {
      ReleasedActive(b.table, e.key, e.exempt, now, k);
    }
  }

  lemma DoConserves(b: Book, l: Limits, now: nat, e: Event)
    requires Conserved(b) && WithinCaps(b, l) && Matched(b, e)
    ensures Conserved(Do(b, l, now, e)) && WithinCaps(Do(b, l, now, e), l)
  {
    hide Recent;
    if e.Arrive? {
      ArriveConserves(b, l, now, e);
    } else if e.Leave? {
      LeaveConserves(b, l, now, e);
    }
  }

  /**
   * Over every run of matched calls the counters are exactly the slots held, and neither
   * the global ceiling nor the clone cap is ever exceeded by non-exempt slots.
   */
  lemma {:induction false} SlotsConserved(l: Limits, es: seq<(nat, Event)>)
    requires MatchedRun(l, es)
    ensures Conserved(Run(l, es)) && WithinCaps(Run(l, es), l)
    decreases |es|
  {
    if es != [] {
      var k := |es| - 1;
      forall i | 0 <= i < k ensures Matched(Run(l, es[..k][..i]), es[..k][i].1) {
        assert es[..k][..i] == es[..i];
      }
      SlotsConserved(l, es[..k]);
      DoConserves(Run(l, es[..k]), l, es[k].0, es[k].1);
    }
  }

  // ---- the sliding window ----

  /** How many of the times lie in the window of length `w` that ends at `end`. */
  function InWindow(ts: seq<nat>, end: nat, w: nat): nat {
    if ts == [] then 0
    else
      var t := ts[|ts|-1];
      InWindow(ts[..|ts|-1], end, w) + if t <= end && end - t < w then 1 else 0
  }

  lemma {:induction false} RecentOfRecent(ts: seq<nat>, n1: nat, w1: nat, n2: nat, w2: nat)
    requires n1 <= n2 && w2 <= w1
    ensures Recent(Recent(ts, n1, w1), n2, w2) == Recent(ts, n2, w2)
    decreases |ts|
  {
    if ts != [] {
      var init, t := ts[..|ts|-1], ts[|ts|-1];
      RecentOfRecent(init, n1, w1, n2, w2);
      var r := Recent(init, n1, w1);
      if Since(n1, t) < w1 {
        assert (r + [t])[..|r|] == r;
      }
    }
  }

  lemma {:induction false} InWindowAtMostRecent(ts: seq<nat>, now: nat, end: nat, w: nat)
    requires now <= end
    ensures InWindow(ts, end, w) <= |Recent(ts, now, w)|
    decreases |ts|
  {
    if ts != [] {
      InWindowAtMostRecent(ts[..|ts|-1], now, end, w);
    }
  }

  /** The kept times agree, within the window, with everything that was ever counted. */
  ghost predicate Tracks(kept: seq<nat>, all: seq<nat>, now: nat, w: nat) {
    Recent(kept, now, w) == Recent(all, now, w)
  }

  ghost predicate Bounded(all: seq<nat>, w: nat, max: nat) {
    forall end :: InWindow(all, end, w) <= max
  }

  lemma TracksLater(kept: seq<nat>, all: seq<nat>, n1: nat, n2: nat, w: nat)
    requires Tracks(kept, all, n1, w) && n1 <= n2
    ensures Tracks(kept, all, n2, w)
  {
    RecentOfRecent(kept, n1, w, n2, w);
    RecentOfRecent(all, n1, w, n2, w);
  }

  lemma TracksPruned(kept: seq<nat>, all: seq<nat>, now: nat, wide: nat, w: nat)
    requires Tracks(kept, all, now, w) && w <= wide
    ensures Tracks(Recent(kept, now, wide), all, now, w)
  {
    RecentOfRecent(kept, now, wide, now, w);
  }

  lemma TracksPushed(kept: seq<nat>, all: seq<nat>, now: nat, w: nat)
    requires Tracks(kept, all, now, w)
    ensures Tracks(kept + [now], all + [now], now, w)
  {
    assert (kept + [now])[..|kept|] == kept && (all + [now])[..|all|] == all;
  }

  lemma BoundedPushed(all: seq<nat>, now: nat, w: nat, max: nat)
    requires Bounded(all, w, max) && |Recent(all, now, w)| < max
    ensures Bounded(all + [now], w, max)
  {
    assert (all + [now])[..|all|] == all;
    forall end ensures InWindow(all + [now], end, w) <= max {
      if now <= end {
        InWindowAtMostRecent(all, now, end, w);
      }
    }
  }

  ghost predicate ConnectsTracked(b: Book, l: Limits, now: nat) {
    forall key :: Tracks(Entry(b.table, key).connects, Times(b.admits, key), now, l.connectWindow)
  }

  ghost predicate ConnectsBounded(b: Book, l: Limits) {
    forall key :: Bounded(Times(b.admits, key), l.connectWindow, l.maxConnects)
  }

  /** A release prunes one source's connect times to the retention period, dropped entry or not. */
  lemma ReleasedConnects(t: Table, key: string, exempt: bool, now: nat, k: string)
    ensures Entry(Release(t, key, exempt, now), k).connects
         == if k == key then Recent(Entry(t, k).connects, now, Retention) else Entry(t, k).connects
  {
  }

  lemma AdmittedConnects(t: Table, l: Limits, key: string, exempt: bool, now: nat, k: string)
    ensures var (t', v) := TryAdmit(t, l, key, exempt, now);
      var kept := Entry(t, k).connects;
      Entry(t', k).connects ==
        if k != key || exempt || v == Refused(ServerFull) then kept
        else if v.Admitted? then Recent(kept, now, l.connectWindow) + [now]
        else Recent(kept, now, l.connectWindow)
  {
    hide Recent;
  }

  lemma ChargedConnects(t: Table, l: Limits, key: string, exempt: bool, now: nat, k: string)
    ensures Entry(ChargeMessage(t, l, key, exempt, now).0, k).connects == Entry(t, k).connects
  {
    hide Recent;
  }

  lemma DoTracks(b: Book, l: Limits, now: nat, e: Event, key: string)
    requires ConnectsTracked(b, l, now) && l.connectWindow <= Retention
    ensures Tracks(Entry(Do(b, l, now, e).table, key).connects, Times(Do(b, l, now, e).admits, key), now, l.connectWindow)
  {
    hide Recent, Tracks, TryAdmit, Release, ChargeMessage;
    var w := l.connectWindow;
    var kept, all := Entry(b.table, key).connects, Times(b.admits, key);
    assert Tracks(kept, all, now, w);
    TracksPruned(kept, all, now, w, w);
    TracksPruned(kept, all, now, Retention, w);
    TracksPushed(Recent(kept, now, w), all, now, w);
    match e
    case Arrive(k, exempt) => AdmittedConnects(b.table, l, k, exempt, now, key);
    case Leave(k, exempt) => ReleasedConnects(b.table, k, exempt, now, key);
    case Message(k, exempt) => ChargedConnects(b.table, l, k, exempt, now, key);
  }

  lemma DoBounds(b: Book, l: Limits, now: nat, e: Event, key: string)
    requires ConnectsTracked(b, l, now) && ConnectsBounded(b, l) && l.maxConnects > 0
    ensures Bounded(Times(Do(b, l, now, e).admits, key), l.connectWindow, l.maxConnects)
  {
    hide Recent, Bounded;
    var kept, all := Entry(b.table, key).connects, Times(b.admits, key);
    assert Bounded(all, l.connectWindow, l.maxConnects) && Tracks(kept, all, now, l.connectWindow);
    if |Recent(all, now, l.connectWindow)| < l.maxConnects {
      BoundedPushed(all, now, l.connectWindow, l.maxConnects);
    }
  }

  lemma {:induction false} ConnectsHold(l: Limits, es: seq<(nat, Event)>, now: nat)
    requires Timely(es) && l.connectWindow <= Retention && (es != [] ==> es[|es|-1].0 <= now)
    ensures ConnectsTracked(Run(l, es), l, now)
    ensures l.maxConnects > 0 ==> ConnectsBounded(Run(l, es), l)
    decreases |es|
  {
    if es != [] {
      var k := |es| - 1;
      var b, t := Run(l, es[..k]), es[k].0;
      ConnectsHold(l, es[..k], t);
      forall key ensures Tracks(Entry(Run(l, es).table, key).connects, Times(Run(l, es).admits, key), now, l.connectWindow) {
        DoTracks(b, l, t, es[k].1, key);
        TracksLater(Entry(Run(l, es).table, key).connects, Times(Run(l, es).admits, key), t, now, l.connectWindow);
      }
      if l.maxConnects > 0 {
        forall key ensures Bounded(Times(Run(l, es).admits, key), l.connectWindow, l.maxConnects) {
          DoBounds(b, l, t, es[k].1, key);
        }
      }
    }
  }

  /**
   * Over every run with a clock that does not go back, no window of the configured length
   * holds more than the permitted number of non-exempt admissions of one source, although
   * releases prune and drop entries in between.
   */
  lemma AdmissionWindow(l: Limits, es: seq<(nat, Event)>, key: string, end: nat)
    requires Timely(es) && l.connectWindow <= Retention && l.maxConnects > 0
    ensures InWindow(Times(Run(l, es).admits, key), end, l.connectWindow) <= l.maxConnects
  {
    ConnectsHold(l, es, if es == [] then 0 else es[|es|-1].0);
    assert Bounded(Times(Run(l, es).admits, key), l.connectWindow, l.maxConnects);
  }

  ghost predicate AlwaysBounded(l: Limits) {
    forall es, key, end :: Timely(es) ==> InWindow(Times(Run(l, es).admits, key), end, l.connectWindow) <= l.maxConnects
  }

  /** The same over the runs in which every release returns a slot that is held. */
  ghost predicate AlwaysBoundedMatched(l: Limits) {
    forall es, key, end :: Timely(es) && MatchedRun(l, es) ==>
      InWindow(Times(Run(l, es).admits, key), end, l.connectWindow) <= l.maxConnects
  }

  /** A source that connects and leaves `n` times at once. */
  function Rounds(n: nat): seq<(nat, Event)> {
    if n == 0 then [] else Rounds(n - 1) + [(0, Arrive("a", false)), (0, Leave("a", false))]
  }

  /** ... then stays connected for the retention period, leaves, and comes straight back. */
  function ComeBack(n: nat): seq<(nat, Event)> {
    Rounds(n) + [(0, Arrive("a", false)), (Retention, Leave("a", false)), (Retention, Arrive("a", false))]
  }

  function Zeros(n: nat): seq<nat> {
    if n == 0 then [] else Zeros(n - 1) + [0]
  }

  lemma RunSnoc(l: Limits, es: seq<(nat, Event)>, now: nat, e: Event)
    ensures Run(l, es + [(now, e)]) == Do(Run(l, es), l, now, e)
  {
    assert (es + [(now, e)])[..|es|] == es;
  }

  lemma {:induction false} ZerosFacts(n: nat, w: nat)
    requires w > Retention
    ensures |Zeros(n)| == n && Recent(Zeros(n), 0, w) == Zeros(n) && Recent(Zeros(n), 0, Retention) == Zeros(n)
    ensures Recent(Zeros(n), Retention, Retention) == [] && InWindow(Zeros(n), Retention, w) == n
    decreases n
  {
    if n > 0 {
      ZerosFacts(n - 1, w);
      assert Zeros(n)[..n-1] == Zeros(n - 1);
    }
  }

  /** After `n` rounds nothing is held, and the entry remembers `n` connects. */
  ghost predicate Idle(b: Book, n: nat) {
    && b.table.total == 0 && Entry(b.table, "a").active == 0
    && Entry(b.table, "a").connects == Zeros(n) && Times(b.admits, "a") == Zeros(n)
  }

  lemma OneMoreRound(b: Book, l: Limits, n: nat)
    requires Idle(b, n) && n < l.maxConnects && l.connectWindow > Retention
    ensures Idle(Do(Do(b, l, 0, Arrive("a", false)), l, 0, Leave("a", false)), n + 1)
    ensures "a" in Do(b, l, 0, Arrive("a", false)).held
  {
    hide Recent, Zeros;
    ZerosFacts(n, l.connectWindow);
    ZerosFacts(n + 1, l.connectWindow);
    ZerosSnoc(n);
  }

  lemma ZerosSnoc(n: nat)
    ensures Zeros(n + 1) == Zeros(n) + [0]
  {
  }

  lemma MatchedSnoc(l: Limits, es: seq<(nat, Event)>, now: nat, e: Event)
    requires MatchedRun(l, es) && Matched(Run(l, es), e)
    ensures MatchedRun(l, es + [(now, e)])
  {
    hide Run, Matched;
    var es' := es + [(now, e)];
    forall i | 0 <= i < |es'| ensures Matched(Run(l, es'[..i]), es'[i].1) {
      if i < |es| {
        assert es'[..i] == es[..i];
      } else {
        assert es'[..i] == es;
      }
    }
  }

  lemma {:induction false} RoundsIdle(l: Limits, n: nat)
    requires n <= l.maxConnects && l.connectWindow > Retention
    ensures Idle(Run(l, Rounds(n)), n) && MatchedRun(l, Rounds(n))
    decreases n
  {
    hide Do, Idle, Run, MatchedRun;
    if n == 0 {
      StartIdle(l);
    } else {
      RoundsIdle(l, n - 1);
      var es := Rounds(n - 1);
      RunSnoc(l, es, 0, Arrive("a", false));
      RunSnoc(l, es + [(0, Arrive("a", false))], 0, Leave("a", false));
      assert Rounds(n) == es + [(0, Arrive("a", false))] + [(0, Leave("a", false))];
      OneMoreRound(Run(l, es), l, n - 1);
      MatchedSnoc(l, es, 0, Arrive("a", false));
      MatchedSnoc(l, es + [(0, Arrive("a", false))], 0, Leave("a", false));
    }
  }

  lemma StartIdle(l: Limits)
    ensures Idle(Run(l, Rounds(0)), 0) && MatchedRun(l, Rounds(0))
  {
  }

  lemma ForgottenByRelease(b: Book, l: Limits, n: nat)
    requires Idle(b, n) && n < l.maxConnects && l.connectWindow > Retention
    ensures var b1 := Do(b, l, 0, Arrive("a", false));
      var b2 := Do(b1, l, Retention, Leave("a", false));
      Times(Do(b2, l, Retention, Arrive("a", false)).admits, "a") == Zeros(n + 1) + [Retention]
  {
    hide Recent, Zeros;
    ZerosFacts(n, l.connectWindow);
    ZerosFacts(n + 1, l.connectWindow);
    ZerosSnoc(n);
    NothingRecent(Retention, l.connectWindow);
  }

  lemma NothingRecent(now: nat, w: nat)
    ensures Recent([], now, w) == []
  {
  }

  lemma ComeBackAdmitted(l: Limits)
    requires l.maxConnects > 0 && l.connectWindow > Retention
    ensures InWindow(Times(Run(l, ComeBack(l.maxConnects - 1)).admits, "a"), Retention, l.connectWindow) == l.maxConnects + 1
    ensures MatchedRun(l, ComeBack(l.maxConnects - 1))
  {
    hide Run, Do, Idle, Zeros, InWindow, MatchedRun;
    var n := l.maxConnects - 1;
    var es := Rounds(n);
    RoundsIdle(l, n);
    ForgottenByRelease(Run(l, es), l, n);
    RunSnoc(l, es, 0, Arrive("a", false));
    RunSnoc(l, es + [(0, Arrive("a", false))], Retention, Leave("a", false));
    RunSnoc(l, es + [(0, Arrive("a", false))] + [(Retention, Leave("a", false))], Retention, Arrive("a", false));
    assert ComeBack(n) == es + [(0, Arrive("a", false))] + [(Retention, Leave("a", false))] + [(Retention, Arrive("a", false))];
    ZerosFacts(n + 1, l.connectWindow);
    InWindowSnoc(Zeros(n + 1), Retention, Retention, l.connectWindow);
    OneMoreRound(Run(l, es), l, n);
    MatchedSnoc(l, es, 0, Arrive("a", false));
    MatchedSnoc(l, es + [(0, Arrive("a", false))], Retention, Leave("a", false));
    MatchedSnoc(l, es + [(0, Arrive("a", false))] + [(Retention, Leave("a", false))], Retention, Arrive("a", false));
  }

  lemma {:induction false} RoundsAtZero(n: nat)
    ensures forall i :: 0 <= i < |Rounds(n)| ==> Rounds(n)[i].0 == 0
    decreases n
  {
    if n > 0 {
      RoundsAtZero(n - 1);
    }
  }

  lemma InWindowSnoc(ts: seq<nat>, t: nat, end: nat, w: nat)
    ensures InWindow(ts + [t], end, w) == InWindow(ts, end, w) + if t <= end && end - t < w then 1 else 0
  {
    assert (ts + [t])[..|ts|] == ts;
  }

  /**
   * The bound holds over every run, and over every run of matched releases, exactly when the window is
   * no longer than the 60 s for which a release keeps history.
   */
  lemma WindowBoundIff(l: Limits)
    requires l.maxConnects > 0
    ensures AlwaysBounded(l) <==> l.connectWindow <= Retention
    ensures AlwaysBoundedMatched(l) <==> l.connectWindow <= Retention
  {
    hide Run, InWindow, MatchedRun;
    if l.connectWindow <= Retention {
      forall es, key, end | Timely(es)
        ensures InWindow(Times(Run(l, es).admits, key), end, l.connectWindow) <= l.maxConnects
      {
        AdmissionWindow(l, es, key, end);
      }
    } else {
      ComeBackAdmitted(l);
      RoundsAtZero(l.maxConnects - 1);
      assert Timely(ComeBack(l.maxConnects - 1));
    }
  }

  // ---- the message budget ----

  /** The source holds a slot in every state of the run from step `a` on. */
  ghost predicate StaysConnected(l: Limits, es: seq<(nat, Event)>, a: nat, key: string) {
    forall i :: a <= i <= |es| ==> Entry(Run(l, es[..i]).table, key).active > 0
  }

  lemma OtherMessages(t: Table, l: Limits, key: string, exempt: bool, now: nat, k: string)
    ensures Entry(TryAdmit(t, l, key, exempt, now).0, k).messages == Entry(t, k).messages
    ensures Entry(Release(t, key, exempt, now), k).active > 0 ==>
      Entry(Release(t, key, exempt, now), k).messages == Entry(t, k).messages
  {
    hide Recent;
  }

  lemma ChargedMessages(t: Table, l: Limits, key: string, exempt: bool, now: nat, k: string)
    ensures var (t', c) := ChargeMessage(t, l, key, exempt, now);
      var kept := Entry(t, k).messages;
      var pruned := Recent(kept, now, l.messageWindow);
      && Entry(t', k).messages == (if k != key || exempt || l.maxMessages == 0 then kept
                                   else if c.Within? then pruned + [now] else pruned)
      && (k == key && !exempt && l.maxMessages > 0 && c.Within? ==> |pruned| < l.maxMessages)
  {
    hide Recent;
  }

  /** An event leaves the kept message times alone, prunes them, or prunes them and adds one accepted message. */
  lemma DoMessages(b: Book, l: Limits, now: nat, e: Event, key: string)
    requires Entry(Do(b, l, now, e).table, key).active > 0
    ensures var kept, all := Entry(b.table, key).messages, Times(b.accepted, key);
      var kept', all' := Entry(Do(b, l, now, e).table, key).messages, Times(Do(b, l, now, e).accepted, key);
      || (all' == all && (kept' == kept || kept' == Recent(kept, now, l.messageWindow)))
      || (all' == all + [now] && kept' == Recent(kept, now, l.messageWindow) + [now]
          && |Recent(kept, now, l.messageWindow)| < l.maxMessages)
  {
    hide Recent, TryAdmit, Release, ChargeMessage;
    if e.Message? {
      ChargedMessages(b.table, l, e.key, e.exempt, now, key);
    } else {
      OtherMessages(b.table, l, e.key, e.exempt, now, key);
    }
  }

  lemma {:induction false} RecentConcat(a: seq<nat>, c: seq<nat>, now: nat, w: nat)
    ensures Recent(a + c, now, w) == Recent(a, now, w) + Recent(c, now, w)
    decreases |c|
  {
    if c == [] {
      assert a + c == a;
    } else {
      RecentConcat(a, c[..|c|-1], now, w);
      assert (a + c)[..|a + c|-1] == a + c[..|c|-1];
    }
  }

  /** The messages accepted between two states, all of which the kept times account for within the window. */
  ghost predicate Accounted(before: Book, after: Book, l: Limits, key: string, now: nat) {
    && |Times(before.accepted, key)| <= |Times(after.accepted, key)|
    && var later := Times(after.accepted, key)[|Times(before.accepted, key)|..];
    && Tracks(Entry(after.table, key).messages, Entry(before.table, key).messages + later, now, l.messageWindow)
    && (l.maxMessages > 0 ==> Bounded(later, l.messageWindow, l.maxMessages))
  }

  lemma AccountedNow(b: Book, l: Limits, key: string, now: nat)
    ensures Accounted(b, b, l, key, now)
  {
    hide Tracks, Bounded;
    var base, all := Entry(b.table, key).messages, Times(b.accepted, key);
    assert all[|all|..] == [] && base + [] == base;
    TracksItself(base, now, l.messageWindow);
    NothingBounded(l.messageWindow, l.maxMessages);
  }

  lemma AccountedLater(before: Book, after: Book, l: Limits, key: string, t: nat, now: nat)
    requires Accounted(before, after, l, key, t) && t <= now
    ensures Accounted(before, after, l, key, now)
  {
    hide Tracks, Bounded;
    var later := Times(after.accepted, key)[|Times(before.accepted, key)|..];
    TracksLater(Entry(after.table, key).messages, Entry(before.table, key).messages + later, t, now, l.messageWindow);
  }

  lemma AccountedNext(before: Book, b: Book, l: Limits, key: string, t: nat, e: Event)
    requires Accounted(before, b, l, key, t) && Entry(Do(b, l, t, e).table, key).active > 0
    ensures Accounted(before, Do(b, l, t, e), l, key, t)
  {
    hide Recent, Do, Bounded, Tracks;
    var w, n := l.messageWindow, |Times(before.accepted, key)|;
    var base, kept, later := Entry(before.table, key).messages, Entry(b.table, key).messages, Times(b.accepted, key)[n..];
    DoMessages(b, l, t, e, key);
    TracksPruned(kept, base + later, t, w, w);
    var all' := Times(Do(b, l, t, e).accepted, key);
    if all' != Times(b.accepted, key) {
      assert all'[n..] == later + [t] && base + (later + [t]) == base + later + [t];
      TracksPushed(Recent(kept, t, w), base + later, t, w);
      KeptCovers(kept, base, later, t, w);
      if l.maxMessages > 0 {
        BoundedPushed(later, t, w, l.maxMessages);
      }
    }
  }

  lemma {:induction false} MessagesHold(l: Limits, es: seq<(nat, Event)>, a: nat, key: string, now: nat)
    requires Timely(es) && a <= |es| && StaysConnected(l, es, a, key) && (es != [] ==> es[|es|-1].0 <= now)
    ensures Accounted(Run(l, es[..a]), Run(l, es), l, key, now)
    decreases |es|
  {
    hide Do, Accounted;
    if a == |es| {
      assert es[..a] == es;
      AccountedNow(Run(l, es), l, key, now);
    } else {
      var k := |es| - 1;
      assert es[..k][..a] == es[..a] && es[..|es|] == es;
      assert forall i :: a <= i <= k ==> es[..k][..i] == es[..i];
      MessagesHold(l, es[..k], a, key, es[k].0);
      AccountedNext(Run(l, es[..a]), Run(l, es[..k]), l, key, es[k].0, es[k].1);
      AccountedLater(Run(l, es[..a]), Run(l, es), l, key, es[k].0, now);
    }
  }

  lemma TracksItself(kept: seq<nat>, now: nat, w: nat)
    ensures Tracks(kept, kept, now, w)
  {
  }

  lemma NothingBounded(w: nat, max: nat)
    ensures Bounded([], w, max)
  {
  }

  lemma KeptCovers(kept: seq<nat>, base: seq<nat>, later: seq<nat>, now: nat, w: nat)
    requires Tracks(kept, base + later, now, w)
    ensures |Recent(later, now, w)| <= |Recent(kept, now, w)|
  {
    RecentConcat(base, later, now, w);
  }

  /** While a source keeps a connection open, no window holds more accepted messages than its budget. */
  lemma MessageBudget(l: Limits, es: seq<(nat, Event)>, a: nat, key: string, end: nat)
    requires Timely(es) && a <= |es| && StaysConnected(l, es, a, key) && l.maxMessages > 0
    ensures var n := |Times(Run(l, es[..a]).accepted, key)|;
      n <= |Times(Run(l, es).accepted, key)|
      && InWindow(Times(Run(l, es).accepted, key)[n..], end, l.messageWindow) <= l.maxMessages
  {
    MessagesHold(l, es, a, key, if es == [] then 0 else es[|es|-1].0);
  }

  // ---- nobody is turned away before a limit is reached ----

  ghost predicate AllBy(ts: seq<nat>, now: nat) {
    forall i :: 0 <= i < |ts| ==> ts[i] <= now
  }

  lemma {:induction false} WindowIsRecent(ts: seq<nat>, now: nat, w: nat)
    requires AllBy(ts, now)
    ensures |Recent(ts, now, w)| == InWindow(ts, now, w)
    decreases |ts|
  {
    if ts != [] {
      WindowIsRecent(ts[..|ts|-1], now, w);
    }
  }

  lemma {:induction false} TimesPast(l: Limits, es: seq<(nat, Event)>, key: string, now: nat)
    requires Timely(es) && (es != [] ==> es[|es|-1].0 <= now)
    ensures AllBy(Times(Run(l, es).admits, key), now) && AllBy(Times(Run(l, es).accepted, key), now)
    decreases |es|
  {
    hide Do;
    if es != [] {
      var k := |es| - 1;
      TimesPast(l, es[..k], key, es[k].0);
      DoTimes(Run(l, es[..k]), l, es[k].0, es[k].1, key);
    }
  }

  lemma DoTimes(b: Book, l: Limits, now: nat, e: Event, key: string)
    ensures var b' := Do(b, l, now, e);
      && (Times(b'.admits, key) == Times(b.admits, key) || Times(b'.admits, key) == Times(b.admits, key) + [now])
      && (Times(b'.accepted, key) == Times(b.accepted, key) || Times(b'.accepted, key) == Times(b.accepted, key) + [now])
  {
    hide TryAdmit, Release, ChargeMessage;
  }

  /** What an arrival deserves, from the slots that are held and the admissions of the last window. */
  function Deserved(b: Book, l: Limits, key: string, now: nat): Verdict {
    if l.maxClients > 0 && |b.held| == l.maxClients then Refused(ServerFull)
    else if l.maxClonesPerIp > 0 && b.held[key] + b.exempt[key] >= l.maxClonesPerIp then Refused(TooManyClones)
    else if l.maxConnects > 0 && InWindow(Times(b.admits, key), now, l.connectWindow) == l.maxConnects then Refused(ConnectingTooFast)
    else Admitted
  }

  /**
   * After every such run an arrival is refused exactly when the server is full, its source has all the connections
   * it may have, or its source has been admitted as often as it may within the window; an exempt one never.
   */
  lemma ArrivalDeserved(l: Limits, es: seq<(nat, Event)>, key: string, now: nat)
    requires Timely(es) && MatchedRun(l, es) && l.connectWindow <= Retention && (es != [] ==> es[|es|-1].0 <= now)
    ensures TryAdmit(Run(l, es).table, l, key, false, now).1 == Deserved(Run(l, es), l, key, now)
    ensures TryAdmit(Run(l, es).table, l, key, true, now).1 == Admitted
  {
    hide Run, MatchedRun, Recent, InWindow;
    var b := Run(l, es);
    SlotsConserved(l, es);
    ConnectsHold(l, es, now);
    TimesPast(l, es, key, now);
    assert Tracks(Entry(b.table, key).connects, Times(b.admits, key), now, l.connectWindow);
    WindowIsRecent(Times(b.admits, key), now, l.connectWindow);
    if l.maxConnects > 0 {
      assert Bounded(Times(b.admits, key), l.connectWindow, l.maxConnects);
    }
  }

  predicate TurnedDown(b: Book, l: Limits, now: nat, e: Event, key: string) {
    e == Message(key, false) && !ChargeMessage(b.table, l, key, false, now).1.Within?
  }

  /** How many messages of a source have been turned down since step `a`. */
  ghost function Refusals(l: Limits, es: seq<(nat, Event)>, a: nat, key: string): nat
    decreases |es|
  {
    if |es| <= a then 0
    else
      var k := |es| - 1;
      Refusals(l, es[..k], a, key) + if TurnedDown(Run(l, es[..k]), l, es[k].0, es[k].1, key) then 1 else 0
  }

  lemma DoViolations(b: Book, l: Limits, now: nat, e: Event, key: string)
    requires Entry(Do(b, l, now, e).table, key).active > 0
    ensures Entry(Do(b, l, now, e).table, key).violations
         == Entry(b.table, key).violations + if TurnedDown(b, l, now, e, key) then 1 else 0
  {
    hide Recent, TryAdmit, Release, ChargeMessage;
    if e.Message? {
      ChargedViolations(b.table, l, e.key, e.exempt, now, key);
    } else {
      OtherViolations(b.table, l, e.key, e.exempt, now, key);
    }
  }

  lemma OtherViolations(t: Table, l: Limits, key: string, exempt: bool, now: nat, k: string)
    ensures Entry(TryAdmit(t, l, key, exempt, now).0, k).violations == Entry(t, k).violations
    ensures Entry(Release(t, key, exempt, now), k).active > 0 ==>
      Entry(Release(t, key, exempt, now), k).violations == Entry(t, k).violations
  {
    hide Recent;
  }

  lemma ChargedViolations(t: Table, l: Limits, key: string, exempt: bool, now: nat, k: string)
    ensures var (t', c) := ChargeMessage(t, l, key, exempt, now);
      && Entry(t', k).violations == Entry(t, k).violations + (if k == key && !c.Within? then 1 else 0)
      && (exempt ==> c.Within?)
  {
    hide Recent;
  }

  lemma {:induction false} ViolationsCounted(l: Limits, es: seq<(nat, Event)>, a: nat, key: string)
    requires a <= |es| && StaysConnected(l, es, a, key)
    ensures Entry(Run(l, es).table, key).violations == Entry(Run(l, es[..a]).table, key).violations + Refusals(l, es, a, key)
    decreases |es|
  {
    hide Do, TurnedDown;
    if a == |es| {
      assert es[..a] == es;
    } else {
      var k := |es| - 1;
      assert es[..k][..a] == es[..a] && es[..|es|] == es;
      assert forall i :: a <= i <= k ==> es[..k][..i] == es[..i];
      ViolationsCounted(l, es[..k], a, key);
      DoViolations(Run(l, es[..k]), l, es[k].0, es[k].1, key);
    }
  }

  /**
   * While a source that started without a message history keeps a connection open, a message is turned down exactly
   * when its budget for the window is used up, and ends the connection exactly when that has then happened as often
   * as is tolerated.
   */
  lemma MessageDeserved(l: Limits, es: seq<(nat, Event)>, a: nat, key: string, now: nat)
    requires Timely(es) && a <= |es| && StaysConnected(l, es, a, key) && l.maxMessages > 0 && (es != [] ==> es[|es|-1].0 <= now)
    requires var e := Entry(Run(l, es[..a]).table, key); e.messages == [] && e.violations == 0
    ensures var n := |Times(Run(l, es[..a]).accepted, key)|;
      && n <= |Times(Run(l, es).accepted, key)|
      && var spent := InWindow(Times(Run(l, es).accepted, key)[n..], now, l.messageWindow);
      && spent <= l.maxMessages
      && ChargeMessage(Run(l, es).table, l, key, false, now).1 ==
         if spent < l.maxMessages then Within
         else if l.maxViolations > 0 && Refusals(l, es, a, key) + 1 >= l.maxViolations then Close
         else Dropped
  {
    hide Run, Recent, InWindow, StaysConnected;
    MessagesHold(l, es, a, key, now);
    ViolationsCounted(l, es, a, key);
    TimesPast(l, es, key, now);
    var n := |Times(Run(l, es[..a]).accepted, key)|;
    var later := Times(Run(l, es).accepted, key)[n..];
    assert [] + later == later;
    WindowIsRecent(later, now, l.messageWindow);
    MessageBudget(l, es, a, key, now);
  }

  // ---- the table itself ----

  method Retain(ts: seq<nat>, now: nat, window: nat) returns (kept: seq<nat>)
    ensures kept == Recent(ts, now, window)
  {
    kept := [];
    var i := 0;
    while i < |ts|
      invariant 0 <= i <= |ts| && kept == Recent(ts[..i], now, window)
    {
      assert ts[..i+1][..i] == ts[..i];
      if Since(now, ts[i]) < window {
        kept := kept + [ts[i]];
      }
      i := i + 1;
    }
    assert ts[..i] == ts;
  }

  class SourceTable {
    var sources: map<string, Source>
    var activeTotal: nat

    ghost function View(): Table
      reads this
    {
      Table(sources, activeTotal)
    }

    constructor ()
      ensures View() == Empty
    {
      sources, activeTotal := map[], 0;
    }

    method Admit(l: Limits, key: string, exempt: bool, now: nat) returns (v: Verdict)
      modifies this
      ensures (View(), v) == TryAdmit(old(View()), l, key, exempt, now)
    {
      var e := if key in sources then sources[key] else Blank;
      if exempt {
        sources := sources[key := e.(active := e.active + 1)];
        return Admitted;
      }
      if l.maxClients > 0 && activeTotal >= l.maxClients {
        return Refused(ServerFull);
      }
      var connects := Retain(e.connects, now, l.connectWindow);
      e := e.(connects := connects);
      sources := sources[key := e];
      if l.maxClonesPerIp > 0 && e.active >= l.maxClonesPerIp {
        return Refused(TooManyClones);
      }
      if l.maxConnects > 0 && |e.connects| >= l.maxConnects {
        return Refused(ConnectingTooFast);
      }
      e := e.(connects := e.connects + [now], active := e.active + 1);
      sources := sources[key := e];
      assert sources == old(sources)[key := e];
      activeTotal := activeTotal + 1;
      v := Admitted;
    }

    method Free(key: string, exempt: bool, now: nat)
      modifies this
      ensures View() == Release(old(View()), key, exempt, now)
    {
      if key !in sources {
        return;
      }
      var e := sources[key];
      var connects := Retain(e.connects, now, Retention);
      e := e.(active := Less(e.active), connects := connects);
      if !exempt {
        activeTotal := Less(activeTotal);
      }
      sources := if e.active == 0 && e.connects == [] then sources - {key} else sources[key := e];
    }

    method Charge(l: Limits, key: string, exempt: bool, now: nat) returns (c: Charge)
      modifies this
      ensures (View(), c) == ChargeMessage(old(View()), l, key, exempt, now)
    {
      if exempt || l.maxMessages == 0 {
        return Within;
      }
      var e := if key in sources then sources[key] else Blank;
      var messages := Retain(e.messages, now, l.messageWindow);
      e := e.(messages := messages);
      if |e.messages| >= l.maxMessages {
        e := e.(violations := e.violations + 1);
        c := if l.maxViolations > 0 && e.violations >= l.maxViolations then Close else Dropped;
      } else {
        e := e.(messages := e.messages + [now]);
        c := Within;
      }
      sources := sources[key := e];
    }
  }
}
