/** Two servers that introduce a channel to each other, in whatever order their lines arrive. */
module ServerExchange {
  import opened Basics
  import opened Names
  import opened ServerModel
  import opened ServerSteps
  import opened ServerRuns

  datatype Node = Node(sid: string, cfg: Config)

  /** What happens at either server, in one order: the first component says at which. */
  type Joint = seq<(bool, nat, Event)>

  /** The events of one server. */
  function Of(js: Joint, side: bool): Trace {
    if js == [] then []
    else
      var last := js[|js| - 1];
      Of(js[..|js| - 1], side) + if last.0 == side then [(last.1, last.2)] else []
  }

  /** One server after the first `k` joint events. */
  ghost function After(n: Node, js: Joint, side: bool, k: nat): State
    requires k <= |js|
  {
    Run(n.sid, n.cfg, Of(js[..k], side))
  }

  lemma {:induction false} OfPrefix(js: Joint, side: bool, k: nat)
    requires k <= |js|
    ensures |Of(js[..k], side)| <= |Of(js, side)| && Of(js[..k], side) == Of(js, side)[..|Of(js[..k], side)|]
    decreases |js|
  {
    if k < |js| {
      var pre := js[..|js| - 1];
      OfPrefix(pre, side, k);
      assert pre[..k] == js[..k];
    } else {
      assert js[..k] == js;
    }
  }

  lemma AfterIsAt(n: Node, js: Joint, side: bool, k: nat)
    requires k <= |js|
    ensures |Of(js[..k], side)| <= |Of(js, side)|
    ensures After(n, js, side, k) == At(n.sid, n.cfg, Of(js, side), |Of(js[..k], side)|)
  {
    hide Run;
    OfPrefix(js, side, k);
  }

  lemma OfNext(js: Joint, side: bool, k: nat)
    requires k < |js|
    ensures Of(js[..k + 1], side) == Of(js[..k], side) + if js[k].0 == side then [(js[k].1, js[k].2)] else []
  {
    assert js[..k + 1][..k] == js[..k] && js[..k + 1][k] == js[k];
  }

  /** The channel is introduced to one server in joint step `k`. */
  ghost predicate Heard(js: Joint, k: nat, side: bool, c: string, ts: nat) {
    k < |js| && js[k].0 == side && js[k].2.ChannelJoined? && NormNick(js[k].2.chan) == c && js[k].2.ts == ts
  }

  /** From joint step `a` on the channel exists at a server and never runs empty there. */
  ghost predicate Kept(n: Node, js: Joint, side: bool, a: nat, c: string)
    requires a <= |js|
  {
    c in After(n, js, side, a).chans && forall k :: a < k <= |js| ==> HasMember(After(n, js, side, k), c)
  }

  /** The timestamp a server holds. */
  ghost function Held(n: Node, js: Joint, side: bool, k: nat, c: string): nat
    requires k <= |js|
  {
    var s := After(n, js, side, k);
    if c in s.chans then s.chans[c].createdAt else 0
  }

  /** One joint step moves a timestamp only by an introduction, and then to the older of the two. */
  lemma HeldStep(n: Node, js: Joint, side: bool, a: nat, k: nat, c: string)
    requires Feasible(n.sid, n.cfg, Of(js, side)) && a <= k < |js| && Kept(n, js, side, a, c) && c in After(n, js, side, k).chans
    ensures c in After(n, js, side, k + 1).chans
    ensures var was, now := Held(n, js, side, k, c), Held(n, js, side, k + 1, c);
      && now <= was && (now == was || Heard(js, k, side, c, now)) && forall ts :: Heard(js, k, side, c, ts) ==> now <= ts
  {
    hide Feasible, HasMember, Run;
    AfterIsAt(n, js, side, k);
    AfterIsAt(n, js, side, k + 1);
    OfNext(js, side, k);
    if js[k].0 == side {
      var es, p := Of(js, side), |Of(js[..k], side)|;
      OwnStep(js, side, k, c);
      StampStep(n, es, p, c);
    }
  }

  lemma OwnStep(js: Joint, side: bool, k: nat, c: string)
    requires k < |js| && js[k].0 == side
    ensures var p := |Of(js[..k], side)|;
      && p < |Of(js, side)| && |Of(js[..k + 1], side)| == p + 1 && Of(js, side)[p] == (js[k].1, js[k].2)
      && forall ts :: Heard(js, k, side, c, ts) <==> Introduced(Of(js, side), p, c, ts)
  {
    OfNext(js, side, k);
    OfPrefix(js, side, k + 1);
  }

  /** One step of a single run, as the minimum theorem has it. */
  lemma StampStep(n: Node, es: Trace, p: nat, c: string)
    requires Feasible(n.sid, n.cfg, es) && p < |es| && c in At(n.sid, n.cfg, es, p).chans && HasMember(At(n.sid, n.cfg, es, p + 1), c)
    ensures c in At(n.sid, n.cfg, es, p + 1).chans
    ensures var was, now := At(n.sid, n.cfg, es, p).chans[c].createdAt, At(n.sid, n.cfg, es, p + 1).chans[c].createdAt;
      && now <= was && (now == was || Introduced(es, p, c, now)) && forall ts :: Introduced(es, p, c, ts) ==> now <= ts
  {
    hide Feasible, HasMember, Run;
    TimestampIsMinimum(n.sid, n.cfg, es, p, p + 1, c);
  }

  lemma {:induction false} HeldFalls(n: Node, js: Joint, side: bool, a: nat, k: nat, b: nat, c: string)
    requires Feasible(n.sid, n.cfg, Of(js, side)) && a <= k <= b <= |js| && Kept(n, js, side, a, c)
    ensures c in After(n, js, side, b).chans && Held(n, js, side, b, c) <= Held(n, js, side, k, c)
    decreases b
  {
    hide Feasible, HasMember, After, Held, Heard;
    if a < b {
      HeldFalls(n, js, side, a, a, b - 1, c);
      HeldStep(n, js, side, a, b - 1, c);
      if k < b {
        HeldFalls(n, js, side, a, k, b - 1, c);
      }
    } else {
      assert Kept(n, js, side, a, c);
    }
  }

  /** Every introduction in joint step `k` on repeats a timestamp its sender held by then. */
  ghost predicate Relayed(sender: Node, js: Joint, side: bool, a: nat, c: string)
    requires a <= |js|
  {
    forall k, ts :: a <= k < |js| && Heard(js, k, side, c, ts) ==> HeldBetween(sender, js, !side, a, k, c, ts)
  }

  ghost predicate HeldBetween(n: Node, js: Joint, side: bool, a: nat, b: nat, c: string, ts: nat)
    requires a <= b <= |js|
  {
    exists m :: a <= m <= b && Held(n, js, side, m, c) == ts
  }

  /** Two servers sharing a channel, each only ever told what the other has held. */
  ghost predicate Exchange(x: Node, y: Node, js: Joint, a: nat, c: string) {
    && a <= |js| && Feasible(x.sid, x.cfg, Of(js, true)) && Feasible(y.sid, y.cfg, Of(js, false))
    && Kept(x, js, true, a, c) && Kept(y, js, false, a, c)
    && Relayed(y, js, true, a, c) && Relayed(x, js, false, a, c)
  }

  /** Neither ever goes below the older of the two timestamps they started with. */
  lemma {:induction false} NeverBelow(x: Node, y: Node, js: Joint, a: nat, k: nat, c: string)
    requires Exchange(x, y, js, a, c) && a <= k <= |js|
    ensures var least := Min(Held(x, js, true, a, c), Held(y, js, false, a, c));
      forall m :: a <= m <= k ==> least <= Held(x, js, true, m, c) && least <= Held(y, js, false, m, c)
    decreases k
  {
    hide Feasible, Held, Heard, Kept;
    if a < k {
      NeverBelow(x, y, js, a, k - 1, c);
      HeardHeld(x, y, js, a, k - 1, c);
    }
  }

  lemma HeardHeld(x: Node, y: Node, js: Joint, a: nat, k: nat, c: string)
    requires Exchange(x, y, js, a, c) && a <= k < |js|
    ensures var now := Held(x, js, true, k + 1, c);
      now == Held(x, js, true, k, c) || HeldBetween(y, js, false, a, k, c, now)
    ensures var now := Held(y, js, false, k + 1, c);
      now == Held(y, js, false, k, c) || HeldBetween(x, js, true, a, k, c, now)
  {
    hide Feasible, Held, Heard, Kept, HeldBetween;
    HeldFalls(x, js, true, a, a, k, c);
    HeldFalls(y, js, false, a, a, k, c);
    HeldStep(x, js, true, a, k, c);
    HeldStep(y, js, false, a, k, c);
  }

  /** Whoever hears of the channel from a peer that has held the oldest timestamp throughout ends on it. */
  lemma HearerEnds(hearer: Node, sender: Node, js: Joint, side: bool, other: bool, a: nat, k: nat, c: string, ts: nat,
          least: nat)
    requires other == !side && a <= k < |js| && Feasible(hearer.sid, hearer.cfg, Of(js, side)) && Kept(hearer, js, side, a, c)
    requires Heard(js, k, side, c, ts) && HeldBetween(sender, js, other, a, k, c, ts)
    requires forall m :: a <= m <= k ==> Held(sender, js, other, m, c) == least
    ensures Held(hearer, js, side, |js|, c) <= least
  {
    hide Feasible, Held, Heard, Kept;
    HeldFalls(hearer, js, side, a, a, k, c);
    HeldStep(hearer, js, side, a, k, c);
    HeldFalls(hearer, js, side, a, k + 1, |js|, c);
  }

  lemma OldestStays(n: Node, js: Joint, side: bool, a: nat, c: string, least: nat)
    requires a <= |js| && Feasible(n.sid, n.cfg, Of(js, side)) && Kept(n, js, side, a, c) && Held(n, js, side, a, c) == least
    requires forall m :: a <= m <= |js| ==> least <= Held(n, js, side, m, c)
    ensures forall m :: a <= m <= |js| ==> Held(n, js, side, m, c) == least
  {
    hide Feasible, Held, Kept;
    forall m | a <= m <= |js| ensures Held(n, js, side, m, c) == least {
      HeldFalls(n, js, side, a, a, m, c);
    }
  }

  /**
   * Two servers with members in a channel, each told at least once of the timestamp the other has held,
   * any number of times and in any order: both end on the older of the two they started with.
   */
  lemma ExchangeConverges(x: Node, y: Node, js: Joint, a: nat, c: string, j: nat, k: nat, toX: nat, toY: nat)
    requires Exchange(x, y, js, a, c) && a <= j < |js| && a <= k < |js|
    requires Heard(js, j, true, c, toX) && Heard(js, k, false, c, toY)
    ensures c in After(x, js, true, |js|).chans && c in After(y, js, false, |js|).chans
    ensures After(x, js, true, |js|).chans[c].createdAt == After(y, js, false, |js|).chans[c].createdAt
         == Min(Held(x, js, true, a, c), Held(y, js, false, a, c))
  {
    hide Feasible, Heard, Kept, HeldBetween, After;
    var tx, ty := Held(x, js, true, a, c), Held(y, js, false, a, c);
    NeverBelow(x, y, js, a, |js|, c);
    HeldFalls(x, js, true, a, a, |js|, c);
    HeldFalls(y, js, false, a, a, |js|, c);
    if tx <= ty {
      OldestStays(x, js, true, a, c, tx);
      HearerEnds(y, x, js, false, true, a, k, c, toY, tx);
    } else {
      OldestStays(y, js, false, a, c, ty);
      HearerEnds(x, y, js, true, false, a, j, c, toX, ty);
    }
  }
}
