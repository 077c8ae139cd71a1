/** Subscriptions, unsubscriptions, publications and deliveries in any order. */
module EventHubRuns {
  import opened EventHub

  /** Of a subscription: how far its loop had read, how much was published, and which positions it was sent. */
  datatype Mark = Mark(since: nat, joined: nat, at: seq<nat>)

  /** `log` is what Redis was given per tenant; `cursor` is how far each fan-out's loop has read it. */
  datatype Sys = Sys(h: Hub, log: map<nat, seq<Msg>>, cursor: map<nat, nat>, marks: map<nat, Mark>)

  datatype Action =
    | Subscribe(t: nat, ch: nat, f: nat)
    | Unsubscribe(ch: nat)
    | Publish(t: nat, msg: Msg)
    | Deliver(fan: nat, k: nat)
    | Read(ch: nat)

  function LogOf(s: Sys, t: nat): seq<Msg> {
    if t in s.log then s.log[t] else []
  }

  predicate Enabled(s: Sys, a: Action) {
    match a
    case Subscribe(t, ch, f) =>
      ch !in s.h.chans && f !in s.h.fanouts && (t in s.h.tenants ==> s.h.tenants[t] in s.h.fanouts)
    case Unsubscribe(ch) =>
      && ch in s.h.subs && ch in s.h.chans
      && (s.h.subs[ch].tenant in s.h.tenants ==> s.h.tenants[s.h.subs[ch].tenant] in s.h.fanouts)
    case Publish(_, _) => true
    case Deliver(fan, k) =>
      fan in s.h.fanouts && fan in s.cursor && s.cursor[fan] <= k < |LogOf(s, s.h.fanouts[fan].tenant)|
    case Read(ch) => ch in s.h.chans && s.h.chans[ch].buf != []
  }

  function Next(s: Sys, a: Action): Sys
    requires Enabled(s, a)
  {
    match a
    case Subscribe(t, ch, f) =>
      var fan := Joined(s.h, t, f);
      var cursor := if t in s.h.tenants then s.cursor else s.cursor[f := |LogOf(s, t)|];
      var since := if fan in cursor then cursor[fan] else 0;
      Sys(Subscribed(s.h, t, ch, f), s.log, cursor, s.marks[ch := Mark(since, |LogOf(s, t)|, [])])
    case Unsubscribe(ch) => s.(h := Unsubscribed(s.h, ch))
    case Publish(t, msg) => s.(log := s.log[t := LogOf(s, t) + [msg]])
    case Deliver(fan, k) =>
      var tf := s.h.fanouts[fan];
      s.(h := Delivered(s.h, fan, LogOf(s, tf.tenant)[k]),
         cursor := s.cursor[fan := k + 1],
         marks := map c | c in s.marks ::
           if c in Targets(tf) && c in s.h.chans && |s.h.chans[c].buf| < CAPACITY
           then s.marks[c].(at := s.marks[c].at + [k]) else s.marks[c])
    case Read(ch) =>
      var c := s.h.chans[ch];
      s.(h := s.h.(chans := s.h.chans[ch := c.(buf := c.buf[1..], got := c.got + [c.buf[0]])]))
  }

  ghost predicate Reaches(s: Sys, run: seq<Action>, t: Sys)
    decreases |run|
  {
    if run == [] then s == t else Enabled(s, run[0]) && Reaches(Next(s, run[0]), run[1..], t)
  }

  const EMPTY: Sys := Sys(Hub(map[], map[], map[], map[]), map[], map[], map[])

  // ---- structure ----

  predicate Current(h: Hub, fan: nat) {
    fan in h.fanouts && h.fanouts[fan].tenant in h.tenants && h.tenants[h.fanouts[fan].tenant] == fan
  }

  /** A fan-out counts its clients; it is the tenant's own exactly while it has any. */
  predicate FanoutOk(h: Hub, fan: nat)
    requires fan in h.fanouts
  {
    var tf := h.fanouts[fan];
    && tf.refCount == |tf.clients|
    && (Current(h, fan) <==> tf.clients != map[])
    && (Current(h, fan) <==> !tf.cancelled)
    && tf.loops == 1
    && (forall id :: id in tf.clients ==>
          && id < tf.nextID
          && tf.clients[id] in h.subs
          && h.subs[tf.clients[id]] == Sub(tf.tenant, fan, id, true))
  }

  /** A subscription is a client of the fan-out it joined until it unsubscribes, which closes its channel once. */
  predicate SubOk(h: Hub, ch: nat)
    requires ch in h.subs
  {
    var sub := h.subs[ch];
    && ch in h.chans
    && h.chans[ch].closes == (if sub.active then 0 else 1)
    && sub.fan in h.fanouts
    && h.fanouts[sub.fan].tenant == sub.tenant
    && sub.id < h.fanouts[sub.fan].nextID
    && (sub.active ==>
          && Current(h, sub.fan)
          && sub.id in h.fanouts[sub.fan].clients && h.fanouts[sub.fan].clients[sub.id] == ch)
  }

  predicate TenantsOk(h: Hub) {
    forall t :: t in h.tenants ==> h.tenants[t] in h.fanouts && h.fanouts[h.tenants[t]].tenant == t
  }

  ghost predicate Structured(h: Hub) {
    && h.chans.Keys == h.subs.Keys
    && TenantsOk(h)
    && (forall fan {:trigger FanoutOk(h, fan)} :: fan in h.fanouts ==> FanoutOk(h, fan))
    && (forall ch {:trigger SubOk(h, ch)} :: ch in h.subs ==> SubOk(h, ch))
    && (forall c, d {:trigger DistinctIds(h, c, d)} :: c in h.subs && d in h.subs && c != d ==> DistinctIds(h, c, d))
  }

  predicate DistinctIds(h: Hub, c: nat, d: nat)
    requires c in h.subs && d in h.subs
  {
    h.subs[c].fan == h.subs[d].fan ==> h.subs[c].id != h.subs[d].id
  }

  lemma JoinedFanout(h: Hub, t: nat, ch: nat, f: nat)
    requires Structured(h) && ch !in h.chans && f !in h.fanouts
    ensures FanoutOk(Subscribed(h, t, ch, f), Joined(h, t, f))
  {
    var g := Subscribed(h, t, ch, f);
    var fan := Joined(h, t, f);
    var tf := if t in h.tenants then h.fanouts[fan] else Fresh(t);
    if t in h.tenants {
      assert FanoutOk(h, fan) && Current(h, fan);
    }
    assert tf.nextID !in tf.clients;
    assert tf.nextID in g.fanouts[fan].clients;
    assert |g.fanouts[fan].clients| == |tf.clients| + 1;
    assert tf.refCount == 0 <==> t !in h.tenants;
  }

  lemma OtherFanouts(h: Hub, t: nat, ch: nat, f: nat, k: nat)
    requires Structured(h) && ch !in h.chans && f !in h.fanouts && k in h.fanouts && k != Joined(h, t, f)
    ensures FanoutOk(Subscribed(h, t, ch, f), k)
  {
    assert FanoutOk(h, k);
    assert Current(Subscribed(h, t, ch, f), k) <==> Current(h, k);
  }

  lemma SubscribedSubs(h: Hub, t: nat, ch: nat, f: nat, c: nat)
    requires Structured(h) && ch !in h.chans && f !in h.fanouts && c in Subscribed(h, t, ch, f).subs
    ensures SubOk(Subscribed(h, t, ch, f), c)
    ensures c != ch && h.subs[c].fan == Joined(h, t, f) ==>
              Joined(h, t, f) in h.fanouts && h.subs[c].id < h.fanouts[Joined(h, t, f)].nextID
  {
    var g := Subscribed(h, t, ch, f);
    if c != ch {
      assert SubOk(h, c);
      if h.subs[c].active {
        assert FanoutOk(h, h.subs[c].fan);
        assert Current(g, h.subs[c].fan);
      }
    }
  }

  lemma SubscribedTables(h: Hub, t: nat, ch: nat, f: nat)
    requires TenantsOk(h) && h.chans.Keys == h.subs.Keys && f !in h.fanouts
    ensures TenantsOk(Subscribed(h, t, ch, f))
    ensures Subscribed(h, t, ch, f).chans.Keys == Subscribed(h, t, ch, f).subs.Keys
    ensures Subscribed(h, t, ch, f).fanouts.Keys == h.fanouts.Keys + {Joined(h, t, f)}
    ensures Subscribed(h, t, ch, f).subs.Keys == h.subs.Keys + {ch}
    ensures forall c :: c in h.subs && c != ch ==> Subscribed(h, t, ch, f).subs[c] == h.subs[c]
    ensures var g := Subscribed(h, t, ch, f);
            g.subs[ch].fan == Joined(h, t, f)
            && (Joined(h, t, f) in h.fanouts ==> g.subs[ch].id == h.fanouts[Joined(h, t, f)].nextID)
  {}

  lemma NewIdDiffers(h: Hub, t: nat, ch: nat, f: nat, c: nat)
    requires Structured(h) && ch !in h.chans && f !in h.fanouts && c in h.subs && c != ch
    ensures c in Subscribed(h, t, ch, f).subs && ch in Subscribed(h, t, ch, f).subs
    ensures DistinctIds(Subscribed(h, t, ch, f), c, ch) && DistinctIds(Subscribed(h, t, ch, f), ch, c)
  {
    SubscribedTables(h, t, ch, f);
    SubscribedSubs(h, t, ch, f, c);
    hide FanoutOk, SubOk, Current, Subscribed, TenantsOk, Structured;
  }

  lemma SubscribedIds(h: Hub, t: nat, ch: nat, f: nat, c: nat, d: nat)
    requires Structured(h) && ch !in h.chans && f !in h.fanouts && c != d
    requires c in Subscribed(h, t, ch, f).subs && d in Subscribed(h, t, ch, f).subs
    ensures DistinctIds(Subscribed(h, t, ch, f), c, d)
  {
    SubscribedTables(h, t, ch, f);
    hide FanoutOk, SubOk, Current, Subscribed, TenantsOk;
    if c == ch {
      NewIdDiffers(h, t, ch, f, d);
    } else if d == ch {
      NewIdDiffers(h, t, ch, f, c);
    } else {
      assert DistinctIds(h, c, d);
    }
  }

  lemma StructuredSubscribe(h: Hub, t: nat, ch: nat, f: nat)
    requires Structured(h) && ch !in h.chans && f !in h.fanouts
    ensures Structured(Subscribed(h, t, ch, f))
  {
    SubscribedTables(h, t, ch, f);
    hide FanoutOk, SubOk, Current, Subscribed, TenantsOk, DistinctIds;
    var g := Subscribed(h, t, ch, f);
    forall k | k in g.fanouts
      ensures FanoutOk(g, k)
    {
      if k == Joined(h, t, f) {
        JoinedFanout(h, t, ch, f);
      } else {
        OtherFanouts(h, t, ch, f, k);
      }
    }
    forall c | c in g.subs
      ensures SubOk(g, c)
    {
      SubscribedSubs(h, t, ch, f, c);
    }
    forall c, d | c in g.subs && d in g.subs && c != d
      ensures DistinctIds(g, c, d)
    {
      SubscribedIds(h, t, ch, f, c, d);
    }
  }

  lemma LeftFanout(h: Hub, ch: nat)
    requires Structured(h) && ch in h.subs && h.subs[ch].active
    ensures h.subs[ch].fan in Unsubscribed(h, ch).fanouts
    ensures FanoutOk(Unsubscribed(h, ch), h.subs[ch].fan)
  {
    var g := Unsubscribed(h, ch);
    var sub := h.subs[ch];
    assert SubOk(h, ch) && FanoutOk(h, sub.fan);
    var tf := h.fanouts[sub.fan];
    assert g.fanouts[sub.fan] == WithoutClient(tf, sub.id);
    var left := tf.clients - {sub.id};
    assert left.Keys == tf.clients.Keys - {sub.id};
    assert |left| == |tf.clients| - 1;
    assert |left| == 0 <==> left == map[];
    forall id | id in left
      ensures g.subs[left[id]] == Sub(tf.tenant, sub.fan, id, true)
    {
      assert left[id] != ch;
    }
  }

  lemma FanoutsNotLeft(h: Hub, ch: nat, k: nat)
    requires Structured(h) && ch in h.subs && h.subs[ch].active && k in h.fanouts && k != h.subs[ch].fan
    ensures FanoutOk(Unsubscribed(h, ch), k)
  {
    assert SubOk(h, ch) && FanoutOk(h, k);
    assert Current(Unsubscribed(h, ch), k) <==> Current(h, k);
  }

  lemma UnsubscribedSubs(h: Hub, ch: nat, c: nat)
    requires Structured(h) && ch in h.subs && h.subs[ch].active && c in h.subs
    ensures SubOk(Unsubscribed(h, ch), c)
  {
    var g := Unsubscribed(h, ch);
    var sub := h.subs[ch];
    assert SubOk(h, ch) && SubOk(h, c) && FanoutOk(h, sub.fan);
    if c != ch && h.subs[c].active && h.subs[c].fan == sub.fan {
      assert h.subs[c].id in g.fanouts[sub.fan].clients;
      assert |g.fanouts[sub.fan].clients| > 0;
      LeftFanout(h, ch);
    }
  }

  lemma UnsubscribedTables(h: Hub, ch: nat)
    requires TenantsOk(h) && h.chans.Keys == h.subs.Keys && ch in h.subs && h.subs[ch].active && SubOk(h, ch)
    ensures TenantsOk(Unsubscribed(h, ch))
    ensures Unsubscribed(h, ch).chans.Keys == Unsubscribed(h, ch).subs.Keys == h.subs.Keys
    ensures Unsubscribed(h, ch).fanouts.Keys == h.fanouts.Keys
    ensures forall c :: c in h.subs ==> Unsubscribed(h, ch).subs[c] == h.subs[c].(active := c != ch && h.subs[c].active)
  {}

  lemma StructuredUnsubscribe(h: Hub, ch: nat)
    requires Structured(h) && ch in h.subs
    ensures Structured(Unsubscribed(h, ch))
  {
    assert SubOk(h, ch);
    if h.subs[ch].active {
      UnsubscribedTables(h, ch);
      hide FanoutOk, SubOk, Unsubscribed, TenantsOk;
      var g := Unsubscribed(h, ch);
      forall k | k in g.fanouts
        ensures FanoutOk(g, k)
      {
        if k == h.subs[ch].fan {
          LeftFanout(h, ch);
        } else {
          FanoutsNotLeft(h, ch, k);
        }
      }
      forall c | c in g.subs
        ensures SubOk(g, c)
      {
        UnsubscribedSubs(h, ch, c);
      }
      forall c, d | c in g.subs && d in g.subs && c != d
        ensures DistinctIds(g, c, d)
      {
        assert DistinctIds(h, c, d);
      }
    } else {
      assert Unsubscribed(h, ch) == h;
    }
  }

  lemma StructuredChans(h: Hub, chans: map<nat, Chan>)
    requires Structured(h) && chans.Keys == h.chans.Keys
    requires forall c :: c in chans ==> chans[c].closes == h.chans[c].closes
    ensures Structured(h.(chans := chans))
  {
    var g := h.(chans := chans);
    forall k | k in g.fanouts
      ensures FanoutOk(g, k)
    {
      assert FanoutOk(h, k);
      assert Current(g, k) <==> Current(h, k);
    }
    forall c | c in g.subs
      ensures SubOk(g, c)
    {
      assert SubOk(h, c);
    }
    forall c, d | c in g.subs && d in g.subs && c != d
      ensures DistinctIds(g, c, d)
    {
      assert DistinctIds(h, c, d);
    }
  }

  lemma StructuredStep(s: Sys, a: Action)
    requires Structured(s.h) && Enabled(s, a)
    ensures Structured(Next(s, a).h)
  {
    hide Structured, Subscribed, Unsubscribed;
    match a
    case Subscribe(t, ch, f) => StructuredSubscribe(s.h, t, ch, f);
    case Unsubscribe(ch) => StructuredUnsubscribe(s.h, ch);
    case Publish(_, _) =>
    case _ => StructuredChans(s.h, Next(s, a).h.chans);
  }

  // ---- streams ----

  function Stream(c: Chan): seq<Msg> {
    c.got + c.buf
  }

  /** The stream is the log read at the positions, which increase from `lo` on and stay below `hi`. */
  predicate Embedded(stream: seq<Msg>, log: seq<Msg>, at: seq<nat>, lo: nat, hi: nat) {
    && |at| == |stream| && hi <= |log|
    && (forall i :: 0 <= i < |at| ==> lo <= at[i] < hi && stream[i] == log[at[i]])
    && (forall i, j :: 0 <= i < j < |at| ==> at[i] < at[j])
  }

  predicate StreamOk(s: Sys, ch: nat) {
    && ch in s.h.chans && ch in s.h.subs && ch in s.marks
    && s.h.subs[ch].fan in s.cursor
    && var m, sub := s.marks[ch], s.h.subs[ch];
       && m.since <= s.cursor[sub.fan]
       && m.since <= m.joined <= |LogOf(s, sub.tenant)|
       && Embedded(Stream(s.h.chans[ch]), LogOf(s, sub.tenant), m.at, m.since, s.cursor[sub.fan])
  }

  ghost predicate Streamed(s: Sys) {
    && s.cursor.Keys == s.h.fanouts.Keys
    && (forall fan :: fan in s.cursor ==> s.cursor[fan] <= |LogOf(s, s.h.fanouts[fan].tenant)|)
    && (forall ch {:trigger StreamOk(s, ch)} :: ch in s.h.subs ==> StreamOk(s, ch))
  }

  lemma NewStreamOk(s: Sys, t: nat, ch: nat, f: nat)
    requires Structured(s.h) && Streamed(s) && Enabled(s, Subscribe(t, ch, f))
    ensures StreamOk(Next(s, Subscribe(t, ch, f)), ch)
  {
    hide Embedded;
    var u := Next(s, Subscribe(t, ch, f));
    assert TenantsOk(s.h);
    hide Structured;
    assert Stream(u.h.chans[ch]) == [];
    NothingEmbedded(LogOf(u, t), u.marks[ch].since, u.cursor[u.h.subs[ch].fan]);
  }

  lemma StreamedSubscribe(s: Sys, t: nat, ch: nat, f: nat)
    requires Structured(s.h) && Streamed(s) && Enabled(s, Subscribe(t, ch, f))
    ensures Streamed(Next(s, Subscribe(t, ch, f)))
  {
    var u := Next(s, Subscribe(t, ch, f));
    hide Embedded, Structured;
    forall c | c in u.h.subs
      ensures StreamOk(u, c)
    {
      if c != ch {
        assert StreamOk(s, c);
      } else {
        NewStreamOk(s, t, ch, f);
      }
    }
  }

  lemma NothingEmbedded(log: seq<Msg>, lo: nat, hi: nat)
    requires hi <= |log|
    ensures Embedded([], log, [], lo, hi)
  {}

  /** A longer log, a further cursor, the same stream. */
  lemma EmbeddedGrows(stream: seq<Msg>, log: seq<Msg>, at: seq<nat>, lo: nat, hi: nat, log': seq<Msg>, hi': nat)
    requires Embedded(stream, log, at, lo, hi) && log <= log' && hi <= hi' <= |log'|
    ensures Embedded(stream, log', at, lo, hi')
  {}

  lemma EmbeddedSend(stream: seq<Msg>, log: seq<Msg>, at: seq<nat>, lo: nat, hi: nat, k: nat)
    requires Embedded(stream, log, at, lo, hi) && lo <= hi <= k < |log|
    ensures Embedded(stream + [log[k]], log, at + [k], lo, k + 1)
  {}

  /** No new subscription or fan-out, no cursor moved, logs only longer, streams as they were. */
  ghost predicate Quiet(s: Sys, u: Sys) {
    && u.h.fanouts.Keys == s.h.fanouts.Keys && u.h.subs.Keys == s.h.subs.Keys
    && u.cursor == s.cursor && u.marks == s.marks
    && (forall fan :: fan in s.h.fanouts ==> u.h.fanouts[fan].tenant == s.h.fanouts[fan].tenant)
    && (forall c :: c in s.h.subs ==> u.h.subs[c] == s.h.subs[c].(active := u.h.subs[c].active))
    && (forall c :: c in s.h.chans ==> c in u.h.chans && Stream(u.h.chans[c]) == Stream(s.h.chans[c]))
    && (forall t :: LogOf(s, t) <= LogOf(u, t))
  }

  lemma QuietUnsubscribe(s: Sys, ch: nat)
    requires Structured(s.h) && Enabled(s, Unsubscribe(ch))
    ensures Quiet(s, Next(s, Unsubscribe(ch)))
  {
    hide FanoutOk, SubOk, DistinctIds;
  }

  lemma QuietPublish(s: Sys, t: nat, msg: Msg)
    requires Structured(s.h)
    ensures Quiet(s, Next(s, Publish(t, msg)))
  {
    hide Structured, Stream;
  }

  lemma QuietRead(s: Sys, ch: nat)
    requires Structured(s.h) && Enabled(s, Read(ch))
    ensures Quiet(s, Next(s, Read(ch)))
  {
    var c := s.h.chans[ch];
    assert c.got + c.buf == (c.got + [c.buf[0]]) + c.buf[1..];
    hide FanoutOk, SubOk, DistinctIds, LogOf;
  }

  lemma QuietSteps(s: Sys, a: Action)
    requires Structured(s.h) && Enabled(s, a) && (a.Unsubscribe? || a.Publish? || a.Read?)
    ensures Quiet(s, Next(s, a))
  {
    hide Structured, Quiet, Next;
    match a
    case Unsubscribe(ch) => QuietUnsubscribe(s, ch);
    case Publish(t, msg) => QuietPublish(s, t, msg);
    case Read(ch) => QuietRead(s, ch);
  }

  lemma StreamedQuiet(s: Sys, u: Sys)
    requires Streamed(s) && Quiet(s, u)
    ensures Streamed(u)
  {
    hide LogOf, Stream;
    forall c | c in u.h.subs
      ensures StreamOk(u, c)
    {
      assert StreamOk(s, c);
      var t := s.h.subs[c].tenant;
      EmbeddedGrows(Stream(s.h.chans[c]), LogOf(s, t), s.marks[c].at, s.marks[c].since,
                    s.cursor[s.h.subs[c].fan], LogOf(u, t), s.cursor[s.h.subs[c].fan]);
    }
    forall fan | fan in u.cursor
      ensures u.cursor[fan] <= |LogOf(u, u.h.fanouts[fan].tenant)|
    {
      assert LogOf(s, s.h.fanouts[fan].tenant) <= LogOf(u, s.h.fanouts[fan].tenant);
    }
  }

  /** What a delivery does to one channel and its subscription's mark. */
  lemma DeliveredTo(s: Sys, fan: nat, k: nat, c: nat)
    requires Structured(s.h) && Streamed(s) && Enabled(s, Deliver(fan, k)) && c in s.h.subs
    ensures c in s.h.chans && c in s.marks && s.h.subs[c].fan in s.cursor
    ensures var u := Next(s, Deliver(fan, k)); var hit := c in Targets(s.h.fanouts[fan]);
            && c in u.h.chans && c in u.marks && u.h.subs == s.h.subs && u.log == s.log
            && u.cursor == s.cursor[fan := k + 1]
            && u.marks[c].since == s.marks[c].since && u.marks[c].joined == s.marks[c].joined
            && (hit ==> s.h.subs[c].fan == fan && s.h.subs[c].tenant == s.h.fanouts[fan].tenant)
            && if hit && |s.h.chans[c].buf| < CAPACITY
               then u.marks[c].at == s.marks[c].at + [k]
                    && Stream(u.h.chans[c]) == Stream(s.h.chans[c]) + [LogOf(s, s.h.subs[c].tenant)[k]]
               else u.marks[c].at == s.marks[c].at && Stream(u.h.chans[c]) == Stream(s.h.chans[c])
  {
    hide Embedded, DistinctIds, LogOf;
    assert StreamOk(s, c) && SubOk(s.h, c) && FanoutOk(s.h, fan);
    hide Structured, Streamed;
  }

  lemma StreamedTarget(s: Sys, fan: nat, k: nat, c: nat)
    requires Structured(s.h) && Streamed(s) && Enabled(s, Deliver(fan, k)) && c in s.h.subs
    ensures StreamOk(Next(s, Deliver(fan, k)), c)
  {
    assert StreamOk(s, c);
    DeliveredTo(s, fan, k, c);
    hide Structured, Streamed, Embedded, Targets, Stream;
    var sub, at, since := s.h.subs[c], s.marks[c].at, s.marks[c].since;
    var log, stream := LogOf(s, sub.tenant), Stream(s.h.chans[c]);
    var u := Next(s, Deliver(fan, k));
    assert LogOf(u, sub.tenant) == log;
    hide Next;
    if sub.fan == fan {
      if c in Targets(s.h.fanouts[fan]) && |s.h.chans[c].buf| < CAPACITY {
        EmbeddedSend(stream, log, at, since, s.cursor[fan], k);
      } else {
        SameTenant(s, fan, c);
        EmbeddedGrows(stream, log, at, since, s.cursor[fan], log, k + 1);
      }
    }
  }

  lemma SameTenant(s: Sys, fan: nat, c: nat)
    requires Structured(s.h) && c in s.h.subs && s.h.subs[c].fan == fan
    ensures fan in s.h.fanouts && s.h.fanouts[fan].tenant == s.h.subs[c].tenant
  {
    assert SubOk(s.h, c);
    hide FanoutOk, DistinctIds;
  }

  lemma StreamedStep(s: Sys, a: Action)
    requires Structured(s.h) && Streamed(s) && Enabled(s, a)
    ensures Streamed(Next(s, a))
  {
    match a
    case Subscribe(t, ch, f) => StreamedSubscribe(s, t, ch, f);
    case Deliver(fan, k) =>
      hide Structured, StreamOk, Targets;
      forall c | c in Next(s, a).h.subs
        ensures StreamOk(Next(s, a), c)
      {
        StreamedTarget(s, fan, k, c);
      }
    case _ =>
      QuietSteps(s, a);
      StreamedQuiet(s, Next(s, a));
  }

  lemma {:induction false} RunsKeepInvariants(s: Sys, run: seq<Action>, t: Sys)
    requires Structured(s.h) && Streamed(s) && Reaches(s, run, t)
    ensures Structured(t.h) && Streamed(t)
    decreases |run|
  {
    hide Next, Enabled, Structured, Streamed;
    if run != [] {
      StructuredStep(s, run[0]);
      StreamedStep(s, run[0]);
      RunsKeepInvariants(Next(s, run[0]), run[1..], t);
    }
  }

  // ---- main results, over every run ----

  /** A tenant's fan-out counts its clients, exists exactly while it has some, and has one live Redis loop. */
  lemma FanoutsCountTheirClients(run: seq<Action>, s: Sys, fan: nat)
    requires Reaches(EMPTY, run, s) && fan in s.h.fanouts
    ensures s.h.fanouts[fan].refCount == |s.h.fanouts[fan].clients|
    ensures Current(s.h, fan) <==> s.h.fanouts[fan].clients != map[]
    ensures s.h.fanouts[fan].loops == 1 && (s.h.fanouts[fan].cancelled <==> !Current(s.h, fan))
  {
    RunsKeepInvariants(EMPTY, run, s);
    assert FanoutOk(s.h, fan);
  }

  /** A channel is closed once, by its own unsubscription, and until then it is a client where it subscribed. */
  lemma ChannelsAreClosedOnce(run: seq<Action>, s: Sys, ch: nat)
    requires Reaches(EMPTY, run, s) && ch in s.h.subs
    ensures ch in s.h.chans && s.h.chans[ch].closes == (if s.h.subs[ch].active then 0 else 1)
    ensures s.h.subs[ch].active ==>
              var sub := s.h.subs[ch];
              sub.tenant in s.h.tenants && s.h.tenants[sub.tenant] == sub.fan
              && sub.fan in s.h.fanouts && sub.id in s.h.fanouts[sub.fan].clients
              && s.h.fanouts[sub.fan].clients[sub.id] == ch
  {
    RunsKeepInvariants(EMPTY, run, s);
    assert SubOk(s.h, ch);
  }

  /** No delivery, by any loop past or present, sends to a closed channel. */
  lemma NoSendOnClosedChannel(run: seq<Action>, s: Sys, fan: nat, ch: nat)
    requires Reaches(EMPTY, run, s) && fan in s.h.fanouts && ch in Targets(s.h.fanouts[fan])
    ensures ch in s.h.chans && s.h.chans[ch].closes == 0
  {
    RunsKeepInvariants(EMPTY, run, s);
    assert FanoutOk(s.h, fan) && SubOk(s.h, ch);
  }

  /** Within a fan-out a client id is never used twice, even after unsubscriptions. */
  lemma ClientIdsAreNotReused(run: seq<Action>, s: Sys, c: nat, d: nat)
    requires Reaches(EMPTY, run, s) && c in s.h.subs && d in s.h.subs && c != d
    ensures s.h.subs[c].fan == s.h.subs[d].fan ==> s.h.subs[c].id != s.h.subs[d].id
  {
    RunsKeepInvariants(EMPTY, run, s);
    assert DistinctIds(s.h, c, d);
  }

  /**
   What a client got, read or still buffered, is an in-order subsequence of what was published
   from the point its loop had read to; from its own subscription on, if the loop had caught up.
   */
  lemma StreamsAreInOrder(run: seq<Action>, s: Sys, ch: nat)
    requires Reaches(EMPTY, run, s) && ch in s.h.subs
    ensures ch in s.h.chans && ch in s.marks
    ensures var log := LogOf(s, s.h.subs[ch].tenant);
            exists at :: Embedded(Stream(s.h.chans[ch]), log, at, s.marks[ch].since, |log|)
    ensures s.marks[ch].since == s.marks[ch].joined ==>
              var log := LogOf(s, s.h.subs[ch].tenant);
              exists at :: Embedded(Stream(s.h.chans[ch]), log, at, s.marks[ch].joined, |log|)
  {
    RunsKeepInvariants(EMPTY, run, s);
    assert StreamOk(s, ch);
    var log, m := LogOf(s, s.h.subs[ch].tenant), s.marks[ch];
    EmbeddedGrows(Stream(s.h.chans[ch]), log, m.at, m.since, s.cursor[s.h.subs[ch].fan], log, |log|);
  }

  // ---- messages from before the subscription ----

  /** The tenant has a fan-out whose loop has not read everything published. */
  predicate Lags(s: Sys, t: nat) {
    t in s.h.tenants && s.h.tenants[t] in s.cursor && s.cursor[s.h.tenants[t]] < |LogOf(s, t)|
  }

  /** The channel was sent a message published before its client subscribed. */
  predicate HearsOld(s: Sys, ch: nat) {
    ch in s.marks && exists i :: 0 <= i < |s.marks[ch].at| && s.marks[ch].at[i] < s.marks[ch].joined
  }

  lemma NewClientIsTarget(s: Sys, t: nat, ch: nat, f: nat)
    requires Structured(s.h) && Enabled(s, Subscribe(t, ch, f)) && Lags(s, t)
    ensures var u := Next(s, Subscribe(t, ch, f)); var fan := s.h.tenants[t];
            && fan in u.h.fanouts && u.h.fanouts[fan].tenant == t && ch in Targets(u.h.fanouts[fan])
            && u.h.chans[ch] == Chan([], [], 0)
            && fan in u.cursor && u.cursor[fan] == s.cursor[fan] && LogOf(u, t) == LogOf(s, t)
            && u.marks[ch] == Mark(s.cursor[fan], |LogOf(s, t)|, [])
  {
    assert TenantsOk(s.h);
    hide Structured;
    var u := Next(s, Subscribe(t, ch, f));
    var tf := u.h.fanouts[s.h.tenants[t]];
    assert tf.clients[s.h.fanouts[s.h.tenants[t]].nextID] == ch;
  }

  /** The next delivery of a lagging loop sends the new client a message from before. */
  lemma LaggingLoopDeliversOldMessage(s: Sys, t: nat, ch: nat, f: nat)
    requires Structured(s.h) && Enabled(s, Subscribe(t, ch, f)) && Lags(s, t)
    ensures var m := Next(s, Subscribe(t, ch, f)); var k := s.cursor[s.h.tenants[t]];
            && Enabled(m, Deliver(s.h.tenants[t], k))
            && var u := Next(m, Deliver(s.h.tenants[t], k));
               ch in u.h.chans && u.h.chans[ch].buf == [LogOf(s, t)[k]] && HearsOld(u, ch)
  {
    NewClientIsTarget(s, t, ch, f);
    hide Structured, Targets;
    var m, k := Next(s, Subscribe(t, ch, f)), s.cursor[s.h.tenants[t]];
    var u := Next(m, Deliver(s.h.tenants[t], k));
    assert u.marks[ch].at == [k] && u.marks[ch].joined == |LogOf(s, t)|;
    assert u.marks[ch].at[0] < u.marks[ch].joined;
  }

  lemma StepKeepsMark(s: Sys, a: Action, ch: nat)
    requires Enabled(s, a) && ch in s.marks && ch in s.h.chans
    ensures var u := Next(s, a);
            && ch in u.marks && ch in u.h.chans
            && u.marks[ch].since == s.marks[ch].since && u.marks[ch].joined == s.marks[ch].joined
  {}

  lemma {:induction false} RunKeepsMark(s: Sys, run: seq<Action>, t: Sys, ch: nat)
    requires Reaches(s, run, t) && ch in s.marks && ch in s.h.chans
    ensures ch in t.marks && t.marks[ch].since == s.marks[ch].since && t.marks[ch].joined == s.marks[ch].joined
    decreases |run|
  {
    hide Next, Enabled;
    if run != [] {
      StepKeepsMark(s, run[0], ch);
      RunKeepsMark(Next(s, run[0]), run[1..], t, ch);
    }
  }

  /** A client that found its loop caught up never hears a message from before it subscribed. */
  lemma CaughtUpHearsNothingOld(s: Sys, t: nat, ch: nat, f: nat, more: seq<Action>, u: Sys)
    requires Structured(s.h) && Streamed(s) && Enabled(s, Subscribe(t, ch, f)) && !Lags(s, t)
    requires Reaches(Next(s, Subscribe(t, ch, f)), more, u)
    ensures !HearsOld(u, ch)
  {
    var m := Next(s, Subscribe(t, ch, f));
    NewMark(s, t, ch, f);
    StructuredStep(s, Subscribe(t, ch, f));
    StreamedStep(s, Subscribe(t, ch, f));
    RunsKeepInvariants(m, more, u);
    RunKeepsMark(m, more, u, ch);
    SubsRemain(m, more, u, ch);
    hide Structured, Reaches, Next;
    assert StreamOk(u, ch);
  }

  lemma NewMark(s: Sys, t: nat, ch: nat, f: nat)
    requires Structured(s.h) && Streamed(s) && Enabled(s, Subscribe(t, ch, f)) && !Lags(s, t)
    ensures var m := Next(s, Subscribe(t, ch, f));
            ch in m.marks && ch in m.h.chans && ch in m.h.subs && m.marks[ch].since == m.marks[ch].joined
  {
    assert TenantsOk(s.h);
    hide Structured;
  }

  lemma {:induction false} SubsRemain(s: Sys, run: seq<Action>, t: Sys, ch: nat)
    requires Reaches(s, run, t) && ch in s.h.subs
    ensures ch in t.h.subs
    decreases |run|
  {
    if run != [] {
      SubsRemain(Next(s, run[0]), run[1..], t, ch);
    }
  }

  lemma OneStep(s: Sys, a: Action)
    requires Enabled(s, a)
    ensures Reaches(s, [a], Next(s, a))
  {
    hide Next, Enabled;
    assert [a][1..] == [] && Reaches(Next(s, a), [], Next(s, a));
  }

  /** After the subscription some run sends the new client a message from before it. */
  ghost predicate CanHearOld(s: Sys, t: nat, ch: nat, f: nat)
    requires Enabled(s, Subscribe(t, ch, f))
  {
    exists more, u :: Reaches(Next(s, Subscribe(t, ch, f)), more, u) && HearsOld(u, ch)
  }

  /** Exactly when a new client can hear a message from before: its tenant's loop lags at that moment. */
  lemma OldMessagesIffLoopLags(run: seq<Action>, s: Sys, t: nat, ch: nat, f: nat)
    requires Reaches(EMPTY, run, s) && Enabled(s, Subscribe(t, ch, f))
    ensures CanHearOld(s, t, ch, f) <==> Lags(s, t)
  {
    RunsKeepInvariants(EMPTY, run, s);
    hide Structured, Streamed, HearsOld, Next, Enabled, Reaches;
    if Lags(s, t) {
      LaggingLoopDeliversOldMessage(s, t, ch, f);
      OneStep(Next(s, Subscribe(t, ch, f)), Deliver(s.h.tenants[t], s.cursor[s.h.tenants[t]]));
    } else if CanHearOld(s, t, ch, f) {
      var more, u :| Reaches(Next(s, Subscribe(t, ch, f)), more, u) && HearsOld(u, ch);
      CaughtUpHearsNothingOld(s, t, ch, f, more, u);
      assert false;
    }
  }
}
