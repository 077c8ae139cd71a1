/**
 The in-memory event hub: fan-outs with their clients and channels as an object updated
 under its mutex, and the operations as functions on its state.
 */
module EventHub {
  type Msg = string

  /** One tenant's fan-out. `loops` counts the Redis loops started for it. */
  datatype Fanout = Fanout(tenant: nat, refCount: int, clients: map<nat, nat>, nextID: nat, cancelled: bool, loops: nat)

  /** A buffered channel: what waits in it, what was read from it, and how often it was closed. */
  datatype Chan = Chan(buf: seq<Msg>, got: seq<Msg>, closes: nat)

  /** What the unsubscribe closure remembers; `active` until its sync.Once has fired. */
  datatype Sub = Sub(tenant: nat, fan: nat, id: nat, active: bool)

  datatype Hub = Hub(tenants: map<nat, nat>, fanouts: map<nat, Fanout>, chans: map<nat, Chan>, subs: map<nat, Sub>)

  const CAPACITY: nat := 16

  function Fresh(t: nat): Fanout {
    Fanout(t, 0, map[], 0, false, 0)
  }

  /** The fan-out that a subscriber joins; `f` names it if it is new. */
  function Joined(h: Hub, t: nat, f: nat): nat {
    if t in h.tenants then h.tenants[t] else f
  }

  function WithClient(tf: Fanout, ch: nat): Fanout {
    var n := tf.refCount + 1;
    tf.(clients := tf.clients[tf.nextID := ch], nextID := tf.nextID + 1, refCount := n,
        loops := tf.loops + if n == 1 then 1 else 0)
  }

  function Subscribed(h: Hub, t: nat, ch: nat, f: nat): Hub
    requires t in h.tenants ==> h.tenants[t] in h.fanouts
  {
    var fan := Joined(h, t, f);
    var tf := if t in h.tenants then h.fanouts[fan] else Fresh(t);
    Hub(h.tenants[t := fan],
        h.fanouts[fan := WithClient(tf, ch)],
        h.chans[ch := Chan([], [], 0)],
        h.subs[ch := Sub(t, fan, tf.nextID, true)])
  }

  function WithoutClient(tf: Fanout, id: nat): Fanout {
    var n := tf.refCount - 1;
    tf.(clients := tf.clients - {id}, refCount := n, cancelled := tf.cancelled || n <= 0)
  }

  function Unsubscribed(h: Hub, ch: nat): Hub
    requires ch in h.subs && ch in h.chans
    requires h.subs[ch].tenant in h.tenants ==> h.tenants[h.subs[ch].tenant] in h.fanouts
  {
    var sub := h.subs[ch];
    if !sub.active then h
    else if sub.tenant !in h.tenants then h.(subs := h.subs[ch := sub.(active := false)])
    else
      var fan := h.tenants[sub.tenant];
      var tf := WithoutClient(h.fanouts[fan], sub.id);
      Hub(if tf.refCount <= 0 then h.tenants - {sub.tenant} else h.tenants,
          h.fanouts[fan := tf],
          h.chans[ch := h.chans[ch].(closes := h.chans[ch].closes + 1)],
          h.subs[ch := sub.(active := false)])
  }

  function Targets(tf: Fanout): set<nat> {
    set id | id in tf.clients :: tf.clients[id]
  }

  /** A non-blocking send. */
  function Sent(c: Chan, msg: Msg): Chan {
    if |c.buf| < CAPACITY then c.(buf := c.buf + [msg]) else c
  }

  function Delivered(h: Hub, fan: nat, msg: Msg): Hub
    requires fan in h.fanouts
  {
    h.(chans := map c | c in h.chans :: if c in Targets(h.fanouts[fan]) then Sent(h.chans[c], msg) else h.chans[c])
  }

  class HubObject {
    var tenants: map<nat, nat>
    var fanouts: map<nat, Fanout>
    var chans: map<nat, Chan>
    var subs: map<nat, Sub>

    constructor ()
      ensures State() == Hub(map[], map[], map[], map[])
    {
      tenants, fanouts, chans, subs := map[], map[], map[], map[];
    }

    function State(): Hub
      reads this
    {
      Hub(tenants, fanouts, chans, subs)
    }

    /** `ch` and `f` are the addresses of the channel and, if it is new, of the fan-out. */
    method Subscribe(t: nat, ch: nat, f: nat)
      requires t in tenants ==> tenants[t] in fanouts
      modifies this
      ensures State() == Subscribed(old(State()), t, ch, f)
    {
      chans := chans[ch := Chan([], [], 0)];
      if t !in tenants {
        tenants := tenants[t := f];
        fanouts := fanouts[f := Fresh(t)];
      }
      var fan := tenants[t];
      var tf := fanouts[fan];
      var id := tf.nextID;
      tf := tf.(nextID := id + 1, clients := tf.clients[id := ch], refCount := tf.refCount + 1);
      if tf.refCount == 1 {
        tf := tf.(loops := tf.loops + 1);
      }
      fanouts := fanouts[fan := tf];
      subs := subs[ch := Sub(t, fan, id, true)];
      assert tenants == Subscribed(old(State()), t, ch, f).tenants;
    }

    method Unsubscribe(ch: nat)
      requires ch in subs && ch in chans
      requires subs[ch].tenant in tenants ==> tenants[subs[ch].tenant] in fanouts
      modifies this
      ensures State() == Unsubscribed(old(State()), ch)
    {
      var sub := subs[ch];
      if !sub.active {
        return;
      }
      subs := subs[ch := sub.(active := false)];
      if sub.tenant !in tenants {
        return;
      }
      var fan := tenants[sub.tenant];
      var tf := fanouts[fan];
      tf := tf.(clients := tf.clients - {sub.id}, refCount := tf.refCount - 1);
      chans := chans[ch := chans[ch].(closes := chans[ch].closes + 1)];
      if tf.refCount <= 0 {
        tf := tf.(cancelled := true);
        tenants := tenants - {sub.tenant};
      }
      fanouts := fanouts[fan := tf];
    }

    /** The delivery loop of a Redis loop, over the clients in some order. */
    method Deliver(fan: nat, msg: Msg)
      requires fan in fanouts && Targets(fanouts[fan]) <= chans.Keys
      requires forall i, j :: i in fanouts[fan].clients && j in fanouts[fan].clients && i != j ==>
                 fanouts[fan].clients[i] != fanouts[fan].clients[j]
      modifies this`chans
      ensures State() == Delivered(old(State()), fan, msg)
    {
      hide Sent;
      var clients := fanouts[fan].clients;
      var rest := clients.Keys;
      while rest != {}
        invariant rest <= clients.Keys && chans.Keys == old(chans).Keys
        invariant forall id :: id in rest ==> chans[clients[id]] == old(chans)[clients[id]]
        invariant forall id :: id in clients.Keys - rest ==> chans[clients[id]] == Sent(old(chans)[clients[id]], msg)
        invariant forall c :: c in chans && c !in Targets(fanouts[fan]) ==> chans[c] == old(chans)[c]
        decreases rest
      {
        var id :| id in rest;
        rest := rest - {id};
        var c := clients[id];
        assert c in Targets(fanouts[fan]);
        chans := chans[c := Sent(chans[c], msg)];
      }
    }
  }
}
