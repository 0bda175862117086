// Watching a node's log while it is being written: publishing files lines under a
// lock and sends them outside it, so any number of publishes, subscriptions and
// reads interleave. Lines are identified by their position in the panel's file.
module LogWatchers {
  import opened LogBuffer
  import opened NodeLogs

  // A publish past its locked part: lines lo..hi are filed and still to be sent to
  // the watchers in `todo`, the first of which has been offered lo..at.
  datatype Publish = Publish(lo: nat, hi: nat, todo: seq<nat>, at: nat)

  // A watcher's channel. `since` and `until` delimit the lines filed while it was
  // subscribed; `got` is what the reader has taken out.
  datatype Channel = Channel(since: nat, until: nat, backlog: seq<string>,
                             queue: seq<nat>, got: seq<nat>, dropped: set<nat>)

  datatype Hub = Hub(filing: Filing<string, string>, subs: set<nat>,
                     channels: map<nat, Channel>, inflight: map<nat, Publish>) {

    // The lines this watcher is entitled to see live end here.
    function Limit(w: nat): nat
      requires w in channels
    {
      if w in subs then |filing.log| else channels[w].until
    }
  }

  datatype Step =
    | Begin(p: nat, epoch: string, at: int, lines: seq<string>, order: seq<nat>)
    | Send(p: nat)
    | Receive(w: nat)
    | Subscribe(w: nat)
    | Unsubscribe(w: nat)

  function Boot(): Hub { Hub(Filing("", 0, []), {}, map[], map[]) }

  // The watchers in whatever order the set happened to be walked.
  predicate Lists(order: seq<nat>, ws: set<nat>) {
    && (forall w :: w in ws ==> w in order)
    && (forall w :: w in order ==> w in ws)
    && Distinct(order)
  }

  predicate Distinct(s: seq<nat>) {
    forall i, j :: 0 <= i < j < |s| ==> s[i] != s[j]
  }

  // A step that cannot be taken changes nothing.
  function Take(h: Hub, step: Step): Hub {
    match step
    case Begin(p, epoch, at, lines, order) =>
      if p in h.inflight || !Lists(order, h.subs) then h
      else
        var filing := FileBatch(h.filing, epoch, at, lines);
        var lo, hi := |h.filing.log|, |filing.log|;
        if lo == hi then h.(filing := filing)
        else h.(filing := filing, inflight := h.inflight[p := Publish(lo, hi, order, lo)])
    case Send(p) => if p in h.inflight then SendOne(h, p) else h
    case Receive(w) =>
      if w in h.channels && h.channels[w].queue != [] then
        var c := h.channels[w];
        h.(channels := h.channels[w := c.(queue := c.queue[1..], got := c.got + [c.queue[0]])])
      else h
    case Subscribe(w) =>
      if w in h.channels then h
      else
        var c := Channel(|h.filing.log|, |h.filing.log|, Newest(h.filing.log, SNAPSHOT_LINES), [], [], {});
        h.(channels := h.channels[w := c], subs := h.subs + {w})
    case Unsubscribe(w) =>
      if w in h.subs && w in h.channels then
        h.(channels := h.channels[w := h.channels[w].(until := |h.filing.log|)], subs := h.subs - {w})
      else h
  }

  function Offered(c: Channel, i: nat): Channel {
    if |c.queue| < NODE_LOG_QUEUE then c.(queue := c.queue + [i]) else c.(dropped := c.dropped + {i})
  }

  function SendOne(h: Hub, p: nat): Hub
    requires p in h.inflight
  {
    var pub := h.inflight[p];
    if pub.todo == [] then h.(inflight := h.inflight - {p})
    else if pub.at >= pub.hi then
      h.(inflight := h.inflight[p := pub.(todo := pub.todo[1..], at := pub.lo)])
    else if pub.todo[0] !in h.channels then h
    else
      var w := pub.todo[0];
      h.(channels := h.channels[w := Offered(h.channels[w], pub.at)],
         inflight := h.inflight[p := pub.(at := pub.at + 1)])
  }

  function Run(h: Hub, steps: seq<Step>): Hub {
    if steps == [] then h else Take(Run(h, steps[..|steps| - 1]), steps[|steps| - 1])
  }

  // Line i is still to be offered to w by a publish.
  predicate StillToSend(pub: Publish, w: nat, i: nat) {
    && pub.lo <= i < pub.hi
    && pub.todo != []
    && (w in pub.todo[1..] || (w == pub.todo[0] && pub.at <= i))
  }

  ghost predicate Pending(h: Hub, w: nat, i: nat) {
    exists p :: p in h.inflight && StillToSend(h.inflight[p], w, i)
  }

  // Line i went, or is queued to go, down the live channel.
  predicate Live(c: Channel, i: nat) { i in c.got || i in c.queue }

  ghost predicate PublishOk(h: Hub, pub: Publish) {
    && pub.lo <= pub.at <= pub.hi <= |h.filing.log|
    && Distinct(pub.todo)
    && (forall w :: w in pub.todo ==> w in h.channels && h.channels[w].since <= pub.lo && pub.hi <= h.Limit(w))
  }

  ghost predicate ChannelOk(h: Hub, w: nat)
    requires w in h.channels
  {
    var c := h.channels[w];
    && c.since <= h.Limit(w) <= |h.filing.log|
    && c.backlog == Newest(h.filing.log[..c.since], SNAPSHOT_LINES)
    && Distinct(c.got + c.queue)
    && (forall i :: Live(c, i) ==> i !in c.dropped)
  }

  // Every line filed while w was subscribed met exactly one of three fates, and no
  // other line ever reaches w.
  ghost predicate FateOf(h: Hub, w: nat, i: nat)
    requires w in h.channels
  {
    var c := h.channels[w];
    && (c.since <= i < h.Limit(w) <==> Live(c, i) || i in c.dropped || Pending(h, w, i))
    && !(Pending(h, w, i) && (Live(c, i) || i in c.dropped))
  }

  ghost predicate Sound(h: Hub) {
    && h.subs <= h.channels.Keys
    && (forall p :: p in h.inflight ==> PublishOk(h, h.inflight[p]))
    && (forall p, q :: p in h.inflight && q in h.inflight && p != q ==>
          h.inflight[p].hi <= h.inflight[q].lo || h.inflight[q].hi <= h.inflight[p].lo)
    && (forall w :: w in h.channels ==> ChannelOk(h, w))
  }

  ghost predicate Fated(h: Hub) {
    forall w, i :: w in h.channels ==> FateOf(h, w, i)
  }

  ghost predicate Consistent(h: Hub) { Sound(h) && Fated(h) }

  lemma BeginKeeps(h: Hub, p: nat, epoch: string, at: int, lines: seq<string>, order: seq<nat>)
    requires Consistent(h)
    ensures Consistent(Take(h, Begin(p, epoch, at, lines, order)))
  {
    if p !in h.inflight && Lists(order, h.subs) {
      var filing := FileBatch(h.filing, epoch, at, lines);
      assert h.filing.log <= filing.log;
      Filed(h, p, filing, order);
    }
  }

  // The locked part of a publish, whatever it files.
  function WithFiled(h: Hub, p: nat, filing: Filing<string, string>, order: seq<nat>): Hub {
    var lo, hi := |h.filing.log|, |filing.log|;
    h.(filing := filing, inflight := if lo == hi then h.inflight else h.inflight[p := Publish(lo, hi, order, lo)])
  }

  lemma Filed(h: Hub, p: nat, filing: Filing<string, string>, order: seq<nat>)
    requires Consistent(h) && p !in h.inflight && Lists(order, h.subs) && h.filing.log <= filing.log
    ensures Consistent(WithFiled(h, p, filing, order))
  {
    var h' := WithFiled(h, p, filing, order);
    FiledIsSound(h, p, filing, order);
    forall w, i | w in h'.channels ensures FateOf(h', w, i) { BeginFate(h, h', p, order, w, i); }
  }

  lemma FiledIsSound(h: Hub, p: nat, filing: Filing<string, string>, order: seq<nat>)
    requires Sound(h) && p !in h.inflight && Lists(order, h.subs) && h.filing.log <= filing.log
    ensures Sound(WithFiled(h, p, filing, order))
  {
    var h' := WithFiled(h, p, filing, order);
    forall w | w in h'.channels ensures ChannelOk(h', w) {
      assert ChannelOk(h, w);
      assert filing.log[..h.channels[w].since] == h.filing.log[..h.channels[w].since];
    }
    forall q | q in h'.inflight ensures PublishOk(h', h'.inflight[q]) {
      if q in h.inflight {
        assert PublishOk(h, h.inflight[q]) && h'.inflight[q] == h.inflight[q];
      } else {
        forall w | w in order
          ensures w in h.channels && h.channels[w].since <= |h.filing.log|
        {
          assert ChannelOk(h, w);
        }
      }
    }
    forall q, r | q in h'.inflight && r in h'.inflight && q != r
      ensures h'.inflight[q].hi <= h'.inflight[r].lo || h'.inflight[r].hi <= h'.inflight[q].lo
    {
      if q in h.inflight { assert PublishOk(h, h.inflight[q]); }
      if r in h.inflight { assert PublishOk(h, h.inflight[r]); }
    }
  }

  lemma BeginFate(h: Hub, h': Hub, p: nat, order: seq<nat>, w: nat, i: nat)
    requires Consistent(h) && w in h.channels
    requires p !in h.inflight && Lists(order, h.subs)
    requires h'.subs == h.subs && h'.channels == h.channels
    requires |h.filing.log| <= |h'.filing.log|
    requires var lo, hi := |h.filing.log|, |h'.filing.log|;
             h'.inflight == if lo == hi then h.inflight else h.inflight[p := Publish(lo, hi, order, lo)]
    ensures FateOf(h', w, i)
  {
    assert FateOf(h, w, i) && ChannelOk(h, w);
    var lo, hi := |h.filing.log|, |h'.filing.log|;
    var news := lo <= i < hi && w in h.subs;
    assert Pending(h', w, i) <==> Pending(h, w, i) || news by {
      if Pending(h, w, i) {
        var q :| q in h.inflight && StillToSend(h.inflight[q], w, i);
        assert q in h'.inflight && h'.inflight[q] == h.inflight[q];
      }
      if news {
        assert w in order && h'.inflight[p] == Publish(lo, hi, order, lo);
        assert order == [order[0]] + order[1..];
        assert StillToSend(h'.inflight[p], w, i);
      }
      if Pending(h', w, i) {
        var q :| q in h'.inflight && StillToSend(h'.inflight[q], w, i);
        if q != p { assert h'.inflight[q] == h.inflight[q]; }
      }
    }
  }

  lemma NothingForStrangers(h: Hub, w: nat, i: nat)
    requires Consistent(h) && w !in h.channels
    ensures !Pending(h, w, i)
  {
    forall p | p in h.inflight ensures !StillToSend(h.inflight[p], w, i) { assert PublishOk(h, h.inflight[p]); }
  }

  lemma HeadNotInTail(s: seq<nat>)
    requires s != [] && Distinct(s)
    ensures s[0] !in s[1..]
  {
    forall k | 0 <= k < |s| - 1 ensures s[1..][k] != s[0] { assert s[1..][k] == s[k + 1]; }
  }

  lemma SubscribeKeeps(h: Hub, w: nat)
    requires Consistent(h)
    ensures Consistent(Take(h, Subscribe(w)))
  {
    if w !in h.channels {
      SubscribeIsSound(h, w);
      SubscribeIsFated(h, w);
    }
  }

  lemma SubscribeIsSound(h: Hub, w: nat)
    requires Sound(h) && w !in h.channels
    ensures Sound(Take(h, Subscribe(w)))
  {
    var h' := Take(h, Subscribe(w));
    assert h.filing.log[..|h.filing.log|] == h.filing.log;
    forall v | v in h'.channels ensures ChannelOk(h', v) { if v != w { assert ChannelOk(h, v); } }
    forall p | p in h'.inflight ensures PublishOk(h', h'.inflight[p]) { assert PublishOk(h, h.inflight[p]); }
  }

  lemma SubscribeIsFated(h: Hub, w: nat)
    requires Consistent(h) && w !in h.channels
    ensures Fated(Take(h, Subscribe(w)))
  {
    var h' := Take(h, Subscribe(w));
    forall v, i | v in h'.channels ensures FateOf(h', v, i) {
      assert Pending(h', v, i) <==> Pending(h, v, i);
      if v != w {
        assert FateOf(h, v, i);
      } else {
        NothingForStrangers(h, w, i);
      }
    }
  }

  lemma UnsubscribeKeeps(h: Hub, w: nat)
    requires Consistent(h)
    ensures Consistent(Take(h, Unsubscribe(w)))
  {
    var h' := Take(h, Unsubscribe(w));
    if h' != h {
      forall v | v in h'.channels ensures h'.Limit(v) == h.Limit(v) && ChannelOk(h', v) { assert ChannelOk(h, v); }
      forall p | p in h'.inflight ensures PublishOk(h', h'.inflight[p]) { assert PublishOk(h, h.inflight[p]); }
      forall v, i | v in h'.channels ensures FateOf(h', v, i) {
        assert FateOf(h, v, i);
        assert Pending(h', v, i) <==> Pending(h, v, i);
      }
    }
  }

  lemma ReceiveKeeps(h: Hub, w: nat)
    requires Consistent(h)
    ensures Consistent(Take(h, Receive(w)))
  {
    if w in h.channels && h.channels[w].queue != [] {
      ReceiveMovesOne(h.channels[w]);
      ReceiveIsSound(h, w);
      ReceiveIsFated(h, w);
    }
  }

  function Received(c: Channel): Channel
    requires c.queue != []
  {
    c.(queue := c.queue[1..], got := c.got + [c.queue[0]])
  }

  lemma ReceiveMovesOne(c: Channel)
    requires c.queue != []
    ensures Received(c).got + Received(c).queue == c.got + c.queue
    ensures forall i :: Live(Received(c), i) <==> Live(c, i)
  {
    assert c.queue == [c.queue[0]] + c.queue[1..];
  }

  lemma ReceiveIsSound(h: Hub, w: nat)
    requires Sound(h) && w in h.channels && h.channels[w].queue != []
    ensures Sound(Take(h, Receive(w)))
  {
    var h' := Take(h, Receive(w));
    ReceiveMovesOne(h.channels[w]);
    forall v | v in h'.channels ensures ChannelOk(h', v) { assert ChannelOk(h, v); }
    forall p | p in h'.inflight ensures PublishOk(h', h'.inflight[p]) { assert PublishOk(h, h.inflight[p]); }
  }

  lemma ReceiveIsFated(h: Hub, w: nat)
    requires Consistent(h) && w in h.channels && h.channels[w].queue != []
    ensures Fated(Take(h, Receive(w)))
  {
    var h' := Take(h, Receive(w));
    ReceiveMovesOne(h.channels[w]);
    forall v, i | v in h'.channels ensures FateOf(h', v, i) {
      assert FateOf(h, v, i);
      assert Pending(h', v, i) <==> Pending(h, v, i);
    }
  }

  // Nothing is left for the publish's first watcher.
  predicate DoneWithFirst(h: Hub, p: nat) {
    p in h.inflight && (h.inflight[p].todo == [] || h.inflight[p].at == h.inflight[p].hi)
  }

  // Moving on to the next watcher, or finishing.
  lemma MoveOnKeeps(h: Hub, p: nat)
    requires Consistent(h) && DoneWithFirst(h, p)
    ensures Consistent(SendOne(h, p))
  {
    MoveOnIsSound(h, p);
    MoveOnIsFated(h, p);
  }

  lemma MoveOnIsSound(h: Hub, p: nat)
    requires Sound(h) && DoneWithFirst(h, p)
    ensures Sound(SendOne(h, p))
  {
    var h' := SendOne(h, p);
    forall q | q in h'.inflight ensures PublishOk(h', h'.inflight[q]) { MoveOnPublishOk(h, p, q); }
    forall v | v in h'.channels ensures ChannelOk(h', v) { assert ChannelOk(h, v); }
  }

  lemma MoveOnPublishOk(h: Hub, p: nat, q: nat)
    requires DoneWithFirst(h, p) && q in SendOne(h, p).inflight && PublishOk(h, h.inflight[q])
    ensures PublishOk(SendOne(h, p), SendOne(h, p).inflight[q])
  {
    var h' := SendOne(h, p);
    forall v | v in h.channels ensures h'.Limit(v) == h.Limit(v) { }
    if q == p {
      var todo := h.inflight[p].todo;
      assert forall k :: 0 <= k < |todo| - 1 ==> todo[1..][k] == todo[k + 1];
    }
  }

  lemma MoveOnIsFated(h: Hub, p: nat)
    requires Consistent(h) && DoneWithFirst(h, p)
    ensures Fated(SendOne(h, p))
  {
    var h' := SendOne(h, p);
    forall v, i | v in h'.channels ensures FateOf(h', v, i) {
      assert FateOf(h, v, i);
      assert PublishOk(h, h.inflight[p]);
      if Pending(h, v, i) { MoveOnLeaves(h, p, v, i); }
      if Pending(h', v, i) { MoveOnAddsNone(h, p, v, i); }
    }
  }

  lemma NextInLine(pub: Publish, v: nat, i: nat)
    requires pub.todo != [] && pub.at == pub.hi
    ensures StillToSend(pub.(todo := pub.todo[1..], at := pub.lo), v, i) <==> StillToSend(pub, v, i)
  {
    if pub.todo[1..] != [] {
      assert pub.todo[1..] == [pub.todo[1..][0]] + pub.todo[1..][1..];
    }
  }

  lemma MoveOnLeaves(h: Hub, p: nat, v: nat, i: nat)
    requires DoneWithFirst(h, p) && PublishOk(h, h.inflight[p]) && Pending(h, v, i)
    ensures Pending(SendOne(h, p), v, i)
  {
    var q :| q in h.inflight && StillToSend(h.inflight[q], v, i);
    var h' := SendOne(h, p);
    if q == p { NextInLine(h.inflight[p], v, i); }
    assert q in h'.inflight && StillToSend(h'.inflight[q], v, i);
  }

  lemma MoveOnAddsNone(h: Hub, p: nat, v: nat, i: nat)
    requires DoneWithFirst(h, p) && PublishOk(h, h.inflight[p]) && Pending(SendOne(h, p), v, i)
    ensures Pending(h, v, i)
  {
    var h' := SendOne(h, p);
    var q :| q in h'.inflight && StillToSend(h'.inflight[q], v, i);
    if q == p { NextInLine(h.inflight[p], v, i); }
    assert q in h.inflight && StillToSend(h.inflight[q], v, i);
  }

  lemma OfferKeeps(h: Hub, p: nat)
    requires Consistent(h) && CanOffer(h, p)
    ensures Consistent(SendOne(h, p))
  {
    OfferIsSound(h, p);
    forall v, i | v in SendOne(h, p).channels ensures FateOf(SendOne(h, p), v, i) { OfferFate(h, p, v, i); }
  }

  lemma OfferIsSound(h: Hub, p: nat)
    requires Consistent(h) && CanOffer(h, p)
    ensures Sound(SendOne(h, p))
  {
    var h' := SendOne(h, p);
    assert PublishOk(h, h.inflight[p]) && h.inflight[p].todo[0] in h.inflight[p].todo;
    forall v | v in h'.channels ensures ChannelOk(h', v) { OfferChannelOk(h, p, v); }
    forall q | q in h'.inflight ensures PublishOk(h', h'.inflight[q]) { OfferPublishOk(h, p, q); }
  }

  lemma OfferPublishOk(h: Hub, p: nat, q: nat)
    requires CanOffer(h, p) && h.inflight[p].todo[0] in h.channels && q in h.inflight && PublishOk(h, h.inflight[q])
    ensures q in SendOne(h, p).inflight && PublishOk(SendOne(h, p), SendOne(h, p).inflight[q])
  {
    var h' := SendOne(h, p);
    forall v | v in h.channels ensures h'.Limit(v) == h.Limit(v) && h'.channels[v].since == h.channels[v].since { }
  }

  // The publish has a line to offer to its first watcher.
  predicate CanOffer(h: Hub, p: nat) {
    p in h.inflight && h.inflight[p].todo != [] && h.inflight[p].at < h.inflight[p].hi
  }

  lemma OfferedIsPending(h: Hub, p: nat)
    requires Consistent(h) && CanOffer(h, p)
    ensures var pub := h.inflight[p];
            && pub.todo[0] in h.channels
            && Pending(h, pub.todo[0], pub.at) && FateOf(h, pub.todo[0], pub.at)
  {
    var pub := h.inflight[p];
    assert PublishOk(h, pub) && pub.todo[0] in pub.todo;
    assert StillToSend(pub, pub.todo[0], pub.at);
  }

  lemma OfferChannelOk(h: Hub, p: nat, v: nat)
    requires Consistent(h) && CanOffer(h, p) && v in h.channels
    ensures v in SendOne(h, p).channels && ChannelOk(SendOne(h, p), v)
  {
    assert ChannelOk(h, v);
    OfferedIsPending(h, p);
    OfferedOk(h.channels[v], h.inflight[p].at);
  }

  lemma OfferFate(h: Hub, p: nat, v: nat, i: nat)
    requires Consistent(h) && CanOffer(h, p) && v in h.channels
    ensures v in SendOne(h, p).channels && FateOf(SendOne(h, p), v, i)
  {
    assert FateOf(h, v, i);
    OfferedIsPending(h, p);
    OfferPending(h, p, v, i);
    OfferedOk(h.channels[v], h.inflight[p].at);
  }

  lemma OfferedOk(c: Channel, at: nat)
    ensures var c' := Offered(c, at);
            && (forall i :: Live(c', i) || i in c'.dropped <==> Live(c, i) || i in c.dropped || i == at)
            && (!Live(c, at) && Distinct(c.got + c.queue) ==> Distinct(c'.got + c'.queue))
            && (!Live(c, at) && at !in c.dropped && (forall i :: Live(c, i) ==> i !in c.dropped) ==>
                  forall i :: Live(c', i) ==> i !in c'.dropped)
  {
    var c' := Offered(c, at);
    if c'.queue != c.queue {
      assert c'.got + c'.queue == (c.got + c.queue) + [at];
    }
  }

  // Offering a line settles it for that watcher and for no one else.
  lemma OfferPending(h: Hub, p: nat, v: nat, i: nat)
    requires Consistent(h) && CanOffer(h, p)
    ensures var pub := h.inflight[p];
            Pending(SendOne(h, p), v, i) <==> Pending(h, v, i) && !(v == pub.todo[0] && i == pub.at)
  {
    var pub := h.inflight[p];
    assert PublishOk(h, pub) && pub.todo[0] in pub.todo;
    if Pending(h, v, i) && !(v == pub.todo[0] && i == pub.at) { OfferLeaves(h, p, v, i); }
    if Pending(SendOne(h, p), v, i) { OfferSettles(h, p, v, i); }
  }

  // One publish, one line further on.
  lemma OneFurther(pub: Publish, v: nat, i: nat)
    requires pub.todo != [] && Distinct(pub.todo) && pub.at < pub.hi
    ensures StillToSend(pub.(at := pub.at + 1), v, i) <==> StillToSend(pub, v, i) && !(v == pub.todo[0] && i == pub.at)
  {
    HeadNotInTail(pub.todo);
  }

  lemma OfferLeaves(h: Hub, p: nat, v: nat, i: nat)
    requires CanOffer(h, p) && PublishOk(h, h.inflight[p]) && h.inflight[p].todo[0] in h.channels
    requires Pending(h, v, i) && !(v == h.inflight[p].todo[0] && i == h.inflight[p].at)
    ensures Pending(SendOne(h, p), v, i)
  {
    var q :| q in h.inflight && StillToSend(h.inflight[q], v, i);
    OneFurther(h.inflight[p], v, i);
    assert q in SendOne(h, p).inflight && StillToSend(SendOne(h, p).inflight[q], v, i);
  }

  lemma OfferSettles(h: Hub, p: nat, v: nat, i: nat)
    requires Sound(h) && CanOffer(h, p) && h.inflight[p].todo[0] in h.channels && Pending(SendOne(h, p), v, i)
    ensures Pending(h, v, i) && !(v == h.inflight[p].todo[0] && i == h.inflight[p].at)
  {
    var h' := SendOne(h, p);
    var q :| q in h'.inflight && StillToSend(h'.inflight[q], v, i);
    assert PublishOk(h, h.inflight[p]) && PublishOk(h, h.inflight[q]);
    OneFurther(h.inflight[p], v, i);
    assert q in h.inflight && StillToSend(h.inflight[q], v, i);
  }

  lemma TakeKeeps(h: Hub, step: Step)
    requires Consistent(h)
    ensures Consistent(Take(h, step))
  {
    match step
    case Begin(p, epoch, at, lines, order) => BeginKeeps(h, p, epoch, at, lines, order);
    case Send(p) =>
      if p in h.inflight {
        assert PublishOk(h, h.inflight[p]);
        if DoneWithFirst(h, p) {
          MoveOnKeeps(h, p);
        } else {
          OfferKeeps(h, p);
        }
      }
    case Receive(w) => ReceiveKeeps(h, w);
    case Subscribe(w) => SubscribeKeeps(h, w);
    case Unsubscribe(w) => UnsubscribeKeeps(h, w);
  }

  // Over every interleaving: a watcher's backlog is the newest twenty lines filed
  // before it subscribed; each line filed while it was subscribed is exactly one of
  // sent live (once), dropped on a full queue, or still to be sent; and no line of
  // the past ever comes again down the channel.
  lemma {:induction false} EveryLineHasOneFate(steps: seq<Step>)
    ensures Consistent(Run(Boot(), steps))
  {
    if steps != [] {
      EveryLineHasOneFate(steps[..|steps| - 1]);
      TakeKeeps(Run(Boot(), steps[..|steps| - 1]), steps[|steps| - 1]);
    }
  }

  // Once every send has finished and the reader has caught up without loss, it has
  // read each line filed during its subscription exactly once and nothing else.
  lemma DrainedWatcherReadAll(steps: seq<Step>, w: nat)
    requires var h := Run(Boot(), steps);
             w in h.channels && h.inflight == map[] && h.channels[w].queue == [] && h.channels[w].dropped == {}
    ensures var h := Run(Boot(), steps); var c := h.channels[w];
            && Distinct(c.got)
            && (forall i: nat :: i in c.got <==> c.since <= i < h.Limit(w))
  {
    EveryLineHasOneFate(steps);
    var h := Run(Boot(), steps);
    var c := h.channels[w];
    assert ChannelOk(h, w) && c.got + c.queue == c.got;
    forall i: nat ensures i in c.got <==> c.since <= i < h.Limit(w) { assert FateOf(h, w, i); }
  }

  // Line i is among the newest lines filed before the subscription that the
  // backlog carries, and the backlog carries it verbatim.
  predicate Shown(h: Hub, c: Channel, i: nat) {
    && c.since - |c.backlog| <= i < c.since <= |h.filing.log|
    && c.backlog[i - (c.since - |c.backlog|)] == h.filing.log[i]
  }

  lemma PastIsShownIff(h: Hub, w: nat, i: nat)
    requires w in h.channels && ChannelOk(h, w) && FateOf(h, w, i) && i < h.channels[w].since
    ensures !Live(h.channels[w], i) && !Pending(h, w, i)
    ensures Shown(h, h.channels[w], i) <==> h.channels[w].since - i <= SNAPSHOT_LINES
  {
    var c := h.channels[w];
    assert |c.backlog| == Min(c.since, SNAPSHOT_LINES);
  }

  // Of the lines the panel's buffer still held when the watcher subscribed,
  // exactly the newest twenty reach it; an older held line reaches it by no way.
  lemma HeldLineIsShownIff(steps: seq<Step>, h: Hub, w: nat, i: nat)
    requires h == Run(Boot(), steps) && w in h.channels
    requires h.channels[w].since - NODE_LOG_RING <= i < h.channels[w].since
    ensures !Live(h.channels[w], i) && !Pending(h, w, i)
    ensures Shown(h, h.channels[w], i) <==> h.channels[w].since - i <= SNAPSHOT_LINES
  {
    EveryLineHasOneFate(steps);
    assert ChannelOk(h, w) && FateOf(h, w, i);
    PastIsShownIff(h, w, i);
  }
}
