/**
 * The bridge's correlation engine: the shared state of `NodeBridge` (the
 * pending table, the id counter and the dead fuse) and the atomic steps that
 * change it. Concurrent callers and the single reader task are modelled as
 * any interleaving of these steps. Replies sent on the per-call one-shot
 * slots are recorded in a log, events sent to the broadcast channel in
 * another, and requests written to the worker in a third.
 */
module Bridge {
  import opened Wrappers
  import opened Json
  import opened Protocol
  import opened Dto

  const DISCONNECTED := "Background service disconnected. Please restart the app."
  const SIDECAR_DISCONNECTED := "Bridge sidecar disconnected"
  const TIMED_OUT := "Bridge request timed out"
  const TOAST_EVENT := "service://toast"
  const DISCONNECTED_TOAST := Object(map["message" := Str(DISCONNECTED), "level" := Str("error")])
  /** Stands for serde's message when a reply does not have the expected type. */
  const UNEXPECTED_SHAPE := "reply does not have the expected shape"

  /** One reply sent on the one-shot slot of call `id`. */
  datatype Delivery = Delivery(id: nat, reply: Result<Value>)

  /** A notification emitted on the host application's bus. */
  datatype Notice = Notice(name: string, payload: Value)

  function Ids(d: seq<Delivery>): set<nat>
  {
    set k | 0 <= k < |d| :: d[k].id
  }

  /** No id is delivered twice. */
  predicate Distinct(d: seq<Delivery>)
  {
    forall i, j :: 0 <= i < j < |d| ==> d[i].id != d[j].id
  }

  function WrittenIds(w: seq<Envelope>): set<nat>
  {
    set k | 0 <= k < |w| :: w[k].id
  }

  predicate WrittenOnce(w: seq<Envelope>)
  {
    forall i, j :: 0 <= i < j < |w| ==> w[i].id != w[j].id
  }

  /** Writing one more request adds its id, and keeps every id written once if it is new. */
  lemma AppendWritten(w: seq<Envelope>, e: Envelope)
    ensures WrittenIds(w + [e]) == WrittenIds(w) + {e.id}
    ensures WrittenOnce(w) && e.id !in WrittenIds(w) ==> WrittenOnce(w + [e])
  {
    var we := w + [e];
    assert we[|w|] == e;
    forall x | x in WrittenIds(we) ensures x in WrittenIds(w) + {e.id} {
      var k :| 0 <= k < |we| && we[k].id == x;
      if k < |w| { assert w[k] == we[k]; }
    }
    forall x | x in WrittenIds(w) ensures x in WrittenIds(we) {
      var k :| 0 <= k < |w| && w[k].id == x;
      assert we[k] == w[k];
    }
    if WrittenOnce(w) && e.id !in WrittenIds(w) {
      forall i, j | 0 <= i < j < |we| ensures we[i].id != we[j].id {
        if j == |w| {
          assert we[i] == w[i];
          assert w[i].id in WrittenIds(w);
        } else {
          assert we[i] == w[i] && we[j] == w[j];
        }
      }
    }
  }

  /** The reply delivered for `id`, if one was. */
  function ReplyTo(d: seq<Delivery>, id: nat): (r: Option<Result<Value>>)
    ensures r.Some? <==> id in Ids(d)
    ensures r.Some? ==> exists k :: 0 <= k < |d| && d[k].id == id && d[k].reply == r.value
    decreases |d|
  {
    if |d| == 0 then None
    else if d[|d| - 1].id == id then Some(d[|d| - 1].reply)
    else
      var r := ReplyTo(d[..|d| - 1], id);
      assert Ids(d) == Ids(d[..|d| - 1]) + {d[|d| - 1].id};
      assert r.Some? ==> exists k :: 0 <= k < |d| - 1 && d[k].id == id && d[k].reply == r.value by {
        if r.Some? {
          var k :| 0 <= k < |d| - 1 && d[..|d| - 1][k].id == id && d[..|d| - 1][k].reply == r.value;
        }
      }
      r
  }

  /** Every id below `counter` and from 1. */
  ghost predicate Below(s: set<nat>, counter: nat)
  {
    forall id :: id in s ==> 1 <= id < counter
  }

  /** The table and the reply log agree, and every call in flight can still be resolved. */
  ghost predicate TableInvariant(counter: nat, pending: set<nat>, delivered: seq<Delivery>,
                                 unsent: set<nat>, waiting: set<nat>)
  {
    && Below(pending, counter)
    && Distinct(delivered) && Below(Ids(delivered), counter)
    // a slot still in the table has not been replied to
    && pending !! Ids(delivered)
    && Below(unsent, counter) && Below(waiting, counter) && unsent !! waiting
    // every call in flight still has its slot or already has its reply
    && unsent + waiting <= pending + Ids(delivered)
  }

  /** `tail` fails every id of `ids` once with `message`, and nothing else. */
  predicate DrainedWith(tail: seq<Delivery>, ids: set<nat>, message: string)
  {
    && Ids(tail) == ids && Distinct(tail) && |tail| == |ids|
    && forall k :: 0 <= k < |tail| ==> tail[k].reply == Err(message)
  }

  /** Draining the whole table into the log keeps the table invariant. */
  lemma DrainKeepsTable(counter: nat, pending: set<nat>, delivered: seq<Delivery>,
                        unsent: set<nat>, waiting: set<nat>, d: seq<Delivery>)
    requires TableInvariant(counter, pending, delivered, unsent, waiting)
    requires Ids(d) == pending && Distinct(d)
    ensures TableInvariant(counter, {}, delivered + d, unsent, waiting)
  {
    AppendDeliveries(delivered, d);
  }

  lemma SingleDelivery(x: Delivery)
    ensures Ids([x]) == {x.id} && Distinct([x])
  {
    assert [x][0] == x;
  }

  lemma {:induction false} AppendDeliveries(a: seq<Delivery>, b: seq<Delivery>)
    ensures Ids(a + b) == Ids(a) + Ids(b)
    ensures Distinct(a) && Distinct(b) && Ids(a) !! Ids(b) ==> Distinct(a + b)
  {
    var ab := a + b;
    forall x | x in Ids(a + b) ensures x in Ids(a) + Ids(b) {
      var k :| 0 <= k < |ab| && ab[k].id == x;
      if k >= |a| { assert b[k - |a|].id == x; }
    }
    forall x | x in Ids(a) + Ids(b) ensures x in Ids(a + b) {
      if x in Ids(a) {
        var k :| 0 <= k < |a| && a[k].id == x;
        assert ab[k].id == x;
      } else {
        var k :| 0 <= k < |b| && b[k].id == x;
        assert ab[k + |a|].id == x;
      }
    }
    if Distinct(a) && Distinct(b) && Ids(a) !! Ids(b) {
      forall i, j | 0 <= i < j < |ab| ensures ab[i].id != ab[j].id {
        if j < |a| {
        } else if i >= |a| {
          assert ab[i] == b[i - |a|] && ab[j] == b[j - |a|];
        } else {
          assert ab[i].id in Ids(a);
          assert ab[j] == b[j - |a|];
          assert ab[j].id in Ids(b);
        }
      }
    }
  }

  /**
   * Drain a table: one failure reply per pending id, in the arbitrary order
   * of `HashMap::drain`.
   */
  method DrainReplies(slots: set<nat>, message: string) returns (d: seq<Delivery>)
    ensures DrainedWith(d, slots, message)
  {
    d := [];
    var rest := slots;
    while rest != {}
      invariant rest <= slots
      invariant Ids(d) == slots - rest
      invariant Distinct(d)
      invariant |d| + |rest| == |slots|
      invariant forall k :: 0 <= k < |d| ==> d[k].reply == Err(message)
      decreases rest
    {
      var id :| id in rest;
      SingleDelivery(Delivery(id, Err(message)));
      AppendDeliveries(d, [Delivery(id, Err(message))]);
      d := d + [Delivery(id, Err(message))];
      rest := rest - {id};
    }
  }

  /** `get_status`'s typed reply: the worker's error as is, or the status its value decodes to. */
  function StatusReply(reply: Result<Value>): (r: Result<ServiceStatus>)
    ensures reply.Err? ==> r == Err(reply.error)
    ensures reply.Ok? ==> (r.Ok? <==> StatusFromValue(reply.value).Some?)
    ensures r.Ok? ==> reply.Ok? && StatusFromValue(reply.value) == Some(r.value)
  {
    match reply
    case Err(e) => Err(e)
    case Ok(v) =>
      match StatusFromValue(v)
      case Some(s) => Ok(s)
      case None => Err(UNEXPECTED_SHAPE)
  }

  class NodeBridge {
    /** The ids whose one-shot reply slot is still in the table. */
    var pending: set<nat>
    /** The next id to hand out. */
    var counter: nat
    /** The fuse: set once, never reset. */
    var dead: bool
    /** Every reply ever sent on a slot, in order. */
    var delivered: seq<Delivery>
    /** Every event sent to the broadcast channel, in order. */
    var published: seq<BridgeEvent>
    /** Every request line written to the worker, in order. */
    var written: seq<Envelope>
    /** Every notification emitted on the host application's bus. */
    var notices: seq<Notice>

    /** The request each registered call was handed, by id. */
    ghost var registered: map<nat, Envelope>
    /** Calls that have registered their slot but not yet tried to write. */
    ghost var unsent: set<nat>
    /** Calls whose request was written and that wait on their slot. */
    ghost var waiting: set<nat>
    /** The reader loop has ended. */
    ghost var readerDone: bool

    /** Every id in `s` was handed out already. */
    ghost predicate Issued(s: set<nat>)
      reads this`counter
    {
      Below(s, counter)
    }

    ghost predicate TableValid()
      reads this`counter, this`pending, this`delivered, this`unsent, this`waiting
    {
      TableInvariant(counter, pending, delivered, unsent, waiting)
    }

    /** Each id is written at most once, and what is written is the request its call registered. */
    ghost predicate WritesValid()
      reads this`counter, this`written, this`unsent, this`waiting, this`registered
    {
      && WrittenOnce(written) && Issued(WrittenIds(written))
      && WrittenIds(written) !! unsent && waiting <= WrittenIds(written)
      && Issued(registered.Keys)
      && (forall k :: 0 <= k < |written| ==> written[k].id in registered && registered[written[k].id] == written[k])
    }

    ghost predicate Valid()
      reads this
    {
      && counter >= 1
      && TableValid()
      && WritesValid()
      && (readerDone ==> dead && pending == {})
    }

    /** A bridge just started: nothing pending, ids from 1, fuse intact. */
    constructor ()
      ensures Valid()
      ensures pending == {} && counter == 1 && !dead
      ensures delivered == [] && published == [] && written == [] && notices == []
      ensures unsent == {} && waiting == {} && !readerDone && registered == map[]
    {
      pending, counter, dead := {}, 1, false;
      delivered, published, written, notices := [], [], [], [];
      unsent, waiting, readerDone := {}, {}, false;
      registered := map[];
    }

    /**
     * The first half of `invoke`: fail fast on a blown fuse, else take the
     * next id and put its slot in the table. The envelope returned is what
     * the call then writes.
     */
    method Register(methodName: string, params: Value) returns (r: Result<Envelope>)
      requires Valid()
      modifies this
      ensures Valid()
      ensures dead == old(dead) && readerDone == old(readerDone) && waiting == old(waiting)
      ensures delivered == old(delivered) && published == old(published)
      ensures written == old(written) && notices == old(notices)
      ensures old(dead) ==> r == Err(DISCONNECTED)
      ensures old(dead) ==> pending == old(pending) && counter == old(counter) && unsent == old(unsent)
      ensures !old(dead) ==> r == Ok(Envelope(old(counter), methodName, params))
      ensures !old(dead) ==> counter == old(counter) + 1
      ensures !old(dead) ==> pending == old(pending) + {old(counter)} && unsent == old(unsent) + {old(counter)}
      ensures old(dead) ==> registered == old(registered)
      ensures r.Ok? ==> registered == old(registered)[r.value.id := r.value]
      // the id is new: larger than any id handed out before, in no table and no log
      ensures r.Ok? ==> r.value.id >= 1
      ensures r.Ok? ==> r.value.id !in old(pending) && r.value.id !in Ids(old(delivered))
      ensures r.Ok? ==> r.value.id !in WrittenIds(old(written))
    {
      if dead {
        return Err(DISCONNECTED);
      }
      var id := counter;
      counter := counter + 1;
      pending := pending + {id};
      unsent := unsent + {id};
      r := Ok(Envelope(id, methodName, params));
      registered := registered[id := r.value];
    }

    /**
     * The write of `invoke`, with `ok` saying whether it succeeded. On
     * success the call goes on to wait. On failure the fuse is set and only
     * the call's own slot is removed and failed; every other slot stays.
     */
    method Write(e: Envelope, ok: bool) returns (r: Result<nat>)
      requires Valid()
      requires e.id in unsent
      requires e.id in registered && registered[e.id] == e
      modifies this
      ensures Valid()
      ensures counter == old(counter) && published == old(published) && notices == old(notices)
      ensures readerDone == old(readerDone)
      ensures unsent == old(unsent) - {e.id} && registered == old(registered)
      ensures ok ==> r == Ok(e.id) && written == old(written) + [e]
      ensures ok ==> dead == old(dead) && pending == old(pending) && delivered == old(delivered)
      ensures ok ==> waiting == old(waiting) + {e.id}
      ensures !ok ==> r == Err(DISCONNECTED) && dead && written == old(written) && waiting == old(waiting)
      ensures !ok ==> pending == old(pending) - {e.id}
      ensures !ok && e.id in old(pending) ==> delivered == old(delivered) + [Delivery(e.id, Err(DISCONNECTED))]
      ensures !ok && e.id !in old(pending) ==> delivered == old(delivered)
    {
      if ok {
        Sent(e);
        r := Ok(e.id);
      } else {
        unsent := unsent - {e.id};
        dead := true;
        Deliver(e.id, Err(DISCONNECTED));
        r := Err(DISCONNECTED);
      }
    }

    /** The request line was written: the call moves from registered to waiting. */
    method Sent(e: Envelope)
      requires Valid()
      requires e.id in unsent
      requires e.id in registered && registered[e.id] == e
      modifies this`unsent, this`written, this`waiting
      ensures Valid()
      ensures unsent == old(unsent) - {e.id}
      ensures written == old(written) + [e]
      ensures waiting == old(waiting) + {e.id}
    {
      AppendWritten(written, e);
      unsent := unsent - {e.id};
      written := written + [e];
      waiting := waiting + {e.id};
    }

    /**
     * The deadline of a waiting call passed: only its own slot is removed and
     * the fuse is untouched, so a reply arriving later finds no slot.
     */
    method Timeout(id: nat) returns (r: Result<Value>)
      requires Valid()
      requires id in waiting
      modifies this
      ensures Valid()
      ensures r == Err(TIMED_OUT)
      ensures pending == old(pending) - {id} && waiting == old(waiting) - {id}
      ensures dead == old(dead) && counter == old(counter) && unsent == old(unsent)
      ensures delivered == old(delivered) && published == old(published)
      ensures written == old(written) && notices == old(notices) && readerDone == old(readerDone)
      ensures registered == old(registered)
    {
      pending := pending - {id};
      waiting := waiting - {id};
      r := Err(TIMED_OUT);
    }

    /** A waiting call whose slot was replied to takes that reply. */
    method Receive(id: nat) returns (r: Result<Value>)
      requires Valid()
      requires id in waiting && id in Ids(delivered)
      modifies this
      ensures Valid()
      ensures exists k :: 0 <= k < |delivered| && delivered[k] == Delivery(id, r)
      ensures waiting == old(waiting) - {id}
      ensures pending == old(pending) && dead == old(dead) && counter == old(counter) && unsent == old(unsent)
      ensures delivered == old(delivered) && published == old(published)
      ensures written == old(written) && notices == old(notices) && readerDone == old(readerDone)
      ensures registered == old(registered)
    {
      r := ReplyTo(delivered, id).value;
      waiting := waiting - {id};
    }

    /** `subscribe`: a new receiver sees the events published from now on. */
    method Subscribe() returns (cursor: nat)
      ensures cursor == |published|
    {
      cursor := |published|;
    }

    /** The events a receiver created at `cursor` has been sent. */
    function Received(cursor: nat): seq<BridgeEvent>
      reads this
      requires cursor <= |published|
    {
      published[cursor..]
    }

    /** One pass of the reader loop. The fuse, the counter and the requests are never touched. */
    method HandleLine(line: string, parse: Parse)
      requires Valid()
      requires !readerDone
      modifies this
      ensures Valid()
      ensures dead == old(dead) && counter == old(counter) && written == old(written) && notices == old(notices)
      ensures unsent == old(unsent) && waiting == old(waiting) && readerDone == old(readerDone)
      ensures registered == old(registered)
      ensures match Classify(line, parse)
        case Ignore => pending == old(pending) && delivered == old(delivered) && published == old(published)
        case Unrouted => pending == old(pending) && delivered == old(delivered) && published == old(published)
        case Publish(ev) =>
          published == old(published) + [ev] && pending == old(pending) && delivered == old(delivered)
        case Route(id, reply) =>
          && published == old(published)
          && pending == old(pending) - {id}
          && (id in old(pending) ==> delivered == old(delivered) + [Delivery(id, reply)])
          && (id !in old(pending) ==> delivered == old(delivered))
        case FailAll(message) =>
          && published == old(published)
          && pending == {}
          && |delivered| >= |old(delivered)| && delivered[..|old(delivered)|] == old(delivered)
          && DrainedWith(delivered[|old(delivered)|..], old(pending), message)
    {
      match Classify(line, parse)
      case Ignore =>
      case Unrouted =>
      case Publish(ev) => Broadcast(ev);
      case Route(id, reply) => Deliver(id, reply);
      case FailAll(message) => DrainPending(message);
    }

    /** Send an event to every current receiver; an event without receivers is lost. */
    method Broadcast(ev: BridgeEvent)
      requires Valid()
      modifies this`published
      ensures Valid()
      ensures published == old(published) + [ev]
    {
      published := published + [ev];
    }

    /** Take the slot of `id` out of the table and send it `reply`; with no slot left the reply is dropped. */
    method Deliver(id: nat, reply: Result<Value>)
      requires Valid()
      modifies this`pending, this`delivered
      ensures Valid()
      ensures pending == old(pending) - {id}
      ensures id in old(pending) ==> delivered == old(delivered) + [Delivery(id, reply)]
      ensures id !in old(pending) ==> delivered == old(delivered)
    {
      if id in pending {
        pending := pending - {id};
        var d := [Delivery(id, reply)];
        SingleDelivery(d[0]);
        AppendDeliveries(delivered, d);
        delivered := delivered + d;
      }
    }

    /** Empty the table, failing every call that had a slot in it with `message`. */
    method DrainPending(message: string)
      requires Valid()
      modifies this
      ensures Valid()
      ensures pending == {}
      ensures dead == old(dead) && counter == old(counter) && written == old(written) && notices == old(notices)
      ensures unsent == old(unsent) && waiting == old(waiting) && readerDone == old(readerDone)
      ensures published == old(published) && registered == old(registered)
      ensures |delivered| >= |old(delivered)| && delivered[..|old(delivered)|] == old(delivered)
      ensures DrainedWith(delivered[|old(delivered)|..], old(pending), message)
    {
      var d := DrainReplies(pending, message);
      DrainKeepsTable(counter, pending, delivered, unsent, waiting, d);
      delivered, pending := delivered + d, {};
      assert delivered[..|old(delivered)|] == old(delivered);
      assert delivered[|old(delivered)|..] == d;
    }

    /**
     * The reader loop ended (end of stream or a read error): the fuse is set,
     * every pending call fails with "Bridge sidecar disconnected", and the
     * user is told once to restart.
     */
    method ReaderExit()
      requires Valid()
      requires !readerDone
      modifies this
      ensures Valid()
      ensures dead && readerDone && pending == {}
      ensures counter == old(counter) && written == old(written) && published == old(published)
      ensures unsent == old(unsent) && waiting == old(waiting) && registered == old(registered)
      ensures |delivered| >= |old(delivered)| && delivered[..|old(delivered)|] == old(delivered)
      ensures DrainedWith(delivered[|old(delivered)|..], old(pending), SIDECAR_DISCONNECTED)
      ensures notices == old(notices) + [Notice(TOAST_EVENT, DISCONNECTED_TOAST)]
    {
      dead := true;
      DrainPending(SIDECAR_DISCONNECTED);
      readerDone, notices := true, notices + [Notice(TOAST_EVENT, DISCONNECTED_TOAST)];
    }
  }
}
