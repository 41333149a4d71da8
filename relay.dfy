/**
 * The relay's broadcast registry and transport adapters (server/connection.py).
 *
 * The module-global list of connected clients becomes a `Registry` object
 * whose `clients` field the connection handlers append to and remove from.
 * A handle is either a stream writer (TCP) or a WebSocket; the relay tells
 * them apart by capability, which the model makes explicit as the two
 * constructors of `Handle`. Every send the relay performs is recorded in
 * `sent`; whether the transport's send raises is a parameter (`failing`).
 */
module Relay {
  import opened Wrappers
  import opened Utf8
  import PyStr

  /** One connection's handle; `id` tells apart connections of the same kind. */
  datatype Handle = Stream(id: nat) | Ws(id: nat)

  /** A WebSocket message as the library yields it. */
  datatype Frame = TextFrame(text: string) | BinaryFrame(bytes: seq<byte>)

  /** What a transport's native send primitive is given: `write(bytes)` on a stream, `send(str)` on a WebSocket. */
  datatype Delivery = Wrote(bytes: seq<byte>) | SentText(text: string)

  datatype Send = Send(to: Handle, what: Delivery)

  predicate NoDuplicates<T(==)>(xs: seq<T>)
  {
    forall i, j :: 0 <= i < j < |xs| ==> xs[i] != xs[j]
  }

  /** WebSocket ingress: a frame becomes one line; text is UTF-8 encoded, and both kinds get one "\n". */
  function Ingress(f: Frame): (line: seq<byte>)
    ensures |line| > 0 && line[|line| - 1] == 10
  {
    match f
    case TextFrame(s) => EncodeAppendAscii(s, '\n'); Encode(s + "\n")
    case BinaryFrame(b) => b + [10]
  }

  /**
   * Egress: what the native send of `h` is handed for the line `data`, or
   * `None` when preparing it raises (a WebSocket needs `data` as UTF-8 text).
   */
  function Egress(h: Handle, data: seq<byte>): (d: Option<Delivery>)
    ensures h.Stream? ==> d == Some(Wrote(data))
    ensures h.Ws? ==> (d.Some? <==> Decode(data).Some?)
    ensures h.Ws? && d.Some? ==> d.value.SentText? && PyStr.Trimmed(d.value.text)
  {
    match h
    case Stream(_) => Some(Wrote(data))
    case Ws(_) =>
      match Decode(data)
      case Some(text) => Some(SentText(PyStr.Strip(text)))
      case None => None
  }

  predicate IsSender(h: Handle, sender: Option<Handle>)
  {
    sender == Some(h)
  }

  /** The body of `broadcast`'s `try` for one client: the send, or nothing when it raises. */
  function TrySend(h: Handle, data: seq<byte>, failing: set<Handle>): (r: seq<Send>)
    ensures |r| <= 1
    ensures r != [] <==> h !in failing && Egress(h, data).Some?
    ensures r != [] ==> r[0].to == h && Egress(h, data) == Some(r[0].what)
  {
    if h in failing then []
    else
      match Egress(h, data)
      case Some(d) => [Send(h, d)]
      case None => []
  }

  /** What `broadcast` delivers to the one client `h`: nothing for the sender. */
  function SendTo(h: Handle, data: seq<byte>, sender: Option<Handle>, failing: set<Handle>): seq<Send>
  {
    if IsSender(h, sender) then [] else TrySend(h, data, failing)
  }

  /** The clients `broadcast` attempts to send to, in list order. */
  function Recipients(clients: seq<Handle>, sender: Option<Handle>): (r: seq<Handle>)
    ensures |r| <= |clients|
    ensures sender.Some? ==> sender.value !in r
  {
    if clients == [] then []
    else
      var h := clients[|clients| - 1];
      Recipients(clients[..|clients| - 1], sender) + (if IsSender(h, sender) then [] else [h])
  }

  /** Every send one `broadcast` performs, in the order it performs them. */
  function FanOut(clients: seq<Handle>, data: seq<byte>, sender: Option<Handle>, failing: set<Handle>): (r: seq<Send>)
    ensures |r| <= |clients|
    ensures forall k :: 0 <= k < |r| ==> r[k].to in clients && !IsSender(r[k].to, sender) && r[k].to !in failing
  {
    if clients == [] then []
    else
      FanOut(clients[..|clients| - 1], data, sender, failing)
      + SendTo(clients[|clients| - 1], data, sender, failing)
  }

  /** The deliveries `h` received, in order: its outbox. */
  function Inbox(log: seq<Send>, h: Handle): seq<Delivery>
  {
    if log == [] then []
    else
      var e := log[|log| - 1];
      Inbox(log[..|log| - 1], h) + (if e.to == h then [e.what] else [])
  }

  /** `list.remove(h)`: the list without the first occurrence of `h`, if there is one. */
  function RemoveFirst(clients: seq<Handle>, h: Handle): (r: seq<Handle>)
    ensures |r| == if h in clients then |clients| - 1 else |clients|
  {
    if clients == [] then []
    else if clients[0] == h then clients[1..]
    else [clients[0]] + RemoveFirst(clients[1..], h)
  }

  /** What the TCP read loop forwards: the lines read before the first empty read. */
  function LinesBeforeEof(received: seq<seq<byte>>): (lines: seq<seq<byte>>)
    ensures |lines| <= |received|
    ensures |lines| < |received| ==> received[|lines|] == []
  {
    if received == [] || received[0] == [] then [] else [received[0]] + LinesBeforeEof(received[1..])
  }

  /** The lines a WebSocket session broadcasts, one per frame. */
  function IngressAll(frames: seq<Frame>): (lines: seq<seq<byte>>)
    ensures |lines| == |frames|
  {
    if frames == [] then [] else IngressAll(frames[..|frames| - 1]) + [Ingress(frames[|frames| - 1])]
  }

  /** Every send a connection causes by broadcasting `lines` in turn; the `k`-th broadcast fails on `failing(k)`. */
  function SessionLog(clients: seq<Handle>, origin: Handle, lines: seq<seq<byte>>, failing: nat -> set<Handle>): (log: seq<Send>)
    ensures forall k :: 0 <= k < |log| ==> log[k].to in clients && log[k].to != origin
  {
    if lines == [] then []
    else
      var k := |lines| - 1;
      SessionLog(clients, origin, lines[..k], failing) + FanOut(clients, lines[k], Some(origin), failing(k))
  }

  // ---------------------------------------------------------------------------
  // The registry

  class Registry {
    /** The connected clients, in the order they connected. */
    var clients: seq<Handle>
    /** Every send attempt made by `broadcast`, including the ones that raised. */
    ghost var attempts: seq<Handle>
    /** Every send that went through, in order. */
    var sent: seq<Send>

    /** Each connection is registered at most once. */
    ghost predicate Valid()
      reads this
    {
      NoDuplicates(clients)
    }

    constructor ()
      ensures Valid() && clients == [] && attempts == [] && sent == []
    {
      clients, sent := [], [];
      attempts := [];
    }

    /** A new connection is appended (server/connection.py, both handlers); its handle is a new object. */
    method Register(h: Handle)
      requires Valid() && h !in clients
      modifies this`clients
      ensures Valid() && clients == old(clients) + [h]
    {
      clients := clients + [h];
    }

    /** Teardown: removes `h` only when it is registered, so it never raises. */
    method Unregister(h: Handle)
      requires Valid()
      modifies this`clients
      ensures Valid() && clients == RemoveFirst(old(clients), h) && h !in clients
    {
      RemoveFirstProperties(clients, h);
      if h in clients {
        clients := RemoveFirst(clients, h);
      }
    }

    /** One client's `try` block: a WebSocket is sent the stripped text, a stream the bytes; an exception is caught. */
    method TrySendTo(client: Handle, data: seq<byte>, failing: set<Handle>)
      modifies this`sent
      ensures sent == old(sent) + TrySend(client, data, failing)
    {
      match client
      case Ws(_) =>
        var text := Decode(data);
        if text.Some? && client !in failing {
          sent := sent + [Send(client, SentText(PyStr.Strip(text.value)))];
        }
      case Stream(_) =>
        if client !in failing {
          sent := sent + [Send(client, Wrote(data))];
        }
    }

    /** `broadcast(data, sender)`: one attempt per other client, in order; a failing send is caught and skipped. */
    method Broadcast(data: seq<byte>, sender: Option<Handle>, failing: set<Handle>)
      modifies this`attempts, this`sent
      ensures clients == old(clients)
      ensures attempts == old(attempts) + Recipients(clients, sender)
      ensures sent == old(sent) + FanOut(clients, data, sender, failing)
    {
      var all := clients;
      for i := 0 to |all|
        invariant attempts == old(attempts) + Recipients(all[..i], sender)
        invariant sent == old(sent) + FanOut(all[..i], data, sender, failing)
      {
        var client := all[i];
        Snoc(all, i, data, sender, failing);
        if sender == Some(client) {
          continue;
        }
        AppendAssoc(old(attempts), Recipients(all[..i], sender), [client]);
        AppendAssoc(old(sent), FanOut(all[..i], data, sender, failing), TrySend(client, data, failing));
        attempts := attempts + [client];
        TrySendTo(client, data, failing);
      }
      assert all[..|all|] == all;
    }

    /**
     * `handle_client`: register, forward each line read until the first empty
     * read, then unregister. `received` are the successive results of `readline()`;
     * when they run out before an empty read, the read raised.
     */
    method ServeStream(h: Handle, received: seq<seq<byte>>, failing: nat -> set<Handle>)
      requires Valid() && h.Stream? && h !in clients
      modifies this
      ensures Valid() && clients == old(clients)
      ensures sent == old(sent) + SessionLog(old(clients) + [h], h, LinesBeforeEof(received), failing)
    {
      Register(h);
      ForwardLines(h, received, failing);
      RemoveLastAdded(old(clients), h);
      Unregister(h);
    }

    /** The read loop of `handle_client`: broadcast each line until `readline()` returns nothing. */
    method ForwardLines(h: Handle, received: seq<seq<byte>>, failing: nat -> set<Handle>)
      modifies this`attempts, this`sent
      ensures sent == old(sent) + SessionLog(clients, h, LinesBeforeEof(received), failing)
    {
      var i := 0;
      while i < |received| && |received[i]| > 0
        invariant 0 <= i <= |received|
        invariant LinesBeforeEof(received) == received[..i] + LinesBeforeEof(received[i..])
        invariant sent == old(sent) + SessionLog(clients, h, received[..i], failing)
      {
        ForwardStep(clients, h, received, i, failing);
        AppendAssoc(old(sent), SessionLog(clients, h, received[..i], failing), FanOut(clients, received[i], Some(h), failing(i)));
        Broadcast(received[i], Some(h), failing(i));
        ReadOneLine(received, i);
        AppendAssoc(received[..i], [received[i]], LinesBeforeEof(received[i + 1..]));
        i := i + 1;
      }
      assert LinesBeforeEof(received[i..]) == [];
      assert LinesBeforeEof(received) == received[..i];
    }

    /** `handle_websocket`: register, broadcast every frame normalised to a line, then unregister. */
    method ServeWs(h: Handle, frames: seq<Frame>, failing: nat -> set<Handle>)
      requires Valid() && h.Ws? && h !in clients
      modifies this
      ensures Valid() && clients == old(clients)
      ensures sent == old(sent) + SessionLog(old(clients) + [h], h, IngressAll(frames), failing)
    {
      Register(h);
      ForwardFrames(h, frames, failing);
      RemoveLastAdded(old(clients), h);
      Unregister(h);
    }

    /** The `async for` loop of `handle_websocket`: each frame becomes one line and is broadcast. */
    method ForwardFrames(h: Handle, frames: seq<Frame>, failing: nat -> set<Handle>)
      modifies this`attempts, this`sent
      ensures sent == old(sent) + SessionLog(clients, h, IngressAll(frames), failing)
    {
      for i := 0 to |frames|
        invariant sent == old(sent) + SessionLog(clients, h, IngressAll(frames[..i]), failing)
      {
        var line := match frames[i]
          case TextFrame(message) => Encode(message + "\n")
          case BinaryFrame(message) => message + [10];
        assert line == Ingress(frames[i]);
        ghost var lines := IngressAll(frames[..i]);
        IngressAllSnoc(frames, i);
        LogStep(clients, h, lines, line, failing);
        AppendAssoc(old(sent), SessionLog(clients, h, lines, failing), FanOut(clients, line, Some(h), failing(i)));
        Broadcast(line, Some(h), failing(i));
      }
      assert frames[..|frames|] == frames;
    }
  }

  lemma Snoc(clients: seq<Handle>, i: nat, data: seq<byte>, sender: Option<Handle>, failing: set<Handle>)
    requires i < |clients|
    ensures Recipients(clients[..i + 1], sender)
         == Recipients(clients[..i], sender) + (if IsSender(clients[i], sender) then [] else [clients[i]])
    ensures FanOut(clients[..i + 1], data, sender, failing)
         == FanOut(clients[..i], data, sender, failing) + SendTo(clients[i], data, sender, failing)
  {
    assert clients[..i + 1][..i] == clients[..i];
  }

  lemma AppendAssoc<T>(a: seq<T>, b: seq<T>, c: seq<T>)
    ensures (a + b) + c == a + (b + c)
  {
  }

  /** One more broadcast extends a session's log by that broadcast's sends. */
  lemma LogStep(clients: seq<Handle>, origin: Handle, lines: seq<seq<byte>>, line: seq<byte>, failing: nat -> set<Handle>)
    ensures SessionLog(clients, origin, lines + [line], failing)
         == SessionLog(clients, origin, lines, failing) + FanOut(clients, line, Some(origin), failing(|lines|))
  {
    assert (lines + [line])[..|lines|] == lines;
  }

  lemma ForwardStep(clients: seq<Handle>, origin: Handle, received: seq<seq<byte>>, i: nat, failing: nat -> set<Handle>)
    requires i < |received|
    ensures SessionLog(clients, origin, received[..i + 1], failing)
         == SessionLog(clients, origin, received[..i], failing) + FanOut(clients, received[i], Some(origin), failing(i))
  {
    assert received[..i + 1][..i] == received[..i];
  }

  lemma IngressAllSnoc(frames: seq<Frame>, i: nat)
    requires i < |frames|
    ensures IngressAll(frames[..i + 1]) == IngressAll(frames[..i]) + [Ingress(frames[i])]
  {
    assert frames[..i + 1][..i] == frames[..i];
  }

  // ---------------------------------------------------------------------------
  // Properties of broadcast

  lemma {:induction false} InboxAppend(a: seq<Send>, b: seq<Send>, h: Handle)
    ensures Inbox(a + b, h) == Inbox(a, h) + Inbox(b, h)
    decreases |b|
  {
    if b != [] {
      var k := |b| - 1;
      assert (a + b)[..|a + b| - 1] == a + b[..k];
      InboxAppend(a, b[..k], h);
    } else {
      assert a + b == a;
    }
  }

  /** `broadcast` never sends anything to its sender. */
  lemma {:induction false} SenderExcluded(clients: seq<Handle>, data: seq<byte>, h: Handle, failing: set<Handle>)
    ensures forall k :: 0 <= k < |FanOut(clients, data, Some(h), failing)| ==> FanOut(clients, data, Some(h), failing)[k].to != h
    ensures Inbox(FanOut(clients, data, Some(h), failing), h) == []
  {
    if clients != [] {
      var init := clients[..|clients| - 1];
      SenderExcluded(init, data, h, failing);
      InboxAppend(FanOut(init, data, Some(h), failing), SendTo(clients[|clients| - 1], data, Some(h), failing), h);
    }
  }

  /**
   * What a registered client receives from one `broadcast`: exactly one
   * delivery when it is not the sender, its send does not fail and its
   * transport can carry the line; nothing otherwise.
   */
  lemma {:induction false} FanOutInbox(clients: seq<Handle>, data: seq<byte>, sender: Option<Handle>, failing: set<Handle>, g: Handle)
    requires NoDuplicates(clients)
    ensures Inbox(FanOut(clients, data, sender, failing), g)
         == if g in clients && !IsSender(g, sender) && g !in failing && Egress(g, data).Some?
            then [Egress(g, data).value] else []
  {
    if clients != [] {
      var init, last := clients[..|clients| - 1], clients[|clients| - 1];
      assert clients == init + [last];
      assert NoDuplicates(init);
      FanOutInbox(init, data, sender, failing, g);
      InboxAppend(FanOut(init, data, sender, failing), SendTo(last, data, sender, failing), g);
      InboxSendTo(last, data, sender, failing, g);
      if g == last {
        assert g !in init;
        assert Inbox(FanOut(init, data, sender, failing), g) == [];
      } else {
        assert Inbox(SendTo(last, data, sender, failing), g) == [];
        assert g in clients <==> g in init;
      }
    }
  }

  lemma InboxSendTo(h: Handle, data: seq<byte>, sender: Option<Handle>, failing: set<Handle>, g: Handle)
    ensures Inbox(SendTo(h, data, sender, failing), g)
         == if g == h && !IsSender(g, sender) && g !in failing && Egress(g, data).Some?
            then [Egress(g, data).value] else []
  {
    var s := SendTo(h, data, sender, failing);
    if s != [] {
      assert s[..0] == [];
    }
  }

  /** A send that fails on one client changes nothing that any other client receives. */
  lemma {:induction false} FailureContained(clients: seq<Handle>, data: seq<byte>, sender: Option<Handle>, failing: set<Handle>, bad: Handle, g: Handle)
    requires g != bad
    ensures Inbox(FanOut(clients, data, sender, failing + {bad}), g) == Inbox(FanOut(clients, data, sender, failing), g)
  {
    if clients != [] {
      var init, last := clients[..|clients| - 1], clients[|clients| - 1];
      var worse := failing + {bad};
      FailureContained(init, data, sender, failing, bad, g);
      assert FanOut(clients, data, sender, worse) == FanOut(init, data, sender, worse) + SendTo(last, data, sender, worse);
      assert FanOut(clients, data, sender, failing) == FanOut(init, data, sender, failing) + SendTo(last, data, sender, failing);
      InboxAppend(FanOut(init, data, sender, worse), SendTo(last, data, sender, worse), g);
      InboxAppend(FanOut(init, data, sender, failing), SendTo(last, data, sender, failing), g);
      InboxSendTo(last, data, sender, worse, g);
      InboxSendTo(last, data, sender, failing, g);
      assert (g in worse) == (g in failing);
    }
  }

  /** The attempts are the registry in list order with the sender taken out. */
  lemma {:induction false} RecipientsSkipSender(clients: seq<Handle>, j: nat)
    requires NoDuplicates(clients) && j < |clients|
    ensures Recipients(clients, Some(clients[j])) == clients[..j] + clients[j + 1..]
  {
    var n := |clients| - 1;
    var init := clients[..n];
    assert NoDuplicates(init);
    if j == n {
      RecipientsWithoutSender(init, Some(clients[j]));
      assert clients[j + 1..] == [];
    } else {
      assert init[j] == clients[j];
      RecipientsSkipSender(init, j);
      assert clients[n] != clients[j];
      assert init[..j] == clients[..j];
      assert init[j + 1..] + [clients[n]] == clients[j + 1..];
    }
  }

  /** With no sender among them, every client is attempted, in list order. */
  lemma {:induction false} RecipientsWithoutSender(clients: seq<Handle>, sender: Option<Handle>)
    requires forall k :: 0 <= k < |clients| ==> !IsSender(clients[k], sender)
    ensures Recipients(clients, sender) == clients
  {
    if clients != [] {
      RecipientsWithoutSender(clients[..|clients| - 1], sender);
    }
  }

  // ---------------------------------------------------------------------------
  // Frame normalisation

  /** Ingress appends exactly one "\n" byte to the frame's bytes. */
  lemma IngressAppendsNewline(f: Frame)
    ensures f.TextFrame? ==> Ingress(f) == Encode(f.text) + [10]
    ensures f.BinaryFrame? ==> Ingress(f) == f.bytes + [10]
  {
    if f.TextFrame? {
      EncodeAppendAscii(f.text, '\n');
    }
  }

  /** A trimmed text frame relayed to another WebSocket client arrives as the same text. */
  lemma WsRoundTrip(s: string, k: nat)
    requires PyStr.Trimmed(s)
    ensures Egress(Ws(k), Ingress(TextFrame(s))) == Some(SentText(s))
  {
    DecodeEncode(s + "\n");
    PyStr.StripLine(s);
  }

  /** A stream client that does not fail is sent the relayed line byte for byte, in exactly one write. */
  lemma StreamVerbatim(k: nat, data: seq<byte>, failing: set<Handle>)
    requires Stream(k) !in failing
    ensures TrySend(Stream(k), data, failing) == [Send(Stream(k), Wrote(data))]
  {
  }

  // ---------------------------------------------------------------------------
  // Registration and connection sessions

  lemma {:induction false} RemoveFirstProperties(clients: seq<Handle>, h: Handle)
    requires NoDuplicates(clients)
    ensures NoDuplicates(RemoveFirst(clients, h)) && h !in RemoveFirst(clients, h)
    ensures forall g :: g != h ==> (g in RemoveFirst(clients, h) <==> g in clients)
    ensures h !in clients ==> RemoveFirst(clients, h) == clients
  {
    if clients != [] {
      assert NoDuplicates(clients[1..]);
      RemoveFirstProperties(clients[1..], h);
      if clients[0] != h {
        var r := RemoveFirst(clients[1..], h);
        assert clients[0] !in clients[1..];
        assert forall k :: 0 <= k < |r| ==> r[k] in clients[1..];
      }
    }
  }

  /** Unregistering a connection registered last restores the registry as it was before it connected. */
  lemma {:induction false} RemoveLastAdded(clients: seq<Handle>, h: Handle)
    requires h !in clients
    ensures RemoveFirst(clients + [h], h) == clients
  {
    if clients != [] {
      assert (clients + [h])[1..] == clients[1..] + [h];
      RemoveLastAdded(clients[1..], h);
    }
  }

  /** Unregistering removes exactly the one entry and keeps the order of the rest. */
  lemma {:induction false} RemoveFirstAt(clients: seq<Handle>, j: nat)
    requires NoDuplicates(clients) && j < |clients|
    ensures RemoveFirst(clients, clients[j]) == clients[..j] + clients[j + 1..]
  {
    if j > 0 {
      assert NoDuplicates(clients[1..]);
      assert clients[1..][j - 1] == clients[j];
      RemoveFirstAt(clients[1..], j - 1);
      assert clients[0] != clients[j];
      assert [clients[0]] + clients[1..][..j - 1] == clients[..j];
    }
  }

  /** The lines forwarded are the reads up to, and not including, the first empty one. */
  lemma {:induction false} LinesBeforeEofProperties(received: seq<seq<byte>>)
    ensures var lines := LinesBeforeEof(received);
      |lines| <= |received| && lines == received[..|lines|]
      && (forall k :: 0 <= k < |lines| ==> lines[k] != [])
      && (|lines| < |received| ==> received[|lines|] == [])
  {
    if received != [] && received[0] != [] {
      LinesBeforeEofProperties(received[1..]);
      var rest := LinesBeforeEof(received[1..]);
      assert LinesBeforeEof(received) == [received[0]] + rest;
      assert received[..|rest| + 1] == [received[0]] + received[1..][..|rest|];
    }
  }

  /** Reading one more non-empty line moves it from what is left to what was forwarded. */
  lemma ReadOneLine(received: seq<seq<byte>>, i: nat)
    requires i < |received| && received[i] != []
    ensures LinesBeforeEof(received[i..]) == [received[i]] + LinesBeforeEof(received[i + 1..])
    ensures received[..i + 1] == received[..i] + [received[i]]
  {
    assert received[i..][1..] == received[i + 1..];
  }

  /** A connection never receives anything that it sent itself. */
  lemma {:induction false} SessionNeverEchoes(clients: seq<Handle>, origin: Handle, lines: seq<seq<byte>>, failing: nat -> set<Handle>)
    ensures Inbox(SessionLog(clients, origin, lines, failing), origin) == []
  {
    if lines != [] {
      var k := |lines| - 1;
      SessionNeverEchoes(clients, origin, lines[..k], failing);
      SenderExcluded(clients, lines[k], origin, failing(k));
      InboxAppend(SessionLog(clients, origin, lines[..k], failing), FanOut(clients, lines[k], Some(origin), failing(k)), origin);
    }
  }

  /** Each line as a stream client's `write` is handed it, in order. */
  function Verbatim(lines: seq<seq<byte>>): seq<Delivery>
  {
    if lines == [] then [] else Verbatim(lines[..|lines| - 1]) + [Wrote(lines[|lines| - 1])]
  }

  /**
   * Every other registered stream client whose sends do not fail receives
   * each forwarded line verbatim, in the order it was read.
   */
  lemma {:induction false} SessionStreamDelivery(clients: seq<Handle>, origin: Handle, lines: seq<seq<byte>>, failing: nat -> set<Handle>, g: Handle)
    requires NoDuplicates(clients) && g in clients && g.Stream? && g != origin
    requires forall k :: 0 <= k < |lines| ==> g !in failing(k)
    ensures Inbox(SessionLog(clients, origin, lines, failing), g) == Verbatim(lines)
  {
    if lines != [] {
      var k := |lines| - 1;
      var before := SessionLog(clients, origin, lines[..k], failing);
      var last := FanOut(clients, lines[k], Some(origin), failing(k));
      SessionStreamDelivery(clients, origin, lines[..k], failing, g);
      FanOutInbox(clients, lines[k], Some(origin), failing(k), g);
      InboxAppend(before, last, g);
    }
  }

  /** `Verbatim` lists the lines one delivery each. */
  lemma {:induction false} VerbatimLines(lines: seq<seq<byte>>)
    ensures |Verbatim(lines)| == |lines|
    ensures forall k :: 0 <= k < |lines| ==> Verbatim(lines)[k] == Wrote(lines[k])
  {
    if lines != [] {
      VerbatimLines(lines[..|lines| - 1]);
    }
  }

  /** Line `k` of a WebSocket session is the normalisation of frame `k`. */
  lemma {:induction false} IngressAllLines(frames: seq<Frame>, k: nat)
    requires k < |frames|
    ensures IngressAll(frames)[k] == Ingress(frames[k])
  {
    var n := |frames| - 1;
    if k < n {
      IngressAllLines(frames[..n], k);
      assert frames[..n][k] == frames[k];
    }
  }
}
