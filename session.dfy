/**
 * The terminal client's session logic (client/main.py, class `OnyxClient`):
 * the peer directory that handshakes fill, the dispatch of incoming
 * envelopes, the reader loop, chat sending and the slash commands.
 *
 * JSON is abstract: envelopes are datatypes, and the reader is given the
 * JSON parser as a function from a line's text to what it parsed. Socket
 * I/O, the clock and the asyncio scheduler are parameters or left out: a
 * scheduled reply handshake is counted in `scheduled`, and what reaches the
 * writer is recorded in `written`.
 */
module Session {
  import opened Wrappers
  import opened Utf8
  import PyStr
  import opened Primitives
  import opened Crypto
  import opened Ui

  // ---------------------------------------------------------------------------
  // Envelopes

  /** The `payload` object of a `msg` envelope as received; a missing field is `None`, a missing `keys` the empty map. */
  datatype WirePayload = WirePayload(iv: Option<Base64Text>, tag: Option<Base64Text>, ciphertext: Option<Base64Text>, keys: map<string, Base64Text>)

  /** The envelopes the client writes: `{type:"handshake", sender_id, pubkey}` and `{type:"msg", sender_id, payload}`. */
  datatype Outbound =
    | HandshakeOut(senderId: string, pubkey: Option<PemText>)
    | ChatOut(senderId: string, payload: SealedPayload)

  /** What `json.loads` made of a line. */
  datatype Parsed =
    | NotJson                    // `json.JSONDecodeError`
    | NotObject(kind: string)    // valid JSON whose top level is not an object: a list, a number, ...
    | Obj(msgType: Option<string>, senderId: string, pubkey: PemText, payload: Option<WirePayload>)

  /** How a sent payload reads on arrival: every field present. */
  function OnWire(p: SealedPayload): WirePayload
  {
    WirePayload(Some(p.iv), Some(p.tag), Some(p.ciphertext), p.keys)
  }

  /** A `pubkey` of `null` reaches `load_public_key` as `None`, which is not text. */
  function PemOnWire(pubkey: Option<PemText>): PemText
  {
    if pubkey.Some? then pubkey.value else NotText
  }

  /** A reader-side object in the JSON stream, as `json.loads` would return it for an envelope the client wrote. */
  function Received(e: Outbound): Parsed
  {
    match e
    case HandshakeOut(id, pubkey) => Obj(Some("handshake"), id, PemOnWire(pubkey), None)
    case ChatOut(id, payload) => Obj(Some("msg"), id, NotText, Some(OnWire(payload)))
  }

  // ---------------------------------------------------------------------------
  // The peer directory

  /** What `handle_handshake` decides, in the order it tests. */
  datatype HandshakeOutcome = Loopback | AlreadyKnown | Unparsable | NewPeer(key: PublicKey)

  function ClassifyHandshake(ownId: string, peers: map<string, PublicKey>, sender: string, pem: PemText): (o: HandshakeOutcome)
    ensures o.NewPeer? <==> sender != ownId && sender !in peers && pem.PemOf?
    ensures o.NewPeer? ==> o.key == pem.key
  {
    if sender == ownId then Loopback
    else if sender in peers then AlreadyKnown
    else
      match OnyxCrypto.LoadPublicKey(pem)
      case None => Unparsable
      case Some(k) => NewPeer(k)
  }

  /** The part of the client's state the reader loop changes. */
  datatype View = View(peers: map<string, PublicKey>, log: seq<Entry>, userCount: int, replies: nat)

  function Notice(v: View, sender: string, text: string, stamp: string): View
  {
    v.(log := v.log + [Entry(stamp, sender, text)])
  }

  /** `handle_handshake`: a new peer with a parsable key is stored, counted, announced and answered once. */
  function OnHandshake(ownId: string, v: View, sender: string, pem: PemText, stamp: string): (w: View)
    ensures w == v <==> !(sender != ownId && sender !in v.peers && pem.PemOf?)
    ensures w != v ==>
      w.peers == v.peers[sender := pem.key] && w.userCount == |w.peers| + 1 && w.replies == v.replies + 1
      && w.log == v.log + [Entry(stamp, "SYSTEM", "New Peer: " + PyStr.Take(sender, 8))]
  {
    match ClassifyHandshake(ownId, v.peers, sender, pem)
    case NewPeer(k) =>
      View(v.peers[sender := k], v.log + [Entry(stamp, "SYSTEM", "New Peer: " + PyStr.Take(sender, 8))],
           |v.peers[sender := k]| + 1, v.replies + 1)
    case _ => v
  }

  /** A handshake carrying the client's own id changes nothing and sends nothing. */
  lemma HandshakeIgnoresLoopback(ownId: string, v: View, pem: PemText, stamp: string)
    ensures OnHandshake(ownId, v, ownId, pem, stamp) == v
  {
  }

  /** A handshake from a known id changes nothing: the first key stored is kept. */
  lemma HandshakeKeepsFirstKey(ownId: string, v: View, sender: string, pem: PemText, stamp: string)
    requires sender in v.peers
    ensures OnHandshake(ownId, v, sender, pem, stamp) == v
  {
  }

  /** A handshake whose key does not parse changes nothing and schedules no reply. */
  lemma HandshakeDropsBadKey(ownId: string, v: View, sender: string, pem: PemText, stamp: string)
    requires OnyxCrypto.LoadPublicKey(pem).None?
    ensures OnHandshake(ownId, v, sender, pem, stamp) == v
  {
  }

  /** A new id with a parsable key adds exactly that entry, sets the user count and schedules exactly one reply. */
  lemma HandshakeAddsNewPeer(ownId: string, v: View, sender: string, k: PublicKey, stamp: string)
    requires sender != ownId && sender !in v.peers
    ensures var w := OnHandshake(ownId, v, sender, ExportPem(k), stamp);
      w.peers == v.peers[sender := k] && |w.peers| == |v.peers| + 1
      && w.userCount == |w.peers| + 1 && w.replies == v.replies + 1
      && w.log == v.log + [Entry(stamp, "SYSTEM", "New Peer: " + PyStr.Take(sender, 8))]
  {
  }

  /** One handshake `(sender_id, pubkey)` as it arrives. */
  datatype Hello = Hello(sender: string, pem: PemText)

  /** The handshakes of `hs` handled in order, the i-th at time `clock(i)`. */
  function HandleAll(ownId: string, v: View, hs: seq<Hello>, clock: nat -> string): View
    decreases |hs|
  {
    if hs == [] then v
    else
      var n := |hs| - 1;
      OnHandshake(ownId, HandleAll(ownId, v, hs[..n], clock), hs[n].sender, hs[n].pem, clock(n))
  }

  /** Replaying one handshake any number of times has exactly the effect of handling it once, at the first time. */
  lemma {:induction false} HandshakeReplay(ownId: string, v: View, h: Hello, times: nat, clock: nat -> string)
    requires times > 0
    ensures HandleAll(ownId, v, seq(times, _ => h), clock) == OnHandshake(ownId, v, h.sender, h.pem, clock(0))
  {
    var hs := seq(times, _ => h);
    if times == 1 {
      assert hs[..0] == [];
    } else {
      assert hs[..times - 1] == seq(times - 1, _ => h);
      HandshakeReplay(ownId, v, h, times - 1, clock);
      var u := HandleAll(ownId, v, hs[..times - 1], clock);
      if h.sender != ownId && h.pem.PemOf? {
        assert h.sender in u.peers;
      }
    }
  }

  /**
   * Over any sequence of handshakes: stored keys never change (first writer
   * wins), the own id is never stored, and one reply is scheduled per newly
   * stored peer and for nothing else.
   */
  lemma {:induction false} HandshakeTrace(ownId: string, v: View, hs: seq<Hello>, clock: nat -> string)
    requires ownId !in v.peers
    ensures var w := HandleAll(ownId, v, hs, clock);
      (forall id :: id in v.peers ==> id in w.peers && w.peers[id] == v.peers[id])
      && ownId !in w.peers
      && w.replies - v.replies == |w.peers| - |v.peers|
      && (forall id :: id in w.peers && id !in v.peers ==> exists i :: 0 <= i < |hs| && hs[i].sender == id)
  {
    if hs != [] {
      var n := |hs| - 1;
      HandshakeTrace(ownId, v, hs[..n], clock);
      var u := HandleAll(ownId, v, hs[..n], clock);
      var w := HandleAll(ownId, v, hs, clock);
      forall id | id in w.peers && id !in v.peers
        ensures exists i :: 0 <= i < |hs| && hs[i].sender == id
      {
        if id in u.peers {
          var i :| 0 <= i < n && hs[..n][i].sender == id;
          assert hs[i].sender == id;
        } else {
          assert hs[n].sender == id;
        }
      }
    }
  }

  // ---------------------------------------------------------------------------
  // Incoming chat messages

  /** An exception `handle_message` lets escape. */
  datatype Raised =
    | NoPayload              // `payload` absent: `None.get` raises AttributeError
    | MissingField(name: string)   // `encrypted_payload[name]` raises KeyError

  /** How an AttributeError for calling `.get` on a `kind` value renders. */
  function NoGetText(kind: string): string
  {
    "'" + kind + "' object has no attribute 'get'"
  }

  function RaisedText(r: Raised): string
  {
    match r
    case NoPayload => NoGetText("NoneType")
    case MissingField(name) => "'" + name + "'"
  }

  /** What `handle_message` does with an envelope. */
  datatype Dispatch =
    | Ignored                          // the client's own echo
    | Shown(from: string, text: string) // decrypted (or failed-decryption notice) under the sender's short id
    | Unreadable(from: string)          // not addressed to this client
    | Raises(fault: Raised)

  function OnMessage(ownId: string, key: Option<PrivateKey>, sender: string, payload: Option<WirePayload>): (d: Dispatch)
    ensures d.Ignored? <==> sender == ownId
    ensures d.Unreadable? <==> sender != ownId && payload.Some? && ownId !in payload.value.keys
  {
    if sender == ownId then Ignored
    else if payload.None? then Raises(NoPayload)
    else
      var p := payload.value;
      if ownId !in p.keys then Unreadable(PyStr.Take(sender, 8))
      else if p.iv.None? then Raises(MissingField("iv"))
      else if p.tag.None? then Raises(MissingField("tag"))
      else if p.ciphertext.None? then Raises(MissingField("ciphertext"))
      else Shown(PyStr.Take(sender, 8), RenderDecryption(OpenPayload(key, p.iv.value, p.tag.value, p.ciphertext.value, p.keys[ownId])))
  }

  /** The log entry a dispatch adds, if any. */
  function Posted(d: Dispatch, stamp: string): seq<Entry>
  {
    match d
    case Shown(from, text) => [Entry(stamp, from, text)]
    case Unreadable(from) => [Entry(stamp, "SYSTEM", "Unreadable msg from " + from)]
    case _ => []
  }

  /**
   * End to end: a message sealed for recipients `R` by `a` is shown in clear
   * by each recipient holding the matching private key, reported unreadable
   * by any other client, and ignored by `a` itself.
   */
  lemma ChatReachesRecipients(a: string, message: string, recipients: map<string, PublicKey>, sessionKey: SessionKey, iv: Iv, id: string, key: PrivateKey)
    ensures var wire := Some(OnWire(Seal(message, recipients, sessionKey, iv)));
      (id == a ==> OnMessage(id, Some(key), a, wire) == Ignored)
      && (id != a && id in recipients && recipients[id] == PublicOf(key) ==> OnMessage(id, Some(key), a, wire) == Shown(PyStr.Take(a, 8), message))
      && (id != a && id !in recipients ==> OnMessage(id, Some(key), a, wire) == Unreadable(PyStr.Take(a, 8)))
  {
    if id != a && id in recipients && recipients[id] == PublicOf(key) {
      DecryptRoundTrip(message, recipients, sessionKey, iv, id, key);
    }
  }

  /** A message addressed to the client is shown even when it cannot be decrypted: the text is then an error notice. */
  lemma AddressedMessageAlwaysShown(ownId: string, key: Option<PrivateKey>, sender: string, p: SealedPayload)
    requires sender != ownId && ownId in p.keys
    ensures var d := OnMessage(ownId, key, sender, Some(OnWire(p)));
      d.Shown? && d.from == PyStr.Take(sender, 8)
      && (OpenPayload(key, p.iv, p.tag, p.ciphertext, p.keys[ownId]).Err? ==> DECRYPTION_ERROR_PREFIX <= d.text)
  {
  }

  // ---------------------------------------------------------------------------
  // The reader loop

  /** One result of `reader.readline()`: the bytes read (empty at end of stream), an exception, or cancellation. */
  datatype ReadResult = Chunk(bytes: seq<byte>) | Failed(reason: string) | Cancelled

  /** The rendering of the `UnicodeDecodeError` a line that is not UTF-8 raises; its byte and position details are not modelled. */
  const UTF8_ERROR := "'utf-8' codec can't decode bytes"

  datatype Step = Continue(v: View) | Stop(v: View)

  function ReadError(v: View, text: string, stamp: string): Step
  {
    Stop(Notice(v, "ERROR", "Read Error: " + text, stamp))
  }

  /** What the loop body does with a line `json.loads` has parsed. */
  function OnParsed(ownId: string, key: Option<PrivateKey>, v: View, data: Parsed, stamp: string): (s: Step)
    ensures v.log <= s.v.log
    ensures forall id :: id in v.peers ==> id in s.v.peers && s.v.peers[id] == v.peers[id]
    ensures s.Stop? <==> data.NotObject? || (data.Obj? && data.msgType == Some("msg") && OnMessage(ownId, key, data.senderId, data.payload).Raises?)
  {
    match data
    case NotJson => Continue(v)
    case NotObject(kind) => ReadError(v, NoGetText(kind), stamp)
    case Obj(msgType, sender, pem, payload) =>
      if msgType == Some("handshake") then Continue(OnHandshake(ownId, v, sender, pem, stamp))
      else if msgType == Some("msg") then
        var d := OnMessage(ownId, key, sender, payload);
        if d.Raises? then ReadError(v, RaisedText(d.fault), stamp)
        else Continue(v.(log := v.log + Posted(d, stamp)))
      else Continue(v)
  }

  /** One pass of the body of `read_from_server`'s loop. */
  function ReadStep(ownId: string, key: Option<PrivateKey>, v: View, item: ReadResult, parse: string -> Parsed, stamp: string): (s: Step)
    ensures v.log <= s.v.log
    ensures forall id :: id in v.peers ==> id in s.v.peers && s.v.peers[id] == v.peers[id]
    ensures item.Cancelled? || (item.Chunk? && item.bytes == []) ==> s == Stop(v)
    ensures item.Failed? || (item.Chunk? && Decode(item.bytes).None?) ==> s.Stop? && |s.v.log| == |v.log| + 1
    ensures s.Continue? ==> item.Chunk? && item.bytes != [] && Decode(item.bytes).Some?
  {
    match item
    case Cancelled => Stop(v)
    case Failed(reason) => ReadError(v, reason, stamp)
    case Chunk(bytes) =>
      if bytes == [] then Stop(v)
      else
        match Decode(bytes)
        case None => ReadError(v, UTF8_ERROR, stamp)
        case Some(text) => OnParsed(ownId, key, v, parse(PyStr.Strip(text)), stamp)
  }

  /**
   * The shape of `read_from_server`'s `while` loop: `body(w, item, i)`
   * handles the i-th item from state `w`, and the first `Stop` ends the loop.
   */
  function Loop(body: (View, ReadResult, nat) -> Step, v: View, items: seq<ReadResult>): Step
    decreases |items|
  {
    if items == [] then Continue(v)
    else
      var n := |items| - 1;
      match Loop(body, v, items[..n])
      case Stop(w) => Stop(w)
      case Continue(w) => body(w, items[n], n)
  }

  /** One more item either finds the loop stopped or runs the body once more. */
  lemma LoopStep(body: (View, ReadResult, nat) -> Step, v: View, items: seq<ReadResult>, i: nat)
    requires i < |items|
    ensures Loop(body, v, items[..i + 1])
         == match Loop(body, v, items[..i]) case Stop(w) => Stop(w) case Continue(w) => body(w, items[i], i)
  {
    assert items[..i + 1][..i] == items[..i];
  }

  /** Whatever follows a stop is never handled. */
  lemma {:induction false} LoopStopPersists(body: (View, ReadResult, nat) -> Step, v: View, pre: seq<ReadResult>, post: seq<ReadResult>)
    requires Loop(body, v, pre).Stop?
    ensures Loop(body, v, pre + post) == Loop(body, v, pre)
  {
    if post == [] {
      assert pre + post == pre;
    } else {
      var m := |post| - 1;
      LoopStopPersists(body, v, pre, post[..m]);
      assert (pre + post)[..|pre + post| - 1] == pre + post[..m];
    }
  }

  /** A loop still going handled each item, from the state reached before it, without stopping. */
  lemma {:induction false} LoopGoing(body: (View, ReadResult, nat) -> Step, v: View, items: seq<ReadResult>, i: nat)
    requires Loop(body, v, items).Continue? && i < |items|
    ensures Loop(body, v, items[..i]).Continue? && body(Loop(body, v, items[..i]).v, items[i], i).Continue?
  {
    var n := |items| - 1;
    if i < n {
      LoopGoing(body, v, items[..n], i);
      assert items[..n][..i] == items[..i];
      assert items[..n][i] == items[i];
    } else {
      assert items[..n] == items[..i];
    }
  }

  /** The loop body of `read_from_server`: read `i` is handled at `clock(i)`. */
  function ReadBody(ownId: string, key: Option<PrivateKey>, parse: string -> Parsed, clock: nat -> string): (View, ReadResult, nat) -> Step
  {
    (w: View, item: ReadResult, i: nat) => ReadStep(ownId, key, w, item, parse, clock(i))
  }

  /** The reader loop over the successive `readline` results, the i-th handled at `clock(i)`. */
  function ReadAll(ownId: string, key: Option<PrivateKey>, v: View, items: seq<ReadResult>, parse: string -> Parsed, clock: nat -> string): (s: Step)
    ensures v.log <= s.v.log
    ensures forall id :: id in v.peers ==> id in s.v.peers && s.v.peers[id] == v.peers[id]
  {
    ReadAllKeeps(ownId, key, v, items, parse, clock);
    Loop(ReadBody(ownId, key, parse, clock), v, items)
  }

  lemma {:induction false} ReadAllKeeps(ownId: string, key: Option<PrivateKey>, v: View, items: seq<ReadResult>, parse: string -> Parsed, clock: nat -> string)
    ensures var s := Loop(ReadBody(ownId, key, parse, clock), v, items);
      v.log <= s.v.log && forall id :: id in v.peers ==> id in s.v.peers && s.v.peers[id] == v.peers[id]
  {
    if items != [] {
      var n := |items| - 1;
      ReadAllKeeps(ownId, key, v, items[..n], parse, clock);
      var s := Loop(ReadBody(ownId, key, parse, clock), v, items[..n]);
      if s.Continue? {
        assert ReadBody(ownId, key, parse, clock)(s.v, items[n], n) == ReadStep(ownId, key, s.v, items[n], parse, clock(n));
      }
    }
  }

  /** The loop is still going only if every read so far returned a non-empty line. */
  lemma GoingMeansLinesRead(ownId: string, key: Option<PrivateKey>, v: View, items: seq<ReadResult>, parse: string -> Parsed, clock: nat -> string, i: nat)
    requires ReadAll(ownId, key, v, items, parse, clock).Continue? && i < |items|
    ensures items[i].Chunk? && items[i].bytes != []
  {
    var body := ReadBody(ownId, key, parse, clock);
    LoopGoing(body, v, items, i);
    var w := Loop(body, v, items[..i]).v;
    assert body(w, items[i], i) == ReadStep(ownId, key, w, items[i], parse, clock(i));
  }

  /** Once the loop has stopped, later reads are never made. */
  lemma StopIsFinal(ownId: string, key: Option<PrivateKey>, v: View, items: seq<ReadResult>, parse: string -> Parsed, clock: nat -> string, i: nat)
    requires i <= |items| && ReadAll(ownId, key, v, items[..i], parse, clock).Stop?
    ensures ReadAll(ownId, key, v, items, parse, clock) == ReadAll(ownId, key, v, items[..i], parse, clock)
  {
    LoopStopPersists(ReadBody(ownId, key, parse, clock), v, items[..i], items[i..]);
    assert items[..i] + items[i..] == items;
  }

  /** The first empty read ends the loop: the final state is the one reached before it, and no later read is made. */
  lemma EmptyReadStops(ownId: string, key: Option<PrivateKey>, v: View, items: seq<ReadResult>, parse: string -> Parsed, clock: nat -> string, i: nat)
    requires i < |items| && items[i] == Chunk([])
    requires ReadAll(ownId, key, v, items[..i], parse, clock).Continue?
    ensures ReadAll(ownId, key, v, items, parse, clock) == Stop(ReadAll(ownId, key, v, items[..i], parse, clock).v)
  {
    var body := ReadBody(ownId, key, parse, clock);
    LoopStep(body, v, items, i);
    var w := Loop(body, v, items[..i]).v;
    assert body(w, items[i], i) == ReadStep(ownId, key, w, Chunk([]), parse, clock(i)) == Stop(w);
    StopIsFinal(ownId, key, v, items, parse, clock, i + 1);
  }

  /** Lines that are not JSON, and objects whose `type` is neither `"handshake"` nor `"msg"`, are skipped. */
  lemma OnlyKnownTypesReachHandlers(ownId: string, key: Option<PrivateKey>, v: View, data: Parsed, stamp: string)
    requires data.NotJson? || (data.Obj? && data.msgType != Some("handshake") && data.msgType != Some("msg"))
    ensures OnParsed(ownId, key, v, data, stamp) == Continue(v)
  {
  }

  /** A `msg` envelope without `payload` raises in its handler, which ends the loop with a read-error notice. */
  lemma MissingPayloadEndsLoop(ownId: string, key: Option<PrivateKey>, v: View, sender: string, pem: PemText, stamp: string)
    requires sender != ownId
    ensures OnParsed(ownId, key, v, Obj(Some("msg"), sender, pem, None), stamp)
         == Stop(Notice(v, "ERROR", "Read Error: " + NoGetText("NoneType"), stamp))
  {
  }

  /** A handshake the client wrote, relayed to another client as one line, is handled as that handshake. */
  lemma RelayedHandshakeIsLearned(ownId: string, key: Option<PrivateKey>, v: View, e: Outbound, line: string, parse: string -> Parsed, stamp: string)
    requires e.HandshakeOut?
    requires PyStr.Trimmed(line) && parse(line) == Received(e)
    ensures ReadStep(ownId, key, v, Chunk(Encode(line + "\n")), parse, stamp)
         == Continue(OnHandshake(ownId, v, e.senderId, PemOnWire(e.pubkey), stamp))
  {
    DecodeEncode(line + "\n");
    PyStr.StripLine(line);
    EncodeNonEmpty(line + "\n");
    LineReachesParser(ownId, key, v, Encode(line + "\n"), line + "\n", parse, stamp);
  }

  /** A non-empty chunk that decodes is handed to the parser stripped. */
  lemma LineReachesParser(ownId: string, key: Option<PrivateKey>, v: View, bytes: seq<byte>, text: string, parse: string -> Parsed, stamp: string)
    requires bytes != [] && Decode(bytes) == Some(text)
    ensures ReadStep(ownId, key, v, Chunk(bytes), parse, stamp) == OnParsed(ownId, key, v, parse(PyStr.Strip(text)), stamp)
  {
  }

  lemma EncodeNonEmpty(s: string)
    requires s != []
    ensures Encode(s) != []
  {
    EncodeAppend([s[0]], s[1..]);
    assert [s[0]] + s[1..] == s;
  }

  // ---------------------------------------------------------------------------
  // Commands

  /** The slash commands `handle_command` knows. */
  datatype Command = Leave | ClearLog | ShowHelp | Unknown(name: string)

  /** The command a lower-cased command word names. */
  function CommandFor(cmd: string): (c: Command)
    ensures c == Leave <==> cmd == "/exit" || cmd == "/quit"
    ensures c == ClearLog <==> cmd == "/clear"
    ensures c == ShowHelp <==> cmd == "/help"
    ensures c.Unknown? ==> c.name == cmd
  {
    if cmd == "/exit" || cmd == "/quit" then Leave
    else if cmd == "/clear" then ClearLog
    else if cmd == "/help" then ShowHelp
    else Unknown(cmd)
  }

  /** `cmd_str.split()[0].lower()` looked up; `None` where `split()` leaves nothing and `parts[0]` raises IndexError. */
  function ParseCommand(cmdStr: string): (r: Option<Command>)
    ensures r.None? <==> forall i :: 0 <= i < |cmdStr| ==> PyStr.IsSpace(cmdStr[i])
  {
    match PyStr.FirstWord(cmdStr)
    case None => None
    case Some(w) => Some(CommandFor(PyStr.LowerAscii(w)))
  }

  /** A word followed by nothing, or by whitespace, names the command of its lower-cased self. */
  lemma WordNamesCommand(word: string, rest: string)
    requires PyStr.IsWord(word)
    requires rest == [] || PyStr.IsSpace(rest[0])
    ensures ParseCommand(word + rest) == Some(CommandFor(PyStr.LowerAscii(word)))
  {
    PyStr.FirstWordOfWord(word, rest);
  }

  /** Words after the command are ignored. */
  lemma ArgumentsIgnored(word: string, rest: string)
    requires PyStr.IsWord(word)
    requires rest == [] || PyStr.IsSpace(rest[0])
    ensures ParseCommand(word + rest) == ParseCommand(word)
  {
    WordNamesCommand(word, rest);
    WordNamesCommand(word, []);
    assert word + [] == word;
  }

  /** The command word is matched without regard to ASCII case. */
  lemma CommandCaseInsensitive(w: string, u: string)
    requires PyStr.IsWord(w) && PyStr.IsWord(u) && PyStr.LowerAscii(w) == PyStr.LowerAscii(u)
    ensures ParseCommand(w) == ParseCommand(u)
  {
    WordNamesCommand(w, []);
    WordNamesCommand(u, []);
    assert w + [] == w;
    assert u + [] == u;
  }

  // ---------------------------------------------------------------------------
  // The client object

  /** The stream writer: none before a connection, open, or closed by `disconnect`. */
  datatype WriterState = NoWriter | Open | Closed

  /**
   * What running command `c` does to the running flag, the writer and the
   * log: `/exit` and `/quit` disconnect, `/clear` empties the log, `/help`
   * only shows a pop-up, and any other word logs "Unknown command". A blank
   * command (`None`) raises before changing anything.
   */
  predicate CommandEffect(c: Option<Command>, stamp: string, running0: bool, writer0: WriterState, log0: seq<Entry>,
                          running: bool, writer: WriterState, log: seq<Entry>)
  {
    match c
    case Some(Leave) =>
      !running && writer == (if writer0.NoWriter? then NoWriter else Closed)
      && log == log0 + [Entry(stamp, "SYSTEM", "Disconnected.")]
    case Some(ClearLog) => running == running0 && writer == writer0 && log == []
    case Some(Unknown(name)) =>
      running == running0 && writer == writer0 && log == log0 + [Entry(stamp, "ERROR", "Unknown command: " + name)]
    case _ => running == running0 && writer == writer0 && log == log0
  }

  /** The options `autocomplete` offers. */
  lemma ClientCommandsComplete(buffer: seq<char>)
    requires buffer == "/e" || buffer == "/q" || buffer == "/c" || buffer == "/h"
    ensures Autocompleted(buffer, CLIENT_COMMANDS) == CLIENT_COMMANDS[PositionOf(buffer)] + " "
  {
    var j := PositionOf(buffer);
    assert buffer == CLIENT_COMMANDS[j][..2];
    forall i | 0 <= i < |CLIENT_COMMANDS| && i != j
      ensures !PyStr.StartsWith(CLIENT_COMMANDS[i], buffer)
    {
      assert CLIENT_COMMANDS[i][1] != buffer[1];
    }
    CompletesUniqueMatch(buffer, CLIENT_COMMANDS, j);
  }

  function PositionOf(buffer: seq<char>): nat
  {
    if buffer == "/e" then 0 else if buffer == "/q" then 1 else if buffer == "/c" then 2 else 3
  }

  class OnyxClient {
    const id: string
    const host: string
    const port: int
    const crypto: OnyxCrypto
    const ui: OnyxUI
    var peerKeys: map<string, PublicKey>
    var writer: WriterState
    var running: bool
    /** Envelopes handed to the writer, in order. */
    var written: seq<Outbound>
    /** Reply handshakes scheduled with `create_task`. */
    var scheduled: nat

    /** `__init__`, with the fresh UUID, the terminal's rows and the repository's commit count as parameters. */
    constructor (id: string, host: string, port: int, rows: int, commitCount: Option<int>)
      ensures this.id == id && this.host == host && this.port == port
      ensures peerKeys == map[] && writer == NoWriter && running && written == [] && scheduled == 0
      ensures crypto.privateKey == None && crypto.publicKeyPem == None
      ensures ui.messages == [] && ui.commands == CLIENT_COMMANDS && ui.userCount == 0 && ui.version == Version(commitCount)
      ensures fresh(crypto) && fresh(ui)
    {
      this.id := id;
      this.host := host;
      this.port := port;
      crypto := new OnyxCrypto();
      var u := new OnyxUI(commitCount, rows);
      u.commands := CLIENT_COMMANDS;
      ui := u;
      peerKeys := map[];
      writer := NoWriter;
      running := true;
      written := [];
      scheduled := 0;
    }

    /** The state the reader loop changes. */
    function Current(): View
      reads this, ui
    {
      View(peerKeys, ui.messages, ui.userCount, scheduled)
    }

    /** `send_json`: the envelope reaches the writer only if there is an open one. */
    method SendJson(e: Outbound)
      modifies this`written
      ensures written == old(written) + (if writer.Open? then [e] else [])
    {
      if writer.Open? {
        written := written + [e];
      }
    }

    /** `send_handshake`: own id and own public key. */
    method SendHandshake()
      modifies this`written
      ensures written == old(written) + (if writer.Open? then [HandshakeOut(id, crypto.publicKeyPem)] else [])
    {
      SendJson(HandshakeOut(id, crypto.publicKeyPem));
    }

    /** `handle_handshake`. */
    method HandleHandshake(sender: string, pem: PemText, stamp: string)
      modifies this`peerKeys, this`scheduled, ui`messages, ui`userCount
      ensures Current() == OnHandshake(id, old(Current()), sender, pem, stamp)
    {
      if sender == id {
        return;
      }
      if sender !in peerKeys {
        var keyObj := OnyxCrypto.LoadPublicKey(pem);
        if keyObj.Some? {
          peerKeys := peerKeys[sender := keyObj.value];
          ui.userCount := |peerKeys| + 1;
          ui.AddMessage(stamp, "SYSTEM", "New Peer: " + PyStr.Take(sender, 8));
          scheduled := scheduled + 1;
        }
      }
    }

    /** `handle_message`: the exception it raises, if any, is returned. */
    method HandleMessage(sender: string, payload: Option<WirePayload>, stamp: string) returns (raised: Option<Raised>)
      modifies ui`messages
      ensures var d := OnMessage(id, crypto.privateKey, sender, payload);
        raised == (if d.Raises? then Some(d.fault) else None)
        && ui.messages == old(ui.messages) + Posted(d, stamp)
    {
      raised := None;
      if sender == id {
        return;
      }
      if payload.None? {
        return Some(NoPayload);
      }
      var keysMap := payload.value.keys;
      if id in keysMap {
        var p := payload.value;
        if p.iv.None? {
          return Some(MissingField("iv"));
        }
        if p.tag.None? {
          return Some(MissingField("tag"));
        }
        if p.ciphertext.None? {
          return Some(MissingField("ciphertext"));
        }
        var plaintext := crypto.DecryptPayload(p.iv.value, p.tag.value, p.ciphertext.value, keysMap[id]);
        ui.AddMessage(stamp, PyStr.Take(sender, 8), plaintext);
      } else {
        ui.AddMessage(stamp, "SYSTEM", "Unreadable msg from " + PyStr.Take(sender, 8));
      }
    }

    /** The dispatch on the parsed line; `going` is false where an exception ends the loop. */
    method HandleParsed(data: Parsed, stamp: string) returns (going: bool)
      modifies this`peerKeys, this`scheduled, ui`messages, ui`userCount
      ensures var s := OnParsed(id, crypto.privateKey, old(Current()), data, stamp);
        Current() == s.v && going == s.Continue?
    {
      going := true;
      match data
      case NotJson =>
      case NotObject(kind) =>
        ui.AddMessage(stamp, "ERROR", "Read Error: " + NoGetText(kind));
        going := false;
      case Obj(msgType, sender, pem, payload) =>
        if msgType == Some("handshake") {
          HandleHandshake(sender, pem, stamp);
        } else if msgType == Some("msg") {
          var raised := HandleMessage(sender, payload, stamp);
          if raised.Some? {
            ui.AddMessage(stamp, "ERROR", "Read Error: " + RaisedText(raised.value));
            going := false;
          }
        }
    }

    /** One pass of `read_from_server`'s loop body; `going` is false where it breaks. */
    method ReadOnce(item: ReadResult, parse: string -> Parsed, stamp: string) returns (going: bool)
      requires running
      modifies this`peerKeys, this`scheduled, ui`messages, ui`userCount
      ensures var s := ReadStep(id, crypto.privateKey, old(Current()), item, parse, stamp);
        Current() == s.v && going == s.Continue?
    {
      going := false;
      match item
      case Cancelled =>
      case Failed(reason) =>
        if running {
          ui.AddMessage(stamp, "ERROR", "Read Error: " + reason);
        }
      case Chunk(bytes) =>
        if bytes != [] {
          var text := Decode(bytes);
          if text.None? {
            ui.AddMessage(stamp, "ERROR", "Read Error: " + UTF8_ERROR);
          } else {
            going := HandleParsed(parse(PyStr.Strip(text.value)), stamp);
          }
        }
    }

    /**
     * `read_from_server` over the successive `readline` results `items`,
     * the i-th handled at `clock(i)`; it reads nothing once stopped.
     */
    method ReadFromServer(items: seq<ReadResult>, parse: string -> Parsed, clock: nat -> string)
      modifies this`peerKeys, this`scheduled, ui`messages, ui`userCount
      ensures old(running) ==> Current() == ReadAll(id, crypto.privateKey, old(Current()), items, parse, clock).v
      ensures !old(running) ==> Current() == old(Current())
    {
      if !running {
        return;
      }
      ghost var start := Current();
      var i := 0;
      var going := true;
      while going && i < |items|
        invariant 0 <= i <= |items|
        invariant going ==> ReadAll(id, crypto.privateKey, start, items[..i], parse, clock) == Continue(Current())
        invariant !going ==> ReadAll(id, crypto.privateKey, start, items[..i], parse, clock) == Stop(Current())
        decreases |items| - i, going
      {
        LoopStep(ReadBody(id, crypto.privateKey, parse, clock), start, items, i);
        going := ReadOnce(items[i], parse, clock(i));
        i := i + 1;
      }
      if !going {
        StopIsFinal(id, crypto.privateKey, start, items, parse, clock, i);
      } else {
        assert items[..i] == items;
      }
    }

    /** `disconnect`: stop the loops, close the writer if there is one, say so. */
    method Disconnect(stamp: string)
      modifies this`running, this`writer, ui`messages
      ensures !running
      ensures writer == if old(writer).NoWriter? then NoWriter else Closed
      ensures ui.messages == old(ui.messages) + [Entry(stamp, "SYSTEM", "Disconnected.")]
    {
      running := false;
      if writer != NoWriter {
        writer := Closed;
      }
      ui.AddMessage(stamp, "SYSTEM", "Disconnected.");
    }

    /** `send_chat_message`, with the session key and IV `os.urandom` would draw. */
    method SendChatMessage(msg: string, sessionKey: SessionKey, iv: Iv, stamp: string)
      modifies this`written, ui`messages
      ensures peerKeys == map[] ==>
        ui.messages == old(ui.messages) + [Entry(stamp, "SYSTEM", "Waiting for peers...")] && written == old(written)
      ensures peerKeys != map[] ==>
        ui.messages == old(ui.messages) + [Entry(stamp, "Me", msg)]
        && written == old(written) + (if writer.Open? then [ChatOut(id, Seal(msg, peerKeys, sessionKey, iv))] else [])
    {
      if peerKeys == map[] {
        ui.AddMessage(stamp, "SYSTEM", "Waiting for peers...");
        return;
      }
      ui.AddMessage(stamp, "Me", msg);
      var encryptedData := crypto.EncryptMessage(msg, peerKeys, sessionKey, iv);
      SendJson(ChatOut(id, encryptedData));
    }

    /** `handle_command`; `raised` where `split()` leaves no word and `parts[0]` raises IndexError. */
    method HandleCommand(cmdStr: string, stamp: string) returns (raised: bool)
      modifies this`running, this`writer, ui`messages
      ensures raised <==> ParseCommand(cmdStr).None?
      ensures CommandEffect(ParseCommand(cmdStr), stamp, old(running), old(writer), old(ui.messages), running, writer, ui.messages)
    {
      var parts := PyStr.FirstWord(cmdStr);
      if parts.None? {
        return true;
      }
      raised := false;
      var cmd := PyStr.LowerAscii(parts.value);
      if cmd == "/exit" || cmd == "/quit" {
        Disconnect(stamp);
      } else if cmd == "/clear" {
        ui.messages := [];
      } else if cmd == "/help" {
      } else {
        ui.AddMessage(stamp, "ERROR", "Unknown command: " + cmd);
      }
    }

    /** One submitted line of `main_loop`: a command when it starts with `/`, chat otherwise. */
    method Submit(userInput: string, sessionKey: SessionKey, iv: Iv, stamp: string) returns (raised: bool)
      modifies this`running, this`writer, this`written, ui`messages
      ensures userInput == [] ==>
        !raised && running == old(running) && writer == old(writer) && written == old(written) && ui.messages == old(ui.messages)
      ensures PyStr.StartsWith(userInput, "/") ==>
        written == old(written) && raised == ParseCommand(userInput).None?
        && CommandEffect(ParseCommand(userInput), stamp, old(running), old(writer), old(ui.messages), running, writer, ui.messages)
      ensures userInput != [] && !PyStr.StartsWith(userInput, "/") ==>
        !raised && running == old(running) && writer == old(writer)
        && written == old(written) + (if peerKeys != map[] && writer.Open? then [ChatOut(id, Seal(userInput, peerKeys, sessionKey, iv))] else [])
        && ui.messages == old(ui.messages) + [if peerKeys == map[] then Entry(stamp, "SYSTEM", "Waiting for peers...") else Entry(stamp, "Me", userInput)]
    {
      raised := false;
      if userInput != [] {
        if PyStr.StartsWith(userInput, "/") {
          raised := HandleCommand(userInput, stamp);
        } else {
          SendChatMessage(userInput, sessionKey, iv, stamp);
        }
      }
    }

    /**
     * `connect` up to the reader and input tasks: generate the key pair,
     * then either open the connection and send the handshake, or report the
     * refusal.
     */
    method Connect(draw: nat, refused: bool, stamp: string)
      requires writer.NoWriter?
      modifies crypto, this`writer, this`written, ui`messages, ui`connectionStatus
      ensures crypto.privateKey == Some(PrivateKey(draw))
      ensures crypto.publicKeyPem == Some(ExportPem(PublicOf(PrivateKey(draw))))
      ensures var announced := old(ui.messages) + [Entry(stamp, "SYSTEM", "Generating Keys... ID: " + PyStr.Take(id, 8))];
        if refused then
          writer == NoWriter && written == old(written) && ui.connectionStatus == "Failed"
          && ui.messages == announced + [Entry(stamp, "ERROR", "Connection refused.")]
        else
          writer == Open && ui.connectionStatus == "Connected"
          && written == old(written) + [HandshakeOut(id, Some(ExportPem(PublicOf(PrivateKey(draw)))))]
          && ui.messages == announced + [Entry(stamp, "SYSTEM", "Connected to relay " + host + ":" + PyStr.IntToString(port))]
    {
      ui.AddMessage(stamp, "SYSTEM", "Generating Keys... ID: " + PyStr.Take(id, 8));
      crypto.GenerateKeys(draw);
      if refused {
        ui.connectionStatus := "Failed";
        ui.AddMessage(stamp, "ERROR", "Connection refused.");
        return;
      }
      writer := Open;
      ui.connectionStatus := "Connected";
      ui.AddMessage(stamp, "SYSTEM", "Connected to relay " + host + ":" + PyStr.IntToString(port));
      SendHandshake();
    }
  }

  /**
   * The handshake one client sends after connecting, relayed to another,
   * stores the sender's real public key there, makes it a recipient of
   * that client's messages and schedules one reply.
   */
  lemma HandshakeExchange(a: string, draw: nat, b: string, v: View, stamp: string)
    requires a != b && a !in v.peers
    ensures var e := HandshakeOut(a, Some(ExportPem(PublicOf(PrivateKey(draw)))));
      var w := OnHandshake(b, v, e.senderId, PemOnWire(e.pubkey), stamp);
      w.peers == v.peers[a := PublicOf(PrivateKey(draw))] && w.replies == v.replies + 1
  {
  }
}
