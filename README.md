# OnyxNet relay and client, modelled in Dafny

OnyxNet is a small end-to-end encrypted chat. A relay keeps a registry of
connected clients, which are TCP streams or WebSocket connections. It
rebroadcasts every line or frame it receives to every other client without
looking inside it. Each terminal client announces its RSA public key in a
`handshake` envelope and keeps a directory of its peers' keys. A chat
message is sealed once under a fresh AES-256-GCM session key, and that key
is wrapped with RSA-OAEP for each peer (hybrid encryption). A curses
interface holds the message log, the input line and tab completion of the
slash commands.

The project has eight modules, one file each:

- `Wrappers` (`wrappers.dfy`): `Option` and `Result`.
- `Utf8` (`utf8.dfy`): strict UTF-8 encoding and decoding as RFC 3629
  defines them, with the round trip proved.
- `PyStr` (`pystr.dfy`): the Python string behaviour the source relies on:
  `str.isspace`, `strip`, `split()[0]`, `lower()`, `s[:n]`, negative slices
  and `str(int)`.
- `Relay` (`relay.dfy`): the relay, `server/connection.py`. It is a class
  `Registry` that holds the list of connected clients and a log of every
  send attempt, together with the TCP and WebSocket connection handlers.
- `Primitives` (`primitives.dfy`): RSA-OAEP, AES-GCM, base64 and PEM as
  symbolic terms. Each inverse law is a lemma proved from the definitions.
- `Crypto` (`crypto.dfy`): the client's hybrid encryption,
  `client/crypto.py`, modelled as the class `OnyxCrypto`.
- `Ui` (`ui.dfy`): the terminal interface's state and key handling,
  `client/ui.py`, modelled as the class `OnyxUI`.
- `Session` (`session.dfy`): the client session, `client/main.py`, modelled
  as the class `OnyxClient`. It covers the handshake directory, message
  dispatch, the reader loop, commands, chat sending and connecting.

Each state-changing method is specified against a pure function of the old
state. Examples are `Relay.FanOut`, `Session.OnHandshake`, `Session.ReadAll`
and `Ui.OnKey`. The properties the system promises are proved about those
functions.

Nondeterminism is supplied by the caller as parameters:

- The random session key and IV, `sessionKey` and `iv`.
- The drawn key pair, `draw`.
- The timestamps, `stamp` and `clock`.
- The set of relay clients whose send fails, `failing`.
- The JSON parser's verdict on a line, `parse`.

## Model

| member | source | states |
|---|---|---|
| `Relay.Registry.constructor` | server/connection.py:4 | The registry starts with no clients and no sends. |
| `Relay.Registry.Register` | server/connection.py:45 | A new connection is appended at the end of the client list. The list stays free of duplicates. |
| `Relay.Registry.Unregister` | server/connection.py:63-64 | The first occurrence of the handle is removed, if there is one. The handle is no longer registered and the list stays duplicate-free. |
| `Relay.Registry.TrySendTo` | server/connection.py:14-35 | The client gets the line as its transport takes it: the bytes verbatim for a stream, the UTF-8 decoded and stripped text for a WebSocket. Nothing is delivered when the send raises (a failing client, or bytes that are not UTF-8 for a WebSocket). |
| `Relay.Registry.Broadcast` | server/connection.py:6-36 | The clients are visited in registration order, and the sender is skipped. The clients tried are exactly `Recipients`, and the deliveries are exactly `FanOut`. A failure at one client never stops the loop, and the client list is left unchanged. |
| `Relay.Registry.ForwardLines` | server/connection.py:48-55 | Each line read before the first empty read is broadcast once, in order, with the stream as sender. |
| `Relay.Registry.ServeStream` | server/connection.py:38-66 | A TCP session registers the stream and relays every line read before end of stream. It then removes the stream, leaving the client list and its invariant as they were. |
| `Relay.Registry.ForwardFrames` | server/connection.py:78-88 | Every frame is normalised and broadcast once, in order, with the WebSocket as sender. |
| `Relay.Registry.ServeWs` | server/connection.py:68-95 | A WebSocket session registers, relays all its frames, and unregisters, leaving the client list as it was. |
| `Relay.Ingress` | server/connection.py:83-86 | Every normalised frame is a non-empty line whose last byte is a newline. |
| `Relay.Egress` | server/connection.py:16-35 | A stream takes the bytes as they are. A WebSocket takes them exactly when they are valid UTF-8, and then gets whitespace-trimmed text. |
| `Relay.TrySend` | server/connection.py:16-35 | At most one send is made. It is made exactly when the client does not fail and its transport accepts the bytes, and it goes to that client with what `Egress` delivers. |
| `Relay.Recipients` | server/connection.py:10-12 | No more clients are tried than are registered, and the sender is never one of them. |
| `Relay.FanOut` | server/connection.py:10-32 | There are no more sends than clients. Every send goes to a registered client that is not the sender and does not fail. Each client's part is given by the helper `SendTo`: nothing for the sender, otherwise `TrySend`. |
| `Relay.RemoveFirst` | server/connection.py:64 | Removal shortens the list by one exactly when the handle is registered. Otherwise the length is unchanged. |
| `Relay.LinesBeforeEof` | server/connection.py:48-52 | There are no more lines than reads. When the lines stop before the reads do, they stop at an empty read. |
| `Relay.SessionLog` | server/connection.py:48-55 | Every send a session causes goes to a registered connection other than its own. |
| `Relay.IngressAll` | server/connection.py:83-86 | There is one line per received frame. |
| `Relay.IngressAllLines` | server/connection.py:83-86 | Line `k` is frame `k` normalised by `Ingress`. |
| `Relay.IngressAppendsNewline` | server/connection.py:83-86 | A text frame becomes its UTF-8 bytes plus a newline. A binary frame becomes its bytes plus a newline. |
| `Relay.WsRoundTrip` | server/connection.py:26 | A whitespace-trimmed text frame reaches another WebSocket as exactly the same text. |
| `Relay.StreamVerbatim` | server/connection.py:16-35 | A stream client that does not fail gets exactly one send, a write of the broadcast bytes unchanged. |
| `Relay.InboxAppend` | server/connection.py:6-36 | What each client receives from two consecutive logs is what it receives from the first, then from the second. |
| `Relay.SenderExcluded` | server/connection.py:11-12 | No send of a broadcast is addressed to its sender, so the sender receives nothing. |
| `Relay.FanOutInbox` | server/connection.py:10-32 | With no duplicate registrations, a broadcast delivers exactly once to each registered non-sender whose send succeeds, and to no one else. |
| `Relay.FailureContained` | server/connection.py:34-35 | Making one more client fail changes what no other client receives. |
| `Relay.RecipientsSkipSender` | server/connection.py:10-12 | With a duplicate-free registry, the clients tried are all registered clients except the sender, in order. |
| `Relay.RecipientsWithoutSender` | server/connection.py:6 | When the sender is not registered, or there is none, every registered client is tried. |
| `Relay.RemoveFirstProperties` | server/connection.py:63-64 | Removal keeps the list duplicate-free and removes the handle. It keeps every other handle, and it changes nothing when the handle is absent. |
| `Relay.RemoveLastAdded` | server/connection.py:45 | Removing the handle just appended restores the list as it was before the append. |
| `Relay.RemoveFirstAt` | server/connection.py:63-64 | Removing a registered handle deletes exactly its position. |
| `Relay.LinesBeforeEofProperties` | server/connection.py:50-52 | The lines relayed are a prefix of what was read. They contain no empty read. They stop exactly at the first empty read, or at the end of input. |
| `Relay.SessionNeverEchoes` | server/connection.py:55 | Nothing a session forwards is ever delivered back to its own connection. |
| `Relay.SessionStreamDelivery` | server/connection.py:55 | Every other registered stream that does not fail receives a session's lines verbatim, in order, each exactly once. |
| `Relay.VerbatimLines` | server/connection.py:31 | A verbatim delivery of lines writes line `k` as its `k`-th write. |
| `Primitives.OaepInverse` | client/crypto.py:37-60 | Unwrapping with the private key recovers what was wrapped for the matching public key. |
| `Primitives.OaepForeignKey` | client/crypto.py:52-59 | A private key that does not match the recipient's public key fails to unwrap. |
| `Primitives.GcmInverse` | client/crypto.py:74-76 | GCM decryption with the same key, IV and tag recovers the plaintext. |
| `Primitives.GcmAuthentic` | client/crypto.py:97-99 | A successful GCM decryption means the ciphertext and tag are exactly the sealing of the released plaintext. |
| `Primitives.B64Inverse` | client/crypto.py:84-86 | Base64 decoding inverts encoding. |
| `Primitives.PemInverse` | client/crypto.py:23-31 | Loading an exported PEM public key yields that key. |
| `Crypto.RenderDecryption` | client/crypto.py:100-102 | A success is the plaintext itself. A failure is "[Decryption Error: " followed by the fault's text and "]". |
| `Crypto.WrapSessionKey` | client/crypto.py:37-47 | The private key of the recipient's public key unwraps the session key. Every other private key fails with an unwrapping error, and having no private key fails as such. |
| `Crypto.UnwrapSessionKey` | client/crypto.py:49-60 | Text that is not base64 fails as base64, and a missing private key fails next. A success returns exactly the message that OAEP sealed under this key's public key, and such a message is always recovered. |
| `Crypto.Seal` | client/crypto.py:62-88 | The wrapped keys are for exactly the recipients. `iv` decodes to the IV bytes, and `tag` and `ciphertext` decode as base64. |
| `Crypto.OpenPayload` | client/crypto.py:90-100 | An unwrapping failure is passed on unchanged. A success means every field decoded, the session key is 16, 24 or 32 bytes, the IV 8 to 128 bytes and the tag at least 16 bytes. The released text is the helper `DecodeText`'s UTF-8 decoding of the opened plaintext. |
| `Crypto.OnyxCrypto.constructor` | client/crypto.py:9-12 | A new instance holds no private key, no public key and no PEM text. |
| `Crypto.OnyxCrypto.GenerateKeys` | client/crypto.py:14-26 | The drawn private key is stored, with its matching public key and that key's PEM export. |
| `Crypto.OnyxCrypto.LoadPublicKey` | client/crypto.py:28-35 | Loading yields a key exactly when the text is PEM. An exported PEM yields the key it came from, and a failure yields no key rather than an exception. |
| `Crypto.OnyxCrypto.EncryptMessage` | client/crypto.py:62-88 | The loop over recipients builds exactly `Seal`. There is one wrapped key per recipient and for no one else, all wrapping the one session key. |
| `Crypto.OnyxCrypto.DecryptPayload` | client/crypto.py:90-102 | Never fails. Any failure to open the payload renders as a text starting with "[Decryption Error: ". |
| `Crypto.OneSessionKeyForAll` | client/crypto.py:79-81 | The `keys` map has exactly the recipients' ids, and each entry wraps the same session key under that recipient's key. |
| `Crypto.SealedFields` | client/crypto.py:84-85 | `iv` decodes to the 12 IV bytes, and `tag` decodes to a 16-byte GCM tag. |
| `Crypto.NoRecipients` | client/crypto.py:79-88 | With no recipients the payload still carries the ciphertext, but no wrapped keys. |
| `Crypto.DecryptRoundTrip` | client/crypto.py:90-100 | A recipient holding the matching private key recovers exactly the message that was sealed. |
| `Crypto.ForeignKeyRejected` | client/crypto.py:92 | Another private key fails at unwrapping, with an OAEP error. |
| `Crypto.TamperedTagRejected` | client/crypto.py:97-99 | Any tag whose bytes differ from the sealed tag makes decryption fail. |
| `Crypto.TamperedCiphertextRejected` | client/crypto.py:97-99 | Any ciphertext whose bytes differ from the sealed ciphertext, under the sealed tag, makes decryption fail. |
| `Crypto.OpenReleasesOnlyAuthentic` | client/crypto.py:90-100 | Any successful decryption releases exactly a plaintext that the session key unwrapped from `wrapped`, under the IV decoded from `iv`, seals to the received ciphertext and tag. |
| `Utf8.EncodeChar` | server/connection.py:84 | A character encodes to 1 to 4 bytes. It encodes to one byte, its own code, exactly when it is ASCII. |
| `Utf8.DecodeFirst` | server/connection.py:26 | A decoded character consumes between 1 and the available number of bytes. |
| `Utf8.DecodeFirstOfEncodeChar` | server/connection.py:26 | Decoding the front of any encoded character, followed by anything, yields that character and its width. |
| `Utf8.Encode` | server/connection.py:84 | A string of n characters encodes to between n and 4n bytes. |
| `Utf8.Decode` | server/connection.py:26 | Decoded text has no more characters than there were bytes. |
| `Utf8.EncodeDecode` | client/main.py:133 | A byte string that decodes is exactly the encoding of its text, so each text has one encoding. |
| `Utf8.DecodeEncode` | client/main.py:133 | Decoding the UTF-8 encoding of any string yields that string. |
| `Utf8.EncodeAppend` | server/connection.py:84 | Encoding a concatenation is the concatenation of the encodings. |
| `PyStr.StripLeft` | client/main.py:133 | Only leading whitespace is removed. The result is a suffix that is empty or starts with a non-space character. |
| `PyStr.StripRight` | client/main.py:133 | Only trailing whitespace is removed. The result is a prefix that is empty or ends with a non-space character. |
| `PyStr.Strip` | client/main.py:133 | The result is no longer than the input and has no whitespace at either end. It is empty exactly when the input is all whitespace. |
| `PyStr.StripLine` | client/main.py:133 | Stripping a trimmed line plus its newline gives the line back. |
| `PyStr.FirstWord` | client/main.py:164-165 | `split()[0]` is missing exactly when the string is all whitespace. Otherwise it is the maximal run of non-space characters after the leading whitespace. |
| `PyStr.FirstWordOfWord` | client/main.py:164 | A word followed by nothing, or by whitespace, splits to that word first. |
| `PyStr.LowerAscii` | client/main.py:165 | Each ASCII capital becomes its lower-case letter, and every other character is unchanged. |
| `PyStr.Take` | client/main.py:100 | `s[:n]` is the prefix of length min(n, len(s)). |
| `PyStr.NatToString` | client/ui.py:41 | The decimal text of a natural number is nonempty and made of digits, with no leading zero. |
| `PyStr.DigitsValueOfNatToString` | client/ui.py:41 | Reading the decimal text back gives the number. |
| `PyStr.NatToStringInjective` | client/ui.py:41 | Distinct numbers have distinct decimal texts. |
| `Ui.Matches` | client/ui.py:146 | The matches are exactly the commands that start with the typed prefix. |
| `Ui.MatchesSingle` | client/ui.py:146-148 | When exactly one command has the prefix, the matches are that command alone. |
| `Ui.MatchesNone` | client/ui.py:146 | When no command has the prefix, there are no matches. |
| `Ui.MatchesAtLeastTwo` | client/ui.py:154 | Two commands with the prefix give at least two matches. |
| `Ui.CompletesUniqueMatch` | client/ui.py:140-153 | A "/" input that exactly one command extends is replaced by that command plus a space. |
| `Ui.KeepsAmbiguousOrUnknown` | client/ui.py:154-158 | With no match, or with two or more matches, the input is left as it was. |
| `Ui.CompletesOnlyCommands` | client/ui.py:143-144 | Input that does not start with "/" is never completed. |
| `Ui.Autocompleted` | client/ui.py:140-158 | The input is kept, or it becomes a known command that extends it, followed by a space. |
| `Ui.OnKey` | client/ui.py:193-235 | A submitted line is the input as it was, and the input is then empty. Any key other than Tab grows the input by at most one character. |
| `Ui.PrintableAppends` | client/ui.py:226-230 | A printable ASCII key appends its character and submits nothing. |
| `Ui.BackspaceErases` | client/ui.py:219-224 | Backspace removes the last character, if there is one, and submits nothing. |
| `Ui.EnterSubmits` | client/ui.py:210-217 | Enter clears the input and submits it, unless it was empty. |
| `Ui.OtherKeysIgnored` | client/ui.py:199-235 | No key, a resize, and every unhandled key leave the input unchanged and submit nothing. |
| `Ui.OnlyEnterSubmits` | client/ui.py:193-235 | A line is submitted exactly when Enter is pressed on a nonempty input. A submitted line is never empty. |
| `Ui.OnKeyKeepsPrintable` | client/ui.py:193-235 | The input only ever holds printable ASCII, even after completion. |
| `Ui.TailIsLastEntries` | client/ui.py:104 | With a positive height, the drawn entries are the newest min(height, count) entries, in order. |
| `Ui.TailOfZeroRows` | client/ui.py:104 | A height of zero draws the whole log, because `[-0:]` is the whole list. |
| `Ui.Tail` | client/ui.py:104 | The drawn entries are always a suffix of the log. `OnyxUI.Drawn` is this tail at the current log height. |
| `Ui.NewestIsDrawn` | client/ui.py:134-136 | The entry just added is drawn, and it is drawn last. |
| `Ui.VersionParts` | client/ui.py:38-40 | Major, minor and patch recombine to the commit count. Minor and patch are single digits. |
| `Ui.VersionSpellsCount` | client/ui.py:30-43 | The version text "vM.m.p" spells out the commit count: M*100 + m*10 + p. |
| `Ui.VersionInjective` | client/ui.py:38-41 | Distinct commit counts give distinct version texts. |
| `Ui.Version` | client/ui.py:30-43 | The version text starts with "v" and ends in ".m.p", with minor and patch single characters. Without a commit count it is the fallback text. The numbers are rendered by `PyStr.IntToString`, Python's `str(int)`. |
| `Ui.OnyxUI.constructor` | client/ui.py:19-25 | The interface starts with an empty log and input, no users, status "Connecting...", no commands, the cached version, and a log height of the rows minus four. |
| `Ui.OnyxUI.AddMessage` | client/ui.py:134-136 | One (timestamp, sender, text) entry is appended to the log. |
| `Ui.OnyxUI.Autocomplete` | client/ui.py:140-158 | The input becomes `Autocompleted` of the old input. |
| `Ui.OnyxUI.Resize` | client/ui.py:68-71 | The log height is recomputed from the new row count. |
| `Ui.OnyxUI.GetInput` | client/ui.py:193-235 | One key press updates the input and the returned line as `OnKey` says. A resize recomputes the log height. |
| `Session.ClassifyHandshake` | client/main.py:92-97 | A handshake brings a new peer exactly when it is not the client's own, names an unknown sender, and carries a loadable key. |
| `Session.HandshakeIgnoresLoopback` | client/main.py:92-93 | The client's own handshake, when relayed back, changes nothing. |
| `Session.HandshakeKeepsFirstKey` | client/main.py:95 | A known peer's key is never replaced. |
| `Session.HandshakeDropsBadKey` | client/main.py:96-97 | A key that does not load leaves the directory unchanged. |
| `Session.HandshakeAddsNewPeer` | client/main.py:95-103 | A new peer's key is stored, and the user count becomes peers plus one. "New Peer: " and the id's first 8 characters are logged, and one reply handshake is scheduled. |
| `Session.OnHandshake` | client/main.py:88-103 | The view changes exactly when the sender is another client, not yet known, with a loadable key. Then that key is stored, the user count is peers plus one, one reply is scheduled, and "New Peer: " with the id's first 8 characters is logged. |
| `Session.HandshakeReplay` | client/main.py:88-103 | Repeating one handshake any number of times has exactly the effect of receiving it once, at the time of the first copy: the same directory, log, user count and replies. |
| `Session.HandshakeTrace` | client/main.py:88-103 | Over any handshake sequence, stored keys never change and the client's own id is never stored. Replies equal the number of new peers, and every new peer sent one of the handshakes. |
| `Session.OnMessage` | client/main.py:105-123 | The client's own messages are ignored. A message is reported unreadable exactly when its payload is present and holds no key for this client. |
| `Session.ChatReachesRecipients` | client/main.py:105-123 | End to end: a sealed message is shown in clear to each recipient holding the matching key. It is unreadable for everyone else, and the sender ignores it. |
| `Session.AddressedMessageAlwaysShown` | client/main.py:113-121 | A message with a key for this client is always shown. When decryption fails, the text shown is a decryption-error notice. |
| `Session.StopIsFinal` | client/main.py:126-149 | Once the reader loop stops, later reads change nothing. |
| `Session.LoopStep` | client/main.py:126-149 | One more read either finds the loop already stopped or runs the loop body once more, from the state reached so far. |
| `Session.LoopStopPersists` | client/main.py:126-149 | For any loop body, items that follow a stop, whatever they are, leave the loop's result as it was at the stop. |
| `Session.LoopGoing` | client/main.py:126-149 | For any loop body, a loop that is still going ran the body on every item so far without it stopping. |
| `Session.OnParsed` | client/main.py:135-149 | The log only grows and stored keys never change. The loop stops exactly on a top level that is not an object, or on a "msg" whose handler raises. |
| `Session.ReadStep` | client/main.py:127-149 | The log only grows and stored keys never change. Cancellation and an empty read stop with nothing changed. A read error, or a line that is not UTF-8, stops after one notice. The loop goes on only after a non-empty line that decodes. |
| `Session.ReadAll` | client/main.py:125-149 | The reader loop is `Loop` with `ReadBody` (one `ReadStep` per read, the i-th at `clock(i)`). Over any sequence of reads, the log only grows and stored keys never change. |
| `Session.GoingMeansLinesRead` | client/main.py:127-133 | While the loop is still going, every read so far returned a non-empty line. |
| `Session.EmptyReadStops` | client/main.py:126-130 | The first empty read, which signals end of stream, ends the loop in the state reached before it, with no message. No later read is made. |
| `Session.OnlyKnownTypesReachHandlers` | client/main.py:138-143 | Invalid JSON, and envelopes of any type other than handshake or msg, are skipped silently. |
| `Session.MissingPayloadEndsLoop` | client/main.py:110-112 | A "msg" without a payload raises. The loop logs the Read Error and stops. |
| `Session.RelayedHandshakeIsLearned` | client/main.py:128-139 | A handshake line written by a client and relayed verbatim is decoded, stripped, dispatched and learned. |
| `Session.ParseCommand` | client/main.py:164-165 | A command word is missing exactly when the input is all whitespace. |
| `Session.CommandFor` | client/main.py:167-176 | "/exit" and "/quit" mean leaving, "/clear" clearing the log and "/help" the help pop-up. Any other word is an unknown command under its own name. |
| `Session.WordNamesCommand` | client/main.py:164-165 | A word followed by nothing, or by whitespace, runs the command its lower-cased form names. |
| `Session.ArgumentsIgnored` | client/main.py:164-165 | Words after the command do not change which command runs. |
| `Session.CommandCaseInsensitive` | client/main.py:165 | Commands that differ only in ASCII case are the same command. |
| `Session.ClientCommandsComplete` | client/main.py:28 | "/e", "/q", "/c" and "/h" each complete to their one command plus a space. |
| `Session.HandshakeExchange` | client/main.py:80-103 | The handshake one client sends after connecting makes another client store its real public key and reply once. |
| `Session.OnyxClient.constructor` | client/main.py:21-31 | The client starts running, with no peers, no writer, no key pair, an empty log, the four client commands and the given host and port. |
| `Session.OnyxClient.SendJson` | client/main.py:73-78 | An envelope is written exactly when a connection is open. |
| `Session.OnyxClient.SendHandshake` | client/main.py:80-86 | The handshake written carries the client's id and its PEM public key. |
| `Session.OnyxClient.HandleHandshake` | client/main.py:88-103 | The peer directory, log, user count and scheduled replies change exactly as `OnHandshake` says. |
| `Session.OnyxClient.HandleMessage` | client/main.py:105-123 | The log gains exactly the entry the helper `Posted` gives for the dispatch: the decrypted text under the sender's short id, or the unreadable notice (client/main.py:121-123). An error is raised exactly when the sender is another client and the payload is missing, or the payload holds this client's key but lacks `iv`, `tag` or `ciphertext`. |
| `Session.OnyxClient.HandleParsed` | client/main.py:135-143 | One parsed line is handled as `OnParsed` says. The loop goes on exactly when it continues. |
| `Session.OnyxClient.ReadOnce` | client/main.py:127-149 | One read is handled as `ReadStep` says. |
| `Session.OnyxClient.ReadFromServer` | client/main.py:125-149 | The reader loop reaches the state of `ReadAll` over the reads. A stopped client reads nothing. |
| `Session.OnyxClient.Disconnect` | client/main.py:63-71 | The client stops running. An open writer is closed, and "Disconnected." is logged. |
| `Session.OnyxClient.SendChatMessage` | client/main.py:178-195 | With no peers, only "Waiting for peers..." is logged. Otherwise the message is logged as "Me", and the payload sealed for every peer is written when the connection is open. |
| `Session.OnyxClient.HandleCommand` | client/main.py:163-176 | /exit and /quit disconnect, /clear empties the log, /help logs nothing, and any other word logs "Unknown command". A blank command raises. The effect is stated once, by the predicate `CommandEffect`. |
| `Session.OnyxClient.Submit` | client/main.py:155-159 | An empty line changes nothing. A line starting with "/" is never sent and takes effect as the command it names, by the same `CommandEffect` as `HandleCommand`: leave, clear, help or an unknown-command notice. Any other line is logged as "Me", or as "Waiting for peers..." when there are none, and is sealed for the peers and sent when the connection is open. |
| `Session.OnyxClient.Connect` | client/main.py:33-59 | Keys are generated first. Then either the connection opens, "Connected to relay host:port" is logged and the handshake is sent, or the refusal is logged and the status is "Failed". |

## Left out

- Concurrency is sequential here. `asyncio.gather` of the reader and the input loop, the `create_task` reply handshakes and the relay's concurrent connection handlers all run one step at a time. A reply is counted in `scheduled` rather than executed, and a registry change during another connection's broadcast is not modelled.
- Sockets, `readline`, `drain`, `close` and `wait_closed` are not modelled. Reads are a given sequence of chunks or frames, and writes are recorded in logs.
- A write to an already closed writer is modelled as dropped. The exception it would raise is not modelled.
- The relay's `print` diagnostics and the client's `logging` calls have no observable effect in the model.
- Curses rendering is left out: window layout, `redraw_all`, `draw_header`, `draw_input`, `show_popup` and the help pop-up text. The model keeps only the state they read.
- `datetime.now()`, `uuid.uuid4()`, `os.urandom`, and the `git rev-list` subprocess are inputs. They appear as `stamp`/`clock`, the client id, `sessionKey`/`iv`/`draw` and the optional commit count.
- JSON encoding and decoding is abstract: envelopes are datatypes, and the parser is a parameter. PEM and base64 are symbolic texts.
- RSA-OAEP and AES-GCM are symbolic, and their security is assumed through the term algebra. The 190-byte OAEP message limit and key sizes other than 2048 bits are not modelled.
- The text of library exceptions is approximated. This covers `Describe`'s fault texts, `UTF8_ERROR` and the `'...' object has no attribute 'get'` message. Only the "[Decryption Error: " and "Read Error: " framing is exact.
- An absent or non-string `sender_id`, and a `payload` that is neither an object nor null, are not modelled. Ids are strings; a payload is an object or missing.
- A `keys` field that is not an object is not modelled (client/main.py:112-114); the model's `keys` is always a map. In the source, a null `keys` makes the `in` test raise TypeError, which ends the reader loop with "Read Error". A list is searched by membership and a string by substring, and when the id is found there, `keys_map[self.id]` raises TypeError with the same effect. Otherwise the message is reported unreadable.
- `lower()` is modelled for ASCII letters only, since commands are ASCII. Lone surrogates are excluded by Dafny's `char`.
- The "Send Failed" branch of `send_chat_message` (client/main.py:186-195) and the generic "Error:" branch of `connect` are not modelled. The latter only catches exceptions of the parts left out above. The former is also reached when a peer's stored key is not an RSA key (see the next line): `encrypt_message` then raises, "Send Failed: ..." is logged after the "Me" entry, and nothing is written to any peer.
- Crypto.OnyxCrypto.LoadPublicKey: only RSA-2048 public keys are modelled, so `PemOf` can carry only such a key and `Seal` never fails. `load_pem_public_key` (client/crypto.py:31) also accepts EC, Ed25519, DSA and other SubjectPublicKeyInfo PEM texts. Such a key is stored by `handle_handshake` on a first-come basis (client/main.py:96-103), and then every later `encrypt_message` raises at `recipient_pub_key.encrypt` (client/crypto.py:39), so each chat send fails as long as that peer is known.
- `main_loop`'s polling and `asyncio.sleep`, the `main` wrapper and `argparse` are not modelled.
- `start_web.py` is not part of this model. Neither is `server/main.py`, which starts the two listeners with the WebSocket port at `port + 1` and looks up the LAN address.
- Relay.Registry.Register: requires that the handle is not already registered. Every accepted connection is a new transport object, so the source never appends one twice.
- Session.OnyxClient.ReadOnce: requires `running`. In this sequential model nothing clears `running` while the reader loop runs, so the loop guard is true at every iteration. `ReadFromServer` handles a stopped client.
- Session.OnyxClient.HandleCommand: the IndexError raised on a blank command is returned as `raised`. Its propagation out of `main_loop` is not modelled.
- Crypto.TamperedTagRejected, Crypto.TamperedCiphertextRejected: `Base64Of(b)` stands for every text that decodes to `b`, so these lemmas speak of altered bytes. `base64.b64decode` without `validate=True` drops non-alphabet characters, so two different texts can carry the same bytes; that textual freedom is not modelled.
- Crypto.OnyxCrypto.DecryptPayload: for a failure, the contract states only the "[Decryption Error: " prefix. The full text is `RenderDecryption`'s.

Two behaviours of the code worth noting:

- A failed send to one client does not unregister that client (server/connection.py:34-36). The relay only logs the error, and the client is removed when its own connection's read loop ends.
- An envelope that is valid JSON but malformed stops the client's reader loop with a "Read Error" notice (client/main.py:142-149). This covers a top level that is not an object, a `msg` without a payload, and a payload that holds this client's key but lacks `iv`, `tag` or `ciphertext`. So does a line that is not UTF-8. Only invalid JSON is dropped silently.
