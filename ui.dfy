/**
 * The terminal front end's state (client/ui.py), with every curses call
 * taken out: the message log and its drawn tail, the line being typed and
 * the key handling that edits it, command completion, and the version
 * string derived from the repository's commit count.
 */
module Ui {
  import opened Wrappers
  import PyStr

  /** curses' codes for the resize event and the backspace key. */
  const KEY_RESIZE := 410
  const KEY_BACKSPACE := 263
  const KEY_TAB := 9

  /** One line of the message log: `(timestamp, sender, text)`. */
  datatype Entry = Entry(timestamp: string, sender: string, text: string)

  /** The option list `['/exit', '/quit', '/clear', '/help']` the client installs. */
  const CLIENT_COMMANDS: seq<string> := ["/exit", "/quit", "/clear", "/help"]

  // ---------------------------------------------------------------------------
  // Completion

  /** `[cmd for cmd in commands if cmd.startswith(prefix)]`. */
  function Matches(commands: seq<string>, prefix: string): (r: seq<string>)
    ensures forall k :: 0 <= k < |r| ==> PyStr.StartsWith(r[k], prefix) && r[k] in commands
    ensures forall c :: c in commands && PyStr.StartsWith(c, prefix) ==> c in r
  {
    if commands == [] then []
    else
      var rest := Matches(commands[1..], prefix);
      if PyStr.StartsWith(commands[0], prefix) then [commands[0]] + rest else rest
  }

  /** The input line after TAB: a command line with exactly one completion becomes it plus a space. */
  function Autocompleted(buffer: seq<char>, commands: seq<string>): (r: seq<char>)
    ensures r == buffer || (0 < |r| && r[|r| - 1] == ' ' && r[..|r| - 1] in commands && PyStr.StartsWith(r[..|r| - 1], buffer))
  {
    if !PyStr.StartsWith(buffer, "/") then buffer
    else
      var m := Matches(commands, buffer);
      if |m| == 1 then
        assert (m[0] + " ")[..|m[0]|] == m[0];
        m[0] + " "
      else buffer
  }

  lemma {:induction false} MatchesSingle(commands: seq<string>, prefix: string, j: nat)
    requires j < |commands| && PyStr.StartsWith(commands[j], prefix)
    requires forall i :: 0 <= i < |commands| && i != j ==> !PyStr.StartsWith(commands[i], prefix)
    ensures Matches(commands, prefix) == [commands[j]]
  {
    if j == 0 {
      MatchesNone(commands[1..], prefix);
    } else {
      MatchesSingle(commands[1..], prefix, j - 1);
    }
  }

  lemma {:induction false} MatchesNone(commands: seq<string>, prefix: string)
    requires forall i :: 0 <= i < |commands| ==> !PyStr.StartsWith(commands[i], prefix)
    ensures Matches(commands, prefix) == []
  {
    if commands != [] {
      MatchesNone(commands[1..], prefix);
    }
  }

  lemma {:induction false} MatchesAtLeastTwo(commands: seq<string>, prefix: string, i: nat, j: nat)
    requires i < j < |commands| && PyStr.StartsWith(commands[i], prefix) && PyStr.StartsWith(commands[j], prefix)
    ensures |Matches(commands, prefix)| >= 2
  {
    if i == 0 {
      assert commands[1..][j - 1] in Matches(commands[1..], prefix);
    } else {
      MatchesAtLeastTwo(commands[1..], prefix, i - 1, j - 1);
    }
  }

  /** With exactly one command extending the line, TAB completes it and adds a space. */
  lemma CompletesUniqueMatch(buffer: seq<char>, commands: seq<string>, j: nat)
    requires PyStr.StartsWith(buffer, "/")
    requires j < |commands| && PyStr.StartsWith(commands[j], buffer)
    requires forall i :: 0 <= i < |commands| && i != j ==> !PyStr.StartsWith(commands[i], buffer)
    ensures Autocompleted(buffer, commands) == commands[j] + " "
  {
    MatchesSingle(commands, buffer, j);
  }

  /** With no command, or with two or more commands, extending the line, TAB leaves it alone. */
  lemma KeepsAmbiguousOrUnknown(buffer: seq<char>, commands: seq<string>)
    requires (forall i :: 0 <= i < |commands| ==> !PyStr.StartsWith(commands[i], buffer))
          || (exists i, j :: 0 <= i < j < |commands| && PyStr.StartsWith(commands[i], buffer) && PyStr.StartsWith(commands[j], buffer))
    ensures Autocompleted(buffer, commands) == buffer
  {
    if forall i :: 0 <= i < |commands| ==> !PyStr.StartsWith(commands[i], buffer) {
      MatchesNone(commands, buffer);
    } else {
      var i, j :| 0 <= i < j < |commands| && PyStr.StartsWith(commands[i], buffer) && PyStr.StartsWith(commands[j], buffer);
      MatchesAtLeastTwo(commands, buffer, i, j);
    }
  }

  /** A line that is not a command is never completed. */
  lemma CompletesOnlyCommands(buffer: seq<char>, commands: seq<string>)
    requires !PyStr.StartsWith(buffer, "/")
    ensures Autocompleted(buffer, commands) == buffer
  {
  }

  // ---------------------------------------------------------------------------
  // Key handling

  /** What one key does: the line it submits, if any, and the input line afterwards. */
  datatype KeyEffect = KeyEffect(submitted: Option<string>, buffer: seq<char>)

  predicate IsBackspace(key: int)
  {
    key == 8 || key == 127 || key == KEY_BACKSPACE
  }

  predicate IsEnter(key: int)
  {
    key == 10 || key == 13
  }

  predicate IsPrintable(key: int)
  {
    32 <= key <= 126
  }

  /** The branches of `get_input`, in the order it tests them. */
  function OnKey(buffer: seq<char>, commands: seq<string>, key: int): (e: KeyEffect)
    ensures e.submitted.Some? ==> e.submitted.value == buffer && e.buffer == []
    ensures key != KEY_TAB ==> |e.buffer| <= |buffer| + 1
  {
    if key == KEY_RESIZE || key == -1 then KeyEffect(None, buffer)
    else if key == KEY_TAB then KeyEffect(None, Autocompleted(buffer, commands))
    else if IsEnter(key) then KeyEffect(if buffer != [] then Some(buffer) else None, [])
    else if IsBackspace(key) then KeyEffect(None, if buffer != [] then buffer[..|buffer| - 1] else buffer)
    else if IsPrintable(key) then KeyEffect(None, buffer + [key as char])
    else KeyEffect(None, buffer)
  }

  lemma PrintableAppends(buffer: seq<char>, commands: seq<string>, key: int)
    requires IsPrintable(key)
    ensures OnKey(buffer, commands, key) == KeyEffect(None, buffer + [key as char])
  {
  }

  lemma BackspaceErases(buffer: seq<char>, commands: seq<string>, key: int)
    requires IsBackspace(key)
    ensures OnKey(buffer, commands, key).submitted == None
    ensures buffer != [] ==> OnKey(buffer, commands, key).buffer + [buffer[|buffer| - 1]] == buffer
    ensures buffer == [] ==> OnKey(buffer, commands, key).buffer == []
  {
  }

  /** Enter always empties the line and submits it unless it was empty. */
  lemma EnterSubmits(buffer: seq<char>, commands: seq<string>, key: int)
    requires IsEnter(key)
    ensures OnKey(buffer, commands, key).buffer == []
    ensures OnKey(buffer, commands, key).submitted == if buffer == [] then None else Some(buffer)
  {
  }

  /** No input, a resize or any key not handled leaves the line as it is. */
  lemma OtherKeysIgnored(buffer: seq<char>, commands: seq<string>, key: int)
    requires key == -1 || key == KEY_RESIZE || !(key == KEY_TAB || IsEnter(key) || IsBackspace(key) || IsPrintable(key))
    ensures OnKey(buffer, commands, key) == KeyEffect(None, buffer)
  {
  }

  /** Only Enter submits a line, and the line it submits is never empty. */
  lemma OnlyEnterSubmits(buffer: seq<char>, commands: seq<string>, key: int)
    ensures OnKey(buffer, commands, key).submitted.Some? <==> IsEnter(key) && key != KEY_TAB && buffer != []
    ensures OnKey(buffer, commands, key).submitted.Some? ==> OnKey(buffer, commands, key).submitted.value != []
  {
  }

  predicate PrintableText(s: string)
  {
    forall i :: 0 <= i < |s| ==> IsPrintable(s[i] as int)
  }

  /** Typed text stays printable ASCII when every command is. */
  lemma {:induction false} OnKeyKeepsPrintable(buffer: seq<char>, commands: seq<string>, key: int)
    requires PrintableText(buffer) && forall k :: 0 <= k < |commands| ==> PrintableText(commands[k])
    ensures PrintableText(OnKey(buffer, commands, key).buffer)
  {
    if key == KEY_TAB && PyStr.StartsWith(buffer, "/") {
      var m := Matches(commands, buffer);
      if |m| == 1 {
        assert m[0] in commands;
        var c := m[0] + " ";
        assert forall i :: 0 <= i < |m[0]| ==> c[i] == m[0][i];
      }
    }
  }

  // ---------------------------------------------------------------------------
  // The drawn tail of the log

  /** `messages[-height:]`, including Python's reading of `-0` as the whole list. */
  function Tail(messages: seq<Entry>, height: int): (t: seq<Entry>)
    ensures |t| <= |messages| && t == messages[|messages| - |t|..]
  {
    PyStr.SliceFrom(messages, -height)
  }

  /** A window of `height > 0` rows shows the last `height` entries, or all of them when there are fewer. */
  lemma TailIsLastEntries(messages: seq<Entry>, height: int)
    requires height > 0
    ensures |Tail(messages, height)| == if height < |messages| then height else |messages|
    ensures Tail(messages, height) == messages[|messages| - |Tail(messages, height)|..]
  {
  }

  /** A window reckoned at zero rows still draws every entry. */
  lemma TailOfZeroRows(messages: seq<Entry>)
    ensures Tail(messages, 0) == messages
  {
  }

  /** The entry just added is always the last one drawn. */
  lemma NewestIsDrawn(messages: seq<Entry>, e: Entry, height: int)
    requires height > 0
    ensures var t := Tail(messages + [e], height); t != [] && t[|t| - 1] == e
  {
  }

  // ---------------------------------------------------------------------------
  // Version

  /** `(c // 100, (c % 100) // 10, c % 10)`: Python's floor division, which Dafny's `/` and `%` match for a positive divisor. */
  function VersionParts(commitCount: int): (parts: (int, int, int))
    ensures parts.0 * 100 + parts.1 * 10 + parts.2 == commitCount
    ensures 0 <= parts.1 <= 9 && 0 <= parts.2 <= 9
  {
    DigitsOf(commitCount);
    (commitCount / 100, (commitCount % 100) / 10, commitCount % 10)
  }

  lemma DigitsOf(c: int)
    ensures (c / 100) * 100 + ((c % 100) / 10) * 10 + c % 10 == c
    ensures 0 <= (c % 100) / 10 <= 9 && 0 <= c % 10 <= 9
  {
    var q, r := c / 100, c % 100;
    assert c == q * 100 + r && 0 <= r < 100;
    var t, u := r / 10, r % 10;
    assert r == t * 10 + u && 0 <= u < 10 && 0 <= t <= 9;
    assert c == (q * 10 + t) * 10 + u;
    assert c % 10 == u;
  }

  /** `get_version`: `None` stands for a failed `git` call or an unparsable count. */
  function Version(commitCount: Option<int>): (v: string)
    ensures |v| >= 6 && v[0] == 'v' && v[|v| - 4] == '.' && v[|v| - 2] == '.'
    ensures commitCount.None? ==> v == "v1.0.0"
  {
    match commitCount
    case None => "v1.0.0"
    case Some(c) =>
      var p := VersionParts(c);
      "v" + PyStr.IntToString(p.0) + "." + PyStr.IntToString(p.1) + "." + PyStr.IntToString(p.2)
  }

  function DigitValue(c: char): int
  {
    c as int - '0' as int
  }

  /** Reads a version string back as a commit count: hundreds, then a tens digit, then a units digit. */
  function CountOf(v: string): int
    requires |v| >= 6
  {
    PyStr.DigitsValue(v[1..|v| - 4]) * 100 + DigitValue(v[|v| - 3]) * 10 + DigitValue(v[|v| - 1])
  }

  /** The version string of a non-negative count has the form `vM.m.p` and spells the count. */
  lemma VersionSpellsCount(c: nat)
    ensures var v := Version(Some(c));
      |v| >= 6 && v[0] == 'v' && v[|v| - 4] == '.' && v[|v| - 2] == '.' && CountOf(v) == c
  {
    var major, minor, patch := c / 100, (c % 100) / 10, c % 10;
    var digits := PyStr.NatToString(major);
    VersionShape(c);
    var v := Version(Some(c));
    assert v[1..|v| - 4] == digits;
    assert DigitValue(v[|v| - 3]) == minor && DigitValue(v[|v| - 1]) == patch;
    PyStr.DigitsValueOfNatToString(major);
    assert CountOf(v) == major * 100 + minor * 10 + patch;
  }

  lemma VersionShape(c: nat)
    ensures Version(Some(c)) == "v" + PyStr.NatToString(c / 100) + "." + [PyStr.DigitChar((c % 100) / 10)] + "." + [PyStr.DigitChar(c % 10)]
  {
  }

  /** Distinct non-negative commit counts give distinct versions. */
  lemma VersionInjective(c: nat, d: nat)
    requires Version(Some(c)) == Version(Some(d))
    ensures c == d
  {
    VersionSpellsCount(c);
    VersionSpellsCount(d);
  }

  // ---------------------------------------------------------------------------
  // The UI object

  class OnyxUI {
    var messages: seq<Entry>
    var inputBuffer: seq<char>
    var userCount: int
    var connectionStatus: string
    var commands: seq<string>
    /** Rows of the message window: the terminal's rows less the header and the input box. */
    var msgHeight: int
    /** Computed once at start-up. */
    const version: string

    constructor (commitCount: Option<int>, rows: int)
      ensures messages == [] && inputBuffer == [] && userCount == 0
      ensures connectionStatus == "Connecting..." && commands == []
      ensures msgHeight == rows - 4 && version == Version(commitCount)
    {
      messages, inputBuffer, userCount := [], [], 0;
      connectionStatus, commands := "Connecting...", [];
      msgHeight := rows - 1 - 3;
      version := Version(commitCount);
    }

    /** The entries `draw_messages` puts on screen. */
    function Drawn(): seq<Entry>
      reads this
    {
      Tail(messages, msgHeight)
    }

    /** `add_message`: exactly one entry at the end, earlier entries untouched. */
    method AddMessage(timestamp: string, sender: string, text: string)
      modifies this`messages
      ensures messages == old(messages) + [Entry(timestamp, sender, text)]
    {
      messages := messages + [Entry(timestamp, sender, text)];
    }

    /** `autocomplete` on TAB. */
    method Autocomplete()
      modifies this`inputBuffer
      ensures inputBuffer == Autocompleted(old(inputBuffer), commands)
    {
      var current := inputBuffer;
      if !PyStr.StartsWith(current, "/") {
        return;
      }
      var matches := Matches(commands, current);
      if |matches| == 1 {
        inputBuffer := matches[0] + " ";
      }
    }

    /** `resize`: the window geometry is recomputed for a terminal of `rows` rows. */
    method Resize(rows: int)
      modifies this`msgHeight
      ensures msgHeight == rows - 4
    {
      msgHeight := rows - 1 - 3;
    }

    /**
     * `get_input` for the key `getch()` returned; `rows` is the terminal's
     * height, read only on a resize.
     */
    method GetInput(key: int, rows: int) returns (line: Option<string>)
      modifies this`inputBuffer, this`msgHeight
      ensures KeyEffect(line, inputBuffer) == OnKey(old(inputBuffer), commands, key)
      ensures msgHeight == if key == KEY_RESIZE then rows - 4 else old(msgHeight)
    {
      line := None;
      if key == KEY_RESIZE {
        Resize(rows);
        return;
      }
      if key == -1 {
        return;
      }
      if key == KEY_TAB {
        Autocomplete();
        return;
      }
      if key == 10 || key == 13 {
        var msg := inputBuffer;
        inputBuffer := [];
        if msg != [] {
          line := Some(msg);
        }
        return;
      }
      if key == 8 || key == 127 || key == KEY_BACKSPACE {
        if inputBuffer != [] {
          inputBuffer := inputBuffer[..|inputBuffer| - 1];
        }
        return;
      }
      if 32 <= key <= 126 {
        inputBuffer := inputBuffer + [key as char];
      }
    }
  }
}
