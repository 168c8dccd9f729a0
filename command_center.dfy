/**
 * The composer: submitting a message, the saved presets ("macros"), the
 * stress test that sends one message per timer tick, and the XML branch of
 * the format button.
 */
module CommandCenter {
  import opened Wrappers
  import opened Seqs
  import opened Text
  import opened Types

  // ---------------------------------------------------------------------
  // Presets

  /** A saved preset: a name, a message type and the message text. */
  datatype Macro = Macro(id: string, name: string, kind: MessageType, content: string)

  /** The presets shown before anything is saved. */
  const DefaultMacros: seq<Macro> := [
    Macro("1", "Login JSON", Json, "{\"action\":\"LOGIN\",\"uid\":1001}"),
    Macro("2", "Ping Text", Text, "PING")
  ]

  /** Some preset of `ms` has id `id`. */
  predicate HasId(ms: seq<Macro>, id: string)
  {
    exists i :: 0 <= i < |ms| && ms[i].id == id
  }

  /** No two presets of `ms` share an id. */
  predicate DistinctIds(ms: seq<Macro>)
  {
    forall i, j :: 0 <= i < j < |ms| ==> ms[i].id != ms[j].id
  }

  /**
   * The edit branch of `saveMacro`: every preset with id `id` takes the new
   * name, type and content and keeps its id; the others stay as they were.
   */
  function UpdateMacro(ms: seq<Macro>, id: string, name: string, kind: MessageType, content: string): (r: seq<Macro>)
    ensures |r| == |ms|
    ensures forall i :: 0 <= i < |ms| ==> r[i].id == ms[i].id
    ensures forall i :: 0 <= i < |ms| && ms[i].id != id ==> r[i] == ms[i]
    ensures forall i :: 0 <= i < |ms| && ms[i].id == id ==> r[i] == Macro(id, name, kind, content)
  {
    seq(|ms|, i requires 0 <= i < |ms| =>
      if ms[i].id == id then ms[i].(name := name, kind := kind, content := content) else ms[i])
  }

  /** Saving a preset's own fields back over it changes nothing when ids are distinct. */
  lemma UnchangedEditKeepsList(ms: seq<Macro>, k: nat)
    requires DistinctIds(ms) && k < |ms|
    ensures UpdateMacro(ms, ms[k].id, ms[k].name, ms[k].kind, ms[k].content) == ms
  {
    var m := ms[k];
    var r := UpdateMacro(ms, m.id, m.name, m.kind, m.content);
    forall i | 0 <= i < |ms|
      ensures r[i] == ms[i]
    {
      if ms[i].id == m.id {
        assert i == k;
      }
    }
  }

  /** `deleteMacro`'s list: the presets without id `id`, in their order. */
  function RemoveMacro(ms: seq<Macro>, id: string): (r: seq<Macro>)
    ensures |r| <= |ms|
    ensures forall i :: 0 <= i < |r| ==> r[i].id != id && r[i] in ms
    ensures forall i :: 0 <= i < |ms| && ms[i].id != id ==> ms[i] in r
    ensures !HasId(ms, id) ==> r == ms
  {
    Filter(ms, (m: Macro) => m.id != id)
  }

  /** Deleting a preset appended under a fresh id gives back the list before it. */
  lemma RemoveAfterAppend(ms: seq<Macro>, m: Macro)
    requires !HasId(ms, m.id)
    ensures RemoveMacro(ms + [m], m.id) == ms
  {
    var p := (x: Macro) => x.id != m.id;
    FilterConcat(ms, [m], p);
    assert Filter([m], p) == [];
  }

  // ---------------------------------------------------------------------
  // The composer's state

  /**
   * The composer: the message being written and its type, the presets, the
   * save form (name, shown, the id being edited), and what the presets'
   * storage key holds.
   */
  datatype Composer = Composer(
    message: string,
    mode: MessageType,
    macros: seq<Macro>,
    newMacroName: string,
    showSaveMacro: bool,
    editingId: Option<string>,
    stored: Option<seq<Macro>>)

  /** Mounting: an empty JSON message and the stored presets, or the defaults when none are stored. */
  function Mount(saved: Option<seq<Macro>>): (c: Composer)
    ensures c.macros == (if saved.Some? then saved.value else DefaultMacros)
    ensures c.stored == saved
    ensures c.message == "" && c.mode == Json && c.editingId == None && !c.showSaveMacro && c.newMacroName == ""
  {
    Composer("", Json, if saved.Some? then saved.value else DefaultMacros, "", false, None, saved)
  }

  /**
   * `handleSubmit`: a message blank after trimming is not sent; any other is
   * sent once with the current type, and the box is cleared unless a stress
   * test is running.
   */
  function Submit(c: Composer, stressing: bool): (r: (Composer, Option<(MessageType, string)>))
    ensures IsBlank(c.message) ==> r == (c, None)
    ensures !IsBlank(c.message) ==> r.1 == Some((c.mode, c.message))
    ensures !IsBlank(c.message) ==> r.0 == if stressing then c else c.(message := "")
  {
    if IsBlank(c.message) then (c, None)
    else (if stressing then c else c.(message := ""), Some((c.mode, c.message)))
  }

  /** Submitting twice without typing in between sends once. */
  lemma SubmitClearsForNext(c: Composer)
    ensures var (c1, sent) := Submit(c, false);
            Submit(c1, false).1 == None && (sent.Some? <==> !IsBlank(c.message))
  {
    var (c1, _) := Submit(c, false);
    if !IsBlank(c.message) {
      assert c1.message == "";
      assert TrimStart("") == "";
    }
  }

  /** The save form is editing an existing preset (a non-empty id is set). */
  predicate Editing(c: Composer)
  {
    c.editingId.Some? && c.editingId.value != ""
  }

  /**
   * `saveMacro`: nothing when the name or the message is blank; in edit mode
   * the edited preset takes the name, type and message; otherwise a new
   * preset is appended under `freshId`. The list is then stored and the form
   * closed.
   */
  function SaveMacro(c: Composer, freshId: string): (r: Composer)
    ensures IsBlank(c.newMacroName) || IsBlank(c.message) ==> r == c
    ensures !(IsBlank(c.newMacroName) || IsBlank(c.message)) ==>
              && r.stored == Some(r.macros) && r.newMacroName == "" && !r.showSaveMacro
              && r.message == c.message && r.mode == c.mode
    ensures !(IsBlank(c.newMacroName) || IsBlank(c.message)) && Editing(c) ==>
              && r.macros == UpdateMacro(c.macros, c.editingId.value, c.newMacroName, c.mode, c.message)
              && r.editingId == None
    ensures !(IsBlank(c.newMacroName) || IsBlank(c.message)) && !Editing(c) ==>
              && |r.macros| == |c.macros| + 1 && r.macros[..|c.macros|] == c.macros
              && r.macros[|c.macros|] == Macro(freshId, c.newMacroName, c.mode, c.message)
              && r.editingId == c.editingId
  {
    if IsBlank(c.newMacroName) || IsBlank(c.message) then c
    else if Editing(c) then
      var ms := UpdateMacro(c.macros, c.editingId.value, c.newMacroName, c.mode, c.message);
      c.(macros := ms, stored := Some(ms), editingId := None, newMacroName := "", showSaveMacro := false)
    else
      var ms := c.macros + [Macro(freshId, c.newMacroName, c.mode, c.message)];
      assert ms[..|c.macros|] == c.macros;
      c.(macros := ms, stored := Some(ms), newMacroName := "", showSaveMacro := false)
  }

  /**
   * `deleteMacro`: the presets with that id removed and the list stored; the
   * save form is reset when the deleted preset was being edited.
   */
  function DeleteMacro(c: Composer, id: string): (r: Composer)
    ensures r.macros == RemoveMacro(c.macros, id) && r.stored == Some(r.macros)
    ensures r.message == c.message && r.mode == c.mode
    ensures c.editingId == Some(id) ==> r.editingId == None && !r.showSaveMacro && r.newMacroName == ""
    ensures c.editingId != Some(id) ==>
              r.editingId == c.editingId && r.showSaveMacro == c.showSaveMacro && r.newMacroName == c.newMacroName
  {
    var ms := RemoveMacro(c.macros, id);
    if c.editingId == Some(id) then
      c.(macros := ms, stored := Some(ms), editingId := None, showSaveMacro := false, newMacroName := "")
    else
      c.(macros := ms, stored := Some(ms))
  }

  /** Deleting the preset just saved under a fresh id restores the previous list. */
  lemma DeleteUndoesSave(c: Composer, freshId: string)
    requires !IsBlank(c.newMacroName) && !IsBlank(c.message) && !Editing(c)
    requires !HasId(c.macros, freshId)
    ensures DeleteMacro(SaveMacro(c, freshId), freshId).macros == c.macros
  {
    RemoveAfterAppend(c.macros, Macro(freshId, c.newMacroName, c.mode, c.message));
  }

  /** `startEditMacro`: the preset's type, content and name loaded, its id marked as edited, the form shown. */
  function StartEditMacro(c: Composer, m: Macro): (r: Composer)
    ensures r.mode == m.kind && r.message == m.content && r.newMacroName == m.name
    ensures r.editingId == Some(m.id) && r.showSaveMacro
    ensures r.macros == c.macros && r.stored == c.stored
  {
    c.(mode := m.kind, message := m.content, newMacroName := m.name, editingId := Some(m.id), showSaveMacro := true)
  }

  /** Opening a preset for editing and saving it untouched leaves the list as it was. */
  lemma SaveUnmodifiedEdit(c: Composer, k: nat, freshId: string)
    requires DistinctIds(c.macros) && k < |c.macros|
    requires c.macros[k].id != "" && !IsBlank(c.macros[k].name) && !IsBlank(c.macros[k].content)
    ensures SaveMacro(StartEditMacro(c, c.macros[k]), freshId).macros == c.macros
  {
    UnchangedEditKeepsList(c.macros, k);
  }

  /** `toggleSaveForm`: the form shown or hidden, and in both cases the edit cancelled and the name cleared. */
  function ToggleSaveForm(c: Composer): (r: Composer)
    ensures r.showSaveMacro == !c.showSaveMacro
    ensures r.editingId == None && r.newMacroName == ""
    ensures r.message == c.message && r.mode == c.mode && r.macros == c.macros && r.stored == c.stored
  {
    c.(showSaveMacro := !c.showSaveMacro, editingId := None, newMacroName := "")
  }

  /** `loadMacro`: nothing for the preset being edited; otherwise its type and content go into the composer. */
  function LoadMacro(c: Composer, m: Macro): (r: Composer)
    ensures c.editingId == Some(m.id) ==> r == c
    ensures c.editingId != Some(m.id) ==> r.mode == m.kind && r.message == m.content
    ensures r.macros == c.macros && r.editingId == c.editingId && r.newMacroName == c.newMacroName
    ensures r.showSaveMacro == c.showSaveMacro && r.stored == c.stored
  {
    if c.editingId == Some(m.id) then c else c.(mode := m.kind, message := m.content)
  }

  /** Clicking the preset being edited does not overwrite the message, even after it was changed. */
  lemma LoadEditedIsNoOp(c: Composer, m: Macro, typed: string)
    ensures var e := StartEditMacro(c, m).(message := typed);
            LoadMacro(e, m) == e
  {
  }

  // ---------------------------------------------------------------------
  // Stress test

  /** `n` copies of `x`. */
  function Repeat<T>(x: T, n: nat): (r: seq<T>)
    ensures |r| == n && forall i :: 0 <= i < n ==> r[i] == x
  {
    seq(n, _ => x)
  }

  /**
   * How many sends a count of `x` allows when sending stops once `sent >= x`:
   * the least natural number at least `x`, that is `max(ceil(x), 0)`.
   */
  function Ceil0(x: real): (n: nat)
    ensures x <= n as real
    ensures n > 0 ==> (n - 1) as real < x
  {
    if x <= 0.0 then 0 else if x.Floor as real == x then x.Floor else x.Floor + 1
  }

  /** A count `k` of sends has reached `x` exactly when it has reached `Ceil0(x)`. */
  lemma CeilReached(x: real, k: nat)
    ensures k as real >= x <==> k >= Ceil0(x)
  {
  }

  /**
   * The stress test: started with the message, its type and the count, it
   * sends once per tick of its interval until `sent` reaches the count.
   * `sends` records every call made to the send callback.
   */
  class StressTest {
    var payload: (MessageType, string)
    /** `Number(value)` of the count field, which may have a fractional part. */
    var count: real
    var sent: nat
    var running: bool
    var progress: int
    var sends: seq<(MessageType, string)>

    /** A running test has sent no more than it was asked to. */
    ghost predicate Valid()
      reads this
    {
      running ==> sent <= Ceil0(count)
    }

    constructor ()
      ensures Valid() && !running && progress == 0 && sends == []
    {
      payload, count, sent := (Json, ""), 100.0, 0;
      running, progress, sends := false, 0, [];
    }

    /** `startStressTest`: nothing for a blank message; otherwise running from zero with this message, type and count. */
    method Start(message: string, mode: MessageType, stressCount: real)
      requires Valid() && !running
      modifies this
      ensures Valid()
      ensures IsBlank(message) ==> unchanged(this)
      ensures !IsBlank(message) ==>
                && running && progress == 0 && sent == 0
                && payload == (mode, message) && count == stressCount && sends == old(sends)
    {
      if IsBlank(message) {
        return;
      }
      running, progress := true, 0;
      payload, count, sent := (mode, message), stressCount, 0;
    }

    /** `stopStressTest`: the interval cleared and progress at 100. */
    method Stop()
      modifies this`running, this`progress
      ensures Valid() && !running && progress == 100
    {
      running, progress := false, 100;
    }

    /** One tick of the interval: stop once `sent` has reached the count, otherwise send once more. */
    method Tick()
      requires Valid() && running
      modifies this`running, this`progress, this`sent, this`sends
      ensures Valid()
      ensures old(sent) as real >= count ==> !running && progress == 100 && sent == old(sent) && sends == old(sends)
      ensures old(sent) as real < count ==> running && sent == old(sent) + 1 && sends == old(sends) + [payload]
    {
      if sent as real >= count {
        Stop();
        return;
      }
      sends := sends + [payload];
      sent := sent + 1;
    }

    /**
     * A whole run: started, then ticked until it stops by itself. A
     * non-blank message is sent exactly `max(ceil(stressCount), 0)` times.
     */
    method Blast(message: string, mode: MessageType, stressCount: real)
      requires Valid() && !running
      modifies this
      ensures Valid() && !running
      ensures IsBlank(message) ==> sends == old(sends)
      ensures !IsBlank(message) ==> sends == old(sends) + Repeat((mode, message), Ceil0(stressCount)) && progress == 100
    {
      Start(message, mode, stressCount);
      if !running {
        return;
      }
      while running
        invariant Valid()
        invariant payload == (mode, message) && count == stressCount
        invariant running ==> sends == old(sends) + Repeat(payload, sent)
        invariant !running ==> sends == old(sends) + Repeat(payload, Ceil0(count)) && progress == 100
        decreases if running then Ceil0(count) - sent + 1 else 0
      {
        CeilReached(count, sent);
        Tick();
      }
    }
  }

  // ---------------------------------------------------------------------
  // XML formatting

  /** How the formatter treats one line. */
  datatype LineKind =
    | Inline   // text, then a closing tag at the end: `<a>x</a>`
    | Closing  // starts with a closing tag: `</a>`
    | Opening  // starts with an opening tag that is not self-closing
    | Plain    // anything else

  /** `\w` */
  predicate IsWordChar(c: char)
  {
    'a' <= c <= 'z' || 'A' <= c <= 'Z' || '0' <= c <= '9' || c == '_'
  }

  /** The characters `.` does not match. */
  predicate IsLineTerminator(c: char)
  {
    c == '\n' || c == '\r' || c == '\U{2028}' || c == '\U{2029}'
  }

  /** `<\/\w[^>]*>$` matches `s` from position `i`. */
  predicate ClosingTagFrom(s: string, i: nat)
  {
    && i + 4 <= |s| && s[i] == '<' && s[i + 1] == '/' && IsWordChar(s[i + 2]) && s[|s| - 1] == '>'
    && forall t :: i + 3 <= t < |s| - 1 ==> s[t] != '>'
  }

  /** `/.+<\/\w[^>]*>$/`: a closing tag ends the line, after at least one character on it. */
  predicate EndsWithClosingTag(node: string)
  {
    exists i: nat :: 1 <= i < |node| && ClosingTagFrom(node, i) && !IsLineTerminator(node[i - 1])
  }

  /** `/^<\/\w/` */
  predicate StartsWithClosingTag(node: string)
  {
    |node| >= 3 && node[0] == '<' && node[1] == '/' && IsWordChar(node[2])
  }

  /** `/^<\w[^>]*[^\/]>.*$/` matches with its `[^\/]` at position `k`. */
  predicate OpeningTagUpTo(s: string, k: nat)
  {
    && 2 <= k && k + 2 <= |s| && s[0] == '<' && IsWordChar(s[1])
    && (forall t :: 2 <= t < k ==> s[t] != '>')
    && s[k] != '/' && s[k + 1] == '>'
    && forall t :: k + 2 <= t < |s| ==> !IsLineTerminator(s[t])
  }

  /** `/^<\w[^>]*[^\/]>.*$/` */
  predicate StartsWithOpeningTag(node: string)
  {
    exists k: nat :: k < |node| && OpeningTagUpTo(node, k)
  }

  /**
   * The tests of the formatter's loop, in their order. A closing or opening
   * line starts with `<`, followed by `/` only on a closing line; an inline
   * element has at least five characters and ends with `>`.
   */
  function Classify(node: string): (r: LineKind)
    ensures r == Closing ==> |node| >= 3 && node[0] == '<' && node[1] == '/'
    ensures r == Opening ==> |node| >= 4 && node[0] == '<' && node[1] != '/'
    ensures r == Inline ==> |node| >= 5 && node[|node| - 1] == '>'
  {
    if EndsWithClosingTag(node) then Inline
    else if StartsWithClosingTag(node) then Closing
    else if StartsWithOpeningTag(node) then Opening
    else Plain
  }

  /**
   * The opening-tag test needs two characters between `<` and `>`, so a
   * one-letter tag such as `<a>` does not raise the indent, while `<ab>` does.
   */
  lemma OneLetterTagIsPlain()
    ensures Classify("<a>") == Plain
    ensures Classify("<ab>") == Opening
    ensures Classify("</ab>") == Closing
  {
    assert OpeningTagUpTo("<ab>", 2);
  }

  /** The first `replace` of the formatter: a line break between every `>` and the `<` right after it. */
  function InsertBreaks(s: string): (r: string)
    ensures |s| > 0 ==> |r| > 0 && r[0] == s[0]
    ensures forall i :: 0 <= i < |r| - 1 ==> !(r[i] == '>' && r[i + 1] == '<')
    ensures |r| >= |s|
  {
    if s == [] then []
    else if |s| >= 2 && s[0] == '>' && s[1] == '<' then ">\r\n" + InsertBreaks(s[1..])
    else [s[0]] + InsertBreaks(s[1..])
  }

  /** A text with no `>` directly followed by `<` is left as it is. */
  lemma {:induction false} InsertBreaksIdle(s: string)
    requires forall i :: 0 <= i < |s| - 1 ==> !(s[i] == '>' && s[i + 1] == '<')
    ensures InsertBreaks(s) == s
  {
    if s != [] {
      InsertBreaksIdle(s[1..]);
      assert [s[0]] + s[1..] == s;
    }
  }

  /**
   * Breaking a concatenation is breaking each part, with one more break
   * exactly where the first part ends with `>` and the second starts with
   * `<`. Together with `InsertBreaksIdle` on one character, this fixes the
   * result: CRLF inserted at every `><` pair and every character kept.
   */
  lemma {:induction false} InsertBreaksAppend(a: string, b: string)
    requires a != [] && b != []
    ensures InsertBreaks(a + b) ==
            InsertBreaks(a) + (if a[|a| - 1] == '>' && b[0] == '<' then "\r\n" else "") + InsertBreaks(b)
  {
    assert (a + b)[0] == a[0] && (a + b)[1..] == a[1..] + b;
    if |a| > 1 {
      InsertBreaksAppend(a[1..], b);
      assert (a + b)[1] == a[1];
    }
  }

  /** `split('\r\n')`: the pieces between the line breaks, in order (one piece when there is none). */
  function SplitCrLf(s: string): (r: seq<string>)
    ensures |r| >= 1
    ensures |r[0]| <= |s| && r[0] == s[..|r[0]|]
    ensures forall k, i :: 0 <= k < |r| && 0 <= i < |r[k]| - 1 ==> !(r[k][i] == '\r' && r[k][i + 1] == '\n')
    decreases |s|
  {
    if s == [] then [""]
    else if |s| >= 2 && s[0] == '\r' && s[1] == '\n' then [""] + SplitCrLf(s[2..])
    else
      var rest := SplitCrLf(s[1..]);
      var first := [s[0]] + rest[0];
      assert forall i :: 1 <= i < |first| ==> first[i] == rest[0][i - 1];
      [first] + rest[1..]
  }

  /** `parts.join(sep)` */
  function Join(parts: seq<string>, sep: string): string
    requires |parts| >= 1
  {
    if |parts| == 1 then parts[0] else parts[0] + (sep + Join(parts[1..], sep))
  }

  /** Putting `x` in front of the first piece puts it in front of the joined text. */
  lemma JoinCons(x: string, parts: seq<string>, sep: string)
    requires |parts| >= 1
    ensures Join([x + parts[0]] + parts[1..], sep) == x + Join(parts, sep)
  {
    var r := [x + parts[0]] + parts[1..];
    assert r[1..] == parts[1..];
  }

  /** Joining the pieces with line breaks gives back the text. */
  lemma {:induction false} JoinSplit(s: string)
    ensures Join(SplitCrLf(s), "\r\n") == s
    decreases |s|
  {
    if s == [] {
    } else if |s| >= 2 && s[0] == '\r' && s[1] == '\n' {
      JoinSplit(s[2..]);
      assert ([""] + SplitCrLf(s[2..]))[1..] == SplitCrLf(s[2..]);
      assert s[..2] == "\r\n";
      assert s[..2] + s[2..] == s;
    } else {
      var rest := SplitCrLf(s[1..]);
      JoinSplit(s[1..]);
      JoinCons([s[0]], rest, "\r\n");
      assert [s[0]] + s[1..] == s;
    }
  }

  /** Two spaces per level. */
  function Indent(n: nat): (r: string)
    ensures |r| == 2 * n && forall i :: 0 <= i < |r| ==> r[i] == ' '
  {
    if n == 0 then "" else Indent(n - 1) + "  "
  }

  /** The indent a line is written at: one less for a closing tag, unless already at zero. */
  function LinePad(pad: nat, node: string): nat
  {
    if Classify(node) == Closing && pad != 0 then pad - 1 else pad
  }

  /** The indent after a line: one more after an opening tag. */
  function NextPad(pad: nat, node: string): nat
  {
    LinePad(pad, node) + if Classify(node) == Opening then 1 else 0
  }

  /** The indent of each line, starting at `pad`. */
  function Pads(nodes: seq<string>, pad: nat): (r: seq<nat>)
    ensures |r| == |nodes|
  {
    if nodes == [] then [] else [LinePad(pad, nodes[0])] + Pads(nodes[1..], NextPad(pad, nodes[0]))
  }

  /** Each line at its indent, each followed by a line break. */
  function Render(nodes: seq<string>, ps: seq<nat>): string
    requires |ps| == |nodes|
  {
    if nodes == [] then "" else Indent(ps[0]) + nodes[0] + "\r\n" + Render(nodes[1..], ps[1..])
  }

  /** The formatter's output before trimming, starting at indent `pad`. */
  function Layout(nodes: seq<string>, pad: nat): string
  {
    Render(nodes, Pads(nodes, pad))
  }

  lemma LayoutStep(nodes: seq<string>, pad: nat)
    requires nodes != []
    ensures Layout(nodes, pad) ==
              Indent(LinePad(pad, nodes[0])) + nodes[0] + "\r\n" + Layout(nodes[1..], NextPad(pad, nodes[0]))
  {
    var ps := Pads(nodes, pad);
    assert ps[1..] == Pads(nodes[1..], NextPad(pad, nodes[0]));
  }

  /**
   * How the indent moves from line to line: the first line is never
   * indented; after an opening tag the next line is one deeper, unless it
   * closes that tag, in which case it lines up with it; a closing tag after
   * any other line is one shallower, but never below zero.
   */
  lemma {:induction false} PadsStep(nodes: seq<string>, i: nat)
    requires i + 1 < |nodes|
    ensures Pads(nodes, 0)[0] == 0
    ensures var ps := Pads(nodes, 0);
            && (Classify(nodes[i]) == Opening && Classify(nodes[i + 1]) != Closing ==> ps[i + 1] == ps[i] + 1)
            && (Classify(nodes[i]) == Opening && Classify(nodes[i + 1]) == Closing ==> ps[i + 1] == ps[i])
            && (Classify(nodes[i]) != Opening && Classify(nodes[i + 1]) == Closing ==>
                  ps[i + 1] == if ps[i] == 0 then 0 else ps[i] - 1)
            && (Classify(nodes[i]) != Opening && Classify(nodes[i + 1]) != Closing ==> ps[i + 1] == ps[i])
  {
    PadsNext(nodes, 0, i);
  }

  /** The indent of line `i + 1` follows from that of line `i`. */
  lemma {:induction false} PadsNext(nodes: seq<string>, pad: nat, i: nat)
    requires i + 1 < |nodes|
    ensures var ps := Pads(nodes, pad);
            ps[i + 1] == LinePad(ps[i] + (if Classify(nodes[i]) == Opening then 1 else 0), nodes[i + 1])
  {
    var ps := Pads(nodes, pad);
    var tail := Pads(nodes[1..], NextPad(pad, nodes[0]));
    assert ps[1..] == tail;
    if i > 0 {
      PadsNext(nodes[1..], NextPad(pad, nodes[0]), i - 1);
    }
  }

  /** `padding`: the inner loop that adds two spaces per level. */
  method Padding(n: nat) returns (padding: string)
    ensures padding == Indent(n)
  {
    padding := "";
    var i := 0;
    while i < n
      invariant 0 <= i <= n && padding == Indent(i)
    {
      padding := padding + "  ";
      i := i + 1;
    }
  }

  /** One pass of the formatter's loop: the line for `node` at depth `padAmt`, and the depth after it. */
  method FormatLine(padAmt: nat, node: string) returns (line: string, next: nat)
    ensures line == Indent(LinePad(padAmt, node)) + node + "\r\n"
    ensures next == NextPad(padAmt, node)
  {
    var pad := padAmt;
    var indent := 0;
    var kind := Classify(node);
    if kind == Inline {
      indent := 0;
    } else if kind == Closing {
      if pad != 0 {
        pad := pad - 1;
      }
    } else if kind == Opening {
      indent := 1;
    } else {
      indent := 0;
    }
    var padding := Padding(pad);
    line := padding + node + "\r\n";
    next := pad + indent;
  }

  /** The formatter's loop over the lines: each one written at its depth, followed by a line break. */
  method LayoutLines(nodes: seq<string>) returns (result: string)
    ensures result == Layout(nodes, 0)
  {
    var padAmt: nat := 0;
    result := "";
    var i := 0;
    assert nodes[0..] == nodes;
    while i < |nodes|
      invariant 0 <= i <= |nodes|
      invariant result + Layout(nodes[i..], padAmt) == Layout(nodes, 0)
    {
      var line, next := FormatLine(padAmt, nodes[i]);
      ghost var later := Layout(nodes[i + 1..], next);
      assert Layout(nodes[i..], padAmt) == line + later by {
        LayoutStep(nodes[i..], padAmt);
        assert nodes[i..][1..] == nodes[i + 1..];
      }
      assert (result + line) + later == result + (line + later);
      result := result + line;
      padAmt := next;
      i := i + 1;
    }
  }

  /**
   * The XML branch of `handleFormat`: nothing for a blank message; otherwise
   * a line break between adjacent tags, each line indented by its depth,
   * and the whole trimmed. The depth never goes below zero.
   */
  method FormatXml(message: string) returns (formatted: string)
    ensures IsBlank(message) ==> formatted == message
    ensures !IsBlank(message) ==> formatted == Trim(Layout(SplitCrLf(InsertBreaks(message)), 0))
  {
    if IsBlank(message) {
      return message;
    }
    var result := LayoutLines(SplitCrLf(InsertBreaks(message)));
    formatted := Trim(result);
  }
}
