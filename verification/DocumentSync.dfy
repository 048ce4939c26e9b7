/**
 Keeping a language server's copy of the open documents in step with the editor's
 (apps/desktop/src/lsp-document-sync.ts). A timer is armed or not; when it fires is
 left open.
 */
module DocumentSync {
  import opened Basics

  datatype Doc = Doc(version: nat, lastSentText: string, pendingText: Option<string>, timer: bool)

  type Docs = map<string, Doc>

  /** What reaches the server. */
  datatype Message =
    | DidOpen(path: string, text: string)
    | DidChange(path: string, text: string, version: nat)
    | DidClose(path: string)

  // ---- The operations

  function Opened(docs: Docs, path: string, text: string): Docs { docs[path := Doc(1, text, None, false)] }

  function Changed(docs: Docs, path: string, text: string): Docs {
    if path !in docs || (text == docs[path].lastSentText && docs[path].pendingText.None?) then docs
    else docs[path := docs[path].(pendingText := Some(text), timer := true)]
  }

  /** The documents after a flush, and the message sent, if any. */
  function Flushed(docs: Docs, path: string): (Docs, Option<Message>) {
    if path !in docs then (docs, None)
    else
      var doc := docs[path].(timer := false, pendingText := None);
      var pending := docs[path].pendingText;
      if pending.None? || pending.value == doc.lastSentText then (docs[path := doc], None)
      else
        (docs[path := doc.(version := doc.version + 1, lastSentText := pending.value)],
         Some(DidChange(path, pending.value, doc.version + 1)))
  }

  function ClearTimer(doc: Doc): Doc { doc.(timer := false) }

  class DocumentSyncTracker {
    var docs: map<string, Doc>

    constructor ()
      ensures docs == map[]
    {
      docs := map[];
    }

    method Open(path: string, text: string) returns (version: nat)
      modifies this
      ensures docs == Opened(old(docs), path, text) && version == docs[path].version
    {
      docs := docs[path := Doc(1, text, None, false)];
      version := 1;
    }

    method Change(path: string, text: string)
      modifies this
      ensures docs == Changed(old(docs), path, text)
    {
      if path !in docs { return; }
      var doc := docs[path];
      if text == doc.lastSentText && doc.pendingText.None? { return; }
      doc := doc.(pendingText := Some(text));
      doc := doc.(timer := true);
      docs := docs[path := doc];
    }

    method Flush(path: string) returns (sent: Option<Message>)
      modifies this
      ensures (docs, sent) == Flushed(old(docs), path)
    {
      if path !in docs { return None; }
      var doc := ClearTimer(docs[path]);
      if doc.pendingText.None? || doc.pendingText.value == doc.lastSentText {
        docs := docs[path := doc.(pendingText := None)];
        return None;
      }
      doc := doc.(version := doc.version + 1);
      doc := doc.(lastSentText := doc.pendingText.value);
      doc := doc.(pendingText := None);
      docs := docs[path := doc];
      sent := Some(DidChange(path, doc.lastSentText, doc.version));
    }

    method Close(path: string)
      modifies this
      ensures docs == old(docs) - {path}
    {
      docs := docs - {path};
    }

    method Reset()
      modifies this
      ensures docs == map[]
    {
      docs := map[];
    }
  }

  // ---- The server

  datatype Copy = Copy(text: string, version: nat)

  /** The server's documents after these messages. */
  function Served(messages: seq<Message>): map<string, Copy> {
    if messages == [] then map[]
    else
      var copies := Served(messages[..|messages| - 1]);
      match messages[|messages| - 1]
      case DidOpen(path, text) => copies[path := Copy(text, 1)]
      case DidChange(path, text, version) => copies[path := Copy(text, version)]
      case DidClose(path) => copies - {path}
  }

  /** A change is of an open document, numbered one over its last, and a change it is. */
  ghost predicate Fits(copies: map<string, Copy>, m: Message) {
    m.DidChange? ==> m.path in copies && m.version == copies[m.path].version + 1 && m.text != copies[m.path].text
  }

  /** Every message fits what the server held before it. */
  ghost predicate InStep(messages: seq<Message>) {
    forall i | 0 <= i < |messages| :: Fits(Served(messages[..i]), messages[i])
  }

  // ---- Every history of the tracker

  datatype Action =
    | Open(path: string, text: string)
    | Type(path: string, text: string)
    | Flush(path: string)
    | Fire(path: string)
    | Close(path: string)
    | Reset

  /** `editor` holds the newest text of each open document. */
  datatype World = World(docs: Docs, messages: seq<Message>, editor: map<string, string>)

  predicate Can(w: World, a: Action) { a.Fire? ==> a.path in w.docs && w.docs[a.path].timer }

  function AfterFlush(w: World, path: string): World {
    var (docs, sent) := Flushed(w.docs, path);
    World(docs, if sent.None? then w.messages else w.messages + [sent.value], w.editor)
  }

  function Step(w: World, a: Action): World {
    match a
    case Open(path, text) =>
      World(Opened(w.docs, path, text), w.messages + [DidOpen(path, text)], w.editor[path := text])
    case Type(path, text) =>
      World(Changed(w.docs, path, text), w.messages, if path in w.editor then w.editor[path := text] else w.editor)
    case Flush(path) => AfterFlush(w, path)
    case Fire(path) => AfterFlush(w, path)
    case Close(path) => World(w.docs - {path}, w.messages + [DidClose(path)], w.editor - {path})
    case Reset => World(map[], w.messages, map[])
  }

  ghost predicate MirrorsAt(doc: Doc, copy: Copy, text: string) {
    && copy == Copy(doc.lastSentText, doc.version) && doc.version > 0
    && (doc.timer <==> doc.pendingText.Some?)
    && text == if doc.pendingText.Some? then doc.pendingText.value else doc.lastSentText
  }

  /** The server's copies are what the tracker thinks they are, and the tracker knows
      what each still lacks. After a reset the server may hold more. */
  ghost predicate Mirrors(w: World, copies: map<string, Copy>) {
    && w.docs.Keys == w.editor.Keys && w.docs.Keys <= copies.Keys
    && forall path | path in w.docs :: MirrorsAt(w.docs[path], copies[path], w.editor[path])
  }

  ghost predicate Inv(w: World) { InStep(w.messages) && Mirrors(w, Served(w.messages)) }

  lemma ServedOn(messages: seq<Message>, m: Message)
    requires InStep(messages) && Fits(Served(messages), m)
    ensures InStep(messages + [m])
    ensures (messages + [m])[..|messages|] == messages
  {
    var more := messages + [m];
    forall i | 0 <= i < |more| ensures Fits(Served(more[..i]), more[i]) {
      if i < |messages| { assert more[..i] == messages[..i]; } else { assert more[..i] == messages; }
    }
  }

  lemma FlushKeeps(w: World, path: string)
    requires Inv(w)
    ensures Inv(AfterFlush(w, path))
    ensures path in w.docs ==> path in Served(AfterFlush(w, path).messages)
                               && Served(AfterFlush(w, path).messages)[path].text == w.editor[path]
  {
    var (docs, sent) := Flushed(w.docs, path);
    if sent.Some? { ServedOn(w.messages, sent.value); }
  }

  lemma ServedOpen(messages: seq<Message>, path: string, text: string)
    ensures Served(messages + [DidOpen(path, text)]) == Served(messages)[path := Copy(text, 1)]
  {
    assert (messages + [DidOpen(path, text)])[..|messages|] == messages;
  }

  lemma MirrorsOne(doc: Doc, text: string)
    requires doc == Doc(1, text, None, false)
    ensures MirrorsAt(doc, Copy(text, 1), text)
  {}

  lemma MirrorsWith(w: World, copies: map<string, Copy>, path: string, text: string)
    requires Mirrors(w, copies)
    ensures Mirrors(
              World(Opened(w.docs, path, text), w.messages, w.editor[path := text]), copies[path := Copy(text, 1)])
  {
    hide MirrorsAt;
    var docs := Opened(w.docs, path, text);
    MirrorsOne(Doc(1, text, None, false), text);
    assert docs.Keys == w.docs.Keys + {path} && w.editor[path := text].Keys == w.editor.Keys + {path};
  }

  lemma OpenKeeps(w: World, path: string, text: string)
    requires Inv(w)
    ensures Inv(Step(w, Open(path, text)))
  {
    ServedOn(w.messages, DidOpen(path, text));
    ServedOpen(w.messages, path, text);
    hide InStep, Served;
    MirrorsWith(w, Served(w.messages), path, text);
  }

  lemma TypeKeeps(w: World, path: string, text: string)
    requires Inv(w)
    ensures Inv(Step(w, Type(path, text)))
  {
    hide InStep, Served;
  }

  lemma MirrorsWithout(w: World, copies: map<string, Copy>, path: string, w': World)
    requires Mirrors(w, copies) && w'.docs == w.docs - {path} && w'.editor == w.editor - {path}
    ensures Mirrors(w', copies - {path})
  {
    hide MirrorsAt;
    assert w'.docs.Keys == w.docs.Keys - {path} && w'.editor.Keys == w.editor.Keys - {path};
  }

  lemma ServedClose(messages: seq<Message>, path: string)
    ensures Served(messages + [DidClose(path)]) == Served(messages) - {path}
  {
    assert (messages + [DidClose(path)])[..|messages|] == messages;
  }

  lemma CloseKeeps(w: World, path: string)
    requires Inv(w)
    ensures Inv(Step(w, Close(path)))
  {
    ServedOn(w.messages, DidClose(path));
    ServedClose(w.messages, path);
    hide InStep, Served, Fits;
    MirrorsWithout(w, Served(w.messages), path, Step(w, Close(path)));
  }

  lemma ResetKeeps(w: World)
    requires Inv(w)
    ensures Inv(Step(w, Reset))
  {}

  lemma StepKeeps(w: World, a: Action)
    requires Inv(w) && Can(w, a)
    ensures Inv(Step(w, a))
  {
    hide Inv;
    match a
    case Open(path, text) => OpenKeeps(w, path, text);
    case Type(path, text) => TypeKeeps(w, path, text);
    case Flush(path) => FlushKeeps(w, path);
    case Fire(path) => FlushKeeps(w, path);
    case Close(path) => CloseKeeps(w, path);
    case Reset => ResetKeeps(w);
  }

  ghost predicate Moves(w: World, a: Action, w': World) { Can(w, a) && w' == Step(w, a) }

  ghost predicate IsRun(run: seq<World>, actions: seq<Action>) {
    && |run| == |actions| + 1 && run[0] == World(map[], [], map[])
    && forall i | 0 <= i < |actions| :: Moves(run[i], actions[i], run[i + 1])
  }

  lemma StartsMirrored()
    ensures Inv(World(map[], [], map[]))
  {}

  /** In every run the server's copies are in step: opens at version 1, then each
      change one up and no change the text it already had; for each tracked path it
      holds what was last sent; and what it lacks is pending, with a timer to send it. */
  lemma {:induction false} ServerIsMirrored(run: seq<World>, actions: seq<Action>, i: nat)
    requires IsRun(run, actions) && i <= |actions|
    ensures InStep(run[i].messages) && Mirrors(run[i], Served(run[i].messages))
  {
    StartsMirrored();
    hide InStep, Mirrors, Served, Step;
    if i > 0 {
      ServerIsMirrored(run, actions, i - 1);
      assert Moves(run[i - 1], actions[i - 1], run[i - 1 + 1]);
      StepKeeps(run[i - 1], actions[i - 1]);
    }
  }

  /** The server holds the editor's text of a tracked document just when nothing is
      pending for it, or what is pending undoes the edits since the last send. With no
      timer armed nothing is pending. */
  lemma SyncedIff(run: seq<World>, actions: seq<Action>, i: nat, path: string)
    requires IsRun(run, actions) && i <= |actions| && path in run[i].docs
    ensures path in Served(run[i].messages) && path in run[i].editor
    ensures var doc := run[i].docs[path];
            && (Served(run[i].messages)[path].text == run[i].editor[path]
                <==> doc.pendingText.None? || doc.pendingText.value == doc.lastSentText)
            && (doc.timer <==> doc.pendingText.Some?)
  {
    ServerIsMirrored(run, actions, i);
  }

  /** A flush brings the server to the editor's text at once, and a second adds nothing. */
  lemma FlushSyncs(run: seq<World>, actions: seq<Action>, i: nat, path: string)
    requires IsRun(run, actions) && i <= |actions| && path in run[i].docs
    ensures var w := AfterFlush(run[i], path);
            && path in Served(w.messages) && path in w.editor
            && Served(w.messages)[path].text == w.editor[path]
            && AfterFlush(w, path) == w
  {
    ServerIsMirrored(run, actions, i);
    FlushKeeps(run[i], path);
  }
}
