/**
 The session logic of the collaborative editor page.

 The page (`EditorPage`) and the embedded editor (`Editor`) together hold the
 state of one participant's membership in a room: the page's last known text
 (`codeRef`), the editor's own copy of the text (the CodeMirror value), the
 echo-suppression flag `isSyncing`, the `hasInitialized` guard, the socket
 reference, which listeners are registered on that socket, and the roster.

 The module has two layers. `State` and the `After…` functions describe each
 event handler as a function from the state before to the state after; the
 lemmas state what the handlers promise. The `Session` class holds the same
 state in mutable fields, and its methods are the handlers written as the
 source writes them (setting the flag, calling `setValue`, which fires the
 change handler synchronously, clearing the flag), each proved to produce
 the state its `After…` function gives.

 Everything the page sends on its socket is appended to `outbox`.
 */
module Session {
  import opened Roster

  datatype Option<T> = None | Some(value: T)

  /** Messages the page and the editor send on the socket. */
  datatype Outbound =
    | JoinMsg(roomId: string, username: string)
    | CodeChangeMsg(roomId: string, code: string)
    | SyncCodeMsg(code: string, socketId: string)

  /** Messages the server delivers to the listeners registered on the socket. */
  datatype Inbound =
    | Joined(clients: seq<Client>, username: string, socketId: string)
    | CodeChanged(code: string)
    | Disconnected(socketId: string, username: string)

  /** How a call of `init` ends. */
  datatype InitOutcome =
    | Redirected          // no username: the page sends the user home
    | AlreadyInitialized  // a second call returns at the guard
    | ConnectFailed       // the socket could not be created
    | Connected           // socket created, JOIN sent, listeners registered

  /**
   One participant's session.
   - `codeRef`: the page's last known text.
   - `pageText`: what `setEditorContent` last wrote into the `.editor` element.
   - `editorValue`: the CodeMirror editor's value.
   - `isSyncing`: true only while the editor applies a remote update.
   - `initialized`: the `hasInitialized` guard.
   - `hasSocket`: `socketRef.current` is set; `connected`: not yet disconnected.
   - `pageListening`: the page's JOINED, CODE_CHANGE and DISCONNECTED listeners are registered.
   - `editorListening`: the editor's own CODE_CHANGE listener is registered.
   */
  datatype State = State(
    roomId: string,
    codeRef: string,
    pageText: string,
    editorValue: string,
    isSyncing: bool,
    initialized: bool,
    hasSocket: bool,
    connected: bool,
    pageListening: bool,
    editorListening: bool,
    clients: seq<Client>,
    outbox: seq<Outbound>)

  /** What holds between handlers. */
  predicate Inv(s: State)
  {
    && !s.isSyncing
    && (s.hasSocket ==> s.initialized)
    && (s.connected ==> s.hasSocket)
    && (s.pageListening ==> s.connected)
    && (s.editorListening ==> s.hasSocket)
    && UniqueIds(s.clients)
  }

  /** The state when the page mounts: empty text, no socket, no clients, nothing sent. */
  function Mounted(roomId: string): State
  {
    State(roomId, "", "", "", false, false, false, false, false, false, [], [])
  }

  /** `location.state?.username` is truthy: present and not the empty string. */
  predicate HasUsername(username: Option<string>)
  {
    username.Some? && username.value != ""
  }

  // ---------------------------------------------------------------------------
  // The handlers as functions of the state
  // ---------------------------------------------------------------------------

  function InitOutcomeOf(s: State, username: Option<string>, connectOk: bool): InitOutcome
  {
    if !HasUsername(username) then Redirected
    else if s.initialized then AlreadyInitialized
    else if !connectOk then ConnectFailed
    else Connected
  }

  /** `init`: the username guard, the `hasInitialized` guard, then connect, JOIN and listen. */
  function AfterInit(s: State, username: Option<string>, connectOk: bool): State
  {
    match InitOutcomeOf(s, username, connectOk)
    case Redirected => s
    case AlreadyInitialized => s
    case ConnectFailed => s.(initialized := true)
    case Connected =>
      s.(initialized := true, hasSocket := true, connected := true, pageListening := true,
         outbox := s.outbox + [JoinMsg(s.roomId, username.value)])
  }

  /**
   The page's `handleCodeChange`: `codeRef` takes the code, then the page emits
   CODE_CHANGE through `socketRef.current`; without a socket that emit throws.
   */
  function AfterHandleCodeChange(s: State, code: string): State
  {
    if s.hasSocket then s.(codeRef := code, outbox := s.outbox + [CodeChangeMsg(s.roomId, code)])
    else s.(codeRef := code)
  }

  /**
   The editor's `change` listener: unless `isSyncing`, pass the editor's value to the
   page's `handleCodeChange`, then emit CODE_CHANGE itself when there is a socket.
   */
  function AfterChange(s: State): State
  {
    if s.isSyncing then s
    else if !s.hasSocket then AfterHandleCodeChange(s, s.editorValue)
    else
      var t := AfterHandleCodeChange(s, s.editorValue);
      t.(outbox := t.outbox + [CodeChangeMsg(s.roomId, s.editorValue)])
  }

  /** CodeMirror's `setValue` (and equally a user's edit): the value changes, then `change` fires. */
  function AfterSetValue(s: State, code: string): State
  {
    AfterChange(s.(editorValue := code))
  }

  /** The editor's CODE_CHANGE listener: apply a differing code with the change handler silenced. */
  function AfterEditorCodeChange(s: State, code: string): State
  {
    if code == s.editorValue then s else s.(editorValue := code)
  }

  /** The page's CODE_CHANGE listener: take a differing code into `codeRef` and the `.editor` element. */
  function AfterPageCodeChange(s: State, code: string): State
  {
    if code == s.codeRef then s else s.(codeRef := code, pageText := code)
  }

  /** The page's JOINED listener: merge the roster, then send SYNC_CODE for the joined socket. */
  function AfterJoined(s: State, clients: seq<Client>, socketId: string): State
  {
    s.(clients := MergeClients(s.clients, clients),
       outbox := s.outbox + [SyncCodeMsg(s.codeRef, socketId)])
  }

  /** The page's DISCONNECTED listener: drop the departed socket from the roster. */
  function AfterDisconnected(s: State, socketId: string): State
  {
    s.(clients := RemoveClient(s.clients, socketId))
  }

  /** The editor's second effect: it registers its CODE_CHANGE listener only if a socket exists. */
  function AfterEditorSubscribe(s: State): State
  {
    if s.hasSocket then s.(editorListening := true) else s
  }

  /**
   The page's effect cleanup: with a socket, disconnect and remove the JOINED,
   CODE_CHANGE and DISCONNECTED listeners. Removing every CODE_CHANGE listener
   removes the editor's as well.
   */
  function AfterCleanup(s: State): State
  {
    if s.hasSocket then s.(connected := false, pageListening := false, editorListening := false)
    else s
  }

  /**
   Delivery of one inbound message to whichever listeners are registered. A socket
   that has been disconnected delivers nothing; the page never reconnects it.
   */
  function AfterReceive(s: State, ev: Inbound): State
  {
    if !s.connected then s
    else match ev
    case Joined(clients, _, socketId) =>
      if s.pageListening then AfterJoined(s, clients, socketId) else s
    case CodeChanged(code) =>
      var t := if s.pageListening then AfterPageCodeChange(s, code) else s;
      if t.editorListening then AfterEditorCodeChange(t, code) else t
    case Disconnected(socketId, _) =>
      if s.pageListening then AfterDisconnected(s, socketId) else s
  }

  // ---------------------------------------------------------------------------
  // What the handlers promise
  // ---------------------------------------------------------------------------

  /** Without a username, `init` changes nothing: no socket, no JOIN, the guard stays unset. */
  lemma InitWithoutUsername(s: State, username: Option<string>, connectOk: bool)
    requires !HasUsername(username)
    ensures InitOutcomeOf(s, username, connectOk) == Redirected
    ensures AfterInit(s, username, connectOk) == s
  {
  }

  /** Once `init` has passed the username guard, every later `init` changes nothing. */
  lemma InitAtMostOnce(s: State, username: Option<string>, connectOk: bool,
                       username': Option<string>, connectOk': bool)
    requires HasUsername(username)
    ensures var t := AfterInit(s, username, connectOk);
            AfterInit(t, username', connectOk') == t &&
            InitOutcomeOf(t, username', connectOk') != Connected
  {
  }

  /** `init` sends exactly one JOIN with the room and the username when it connects, and nothing otherwise. */
  lemma InitSendsOneJoin(s: State, username: Option<string>, connectOk: bool)
    ensures var t := AfterInit(s, username, connectOk);
            t.outbox == s.outbox + (if InitOutcomeOf(s, username, connectOk) == Connected
                                    then [JoinMsg(s.roomId, username.value)] else [])
    ensures InitOutcomeOf(s, username, connectOk) != Connected ==>
              AfterInit(s, username, connectOk).hasSocket == s.hasSocket &&
              AfterInit(s, username, connectOk).pageListening == s.pageListening
  {
  }

  /** A local edit sets `codeRef` and sends one CODE_CHANGE with the room and the code. */
  lemma HandleCodeChangeSendsOne(s: State, code: string)
    requires s.hasSocket
    ensures AfterHandleCodeChange(s, code).codeRef == code
    ensures AfterHandleCodeChange(s, code).outbox == s.outbox + [CodeChangeMsg(s.roomId, code)]
  {
  }

  /**
   A user's edit outside a sync window with a socket present reaches the page and
   is sent twice: once by the page's `handleCodeChange`, once by the editor.
   */
  lemma LocalEditSendsTwice(s: State, code: string)
    requires !s.isSyncing && s.hasSocket
    ensures var t := AfterSetValue(s, code);
            t.editorValue == code && t.codeRef == code &&
            t.outbox == s.outbox + [CodeChangeMsg(s.roomId, code), CodeChangeMsg(s.roomId, code)]
  {
  }

  /** Without a socket, a user's edit still reaches `codeRef` but nothing is sent. */
  lemma LocalEditWithoutSocket(s: State, code: string)
    requires !s.isSyncing && !s.hasSocket
    ensures AfterSetValue(s, code).codeRef == code
    ensures AfterSetValue(s, code).outbox == s.outbox
  {
  }

  /** A change fired while `isSyncing` is set neither reaches the page nor sends anything. */
  lemma ChangeWhileSyncingIsSilent(s: State, code: string)
    requires s.isSyncing
    ensures AfterSetValue(s, code) == s.(editorValue := code)
  {
  }

  /** Applying the same remote code twice leaves the state of applying it once, for each listener. */
  lemma CodeChangeIdempotent(s: State, code: string)
    ensures AfterPageCodeChange(AfterPageCodeChange(s, code), code) == AfterPageCodeChange(s, code)
    ensures AfterEditorCodeChange(AfterEditorCodeChange(s, code), code) == AfterEditorCodeChange(s, code)
    ensures AfterReceive(AfterReceive(s, CodeChanged(code)), CodeChanged(code))
            == AfterReceive(s, CodeChanged(code))
  {
  }

  /**
   Loop freedom: an inbound CODE_CHANGE never sends anything, and leaves every
   listening copy of the text equal to the received code.
   */
  lemma CodeChangeSendsNothing(s: State, code: string)
    ensures AfterReceive(s, CodeChanged(code)).outbox == s.outbox
    ensures s.connected && s.pageListening ==> AfterReceive(s, CodeChanged(code)).codeRef == code
    ensures s.connected && s.editorListening ==> AfterReceive(s, CodeChanged(code)).editorValue == code
    ensures !(s.connected && s.pageListening) ==> AfterReceive(s, CodeChanged(code)).codeRef == s.codeRef
    ensures !(s.connected && s.editorListening) ==>
              AfterReceive(s, CodeChanged(code)).editorValue == s.editorValue
  {
  }

  /** Each JOINED event sends SYNC_CODE with the current `codeRef` to the joined socket id, whoever it is. */
  lemma JoinedSendsSync(s: State, clients: seq<Client>, username: string, socketId: string)
    requires s.connected && s.pageListening
    ensures AfterReceive(s, Joined(clients, username, socketId)).outbox
            == s.outbox + [SyncCodeMsg(s.codeRef, socketId)]
    ensures AfterReceive(s, Joined(clients, username, socketId)).clients
            == MergeClients(s.clients, clients)
  {
  }

  /** Every inbound message keeps the invariant, in particular a roster without repeated ids. */
  lemma ReceiveKeepsInv(s: State, ev: Inbound)
    requires Inv(s)
    ensures Inv(AfterReceive(s, ev))
  {
    if ev.Disconnected? && s.pageListening {
      RemoveClientUnique(s.clients, ev.socketId);
    }
  }

  /** `init`, a user's edit, the editor's subscription and the cleanup keep the invariant too. */
  lemma StepsKeepInv(s: State, username: Option<string>, connectOk: bool, code: string)
    requires Inv(s)
    ensures Inv(AfterInit(s, username, connectOk))
    ensures Inv(AfterSetValue(s, code))
    ensures Inv(AfterEditorSubscribe(s))
    ensures Inv(AfterCleanup(s))
  {
  }

  /**
   After the cleanup no inbound message has any effect, even once the editor's
   effect has registered its listener again on the disconnected socket; a second
   cleanup changes nothing.
   */
  lemma CleanupSilencesListeners(s: State, ev: Inbound)
    requires Inv(s)
    ensures AfterReceive(AfterCleanup(s), ev) == AfterCleanup(s)
    ensures AfterReceive(AfterEditorSubscribe(AfterCleanup(s)), ev) == AfterEditorSubscribe(AfterCleanup(s))
    ensures AfterCleanup(AfterCleanup(s)) == AfterCleanup(s)
  {
  }

  /** The cleanup keeps `hasInitialized` set, so a later `init` does not reconnect. */
  lemma NoInitAfterCleanup(s: State, username: Option<string>, connectOk: bool)
    requires s.initialized
    ensures AfterInit(AfterCleanup(s), username, connectOk) == AfterCleanup(s)
  {
  }

  /**
   A newcomer whose page listens but whose editor does not, receiving the same code
   from two incumbents: the first delivery takes it into `codeRef` and the `.editor`
   element, the second changes nothing, and the CodeMirror value is left as it was.
   */
  lemma SyncReachesPageOnly(s: State, code: string)
    requires s.connected && s.pageListening && !s.editorListening
    ensures var once := AfterReceive(s, CodeChanged(code));
            AfterReceive(once, CodeChanged(code)) == once &&
            once.codeRef == code && once.editorValue == s.editorValue &&
            once.pageText == (if code == s.codeRef then s.pageText else code) &&
            once.outbox == s.outbox
  {
  }

  // ---------------------------------------------------------------------------
  // The page's life: mount, then edits, messages and re-runs of the effects
  // ---------------------------------------------------------------------------

  /**
   What can happen to a mounted page: the user edits, the server delivers a message,
   or the route changes and React re-runs the effects. The page's effect depends on
   the room and the username; the editor's listener effect depends on the room only.
   */
  datatype Step =
    | Edit(code: string)
    | Deliver(msg: Inbound)
    | Rerun(roomId: string, username: Option<string>, connectOk: bool)

  /**
   The mount: React runs the child's effects before the parent's, so the editor's
   listener effect looks at the socket before `init` has created one.
   */
  function AfterMount(roomId: string, username: Option<string>, connectOk: bool): State
  {
    AfterInit(AfterEditorSubscribe(Mounted(roomId)), username, connectOk)
  }

  /** A re-run: the page's cleanup, then the effects for the new route, child first. */
  function AfterRerun(s: State, roomId: string, username: Option<string>, connectOk: bool): State
  {
    var c := AfterCleanup(s);
    var e := if roomId != s.roomId then AfterEditorSubscribe(c.(roomId := roomId)) else c;
    AfterInit(e, username, connectOk)
  }

  function AfterStep(s: State, step: Step): State
  {
    match step
    case Edit(code) => AfterSetValue(s, code)
    case Deliver(msg) => AfterReceive(s, msg)
    case Rerun(roomId, username, connectOk) => AfterRerun(s, roomId, username, connectOk)
  }

  function Run(s: State, steps: seq<Step>): State
    decreases |steps|
  {
    if steps == [] then s else Run(AfterStep(s, steps[0]), steps[1..])
  }

  /** The editor's listener is never registered on a connected socket. */
  predicate EditorDeaf(s: State)
  {
    s.editorListening ==> !s.connected
  }

  /** The mount ends with the page listening when `init` connects, and the editor not listening. */
  lemma MountLeavesEditorDeaf(roomId: string, username: Option<string>, connectOk: bool)
    ensures var s := AfterMount(roomId, username, connectOk);
            Inv(s) && !s.editorListening &&
            s.pageListening == (InitOutcomeOf(Mounted(roomId), username, connectOk) == Connected)
  {
  }

  /** One step of the page's life keeps the invariant and leaves the editor's listener deaf. */
  lemma StepKeepsEditorDeaf(s: State, step: Step)
    requires Inv(s) && EditorDeaf(s)
    ensures Inv(AfterStep(s, step)) && EditorDeaf(AfterStep(s, step))
  {
    match step
    case Edit(code) =>
      StepsKeepInv(s, None, false, code);
    case Deliver(msg) =>
      ReceiveKeepsInv(s, msg);
    case Rerun(roomId, username, connectOk) =>
      var c := AfterCleanup(s);
      StepsKeepInv(s, None, false, "");
      var e := if roomId != s.roomId then AfterEditorSubscribe(c.(roomId := roomId)) else c;
      StepsKeepInv(c.(roomId := roomId), None, false, "");
      assert Inv(e) && !e.connected && (e.editorListening ==> e.initialized);
      StepsKeepInv(e, username, connectOk, "");
  }

  /** Every sequence of steps keeps the invariant and leaves the editor's listener deaf. */
  lemma {:induction false} RunKeepsEditorDeaf(s: State, steps: seq<Step>)
    requires Inv(s) && EditorDeaf(s)
    ensures Inv(Run(s, steps)) && EditorDeaf(Run(s, steps))
    decreases |steps|
  {
    if steps != [] {
      StepKeepsEditorDeaf(s, steps[0]);
      RunKeepsEditorDeaf(AfterStep(s, steps[0]), steps[1..]);
    }
  }

  /**
   Whatever happens after the mount, a code from the server never reaches the
   CodeMirror value: the page's listener takes it, the editor's never hears it.
   */
  lemma RemoteCodeNeverReachesEditor(roomId: string, username: Option<string>, connectOk: bool,
                                     steps: seq<Step>, code: string)
    ensures var s := Run(AfterMount(roomId, username, connectOk), steps);
            AfterReceive(s, CodeChanged(code)).editorValue == s.editorValue
  {
    MountLeavesEditorDeaf(roomId, username, connectOk);
    RunKeepsEditorDeaf(AfterMount(roomId, username, connectOk), steps);
  }

  /** A disconnected page that has run `init` stays disconnected whatever happens next. */
  lemma {:induction false} StaysDisconnected(s: State, steps: seq<Step>)
    requires s.initialized && !s.connected
    ensures Run(s, steps).initialized && !Run(s, steps).connected
    decreases |steps|
  {
    if steps != [] {
      var t := AfterStep(s, steps[0]);
      assert t.initialized && !t.connected;
      StaysDisconnected(t, steps[1..]);
    }
  }

  /**
   After the cleanup of a page that has run `init`, no message is ever delivered
   again: not after further edits, and not after re-runs of the effects.
   */
  lemma NothingArrivesAfterCleanup(s: State, steps: seq<Step>, ev: Inbound)
    requires Inv(s) && s.initialized
    ensures var t := Run(AfterCleanup(s), steps);
            !t.connected && AfterReceive(t, ev) == t
  {
    StaysDisconnected(AfterCleanup(s), steps);
  }

  // ---------------------------------------------------------------------------
  // The handlers as the source writes them
  // ---------------------------------------------------------------------------

  class Session {
    const roomId: string
    var codeRef: string
    var pageText: string
    var editorValue: string
    var isSyncing: bool
    var initialized: bool
    var hasSocket: bool
    var connected: bool
    var pageListening: bool
    var editorListening: bool
    var clients: seq<Client>
    var outbox: seq<Outbound>

    function Snapshot(): State
      reads this
    {
      State(roomId, codeRef, pageText, editorValue, isSyncing, initialized, hasSocket,
            connected, pageListening, editorListening, clients, outbox)
    }

    predicate Valid()
      reads this
    {
      Inv(Snapshot())
    }

    /** The page mounts for a room. */
    constructor (roomId: string)
      ensures Valid()
      ensures Snapshot() == Mounted(roomId)
    {
      this.roomId := roomId;
      codeRef, pageText, editorValue := "", "", "";
      isSyncing, initialized := false, false;
      hasSocket, connected, pageListening, editorListening := false, false, false, false;
      clients, outbox := [], [];
    }

    /** `socketRef.current.emit(…)`: the message is appended to what has been sent. */
    method Emit(msg: Outbound)
      modifies this
      ensures Snapshot() == old(Snapshot()).(outbox := old(outbox) + [msg])
    {
      outbox := outbox + [msg];
    }

    /** `init`; `connectOk` stands for whether `initSocket()` resolved. */
    method Init(username: Option<string>, connectOk: bool) returns (outcome: InitOutcome)
      requires Valid()
      modifies this
      ensures Valid()
      ensures outcome == InitOutcomeOf(old(Snapshot()), username, connectOk)
      ensures Snapshot() == AfterInit(old(Snapshot()), username, connectOk)
    {
      if !HasUsername(username) {
        return Redirected;
      }
      if initialized {
        return AlreadyInitialized;
      }
      initialized := true;
      if !connectOk {
        return ConnectFailed;
      }
      hasSocket, connected := true, true;
      Emit(JoinMsg(roomId, username.value));
      pageListening := true;
      outcome := Connected;
    }

    /** The page's `handleCodeChange`; `ok` is false when the emit throws for want of a socket. */
    method HandleCodeChange(code: string) returns (ok: bool)
      modifies this
      ensures ok == old(hasSocket)
      ensures Snapshot() == AfterHandleCodeChange(old(Snapshot()), code)
    {
      codeRef := code;
      if !hasSocket {
        return false;
      }
      Emit(CodeChangeMsg(roomId, code));
      ok := true;
    }

    /** The editor's `change` listener; `ok` is false when `onCodeChange` threw. */
    method EditorOnChange() returns (ok: bool)
      modifies this
      ensures ok == (old(isSyncing) || old(hasSocket))
      ensures Snapshot() == AfterChange(old(Snapshot()))
    {
      var code := editorValue;
      ok := true;
      if !isSyncing {
        ok := HandleCodeChange(code);
        if !ok {
          return;
        }
        if hasSocket {
          Emit(CodeChangeMsg(roomId, code));
        }
      }
    }

    /** CodeMirror's `setValue`, and a user's edit: replace the value, then fire `change` synchronously. */
    method EditorSetValue(code: string) returns (ok: bool)
      modifies this
      ensures ok == (old(isSyncing) || old(hasSocket))
      ensures Snapshot() == AfterSetValue(old(Snapshot()), code)
    {
      editorValue := code;
      ok := EditorOnChange();
    }

    /** The editor's CODE_CHANGE listener: set `isSyncing` around `setValue` when the code differs. */
    method EditorHandleCodeChange(code: string)
      requires Valid()
      modifies this
      ensures Valid()
      ensures Snapshot() == AfterEditorCodeChange(old(Snapshot()), code)
    {
      if code != editorValue {
        isSyncing := true;
        var ok := EditorSetValue(code);
        // the change handler returned normally, so the flag is reset
        assert ok;
        isSyncing := false;
      }
    }

    /** The editor's effect that registers its CODE_CHANGE listener on the current socket, if any. */
    method EditorSubscribe()
      requires Valid()
      modifies this
      ensures Valid()
      ensures Snapshot() == AfterEditorSubscribe(old(Snapshot()))
    {
      if hasSocket {
        editorListening := true;
      }
    }

    /** The page's CODE_CHANGE listener. */
    method OnCodeChange(code: string)
      requires Valid()
      modifies this
      ensures Valid()
      ensures Snapshot() == AfterPageCodeChange(old(Snapshot()), code)
    {
      if code != codeRef {
        codeRef := code;
        pageText := code;
      }
    }

    /** The page's JOINED listener; the username only chooses a notification, which is not modelled. */
    method OnJoined(newClients: seq<Client>, username: string, socketId: string)
      requires Valid() && hasSocket
      modifies this
      ensures Valid()
      ensures Snapshot() == AfterJoined(old(Snapshot()), newClients, socketId)
    {
      clients := MergeClients(clients, newClients);
      Emit(SyncCodeMsg(codeRef, socketId));
    }

    /** The page's DISCONNECTED listener. */
    method OnDisconnected(socketId: string, username: string)
      requires Valid()
      modifies this
      ensures Valid()
      ensures Snapshot() == AfterDisconnected(old(Snapshot()), socketId)
    {
      RemoveClientUnique(clients, socketId);
      clients := RemoveClient(clients, socketId);
    }

    /** The socket calls the listeners registered for the message, page first, then editor. */
    method Receive(ev: Inbound)
      requires Valid()
      modifies this
      ensures Valid()
      ensures Snapshot() == AfterReceive(old(Snapshot()), ev)
    {
      if !connected {
        return;
      }
      match ev
      case Joined(newClients, username, socketId) =>
        if pageListening {
          OnJoined(newClients, username, socketId);
        }
      case CodeChanged(code) =>
        if pageListening {
          OnCodeChange(code);
        }
        if editorListening {
          EditorHandleCodeChange(code);
        }
      case Disconnected(socketId, username) =>
        if pageListening {
          OnDisconnected(socketId, username);
        }
    }

    /** The page's effect cleanup. */
    method Cleanup()
      requires Valid()
      modifies this
      ensures Valid()
      ensures Snapshot() == AfterCleanup(old(Snapshot()))
    {
      if hasSocket {
        connected := false;
        pageListening := false;
        editorListening := false;
      }
    }
  }

  /**
   A newcomer's arrival: the page mounts, the editor's listener effect runs first and
   finds no socket, `init` connects and sends JOIN, and the JOINED event for the
   newcomer itself arrives. The newcomer answers it with a SYNC_CODE carrying its
   own empty text.
   */
  method NewcomerJoin(roomId: string, name: string, me: string) returns (s: Session)
    requires name != ""
    ensures fresh(s) && s.Valid() && s.connected && s.pageListening && !s.editorListening
    ensures s.codeRef == "" && s.pageText == "" && s.editorValue == ""
    ensures s.outbox == [JoinMsg(roomId, name), SyncCodeMsg("", me)]
    ensures s.clients == [Client(me, name)]
  {
    s := new Session(roomId);
    s.EditorSubscribe();
    assert !s.editorListening;
    var outcome := s.Init(Some(name), true);
    assert s.connected && s.pageListening && !s.editorListening && s.codeRef == "" && s.clients == [];
    assert s.outbox == [JoinMsg(roomId, name)];
    s.Receive(Joined([Client(me, name)], name, me));
    MergeIntoEmpty([Client(me, name)]);
  }

  /**
   The newcomer then receives the incumbents' text twice, once per incumbent. The
   text reaches `codeRef` and the `.editor` element; the CodeMirror value stays
   empty, because the editor's listener was never registered. Nothing more is sent.
   */
  method NewcomerSync(roomId: string, name: string, me: string, text: string) returns (s: Session)
    requires name != ""
    ensures s.codeRef == text && s.pageText == text && s.editorValue == ""
    ensures s.outbox == [JoinMsg(roomId, name), SyncCodeMsg("", me)]
    ensures s.clients == [Client(me, name)]
  {
    s := NewcomerJoin(roomId, name, me);
    ghost var joined := s.Snapshot();
    s.Receive(CodeChanged(text));
    s.Receive(CodeChanged(text));
    SyncReachesPageOnly(joined, text);
  }
}
