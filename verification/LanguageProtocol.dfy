/** The client side of the language-server protocol (src/language_service.rs, `Protocol`). */
module LanguageProtocol {
  import opened Common
  import opened DocumentUri

  const MAX_WORKSPACE_FILES := 256
  const MAX_PENDING_REQUESTS := 64
  const MAX_PROTOCOL_OUTBOX := MAX_WORKSPACE_FILES + MAX_PENDING_REQUESTS + 16
  const MAX_MESSAGES_PER_POLL := 16
  const MAX_VERSION := 0x7FFF_FFFF
  const RELOAD_DEADLINE := 30_000
  const COMPLETION_DEADLINE := 3_000

  /** Document identifiers in their order. */
  type DocumentId = nat

  /** An open document of the workspace. */
  datatype DocumentState = DocumentState(id: DocumentId, path: Path, version: nat, text: string)

  /** What the server was last told about a document. */
  datatype Synced = Synced(path: Path, version: nat, text: string)

  datatype CompletionRequest = CompletionRequest(sequence: nat, document: DocumentId, path: Path, version: nat,
      position: nat)

  datatype CompletionResponse = CompletionResponse(request: CompletionRequest, items: seq<string>)

  datatype Published = Published(document: DocumentId, path: Path, version: nat, diagnostics: string)

  datatype Kind = Initialize | Reload | Shutdown | Completion(request: CompletionRequest)

  datatype Pending = Pending(generation: nat, kind: Kind, deadline: nat)

  datatype Phase = Initializing | Ready | Stopping | ExitSent

  datatype Message =
    | Request(id: nat, kind: Kind)
    | Initialized
    | DidOpen(uri: string, version: nat, text: string)
    | DidChange(uri: string, version: nat, text: string)
    | DidClose(uri: string)
    | Reply(to: nat, supported: bool)
    | Exit

  /** One incarnation of the protocol; `fits` is the verdict of the JSON limits on an outgoing message. */
  datatype Config = Config(generation: nat, root: string, fits: Message -> bool)

  /**
   * The protocol's state, and what happened so far: the messages queued and sent, the completion requests
   * by identifier, the identifiers answered in order, and the responses handed to the caller.
   */
  datatype Client = Client(
    phase: Phase,
    nextId: nat,
    pending: map<nat, Pending>,
    outbox: seq<Message>,
    documents: map<DocumentId, Synced>,
    completions: seq<CompletionResponse>,
    diagnostics: seq<Published>,
    queued: seq<Message>,
    sent: seq<Message>,
    issued: map<nat, CompletionRequest>,
    answered: seq<nat>,
    delivered: seq<CompletionResponse>)

  datatype Step = Step(client: Client, ok: bool)

  function Enqueue(c: Config, s: Client, m: Message): Step {
    if !c.fits(m) || |s.outbox| >= MAX_PROTOCOL_OUTBOX then Step(s, false)
    else Step(s.(outbox := s.outbox + [m], queued := s.queued + [m]), true)
  }

  // ----- The order of identifiers -----

  predicate IsLeast(ids: set<nat>, m: nat) {
    m in ids && forall x | x in ids :: m <= x
  }

  lemma {:induction false} LeastExists(ids: set<nat>) returns (m: nat)
    requires ids != {}
    ensures IsLeast(ids, m)
  {
    var y :| y in ids;
    var rest := ids - {y};
    if rest == {} {
      m := y;
      assert ids == {y};
    } else {
      var n := LeastExists(rest);
      m := if n <= y then n else y;
      assert forall x | x in ids :: x == y || x in rest;
    }
  }

  function Least(ids: set<nat>): (m: nat)
    requires ids != {}
    ensures IsLeast(ids, m)
  {
    assert exists m: nat :: IsLeast(ids, m) by { var m := LeastExists(ids); }
    var m :| m in ids && IsLeast(ids, m);
    m
  }

  predicate NoRepeats(ids: seq<nat>) {
    forall i, j | 0 <= i < j < |ids| :: ids[i] != ids[j]
  }

  lemma {:induction false} RestUnrepeated(ids: seq<nat>, i: nat)
    requires i < |ids| && NoRepeats(ids[i..])
    ensures ids[i..][1..] == ids[i + 1..] && NoRepeats(ids[i + 1..]) && ids[i] !in ids[i + 1..]
  {
    var rest := ids[i..];
    assert rest[1..] == ids[i + 1..] && rest[0] !in rest[1..];
  }

  /** The identifiers in the order in which an ordered map lists its keys. */
  function Ascending(ids: set<nat>): (r: seq<nat>)
    ensures forall x :: x in r <==> x in ids
    ensures NoRepeats(r)
  {
    if ids == {} then [] else [Least(ids)] + Ascending(ids - {Least(ids)})
  }

  // ----- Reconciling documents -----

  /** A file whose extension is `rs`. */
  predicate SupportsDocument(path: Path) {
    var n := |path|;
    && n > 3 && path[n - 3] == '.' as int && path[n - 2] == 'r' as int && path[n - 1] == 's' as int
    && path[n - 4] != '/' as int
  }

  /** The supported documents by identifier; the last of two with one identifier stays. */
  function Desired(list: seq<DocumentState>): map<DocumentId, DocumentState> {
    if list == [] then map[]
    else
      var init, last := Desired(list[..|list| - 1]), list[|list| - 1];
      if SupportsDocument(last.path) then init[last.id := last] else init
  }

  predicate Unwanted(documents: map<DocumentId, Synced>, desired: map<DocumentId, DocumentState>, id: DocumentId)
    requires id in documents
  {
    id !in desired || desired[id].path != documents[id].path
  }

  function ToClose(documents: map<DocumentId, Synced>, desired: map<DocumentId, DocumentState>): seq<DocumentId> {
    Ascending(set id | id in documents.Keys && Unwanted(documents, desired, id))
  }

  function Forget(published: seq<Published>, id: DocumentId): seq<Published> {
    if published == [] then []
    else
      var init, last := Forget(published[..|published| - 1], id), published[|published| - 1];
      if last.document == id then init else init + [last]
  }

  function Closed(c: Config, s: Client, id: DocumentId): Step
    requires id in s.documents
  {
    var step := Enqueue(c, s, DidClose(Uri(c.root, s.documents[id].path)));
    if !step.ok then step
    else Step(step.client.(documents := s.documents - {id}, diagnostics := Forget(s.diagnostics, id)), true)
  }

  function ClosedAll(c: Config, s: Client, ids: seq<DocumentId>): Step
    requires NoRepeats(ids) && forall id | id in ids :: id in s.documents
    decreases |ids|
  {
    if ids == [] then Step(s, true)
    else
      var step := Closed(c, s, ids[0]);
      if !step.ok then step else ClosedAll(c, step.client, ids[1..])
  }

  function Known(next: DocumentState): Synced {
    Synced(next.path, next.version, next.text)
  }

  function SyncedOne(c: Config, s: Client, next: DocumentState): Step {
    var uri := Uri(c.root, next.path);
    if next.version > MAX_VERSION then Step(s, false)
    else if next.id !in s.documents then
      var step := Enqueue(c, s, DidOpen(uri, next.version, next.text));
      if !step.ok then step else Step(step.client.(documents := s.documents[next.id := Known(next)]), true)
    else
      var current := s.documents[next.id];
      if current.version == next.version && current.text == next.text then Step(s, true)
      else if next.version <= current.version then Step(s, false)
      else
        var step := Enqueue(c, s, DidChange(uri, next.version, next.text));
        if !step.ok then step
        else Step(step.client.(documents := s.documents[next.id := Known(next)],
                               diagnostics := Forget(s.diagnostics, next.id)), true)
  }

  function SyncedAll(c: Config, s: Client, ids: seq<DocumentId>, desired: map<DocumentId, DocumentState>): Step
    requires forall id | id in ids :: id in desired
    decreases |ids|
  {
    if ids == [] then Step(s, true)
    else
      var step := SyncedOne(c, s, desired[ids[0]]);
      if !step.ok then step else SyncedAll(c, step.client, ids[1..], desired)
  }

  /** Closes what is no longer wanted under its path, then opens and changes what is. */
  function Reconciled(c: Config, s: Client, list: seq<DocumentState>): Step {
    var desired := Desired(list);
    var step := ClosedAll(c, s, ToClose(s.documents, desired));
    if !step.ok then step else SyncedAll(c, step.client, Ascending(desired.Keys), desired)
  }

  // ----- The server's view -----

  datatype Open = Open(version: nat, text: string)

  type Server = map<string, Open>

  /**
   * What a message does to the documents the server holds by URI; None when it breaks the rules of document
   * synchronization: opening an open document, changing or closing a closed one, or a version that does not grow.
   */
  function Serve(server: Server, m: Message): Option<Server> {
    match m
    case DidOpen(uri, version, text) => if uri in server then None else Some(server[uri := Open(version, text)])
    case DidChange(uri, version, text) =>
      if uri in server && server[uri].version < version then Some(server[uri := Open(version, text)]) else None
    case DidClose(uri) => if uri in server then Some(server - {uri}) else None
    case _ => Some(server)
  }

  function Served(messages: seq<Message>): Option<Server> {
    if messages == [] then Some(map[])
    else match Served(messages[..|messages| - 1])
      case None => None
      case Some(server) => Serve(server, messages[|messages| - 1])
  }

  lemma {:induction false} ServedNext(messages: seq<Message>, m: Message)
    ensures Served(messages + [m]) == if Served(messages).None? then None else Serve(Served(messages).value, m)
  {
    assert (messages + [m])[..|messages|] == messages;
  }

  predicate DistinctPaths(documents: map<DocumentId, Synced>) {
    forall a, b | a in documents && b in documents && documents[a].path == documents[b].path :: a == b
  }

  /** The server holds this document as it was last told. */
  predicate Holds(server: Server, uri: string, document: Synced) {
    uri in server && server[uri] == Open(document.version, document.text)
  }

  predicate HoldsAll(root: string, server: Server, documents: map<DocumentId, Synced>) {
    forall id | id in documents :: Holds(server, Uri(root, documents[id].path), documents[id])
  }

  /** The document mirrored under this URI. */
  predicate Under(root: string, documents: map<DocumentId, Synced>, uri: string, id: DocumentId) {
    id in documents && Uri(root, documents[id].path) == uri
  }

  ghost predicate HoldsOnly(root: string, server: Server, documents: map<DocumentId, Synced>) {
    forall uri | uri in server :: exists id :: Under(root, documents, uri, id)
  }

  /** The server holds exactly the mirrored documents, under their URIs. */
  ghost predicate Mirrors(root: string, server: Server, documents: map<DocumentId, Synced>) {
    DistinctPaths(documents) && HoldsAll(root, server, documents) && HoldsOnly(root, server, documents)
  }

  /** Nothing queued so far breaks the rules, and the server will hold exactly the mirrored documents. */
  ghost predicate Mirrored(c: Config, s: Client) {
    Served(s.queued).Some? && Mirrors(c.root, Served(s.queued).value, s.documents)
  }

  /** No other document is mirrored under this path. */
  predicate Free(documents: map<DocumentId, Synced>, id: DocumentId, path: Path) {
    forall other | other in documents && other != id :: documents[other].path != path
  }

  /** Paths apart are URIs apart. */
  lemma {:induction false} Elsewhere(root: string, documents: map<DocumentId, Synced>, id: DocumentId, path: Path)
    requires Free(documents, id, path)
    ensures forall other | other in documents && other != id :: !Under(root, documents, Uri(root, path), other)
  {
    forall other | other in documents && other != id
      ensures !Under(root, documents, Uri(root, path), other)
    {
      if Under(root, documents, Uri(root, path), other) {
        UriInjective(root, documents[other].path, path);
      }
    }
  }

  lemma {:induction false} HoldsOnlyWithout(root: string, server: Server, documents: map<DocumentId, Synced>,
                                            id: DocumentId, uri: string)
    requires HoldsOnly(root, server, documents) && Under(root, documents, uri, id)
    ensures HoldsOnly(root, server - {uri}, documents - {id})
  {
    forall u | u in server - {uri}
      ensures exists other :: Under(root, documents - {id}, u, other)
    {
      var other :| Under(root, documents, u, other);
      assert Under(root, documents - {id}, u, other);
    }
  }

  lemma {:induction false} HoldsAllWithout(root: string, server: Server, documents: map<DocumentId, Synced>,
                                           id: DocumentId, uri: string)
    requires HoldsAll(root, server, documents)
    requires forall other | other in documents && other != id :: !Under(root, documents, uri, other)
    ensures HoldsAll(root, server - {uri}, documents - {id})
  {
    forall other | other in documents - {id}
      ensures Holds(server - {uri}, Uri(root, documents[other].path), documents[other])
    {
      assert Holds(server, Uri(root, documents[other].path), documents[other]);
      assert !Under(root, documents, uri, other);
    }
  }

  lemma {:induction false} MirrorsClose(root: string, server: Server, documents: map<DocumentId, Synced>,
                                        id: DocumentId)
    requires Mirrors(root, server, documents) && id in documents
    ensures Uri(root, documents[id].path) in server
    ensures Mirrors(root, server - {Uri(root, documents[id].path)}, documents - {id})
  {
    var uri := Uri(root, documents[id].path);
    assert Holds(server, uri, documents[id]);
    Elsewhere(root, documents, id, documents[id].path);
    HoldsOnlyWithout(root, server, documents, id, uri);
    HoldsAllWithout(root, server, documents, id, uri);
  }

  lemma {:induction false} HoldsOnlyWith(root: string, server: Server, documents: map<DocumentId, Synced>,
                                         id: DocumentId, uri: string, told: Open, document: Synced)
    requires HoldsOnly(root, server, documents) && Uri(root, document.path) == uri
    requires id in documents ==> documents[id].path == document.path
    ensures HoldsOnly(root, server[uri := told], documents[id := document])
  {
    var server', documents' := server[uri := told], documents[id := document];
    forall u | u in server'
      ensures exists other :: Under(root, documents', u, other)
    {
      if u == uri {
        assert Under(root, documents', u, id);
      } else {
        var other :| Under(root, documents, u, other);
        assert Under(root, documents', u, other);
      }
    }
  }

  lemma {:induction false} HoldsAllWith(root: string, server: Server, documents: map<DocumentId, Synced>,
                                        id: DocumentId, uri: string, document: Synced)
    requires HoldsAll(root, server, documents) && Uri(root, document.path) == uri
    requires forall other | other in documents && other != id :: !Under(root, documents, uri, other)
    ensures HoldsAll(root, server[uri := Open(document.version, document.text)], documents[id := document])
  {
    var server', documents' := server[uri := Open(document.version, document.text)], documents[id := document];
    forall other | other in documents'
      ensures Holds(server', Uri(root, documents'[other].path), documents'[other])
    {
      if other != id {
        assert Holds(server, Uri(root, documents[other].path), documents[other]);
        assert !Under(root, documents, uri, other);
      }
    }
  }

  /** The server holds a document open exactly when it is mirrored. */
  lemma {:induction false} OpenWhenMirrored(root: string, server: Server, documents: map<DocumentId, Synced>,
                                            next: DocumentState)
    requires Mirrors(root, server, documents) && Free(documents, next.id, next.path)
    requires next.id in documents ==> documents[next.id].path == next.path
    ensures Uri(root, next.path) in server <==> next.id in documents
    ensures next.id in documents ==> server[Uri(root, next.path)].version == documents[next.id].version
  {
    var uri := Uri(root, next.path);
    Elsewhere(root, documents, next.id, next.path);
    if uri in server {
      var other :| Under(root, documents, uri, other);
    }
    if next.id in documents {
      assert Holds(server, uri, documents[next.id]);
    }
  }

  /** Telling the server about one document, new or under its path, keeps the mirror. */
  lemma {:induction false} MirrorsPut(root: string, server: Server, documents: map<DocumentId, Synced>,
                                      next: DocumentState)
    requires Mirrors(root, server, documents) && Free(documents, next.id, next.path)
    requires next.id in documents ==> documents[next.id].path == next.path
    ensures Mirrors(root, server[Uri(root, next.path) := Open(next.version, next.text)],
            documents[next.id := Known(next)])
  {
    var uri := Uri(root, next.path);
    Elsewhere(root, documents, next.id, next.path);
    HoldsOnlyWith(root, server, documents, next.id, uri, Open(next.version, next.text), Known(next));
    HoldsAllWith(root, server, documents, next.id, uri, Known(next));
  }

  // ----- The mirror is kept, also when reconciling stops midway -----

  lemma {:induction false} ClosedMirrors(c: Config, s: Client, id: DocumentId)
    requires Mirrored(c, s) && id in s.documents
    ensures Mirrored(c, Closed(c, s, id).client)
  {
    var m := DidClose(Uri(c.root, s.documents[id].path));
    MirrorsClose(c.root, Served(s.queued).value, s.documents, id);
    ServedNext(s.queued, m);
    assert Serve(Served(s.queued).value, m) == Some(Served(s.queued).value - {m.uri});
  }

  lemma {:induction false} ClosedAllMirrors(c: Config, s: Client, ids: seq<DocumentId>)
    requires NoRepeats(ids) && forall id | id in ids :: id in s.documents
    requires Mirrored(c, s)
    ensures Mirrored(c, ClosedAll(c, s, ids).client)
    ensures forall id | id in ClosedAll(c, s, ids).client.documents ::
            id in s.documents && ClosedAll(c, s, ids).client.documents[id] == s.documents[id]
    ensures ClosedAll(c, s, ids).ok ==> forall id | id in ids :: id !in ClosedAll(c, s, ids).client.documents
    decreases |ids|
  {
    if ids != [] {
      ClosedMirrors(c, s, ids[0]);
      var step := Closed(c, s, ids[0]);
      if step.ok {
        ClosedAllMirrors(c, step.client, ids[1..]);
      }
    }
  }

  /** Every mirrored document is wanted, under its path. */
  predicate Aligned(documents: map<DocumentId, Synced>, desired: map<DocumentId, DocumentState>) {
    forall id | id in documents :: id in desired && desired[id].path == documents[id].path
  }

  /** No two wanted documents share a path, and each is listed under its identifier. */
  predicate WellListed(desired: map<DocumentId, DocumentState>) {
    && (forall id | id in desired :: desired[id].id == id)
    && (forall a, b | a in desired && b in desired && desired[a].path == desired[b].path :: a == b)
  }

  /** The message that tells the server about `next`: an opening or, under its path, a newer version. */
  predicate Tells(root: string, documents: map<DocumentId, Synced>, next: DocumentState, m: Message) {
    if next.id in documents then
      && documents[next.id].path == next.path && documents[next.id].version < next.version
      && m == DidChange(Uri(root, next.path), next.version, next.text)
    else m == DidOpen(Uri(root, next.path), next.version, next.text)
  }

  lemma {:induction false} TellMirrors(c: Config, s: Client, next: DocumentState, m: Message, s': Client)
    requires Mirrored(c, s) && Free(s.documents, next.id, next.path) && Tells(c.root, s.documents, next, m)
    requires s'.queued == s.queued + [m] && s'.documents == s.documents[next.id := Known(next)]
    ensures Mirrored(c, s')
  {
    var server := Served(s.queued).value;
    OpenWhenMirrored(c.root, server, s.documents, next);
    MirrorsPut(c.root, server, s.documents, next);
    ServedNext(s.queued, m);
  }

  /** Synchronizing one document queues at most the message that tells the server about it. */
  lemma {:induction false} SyncedOneTells(c: Config, s: Client, next: DocumentState)
    requires next.id in s.documents ==> s.documents[next.id].path == next.path
    ensures var step := SyncedOne(c, s, next);
      || (step.client == s && (step.ok ==> next.id in s.documents && s.documents[next.id] == Known(next)))
      || (&& step.ok && step.client.documents == s.documents[next.id := Known(next)]
          && |step.client.queued| == |s.queued| + 1
          && step.client.queued == s.queued + [step.client.queued[|s.queued|]]
          && Tells(c.root, s.documents, next, step.client.queued[|s.queued|]))
  {
  }

  lemma {:induction false} SyncedOneMirrors(c: Config, s: Client, desired: map<DocumentId, DocumentState>,
                                            id: DocumentId)
    requires Mirrored(c, s) && Aligned(s.documents, desired) && WellListed(desired) && id in desired
    ensures Mirrored(c, SyncedOne(c, s, desired[id]).client)
  {
    SyncedOneTells(c, s, desired[id]);
    var step := SyncedOne(c, s, desired[id]);
    if step.client != s {
      TellMirrors(c, s, desired[id], step.client.queued[|s.queued|], step.client);
    }
  }

  lemma {:induction false} SyncedOneAligned(c: Config, s: Client, desired: map<DocumentId, DocumentState>,
                                            id: DocumentId)
    requires Aligned(s.documents, desired) && WellListed(desired) && id in desired
    ensures var step := SyncedOne(c, s, desired[id]);
      && Aligned(step.client.documents, desired)
      && (step.ok ==> id in step.client.documents && step.client.documents[id] == Known(desired[id]))
      && (forall other | other in s.documents && other != id ::
            other in step.client.documents && step.client.documents[other] == s.documents[other])
  {
    SyncedOneTells(c, s, desired[id]);
  }

  lemma {:induction false} SyncedAllMirrors(c: Config, s: Client, ids: seq<DocumentId>,
                                            desired: map<DocumentId, DocumentState>)
    requires Mirrored(c, s) && Aligned(s.documents, desired) && WellListed(desired)
    requires NoRepeats(ids) && forall id | id in ids :: id in desired
    ensures var step := SyncedAll(c, s, ids, desired);
      && Mirrored(c, step.client) && Aligned(step.client.documents, desired)
      && (step.ok ==> forall id | id in ids ::
         id in step.client.documents && step.client.documents[id] == Known(desired[id]))
      && (forall other | other in s.documents && other !in ids ::
            other in step.client.documents && step.client.documents[other] == s.documents[other])
    decreases |ids|
  {
    if ids != [] {
      SyncedOneMirrors(c, s, desired, ids[0]);
      SyncedOneAligned(c, s, desired, ids[0]);
      var step := SyncedOne(c, s, desired[ids[0]]);
      if step.ok {
        SyncedAllMirrors(c, step.client, ids[1..], desired);
      }
    }
  }

  /** The supported documents of the list have distinct paths unless they have one identifier. */
  predicate PathsDiffer(list: seq<DocumentState>) {
    forall i, j | 0 <= i < |list| && 0 <= j < |list| && list[i].path == list[j].path :: list[i].id == list[j].id
  }

  lemma {:induction false} DesiredListed(list: seq<DocumentState>)
    ensures forall id | id in Desired(list) :: Desired(list)[id].id == id && Desired(list)[id] in list
  {
    if list != [] {
      var init := list[..|list| - 1];
      DesiredListed(init);
      assert forall d | d in init :: d in list;
      assert list[|list| - 1] in list;
    }
  }

  lemma {:induction false} DesiredWellListed(list: seq<DocumentState>)
    requires PathsDiffer(list)
    ensures WellListed(Desired(list))
  {
    DesiredListed(list);
    var desired := Desired(list);
    forall a, b | a in desired && b in desired && desired[a].path == desired[b].path
      ensures a == b
    {
      var i :| 0 <= i < |list| && list[i] == desired[a];
      var j :| 0 <= j < |list| && list[j] == desired[b];
    }
  }

  lemma {:induction false} ToCloseListed(documents: map<DocumentId, Synced>, desired: map<DocumentId, DocumentState>)
    ensures forall id | id in ToClose(documents, desired) :: id in documents
    ensures forall id | id in documents && id !in ToClose(documents, desired) :: !Unwanted(documents, desired, id)
  {
  }

  /**
   * Whatever the list and wherever reconciling stops, everything queued obeys document synchronization and
   * leaves the server with exactly the mirrored documents. A reconciling that succeeds mirrors exactly the list.
   */
  lemma {:induction false} ReconciledMirrors(c: Config, s: Client, list: seq<DocumentState>)
    requires Mirrored(c, s) && PathsDiffer(list)
    ensures Mirrored(c, Reconciled(c, s, list).client)
    ensures Reconciled(c, s, list).ok ==>
              Reconciled(c, s, list).client.documents == map id | id in Desired(list) :: Known(Desired(list)[id])
  {
    var desired := Desired(list);
    DesiredWellListed(list);
    ClosedAligned(c, s, desired);
    var step := ClosedAll(c, s, ToClose(s.documents, desired));
    if step.ok {
      SyncedExact(c, step.client, desired);
    }
  }

  lemma {:induction false} ClosedAligned(c: Config, s: Client, desired: map<DocumentId, DocumentState>)
    requires Mirrored(c, s)
    ensures var step := ClosedAll(c, s, ToClose(s.documents, desired));
      Mirrored(c, step.client) && (step.ok ==> Aligned(step.client.documents, desired))
  {
    ToCloseListed(s.documents, desired);
    ClosedAllMirrors(c, s, ToClose(s.documents, desired));
  }

  lemma {:induction false} SyncedExact(c: Config, s: Client, desired: map<DocumentId, DocumentState>)
    requires Mirrored(c, s) && Aligned(s.documents, desired) && WellListed(desired)
    ensures var step := SyncedAll(c, s, Ascending(desired.Keys), desired);
      && Mirrored(c, step.client)
      && (step.ok ==> step.client.documents == map id | id in desired :: Known(desired[id]))
  {
    var ids := Ascending(desired.Keys);
    SyncedAllMirrors(c, s, ids, desired);
    var after := SyncedAll(c, s, ids, desired);
    if after.ok {
      DocumentsExact(after.client.documents, desired);
    }
  }

  lemma {:induction false} DocumentsExact(documents: map<DocumentId, Synced>, desired: map<DocumentId, DocumentState>)
    requires Aligned(documents, desired)
    requires forall id | id in desired :: id in documents && documents[id] == Known(desired[id])
    ensures documents == map id | id in desired :: Known(desired[id])
  {
    assert documents.Keys == desired.Keys;
  }

  // ----- Requests -----

  function Requested(c: Config, s: Client, kind: Kind, deadline: nat): Step {
    if |s.pending| >= MAX_PENDING_REQUESTS then Step(s, false)
    else
      var id := s.nextId;
      var issued := if kind.Completion? then s.issued[id := kind.request] else s.issued;
      Enqueue(c, s.(nextId := id + 1, pending := s.pending[id := Pending(c.generation, kind, deadline)],
          issued := issued),
              Request(id, kind))
  }

  /** A request is made only for a document the server knows as it is. */
  function CompletionRequested(c: Config, s: Client, d: DocumentState, position: nat, sequence: nat, now: nat): Step {
    if s.phase != Ready || d.id !in s.documents || s.documents[d.id] != Known(d) then Step(s, false)
    else Requested(c, s, Completion(CompletionRequest(sequence, d.id, d.path, d.version, position)),
        now + COMPLETION_DEADLINE)
  }

  /** `ok` also when nothing needed to be asked. */
  function ReloadRequested(c: Config, s: Client, now: nat): Step {
    if s.phase != Ready || exists id :: id in s.pending && s.pending[id].kind.Reload? then Step(s, true)
    else Requested(c, s, Reload, now + RELOAD_DEADLINE)
  }

  // ----- Sending -----

  datatype SendOutcome = Sent | Full | Broken

  /** Sends from the front of the outbox until the transport is full; the transport answers in order. */
  function Flushed(s: Client, answers: seq<SendOutcome>): Step
    decreases |s.outbox|
  {
    if s.outbox == [] then Step(s, true)
    else if answers == [] || answers[0].Full? then Step(s, true)
    else
      var popped := s.(outbox := s.outbox[1..]);
      if answers[0].Broken? then Step(popped, false)
      else Flushed(popped.(sent := s.sent + [s.outbox[0]]), answers[1..])
  }

  /** Nothing is lost or reordered between queueing and sending. */
  predicate Ordered(s: Client) {
    s.sent + s.outbox == s.queued
  }

  lemma {:induction false} FlushedOrdered(s: Client, answers: seq<SendOutcome>)
    requires Ordered(s)
    ensures Flushed(s, answers).ok ==> Ordered(Flushed(s, answers).client)
    ensures Flushed(s, answers).client.sent <= s.queued
    ensures s.sent <= Flushed(s, answers).client.sent
    decreases |s.outbox|
  {
    if s.outbox != [] && answers != [] && answers[0].Sent? {
      var next := s.(outbox := s.outbox[1..], sent := s.sent + [s.outbox[0]]);
      assert next.sent + next.outbox == s.sent + s.outbox;
      FlushedOrdered(next, answers[1..]);
    }
  }

  // ----- Receiving -----

  /** A completion answered: the request it belongs to leaves the pending map with its identifier. */
  function Answered(s: Client, id: nat, request: CompletionRequest, items: seq<string>): Client {
    var kept := if |s.completions| == MAX_PENDING_REQUESTS then s.completions[1..] else s.completions;
    s.(completions := kept + [CompletionResponse(request, items)], answered := s.answered + [id])
  }

  /** The `result` of a response: acceptable for its request, and the completion items read from it. */
  datatype Result = Result(acceptable: bool, items: seq<string>)

  datatype Inbound =
    | Malformed
    | ServerRequest(reply: Option<nat>, withinLimits: bool, supported: bool)
    | PublishDiagnostics(uri: string, version: nat, diagnostics: Option<string>)
    | OtherNotification
    | Response(id: Option<nat>, failed: bool, result: Result)

  /** The first document, in order, with this version and URI. */
  function Find(c: Config, documents: map<DocumentId, Synced>, ids: seq<DocumentId>, uri: string,
                version: nat): (r: Option<DocumentId>)
    requires forall id | id in ids :: id in documents
    ensures r.Some? ==> r.value in documents && documents[r.value].version == version
  {
    if ids == [] then None
    else if documents[ids[0]].version == version && Uri(c.root, documents[ids[0]].path) == uri then Some(ids[0])
    else Find(c, documents, ids[1..], uri, version)
  }

  function PublishedOne(c: Config, s: Client, uri: string, version: nat, diagnostics: Option<string>): Client {
    match Find(c, s.documents, Ascending(s.documents.Keys), uri, version)
    case None => s
    case Some(id) =>
      if diagnostics.None? then s
      else
        var others := Forget(s.diagnostics, id);
        var kept := if |others| == MAX_WORKSPACE_FILES then others[1..] else others;
        s.(diagnostics := kept + [Published(id, s.documents[id].path, version, diagnostics.value)])
  }

  function Responded(c: Config, s: Client, id: nat, failed: bool, result: Result, now: nat): Step {
    if id !in s.pending then Step(s, true)
    else
      var request, s' := s.pending[id], s.(pending := s.pending - {id});
      if request.generation != c.generation then Step(s', true)
      else match request.kind
        case Completion(r) =>
          Step(Answered(s', id, r, if now >= request.deadline || failed then [] else result.items), true)
        case Initialize =>
          if failed then Step(s', false)
          else if s.phase != Initializing then Step(s', true)
          else if !result.acceptable then Step(s', false)
          else
            var step := Enqueue(c, s', Initialized);
            if step.ok then Step(step.client.(phase := Ready), true) else step
        case Reload => Step(s', !failed && result.acceptable)
        case Shutdown =>
          if failed then Step(s', false)
          else if s.phase != Stopping then Step(s', true)
          else if !result.acceptable then Step(s', false)
          else
            var step := Enqueue(c, s', Exit);
            if step.ok then Step(step.client.(phase := ExitSent), true) else step
  }

  function Handled(c: Config, s: Client, m: Inbound, now: nat): Step {
    match m
    case Malformed => Step(s, false)
    case ServerRequest(reply, withinLimits, supported) =>
      if reply.None? then Step(s, true)
      else if !withinLimits then Step(s, false)
      else Enqueue(c, s, Reply(reply.value, supported))
    case PublishDiagnostics(uri, version, diagnostics) => Step(PublishedOne(c, s, uri, version, diagnostics), true)
    case OtherNotification => Step(s, true)
    case Response(id, failed, result) => if id.None? then Step(s, true)
        else Responded(c, s, id.value, failed, result, now)
  }

  function HandledAll(c: Config, s: Client, messages: seq<Inbound>, now: nat): Step
    decreases |messages|
  {
    if messages == [] then Step(s, true)
    else
      var step := Handled(c, s, messages[0], now);
      if !step.ok then step else HandledAll(c, step.client, messages[1..], now)
  }

  // ----- Deadlines -----

  function Expired(pending: map<nat, Pending>, now: nat): seq<nat> {
    Ascending(set id | id in pending.Keys && now >= pending[id].deadline)
  }

  function ExpiredAll(s: Client, ids: seq<nat>): Step
    requires NoRepeats(ids) && forall id | id in ids :: id in s.pending
    decreases |ids|
  {
    if ids == [] then Step(s, true)
    else
      var id, request := ids[0], s.pending[ids[0]];
      var s' := s.(pending := s.pending - {id});
      if !request.kind.Completion? then Step(s', false)
      else ExpiredAll(Answered(s', id, request.kind.request, []), ids[1..])
  }

  // ----- One poll -----

  /** What the outside does during one poll; at most a batch of messages is taken. */
  datatype Poll = Poll(
    inbound: seq<Inbound>,
    desired: seq<DocumentState>,
    writesAllowed: bool,
    now: nat,
    before: seq<SendOutcome>,
    after: seq<SendOutcome>)

  function FlushedIf(s: Client, allowed: bool, answers: seq<SendOutcome>): Step {
    if allowed then Flushed(s, answers) else Step(s, true)
  }

  function Batch(p: Poll): seq<Inbound> {
    if |p.inbound| > MAX_MESSAGES_PER_POLL then p.inbound[..MAX_MESSAGES_PER_POLL] else p.inbound
  }

  function Synchronized(c: Config, s: Client, p: Poll): Step {
    if p.writesAllowed && s.phase == Ready then Reconciled(c, s, p.desired) else Step(s, true)
  }

  function Checked(s: Client, now: nat): Step {
    ExpiredAll(s, Expired(s.pending, now))
  }

  function Polled(c: Config, s: Client, p: Poll): Step {
    var flushed := FlushedIf(s, p.writesAllowed, p.before);
    if !flushed.ok then flushed
    else
      var handled := HandledAll(c, flushed.client, Batch(p), p.now);
      if !handled.ok then handled
      else
        var synchronized := Synchronized(c, handled.client, p);
        if !synchronized.ok then synchronized
        else
          var checked := Checked(synchronized.client, p.now);
          if !checked.ok then checked else FlushedIf(checked.client, p.writesAllowed, p.after)
  }

  /** The service takes the completions and diagnostics after every poll, also a failed one. */
  function Drained(s: Client): Client {
    s.(completions := [], delivered := s.delivered + s.completions, diagnostics := [])
  }

  // ----- What a poll does, and not only what it keeps -----

  /**
   * Flushing sends exactly the messages the transport takes before it first does not: all of them, or those before
   * a full answer, after which the rest waits, or those before a broken one, which loses one message and fails.
   */
  lemma {:induction false} FlushedExactly(s: Client, answers: seq<SendOutcome>) returns (n: nat)
    ensures n <= |s.outbox| && n <= |answers| && forall i | 0 <= i < n :: answers[i].Sent?
    ensures var over := n == |s.outbox| || n == |answers| || answers[n].Full?;
      && Flushed(s, answers).ok == over
      && Flushed(s, answers).client == s.(sent := s.sent + s.outbox[..n],
                                          outbox := if over then s.outbox[n..] else s.outbox[n + 1..])
      && (!over ==> answers[n].Broken?)
    decreases |s.outbox|
  {
    hide Flushed;
    FlushedNext(s, answers);
    n := 0;
    if s.outbox != [] && answers != [] && answers[0].Sent? {
      var next := s.(outbox := s.outbox[1..], sent := s.sent + [s.outbox[0]]);
      var m := FlushedExactly(next, answers[1..]);
      n := m + 1;
      TakenOn(s.sent, s.outbox, m);
      assert m < |answers[1..]| ==> answers[1..][m] == answers[n];
    } else {
      assert s.sent + s.outbox[..0] == s.sent && s.outbox[0..] == s.outbox;
    }
  }

  lemma {:induction false} FlushedNext(s: Client, answers: seq<SendOutcome>)
    ensures var next := s.(outbox := if s.outbox == [] then [] else s.outbox[1..]);
      Flushed(s, answers)
      == if s.outbox == [] || answers == [] || answers[0].Full? then Step(s, true)
         else if answers[0].Broken? then Step(next, false)
         else Flushed(next.(sent := s.sent + [s.outbox[0]]), answers[1..])
  {
  }

  lemma {:induction false} TakenOn(sent: seq<Message>, outbox: seq<Message>, m: nat)
    requires m < |outbox|
    ensures sent + [outbox[0]] + outbox[1..][..m] == sent + outbox[..m + 1]
    ensures outbox[1..][m..] == outbox[m + 1..]
    ensures m + 1 < |outbox| ==> outbox[1..][m + 1..] == outbox[m + 2..]
  {
  }

  /** The mirrored document a publication speaks of. */
  predicate Names(c: Config, documents: map<DocumentId, Synced>, m: Inbound, id: DocumentId) {
    m.PublishDiagnostics? && id in documents && documents[id].version == m.version
    && Uri(c.root, documents[id].path) == m.uri
  }

  lemma {:induction false} FindNamed(c: Config, documents: map<DocumentId, Synced>, ids: seq<DocumentId>, m: Inbound)
    requires m.PublishDiagnostics? && forall id | id in ids :: id in documents
    ensures match Find(c, documents, ids, m.uri, m.version)
            case None => forall id | id in ids :: !Names(c, documents, m, id)
            case Some(id) => id in ids && Names(c, documents, m, id)
  {
    if ids != [] && !Names(c, documents, m, ids[0]) {
      FindNamed(c, documents, ids[1..], m);
    }
  }

  lemma {:induction false} ForgetExactly(published: seq<Published>, id: DocumentId)
    ensures forall p :: p in Forget(published, id) <==> p in published && p.document != id
    ensures |Forget(published, id)| <= |published|
  {
    if published != [] {
      var init, last := published[..|published| - 1], published[|published| - 1];
      ForgetExactly(init, id);
      assert forall p :: p in published <==> p in init || p == last;
    }
  }

  /** A publication for a mirrored document replaces what was published for it, and nothing else. */
  lemma {:induction false} PublishedExactly(c: Config, s: Client, m: Inbound, id: DocumentId)
    requires DistinctPaths(s.documents) && |s.diagnostics| < MAX_WORKSPACE_FILES
    requires Names(c, s.documents, m, id) && m.diagnostics.Some?
    ensures var s' := PublishedOne(c, s, m.uri, m.version, m.diagnostics);
      var published := Published(id, s.documents[id].path, m.version, m.diagnostics.value);
      && s' == s.(diagnostics := s'.diagnostics) && |s'.diagnostics| <= |s.diagnostics| + 1
      && forall p :: p in s'.diagnostics <==> p == published || (p in s.diagnostics && p.document != id)
  {
    FindNamed(c, s.documents, Ascending(s.documents.Keys), m);
    var found := Find(c, s.documents, Ascending(s.documents.Keys), m.uri, m.version);
    UriInjective(c.root, s.documents[found.value].path, s.documents[id].path);
    ForgetExactly(s.diagnostics, id);
  }

  /** A publication that names no mirrored document, or cannot be read, changes nothing. */
  lemma {:induction false} UnpublishedExactly(c: Config, s: Client, m: Inbound)
    requires m.PublishDiagnostics?
    requires m.diagnostics.None? || forall id | id in s.documents :: !Names(c, s.documents, m, id)
    ensures PublishedOne(c, s, m.uri, m.version, m.diagnostics) == s
  {
    FindNamed(c, s.documents, Ascending(s.documents.Keys), m);
  }

  lemma {:induction false} PublishedDocuments(c: Config, s: Client, m: Inbound)
    requires m.PublishDiagnostics?
    ensures var s' := PublishedOne(c, s, m.uri, m.version, m.diagnostics);
      s' == s.(diagnostics := s'.diagnostics) && |s'.diagnostics| <= |s.diagnostics| + 1
  {
    hide Find, Forget, Ascending;
    var found := Find(c, s.documents, Ascending(s.documents.Keys), m.uri, m.version);
    if found.Some? {
      ForgetExactly(s.diagnostics, found.value);
    }
  }

  lemma {:induction false} RespondedDocuments(c: Config, s: Client, id: nat, failed: bool, result: Result, now: nat)
    ensures var s' := Responded(c, s, id, failed, result, now).client;
      s'.documents == s.documents && s'.diagnostics == s.diagnostics
  {
  }

  lemma {:induction false} HandledDocuments(c: Config, s: Client, m: Inbound, now: nat)
    ensures Handled(c, s, m, now).client.documents == s.documents
    ensures |Handled(c, s, m, now).client.diagnostics| <= |s.diagnostics| + 1
    ensures !m.PublishDiagnostics? ==> Handled(c, s, m, now).client.diagnostics == s.diagnostics
  {
    hide PublishedOne, Responded;
    if m.PublishDiagnostics? {
      PublishedDocuments(c, s, m);
    } else if m.Response? && m.id.Some? {
      RespondedDocuments(c, s, m.id.value, m.failed, m.result, now);
    }
  }

  /** A published set stays until another one for the same document arrives. */
  lemma {:induction false} HandledKeepsPublished(c: Config, s: Client, m: Inbound, now: nat, p: Published)
    requires DistinctPaths(s.documents) && |s.diagnostics| < MAX_WORKSPACE_FILES
    requires p in s.diagnostics && !Names(c, s.documents, m, p.document)
    ensures p in Handled(c, s, m, now).client.diagnostics
  {
    HandledDocuments(c, s, m, now);
    if m.PublishDiagnostics? {
      FindNamed(c, s.documents, Ascending(s.documents.Keys), m);
      var found := Find(c, s.documents, Ascending(s.documents.Keys), m.uri, m.version);
      if found.Some? && m.diagnostics.Some? {
        PublishedExactly(c, s, m, found.value);
      }
    }
  }

  lemma {:induction false} HandledAllKeepsPublished(c: Config, s: Client, messages: seq<Inbound>, now: nat,
                                                    p: Published)
    requires DistinctPaths(s.documents) && |s.diagnostics| + |messages| <= MAX_WORKSPACE_FILES
    requires p in s.diagnostics && forall i | 0 <= i < |messages| :: !Names(c, s.documents, messages[i], p.document)
    ensures p in HandledAll(c, s, messages, now).client.diagnostics
    decreases |messages|
  {
    if messages != [] {
      HandledKeepsPublished(c, s, messages[0], now, p);
      HandledDocuments(c, s, messages[0], now);
      var step := Handled(c, s, messages[0], now);
      if step.ok {
        HandledAllKeepsPublished(c, step.client, messages[1..], now, p);
      }
    }
  }

  /**
   * When the messages of a poll are handled, the last readable publication for a mirrored document at its mirrored
   * version is handed over: since diagnostics are taken after every poll, none is ever crowded out.
   */
  lemma {:induction false} LastPublicationKept(c: Config, s: Client, messages: seq<Inbound>, now: nat, i: nat,
                                               id: DocumentId)
    requires DistinctPaths(s.documents) && |s.diagnostics| + |messages| <= MAX_WORKSPACE_FILES
    requires HandledAll(c, s, messages, now).ok && i < |messages|
    requires Names(c, s.documents, messages[i], id) && messages[i].diagnostics.Some?
    requires forall j | i < j < |messages| :: !Names(c, s.documents, messages[j], id)
    ensures Published(id, s.documents[id].path, messages[i].version, messages[i].diagnostics.value)
            in HandledAll(c, s, messages, now).client.diagnostics
    decreases |messages|
  {
    var step, rest := Handled(c, s, messages[0], now), messages[1..];
    HandledDocuments(c, s, messages[0], now);
    if i == 0 {
      PublishedExactly(c, s, messages[0], id);
      HandledAllKeepsPublished(c, step.client, rest, now,
          Published(id, s.documents[id].path, messages[0].version, messages[0].diagnostics.value));
    } else {
      LastPublicationKept(c, step.client, rest, now, i - 1, id);
    }
  }

  // ----- Messages that are not about documents -----

  predicate Neutral(m: Message) {
    !m.DidOpen? && !m.DidChange? && !m.DidClose?
  }

  lemma {:induction false} NeutralKeeps(c: Config, s: Client, s': Client, m: Message)
    requires Mirrored(c, s) && Neutral(m) && s'.documents == s.documents
    requires s'.queued == s.queued || s'.queued == s.queued + [m]
    ensures Mirrored(c, s')
  {
    ServedNext(s.queued, m);
  }

  /** The message that handling may queue. */
  function Answer(s: Client, m: Inbound): (r: Message)
    ensures Neutral(r)
  {
    match m
    case ServerRequest(Some(id), _, supported) => Reply(id, supported)
    case Response(Some(id), _, _) => if id in s.pending && s.pending[id].kind.Initialize? then Initialized else Exit
    case _ => Exit
  }

  lemma {:induction false} RespondedQueues(c: Config, s: Client, id: nat, failed: bool, result: Result, now: nat)
    ensures var s' := Responded(c, s, id, failed, result, now).client;
      var m := if id in s.pending && s.pending[id].kind.Initialize? then Initialized else Exit;
      s'.documents == s.documents && (s'.queued == s.queued || s'.queued == s.queued + [m])
  {
  }

  lemma {:induction false} HandledQueues(c: Config, s: Client, m: Inbound, now: nat)
    ensures var s' := Handled(c, s, m, now).client;
      s'.documents == s.documents && (s'.queued == s.queued || s'.queued == s.queued + [Answer(s, m)])
  {
    if m.Response? && m.id.Some? {
      RespondedQueues(c, s, m.id.value, m.failed, m.result, now);
    }
  }

  lemma {:induction false} HandledMirrors(c: Config, s: Client, m: Inbound, now: nat)
    requires Mirrored(c, s)
    ensures Mirrored(c, Handled(c, s, m, now).client)
  {
    HandledQueues(c, s, m, now);
    NeutralKeeps(c, s, Handled(c, s, m, now).client, Answer(s, m));
  }

  lemma {:induction false} HandledAllMirrors(c: Config, s: Client, messages: seq<Inbound>, now: nat)
    requires Mirrored(c, s)
    ensures Mirrored(c, HandledAll(c, s, messages, now).client)
    decreases |messages|
  {
    if messages != [] {
      HandledMirrors(c, s, messages[0], now);
      var step := Handled(c, s, messages[0], now);
      if step.ok {
        HandledAllMirrors(c, step.client, messages[1..], now);
      }
    }
  }

  lemma {:induction false} RequestedMirrors(c: Config, s: Client, kind: Kind, deadline: nat)
    requires Mirrored(c, s)
    ensures Mirrored(c, Requested(c, s, kind, deadline).client)
  {
    hide Requested, Mirrored;
    RequestedQueues(c, s, kind, deadline);
    NeutralKeeps(c, s, Requested(c, s, kind, deadline).client, Request(s.nextId, kind));
  }

  lemma {:induction false} RequestedQueues(c: Config, s: Client, kind: Kind, deadline: nat)
    ensures var s' := Requested(c, s, kind, deadline).client;
      && s'.documents == s.documents
      && (s'.queued == s.queued || s'.queued == s.queued + [Request(s.nextId, kind)])
  {
  }

  /** Sending and deadlines touch neither the documents nor what is queued. */
  predicate SameMirror(s: Client, s': Client) {
    s'.documents == s.documents && s'.queued == s.queued
  }

  lemma {:induction false} FlushedSameMirror(s: Client, answers: seq<SendOutcome>)
    ensures SameMirror(s, Flushed(s, answers).client) && Flushed(s, answers).client.phase == s.phase
    decreases |s.outbox|
  {
    if s.outbox != [] && answers != [] && answers[0].Sent? {
      FlushedSameMirror(s.(outbox := s.outbox[1..], sent := s.sent + [s.outbox[0]]), answers[1..]);
    }
  }

  lemma {:induction false} ExpiredAllSameMirror(s: Client, ids: seq<nat>)
    requires NoRepeats(ids) && forall id | id in ids :: id in s.pending
    ensures SameMirror(s, ExpiredAll(s, ids).client)
    decreases |ids|
  {
    if ids != [] && s.pending[ids[0]].kind.Completion? {
      ExpiredAllSameMirror(Answered(s.(pending := s.pending - {ids[0]}), ids[0], s.pending[ids[0]].kind.request, []),
          ids[1..]);
    }
  }

  /** Every poll keeps the mirror, whatever arrives and wherever it stops. */
  lemma {:induction false} PolledMirrors(c: Config, s: Client, p: Poll)
    requires Mirrored(c, s) && PathsDiffer(p.desired)
    ensures Mirrored(c, Polled(c, s, p).client)
  {
    var flushed := FlushedIf(s, p.writesAllowed, p.before);
    FlushedSameMirror(s, p.before);
    HandledAllMirrors(c, flushed.client, Batch(p), p.now);
    var handled := HandledAll(c, flushed.client, Batch(p), p.now);
    ReconciledMirrors(c, handled.client, p.desired);
    var synchronized := Synchronized(c, handled.client, p);
    ExpiredAllSameMirror(synchronized.client, Expired(synchronized.client.pending, p.now));
    FlushedSameMirror(Checked(synchronized.client, p.now).client, p.after);
  }

  // ----- Each completion request is answered once -----

  function Responses(s: Client): seq<CompletionResponse> {
    s.delivered + s.completions
  }

  /** Pending identifiers were handed out by this incarnation, and pending completions are those issued. */
  predicate PendingKnown(c: Config, s: Client) {
    && (forall id | id in s.pending :: id < s.nextId && s.pending[id].generation == c.generation)
    && (forall id | id in s.pending && s.pending[id].kind.Completion? :: id in s.issued)
    && (forall id | id in s.issued && id in s.pending :: s.pending[id].kind == Completion(s.issued[id]))
  }

  /** Every issued request is pending or answered. */
  predicate Settled(s: Client) {
    forall id | id in s.issued :: id < s.nextId && (id in s.pending || id in s.answered)
  }

  /** Each answer is the only one to its request, and carries it. */
  predicate AnswersMatch(s: Client) {
    && NoRepeats(s.answered) && |s.answered| == |Responses(s)|
    && (forall k | 0 <= k < |s.answered| ::
          s.answered[k] in s.issued && s.answered[k] !in s.pending
              && Responses(s)[k].request == s.issued[s.answered[k]])
  }

  /** Every issued request is either pending or was answered once, with its own request. */
  predicate Correlated(c: Config, s: Client) {
    |s.pending| + |s.completions| <= MAX_PENDING_REQUESTS && PendingKnown(c, s) && Settled(s) && AnswersMatch(s)
  }

  lemma {:induction false} RemovedSmaller(pending: map<nat, Pending>, id: nat)
    requires id in pending
    ensures |pending - {id}| == |pending| - 1
  {
    assert (pending - {id}).Keys == pending.Keys - {id};
  }

  /** Answering a pending completion moves it from the pending map to the responses; nothing is evicted. */
  lemma {:induction false} AnsweredCorrelates(c: Config, s: Client, id: nat, items: seq<string>)
    requires Correlated(c, s) && id in s.pending && s.pending[id].kind.Completion?
    ensures var s' := Answered(s.(pending := s.pending - {id}), id, s.pending[id].kind.request, items);
      Correlated(c, s') && s'.completions == s.completions + [CompletionResponse(s.issued[id], items)]
  {
    RemovedSmaller(s.pending, id);
    var s' := Answered(s.(pending := s.pending - {id}), id, s.pending[id].kind.request, items);
    assert id !in s.answered;
    assert Responses(s') == Responses(s) + [CompletionResponse(s.issued[id], items)];
    assert s'.answered[|s.answered|] == id;
  }

  /** The parts of the state that correlation speaks of. */
  predicate SameLedger(s: Client, s': Client) {
    && s'.nextId == s.nextId && s'.pending == s.pending && s'.issued == s.issued
    && s'.answered == s.answered && s'.completions == s.completions && s'.delivered == s.delivered
  }

  lemma {:induction false} SameLedgerCorrelates(c: Config, s: Client, s': Client)
    requires Correlated(c, s) && SameLedger(s, s')
    ensures Correlated(c, s')
  {
  }

  /** Dropping a pending request that is not a completion leaves every completion accounted for. */
  lemma {:induction false} OtherCorrelates(c: Config, s: Client, id: nat)
    requires Correlated(c, s) && id in s.pending && !s.pending[id].kind.Completion?
    ensures Correlated(c, s.(pending := s.pending - {id}))
  {
    RemovedSmaller(s.pending, id);
  }

  lemma {:induction false} RespondedOther(c: Config, s: Client, id: nat, failed: bool, result: Result, now: nat)
    requires id in s.pending && !s.pending[id].kind.Completion?
    ensures SameLedger(s.(pending := s.pending - {id}), Responded(c, s, id, failed, result, now).client)
  {
  }

  lemma {:induction false} RespondedCompletion(c: Config, s: Client, id: nat, failed: bool, result: Result, now: nat)
    requires id in s.pending && s.pending[id].kind.Completion? && s.pending[id].generation == c.generation
    ensures Responded(c, s, id, failed, result, now).client
            == Answered(s.(pending := s.pending - {id}), id, s.pending[id].kind.request,
                        if now >= s.pending[id].deadline || failed then [] else result.items)
  {
  }

  lemma {:induction false} RespondedCorrelates(c: Config, s: Client, id: nat, failed: bool, result: Result, now: nat)
    requires Correlated(c, s)
    ensures Correlated(c, Responded(c, s, id, failed, result, now).client)
  {
    if id in s.pending {
      if s.pending[id].kind.Completion? {
        AnsweredCorrelates(c, s, id, if now >= s.pending[id].deadline || failed then [] else result.items);
        RespondedCompletion(c, s, id, failed, result, now);
      } else {
        OtherCorrelates(c, s, id);
        RespondedOther(c, s, id, failed, result, now);
        SameLedgerCorrelates(c, s.(pending := s.pending - {id}), Responded(c, s, id, failed, result, now).client);
      }
    }
  }

  lemma {:induction false} HandledOther(c: Config, s: Client, m: Inbound, now: nat)
    requires !m.Response? || m.id.None?
    ensures SameLedger(s, Handled(c, s, m, now).client)
  {
  }

  lemma {:induction false} HandledCorrelates(c: Config, s: Client, m: Inbound, now: nat)
    requires Correlated(c, s)
    ensures Correlated(c, Handled(c, s, m, now).client)
  {
    if m.Response? && m.id.Some? {
      RespondedCorrelates(c, s, m.id.value, m.failed, m.result, now);
    } else {
      HandledOther(c, s, m, now);
      SameLedgerCorrelates(c, s, Handled(c, s, m, now).client);
    }
  }

  lemma {:induction false} HandledAllCorrelates(c: Config, s: Client, messages: seq<Inbound>, now: nat)
    requires Correlated(c, s)
    ensures Correlated(c, HandledAll(c, s, messages, now).client)
    decreases |messages|
  {
    if messages != [] {
      HandledCorrelates(c, s, messages[0], now);
      var step := Handled(c, s, messages[0], now);
      if step.ok {
        HandledAllCorrelates(c, step.client, messages[1..], now);
      }
    }
  }

  lemma {:induction false} ExpiredAllCorrelates(c: Config, s: Client, ids: seq<nat>)
    requires NoRepeats(ids) && forall id | id in ids :: id in s.pending
    requires Correlated(c, s)
    ensures Correlated(c, ExpiredAll(s, ids).client)
    decreases |ids|
  {
    if ids != [] {
      var id := ids[0];
      if s.pending[id].kind.Completion? {
        AnsweredCorrelates(c, s, id, []);
        ExpiredAllCorrelates(c, Answered(s.(pending := s.pending - {id}), id, s.pending[id].kind.request, []),
            ids[1..]);
      } else {
        OtherCorrelates(c, s, id);
      }
    }
  }

  lemma {:induction false} ExpiredAllRemoves(s: Client, ids: seq<nat>)
    requires NoRepeats(ids) && (forall id | id in ids :: id in s.pending) && ExpiredAll(s, ids).ok
    ensures forall id | id in ExpiredAll(s, ids).client.pending ::
            id in s.pending && id !in ids && ExpiredAll(s, ids).client.pending[id] == s.pending[id]
    decreases |ids|
  {
    if ids != [] {
      ExpiredAllRemoves(Answered(s.(pending := s.pending - {ids[0]}), ids[0], s.pending[ids[0]].kind.request, []),
          ids[1..]);
    }
  }

  lemma {:induction false} ClosedAllSameLedger(c: Config, s: Client, ids: seq<DocumentId>)
    requires NoRepeats(ids) && forall id | id in ids :: id in s.documents
    ensures SameLedger(s, ClosedAll(c, s, ids).client)
    decreases |ids|
  {
    if ids != [] && Closed(c, s, ids[0]).ok {
      ClosedAllSameLedger(c, Closed(c, s, ids[0]).client, ids[1..]);
    }
  }

  lemma {:induction false} SyncedAllSameLedger(c: Config, s: Client, ids: seq<DocumentId>,
                                               desired: map<DocumentId, DocumentState>)
    requires forall id | id in ids :: id in desired
    ensures SameLedger(s, SyncedAll(c, s, ids, desired).client)
    decreases |ids|
  {
    if ids != [] && SyncedOne(c, s, desired[ids[0]]).ok {
      SyncedAllSameLedger(c, SyncedOne(c, s, desired[ids[0]]).client, ids[1..], desired);
    }
  }

  lemma {:induction false} ReconciledCorrelates(c: Config, s: Client, list: seq<DocumentState>)
    requires Correlated(c, s)
    ensures Correlated(c, Reconciled(c, s, list).client)
  {
    var desired := Desired(list);
    ClosedAllSameLedger(c, s, ToClose(s.documents, desired));
    var step := ClosedAll(c, s, ToClose(s.documents, desired));
    if step.ok {
      SyncedAllSameLedger(c, step.client, Ascending(desired.Keys), desired);
    }
    SameLedgerCorrelates(c, s, Reconciled(c, s, list).client);
  }

  lemma {:induction false} FlushedCorrelates(c: Config, s: Client, answers: seq<SendOutcome>)
    requires Correlated(c, s)
    ensures Correlated(c, Flushed(s, answers).client) && Flushed(s, answers).client.pending == s.pending
    decreases |s.outbox|
  {
    SameLedgerCorrelates(c, s, Flushed(s, answers).client) by {
      FlushedSameLedger(s, answers);
    }
    FlushedSameLedger(s, answers);
  }

  lemma {:induction false} FlushedSameLedger(s: Client, answers: seq<SendOutcome>)
    ensures SameLedger(s, Flushed(s, answers).client)
    decreases |s.outbox|
  {
    if s.outbox != [] && answers != [] && answers[0].Sent? {
      FlushedSameLedger(s.(outbox := s.outbox[1..], sent := s.sent + [s.outbox[0]]), answers[1..]);
    }
  }

  /** No request that is still pending has run out. */
  predicate Timely(s: Client, now: nat) {
    forall id | id in s.pending :: now < s.pending[id].deadline
  }

  lemma {:induction false} ExpiredTimely(s: Client, now: nat)
    requires ExpiredAll(s, Expired(s.pending, now)).ok
    ensures Timely(ExpiredAll(s, Expired(s.pending, now)).client, now)
  {
    ExpiredAllRemoves(s, Expired(s.pending, now));
  }

  /** A poll keeps the correlation; one that succeeds leaves no request that has run out. */
  lemma {:induction false} PolledCorrelates(c: Config, s: Client, p: Poll)
    requires Correlated(c, s)
    ensures Correlated(c, Polled(c, s, p).client)
    ensures Polled(c, s, p).ok ==> Timely(Polled(c, s, p).client, p.now)
  {
    var flushed := FlushedIf(s, p.writesAllowed, p.before);
    FlushedCorrelates(c, s, p.before);
    HandledAllCorrelates(c, flushed.client, Batch(p), p.now);
    var handled := HandledAll(c, flushed.client, Batch(p), p.now);
    ReconciledCorrelates(c, handled.client, p.desired);
    var synchronized := Synchronized(c, handled.client, p);
    CheckedCorrelates(c, synchronized.client, p.now);
    FlushedCorrelates(c, Checked(synchronized.client, p.now).client, p.after);
  }

  lemma {:induction false} CheckedCorrelates(c: Config, s: Client, now: nat)
    requires Correlated(c, s)
    ensures Correlated(c, Checked(s, now).client)
    ensures Checked(s, now).ok ==> Timely(Checked(s, now).client, now)
  {
    ExpiredAllCorrelates(c, s, Expired(s.pending, now));
    if Checked(s, now).ok {
      ExpiredTimely(s, now);
    }
  }

  lemma {:induction false} DrainedCorrelates(c: Config, s: Client)
    requires Correlated(c, s)
    ensures Correlated(c, Drained(s)) && Drained(s).completions == []
  {
    assert Responses(Drained(s)) == Responses(s);
  }

  /** One more request is pending, under the next identifier. */
  predicate Adds(c: Config, s: Client, s': Client, kind: Kind, deadline: nat) {
    && s'.nextId == s.nextId + 1 && s'.pending == s.pending[s.nextId := Pending(c.generation, kind, deadline)]
    && s'.issued == (if kind.Completion? then s.issued[s.nextId := kind.request] else s.issued)
    && s'.answered == s.answered && s'.completions == s.completions && s'.delivered == s.delivered
  }

  lemma {:induction false} AddsPending(c: Config, s: Client, s': Client, kind: Kind, deadline: nat)
    requires PendingKnown(c, s) && Settled(s) && Adds(c, s, s', kind, deadline)
    ensures PendingKnown(c, s') && Settled(s')
  {
  }

  lemma {:induction false} AddsAnswers(c: Config, s: Client, s': Client, kind: Kind, deadline: nat)
    requires AnswersMatch(s) && Settled(s) && Adds(c, s, s', kind, deadline)
    ensures AnswersMatch(s')
  {
    assert Responses(s') == Responses(s);
  }

  lemma {:induction false} AddsCount(c: Config, s: Client, s': Client, kind: Kind, deadline: nat)
    requires Adds(c, s, s', kind, deadline) && |s.pending| < MAX_PENDING_REQUESTS && s.completions == []
    ensures |s'.pending| + |s'.completions| <= MAX_PENDING_REQUESTS
  {
    assert s'.pending.Keys == s.pending.Keys + {s.nextId};
  }

  /** A request, accepted or not, keeps the correlation as long as earlier responses were taken. */
  lemma {:induction false} RequestedCorrelates(c: Config, s: Client, kind: Kind, deadline: nat)
    requires Correlated(c, s) && s.completions == []
    ensures Correlated(c, Requested(c, s, kind, deadline).client)
    ensures Requested(c, s, kind, deadline).client.completions == []
  {
    var s' := Requested(c, s, kind, deadline).client;
    if |s.pending| < MAX_PENDING_REQUESTS {
      assert Adds(c, s, s', kind, deadline);
      AddsPending(c, s, s', kind, deadline);
      AddsAnswers(c, s, s', kind, deadline);
      AddsCount(c, s, s', kind, deadline);
    } else {
      assert s' == s;
    }
  }

  /** The request a completion asks for. */
  function Wanted(d: DocumentState, position: nat, sequence: nat): CompletionRequest {
    CompletionRequest(sequence, d.id, d.path, d.version, position)
  }

  /** A completion request is refused and pending nevertheless exactly when only queueing refused it. */
  lemma {:induction false} RefusedButIssued(c: Config, s: Client, d: DocumentState, position: nat, sequence: nat,
                                            now: nat)
    requires Correlated(c, s)
    ensures var step, request := CompletionRequested(c, s, d, position, sequence, now), Wanted(d, position, sequence);
      && (!step.ok && s.nextId in step.client.pending <==>
            && s.phase == Ready && d.id in s.documents && s.documents[d.id] == Known(d)
               && |s.pending| < MAX_PENDING_REQUESTS
            && (|s.outbox| >= MAX_PROTOCOL_OUTBOX || !c.fits(Request(s.nextId, Completion(request)))))
      && (s.nextId in step.client.pending ==>
            && step.client.issued == s.issued[s.nextId := request]
            && step.client.pending[s.nextId] == Pending(c.generation, Completion(request), now + COMPLETION_DEADLINE))
      && (s.nextId !in step.client.pending ==> step.client == s)
  {
    assert s.nextId !in s.pending;
  }

  /** What a request that is accepted leaves: it is pending under the next identifier, and queued last. */
  predicate Asked(c: Config, s: Client, s': Client, kind: Kind, deadline: nat) {
    && s'.nextId == s.nextId + 1 && s'.pending == s.pending[s.nextId := Pending(c.generation, kind, deadline)]
    && s'.queued == s.queued + [Request(s.nextId, kind)] && s'.outbox == s.outbox + [Request(s.nextId, kind)]
    && s'.phase == s.phase && s'.documents == s.documents
  }

  /** The message can be queued. */
  ghost predicate Queueable(c: Config, s: Client, m: Message) {
    |s.outbox| < MAX_PROTOCOL_OUTBOX && c.fits(m)
  }

  /** A completion request is accepted exactly for a document the server knows as it is, while there is room. */
  lemma {:induction false} AskedExactly(c: Config, s: Client, d: DocumentState, position: nat, sequence: nat, now: nat)
    ensures var step, kind := CompletionRequested(c, s, d, position, sequence, now),
                              Completion(Wanted(d, position, sequence));
      && (step.ok <==> && s.phase == Ready && d.id in s.documents && s.documents[d.id] == Known(d)
                       && |s.pending| < MAX_PENDING_REQUESTS && Queueable(c, s, Request(s.nextId, kind)))
      && (step.ok ==> Asked(c, s, step.client, kind, now + 3_000))
  {
  }

  /** A reload is asked for exactly when the server is ready and none is pending; it fails exactly without room. */
  lemma {:induction false} ReloadExactly(c: Config, s: Client, now: nat)
    ensures var step := ReloadRequested(c, s, now);
      var wanted := s.phase == Ready && forall id | id in s.pending :: !s.pending[id].kind.Reload?;
      if !wanted then step == Step(s, true)
      else
        && (step.ok <==> |s.pending| < MAX_PENDING_REQUESTS && Queueable(c, s, Request(s.nextId, Reload)))
        && (step.ok ==> Asked(c, s, step.client, Reload, now + 30_000))
  {
  }

  /** The server's answer to the initialization: the client is ready and says so exactly when it can accept it. */
  lemma {:induction false} InitializedExactly(c: Config, s: Client, m: Inbound, now: nat)
    requires m.Response? && m.id.Some? && m.id.value in s.pending && s.phase == Initializing
    requires s.pending[m.id.value] == Pending(c.generation, Initialize, s.pending[m.id.value].deadline)
    ensures var step := Handled(c, s, m, now);
      && (step.ok <==> !m.failed && m.result.acceptable && Queueable(c, s, Initialized))
      && (step.ok ==> step.client == s.(phase := Ready, pending := s.pending - {m.id.value},
                                        queued := s.queued + [Initialized], outbox := s.outbox + [Initialized]))
  {
  }

  // ----- Deadlines bound the wait -----

  /** Requests leave the pending map but never change in it. */
  predicate Shrinks(s: Client, s': Client) {
    s'.issued == s.issued && forall id | id in s'.pending :: id in s.pending && s'.pending[id] == s.pending[id]
  }

  lemma {:induction false} HandledAllShrinks(c: Config, s: Client, messages: seq<Inbound>, now: nat)
    ensures Shrinks(s, HandledAll(c, s, messages, now).client)
    decreases |messages|
  {
    if messages != [] {
      HandledShrinks(c, s, messages[0], now);
      var step := Handled(c, s, messages[0], now);
      if step.ok {
        HandledAllShrinks(c, step.client, messages[1..], now);
      }
    }
  }

  lemma {:induction false} HandledShrinks(c: Config, s: Client, m: Inbound, now: nat)
    ensures Shrinks(s, Handled(c, s, m, now).client)
  {
    if m.Response? && m.id.Some? && m.id.value in s.pending && !s.pending[m.id.value].kind.Completion? {
      RespondedOther(c, s, m.id.value, m.failed, m.result, now);
    }
  }

  lemma {:induction false} ExpiredAllIssued(s: Client, ids: seq<nat>)
    requires NoRepeats(ids) && forall id | id in ids :: id in s.pending
    ensures ExpiredAll(s, ids).client.issued == s.issued
    decreases |ids|
  {
    if ids != [] && s.pending[ids[0]].kind.Completion? {
      ExpiredAllIssued(Answered(s.(pending := s.pending - {ids[0]}), ids[0], s.pending[ids[0]].kind.request, []),
          ids[1..]);
    }
  }

  lemma {:induction false} ReconciledSameLedger(c: Config, s: Client, list: seq<DocumentState>)
    ensures SameLedger(s, Reconciled(c, s, list).client)
  {
    var desired := Desired(list);
    ClosedAllSameLedger(c, s, ToClose(s.documents, desired));
    var step := ClosedAll(c, s, ToClose(s.documents, desired));
    if step.ok {
      SyncedAllSameLedger(c, step.client, Ascending(desired.Keys), desired);
    }
  }

  lemma {:induction false} PolledShrinks(c: Config, s: Client, p: Poll)
    requires Polled(c, s, p).ok
    ensures Shrinks(s, Polled(c, s, p).client)
  {
    var flushed := FlushedIf(s, p.writesAllowed, p.before);
    FlushedSameLedger(s, p.before);
    HandledAllShrinks(c, flushed.client, Batch(p), p.now);
    var handled := HandledAll(c, flushed.client, Batch(p), p.now);
    ReconciledSameLedger(c, handled.client, p.desired);
    var synchronized := Synchronized(c, handled.client, p);
    CheckedShrinks(synchronized.client, p.now);
    FlushedSameLedger(Checked(synchronized.client, p.now).client, p.after);
  }

  lemma {:induction false} CheckedShrinks(s: Client, now: nat)
    requires Checked(s, now).ok
    ensures Shrinks(s, Checked(s, now).client)
  {
    ExpiredAllIssued(s, Expired(s.pending, now));
    ExpiredAllRemoves(s, Expired(s.pending, now));
  }

  /** Once a poll at or after its deadline succeeds, a request has been answered. */
  lemma {:induction false} AnsweredByDeadline(c: Config, s: Client, p: Poll, id: nat)
    requires Correlated(c, s) && Polled(c, s, p).ok
    requires id in s.issued && (id in s.pending ==> s.pending[id].deadline <= p.now)
    ensures id in Polled(c, s, p).client.answered
  {
    PolledCorrelates(c, s, p);
    PolledShrinks(c, s, p);
  }

  // ----- A response is handed over, and no request is given up early -----

  predicate AnswersTo(m: Inbound, id: nat) {
    m.Response? && m.id == Some(id)
  }

  /** Handling a message takes a request out of the pending map exactly when it answers it, and only adds responses. */
  lemma {:induction false} HandledPending(c: Config, s: Client, m: Inbound, now: nat, id: nat)
    requires Correlated(c, s) && id in s.pending
    ensures var s' := Handled(c, s, m, now).client;
      && (id in s'.pending <==> !AnswersTo(m, id)) && s.completions <= s'.completions
  {
    hide PublishedOne, Enqueue, Responded, Correlated;
    if m.Response? && m.id.Some? {
      if m.id.value in s.pending {
        RespondedPending(c, s, m.id.value, m.failed, m.result, now);
      } else {
        NotAwaited(c, s, m.id.value, m.failed, m.result, now);
      }
    } else {
      HandledOther(c, s, m, now);
    }
  }

  lemma {:induction false} NotAwaited(c: Config, s: Client, id: nat, failed: bool, result: Result, now: nat)
    requires id !in s.pending
    ensures Responded(c, s, id, failed, result, now) == Step(s, true)
  {
  }

  lemma {:induction false} RespondedPending(c: Config, s: Client, id: nat, failed: bool, result: Result, now: nat)
    requires Correlated(c, s) && id in s.pending
    ensures var s' := Responded(c, s, id, failed, result, now).client;
      s'.pending == s.pending - {id} && s.completions <= s'.completions
  {
    hide Enqueue, Responded;
    if s.pending[id].kind.Completion? {
      RespondedCompletion(c, s, id, failed, result, now);
      AnsweredCorrelates(c, s, id, if now >= s.pending[id].deadline || failed then [] else result.items);
    } else {
      RespondedOther(c, s, id, failed, result, now);
    }
  }

  lemma {:induction false} HandledAllPending(c: Config, s: Client, messages: seq<Inbound>, now: nat, id: nat)
    requires Correlated(c, s) && id in s.pending && HandledAll(c, s, messages, now).ok
    ensures var s' := HandledAll(c, s, messages, now).client;
      id in s'.pending <==> forall i | 0 <= i < |messages| :: !AnswersTo(messages[i], id)
    decreases |messages|
  {
    hide Handled, Correlated, AnswersTo;
    if messages != [] {
      var step, rest := Handled(c, s, messages[0], now), messages[1..];
      HandledPending(c, s, messages[0], now, id);
      HandledCorrelates(c, s, messages[0], now);
      HandledShrinks(c, s, messages[0], now);
      if id in step.client.pending {
        HandledAllPending(c, step.client, rest, now, id);
        assert forall i | 0 < i < |messages| :: messages[i] == rest[i - 1];
      } else {
        HandledAllShrinks(c, step.client, rest, now);
      }
    }
  }

  lemma {:induction false} HandledAllKeepsResponses(c: Config, s: Client, messages: seq<Inbound>, now: nat)
    requires Correlated(c, s)
    ensures s.completions <= HandledAll(c, s, messages, now).client.completions
    decreases |messages|
  {
    hide Handled, Correlated;
    if messages != [] {
      HandledKeepsResponses(c, s, messages[0], now);
      HandledCorrelates(c, s, messages[0], now);
      var step := Handled(c, s, messages[0], now);
      if step.ok {
        HandledAllKeepsResponses(c, step.client, messages[1..], now);
      }
    }
  }

  lemma {:induction false} HandledKeepsResponses(c: Config, s: Client, m: Inbound, now: nat)
    requires Correlated(c, s)
    ensures s.completions <= Handled(c, s, m, now).client.completions
  {
    hide PublishedOne, Enqueue;
    if m.Response? && m.id.Some? && m.id.value in s.pending {
      HandledPending(c, s, m, now, m.id.value);
    } else {
      NothingHandled(c, s, m, now);
    }
  }

  lemma {:induction false} NothingHandled(c: Config, s: Client, m: Inbound, now: nat)
    requires m.Response? && m.id.Some? ==> m.id.value !in s.pending
    ensures SameLedger(s, Handled(c, s, m, now).client)
  {
    if !m.Response? || m.id.None? {
      HandledOther(c, s, m, now);
    }
  }

  /** What a completion request is answered with: the items of an accepted response in time, and otherwise none. */
  function Given(pending: Pending, m: Inbound, now: nat): seq<string>
    requires m.Response?
  {
    if now >= pending.deadline || m.failed then [] else m.result.items
  }

  lemma {:induction false} HandledResponse(c: Config, s: Client, m: Inbound, now: nat, id: nat)
    requires Correlated(c, s) && id in s.pending && s.pending[id].kind.Completion? && AnswersTo(m, id)
    ensures var step := Handled(c, s, m, now);
      && step.ok
      && step.client.completions == s.completions + [CompletionResponse(s.issued[id], Given(s.pending[id], m, now))]
  {
    RespondedCompletion(c, s, id, m.failed, m.result, now);
    AnsweredCorrelates(c, s, id, Given(s.pending[id], m, now));
  }

  /** Other messages leave a waiting request as it is. */
  lemma {:induction false} HandledWaits(c: Config, s: Client, m: Inbound, now: nat, id: nat)
    requires Correlated(c, s) && id in s.pending && !AnswersTo(m, id)
    ensures var s' := Handled(c, s, m, now).client;
      id in s'.pending && s'.pending[id] == s.pending[id] && s'.issued == s.issued
  {
    hide Handled, Correlated, AnswersTo;
    HandledPending(c, s, m, now, id);
    HandledShrinks(c, s, m, now);
  }

  /** The first response of a batch to a waiting completion request is handed over as its answer. */
  lemma {:induction false} ResponseHandedOver(c: Config, s: Client, messages: seq<Inbound>, now: nat, i: nat, id: nat)
    requires Correlated(c, s) && id in s.pending && s.pending[id].kind.Completion?
    requires HandledAll(c, s, messages, now).ok && i < |messages| && AnswersTo(messages[i], id)
    requires forall j | 0 <= j < i :: !AnswersTo(messages[j], id)
    ensures id in s.issued
    ensures CompletionResponse(s.issued[id], Given(s.pending[id], messages[i], now))
            in HandledAll(c, s, messages, now).client.completions
    decreases |messages|
  {
    hide Handled;
    var step, rest := Handled(c, s, messages[0], now), messages[1..];
    HandledCorrelates(c, s, messages[0], now);
    if i == 0 {
      HandledResponse(c, s, messages[0], now, id);
      HandledAllKeepsResponses(c, step.client, rest, now);
      var given := CompletionResponse(s.issued[id], Given(s.pending[id], messages[0], now));
      assert step.client.completions[|s.completions|] == given;
      assert HandledAll(c, step.client, rest, now).client.completions[|s.completions|] == given;
    } else {
      HandledWaits(c, s, messages[0], now, id);
      assert forall j | 0 <= j < i - 1 :: rest[j] == messages[j + 1];
      ResponseHandedOver(c, step.client, rest, now, i - 1, id);
    }
  }

  lemma {:induction false} ExpiredAllWaits(c: Config, s: Client, ids: seq<nat>, id: nat)
    requires NoRepeats(ids) && forall x | x in ids :: x in s.pending
    requires Correlated(c, s) && ExpiredAll(s, ids).ok
    ensures s.completions <= ExpiredAll(s, ids).client.completions
    ensures id in ExpiredAll(s, ids).client.pending <==> id in s.pending && id !in ids
    decreases |ids|
  {
    hide Correlated;
    if ids != [] {
      var first := ids[0];
      AnsweredCorrelates(c, s, first, []);
      ExpiredAllWaits(c, Answered(s.(pending := s.pending - {first}), first, s.pending[first].kind.request, []),
          ids[1..], id);
    }
  }

  /** Deadlines take exactly the requests that have run out, and keep the responses. */
  lemma {:induction false} CheckedExactly(c: Config, s: Client, now: nat, id: nat)
    requires Correlated(c, s) && Checked(s, now).ok
    ensures s.completions <= Checked(s, now).client.completions
    ensures id in Checked(s, now).client.pending <==> id in s.pending && now < s.pending[id].deadline
  {
    hide Correlated, ExpiredAll;
    ExpiredAllWaits(c, s, Expired(s.pending, now), id);
  }

  /** The state in which a poll handles its messages, and the one in which it checks the deadlines. */
  lemma {:induction false} PolledLedger(c: Config, s: Client, p: Poll) returns (flushed: Client, synchronized: Client)
    requires Correlated(c, s) && Polled(c, s, p).ok
    ensures SameLedger(s, flushed) && Correlated(c, flushed) && HandledAll(c, flushed, Batch(p), p.now).ok
    ensures SameLedger(HandledAll(c, flushed, Batch(p), p.now).client, synchronized) && Correlated(c, synchronized)
    ensures Checked(synchronized, p.now).ok
    ensures SameLedger(Checked(synchronized, p.now).client, Polled(c, s, p).client)
  {
    hide Flushed, HandledAll, Reconciled, Checked, Correlated, SameLedger, Batch;
    flushed := FlushedIf(s, p.writesAllowed, p.before).client;
    SameLedgerReflexive(s);
    FlushedSameLedger(s, p.before);
    SameLedgerCorrelates(c, s, flushed);
    var handled := HandledAll(c, flushed, Batch(p), p.now);
    HandledAllCorrelates(c, flushed, Batch(p), p.now);
    SameLedgerReflexive(handled.client);
    ReconciledSameLedger(c, handled.client, p.desired);
    synchronized := Synchronized(c, handled.client, p).client;
    SameLedgerCorrelates(c, handled.client, synchronized);
    SameLedgerReflexive(Checked(synchronized, p.now).client);
    FlushedSameLedger(Checked(synchronized, p.now).client, p.after);
  }

  lemma {:induction false} SameLedgerReflexive(s: Client)
    ensures SameLedger(s, s)
  {
  }

  /**
   * After a poll that succeeds, a request that was waiting still waits exactly when no message of the batch answers
   * it and its deadline has not come: none is forgotten, and none is given up early.
   */
  lemma {:induction false} PolledWaitsExactly(c: Config, s: Client, p: Poll, id: nat)
    requires Correlated(c, s) && Polled(c, s, p).ok && id in s.pending
    ensures id in Polled(c, s, p).client.pending
            <==> p.now < s.pending[id].deadline && forall i | 0 <= i < |Batch(p)| :: !AnswersTo(Batch(p)[i], id)
  {
    hide Correlated, HandledAll, Checked, Polled, Batch, AnswersTo;
    var flushed, synchronized := PolledLedger(c, s, p);
    HandledAllPending(c, flushed, Batch(p), p.now, id);
    HandledAllShrinks(c, flushed, Batch(p), p.now);
    CheckedExactly(c, synchronized, p.now, id);
  }

  /** A poll that succeeds hands over the first response of its batch to each waiting completion request. */
  lemma {:induction false} PolledHandsOver(c: Config, s: Client, p: Poll, i: nat, id: nat)
    requires Correlated(c, s) && Polled(c, s, p).ok && id in s.pending && s.pending[id].kind.Completion?
    requires i < |Batch(p)| && AnswersTo(Batch(p)[i], id) && forall j | 0 <= j < i :: !AnswersTo(Batch(p)[j], id)
    ensures id in s.issued
    ensures CompletionResponse(s.issued[id], Given(s.pending[id], Batch(p)[i], p.now))
            in Polled(c, s, p).client.completions
  {
    hide Correlated, HandledAll, Checked, Polled, Batch, AnswersTo, Given;
    var flushed, synchronized := PolledLedger(c, s, p);
    ResponseHandedOver(c, flushed, Batch(p), p.now, i, id);
    CheckedExactly(c, synchronized, p.now, id);
  }

  // ----- Each request of the server is replied to -----

  /** The replies among some messages. */
  function Replies(messages: seq<Message>): seq<Message> {
    if messages == [] then []
    else
      var init, last := messages[..|messages| - 1], messages[|messages| - 1];
      Replies(init) + (if last.Reply? then [last] else [])
  }

  /** The replies that requests of the server call for, in their order. */
  function Owed(messages: seq<Inbound>): seq<Message>
    decreases |messages|
  {
    if messages == [] then []
    else
      var first := messages[0];
      (if first.ServerRequest? && first.reply.Some? then [Reply(first.reply.value, first.supported)] else [])
      + Owed(messages[1..])
  }

  lemma {:induction false} RepliesNext(messages: seq<Message>, m: Message)
    ensures Replies(messages + [m]) == Replies(messages) + (if m.Reply? then [m] else [])
  {
    assert (messages + [m])[..|messages|] == messages;
  }

  lemma {:induction false} HandledReplies(c: Config, s: Client, m: Inbound, now: nat)
    requires Handled(c, s, m, now).ok
    ensures Replies(Handled(c, s, m, now).client.queued) == Replies(s.queued) + Owed([m])
  {
    hide PublishedOne, Replies, Responded;
    RepliesNext(s.queued, Answer(s, m));
    assert Owed([m][1..]) == [];
    HandledQueues(c, s, m, now);
    if m.PublishDiagnostics? {
      PublishedDocuments(c, s, m);
    }
  }

  lemma {:induction false} HandledAllReplies(c: Config, s: Client, messages: seq<Inbound>, now: nat)
    requires HandledAll(c, s, messages, now).ok
    ensures Replies(HandledAll(c, s, messages, now).client.queued) == Replies(s.queued) + Owed(messages)
    decreases |messages|
  {
    hide Handled, Replies;
    if messages != [] {
      var step := Handled(c, s, messages[0], now);
      HandledReplies(c, s, messages[0], now);
      HandledAllReplies(c, step.client, messages[1..], now);
      assert Owed([messages[0]][1..]) == [];
    }
  }

  lemma {:induction false} ClosedAllReplies(c: Config, s: Client, ids: seq<DocumentId>)
    requires NoRepeats(ids) && forall id | id in ids :: id in s.documents
    ensures Replies(ClosedAll(c, s, ids).client.queued) == Replies(s.queued)
    decreases |ids|
  {
    hide Replies;
    if ids != [] {
      RepliesNext(s.queued, DidClose(Uri(c.root, s.documents[ids[0]].path)));
      if Closed(c, s, ids[0]).ok {
        ClosedAllReplies(c, Closed(c, s, ids[0]).client, ids[1..]);
      }
    }
  }

  lemma {:induction false} SyncedAllReplies(c: Config, s: Client, ids: seq<DocumentId>,
                                            desired: map<DocumentId, DocumentState>)
    requires forall id | id in ids :: id in desired
    ensures Replies(SyncedAll(c, s, ids, desired).client.queued) == Replies(s.queued)
    decreases |ids|
  {
    hide Replies;
    if ids != [] {
      var next := desired[ids[0]];
      RepliesNext(s.queued, DidOpen(Uri(c.root, next.path), next.version, next.text));
      RepliesNext(s.queued, DidChange(Uri(c.root, next.path), next.version, next.text));
      if SyncedOne(c, s, next).ok {
        SyncedAllReplies(c, SyncedOne(c, s, next).client, ids[1..], desired);
      }
    }
  }

  lemma {:induction false} ReconciledReplies(c: Config, s: Client, list: seq<DocumentState>)
    ensures Replies(Reconciled(c, s, list).client.queued) == Replies(s.queued)
  {
    hide Replies, ClosedAll, SyncedAll;
    var desired := Desired(list);
    ClosedAllReplies(c, s, ToClose(s.documents, desired));
    var step := ClosedAll(c, s, ToClose(s.documents, desired));
    if step.ok {
      SyncedAllReplies(c, step.client, Ascending(desired.Keys), desired);
    }
  }

  /** A poll that succeeds queues exactly the replies that the requests of its batch call for, in their order. */
  lemma {:induction false} PolledReplies(c: Config, s: Client, p: Poll)
    requires Polled(c, s, p).ok
    ensures Replies(Polled(c, s, p).client.queued) == Replies(s.queued) + Owed(Batch(p))
  {
    hide Flushed, HandledAll, Reconciled, Replies, ExpiredAll, Batch, Owed;
    var flushed := FlushedIf(s, p.writesAllowed, p.before).client;
    FlushedSameMirror(s, p.before);
    HandledAllReplies(c, flushed, Batch(p), p.now);
    var handled := HandledAll(c, flushed, Batch(p), p.now).client;
    ReconciledReplies(c, handled, p.desired);
    var synchronized := Synchronized(c, handled, p).client;
    ExpiredAllSameMirror(synchronized, Expired(synchronized.pending, p.now));
    FlushedSameMirror(Checked(synchronized, p.now).client, p.after);
  }

  // ----- When reconciling succeeds -----

  /** Every document that is no longer wanted under its path can be closed. */
  ghost predicate Closable(c: Config, documents: map<DocumentId, Synced>, desired: map<DocumentId, DocumentState>) {
    forall id | id in documents && Unwanted(documents, desired, id) ::
      c.fits(DidClose(Uri(c.root, documents[id].path)))
  }

  /** The server knows the document as it is, or can be told about it: as a new one, or as a newer version. */
  predicate Tellable(c: Config, documents: map<DocumentId, Synced>, next: DocumentState) {
    && next.version <= MAX_VERSION
    && (if next.id !in documents || documents[next.id].path != next.path
        then c.fits(DidOpen(Uri(c.root, next.path), next.version, next.text))
        else || documents[next.id] == Known(next)
             || (&& documents[next.id].version < next.version
                 && c.fits(DidChange(Uri(c.root, next.path), next.version, next.text))))
  }

  lemma {:induction false} AscendingLength(ids: set<nat>)
    ensures |Ascending(ids)| == |ids|
  {
    if ids != {} {
      AscendingLength(ids - {Least(ids)});
    }
  }

  lemma {:induction false} ClosedAllExactly(c: Config, s: Client, ids: seq<DocumentId>)
    requires NoRepeats(ids) && forall id | id in ids :: id in s.documents
    requires |s.outbox| + |ids| <= MAX_PROTOCOL_OUTBOX
    ensures ClosedAll(c, s, ids).ok <==> forall id | id in ids :: c.fits(DidClose(Uri(c.root, s.documents[id].path)))
    ensures var s' := ClosedAll(c, s, ids).client;
      ClosedAll(c, s, ids).ok ==> s'.documents == s.documents - (set id | id in ids)
                                  && |s'.outbox| == |s.outbox| + |ids|
    decreases |ids|
  {
    hide Forget;
    if ids != [] {
      var step, rest := Closed(c, s, ids[0]), ids[1..];
      assert forall id :: id in ids <==> id == ids[0] || id in rest;
      if step.ok {
        ClosedAllExactly(c, step.client, rest);
        assert s.documents - {ids[0]} - (set id | id in rest) == s.documents - (set id | id in ids);
      }
    } else {
      assert s.documents - (set id | id in ids) == s.documents;
    }
  }

  /** A document under its path is synchronized exactly when it is tellable and there is room. */
  lemma {:induction false} SyncedOneExactly(c: Config, s: Client, next: DocumentState)
    requires next.id in s.documents ==> s.documents[next.id].path == next.path
    requires |s.outbox| < MAX_PROTOCOL_OUTBOX
    ensures SyncedOne(c, s, next).ok <==> Tellable(c, s.documents, next)
    ensures SyncedOne(c, s, next).ok ==> |SyncedOne(c, s, next).client.outbox| <= |s.outbox| + 1
  {
    hide Forget;
  }

  lemma {:induction false} SyncedAllExactly(c: Config, s: Client, ids: seq<DocumentId>,
                                            desired: map<DocumentId, DocumentState>)
    requires NoRepeats(ids) && Aligned(s.documents, desired) && WellNamed(desired)
    requires |s.outbox| + |ids| <= MAX_PROTOCOL_OUTBOX && forall id | id in ids :: id in desired
    ensures SyncedAll(c, s, ids, desired).ok <==> forall id | id in ids :: Tellable(c, s.documents, desired[id])
    decreases |ids|
  {
    hide SyncedOne, Tellable;
    if ids != [] {
      var next, rest := desired[ids[0]], ids[1..];
      var step := SyncedOne(c, s, next);
      SyncedOneExactly(c, s, next);
      SyncedOneTells(c, s, next);
      assert forall id :: id in ids <==> id == ids[0] || id in rest;
      if step.ok {
        SyncedAllExactly(c, step.client, rest, desired);
        forall id | id in rest
          ensures Tellable(c, step.client.documents, desired[id]) <==> Tellable(c, s.documents, desired[id])
        {
          TellableElsewhere(c, s.documents, step.client.documents, desired[id]);
        }
      }
    }
  }

  lemma {:induction false} TellableElsewhere(c: Config, documents: map<DocumentId, Synced>,
                                             documents': map<DocumentId, Synced>, next: DocumentState)
    requires next.id in documents <==> next.id in documents'
    requires next.id in documents ==> documents[next.id] == documents'[next.id]
    ensures Tellable(c, documents, next) <==> Tellable(c, documents', next)
  {
  }

  predicate WellNamed(desired: map<DocumentId, DocumentState>) {
    forall id | id in desired :: desired[id].id == id
  }

  lemma {:induction false} ToCloseExactly(documents: map<DocumentId, Synced>, desired: map<DocumentId, DocumentState>)
    ensures forall id :: id in ToClose(documents, desired) <==> id in documents && Unwanted(documents, desired, id)
    ensures |ToClose(documents, desired)| <= |documents|
  {
    var unwanted := set id | id in documents.Keys && Unwanted(documents, desired, id);
    AscendingLength(unwanted);
    SmallerSet(unwanted, documents.Keys);
  }

  lemma {:induction false} SmallerSet(a: set<nat>, b: set<nat>)
    requires a <= b
    ensures |a| <= |b|
  {
    assert b == a + (b - a);
  }

  /**
   * When the outbox has room for a message about every document, reconciling succeeds exactly when every document
   * that must go can be closed, and every wanted one is known as it is, or can be opened or changed to a newer version.
   */
  lemma {:induction false} ReconciledExactly(c: Config, s: Client, list: seq<DocumentState>)
    requires |s.outbox| + |s.documents| + |Desired(list)| <= MAX_PROTOCOL_OUTBOX
    ensures Reconciled(c, s, list).ok
            <==> && Closable(c, s.documents, Desired(list))
                 && forall id | id in Desired(list) :: Tellable(c, s.documents, Desired(list)[id])
  {
    hide ClosedAll, SyncedAll, Desired, Ascending, Tellable;
    var desired := Desired(list);
    var ids, wanted := ToClose(s.documents, desired), Ascending(desired.Keys);
    DesiredListed(list);
    ToCloseExactly(s.documents, desired);
    ClosedAllExactly(c, s, ids);
    AscendingLength(desired.Keys);
    var step := ClosedAll(c, s, ids);
    if step.ok {
      SyncedAllExactly(c, step.client, wanted, desired);
      forall id | id in desired
        ensures Tellable(c, step.client.documents, desired[id]) <==> Tellable(c, s.documents, desired[id])
      {
        TellableClosed(c, s.documents, step.client.documents, desired, id);
      }
    }
  }

  /** Closing what is unwanted does not change what can be told. */
  lemma {:induction false} TellableClosed(c: Config, documents: map<DocumentId, Synced>,
                                          documents': map<DocumentId, Synced>,
                                          desired: map<DocumentId, DocumentState>, id: DocumentId)
    requires id in desired && desired[id].id == id
    requires id in documents' <==> id in documents && !Unwanted(documents, desired, id)
    requires id in documents' ==> documents'[id] == documents[id]
    ensures Tellable(c, documents', desired[id]) <==> Tellable(c, documents, desired[id])
  {
  }

  // ----- Diagnostics describe the mirrored text -----

  /** One set of diagnostics per document, for the version the server was last told. */
  predicate Current(s: Client) {
    && (forall i | 0 <= i < |s.diagnostics| ::
          && s.diagnostics[i].document in s.documents
          && s.diagnostics[i].path == s.documents[s.diagnostics[i].document].path
          && s.diagnostics[i].version == s.documents[s.diagnostics[i].document].version)
    && (forall i, j | 0 <= i < j < |s.diagnostics| :: s.diagnostics[i].document != s.diagnostics[j].document)
  }

  lemma {:induction false} ForgetKeeps(published: seq<Published>, id: DocumentId)
    ensures forall p | p in Forget(published, id) :: p in published && p.document != id
    ensures (forall i, j | 0 <= i < j < |published| :: published[i].document != published[j].document) ==>
              forall i, j | 0 <= i < j < |Forget(published, id)| ::
                  Forget(published, id)[i].document != Forget(published, id)[j].document
    ensures |Forget(published, id)| <= |published|
  {
    if published != [] {
      var init, last := published[..|published| - 1], published[|published| - 1];
      ForgetKeeps(init, id);
      assert forall p | p in init :: p in published;
      assert last in published;
    }
  }

  lemma {:induction false} CurrentWithout(s: Client, s': Client, id: DocumentId)
    requires Current(s) && s'.diagnostics == Forget(s.diagnostics, id)
    requires forall other | other in s.documents && other != id ::
            other in s'.documents && s'.documents[other] == s.documents[other]
    ensures Current(s') && forall i | 0 <= i < |s'.diagnostics| :: s'.diagnostics[i].document != id
  {
    ForgetKeeps(s.diagnostics, id);
    forall i | 0 <= i < |s'.diagnostics|
      ensures s'.diagnostics[i] in s.diagnostics && s'.diagnostics[i].document != id
    {
      assert s'.diagnostics[i] in Forget(s.diagnostics, id);
    }
  }

  lemma {:induction false} CurrentWith(s: Client, s': Client, kept: seq<Published>, p: Published)
    requires Current(s) && s'.documents == s.documents
    requires kept == s.diagnostics || (s.diagnostics != [] && kept == s.diagnostics[1..])
    requires s'.diagnostics == kept + [p]
    requires p.document in s.documents && p.path == s.documents[p.document].path
            && p.version == s.documents[p.document].version
    requires forall i | 0 <= i < |s.diagnostics| :: s.diagnostics[i].document != p.document
    ensures Current(s')
  {
  }

  lemma {:induction false} PublishedCurrent(c: Config, s: Client, uri: string, version: nat,
                                            diagnostics: Option<string>)
    requires Current(s)
    ensures Current(PublishedOne(c, s, uri, version, diagnostics))
  {
    var found := Find(c, s.documents, Ascending(s.documents.Keys), uri, version);
    if found.Some? && diagnostics.Some? {
      var id, s' := found.value, PublishedOne(c, s, uri, version, diagnostics);
      var others := s.(diagnostics := Forget(s.diagnostics, id));
      CurrentWithout(s, others, id);
      CurrentWith(others, s', s'.diagnostics[..|s'.diagnostics| - 1],
          Published(id, s.documents[id].path, version, diagnostics.value));
    }
  }

  lemma {:induction false} HandledCurrent(c: Config, s: Client, m: Inbound, now: nat)
    requires Current(s)
    ensures Current(Handled(c, s, m, now).client)
  {
    if m.PublishDiagnostics? {
      PublishedCurrent(c, s, m.uri, m.version, m.diagnostics);
    } else {
      HandledSameDiagnostics(c, s, m, now);
    }
  }

  lemma {:induction false} HandledSameDiagnostics(c: Config, s: Client, m: Inbound, now: nat)
    requires !m.PublishDiagnostics?
    ensures var s' := Handled(c, s, m, now).client; s'.diagnostics == s.diagnostics && s'.documents == s.documents
  {
  }

  lemma {:induction false} HandledAllCurrent(c: Config, s: Client, messages: seq<Inbound>, now: nat)
    requires Current(s)
    ensures Current(HandledAll(c, s, messages, now).client)
    decreases |messages|
  {
    if messages != [] {
      HandledCurrent(c, s, messages[0], now);
      var step := Handled(c, s, messages[0], now);
      if step.ok {
        HandledAllCurrent(c, step.client, messages[1..], now);
      }
    }
  }

  lemma {:induction false} ClosedAllCurrent(c: Config, s: Client, ids: seq<DocumentId>)
    requires NoRepeats(ids) && forall id | id in ids :: id in s.documents
    requires Current(s)
    ensures Current(ClosedAll(c, s, ids).client)
    decreases |ids|
  {
    if ids != [] {
      var step := Closed(c, s, ids[0]);
      if step.ok {
        CurrentWithout(s, step.client, ids[0]);
        ClosedAllCurrent(c, step.client, ids[1..]);
      }
    }
  }

  lemma {:induction false} SyncedOneCurrent(c: Config, s: Client, next: DocumentState)
    requires Current(s)
    ensures Current(SyncedOne(c, s, next).client)
  {
    var s' := SyncedOne(c, s, next).client;
    if s'.documents != s.documents && next.id in s.documents {
      CurrentWithout(s, s', next.id);
    }
  }

  lemma {:induction false} SyncedAllCurrent(c: Config, s: Client, ids: seq<DocumentId>,
                                            desired: map<DocumentId, DocumentState>)
    requires Current(s) && forall id | id in ids :: id in desired
    ensures Current(SyncedAll(c, s, ids, desired).client)
    decreases |ids|
  {
    if ids != [] {
      SyncedOneCurrent(c, s, desired[ids[0]]);
      var step := SyncedOne(c, s, desired[ids[0]]);
      if step.ok {
        SyncedAllCurrent(c, step.client, ids[1..], desired);
      }
    }
  }

  lemma {:induction false} ReconciledCurrent(c: Config, s: Client, list: seq<DocumentState>)
    requires Current(s)
    ensures Current(Reconciled(c, s, list).client)
  {
    var desired := Desired(list);
    ClosedAllCurrent(c, s, ToClose(s.documents, desired));
    var step := ClosedAll(c, s, ToClose(s.documents, desired));
    if step.ok {
      SyncedAllCurrent(c, step.client, Ascending(desired.Keys), desired);
    }
  }

  predicate SamePublished(s: Client, s': Client) {
    s'.documents == s.documents && s'.diagnostics == s.diagnostics
  }

  lemma {:induction false} FlushedSamePublished(s: Client, answers: seq<SendOutcome>)
    ensures SamePublished(s, Flushed(s, answers).client)
    decreases |s.outbox|
  {
    if s.outbox != [] && answers != [] && answers[0].Sent? {
      FlushedSamePublished(s.(outbox := s.outbox[1..], sent := s.sent + [s.outbox[0]]), answers[1..]);
    }
  }

  lemma {:induction false} ExpiredAllSamePublished(s: Client, ids: seq<nat>)
    requires NoRepeats(ids) && forall id | id in ids :: id in s.pending
    ensures SamePublished(s, ExpiredAll(s, ids).client)
    decreases |ids|
  {
    if ids != [] && s.pending[ids[0]].kind.Completion? {
      ExpiredAllSamePublished(Answered(s.(pending := s.pending - {ids[0]}), ids[0], s.pending[ids[0]].kind.request, []),
          ids[1..]);
    }
  }

  /** The diagnostics a poll hands over describe documents as the server was last told them. */
  lemma {:induction false} PolledCurrent(c: Config, s: Client, p: Poll)
    requires Current(s)
    ensures Current(Polled(c, s, p).client)
  {
    var flushed := FlushedIf(s, p.writesAllowed, p.before);
    FlushedSamePublished(s, p.before);
    HandledAllCurrent(c, flushed.client, Batch(p), p.now);
    var handled := HandledAll(c, flushed.client, Batch(p), p.now);
    ReconciledCurrent(c, handled.client, p.desired);
    var synchronized := Synchronized(c, handled.client, p);
    ExpiredAllSamePublished(synchronized.client, Expired(synchronized.client.pending, p.now));
    FlushedSamePublished(Checked(synchronized.client, p.now).client, p.after);
  }

  // ----- Queueing order -----

  lemma {:induction false} EnqueuedOrdered(c: Config, s: Client, m: Message)
    requires Ordered(s)
    ensures Ordered(Enqueue(c, s, m).client)
  {
    assert s.sent + (s.outbox + [m]) == s.sent + s.outbox + [m];
  }

  predicate SameQueue(s: Client, s': Client) {
    s'.sent == s.sent && s'.outbox == s.outbox && s'.queued == s.queued
  }

  lemma {:induction false} HandledOrdered(c: Config, s: Client, m: Inbound, now: nat)
    requires Ordered(s)
    ensures Ordered(Handled(c, s, m, now).client)
  {
    HandledEnqueues(c, s, m, now);
    EnqueuedOrdered(c, s, Answer(s, m));
  }

  lemma {:induction false} HandledEnqueues(c: Config, s: Client, m: Inbound, now: nat)
    ensures var s' := Handled(c, s, m, now).client;
      SameQueue(s, s') || SameQueue(Enqueue(c, s, Answer(s, m)).client, s')
  {
  }

  lemma {:induction false} HandledAllOrdered(c: Config, s: Client, messages: seq<Inbound>, now: nat)
    requires Ordered(s)
    ensures Ordered(HandledAll(c, s, messages, now).client)
    decreases |messages|
  {
    if messages != [] {
      HandledOrdered(c, s, messages[0], now);
      var step := Handled(c, s, messages[0], now);
      if step.ok {
        HandledAllOrdered(c, step.client, messages[1..], now);
      }
    }
  }

  lemma {:induction false} ClosedAllOrdered(c: Config, s: Client, ids: seq<DocumentId>)
    requires NoRepeats(ids) && forall id | id in ids :: id in s.documents
    requires Ordered(s)
    ensures Ordered(ClosedAll(c, s, ids).client)
    decreases |ids|
  {
    if ids != [] {
      EnqueuedOrdered(c, s, DidClose(Uri(c.root, s.documents[ids[0]].path)));
      var step := Closed(c, s, ids[0]);
      if step.ok {
        ClosedAllOrdered(c, step.client, ids[1..]);
      }
    }
  }

  lemma {:induction false} SyncedOneOrdered(c: Config, s: Client, next: DocumentState)
    requires Ordered(s)
    ensures Ordered(SyncedOne(c, s, next).client)
  {
    EnqueuedOrdered(c, s, DidOpen(Uri(c.root, next.path), next.version, next.text));
    EnqueuedOrdered(c, s, DidChange(Uri(c.root, next.path), next.version, next.text));
  }

  lemma {:induction false} SyncedAllOrdered(c: Config, s: Client, ids: seq<DocumentId>,
                                            desired: map<DocumentId, DocumentState>)
    requires Ordered(s) && forall id | id in ids :: id in desired
    ensures Ordered(SyncedAll(c, s, ids, desired).client)
    decreases |ids|
  {
    if ids != [] {
      SyncedOneOrdered(c, s, desired[ids[0]]);
      var step := SyncedOne(c, s, desired[ids[0]]);
      if step.ok {
        SyncedAllOrdered(c, step.client, ids[1..], desired);
      }
    }
  }

  lemma {:induction false} ReconciledOrdered(c: Config, s: Client, list: seq<DocumentState>)
    requires Ordered(s)
    ensures Ordered(Reconciled(c, s, list).client)
  {
    var desired := Desired(list);
    ClosedAllOrdered(c, s, ToClose(s.documents, desired));
    var step := ClosedAll(c, s, ToClose(s.documents, desired));
    if step.ok {
      SyncedAllOrdered(c, step.client, Ascending(desired.Keys), desired);
    }
  }

  lemma {:induction false} ExpiredAllSameQueue(s: Client, ids: seq<nat>)
    requires NoRepeats(ids) && forall id | id in ids :: id in s.pending
    ensures SameQueue(s, ExpiredAll(s, ids).client)
    decreases |ids|
  {
    if ids != [] && s.pending[ids[0]].kind.Completion? {
      ExpiredAllSameQueue(Answered(s.(pending := s.pending - {ids[0]}), ids[0], s.pending[ids[0]].kind.request, []),
          ids[1..]);
    }
  }

  /** What was sent is a beginning of what was queued; while polls succeed, the outbox is the rest. */
  lemma {:induction false} PolledOrdered(c: Config, s: Client, p: Poll)
    requires Ordered(s)
    ensures Polled(c, s, p).ok ==> Ordered(Polled(c, s, p).client)
    ensures Polled(c, s, p).client.sent <= Polled(c, s, p).client.queued
  {
    var flushed := FlushedIf(s, p.writesAllowed, p.before);
    FlushedOrdered(s, p.before);
    FlushedSameMirror(s, p.before);
    if flushed.ok {
      HandledAllOrdered(c, flushed.client, Batch(p), p.now);
      var handled := HandledAll(c, flushed.client, Batch(p), p.now);
      ReconciledOrdered(c, handled.client, p.desired);
      var synchronized := Synchronized(c, handled.client, p);
      CheckedOrdered(synchronized.client, p);
    }
  }

  lemma {:induction false} CheckedOrdered(s: Client, p: Poll)
    requires Ordered(s)
    ensures var checked := Checked(s, p.now).client;
      && Ordered(checked)
      && (FlushedIf(checked, p.writesAllowed, p.after).ok
         ==> Ordered(FlushedIf(checked, p.writesAllowed, p.after).client))
      && FlushedIf(checked, p.writesAllowed, p.after).client.sent
         <= FlushedIf(checked, p.writesAllowed, p.after).client.queued
  {
    var checked := Checked(s, p.now).client;
    ExpiredAllSameQueue(s, Expired(s.pending, p.now));
    FlushedOrdered(checked, p.after);
    FlushedSameMirror(checked, p.after);
  }

  // ----- Whole incarnations -----

  const INITIALIZE_DEADLINE := 30_000

  const EMPTY := Client(Initializing, 1, map[], [], map[], [], [], [], [], map[], [], [])

  /** A new incarnation asks the server to initialize. */
  function Begun(c: Config, now: nat): Step {
    Requested(c, EMPTY, Initialize, now + INITIALIZE_DEADLINE)
  }

  datatype Act =
    | Polling(poll: Poll)
    | Asking(document: DocumentState, position: nat, sequence: nat, now: nat)
    | Reloading(now: nat)

  /** A refused completion request leaves the incarnation running; a failed poll or reload ends it. */
  function Acted(c: Config, s: Client, a: Act): Step {
    match a
    case Polling(p) => var step := Polled(c, s, p); Step(Drained(step.client), step.ok)
    case Asking(d, position, sequence, now) => Step(CompletionRequested(c, s, d, position, sequence, now).client, true)
    case Reloading(now) => ReloadRequested(c, s, now)
  }

  function Ran(c: Config, s: Client, acts: seq<Act>): Step {
    if acts == [] then Step(s, true)
    else
      var before := Ran(c, s, acts[..|acts| - 1]);
      if before.ok then Acted(c, before.client, acts[|acts| - 1]) else before
  }

  predicate WellFed(acts: seq<Act>) {
    forall i | 0 <= i < |acts| && acts[i].Polling? :: PathsDiffer(acts[i].poll.desired)
  }

  /** Everything that holds between two acts. */
  ghost predicate Sound(c: Config, s: Client) {
    Mirrored(c, s) && Correlated(c, s) && s.completions == [] && Ordered(s)
  }

  lemma {:induction false} RequestedOrdered(c: Config, s: Client, kind: Kind, deadline: nat)
    requires Ordered(s)
    ensures Ordered(Requested(c, s, kind, deadline).client)
  {
    EnqueuedOrdered(c, s, Request(s.nextId, kind));
  }

  lemma {:induction false} RequestedSound(c: Config, s: Client, kind: Kind, deadline: nat)
    requires Sound(c, s)
    ensures Sound(c, Requested(c, s, kind, deadline).client)
  {
    RequestedMirrors(c, s, kind, deadline);
    RequestedCorrelates(c, s, kind, deadline);
    RequestedOrdered(c, s, kind, deadline);
  }

  lemma {:induction false} PolledSound(c: Config, s: Client, p: Poll)
    requires Sound(c, s) && PathsDiffer(p.desired)
    ensures var s' := Drained(Polled(c, s, p).client);
      && Mirrored(c, s') && Correlated(c, s') && s'.completions == [] && s'.sent <= s'.queued
      && (Polled(c, s, p).ok ==> Ordered(s'))
  {
    PolledMirrors(c, s, p);
    PolledCorrelates(c, s, p);
    PolledOrdered(c, s, p);
    DrainedCorrelates(c, Polled(c, s, p).client);
    NeutralKeeps(c, Polled(c, s, p).client, Drained(Polled(c, s, p).client), Exit);
  }

  /**
   * For any acts and any behaviour of server and transport: what is sent obeys document synchronization and is
   * a beginning of what is queued, the server will hold exactly the mirrored documents, every completion request
   * is pending or answered once; while nothing fails the outbox holds the rest of the queue.
   */
  lemma {:induction false} RunSound(c: Config, s: Client, acts: seq<Act>)
    requires Sound(c, s) && WellFed(acts)
    ensures Left(c, Ran(c, s, acts).client)
    ensures Ran(c, s, acts).ok ==> Sound(c, Ran(c, s, acts).client)
  {
    if acts != [] {
      var init, last := acts[..|acts| - 1], acts[|acts| - 1];
      assert WellFed(init);
      RunSound(c, s, init);
      var before := Ran(c, s, init);
      if before.ok {
        ActedSound(c, before.client, last);
      }
    } else {
      SoundLeft(c, s);
    }
  }

  /** What holds after an act that ended the incarnation. */
  ghost predicate Left(c: Config, s: Client) {
    Mirrored(c, s) && Correlated(c, s) && s.sent <= s.queued
  }

  lemma {:induction false} SoundLeft(c: Config, s: Client)
    requires Sound(c, s)
    ensures Left(c, s)
  {
  }

  lemma {:induction false} AskingSound(c: Config, s: Client, d: DocumentState, position: nat, sequence: nat, now: nat)
    requires Sound(c, s)
    ensures Sound(c, CompletionRequested(c, s, d, position, sequence, now).client)
  {
    RequestedSound(c, s, Completion(CompletionRequest(sequence, d.id, d.path, d.version, position)),
        now + COMPLETION_DEADLINE);
  }

  lemma {:induction false} ReloadingSound(c: Config, s: Client, now: nat)
    requires Sound(c, s)
    ensures Sound(c, ReloadRequested(c, s, now).client)
  {
    RequestedSound(c, s, Reload, now + RELOAD_DEADLINE);
  }

  lemma {:induction false} ActedSound(c: Config, s: Client, a: Act)
    requires Sound(c, s) && (a.Polling? ==> PathsDiffer(a.poll.desired))
    ensures Left(c, Acted(c, s, a).client)
    ensures Acted(c, s, a).ok ==> Sound(c, Acted(c, s, a).client)
  {
    match a {
      case Polling(p) => PolledSound(c, s, p);
      case Asking(d, position, sequence, now) =>
        AskingSound(c, s, d, position, sequence, now);
        SoundLeft(c, CompletionRequested(c, s, d, position, sequence, now).client);
      case Reloading(now) =>
        ReloadingSound(c, s, now);
        SoundLeft(c, ReloadRequested(c, s, now).client);
    }
  }

  lemma {:induction false} BeginSound(c: Config, now: nat)
    ensures Sound(c, Begun(c, now).client)
  {
    assert Served([]) == Some(map[]);
    RequestedSound(c, EMPTY, Initialize, now + INITIALIZE_DEADLINE);
  }

  /** What the server has received so far obeys document synchronization too. */
  lemma {:induction false} SentServed(messages: seq<Message>, sent: seq<Message>)
    requires Served(messages).Some? && sent <= messages
    ensures Served(sent).Some?
    decreases |messages|
  {
    if |sent| < |messages| {
      SentServed(messages[..|messages| - 1], sent);
    } else {
      assert sent == messages;
    }
  }

  // ----- A refused completion request is answered all the same -----

  /** What was pending under an identifier handed out before either stays as it was or has left. */
  predicate KeepsRequest(s: Client, s': Client, id: nat)
    requires id in s.issued
  {
    && id in s'.issued && s'.issued[id] == s.issued[id]
    && (id in s'.pending ==> id in s.pending && s'.pending[id] == s.pending[id])
  }

  lemma {:induction false} ActedKeepsRequest(c: Config, s: Client, a: Act, id: nat)
    requires Correlated(c, s) && id in s.issued && Acted(c, s, a).ok
    ensures KeepsRequest(s, Acted(c, s, a).client, id)
  {
    if a.Polling? {
      PolledShrinks(c, s, a.poll);
    }
  }

  lemma {:induction false} RanKeepsRequest(c: Config, s: Client, acts: seq<Act>, id: nat)
    requires Sound(c, s) && WellFed(acts) && id in s.issued && Ran(c, s, acts).ok
    ensures KeepsRequest(s, Ran(c, s, acts).client, id)
  {
    if acts != [] {
      var init := acts[..|acts| - 1];
      assert WellFed(init);
      RunSound(c, s, init);
      RanKeepsRequest(c, s, init, id);
      ActedKeepsRequest(c, Ran(c, s, init).client, acts[|acts| - 1], id);
    }
  }

  /** The request has a response of its own. */
  predicate HasResponse(s: Client, id: nat, request: CompletionRequest) {
    && id in s.answered
    && exists k :: 0 <= k < |s.answered| && k < |Responses(s)|
                   && s.answered[k] == id && Responses(s)[k].request == request
  }

  lemma {:induction false} AnsweredHasResponse(c: Config, s: Client, id: nat)
    requires Correlated(c, s) && id in s.answered
    ensures id in s.issued && HasResponse(s, id, s.issued[id])
  {
    var k :| 0 <= k < |s.answered| && s.answered[k] == id;
    assert Responses(s)[k].request == s.issued[id];
  }

  /**
   * A completion request that was refused and is pending nevertheless is answered: whatever happens after it,
   * once a poll at or after its deadline succeeds, the caller has been handed a response to it.
   */
  lemma {:induction false} RefusedAnswered(c: Config, s: Client, d: DocumentState, position: nat, sequence: nat,
                                           now: nat,
                                           acts: seq<Act>, p: Poll)
    requires Sound(c, s) && !CompletionRequested(c, s, d, position, sequence, now).ok
    requires s.nextId in CompletionRequested(c, s, d, position, sequence, now).client.pending
    requires WellFed(acts) && Ran(c, CompletionRequested(c, s, d, position, sequence, now).client, acts).ok
    requires p.now >= now + COMPLETION_DEADLINE
    requires Polled(c, Ran(c, CompletionRequested(c, s, d, position, sequence, now).client, acts).client, p).ok
    ensures var refused := CompletionRequested(c, s, d, position, sequence, now).client;
      HasResponse(Polled(c, Ran(c, refused, acts).client, p).client, s.nextId, Wanted(d, position, sequence))
  {
    var refused := CompletionRequested(c, s, d, position, sequence, now).client;
    RefusedButIssued(c, s, d, position, sequence, now);
    AskingSound(c, s, d, position, sequence, now);
    RunSound(c, refused, acts);
    RanKeepsRequest(c, refused, acts, s.nextId);
    var later := Ran(c, refused, acts).client;
    AnsweredByDeadline(c, later, p, s.nextId);
    PolledShrinks(c, later, p);
    PolledCorrelates(c, later, p);
    AnsweredHasResponse(c, Polled(c, later, p).client, s.nextId);
  }

  // ----- Such a refusal is reached -----

  /** The channel to the server holds this many messages. */
  const MAX_OUTGOING_MESSAGES := 4

  /** After sending, messages only wait because the transport was full, which it is once `n` have been sent. */
  predicate WaitsOnlyAfter(s: Client, n: nat) {
    s.outbox == [] || |s.sent| >= n
  }

  /** The server only responds to what it was sent. */
  ghost predicate RespondsToSent(s: Client, messages: seq<Inbound>) {
    forall i | 0 <= i < |messages| && messages[i].Response? && messages[i].id.Some? ::
      exists kind :: Request(messages[i].id.value, kind) in s.sent
  }

  /**
   * A poll of a transport that is full only once `n` messages have been sent,
   * and of a server that was sent what it answers.
   */
  ghost predicate PlausiblePoll(c: Config, s: Client, p: Poll, n: nat) {
    var flushed := FlushedIf(s, p.writesAllowed, p.before).client;
    && p.writesAllowed && WaitsOnlyAfter(flushed, n) && WaitsOnlyAfter(Polled(c, s, p).client, n)
    && RespondsToSent(flushed, p.inbound)
  }

  ghost predicate Plausible(c: Config, s: Client, acts: seq<Act>, n: nat) {
    acts == [] ||
    (var init, last := acts[..|acts| - 1], acts[|acts| - 1];
     Plausible(c, s, init, n) && (last.Polling? ==> PlausiblePoll(c, Ran(c, s, init).client, last.poll, n)))
  }

  /** The limits of JSON admit the messages of the run below. */
  predicate Admits(c: Config, d: DocumentState) {
    && c.fits(Request(1, Initialize)) && c.fits(REPLY) && c.fits(Initialized)
    && c.fits(DidOpen(Uri(c.root, d.path), d.version, d.text))
    && SupportsDocument(d.path) && d.version <= MAX_VERSION
  }

  const ASK := ServerRequest(Some(0), true, false)

  const REPLY := Reply(0, false)

  function Repeated<T>(item: T, n: nat): (r: seq<T>)
    ensures |r| == n && forall i | 0 <= i < n :: r[i] == item
  {
    if n == 0 then [] else Repeated(item, n - 1) + [item]
  }

  /** The request to initialize is sent. */
  function Greeting(): Poll {
    Poll([], [], true, 0, [Sent], [])
  }

  /** The server initializes, and one document is opened. */
  function Opening(d: DocumentState): Poll {
    Poll([Response(Some(1), false, Result(true, []))], [d], true, 0, [], [Sent, Sent])
  }

  /** The server asks, and the reply is sent. */
  function Serving(d: DocumentState): Poll {
    Poll([ASK], [d], true, 0, [], [Sent])
  }

  /** The server asks so many times while the transport is full. */
  function Filling(d: DocumentState, asks: nat): Poll {
    Poll(Repeated(ASK, asks), [d], true, 0, [Full], [Full])
  }

  /** The client with a document open, so many replies sent, and others waiting. */
  function Busy(c: Config, d: DocumentState, replies: nat, waiting: nat): Client {
    var first := [Request(1, Initialize), Initialized, DidOpen(Uri(c.root, d.path), d.version, d.text)];
    var sent, outbox := first + Repeated(REPLY, replies), Repeated(REPLY, waiting);
    EMPTY.(phase := Ready, nextId := 2, documents := map[d.id := Known(d)], sent := sent, outbox := outbox,
           queued := sent + outbox)
  }

  /** The five stages of a poll that goes through. */
  lemma {:induction false} PolledStages(c: Config, s: Client, p: Poll, flushed: Client, handled: Client,
                                        synchronized: Client, after: Client)
    requires p.writesAllowed && |p.inbound| <= MAX_MESSAGES_PER_POLL && Flushed(s, p.before) == Step(flushed, true)
    requires HandledAll(c, flushed, p.inbound, p.now) == Step(handled, true)
    requires Synchronized(c, handled, p) == Step(synchronized, true) && Timely(synchronized, p.now)
    requires Flushed(synchronized, p.after) == Step(after, true)
    ensures Polled(c, s, p) == Step(after, true)
  {
    assert (set id | id in synchronized.pending.Keys && p.now >= synchronized.pending[id].deadline) == {};
    assert Checked(synchronized, p.now) == Step(synchronized, true);
  }

  /** The request to initialize, sent. */
  function Greeted(c: Config): Client {
    var pending := map[1 := Pending(c.generation, Initialize, INITIALIZE_DEADLINE)];
    EMPTY.(nextId := 2, pending := pending, sent := [Request(1, Initialize)], queued := [Request(1, Initialize)])
  }

  lemma {:induction false} BegunGreets(c: Config, d: DocumentState)
    requires Admits(c, d)
    ensures Begun(c, 0).ok && Flushed(Begun(c, 0).client, Greeting().before) == Step(Greeted(c), true)
    ensures Polled(c, Begun(c, 0).client, Greeting()) == Step(Greeted(c), true)
  {
    var begun, greeted := Begun(c, 0).client, Greeted(c);
    var popped := begun.(outbox := begun.outbox[1..], sent := begun.sent + [begun.outbox[0]]);
    assert [Sent][1..] == [] && popped == greeted;
    assert Flushed(begun, [Sent]) == Flushed(popped, []);
    PolledStages(c, begun, Greeting(), greeted, greeted, greeted, greeted);
  }

  lemma {:induction false} FlushedOne(s: Client, answers: seq<SendOutcome>)
    requires s.outbox != [] && answers != [] && answers[0].Sent?
    ensures Flushed(s, answers) == Flushed(s.(outbox := s.outbox[1..], sent := s.sent + [s.outbox[0]]), answers[1..])
  {
  }

  /** Both messages of opening are sent. */
  lemma {:induction false} FlushedTwo(s: Client, first: Message, second: Message)
    requires s.outbox == [first, second]
    ensures Flushed(s, [Sent, Sent]) == Step(s.(outbox := [], sent := s.sent + [first, second]), true)
  {
    FlushedOne(s, [Sent, Sent]);
    var once := s.(outbox := [second], sent := s.sent + [first]);
    assert s.outbox[1..] == [second] && [Sent, Sent][1..] == [Sent];
    FlushedOne(once, [Sent]);
    assert once.outbox[1..] == [] && [Sent][1..] == [];
    assert once.sent + [second] == s.sent + [first, second];
  }

  /** The client once the server answered, with the confirmation waiting. */
  function Confirming(c: Config): Client {
    Greeted(c).(pending := map[], phase := Ready, outbox := [Initialized],
                queued := [Request(1, Initialize), Initialized])
  }

  lemma {:induction false} GreetedConfirms(c: Config, d: DocumentState)
    requires Admits(c, d)
    ensures HandledAll(c, Greeted(c), Opening(d).inbound, 0) == Step(Confirming(c), true)
  {
    var s, inbound := Greeted(c), Opening(d).inbound;
    assert s.pending - {1} == map[] && s.outbox + [Initialized] == [Initialized];
    assert s.queued + [Initialized] == [Request(1, Initialize), Initialized];
    assert Handled(c, s, inbound[0], 0) == Step(Confirming(c), true);
    assert inbound[1..] == [];
  }

  lemma {:induction false} GreetedOpens(c: Config, d: DocumentState)
    requires Admits(c, d)
    ensures Polled(c, Greeted(c), Opening(d)) == Step(Busy(c, d, 0, 0), true)
  {
    GreetedConfirms(c, d);
    ReconciledFirst(c, Confirming(c), d);
    var m := DidOpen(Uri(c.root, d.path), d.version, d.text);
    var reconciled := Reconciled(c, Confirming(c), [d]).client;
    assert reconciled.outbox == [Initialized, m];
    FlushedTwo(reconciled, Initialized, m);
    BusyStart(c, d, reconciled);
    PolledStages(c, Greeted(c), Opening(d), Greeted(c), Confirming(c), reconciled, Busy(c, d, 0, 0));
  }

  lemma {:induction false} BusyStart(c: Config, d: DocumentState, s: Client)
    requires var m := DidOpen(Uri(c.root, d.path), d.version, d.text);
      s == Confirming(c).(outbox := [Initialized, m], queued := Confirming(c).queued + [m],
                          documents := map[d.id := Known(d)])
    ensures s.(outbox := [], sent := s.sent + s.outbox) == Busy(c, d, 0, 0)
  {
    var busy := Busy(c, d, 0, 0);
    assert s.sent + s.outbox == busy.sent && s.queued == busy.queued;
  }

  /** While the server asks, replies join the ones that wait. */
  lemma {:induction false} AskedAll(c: Config, d: DocumentState, replies: nat, waiting: nat, asks: seq<Inbound>)
    requires Admits(c, d) && waiting + |asks| <= MAX_PROTOCOL_OUTBOX && forall i | 0 <= i < |asks| :: asks[i] == ASK
    ensures HandledAll(c, Busy(c, d, replies, waiting), asks, 0) == Step(Busy(c, d, replies, waiting + |asks|), true)
    decreases |asks|
  {
    if asks != [] {
      AskedOnce(c, d, replies, waiting);
      AskedAll(c, d, replies, waiting + 1, asks[1..]);
    }
  }

  lemma {:induction false} AskedOnce(c: Config, d: DocumentState, replies: nat, waiting: nat)
    requires Admits(c, d) && waiting < MAX_PROTOCOL_OUTBOX
    ensures Handled(c, Busy(c, d, replies, waiting), ASK, 0) == Step(Busy(c, d, replies, waiting + 1), true)
  {
    var s, next := Busy(c, d, replies, waiting), Busy(c, d, replies, waiting + 1);
    assert s.outbox + [REPLY] == next.outbox;
    assert s.queued + [REPLY] == next.queued;
  }

  /** A waiting reply is sent. */
  lemma {:induction false} BusySends(c: Config, d: DocumentState, replies: nat)
    ensures Flushed(Busy(c, d, replies, 1), [Sent]) == Step(Busy(c, d, replies + 1, 0), true)
  {
    var asked, served := Busy(c, d, replies, 1), Busy(c, d, replies + 1, 0);
    assert asked.outbox == [REPLY] && asked.sent + [REPLY] == served.sent;
    assert asked.queued == served.queued;
    FlushedOne(asked, [Sent]);
    assert asked.outbox[1..] == [] && [Sent][1..] == [];
  }

  lemma {:induction false} BusyServes(c: Config, d: DocumentState, replies: nat)
    requires Admits(c, d)
    ensures Polled(c, Busy(c, d, replies, 0), Serving(d)) == Step(Busy(c, d, replies + 1, 0), true)
  {
    var s, asked, served := Busy(c, d, replies, 0), Busy(c, d, replies, 1), Busy(c, d, replies + 1, 0);
    AskedAll(c, d, replies, 0, [ASK]);
    ReconciledSame(c, asked, d);
    BusySends(c, d, replies);
    PolledStages(c, s, Serving(d), s, asked, asked, served);
  }

  lemma {:induction false} BusyFills(c: Config, d: DocumentState, replies: nat, waiting: nat, asks: nat)
    requires Admits(c, d) && waiting + asks <= MAX_PROTOCOL_OUTBOX && asks <= MAX_MESSAGES_PER_POLL
    ensures Polled(c, Busy(c, d, replies, waiting), Filling(d, asks)) == Step(Busy(c, d, replies, waiting + asks), true)
  {
    var s, after := Busy(c, d, replies, waiting), Busy(c, d, replies, waiting + asks);
    AskedAll(c, d, replies, waiting, Repeated(ASK, asks));
    ReconciledSame(c, after, d);
    PolledStages(c, s, Filling(d, asks), s, after, after, after);
  }

  lemma {:induction false} ReconciledFirst(c: Config, s: Client, d: DocumentState)
    requires s.documents == map[] && Admits(c, d) && |s.outbox| < MAX_PROTOCOL_OUTBOX
    ensures var m := DidOpen(Uri(c.root, d.path), d.version, d.text);
      Reconciled(c, s, [d]) == Step(s.(outbox := s.outbox + [m], queued := s.queued + [m],
                                       documents := map[d.id := Known(d)]), true)
  {
    DesiredOne(d);
    assert s.documents.Keys == {} && ToClose(s.documents, map[d.id := d]) == [];
    assert [d.id][1..] == [];
    assert SyncedAll(c, s, [d.id], map[d.id := d]) == SyncedOne(c, s, d);
  }

  lemma {:induction false} ReconciledSame(c: Config, s: Client, d: DocumentState)
    requires s.documents == map[d.id := Known(d)] && Admits(c, d)
    ensures Reconciled(c, s, [d]) == Step(s, true)
  {
    DesiredOne(d);
    var desired := map[d.id := d];
    assert (set id | id in s.documents.Keys && Unwanted(s.documents, desired, id)) == {};
    assert [d.id][1..] == [];
    assert SyncedAll(c, s, [d.id], desired) == SyncedOne(c, s, d);
  }

  lemma {:induction false} DesiredOne(d: DocumentState)
    requires SupportsDocument(d.path)
    ensures Desired([d]) == map[d.id := d] && Ascending(Desired([d]).Keys) == [d.id]
  {
    assert [d][..0] == [] && Desired([]) == map[];
    assert Desired([d]) == map[][d.id := d] == map[d.id := d];
    assert Desired([d]).Keys == {d.id} && {d.id} - {d.id} == {};
  }

  /** A run of plausible polls and the client it leads to. */
  ghost predicate Leads(c: Config, acts: seq<Act>, s: Client, n: nat) {
    && Begun(c, 0).ok && Ran(c, Begun(c, 0).client, acts) == Step(s, true)
    && WellFed(acts) && Plausible(c, Begun(c, 0).client, acts, n)
  }

  lemma {:induction false} LeadsOn(c: Config, acts: seq<Act>, s: Client, p: Poll, after: Client, n: nat)
    requires Leads(c, acts, s, n) && Polled(c, s, p) == Step(after, true) && Drained(after) == after
    requires PathsDiffer(p.desired) && PlausiblePoll(c, s, p, n)
    ensures Leads(c, acts + [Polling(p)], after, n)
  {
    assert (acts + [Polling(p)])[..|acts|] == acts;
  }

  lemma {:induction false} LeadsToGreeted(c: Config, d: DocumentState, n: nat) returns (acts: seq<Act>)
    requires Admits(c, d)
    ensures Leads(c, acts, Greeted(c), n)
  {
    BegunGreets(c, d);
    LeadsNowhere(c, n);
    LeadsOn(c, [], Begun(c, 0).client, Greeting(), Greeted(c), n);
    acts := [] + [Polling(Greeting())];
  }

  lemma {:induction false} LeadsNowhere(c: Config, n: nat)
    requires Begun(c, 0).ok
    ensures Leads(c, [], Begun(c, 0).client, n)
  {
  }

  /** The server is greeted and initialized, and a document is opened. */
  lemma {:induction false} LeadsToBusy(c: Config, d: DocumentState, n: nat) returns (acts: seq<Act>)
    requires Admits(c, d)
    ensures Leads(c, acts, Busy(c, d, 0, 0), n)
  {
    var init := LeadsToGreeted(c, d, n);
    GreetedOpens(c, d);
    OpeningPlausible(c, d, n);
    LeadsOn(c, init, Greeted(c), Opening(d), Busy(c, d, 0, 0), n);
    acts := init + [Polling(Opening(d))];
  }

  lemma {:induction false} OpeningPlausible(c: Config, d: DocumentState, n: nat)
    requires Admits(c, d)
    ensures PlausiblePoll(c, Greeted(c), Opening(d), n)
  {
    GreetedOpens(c, d);
    assert Request(1, Initialize) in Greeted(c).sent;
  }

  lemma {:induction false} LeadsToServed(c: Config, d: DocumentState, replies: nat, n: nat) returns (acts: seq<Act>)
    requires Admits(c, d)
    ensures Leads(c, acts, Busy(c, d, replies, 0), n)
  {
    if replies == 0 {
      acts := LeadsToBusy(c, d, n);
    } else {
      var init := LeadsToServed(c, d, replies - 1, n);
      BusyServes(c, d, replies - 1);
      LeadsOn(c, init, Busy(c, d, replies - 1, 0), Serving(d), Busy(c, d, replies, 0), n);
      acts := init + [Polling(Serving(d))];
    }
  }

  /** Then the transport stays full, and the outbox fills, sixteen requests of the server at a time. */
  lemma {:induction false} LeadsToFull(c: Config, d: DocumentState, replies: nat, waiting: nat, n: nat)
    returns (acts: seq<Act>)
    requires Admits(c, d) && waiting <= MAX_PROTOCOL_OUTBOX && replies + 3 >= n
    ensures Leads(c, acts, Busy(c, d, replies, waiting), n)
    decreases waiting
  {
    if waiting == 0 {
      acts := LeadsToServed(c, d, replies, n);
    } else {
      var asks := Min(waiting, MAX_MESSAGES_PER_POLL);
      var init := LeadsToFull(c, d, replies, waiting - asks, n);
      BusyFills(c, d, replies, waiting - asks, asks);
      LeadsOn(c, init, Busy(c, d, replies, waiting - asks), Filling(d, asks), Busy(c, d, replies, waiting), n);
      acts := init + [Polling(Filling(d, asks))];
    }
  }

  /**
   * Such a refusal is reached for every number of messages, from the channel's capacity on, after which the
   * transport stays full: the server is initialized, one document opened, and the replies to a server that keeps
   * asking fill the outbox. Then the first completion request is refused, and pending.
   */
  lemma {:induction false} RefusalReached(c: Config, d: DocumentState, n: nat, position: nat, sequence: nat, now: nat)
    returns (acts: seq<Act>, s: Client)
    requires Admits(c, d) && n >= MAX_OUTGOING_MESSAGES
    ensures Begun(c, 0).ok && Ran(c, Begun(c, 0).client, acts) == Step(s, true)
    ensures WellFed(acts) && Plausible(c, Begun(c, 0).client, acts, n) && Sound(c, s)
    ensures |s.sent| == n && |s.outbox| == MAX_PROTOCOL_OUTBOX
    ensures !CompletionRequested(c, s, d, position, sequence, now).ok
    ensures s.nextId in CompletionRequested(c, s, d, position, sequence, now).client.pending
  {
    s := Busy(c, d, n - 3, MAX_PROTOCOL_OUTBOX);
    acts := LeadsToFull(c, d, n - 3, MAX_PROTOCOL_OUTBOX, n);
    BeginSound(c, 0);
    RunSound(c, Begun(c, 0).client, acts);
    RefusedButIssued(c, s, d, position, sequence, now);
  }

  // ----- The protocol object -----

  /** One incarnation of the client; the ghost fields record what happened. */
  class Protocol {
    const config: Config
    var phase: Phase
    var nextId: nat
    var pending: map<nat, Pending>
    var outbox: seq<Message>
    var documents: map<DocumentId, Synced>
    var completions: seq<CompletionResponse>
    var diagnostics: seq<Published>
    ghost var queued: seq<Message>
    ghost var sent: seq<Message>
    ghost var issued: map<nat, CompletionRequest>
    ghost var answered: seq<nat>
    ghost var delivered: seq<CompletionResponse>

    ghost function Snapshot(): Client
      reads this
    {
      Client(phase, nextId, pending, outbox, documents, completions, diagnostics, queued, sent, issued, answered,
          delivered)
    }

    constructor (config: Config)
      ensures Snapshot() == EMPTY && this.config == config
    {
      this.config := config;
      phase, nextId, pending, outbox, documents, completions, diagnostics := Initializing, 1, map[], [], map[], [], [];
      queued, sent, issued, answered, delivered := [], [], map[], [], [];
    }

    method EnqueueMessage(m: Message) returns (ok: bool)
      modifies this`outbox, this`queued
      ensures Step(Snapshot(), ok) == Enqueue(config, old(Snapshot()), m)
    {
      if !config.fits(m) || |outbox| >= MAX_PROTOCOL_OUTBOX {
        return false;
      }
      outbox := outbox + [m];
      queued := queued + [m];
      return true;
    }

    /** The identifier is taken and the request is pending before it is queued. */
    method SendRequest(kind: Kind, deadline: nat) returns (ok: bool)
      modifies this
      ensures Step(Snapshot(), ok) == Requested(config, old(Snapshot()), kind, deadline)
    {
      if |pending| >= MAX_PENDING_REQUESTS {
        return false;
      }
      var id := nextId;
      nextId := nextId + 1;
      pending := pending[id := Pending(config.generation, kind, deadline)];
      if kind.Completion? {
        issued := issued[id := kind.request];
      }
      ok := EnqueueMessage(Request(id, kind));
    }

    method RequestCompletion(d: DocumentState, position: nat, sequence: nat, now: nat) returns (accepted: bool)
      modifies this
      ensures Step(Snapshot(), accepted) == CompletionRequested(config, old(Snapshot()), d, position, sequence, now)
    {
      if phase != Ready || d.id !in documents || documents[d.id] != Known(d) {
        return false;
      }
      var request := CompletionRequest(sequence, d.id, d.path, d.version, position);
      accepted := SendRequest(Completion(request), now + COMPLETION_DEADLINE);
    }

    method RequestReload(now: nat) returns (ok: bool)
      modifies this
      ensures Step(Snapshot(), ok) == ReloadRequested(config, old(Snapshot()), now)
    {
      if phase != Ready || exists id | id in pending :: pending[id].kind.Reload? {
        return true;
      }
      ok := SendRequest(Reload, now + RELOAD_DEADLINE);
    }

    method Flush(answers: seq<SendOutcome>) returns (ok: bool)
      modifies this`outbox, this`sent
      ensures Step(Snapshot(), ok) == Flushed(old(Snapshot()), answers)
    {
      var i := 0;
      while outbox != []
        decreases |outbox|
        invariant i <= |answers|
        invariant Flushed(Snapshot(), answers[i..]) == Flushed(old(Snapshot()), answers)
        invariant Snapshot() == old(Snapshot()).(outbox := outbox, sent := sent)
      {
        if i == |answers| || answers[i].Full? {
          return true;
        }
        var message := outbox[0];
        outbox := outbox[1..];
        if answers[i].Broken? {
          return false;
        }
        sent := sent + [message];
        i := i + 1;
      }
      return true;
    }

    method PushCompletion(id: nat, request: CompletionRequest, items: seq<string>)
      modifies this`completions, this`answered
      ensures Snapshot() == Answered(old(Snapshot()), id, request, items)
    {
      if |completions| == MAX_PENDING_REQUESTS {
        completions := completions[1..];
      }
      completions := completions + [CompletionResponse(request, items)];
      answered := answered + [id];
    }

    method HandlePublishDiagnostics(uri: string, version: nat, values: Option<string>)
      modifies this`diagnostics
      ensures Snapshot() == PublishedOne(config, old(Snapshot()), uri, version, values)
    {
      var found := Find(config, documents, Ascending(documents.Keys), uri, version);
      if found.None? || values.None? {
        return;
      }
      diagnostics := Forget(diagnostics, found.value);
      if |diagnostics| == MAX_WORKSPACE_FILES {
        diagnostics := diagnostics[1..];
      }
      diagnostics := diagnostics + [Published(found.value, documents[found.value].path, version, values.value)];
    }

    method HandleResponse(id: nat, failed: bool, result: Result, now: nat) returns (ok: bool)
      modifies this
      ensures Step(Snapshot(), ok) == Responded(config, old(Snapshot()), id, failed, result, now)
    {
      if id !in pending {
        return true;
      }
      var request := pending[id];
      pending := pending - {id};
      if request.generation != config.generation {
        return true;
      }
      match request.kind {
        case Completion(r) =>
          PushCompletion(id, r, if now >= request.deadline || failed then [] else result.items);
          return true;
        case Initialize =>
          if failed || (phase == Initializing && !result.acceptable) {
            return false;
          }
          if phase == Initializing {
            ok := EnqueueMessage(Initialized);
            phase := if ok then Ready else phase;
            return;
          }
          return true;
        case Reload => return !failed && result.acceptable;
        case Shutdown =>
          if failed || (phase == Stopping && !result.acceptable) {
            return false;
          }
          if phase == Stopping {
            ok := EnqueueMessage(Exit);
            phase := if ok then ExitSent else phase;
            return;
          }
          return true;
      }
    }

    method HandleMessage(m: Inbound, now: nat) returns (ok: bool)
      modifies this
      ensures Step(Snapshot(), ok) == Handled(config, old(Snapshot()), m, now)
    {
      match m {
        case Malformed => return false;
        case ServerRequest(reply, withinLimits, supported) =>
          if reply.None? {
            return true;
          }
          if !withinLimits {
            return false;
          }
          ok := EnqueueMessage(Reply(reply.value, supported));
        case PublishDiagnostics(uri, version, values) =>
          HandlePublishDiagnostics(uri, version, values);
          return true;
        case OtherNotification => return true;
        case Response(id, failed, result) =>
          if id.None? {
            return true;
          }
          ok := HandleResponse(id.value, failed, result, now);
      }
    }

    method CloseDocument(id: DocumentId) returns (ok: bool)
      requires id in documents
      modifies this`outbox, this`queued, this`documents, this`diagnostics
      ensures Step(Snapshot(), ok) == Closed(config, old(Snapshot()), id)
    {
      ok := EnqueueMessage(DidClose(Uri(config.root, documents[id].path)));
      if ok {
        documents := documents - {id};
        diagnostics := Forget(diagnostics, id);
      }
    }

    method CloseDocuments(close: seq<DocumentId>) returns (ok: bool)
      requires NoRepeats(close) && forall id | id in close :: id in documents
      modifies this`outbox, this`queued, this`documents, this`diagnostics
      ensures Step(Snapshot(), ok) == ClosedAll(config, old(Snapshot()), close)
    {
      ghost var whole := ClosedAll(config, Snapshot(), close);
      var i := 0;
      while i < |close|
        invariant i <= |close| && NoRepeats(close[i..]) && forall id | id in close[i..] :: id in documents
        invariant ClosedAll(config, Snapshot(), close[i..]) == whole
      {
        RestUnrepeated(close, i);
        ok := CloseDocument(close[i]);
        if !ok {
          return;
        }
        i := i + 1;
      }
      return true;
    }

    method SyncDocument(next: DocumentState) returns (ok: bool)
      modifies this`outbox, this`queued, this`documents, this`diagnostics
      ensures Step(Snapshot(), ok) == SyncedOne(config, old(Snapshot()), next)
    {
      if next.version > MAX_VERSION {
        return false;
      }
      var uri := Uri(config.root, next.path);
      if next.id !in documents {
        ok := EnqueueMessage(DidOpen(uri, next.version, next.text));
        if ok {
          documents := documents[next.id := Known(next)];
        }
        return;
      }
      var current := documents[next.id];
      if current.version == next.version && current.text == next.text {
        return true;
      }
      if next.version <= current.version {
        return false;
      }
      ok := EnqueueMessage(DidChange(uri, next.version, next.text));
      if ok {
        diagnostics := Forget(diagnostics, next.id);
        documents := documents[next.id := Known(next)];
      }
    }

    method ReconcileDocuments(list: seq<DocumentState>) returns (ok: bool)
      modifies this`outbox, this`queued, this`documents, this`diagnostics
      ensures Step(Snapshot(), ok) == Reconciled(config, old(Snapshot()), list)
    {
      var desired := Desired(list);
      ok := CloseDocuments(ToClose(documents, desired));
      if ok {
        ok := SyncDocuments(Ascending(desired.Keys), desired);
      }
    }

    method SyncDocuments(ids: seq<DocumentId>, desired: map<DocumentId, DocumentState>) returns (ok: bool)
      requires forall id | id in ids :: id in desired
      modifies this`outbox, this`queued, this`documents, this`diagnostics
      ensures Step(Snapshot(), ok) == SyncedAll(config, old(Snapshot()), ids, desired)
    {
      ghost var whole := SyncedAll(config, Snapshot(), ids, desired);
      var i := 0;
      while i < |ids|
        invariant i <= |ids| && forall id | id in ids[i..] :: id in desired
        invariant SyncedAll(config, Snapshot(), ids[i..], desired) == whole
      {
        ok := SyncDocument(desired[ids[i]]);
        if !ok {
          return;
        }
        i := i + 1;
      }
      return true;
    }

    method CheckDeadlines(now: nat) returns (ok: bool)
      modifies this`pending, this`completions, this`answered
      ensures Step(Snapshot(), ok) == Checked(old(Snapshot()), now)
    {
      var expired := Expired(pending, now);
      var i := 0;
      while i < |expired|
        invariant i <= |expired| && NoRepeats(expired[i..]) && forall id | id in expired[i..] :: id in pending
        invariant ExpiredAll(Snapshot(), expired[i..]) == Checked(old(Snapshot()), now)
        invariant Snapshot() == old(Snapshot()).(pending := pending, completions := completions, answered := answered)
      {
        var id := expired[i];
        var request := pending[id];
        pending := pending - {id};
        if !request.kind.Completion? {
          return false;
        }
        PushCompletion(id, request.kind.request, []);
        i := i + 1;
      }
      return true;
    }

    method HandleBatch(messages: seq<Inbound>, now: nat) returns (ok: bool)
      modifies this
      ensures Step(Snapshot(), ok) == HandledAll(config, old(Snapshot()), messages, now)
    {
      var i := 0;
      while i < |messages|
        invariant i <= |messages|
        invariant HandledAll(config, Snapshot(), messages[i..], now)
                == HandledAll(config, old(Snapshot()), messages, now)
      {
        ok := HandleMessage(messages[i], now);
        if !ok {
          return;
        }
        i := i + 1;
      }
      return true;
    }

    /** Sends, receives at most a batch, reconciles, expires, and sends again. */
    method PollOnce(p: Poll) returns (ok: bool)
      modifies this
      ensures Step(Snapshot(), ok) == Polled(config, old(Snapshot()), p)
    {
      ok := true;
      if p.writesAllowed {
        ok := Flush(p.before);
      }
      if ok {
        ok := HandleBatch(Batch(p), p.now);
      }
      if ok && p.writesAllowed && phase == Ready {
        ok := ReconcileDocuments(p.desired);
      }
      if ok {
        ok := CheckDeadlines(p.now);
      }
      if ok && p.writesAllowed {
        ok := Flush(p.after);
      }
    }
  }
}
