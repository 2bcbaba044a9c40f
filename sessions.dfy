/** The pure parts of the popup's store in src/App.js: the functions handed to
    `setSessions` and `setSavedPersonas`, written over sequences of records. */
module Sessions {
  import opened Text
  import opened Wire

  datatype Session = Session(id: string, name: string, messages: seq<Message>, selectedModel: string, currentSystemPrompt: string)

  datatype Persona = Persona(id: string, name: string, prompt: string)

  /** `activeSessionId` and the other id states: `null` is `None`. JavaScript also
      treats `""` as falsy. */
  predicate Truthy(id: Option<string>) {
    id.Some? && id.value != ""
  }

  /** `s.id === id`. */
  predicate Addressed(s: Session, id: Option<string>) {
    id == Some(s.id)
  }

  predicate DistinctSessionIds(ss: seq<Session>) {
    forall i, j :: 0 <= i < j < |ss| ==> ss[i].id != ss[j].id
  }

  predicate DistinctPersonaIds(ps: seq<Persona>) {
    forall i, j :: 0 <= i < j < |ps| ==> ps[i].id != ps[j].id
  }

  /** No two personas share a name, ignoring the case of ASCII letters. */
  predicate DistinctPersonaNames(ps: seq<Persona>) {
    forall i, j :: 0 <= i < j < |ps| ==> !SameIgnoringCase(ps[i].name, ps[j].name)
  }

  predicate HasSession(ss: seq<Session>, id: string) {
    exists i :: 0 <= i < |ss| && ss[i].id == id
  }

  /** Session ids are distinct and an active id names a session. */
  predicate SessionsConsistent(ss: seq<Session>, active: Option<string>) {
    DistinctSessionIds(ss) && (active.Some? ==> HasSession(ss, active.value))
  }

  /** Two session lists with the same ids in the same places. */
  predicate SameIds(a: seq<Session>, b: seq<Session>) {
    |a| == |b| && forall i :: 0 <= i < |a| ==> a[i].id == b[i].id
  }

  /** Changing sessions without changing their ids keeps the session invariant. */
  lemma SameIdsConsistent(a: seq<Session>, b: seq<Session>, active: Option<string>)
    requires SameIds(a, b) && SessionsConsistent(a, active)
    ensures SessionsConsistent(b, active)
  {
    if active.Some? {
      var k :| 0 <= k < |a| && a[k].id == active.value;
      assert b[k].id == active.value;
    }
  }

  // ---------------------------------------------------------------------------
  // Finding and updating sessions

  /** `sessions.find(s => s.id === id)`: the first addressed session, if any. */
  function FindSession(ss: seq<Session>, id: Option<string>): (r: Option<Session>)
    ensures r.None? <==> forall i :: 0 <= i < |ss| ==> !Addressed(ss[i], id)
    ensures r.Some? ==> exists i :: 0 <= i < |ss| && ss[i] == r.value && Addressed(ss[i], id)
                                    && forall j :: 0 <= j < i ==> !Addressed(ss[j], id)
  {
    if ss == [] then None
    else if Addressed(ss[0], id) then Some(ss[0])
    else
      FindSession(ss[1..], id)
  }

  /** With distinct ids the session found is the one at the addressed index. */
  lemma FindSessionAt(ss: seq<Session>, k: nat)
    requires DistinctSessionIds(ss) && k < |ss|
    ensures FindSession(ss, Some(ss[k].id)) == Some(ss[k])
  {
  }

  /** `sessions.map(s => s.id === id ? f(s) : s)`: the addressed sessions change, every
      other session, the count and the order stay as they were. */
  function UpdateWhere(ss: seq<Session>, id: Option<string>, f: Session -> Session): (r: seq<Session>)
    ensures |r| == |ss|
    ensures forall i :: 0 <= i < |ss| ==> r[i] == if Addressed(ss[i], id) then f(ss[i]) else ss[i]
  {
    if ss == [] then []
    else [if Addressed(ss[0], id) then f(ss[0]) else ss[0]] + UpdateWhere(ss[1..], id, f)
  }

  /** An update addressed to an id no session has changes nothing. */
  lemma UpdateAbsent(ss: seq<Session>, id: Option<string>, f: Session -> Session)
    requires forall i :: 0 <= i < |ss| ==> !Addressed(ss[i], id)
    ensures UpdateWhere(ss, id, f) == ss
  {
  }

  /** `setActiveMessages(g)`. */
  function WithMessages(ss: seq<Session>, active: Option<string>, g: seq<Message> -> seq<Message>): seq<Session> {
    UpdateWhere(ss, active, (s: Session) => s.(messages := g(s.messages)))
  }

  /** `setActiveSessionSelectedModel(modelId)`. */
  function WithSelectedModel(ss: seq<Session>, active: Option<string>, modelId: string): seq<Session> {
    UpdateWhere(ss, active, (s: Session) => s.(selectedModel := modelId))
  }

  /** `setActiveSessionSystemPrompt(promptText)`. */
  function WithSystemPrompt(ss: seq<Session>, active: Option<string>, promptText: string): seq<Session> {
    UpdateWhere(ss, active, (s: Session) => s.(currentSystemPrompt := promptText))
  }

  /** The three active-session setters touch only their own field of the active session:
      every other session, and every other field, is as it was. */
  lemma ActiveSettersFrame(ss: seq<Session>, active: Option<string>, g: seq<Message> -> seq<Message>,
                           modelId: string, promptText: string)
    ensures var m, sm, sp := WithMessages(ss, active, g), WithSelectedModel(ss, active, modelId),
                             WithSystemPrompt(ss, active, promptText);
      && |m| == |ss| && |sm| == |ss| && |sp| == |ss|
      && forall i :: 0 <= i < |ss| ==>
        && (!Addressed(ss[i], active) ==> m[i] == ss[i] && sm[i] == ss[i] && sp[i] == ss[i])
        && (Addressed(ss[i], active) ==>
              && m[i] == ss[i].(messages := g(ss[i].messages))
              && sm[i] == ss[i].(selectedModel := modelId)
              && sp[i] == ss[i].(currentSystemPrompt := promptText))
  {
  }

  /** None of the setters changes an id. */
  lemma SettersKeepIds(ss: seq<Session>, active: Option<string>, g: seq<Message> -> seq<Message>, text: string)
    ensures SameIds(ss, WithMessages(ss, active, g))
    ensures SameIds(ss, WithSelectedModel(ss, active, text))
    ensures SameIds(ss, WithSystemPrompt(ss, active, text))
  {
  }

  /** Appending to one session never touches another session's messages. */
  lemma SessionIsolation(ss: seq<Session>, active: Option<string>, m: Message, k: nat)
    requires k < |ss| && !Addressed(ss[k], active)
    ensures WithMessages(ss, active, ms => ms + [m])[k].messages == ss[k].messages
  {
  }

  // ---------------------------------------------------------------------------
  // Adding, renaming and deleting sessions

  /** `Chat <n>`. */
  function ChatName(n: nat): string {
    "Chat " + NatToString(n)
  }

  /** The session `handleAddNewSession` appends: named after the new count, empty, and
      with the active session's model and prompt (or `''`). */
  function NewSession(ss: seq<Session>, active: Option<Session>, freshId: string): (s: Session)
    ensures s.id == freshId && s.name == ChatName(|ss| + 1) && s.messages == []
    ensures s.selectedModel == (if active.Some? then active.value.selectedModel else "")
    ensures s.currentSystemPrompt == (if active.Some? then active.value.currentSystemPrompt else "")
  {
    Session(freshId, ChatName(|ss| + 1), [],
            if active.Some? then OrElse(active.value.selectedModel, "") else "",
            if active.Some? then OrElse(active.value.currentSystemPrompt, "") else "")
  }

  /** `sessions.map(s => s.id === id ? { ...s, name: newName.trim() } : s)`. */
  function Renamed(ss: seq<Session>, id: string, newName: string): seq<Session> {
    UpdateWhere(ss, Some(id), (s: Session) => s.(name := Trim(newName)))
  }

  /** `xs.filter(x => key(x) !== id)`, for sessions and personas alike. */
  function Without<T>(xs: seq<T>, key: T -> string, id: string): (r: seq<T>)
    ensures |r| <= |xs|
  {
    if xs == [] then []
    else (if key(xs[0]) != id then [xs[0]] else []) + Without(xs[1..], key, id)
  }

  /** Removing keeps exactly the elements whose key differs. */
  lemma {:induction false} WithoutMembers<T>(xs: seq<T>, key: T -> string, id: string)
    ensures forall i :: 0 <= i < |Without(xs, key, id)| ==>
      Without(xs, key, id)[i] in xs && key(Without(xs, key, id)[i]) != id
    ensures forall i :: 0 <= i < |xs| && key(xs[i]) != id ==> xs[i] in Without(xs, key, id)
  {
    if xs != [] {
      WithoutMembers(xs[1..], key, id);
      var head: seq<T> := if key(xs[0]) != id then [xs[0]] else [];
      var r := Without(xs, key, id);
      assert r == head + Without(xs[1..], key, id);
      forall i | 0 <= i < |xs| && key(xs[i]) != id ensures xs[i] in r {
        if i > 0 {
          assert xs[i] == xs[1..][i - 1];
        }
      }
    }
  }

  /** Removing a key no element has changes nothing. */
  lemma {:induction false} WithoutAbsent<T>(xs: seq<T>, key: T -> string, id: string)
    requires forall i :: 0 <= i < |xs| ==> key(xs[i]) != id
    ensures Without(xs, key, id) == xs
  {
    if xs != [] {
      WithoutAbsent(xs[1..], key, id);
      assert [xs[0]] + xs[1..] == xs;
    }
  }

  /** With distinct keys, removing the key of element `k` removes exactly that element
      and keeps the others in order. */
  lemma {:induction false} WithoutAt<T>(xs: seq<T>, key: T -> string, k: nat)
    requires k < |xs|
    requires forall i, j :: 0 <= i < j < |xs| ==> key(xs[i]) != key(xs[j])
    ensures Without(xs, key, key(xs[k])) == xs[..k] + xs[k + 1..]
  {
    var id := key(xs[k]);
    var tail := xs[1..];
    assert forall i, j :: 0 <= i < j < |tail| ==> key(tail[i]) != key(tail[j]) by {
      forall i, j | 0 <= i < j < |tail| ensures key(tail[i]) != key(tail[j]) {
        assert tail[i] == xs[i + 1] && tail[j] == xs[j + 1];
      }
    }
    if k == 0 {
      forall i | 0 <= i < |tail| ensures key(tail[i]) != id {
        assert tail[i] == xs[i + 1];
      }
      WithoutAbsent(tail, key, id);
      assert Without(xs, key, id) == [] + Without(tail, key, id);
    } else {
      assert tail[k - 1] == xs[k];
      WithoutAt(tail, key, k - 1);
      assert Without(xs, key, id) == [xs[0]] + Without(tail, key, id);
      assert xs[..k] == [xs[0]] + tail[..k - 1];
      assert tail[k..] == xs[k + 1..];
    }
  }

  lemma RenamedKeepsIds(ss: seq<Session>, id: string, newName: string)
    ensures SameIds(ss, Renamed(ss, id, newName))
  {
  }

  /** `sessions.filter(s => s.id !== id)`. */
  function RemoveSession(ss: seq<Session>, id: string): seq<Session> {
    Without(ss, (s: Session) => s.id, id)
  }

  /** Deleting from distinct sessions removes at most one and keeps ids distinct; deleting
      an existing one leaves one fewer. */
  lemma RemoveSessionCount(ss: seq<Session>, id: string)
    requires DistinctSessionIds(ss)
    ensures DistinctSessionIds(RemoveSession(ss, id))
    ensures |RemoveSession(ss, id)| == if HasSession(ss, id) then |ss| - 1 else |ss|
  {
    var key := (s: Session) => s.id;
    if HasSession(ss, id) {
      var k :| 0 <= k < |ss| && ss[k].id == id;
      WithoutAt(ss, key, k);
      var r := ss[..k] + ss[k + 1..];
      forall i, j | 0 <= i < j < |r| ensures r[i].id != r[j].id {
        var i', j' := if i < k then i else i + 1, if j < k then j else j + 1;
        assert r[i] == ss[i'] && r[j] == ss[j'];
      }
    } else {
      WithoutAbsent(ss, key, id);
    }
  }

  // ---------------------------------------------------------------------------
  // Personas

  /** `personas.findIndex(p => p.name.toLowerCase() === name.toLowerCase())`. */
  function FindPersonaIndex(ps: seq<Persona>, name: string): (i: int)
    ensures -1 <= i < |ps|
    ensures i == -1 <==> forall j :: 0 <= j < |ps| ==> !SameIgnoringCase(ps[j].name, name)
    ensures i >= 0 ==> SameIgnoringCase(ps[i].name, name)
    ensures i >= 0 ==> forall j :: 0 <= j < i ==> !SameIgnoringCase(ps[j].name, name)
  {
    if ps == [] then -1
    else if SameIgnoringCase(ps[0].name, name) then 0
    else
      var i := FindPersonaIndex(ps[1..], name);
      if i == -1 then -1 else i + 1
  }

  /** The updater of `handleSavePersona` once both fields are non-empty: overwrite the
      case-insensitive namesake in place (keeping its id) when confirmed, leave the list
      as it was when declined, append a new persona when there is no namesake. */
  function SavedPersonas(ps: seq<Persona>, name: string, prompt: string, confirmed: bool, freshId: string): seq<Persona> {
    var i := FindPersonaIndex(ps, name);
    var personaData := Persona(if i != -1 then ps[i].id else freshId, name, prompt);
    if i != -1 then
      if !confirmed then ps else ps[i := personaData]
    else ps + [personaData]
  }

  /** Saving distinguishes three cases, each stated in full. */
  lemma SavedPersonasCases(ps: seq<Persona>, name: string, prompt: string, confirmed: bool, freshId: string)
    ensures var r := SavedPersonas(ps, name, prompt, confirmed, freshId);
      var i := FindPersonaIndex(ps, name);
      && (i == -1 ==> r == ps + [Persona(freshId, name, prompt)])
      && (i != -1 && !confirmed ==> r == ps)
      && (i != -1 && confirmed ==>
            && |r| == |ps|
            && r[i] == Persona(ps[i].id, name, prompt)
            && forall j :: 0 <= j < |ps| && j != i ==> r[j] == ps[j])
  {
  }

  /** Declining to overwrite a namesake leaves the list exactly as it was. */
  lemma SaveDeclinedKeepsPrompt(ps: seq<Persona>, name: string, prompt: string, freshId: string, k: nat)
    requires k < |ps| && SameIgnoringCase(ps[k].name, name)
    ensures SavedPersonas(ps, name, prompt, false, freshId) == ps
  {
  }

  /** Saving keeps persona names distinct ignoring case, and ids distinct when the fresh
      id is new. */
  lemma SavedPersonasInvariant(ps: seq<Persona>, name: string, prompt: string, confirmed: bool, freshId: string)
    requires DistinctPersonaNames(ps) && DistinctPersonaIds(ps)
    requires forall j :: 0 <= j < |ps| ==> ps[j].id != freshId
    ensures DistinctPersonaNames(SavedPersonas(ps, name, prompt, confirmed, freshId))
    ensures DistinctPersonaIds(SavedPersonas(ps, name, prompt, confirmed, freshId))
  {
    var i := FindPersonaIndex(ps, name);
    var r := SavedPersonas(ps, name, prompt, confirmed, freshId);
    if i != -1 && confirmed {
      forall a, b | 0 <= a < b < |r| ensures !SameIgnoringCase(r[a].name, r[b].name) {
        if a == i {
          assert SameIgnoringCase(ps[i].name, r[a].name);
        } else if b == i {
          assert SameIgnoringCase(ps[i].name, r[b].name);
        }
      }
    }
  }

  /** `savedPersonas.find(p => p.id === id)`. */
  function FindPersona(ps: seq<Persona>, id: string): (r: Option<Persona>)
    ensures r.Some? ==> exists i :: 0 <= i < |ps| && ps[i] == r.value && ps[i].id == id
                                    && forall j :: 0 <= j < i ==> ps[j].id != id
    ensures r.None? ==> forall j :: 0 <= j < |ps| ==> ps[j].id != id
  {
    if ps == [] then None
    else if ps[0].id == id then Some(ps[0])
    else FindPersona(ps[1..], id)
  }

  /** `savedPersonas.filter(p => p.id !== id)`. */
  function RemovePersona(ps: seq<Persona>, id: string): seq<Persona> {
    Without(ps, (p: Persona) => p.id, id)
  }

  // ---------------------------------------------------------------------------
  // Messages

  /** `messages.map(m => m.id === id ? f(m) : m)`. */
  function UpdateMessage(ms: seq<Message>, id: string, f: Message -> Message): (r: seq<Message>)
    ensures |r| == |ms|
    ensures forall i :: 0 <= i < |ms| ==> r[i] == if ms[i].id == id then f(ms[i]) else ms[i]
  {
    if ms == [] then []
    else [if ms[0].id == id then f(ms[0]) else ms[0]] + UpdateMessage(ms[1..], id, f)
  }

  /** The `CHAT_STREAM_CHUNK` updater. */
  function AppendChunk(ms: seq<Message>, id: string, chunk: string): seq<Message> {
    UpdateMessage(ms, id, (m: Message) => m.(text := m.text + chunk))
  }

  /** The `CHAT_STREAM_END` updater. */
  function EndStreaming(ms: seq<Message>, id: string): seq<Message> {
    UpdateMessage(ms, id, (m: Message) => m.(isStreaming := false))
  }

  /** A chunk extends the text of the message with its id and nothing else; with no such
      message it is a no-op. */
  lemma AppendChunkEffect(ms: seq<Message>, id: string, chunk: string)
    ensures var r := AppendChunk(ms, id, chunk);
      && |r| == |ms|
      && (forall i :: 0 <= i < |ms| && ms[i].id == id ==> r[i] == ms[i].(text := ms[i].text + chunk))
      && (forall i :: 0 <= i < |ms| && ms[i].id != id ==> r[i] == ms[i])
    ensures (forall i :: 0 <= i < |ms| ==> ms[i].id != id) ==> AppendChunk(ms, id, chunk) == ms
  {
  }

  /** Ending a stream clears `isStreaming` on its message and leaves every text as it was. */
  lemma EndStreamingEffect(ms: seq<Message>, id: string)
    ensures var r := EndStreaming(ms, id);
      && |r| == |ms|
      && (forall i :: 0 <= i < |ms| ==> r[i].text == ms[i].text && r[i].id == ms[i].id && r[i].sender == ms[i].sender)
      && (forall i :: 0 <= i < |ms| && ms[i].id == id ==> !r[i].isStreaming)
      && (forall i :: 0 <= i < |ms| && ms[i].id != id ==> r[i] == ms[i])
  {
  }

  /** Chunks for one id, applied after each other, add their concatenation. */
  lemma AppendChunkTwice(ms: seq<Message>, id: string, c1: string, c2: string)
    ensures AppendChunk(AppendChunk(ms, id, c1), id, c2) == AppendChunk(ms, id, c1 + c2)
  {
    var a, b := AppendChunk(AppendChunk(ms, id, c1), id, c2), AppendChunk(ms, id, c1 + c2);
    forall i | 0 <= i < |ms| ensures a[i] == b[i] {
      if ms[i].id == id {
        assert ms[i].text + c1 + c2 == ms[i].text + (c1 + c2);
      }
    }
  }

  /** `slice(-n)` for a positive `n`: the last `n` entries, or all of them when there are
      fewer. (`slice(-0)` would be the whole array; the code only uses `slice(-11)`.) */
  function LastN<T>(xs: seq<T>, n: nat): (r: seq<T>)
    requires n > 0
    ensures |r| == if |xs| < n then |xs| else n
    ensures r == xs[|xs| - |r|..]
  {
    if |xs| <= n then xs else xs[|xs| - n..]
  }

  // ---------------------------------------------------------------------------
  // Loading

  /** The first session of a fresh install. */
  function DefaultSession(freshId: string): Session {
    Session(freshId, "Chat 1", [], "", "")
  }

  datatype Startup = Startup(sessions: seq<Session>, activeSessionId: Option<string>)

  /** The storage callback's choice of sessions and active id: a non-empty stored list is
      kept; a stored active id that is truthy is kept; otherwise the first stored session
      is active; with nothing stored a default `Chat 1` session is created and active. */
  function StartupChoice(stored: seq<Session>, storedActive: Option<string>, freshId: string): (r: Startup)
    ensures |r.sessions| >= 1 && r.activeSessionId.Some?
    ensures stored != [] ==> r.sessions == stored
    ensures stored == [] ==> r.sessions == [DefaultSession(freshId)] && r.activeSessionId == Some(freshId)
    ensures stored != [] && Truthy(storedActive) ==> r.activeSessionId == storedActive
    ensures stored != [] && !Truthy(storedActive) ==> r.activeSessionId == Some(stored[0].id)
  {
    if !Truthy(storedActive) && |stored| > 0 then Startup(stored, Some(stored[0].id))
    else if |stored| == 0 then Startup([DefaultSession(freshId)], Some(freshId))
    else Startup(stored, storedActive)
  }

  /** After loading, the active id names a session unless storage held an active id that
      none of the stored sessions has. */
  lemma StartupActiveExists(stored: seq<Session>, storedActive: Option<string>, freshId: string)
    requires !Truthy(storedActive) || stored == [] || HasSession(stored, storedActive.value)
    ensures var r := StartupChoice(stored, storedActive, freshId);
      HasSession(r.sessions, r.activeSessionId.value)
  {
    var r := StartupChoice(stored, storedActive, freshId);
    if stored == [] {
      assert r.sessions[0].id == freshId;
    } else if !Truthy(storedActive) {
      assert r.sessions[0].id == stored[0].id;
    }
  }

  // ---------------------------------------------------------------------------
  // Model reconciliation

  /** The selection the `MODELS_LIST` branch leaves on the active session: a non-empty
      list replaces an empty or unlisted selection with its first id; an empty list
      clears the selection. */
  function Reconcile(selected: string, models: seq<string>): (r: string)
    ensures |models| > 0 ==> r in models
    ensures |models| == 0 ==> r == ""
    ensures selected != "" && selected in models ==> r == selected
    ensures |models| > 0 && (selected == "" || selected !in models) ==> r == models[0]
  {
    if |models| > 0 then
      if selected == "" || selected !in models then models[0] else selected
    else ""
  }

  /** The session update of the `MODELS_LIST` branch: it reads the active session with
      `find` and then rewrites the selection through `setActiveSessionSelectedModel`. */
  function ModelsListSessions(ss: seq<Session>, active: Option<string>, models: seq<string>): seq<Session> {
    var current := FindSession(ss, active);
    var selected := if current.Some? then current.value.selectedModel else "";
    if |models| > 0 then
      if selected == "" || selected !in models then WithSelectedModel(ss, active, models[0]) else ss
    else if selected != "" then WithSelectedModel(ss, active, "")
    else ss
  }

  /** With distinct ids the branch is `Reconcile` applied to the active session's selection,
      and every other session and field is untouched. */
  lemma ModelsListReconciles(ss: seq<Session>, active: Option<string>, models: seq<string>)
    requires DistinctSessionIds(ss)
    ensures ModelsListSessions(ss, active, models)
      == UpdateWhere(ss, active, (s: Session) => s.(selectedModel := Reconcile(s.selectedModel, models)))
  {
    var r := ModelsListSessions(ss, active, models);
    var u := UpdateWhere(ss, active, (s: Session) => s.(selectedModel := Reconcile(s.selectedModel, models)));
    forall i | 0 <= i < |ss| ensures r[i] == u[i] {
      ModelsListAt(ss, active, models, i);
    }
    ModelsListAt(ss, active, models, 0);
    assert |r| == |u|;
  }

  lemma ModelsListKeepsIds(ss: seq<Session>, active: Option<string>, models: seq<string>)
    requires DistinctSessionIds(ss)
    ensures SameIds(ss, ModelsListSessions(ss, active, models))
  {
    ModelsListAt(ss, active, models, 0);
    forall i | 0 <= i < |ss| ensures ModelsListSessions(ss, active, models)[i].id == ss[i].id {
      ModelsListAt(ss, active, models, i);
    }
  }

  /** One session after the `MODELS_LIST` branch. */
  lemma ModelsListAt(ss: seq<Session>, active: Option<string>, models: seq<string>, i: int)
    requires DistinctSessionIds(ss)
    ensures |ModelsListSessions(ss, active, models)| == |ss|
    ensures 0 <= i < |ss| ==>
              ModelsListSessions(ss, active, models)[i]
                == if Addressed(ss[i], active) then ss[i].(selectedModel := Reconcile(ss[i].selectedModel, models)) else ss[i]
  {
    if 0 <= i < |ss| && Addressed(ss[i], active) {
      FindSessionAt(ss, i);
      var sel := ss[i].selectedModel;
      if sel != "" && sel in models {
        assert ss[i].(selectedModel := sel) == ss[i];
      }
    }
  }

  /** A second identical model list changes nothing more. */
  lemma ReconcileIdempotent(selected: string, models: seq<string>)
    ensures Reconcile(Reconcile(selected, models), models) == Reconcile(selected, models)
  {
  }

  /** The selection stays exactly when it was already acceptable for the list. */
  lemma ReconcileKeeps(selected: string, models: seq<string>)
    ensures Reconcile(selected, models) == selected <==>
      (|models| == 0 && selected == "") || (selected != "" && selected in models)
      || (selected == "" && |models| > 0 && models[0] == "")
  {
  }
}
