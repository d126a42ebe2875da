/**
 Refreshing and saving the pipelines of the CGEN editor (bundle/webroot/js/cgen.js:86-96, 885-960,
 1289-1412) against a server that compares revisions (services/go/internal/webgateway/cgen_control.go:525-584,
 709-756).

 A schedule interleaves the user, the periodic refresh, saves, and other writers of the server's
 configuration.  The configurations the server has held are its versions; a revision is a hash
 of one.  `base` and `view` are kept for the proof only: the version whose revision the editor
 holds, and the last version it merged.
 */
module CgenProtocol {
  import opened Wrappers
  import opened CgenMerge

  // ---------------------------------------------------------------- the server's side

  datatype Entry = Entry(id: string, settings: string)

  datatype Config = Config(enabled: bool, entries: seq<Entry>)

  /** The server's file, or None when there is none. */
  type Version = Option<Config>

  type Hash = Version -> string

  /** The server refuses files whose ids are empty, or repeated in any case. */
  predicate ValidEntries(entries: seq<Entry>) {
    && (forall i | 0 <= i < |entries| :: entries[i].id != "")
    && (forall i, j | 0 <= i < j < |entries| :: Lower(entries[i].id) != Lower(entries[j].id))
  }

  function EntriesOf(v: Version): seq<Entry> {
    if v.None? then [] else v.value.entries
  }

  function EntrySet(v: Version): set<Entry> {
    set e | e in EntriesOf(v)
  }

  function SwitchOf(v: Version): bool {
    v.None? || v.value.enabled
  }

  /** The answer to `cgen.get`; the status texts differ from read to read. */
  datatype Payload = Payload(entries: seq<Entry>, enabled: bool, revision: string, runtimes: seq<string>, version: nat)

  function Read(hash: Hash, v: Version, runtimes: seq<string>, version: nat): Payload {
    Payload(EntriesOf(v), SwitchOf(v), hash(v), runtimes, version)
  }

  function Loaded(e: Entry, runtime: string): Feed {
    Feed(e.id, e.id, e.settings, runtime)
  }

  function Load(entries: seq<Entry>, runtimes: seq<string>): (feeds: seq<Feed>)
    ensures |feeds| == |entries|
    ensures forall i | 0 <= i < |entries| :: IsEntry(feeds[i], entries[i])
  {
    seq(|entries|, i requires 0 <= i < |entries| => Loaded(entries[i], if i < |runtimes| then runtimes[i] else ""))
  }

  /** The feed carries an entry as it was loaded. */
  predicate IsEntry(f: Feed, e: Entry) {
    f.id == e.id && f.originalId == e.id && f.settings == e.settings
  }

  // ---------------------------------------------------------------- the editor

  datatype Form = Form(id: string, settings: string)

  datatype Client = Client(
    feeds: seq<Feed>,
    dirty: set<string>,
    selectedID: string,
    form: Form,
    editorDirty: bool,
    enabled: bool,
    globalDirty: bool,
    revision: string,
    generation: nat,
    refresh: Option<nat>,
    saving: bool,
    base: nat,
    view: nat)

  datatype Request = Request(
    entries: seq<Entry>, enabled: bool, expected: string, feeds: seq<Feed>, dirty: set<string>, globalDirty: bool,
    base: nat, view: nat)

  function LowerChar(c: char): char {
    if 'A' <= c <= 'Z' then (c as int + 32) as char else c
  }

  function Lower(s: string): string {
    seq(|s|, i requires 0 <= i < |s| => LowerChar(s[i]))
  }

  /** One character is the other one, or they are the two cases of a letter from A to Z. */
  predicate SameLetter(a: char, b: char) {
    a == b || ('A' <= a <= 'Z' && b as int - a as int == 32) || ('A' <= b <= 'Z' && a as int - b as int == 32)
  }

  /** Ids are compared without regard to the case of these letters. */
  lemma LowerIff(s: string, t: string)
    ensures Lower(s) == Lower(t) <==> |s| == |t| && forall i | 0 <= i < |s| :: SameLetter(s[i], t[i])
  {
    if Lower(s) == Lower(t) {
      assert |Lower(s)| == |s| && |Lower(t)| == |t|;
      forall i | 0 <= i < |s|
        ensures SameLetter(s[i], t[i])
      {
        assert Lower(s)[i] == Lower(t)[i];
      }
    } else if |s| == |t| {
      var i :| 0 <= i < |s| && Lower(s)[i] != Lower(t)[i];
      assert !SameLetter(s[i], t[i]);
    }
  }

  function Selected(c: Client): Option<Feed> {
    match FindId(c.feeds, c.selectedID)
    case Some(i) => Some(c.feeds[i])
    case None => if c.feeds == [] then None else Some(c.feeds[0])
  }

  function FormOf(f: Feed): Form {
    Form(f.id, f.settings)
  }

  function WriteEditor(c: Client): Client {
    match Selected(c)
    case None => c
    case Some(f) => c.(form := FormOf(f), editorDirty := false)
  }

  /** `renderInstances`: an unknown selection falls to the first pipeline. */
  function Render(c: Client): Client {
    if FindId(c.feeds, c.selectedID).None? && c.feeds != [] then c.(selectedID := c.feeds[0].id) else c
  }

  /** `readEditor`: the form over the selected pipeline. */
  function Edited(c: Client, default: Entry): Feed {
    var current := match Selected(c) case Some(f) => f case None => Loaded(default, "");
    Feed(c.form.id, if current.originalId != "" then current.originalId else current.id, c.form.settings, current.runtime)
  }

  predicate Collides(feeds: seq<Feed>, index: Option<nat>, id: string) {
    exists k :: 0 <= k < |feeds| && Some(k) != index && Lower(feeds[k].id) == Lower(id)
  }

  function Put(feeds: seq<Feed>, index: Option<nat>, f: Feed): seq<Feed> {
    if index.Some? && index.value < |feeds| then feeds[index.value := f] else feeds + [f]
  }

  function Redirty(dirty: set<string>, from: string, to: string): set<string> {
    if from in dirty then dirty - {from} + {to} else dirty
  }

  /** `upsertEditor`: None when the id is in use. */
  function Upsert(c: Client, default: Entry): Option<Client> {
    var index := FindId(c.feeds, c.selectedID);
    var edited := Edited(c, default);
    if Collides(c.feeds, index, edited.id) then None
    else
      Some(c.(feeds := Put(c.feeds, index, edited),
              selectedID := edited.id,
              dirty := Redirty(c.dirty, c.selectedID, edited.id)))
  }

  function EditForm(c: Client, form: Form): Client {
    c.(form := form, editorDirty := true,
       dirty := if c.selectedID != "" then c.dirty + {c.selectedID} else c.dirty)
  }

  function ToggleEnabled(c: Client, enabled: bool): Client {
    c.(enabled := enabled, globalDirty := true)
  }

  function SwitchTo(c: Client, default: Entry, next: string): Client {
    match Upsert(c, default)
    case None => c
    case Some(c1) => WriteEditor(Render(c1.(selectedID := next)))
  }

  /** `addInstance`, with an id that no pipeline has. */
  function AddInstance(c: Client, default: Entry, id: string): Client {
    match Upsert(c, default)
    case None => c
    case Some(c1) =>
      if id == "" || Collides(c1.feeds, None, id) then c1 else WithNew(c1, default, id)
  }

  function WithNew(c: Client, default: Entry, id: string): Client {
    WriteEditor(c.(feeds := c.feeds + [Loaded(Entry(id, default.settings), "")],
                   selectedID := id,
                   dirty := c.dirty + {id}))
  }

  function BeginRefresh(c: Client): Client {
    if c.refresh.Some? || c.saving then c else c.(refresh := Some(c.generation))
  }

  predicate HasFeedEdits(c: Client) {
    c.editorDirty || c.dirty != {}
  }

  /** The revision is taken only when nothing local would be overwritten with its help. */
  function TakeRevision(c: Client, p: Payload): Client {
    if !HasFeedEdits(c) && !c.globalDirty then c.(revision := p.revision, base := p.version) else c
  }

  function TakeEnabled(c: Client, p: Payload): Client {
    if !c.globalDirty then c.(enabled := p.enabled) else c
  }

  function TakeFeeds(c: Client, p: Payload): Client {
    var latest := Load(p.entries, p.runtimes);
    c.(feeds := if HasFeedEdits(c) then Merge(c.feeds, c.dirty, latest) else latest, view := p.version)
  }

  function Reselect(c: Client): Client {
    if FindId(c.feeds, c.selectedID).None? then c.(selectedID := if c.feeds == [] then "" else c.feeds[0].id) else c
  }

  /** What a refresh that is not discarded does with its answer. */
  function TakePayload(c: Client, p: Payload): Client {
    var c1 := Reselect(TakeFeeds(TakeEnabled(TakeRevision(c, p), p), p));
    if c.editorDirty then c1 else WriteEditor(c1)
  }

  function FinishRefresh(c: Client, p: Payload): Client {
    var c1 := c.(refresh := None);
    if c.saving || c.refresh != Some(c.generation) then c1 else TakePayload(c1, p)
  }

  function RequestOf(c: Client): Request {
    Request(SavedEntries(c.feeds), c.enabled, c.revision, c.feeds, c.dirty, c.globalDirty, c.base, c.view)
  }

  function SavedEntries(feeds: seq<Feed>): (entries: seq<Entry>)
    ensures |entries| == |feeds|
    ensures forall i | 0 <= i < |feeds| :: entries[i] == Entry(feeds[i].id, feeds[i].settings)
  {
    seq(|feeds|, i requires 0 <= i < |feeds| => Entry(feeds[i].id, feeds[i].settings))
  }

  /** The first half of a save; `valid` says whether the form passes its checks. */
  function BeginSave(c: Client, default: Entry, valid: bool): (Client, Option<Request>) {
    if c.saving then (c, None)
    else
      var c1 := c.(generation := c.generation + 1);
      match if valid then Upsert(c1, default) else None
      case None => (c1, None)
      case Some(c2) => (c2.(saving := true), Some(RequestOf(c2)))
  }

  function TakeAnswer(c: Client, p: Payload): Client {
    c.(enabled := p.enabled, revision := p.revision, feeds := Load(p.entries, p.runtimes),
       base := p.version, view := p.version)
  }

  function TakeSaved(c: Client, p: Payload): Client {
    TakeAnswer(c, p).(saving := false, dirty := {}, globalDirty := false)
  }

  /** The second half, after the server took the save. */
  function FinishSave(c: Client, p: Payload): Client {
    WriteEditor(Render(TakeSaved(c, p)))
  }

  function FailSave(c: Client): Client {
    c.(saving := false)
  }

  /** The state after `loadCgen`. */
  function Start(default: Entry, p: Payload): Client {
    var loaded := Load(p.entries, p.runtimes);
    var seeded := loaded == [];
    WriteEditor(Render(Client(
      if seeded then [Loaded(default, "")] else loaded, if seeded then {default.id} else {}, "", FormOf(Loaded(default, "")),
      false, p.enabled, false, p.revision, 0, None, false, p.version, p.version)))
  }

  /** What the script reacts to: the user, and answers or failures of its own requests. */
  datatype Signal =
    | Typed(form: Form)
    | Toggled(enabled: bool)
    | Selects(id: string)
    | Adds(id: string)
    | RefreshDue
    | Refreshed(payload: Payload)
    | RefreshFailed
    | SavePressed(valid: bool)
    | Saved(payload: Payload)
    | SaveFailed

  function React(c: Client, default: Entry, e: Signal): Client {
    match e
    case Typed(form) => EditForm(c, form)
    case Toggled(enabled) => ToggleEnabled(c, enabled)
    case Selects(id) => SwitchTo(c, default, id)
    case Adds(id) => AddInstance(c, default, id)
    case RefreshDue => BeginRefresh(c)
    case Refreshed(p) => FinishRefresh(c, p)
    case RefreshFailed => c.(refresh := None)
    case SavePressed(valid) => BeginSave(c, default, valid).0
    case Saved(p) => FinishSave(c, p)
    case SaveFailed => FailSave(c)
  }

  function ReactAll(c: Client, default: Entry, signals: seq<Signal>): Client
    decreases |signals|
  {
    if signals == [] then c
    else React(ReactAll(c, default, signals[..|signals| - 1]), default, signals[|signals| - 1])
  }

  // ---------------------------------------------------------------- the view itself

  /** The variables of the script and its handlers. */
  class View {
    const default: Entry
    var feeds: seq<Feed>
    var dirtyFeedIDs: set<string>
    var selectedID: string
    var form: Form
    var editorDirty: bool
    var cgenEnabled: bool
    var globalDirty: bool
    var cgenRevision: string
    var refreshGeneration: nat
    var refreshInFlight: Option<nat>
    var saveInFlight: bool
    ghost var base: nat
    ghost var view: nat

    ghost function State(): Client
      reads this
    {
      Client(feeds, dirtyFeedIDs, selectedID, form, editorDirty, cgenEnabled, globalDirty, cgenRevision,
             refreshGeneration, refreshInFlight, saveInFlight, base, view)
    }

    /** `loadCgen` into a fresh view. */
    constructor (default: Entry, p: Payload)
      ensures this.default == default && State() == Start(default, p)
    {
      this.default := default;
      var loaded := Load(p.entries, p.runtimes);
      feeds, dirtyFeedIDs := loaded, {};
      if loaded == [] {
        feeds, dirtyFeedIDs := [Loaded(default, "")], {default.id};
      }
      selectedID, form, editorDirty := "", FormOf(Loaded(default, "")), false;
      cgenEnabled, globalDirty, cgenRevision := p.enabled, false, p.revision;
      refreshGeneration, refreshInFlight, saveInFlight := 0, None, false;
      base, view := p.version, p.version;
      new;
      RenderInstances();
      WriteSelected();
    }

    method RenderInstances()
      modifies this
      ensures State() == Render(old(State()))
    {
      if FindId(feeds, selectedID).None? && feeds != [] {
        selectedID := feeds[0].id;
      }
    }

    method WriteSelected()
      modifies this
      ensures State() == WriteEditor(old(State()))
    {
      var index := FindId(feeds, selectedID);
      if index.Some? {
        form, editorDirty := FormOf(feeds[index.value]), false;
      } else if feeds != [] {
        form, editorDirty := FormOf(feeds[0]), false;
      }
    }

    method ReadEditor() returns (edited: Feed)
      ensures edited == Edited(State(), default)
    {
      var index := FindId(feeds, selectedID);
      var current := if index.Some? then feeds[index.value]
                     else if feeds != [] then feeds[0] else Loaded(default, "");
      edited := Feed(form.id, if current.originalId != "" then current.originalId else current.id,
                     form.settings, current.runtime);
    }

    /** Whether another pipeline has the id, whatever its case. */
    method FindCollision(index: Option<nat>, id: string) returns (found: bool)
      ensures found == Collides(feeds, index, id)
    {
      found := false;
      var k := 0;
      while k < |feeds|
        invariant 0 <= k <= |feeds|
        invariant found == exists j :: 0 <= j < k && Some(j) != index && Lower(feeds[j].id) == Lower(id)
      {
        if Some(k) != index && Lower(feeds[k].id) == Lower(id) {
          found := true;
        }
        k := k + 1;
      }
    }

    method UpsertEditor() returns (ok: bool)
      modifies this
      ensures ok == Upsert(old(State()), default).Some?
      ensures State() == if ok then Upsert(old(State()), default).value else old(State())
    {
      hide Collides, Lower, FindId;
      var previousID := selectedID;
      var index := FindId(feeds, selectedID);
      var edited := ReadEditor();
      var collision := FindCollision(index, edited.id);
      if collision {
        return false;
      }
      if index.Some? {
        feeds := feeds[index.value := edited];
      } else {
        feeds := feeds + [edited];
      }
      selectedID := edited.id;
      if previousID in dirtyFeedIDs {
        dirtyFeedIDs := dirtyFeedIDs - {previousID} + {edited.id};
      }
      return true;
    }

    method OnInput(typed: Form)
      modifies this
      ensures State() == EditForm(old(State()), typed)
    {
      form, editorDirty := typed, true;
      if selectedID != "" {
        dirtyFeedIDs := dirtyFeedIDs + {selectedID};
      }
    }

    method OnToggle(enabled: bool)
      modifies this
      ensures State() == ToggleEnabled(old(State()), enabled)
    {
      cgenEnabled, globalDirty := enabled, true;
    }

    method OnSelect(next: string)
      modifies this
      ensures State() == SwitchTo(old(State()), default, next)
    {
      hide Upsert, WriteEditor, Render;
      var ok := UpsertEditor();
      if !ok {
        return;
      }
      selectedID := next;
      RenderInstances();
      WriteSelected();
    }

    method OnAdd(id: string)
      modifies this
      ensures State() == AddInstance(old(State()), default, id)
    {
      hide Upsert, WriteEditor, Collides;
      var ok := UpsertEditor();
      if !ok {
        return;
      }
      var taken := FindCollision(None, id);
      if id == "" || taken {
        return;
      }
      feeds := feeds + [Loaded(Entry(id, default.settings), "")];
      selectedID := id;
      dirtyFeedIDs := dirtyFeedIDs + {id};
      WriteSelected();
    }

    method StartRefresh()
      modifies this
      ensures State() == BeginRefresh(old(State()))
    {
      if refreshInFlight.Some? || saveInFlight {
        return;
      }
      refreshInFlight := Some(refreshGeneration);
    }

    method OnRefreshed(p: Payload)
      modifies this
      ensures State() == FinishRefresh(old(State()), p)
    {
      hide TakeFeeds, TakeRevision, TakeEnabled, WriteEditor, FindId;
      var generation := refreshInFlight;
      refreshInFlight := None;
      if saveInFlight || generation != Some(refreshGeneration) {
        return;
      }
      TakeHeader(p);
      TakeFeedList(p);
      if FindId(feeds, selectedID).None? {
        selectedID := if feeds == [] then "" else feeds[0].id;
      }
      if !editorDirty {
        WriteSelected();
      }
    }

    method TakeHeader(p: Payload)
      modifies this
      ensures State() == TakeEnabled(TakeRevision(old(State()), p), p)
      ensures editorDirty == old(editorDirty)
    {
      var hasFeedEdits := editorDirty || dirtyFeedIDs != {};
      if !hasFeedEdits && !globalDirty {
        cgenRevision := p.revision;
        base := p.version;
      }
      if !globalDirty {
        cgenEnabled := p.enabled;
      }
    }

    method TakeFeedList(p: Payload)
      modifies this
      ensures State() == TakeFeeds(old(State()), p)
      ensures editorDirty == old(editorDirty)
    {
      hide Merge, Load;
      var latest := Load(p.entries, p.runtimes);
      if editorDirty || dirtyFeedIDs != {} {
        latest := MergeLatest(feeds, dirtyFeedIDs, latest);
      }
      feeds := latest;
      view := p.version;
    }

    /** The first half of `saveCgen`, up to the request. */
    method StartSave(valid: bool) returns (sent: bool, entries: seq<Entry>, enabled: bool, expected: string)
      modifies this
      ensures State() == BeginSave(old(State()), default, valid).0
      ensures sent == BeginSave(old(State()), default, valid).1.Some?
      ensures sent ==> var r := BeginSave(old(State()), default, valid).1.value;
                       entries == r.entries && enabled == r.enabled && expected == r.expected
    {
      hide Upsert;
      sent, entries, enabled, expected := false, [], false, "";
      if saveInFlight {
        return;
      }
      refreshGeneration := refreshGeneration + 1;
      if valid {
        sent := UpsertEditor();
        if sent {
          saveInFlight := true;
          entries, enabled, expected := SavedEntries(feeds), cgenEnabled, cgenRevision;
        }
      }
    }

    method OnSaved(p: Payload)
      modifies this
      ensures State() == FinishSave(old(State()), p)
    {
      TakeAnswerFields(p);
      hide TakeAnswer, WriteEditor, Render;
      dirtyFeedIDs, globalDirty, saveInFlight := {}, false, false;
      RenderInstances();
      WriteSelected();
    }

    method TakeAnswerFields(p: Payload)
      modifies this
      ensures State() == TakeAnswer(old(State()), p)
    {
      hide Load, IsEntry;
      cgenEnabled, cgenRevision, feeds := p.enabled, p.revision, Load(p.entries, p.runtimes);
      base, view := p.version, p.version;
    }

    method OnSaveFailed()
      modifies this
      ensures State() == FailSave(old(State()))
    {
      saveInFlight := false;
    }

    method On(e: Signal)
      modifies this
      ensures State() == React(old(State()), default, e)
    {
      hide EditForm, ToggleEnabled, SwitchTo, AddInstance, BeginRefresh, FinishRefresh, BeginSave, FinishSave, FailSave;
      match e {
        case Typed(typed) => OnInput(typed);
        case Toggled(enabled) => OnToggle(enabled);
        case Selects(id) => OnSelect(id);
        case Adds(id) => OnAdd(id);
        case RefreshDue => StartRefresh();
        case Refreshed(p) => OnRefreshed(p);
        case RefreshFailed => refreshInFlight := None;
        case SavePressed(valid) =>
          var sent, entries, enabled, expected := StartSave(valid);
        case Saved(p) => OnSaved(p);
        case SaveFailed => OnSaveFailed();
      }
    }

    method RunAll(signals: seq<Signal>)
      modifies this
      ensures State() == ReactAll(old(State()), default, signals)
    {
      hide React;
      var i := 0;
      while i < |signals|
        invariant 0 <= i <= |signals| && State() == ReactAll(old(State()), default, signals[..i])
      {
        assert signals[..i + 1][..i] == signals[..i];
        On(signals[i]);
        i := i + 1;
      }
      assert signals[..|signals|] == signals;
    }
  }

  // ---------------------------------------------------------------- schedules

  datatype Outcome = Pending | Accepted(version: nat) | Rejected

  datatype Sent = Sent(request: Request, outcome: Outcome)

  /** The editor, the versions the server has held, the version an outstanding refresh was
      answered with, and the saves sent so far; a save that timed out may still arrive. */
  datatype System = System(client: Client, history: seq<Version>, answered: Option<nat>, sent: seq<Sent>)

  datatype Event =
    | OtherWrites(version: Version)
    | UserTypes(form: Form)
    | UserToggles(enabled: bool)
    | UserSelects(id: string)
    | UserAdds(id: string)
    | RefreshBegins
    | RefreshAnswered
    | RefreshArrives(runtimes: seq<string>)
    | RefreshFails
    | SaveBegins(valid: bool)
    | SaveReachesServer(k: nat, willing: bool)
    | SaveArrives(runtimes: seq<string>)
    | SaveFails

  function Current(history: seq<Version>): Version
    requires history != []
  {
    history[|history| - 1]
  }

  /** The server's check of a save: no file yet, or the expected revision is the current one. */
  predicate Matches(hash: Hash, history: seq<Version>, r: Request)
    requires history != []
  {
    Current(history).None? || hash(Current(history)) == r.expected
  }

  function Serve(hash: Hash, s: System, k: nat, willing: bool): System
    requires s.history != [] && k < |s.sent|
  {
    var r := s.sent[k].request;
    if !willing || !ValidEntries(r.entries) || !Matches(hash, s.history, r) then
      s.(sent := s.sent[k := Sent(r, Rejected)])
    else
      s.(history := s.history + [Some(Config(r.enabled, r.entries))],
         sent := s.sent[k := Sent(r, Accepted(|s.history|))])
  }

  /** The newest save, which is the one the editor waits for. */
  function Awaited(s: System): Outcome {
    if s.sent == [] then Rejected else s.sent[|s.sent| - 1].outcome
  }

  /** The view is inert while a save is under way. */
  predicate Enabled(s: System, e: Event) {
    match e
    case OtherWrites(v) => ValidEntries(EntriesOf(v))
    case UserTypes(form) => !s.client.saving && form.id != ""
    case UserToggles(_) => !s.client.saving
    case UserSelects(_) => !s.client.saving
    case UserAdds(_) => !s.client.saving
    case RefreshBegins => true
    case RefreshAnswered => s.client.refresh.Some? && s.history != []
    case RefreshArrives(_) => s.client.refresh.Some? && s.answered.Some? && s.answered.value < |s.history|
    case RefreshFails => s.client.refresh.Some?
    case SaveBegins(_) => !s.client.saving
    case SaveReachesServer(k, _) => s.history != [] && k < |s.sent| && s.sent[k].outcome.Pending?
    case SaveArrives(_) => s.client.saving && Awaited(s).Accepted? && Awaited(s).version < |s.history|
    case SaveFails => s.client.saving
  }

  function Apply(hash: Hash, default: Entry, s: System, e: Event): System {
    if !Enabled(s, e) then s
    else
      match e
      case OtherWrites(v) => s.(history := s.history + [v])
      case UserTypes(form) => s.(client := EditForm(s.client, form))
      case UserToggles(enabled) => s.(client := ToggleEnabled(s.client, enabled))
      case UserSelects(id) => s.(client := SwitchTo(s.client, default, id))
      case UserAdds(id) => s.(client := AddInstance(s.client, default, id))
      case RefreshBegins =>
        if s.client.refresh.Some? || s.client.saving then s
        else s.(client := BeginRefresh(s.client), answered := None)
      case RefreshAnswered => s.(answered := Some(|s.history| - 1))
      case RefreshArrives(runtimes) =>
        var w := s.answered.value;
        s.(client := FinishRefresh(s.client, Read(hash, s.history[w], runtimes, w)), answered := None)
      case RefreshFails => s.(client := s.client.(refresh := None), answered := None)
      case SaveBegins(valid) =>
        var (client, request) := BeginSave(s.client, default, valid);
        s.(client := client, sent := if request.Some? then s.sent + [Sent(request.value, Pending)] else s.sent)
      case SaveReachesServer(k, willing) => Serve(hash, s, k, willing)
      case SaveArrives(runtimes) =>
        var w := Awaited(s).version;
        s.(client := FinishSave(s.client, Read(hash, s.history[w], runtimes, w)))
      case SaveFails => s.(client := FailSave(s.client))
  }

  function Run(hash: Hash, default: Entry, s: System, events: seq<Event>): System
    decreases |events|
  {
    if events == [] then s
    else Apply(hash, default, Run(hash, default, s, events[..|events| - 1]), events[|events| - 1])
  }

  function Boot(hash: Hash, default: Entry, history: seq<Version>, runtimes: seq<string>): System
    requires history != []
  {
    System(Start(default, Read(hash, Current(history), runtimes, |history| - 1)), history, None, [])
  }

  /** What an event of a schedule is to the script, if it is anything. */
  function SignalOf(hash: Hash, s: System, e: Event): Option<Signal> {
    if !Enabled(s, e) then None
    else
      match e
      case UserTypes(form) => Some(Typed(form))
      case UserToggles(enabled) => Some(Toggled(enabled))
      case UserSelects(id) => Some(Selects(id))
      case UserAdds(id) => Some(Adds(id))
      case RefreshBegins => Some(RefreshDue)
      case RefreshArrives(runtimes) => Some(Refreshed(Read(hash, s.history[s.answered.value], runtimes, s.answered.value)))
      case RefreshFails => Some(RefreshFailed)
      case SaveBegins(valid) => Some(SavePressed(valid))
      case SaveArrives(runtimes) => Some(Saved(Read(hash, s.history[Awaited(s).version], runtimes, Awaited(s).version)))
      case SaveFails => Some(SaveFailed)
      case _ => None
  }

  function Signals(hash: Hash, default: Entry, s: System, events: seq<Event>): seq<Signal>
    decreases |events|
  {
    if events == [] then []
    else
      var front := events[..|events| - 1];
      var e := SignalOf(hash, Run(hash, default, s, front), events[|events| - 1]);
      Signals(hash, default, s, front) + if e.Some? then [e.value] else []
  }

  /** In every schedule the editor is where its own script has brought it, signal by signal. */
  lemma {:induction false} EditorFollowsScript(hash: Hash, default: Entry, s: System, events: seq<Event>)
    ensures Run(hash, default, s, events).client == ReactAll(s.client, default, Signals(hash, default, s, events))
    decreases |events|
  {
    if events != [] {
      var front, e := events[..|events| - 1], events[|events| - 1];
      EditorFollowsScript(hash, default, s, front);
      var before, signals := Run(hash, default, s, front), Signals(hash, default, s, front);
      var signal := SignalOf(hash, before, e);
      assert Run(hash, default, s, events) == Apply(hash, default, before, e);
      assert Signals(hash, default, s, events) == signals + if signal.Some? then [signal.value] else [];
      hide Run, Signals, ReactAll, Apply, SignalOf, React;
      StepFollowsScript(hash, default, before, e);
      if signal.Some? {
        ReactsOneMore(s.client, default, signals, signal.value);
      } else {
        assert signals + [] == signals;
      }
    }
  }

  lemma ReactsOneMore(c: Client, default: Entry, signals: seq<Signal>, signal: Signal)
    ensures ReactAll(c, default, signals + [signal]) == React(ReactAll(c, default, signals), default, signal)
  {
    hide React;
    assert (signals + [signal])[..|signals|] == signals;
  }

  lemma StepFollowsScript(hash: Hash, default: Entry, s: System, e: Event)
    ensures var signal := SignalOf(hash, s, e);
            Apply(hash, default, s, e).client == if signal.Some? then React(s.client, default, signal.value) else s.client
  {
    hide EditForm, ToggleEnabled, SwitchTo, AddInstance, FinishRefresh, BeginSave, FinishSave, Read;
  }

  // ---------------------------------------------------------------- the shape of the editor

  predicate NamedFeed(f: Feed) {
    f.id != "" && f.originalId != ""
  }

  predicate AllNamed(feeds: seq<Feed>) {
    forall i | 0 <= i < |feeds| :: NamedFeed(feeds[i])
  }

  predicate Listed(feeds: seq<Feed>, dirty: set<string>) {
    UniqueIds(feeds) && AllNamed(feeds) && dirty <= Ids(feeds)
  }

  /** Unique ids, dirty ids among them, a selection, and a form that shows it until it is edited. */
  predicate Shape(c: Client) {
    && Listed(c.feeds, c.dirty)
    && c.form.id != ""
    && (if c.feeds == [] then c.selectedID == ""
        else c.selectedID in Ids(c.feeds) && (!c.editorDirty ==> ShowsSelected(c)))
  }

  predicate ShowsSelected(c: Client) {
    Selected(c).Some? && c.form == FormOf(Selected(c).value)
  }

  // ---------------------------------------------------------------- what the feeds owe to a version

  /** The entry is in the list: as it was loaded, or as the dirty feed that was loaded from it. */
  predicate Represents(f: Feed, dirty: set<string>, e: Entry) {
    if f.id in dirty then f.originalId == e.id else IsEntry(f, e)
  }

  predicate Represented(feeds: seq<Feed>, dirty: set<string>, e: Entry) {
    exists i :: 0 <= i < |feeds| && Represents(feeds[i], dirty, e)
  }

  predicate FromEntry(f: Feed, entries: seq<Entry>) {
    exists j :: 0 <= j < |entries| && IsEntry(f, entries[j])
  }

  /** Nothing of the version is missing from the list, and what is not dirty is as the version
      has it. */
  predicate Linked(feeds: seq<Feed>, dirty: set<string>, entries: seq<Entry>) {
    && (forall j | 0 <= j < |entries| :: Represented(feeds, dirty, entries[j]))
    && (forall i | 0 <= i < |feeds| :: feeds[i].id in dirty || FromEntry(feeds[i], entries))
  }

  predicate Synced(c: Client, entries: seq<Entry>) {
    entries == [] || (Linked(c.feeds, c.dirty, entries) && (c.editorDirty ==> c.selectedID in c.dirty))
  }

  // ---------------------------------------------------------------- the shape is kept

  lemma InIds(feeds: seq<Feed>, id: string)
    ensures id in Ids(feeds) <==> FindId(feeds, id).Some?
  {
  }

  lemma LoadIsListed(entries: seq<Entry>, runtimes: seq<string>)
    requires ValidEntries(entries)
    ensures Listed(Load(entries, runtimes), {})
  {
    var feeds := Load(entries, runtimes);
    assert forall i | 0 <= i < |feeds| :: IsEntry(feeds[i], entries[i]);
    hide Load, Lower;
  }

  lemma WriteEditorShape(c: Client)
    requires Listed(c.feeds, c.dirty) && c.form.id != ""
    requires if c.feeds == [] then c.selectedID == "" else c.selectedID in Ids(c.feeds)
    ensures Shape(WriteEditor(c))
    ensures c.feeds != [] ==> !WriteEditor(c).editorDirty
  {
    InIds(c.feeds, c.selectedID);
    hide FindId, Ids, UniqueIds;
  }

  lemma RenderSelects(c: Client)
    requires c.feeds != []
    ensures Render(c).selectedID in Ids(c.feeds) && Render(c) == c.(selectedID := Render(c).selectedID)
  {
    InIds(c.feeds, c.selectedID);
    hide FindId;
    assert c.feeds[0].id in Ids(c.feeds);
  }

  lemma SameLower(feeds: seq<Feed>, index: Option<nat>, id: string)
    requires !Collides(feeds, index, id)
    ensures forall k | 0 <= k < |feeds| && Some(k) != index :: feeds[k].id != id
  {
    hide Lower;
  }

  lemma UpsertShape(c: Client, default: Entry)
    requires Shape(c) && default.id != ""
    ensures Upsert(c, default).Some? ==>
              var c1 := Upsert(c, default).value;
              Shape(c1) && c1.feeds != [] && ShowsSelected(c1)
  {
    var index := FindId(c.feeds, c.selectedID);
    var edited := Edited(c, default);
    EditedIsNamed(c, default);
    InIds(c.feeds, c.selectedID);
    hide FindId, Collides, Edited, Put, Redirty, Listed, Ids, Selected;
    if !Collides(c.feeds, index, edited.id) {
      SameLower(c.feeds, index, edited.id);
      UpsertListed(c.feeds, c.dirty, c.selectedID, index, edited);
      var c1 := Upsert(c, default).value;
      PutSelects(c1, c.feeds, index, edited);
    }
  }

  lemma PutSelects(c1: Client, feeds: seq<Feed>, index: Option<nat>, f: Feed)
    requires c1.feeds == Put(feeds, index, f) && UniqueIds(c1.feeds) && c1.selectedID == f.id
    ensures c1.feeds != [] && c1.selectedID in Ids(c1.feeds) && Selected(c1) == Some(f)
  {
    var at := if index.Some? && index.value < |feeds| then index.value else |feeds|;
    assert c1.feeds[at] == f;
    FindUnique(c1.feeds, at);
    hide UniqueIds, FindId;
  }

  lemma EditedIsNamed(c: Client, default: Entry)
    requires Shape(c) && default.id != ""
    ensures NamedFeed(Edited(c, default)) && FormOf(Edited(c, default)) == c.form
  {
    hide Ids, UniqueIds;
  }

  lemma FindUnique(feeds: seq<Feed>, i: nat)
    requires UniqueIds(feeds) && i < |feeds|
    ensures FindId(feeds, feeds[i].id) == Some(i)
  {
  }

  lemma UpsertListed(feeds: seq<Feed>, dirty: set<string>, was: string, index: Option<nat>, edited: Feed)
    requires Listed(feeds, dirty) && NamedFeed(edited) && index == FindId(feeds, was)
    requires forall k | 0 <= k < |feeds| && Some(k) != index :: feeds[k].id != edited.id
    ensures Listed(Put(feeds, index, edited), Redirty(dirty, was, edited.id))
    ensures UniqueIds(Put(feeds, index, edited))
  {
    InIds(feeds, was);
    hide FindId;
    var feeds1 := Put(feeds, index, edited);
    var at := if index.Some? then index.value else |feeds|;
    assert feeds1[at] == edited;
    forall id | id in dirty && id != was
      ensures id in Ids(feeds1)
    {
      var k :| 0 <= k < |feeds| && feeds[k].id == id;
      assert feeds1[k] == feeds[k];
    }
  }

  lemma AddListed(feeds: seq<Feed>, dirty: set<string>, f: Feed)
    requires Listed(feeds, dirty) && NamedFeed(f)
    requires forall k | 0 <= k < |feeds| :: feeds[k].id != f.id
    ensures Listed(feeds + [f], dirty + {f.id})
  {
    var feeds1 := feeds + [f];
    assert feeds1[|feeds|] == f;
    forall id | id in dirty
      ensures id in Ids(feeds1)
    {
      var k :| 0 <= k < |feeds| && feeds[k].id == id;
      assert feeds1[k] == feeds[k];
    }
  }

  lemma UserKeepsShape(c: Client, default: Entry, form: Form, id: string)
    requires Shape(c) && default.id != "" && form.id != ""
    ensures Shape(EditForm(c, form)) && Shape(SwitchTo(c, default, id)) && Shape(AddInstance(c, default, id))
  {
    UpsertShape(c, default);
    hide Upsert, FindId;
    if Upsert(c, default).Some? {
      var c1 := Upsert(c, default).value;
      var c2 := c1.(selectedID := id);
      RenderSelects(c2);
      WriteEditorShape(Render(c2));
      if id != "" && !Collides(c1.feeds, None, id) {
        SameLower(c1.feeds, None, id);
        var added := Loaded(Entry(id, default.settings), "");
        AddListed(c1.feeds, c1.dirty, added);
        assert (c1.feeds + [added])[|c1.feeds|] == added;
        WriteEditorShape(c1.(feeds := c1.feeds + [added], selectedID := id, dirty := c1.dirty + {id}));
      }
    }
  }

  lemma {:induction false} MergedAreNamed(feeds: seq<Feed>, dirty: set<string>, latest: seq<Feed>)
    requires AllNamed(feeds) && AllNamed(latest)
    ensures AllNamed(Merge(feeds, dirty, latest))
  {
    MergedRefsPoint(feeds, dirty, latest);
    var refs := MergedRefs(feeds, dirty, latest);
    hide MergedRefs, Runtime;
    forall k | 0 <= k < |refs|
      ensures NamedFeed(Merge(feeds, dirty, latest)[k])
    {
      assert Points(feeds, latest, refs[k]);
    }
  }

  lemma TakeFeedsListed(c: Client, p: Payload)
    requires Listed(c.feeds, c.dirty) && ValidEntries(p.entries)
    ensures Listed(TakeFeeds(c, p).feeds, c.dirty)
  {
    LoadIsListed(p.entries, p.runtimes);
    var latest := Load(p.entries, p.runtimes);
    MergeKeepsIdsUnique(c.feeds, c.dirty, latest);
    MergeKeepsDirtyIds(c.feeds, c.dirty, latest);
    MergedAreNamed(c.feeds, c.dirty, latest);
    hide Merge, Load, Ids, UniqueIds, AllNamed;
  }

  /** A merge keeps the selection of an edited pipeline, so an edited form is never written over. */
  lemma TakePayloadShape(c: Client, p: Payload)
    requires Shape(c) && ValidEntries(p.entries)
    ensures Shape(TakePayload(c, p))
  {
    TakeFeedsListed(c, p);
    var c1 := TakeFeeds(TakeEnabled(TakeRevision(c, p), p), p);
    TakeFeedsListed(TakeEnabled(TakeRevision(c, p), p), p);
    hide TakeFeeds, UniqueIds, AllNamed;
    InIds(c1.feeds, c1.selectedID);
    if c1.feeds != [] {
      assert c1.feeds[0].id in Ids(c1.feeds);
    }
    ReselectSelects(c1);
    if !c.editorDirty {
      WriteEditorShape(Reselect(c1));
    }
    TakeFeedsOnlyFeeds(TakeEnabled(TakeRevision(c, p), p), p);
  }

  lemma TakeFeedsOnlyFeeds(c: Client, p: Payload)
    ensures TakeFeeds(c, p) == c.(feeds := TakeFeeds(c, p).feeds, view := p.version)
  {
  }

  lemma ReselectSelects(c: Client)
    ensures Reselect(c) == c.(selectedID := Reselect(c).selectedID)
    ensures if c.feeds == [] then Reselect(c).selectedID == "" else Reselect(c).selectedID in Ids(c.feeds)
    ensures c.selectedID in Ids(c.feeds) ==> Reselect(c) == c
  {
    InIds(c.feeds, c.selectedID);
    hide FindId;
    if c.feeds != [] {
      assert c.feeds[0].id in Ids(c.feeds);
    }
  }

  lemma FinishSaveShape(c: Client, p: Payload)
    requires Shape(c) && ValidEntries(p.entries) && p.entries != []
    ensures Shape(FinishSave(c, p))
    ensures !FinishSave(c, p).editorDirty
  {
    LoadIsListed(p.entries, p.runtimes);
    hide Load, Listed, WriteEditor, Render;
    RenderSelects(TakeSaved(c, p));
    WriteEditorShape(Render(TakeSaved(c, p)));
  }

  lemma StartShape(default: Entry, p: Payload)
    requires default.id != "" && ValidEntries(p.entries)
    ensures Shape(Start(default, p))
    ensures Start(default, p).base == Start(default, p).view == p.version
  {
    LoadIsListed(p.entries, p.runtimes);
    var loaded := Load(p.entries, p.runtimes);
    var feeds := if loaded == [] then [Loaded(default, "")] else loaded;
    var dirty := if loaded == [] then {default.id} else {};
    assert Listed(feeds, dirty) by {
      assert feeds[0].id in Ids(feeds);
    }
    hide Load, Listed;
    var c := Client(feeds, dirty, "", FormOf(Loaded(default, "")), false, p.enabled, false, p.revision,
                    0, None, false, p.version, p.version);
    RenderSelects(c);
    WriteEditorShape(Render(c));
  }

  // ---------------------------------------------------------------- the link to a version is kept

  lemma LoadIsLinked(entries: seq<Entry>, runtimes: seq<string>)
    ensures Linked(Load(entries, runtimes), {}, entries)
  {
    var feeds := Load(entries, runtimes);
    forall i | 0 <= i < |feeds|
      ensures Represents(feeds[i], {}, entries[i])
    {
      assert IsEntry(feeds[i], entries[i]);
    }
    hide Load;
  }

  lemma LinkedWhenEdited(feeds: seq<Feed>, dirty: set<string>, entries: seq<Entry>, id: string)
    requires Linked(feeds, dirty, entries)
    ensures Linked(feeds, dirty + {id}, entries)
  {
    forall j | 0 <= j < |entries|
      ensures Represented(feeds, dirty + {id}, entries[j])
    {
      assert Represented(feeds, dirty, entries[j]);
      var i :| 0 <= i < |feeds| && Represents(feeds[i], dirty, entries[j]);
      assert Represents(feeds[i], dirty + {id}, entries[j]);
    }
  }

  /** Replacing a dirty feed by one that was loaded from the same entry. */
  lemma LinkedWhenReplaced(feeds: seq<Feed>, dirty: set<string>, entries: seq<Entry>, at: nat, edited: Feed)
    requires Linked(feeds, dirty, entries) && UniqueIds(feeds) && at < |feeds| && feeds[at].id in dirty
    requires edited.originalId == feeds[at].originalId
    requires forall k | 0 <= k < |feeds| && k != at :: feeds[k].id != edited.id
    ensures Linked(feeds[at := edited], Redirty(dirty, feeds[at].id, edited.id), entries)
  {
    var feeds1, dirty1 := feeds[at := edited], Redirty(dirty, feeds[at].id, edited.id);
    forall k | 0 <= k < |feeds| && k != at
      ensures feeds1[k] == feeds[k] && (feeds[k].id in dirty1 <==> feeds[k].id in dirty)
    {
    }
    forall j | 0 <= j < |entries|
      ensures Represented(feeds1, dirty1, entries[j])
    {
      assert Represented(feeds, dirty, entries[j]);
      var i :| 0 <= i < |feeds| && Represents(feeds[i], dirty, entries[j]);
      assert Represents(feeds1[i], dirty1, entries[j]);
    }
  }

  lemma LinkedWhenAdded(feeds: seq<Feed>, dirty: set<string>, entries: seq<Entry>, f: Feed)
    requires Linked(feeds, dirty, entries)
    requires forall k | 0 <= k < |feeds| :: feeds[k].id != f.id
    ensures Linked(feeds + [f], dirty + {f.id}, entries)
  {
    var feeds1 := feeds + [f];
    forall j | 0 <= j < |entries|
      ensures Represented(feeds1, dirty + {f.id}, entries[j])
    {
      assert Represented(feeds, dirty, entries[j]);
      var i :| 0 <= i < |feeds| && Represents(feeds[i], dirty, entries[j]);
      assert feeds1[i] == feeds[i] && Represents(feeds1[i], dirty + {f.id}, entries[j]);
    }
    forall i | 0 <= i < |feeds1|
      ensures feeds1[i].id in dirty + {f.id} || FromEntry(feeds1[i], entries)
    {
      if i < |feeds| {
        assert feeds1[i] == feeds[i];
      }
    }
  }

  lemma {:induction false} UntouchedAre(feeds: seq<Feed>, dirty: set<string>, f: Feed)
    ensures f in Untouched(feeds, dirty) <==> f in feeds && f.id !in dirty
    decreases |feeds|
  {
    if feeds != [] {
      UntouchedAre(feeds[..|feeds| - 1], dirty, f);
      assert feeds == feeds[..|feeds| - 1] + [feeds[|feeds| - 1]];
    }
  }

  lemma {:induction false} ForeignAre(feeds: seq<Feed>, dirty: set<string>, latest: seq<Feed>, f: Feed)
    requires UniqueIds(feeds) && dirty <= Ids(feeds)
    ensures f in Foreign(feeds, dirty, latest) <==> f in latest && Hit(feeds, dirty, f.id).None?
    decreases |latest|
  {
    hide Hit, UniqueIds, Ids, IsStoodFor;
    if latest != [] {
      ForeignAre(feeds, dirty, latest[..|latest| - 1], f);
      HitIff(feeds, dirty, latest[|latest| - 1].id);
      assert latest == latest[..|latest| - 1] + [latest[|latest| - 1]];
    }
  }

  /** A merge with the version itself changes nothing of what is linked to it. */
  lemma LinkedWhenMerged(feeds: seq<Feed>, dirty: set<string>, entries: seq<Entry>, runtimes: seq<string>)
    requires Listed(feeds, dirty) && Linked(feeds, dirty, entries) && ValidEntries(entries)
    ensures Linked(Merge(feeds, dirty, Load(entries, runtimes)), dirty, entries)
  {
    var latest := Load(entries, runtimes);
    LoadIsListed(entries, runtimes);
    var merged := Merge(feeds, dirty, latest);
    hide Merge, Load, UniqueIds, AllNamed, Ids;
    forall j | 0 <= j < |entries|
      ensures Represented(merged, dirty, entries[j])
    {
      MergedRepresents(feeds, dirty, entries, runtimes, j);
    }
    forall i | 0 <= i < |merged| && merged[i].id !in dirty
      ensures FromEntry(merged[i], entries)
    {
      MergedIsFromServer(feeds, dirty, entries, runtimes, i);
    }
  }

  lemma MergedIsFromServer(feeds: seq<Feed>, dirty: set<string>, entries: seq<Entry>, runtimes: seq<string>, i: nat)
    requires Listed(feeds, dirty) && ValidEntries(entries)
    requires i < |Merge(feeds, dirty, Load(entries, runtimes))|
    requires Merge(feeds, dirty, Load(entries, runtimes))[i].id !in dirty
    ensures FromEntry(Merge(feeds, dirty, Load(entries, runtimes))[i], entries)
  {
    var latest := Load(entries, runtimes);
    LoadIsListed(entries, runtimes);
    var merged := Merge(feeds, dirty, latest);
    ServerFeedsKeepTheirOrder(feeds, dirty, latest);
    UntouchedAre(merged, dirty, merged[i]);
    ForeignAre(feeds, dirty, latest, merged[i]);
    hide Merge, Load, Untouched, Foreign;
    var j :| 0 <= j < |latest| && latest[j] == merged[i];
    assert IsEntry(latest[j], entries[j]);
  }

  lemma MergedRepresents(feeds: seq<Feed>, dirty: set<string>, entries: seq<Entry>, runtimes: seq<string>, j: nat)
    requires Listed(feeds, dirty) && ValidEntries(entries) && j < |entries|
    requires Represented(feeds, dirty, entries[j])
    ensures Represented(Merge(feeds, dirty, Load(entries, runtimes)), dirty, entries[j])
  {
    var e := entries[j];
    var latest := Load(entries, runtimes);
    LoadIsListed(entries, runtimes);
    var merged := Merge(feeds, dirty, latest);
    var i :| 0 <= i < |feeds| && Represents(feeds[i], dirty, e);
    hide Merge, Load;
    if feeds[i].id in dirty {
      var k := DirtyFeedsSurvive(feeds, dirty, latest, i);
      assert Represents(merged[k], dirty, e);
    } else {
      var hit := FindRenamed(feeds, dirty, e.id);
      if hit.Some? {
        var k := DirtyFeedsSurvive(feeds, dirty, latest, hit.value);
        assert Represents(merged[k], dirty, e);
      } else {
        ServerFeedsKeepTheirOrder(feeds, dirty, latest);
        assert IsEntry(latest[j], e);
        ForeignAre(feeds, dirty, latest, latest[j]);
        UntouchedAre(merged, dirty, latest[j]);
        var k :| 0 <= k < |merged| && merged[k] == latest[j];
        assert Represents(merged[k], dirty, e);
      }
    }
  }

  // ---------------------------------------------------------------- the editor keeps the link

  lemma LinkedHasFeeds(feeds: seq<Feed>, dirty: set<string>, entries: seq<Entry>)
    requires Linked(feeds, dirty, entries) && entries != []
    ensures feeds != []
  {
    assert Represented(feeds, dirty, entries[0]);
  }

  /** Reading the form back keeps the link: an untouched form changes nothing, an edited one
      belongs to a dirty pipeline. */
  lemma UpsertSynced(c: Client, default: Entry, entries: seq<Entry>)
    requires Shape(c) && default.id != "" && Synced(c, entries) && Upsert(c, default).Some?
    ensures Synced(Upsert(c, default).value, entries)
  {
    if entries != [] {
      LinkedHasFeeds(c.feeds, c.dirty, entries);
      InIds(c.feeds, c.selectedID);
      var at := FindId(c.feeds, c.selectedID).value;
      var edited := Edited(c, default);
      EditedIs(c, default, at);
      SameLower(c.feeds, Some(at), edited.id);
      hide FindId, Collides, Edited, Linked, UniqueIds, AllNamed, Ids;
      if c.selectedID in c.dirty {
        LinkedWhenReplaced(c.feeds, c.dirty, entries, at, edited);
      } else {
        assert c.feeds[at := edited] == c.feeds;
      }
    }
  }

  lemma EditedIs(c: Client, default: Entry, at: nat)
    requires Shape(c) && FindId(c.feeds, c.selectedID) == Some(at)
    ensures Edited(c, default) == c.feeds[at].(id := c.form.id, settings := c.form.settings)
    ensures !c.editorDirty ==> Edited(c, default) == c.feeds[at]
  {
    assert NamedFeed(c.feeds[at]);
    hide FindId, UniqueIds, Ids;
  }

  lemma WriteEditorSynced(c: Client, entries: seq<Entry>)
    requires entries == [] || Linked(c.feeds, c.dirty, entries)
    ensures Synced(WriteEditor(c), entries)
  {
    if entries != [] {
      LinkedHasFeeds(c.feeds, c.dirty, entries);
    }
    hide Linked, FindId;
  }

  lemma UserSynced(c: Client, default: Entry, entries: seq<Entry>, form: Form, id: string)
    requires Shape(c) && default.id != "" && Synced(c, entries)
    ensures Synced(EditForm(c, form), entries)
    ensures Synced(SwitchTo(c, default, id), entries) && Synced(AddInstance(c, default, id), entries)
  {
    EditSynced(c, entries, form);
    if Upsert(c, default).Some? {
      UpsertSynced(c, default, entries);
      hide Upsert, FindId, Linked, Collides, WriteEditor;
      var c1 := Upsert(c, default).value;
      WriteEditorSynced(Render(c1.(selectedID := id)), entries);
      if id != "" && !Collides(c1.feeds, None, id) {
        SameLower(c1.feeds, None, id);
        var added := Loaded(Entry(id, default.settings), "");
        if entries != [] {
          LinkedWhenAdded(c1.feeds, c1.dirty, entries, added);
        }
        WriteEditorSynced(
          c1.(feeds := c1.feeds + [added], selectedID := id, dirty := c1.dirty + {id}), entries);
      }
    }
  }

  lemma EditSynced(c: Client, entries: seq<Entry>, form: Form)
    requires Shape(c) && Synced(c, entries)
    ensures Synced(EditForm(c, form), entries)
  {
    if entries != [] {
      LinkedHasFeeds(c.feeds, c.dirty, entries);
      LinkedWhenEdited(c.feeds, c.dirty, entries, c.selectedID);
      SelectionIsNamed(c);
    }
    hide Linked, Listed, Ids, Selected;
  }

  lemma SelectionIsNamed(c: Client)
    requires Shape(c) && c.feeds != []
    ensures c.selectedID != ""
  {
    var i :| 0 <= i < |c.feeds| && c.feeds[i].id == c.selectedID;
    assert NamedFeed(c.feeds[i]);
  }

  /** A refresh that adopts a revision, or merges the version the editor is based on. */
  lemma TakePayloadSynced(c: Client, p: Payload, synced: bool)
    requires Shape(c) && ValidEntries(p.entries)
    requires synced ==> Synced(c, p.entries)
    ensures var c1 := TakePayload(c, p);
            && c1.view == p.version
            && ((c1.base == c.base && c1.revision == c.revision)
                || (c1.base == p.version && c1.revision == p.revision && !HasFeedEdits(c)))
            && (synced || !HasFeedEdits(c) ==> Synced(c1, p.entries))
  {
    var c0 := TakeEnabled(TakeRevision(c, p), p);
    var c1 := TakeFeeds(c0, p);
    TakeFeedsOnlyFeeds(c0, p);
    ReselectSelects(c1);
    LoadIsLinked(p.entries, p.runtimes);
    if HasFeedEdits(c) && synced && p.entries != [] {
      LinkedWhenMerged(c.feeds, c.dirty, p.entries, p.runtimes);
      LinkedHasFeeds(c1.feeds, c1.dirty, p.entries);
      TakeFeedsListed(c0, p);
      hide Linked, Merge, Load, Listed;
      if c.editorDirty {
        assert c.selectedID in Ids(c1.feeds) by {
          DirtyIsListed(c1.feeds, c1.dirty, c.selectedID);
        }
      }
    }
    hide Linked, Merge, Load, FindId, Ids, Listed, WriteEditor, TakeFeeds, Reselect;
    WriteEditorSyncs(Reselect(c1), p.entries);
  }

  lemma DirtyIsListed(feeds: seq<Feed>, dirty: set<string>, id: string)
    requires Listed(feeds, dirty) && id in dirty
    ensures id in Ids(feeds)
  {
  }

  lemma WriteEditorSyncs(c: Client, entries: seq<Entry>)
    ensures entries == [] || Linked(c.feeds, c.dirty, entries) ==> Synced(WriteEditor(c), entries)
    ensures WriteEditor(c) == c.(form := WriteEditor(c).form, editorDirty := WriteEditor(c).editorDirty)
  {
    if entries == [] || Linked(c.feeds, c.dirty, entries) {
      WriteEditorSynced(c, entries);
    }
    hide Linked;
  }

  // ---------------------------------------------------------------- the invariant of a schedule

  predicate VersionsOk(history: seq<Version>) {
    history != [] && forall i | 0 <= i < |history| :: ValidEntries(EntriesOf(history[i]))
  }

  /** What is known of a base and a view: the revision is the base's, the view is not older. */
  predicate Based(hash: Hash, history: seq<Version>, base: nat, view: nat, revision: string) {
    base <= view < |history| && revision == hash(history[base])
  }

  /** With dirty pipelines, an edited form belongs to one of them. */
  predicate FormOwned(c: Client) {
    c.editorDirty && c.dirty != {} ==> c.selectedID in c.dirty
  }

  /** No version from one to another has other pipelines than the first. */
  predicate Unmoved(history: seq<Version>, from: nat, to: nat) {
    from <= to < |history| && forall i | from <= i <= to :: EntrySet(history[i]) == EntrySet(history[from])
  }

  /** The switch is the one of the version merged last, unless the user set it. */
  predicate SwitchSeen(history: seq<Version>, view: nat, enabled: bool, globalDirty: bool) {
    view < |history| && (globalDirty || enabled == SwitchOf(history[view]))
  }

  predicate ClientOk(hash: Hash, history: seq<Version>, c: Client) {
    && Shape(c) && FormOwned(c)
    && Based(hash, history, c.base, c.view, c.revision)
    && SwitchSeen(history, c.view, c.enabled, c.globalDirty)
    && (Unmoved(history, c.base, c.view) ==> Synced(c, EntriesOf(history[c.base])))
  }

  predicate RequestOk(hash: Hash, history: seq<Version>, r: Request) {
    && Listed(r.feeds, r.dirty) && r.feeds != [] && r.entries == SavedEntries(r.feeds)
    && Based(hash, history, r.base, r.view, r.expected)
    && SwitchSeen(history, r.view, r.enabled, r.globalDirty)
    && (Unmoved(history, r.base, r.view) ==>
          EntriesOf(history[r.base]) == [] || Linked(r.feeds, r.dirty, EntriesOf(history[r.base])))
  }

  lemma LinkedToSame(feeds: seq<Feed>, dirty: set<string>, a: Version, b: Version)
    requires EntrySet(a) == EntrySet(b)
    ensures EntriesOf(a) == [] ==> EntriesOf(b) == []
    ensures Linked(feeds, dirty, EntriesOf(a)) ==> Linked(feeds, dirty, EntriesOf(b))
  {
    var x, y := EntriesOf(a), EntriesOf(b);
    hide EntriesOf;
    forall e | e in y
      ensures e in x
    {
      assert e in EntrySet(b);
    }
    forall e | e in x
      ensures e in y
    {
      assert e in EntrySet(a);
    }
    if y != [] {
      assert y[0] in x;
    }
    if Linked(feeds, dirty, x) {
      hide EntrySet;
      LinkedToMembers(feeds, dirty, x, y);
    }
  }

  lemma LinkedToMembers(feeds: seq<Feed>, dirty: set<string>, x: seq<Entry>, y: seq<Entry>)
    requires Linked(feeds, dirty, x) && (forall e | e in y :: e in x) && (forall e | e in x :: e in y)
    ensures Linked(feeds, dirty, y)
  {
    forall j | 0 <= j < |y|
      ensures Represented(feeds, dirty, y[j])
    {
      assert y[j] in x;
      var i :| 0 <= i < |x| && x[i] == y[j];
      assert Represented(feeds, dirty, x[i]);
    }
    forall i | 0 <= i < |feeds| && feeds[i].id !in dirty
      ensures FromEntry(feeds[i], y)
    {
      assert FromEntry(feeds[i], x);
      var j :| 0 <= j < |x| && IsEntry(feeds[i], x[j]);
      assert x[j] in y;
      var k :| 0 <= k < |y| && y[k] == x[j];
      assert IsEntry(feeds[i], y[k]);
    }
  }

  lemma SyncedToSame(c: Client, a: Version, b: Version)
    requires EntrySet(a) == EntrySet(b) && Synced(c, EntriesOf(a))
    ensures Synced(c, EntriesOf(b))
  {
    LinkedToSame(c.feeds, c.dirty, a, b);
    LinkedToSame(c.feeds, c.dirty, b, a);
    hide Linked;
  }

  predicate OutcomeOk(history: seq<Version>, o: Outcome) {
    o.Accepted? ==> o.version < |history| && EntriesOf(history[o.version]) != []
  }

  predicate SentOk(hash: Hash, history: seq<Version>, m: Sent) {
    RequestOk(hash, history, m.request) && OutcomeOk(history, m.outcome)
  }

  /** A refresh begun before a save is not of the current generation; one of the current
      generation is never answered with something older than the view. */
  predicate RefreshOk(s: System) {
    && (s.client.refresh.Some? ==> s.client.refresh.value <= s.client.generation)
    && (s.client.refresh == Some(s.client.generation) ==>
          !s.client.saving && (s.answered.Some? ==> s.client.view <= s.answered.value))
    && (s.answered.Some? ==> s.answered.value < |s.history|)
  }

  predicate AllSentOk(hash: Hash, history: seq<Version>, sent: seq<Sent>) {
    forall k | 0 <= k < |sent| :: SentOk(hash, history, sent[k])
  }

  predicate Inv(hash: Hash, s: System) {
    && VersionsOk(s.history) && ClientOk(hash, s.history, s.client) && RefreshOk(s)
    && AllSentOk(hash, s.history, s.sent)
    && (s.client.saving ==> s.sent != [])
  }

  lemma ServerWrites(hash: Hash, s: System, v: Version)
    requires Inv(hash, s) && ValidEntries(EntriesOf(v))
    ensures Inv(hash, s.(history := s.history + [v]))
  {
    hide Shape, Synced, Linked, ValidEntries, Listed;
    var history := s.history + [v];
    assert forall i | 0 <= i < |s.history| :: history[i] == s.history[i];
    forall k | 0 <= k < |s.sent|
      ensures SentOk(hash, history, s.sent[k])
    {
      assert SentOk(hash, s.history, s.sent[k]);
    }
  }

  /** The server's answer to a save keeps the invariant, whatever the revisions are. */
  lemma ServeKeepsInv(hash: Hash, s: System, k: nat, willing: bool)
    requires Inv(hash, s) && k < |s.sent|
    ensures Inv(hash, Serve(hash, s, k, willing))
  {
    var r := s.sent[k].request;
    assert SentOk(hash, s.history, s.sent[k]);
    if willing && ValidEntries(r.entries) && Matches(hash, s.history, r) {
      var v := Some(Config(r.enabled, r.entries));
      ServerWrites(hash, s, v);
      var history := s.history + [v];
      hide Shape, Synced, Linked, ValidEntries, Listed, ClientOk, VersionsOk, Based;
      assert history[|s.history|] == v && r.entries != [];
      assert SentOk(hash, history, s.sent[k]);
      OneOutcome(hash, history, s.sent, k, Accepted(|s.history|));
    } else {
      hide Shape, Synced, Linked, ValidEntries, Listed, ClientOk, VersionsOk, Based;
      OneOutcome(hash, s.history, s.sent, k, Rejected);
    }
  }

  lemma OneOutcome(hash: Hash, history: seq<Version>, sent: seq<Sent>, k: nat, o: Outcome)
    requires AllSentOk(hash, history, sent) && k < |sent| && OutcomeOk(history, o)
    ensures AllSentOk(hash, history, sent[k := Sent(sent[k].request, o)])
  {
    hide RequestOk, OutcomeOk;
    assert SentOk(hash, history, sent[k]);
  }

  lemma UpsertOnlyEdits(c: Client, default: Entry)
    ensures Upsert(c, default).Some? ==>
              var c1 := Upsert(c, default).value;
              c1 == c.(feeds := c1.feeds, selectedID := c1.selectedID, dirty := c1.dirty)
  {
  }

  lemma UserKeepsInv(hash: Hash, default: Entry, s: System, form: Form, id: string)
    requires Inv(hash, s) && default.id != "" && form.id != ""
    ensures Inv(hash, s.(client := EditForm(s.client, form)))
    ensures Inv(hash, s.(client := SwitchTo(s.client, default, id)))
    ensures Inv(hash, s.(client := AddInstance(s.client, default, id)))
  {
    UserKeepsShape(s.client, default, form, id);
    UserKeepsRest(s.client, default, form, id);
    UserOwns(s.client, default, form, id);
    if Unmoved(s.history, s.client.base, s.client.view) {
      UserSynced(s.client, default, EntriesOf(s.history[s.client.base]), form, id);
    }
    hide Shape, FormOwned, Synced, EditForm, SwitchTo, AddInstance, AllSentOk, VersionsOk;
  }

  predicate SameRest(c: Client, c1: Client) {
    && c1.base == c.base && c1.view == c.view && c1.revision == c.revision
    && c1.generation == c.generation && c1.refresh == c.refresh && c1.saving == c.saving
    && c1.enabled == c.enabled && c1.globalDirty == c.globalDirty
  }

  lemma WriteEditorOwns(c: Client)
    requires c.feeds != []
    ensures FormOwned(WriteEditor(c))
  {
    hide FindId;
  }

  lemma UpsertOwns(c: Client, default: Entry)
    requires Shape(c) && FormOwned(c) && Upsert(c, default).Some?
    ensures FormOwned(Upsert(c, default).value)
  {
    hide FindId, Listed, Collides, Edited;
  }

  lemma UserOwns(c: Client, default: Entry, form: Form, id: string)
    requires Shape(c) && FormOwned(c) && default.id != ""
    ensures FormOwned(EditForm(c, form)) && FormOwned(SwitchTo(c, default, id))
    ensures FormOwned(AddInstance(c, default, id))
  {
    if c.feeds != [] {
      SelectionIsNamed(c);
    } else {
      NothingDirty(c);
    }
    UpsertShape(c, default);
    hide Upsert, FindId, WriteEditor, Shape, Collides;
    if Upsert(c, default).Some? {
      var c1 := Upsert(c, default).value;
      UpsertOwns(c, default);
      RenderSelects(c1.(selectedID := id));
      WriteEditorOwns(Render(c1.(selectedID := id)));
      WriteEditorOwns(c1.(feeds := c1.feeds + [Loaded(Entry(id, default.settings), "")],
                          selectedID := id, dirty := c1.dirty + {id}));
    }
  }

  lemma NothingDirty(c: Client)
    requires Shape(c) && c.feeds == []
    ensures c.dirty == {}
  {
    assert Ids(c.feeds) == {};
    hide AllNamed, UniqueIds;
  }

  lemma TakePayloadOwns(c: Client, p: Payload)
    requires Shape(c) && FormOwned(c) && ValidEntries(p.entries)
    ensures FormOwned(TakePayload(c, p))
  {
    var c0 := TakeEnabled(TakeRevision(c, p), p);
    TakeFeedsListed(c0, p);
    TakeFeedsOnlyFeeds(c0, p);
    var c1 := TakeFeeds(c0, p);
    ReselectSelects(c1);
    hide TakeFeeds, Reselect, Listed;
    if c.editorDirty && c.dirty != {} {
      DirtyIsListed(c1.feeds, c1.dirty, c.selectedID);
    }
    WriteEditorDiscards(Reselect(c1));
  }

  lemma WriteEditorDiscards(c: Client)
    ensures !c.editorDirty ==> !WriteEditor(c).editorDirty
    ensures WriteEditor(c).dirty == c.dirty && WriteEditor(c).selectedID == c.selectedID
  {
    hide FindId;
  }

  lemma UserKeepsRest(c: Client, default: Entry, form: Form, id: string)
    ensures SameRest(c, EditForm(c, form)) && SameRest(c, SwitchTo(c, default, id))
    ensures SameRest(c, AddInstance(c, default, id))
  {
    UpsertOnlyEdits(c, default);
    hide Upsert, Collides, FindId, Selected, Loaded, FormOf;
  }

  lemma ToggleKeepsInv(hash: Hash, s: System, enabled: bool)
    requires Inv(hash, s)
    ensures Inv(hash, s.(client := ToggleEnabled(s.client, enabled)))
  {
    hide Listed, Linked, FindId, AllSentOk, VersionsOk;
  }

  /** An answer that is taken, whatever its age, as long as it is not older than the view. */
  lemma RefreshedOk(hash: Hash, history: seq<Version>, c: Client, runtimes: seq<string>, w: nat)
    requires VersionsOk(history) && ClientOk(hash, history, c) && c.view <= w < |history|
    ensures var c1 := TakePayload(c, Read(hash, history[w], runtimes, w));
            ClientOk(hash, history, c1) && c1.view == w
  {
    var p := Read(hash, history[w], runtimes, w);
    hide ValidEntries;
    assert p.entries == EntriesOf(history[w]) && ValidEntries(p.entries);
    TakePayloadShape(c, p);
    TakePayloadOwns(c, p);
    TakePayloadSwitch(c, p);
    TakePayloadSyncs(hash, history, c, p);
    hide Shape, Synced, TakePayload, FormOwned, HasFeedEdits, EntrySet, Unmoved;
  }

  lemma TakePayloadSyncs(hash: Hash, history: seq<Version>, c: Client, p: Payload)
    requires VersionsOk(history) && ClientOk(hash, history, c) && c.view <= p.version < |history|
    requires p.entries == EntriesOf(history[p.version]) && p.revision == hash(history[p.version])
    ensures var c1 := TakePayload(c, p);
            && Based(hash, history, c1.base, c1.view, c1.revision) && c1.view == p.version
            && (Unmoved(history, c1.base, c1.view) ==> Synced(c1, EntriesOf(history[c1.base])))
  {
    var w := p.version;
    var synced := Unmoved(history, c.base, w);
    hide ValidEntries, TakePayload, Shape, Synced, FormOwned, HasFeedEdits, EntrySet;
    if synced {
      SyncedToSame(c, history[c.base], history[w]);
    }
    TakePayloadSynced(c, p, synced);
    if synced {
      SyncedToSame(TakePayload(c, p), history[w], history[c.base]);
    }
  }

  lemma TakePayloadSwitch(c: Client, p: Payload)
    ensures var c1 := TakePayload(c, p);
            c1.globalDirty == c.globalDirty && c1.enabled == if c.globalDirty then c.enabled else p.enabled
  {
    hide Merge, Load, FindId;
  }

  /** A discarded answer changes nothing; one that is taken is at least as new as the view. */
  lemma RefreshKeepsInv(hash: Hash, s: System, runtimes: seq<string>)
    requires Inv(hash, s) && s.client.refresh.Some? && s.answered.Some? && s.answered.value < |s.history|
    ensures var w := s.answered.value;
            Inv(hash, s.(client := FinishRefresh(s.client, Read(hash, s.history[w], runtimes, w)), answered := None))
  {
    var w := s.answered.value;
    var c := s.client.(refresh := None);
    IdleIsOk(hash, s.history, s.client);
    hide ClientOk, VersionsOk, AllSentOk, Read, TakePayload;
    if !s.client.saving && s.client.refresh == Some(s.client.generation) {
      RefreshedOk(hash, s.history, c, runtimes, w);
      TakePayloadRest(c, Read(hash, s.history[w], runtimes, w));
    }
  }

  lemma IdleIsOk(hash: Hash, history: seq<Version>, c: Client)
    requires ClientOk(hash, history, c)
    ensures ClientOk(hash, history, c.(refresh := None))
  {
    RefreshFieldOnly(c, None, EntriesOf(history[c.base]));
    hide Shape, Synced;
  }

  lemma RefreshFieldOnly(c: Client, r: Option<nat>, entries: seq<Entry>)
    requires Shape(c)
    ensures Shape(c.(refresh := r))
    ensures Synced(c, entries) ==> Synced(c.(refresh := r), entries)
  {
    hide Listed, Linked, FindId;
  }

  lemma TakePayloadRest(c: Client, p: Payload)
    ensures var c1 := TakePayload(c, p);
            c1.generation == c.generation && c1.refresh == c.refresh && c1.saving == c.saving
  {
    hide Merge, Load, FindId;
  }

  lemma UpsertedOk(hash: Hash, default: Entry, history: seq<Version>, c: Client)
    requires ClientOk(hash, history, c) && default.id != "" && Upsert(c, default).Some?
    ensures ClientOk(hash, history, Upsert(c, default).value) && Upsert(c, default).value.feeds != []
  {
    hide Upsert, Shape, Synced;
    UpsertShape(c, default);
    UpsertOnlyEdits(c, default);
    UpsertOwns(c, default);
    if Unmoved(history, c.base, c.view) {
      UpsertSynced(c, default, EntriesOf(history[c.base]));
    }
  }

  lemma ClientSaves(hash: Hash, default: Entry, history: seq<Version>, c: Client, valid: bool)
    requires ClientOk(hash, history, c) && default.id != "" && !c.saving
    ensures var (c1, r) := BeginSave(c, default, valid);
            && ClientOk(hash, history, c1) && c1.refresh == c.refresh && c1.generation == c.generation + 1
            && c1.view == c.view && (c1.saving <==> r.Some?)
            && (r.Some? ==> RequestOk(hash, history, r.value))
  {
    hide Upsert, ClientOk, RequestOk, RequestOf;
    var c1 := c.(generation := c.generation + 1);
    GenerationOk(hash, history, c);
    if valid && Upsert(c1, default).Some? {
      UpsertedOk(hash, default, history, c1);
      UpsertOnlyEdits(c1, default);
      var c2 := Upsert(c1, default).value;
      SavingOk(hash, history, c2, true);
      RequestIsOk(hash, history, c2);
    }
  }

  lemma GenerationOk(hash: Hash, history: seq<Version>, c: Client)
    requires ClientOk(hash, history, c)
    ensures ClientOk(hash, history, c.(generation := c.generation + 1))
  {
    hide Listed, Linked, FindId;
  }

  lemma SavingOk(hash: Hash, history: seq<Version>, c: Client, saving: bool)
    requires ClientOk(hash, history, c)
    ensures ClientOk(hash, history, c.(saving := saving))
  {
    hide Listed, Linked, FindId;
  }

  lemma RequestIsOk(hash: Hash, history: seq<Version>, c: Client)
    requires ClientOk(hash, history, c) && c.feeds != []
    ensures RequestOk(hash, history, RequestOf(c))
  {
    hide Linked, Listed, SavedEntries, ShowsSelected;
  }

  lemma SaveKeepsInv(hash: Hash, default: Entry, s: System, valid: bool)
    requires Inv(hash, s) && default.id != "" && !s.client.saving
    ensures Inv(hash, Apply(hash, default, s, SaveBegins(valid)))
  {
    hide BeginSave, ClientOk, RequestOk, AllSentOk, VersionsOk;
    ClientSaves(hash, default, s.history, s.client, valid);
    var request := BeginSave(s.client, default, valid).1;
    if request.Some? {
      AppendSent(hash, s.history, s.sent, Sent(request.value, Pending));
    }
  }

  lemma AppendSent(hash: Hash, history: seq<Version>, sent: seq<Sent>, m: Sent)
    requires AllSentOk(hash, history, sent) && SentOk(hash, history, m)
    ensures AllSentOk(hash, history, sent + [m])
  {
    hide SentOk;
  }

  lemma ClientSaved(hash: Hash, history: seq<Version>, c: Client, runtimes: seq<string>, w: nat)
    requires ClientOk(hash, history, c) && w < |history|
    requires EntriesOf(history[w]) != [] && ValidEntries(EntriesOf(history[w]))
    ensures ClientOk(hash, history, FinishSave(c, Read(hash, history[w], runtimes, w)))
  {
    var p := Read(hash, history[w], runtimes, w);
    FinishSaveShape(c, p);
    LoadIsLinked(p.entries, p.runtimes);
    FinishSaveRest(c, p);
    hide Shape, Load, FinishSave, Linked, ValidEntries;
  }

  lemma SavedKeepsInv(hash: Hash, s: System, runtimes: seq<string>, w: nat)
    requires Inv(hash, s) && s.client.saving && Awaited(s) == Accepted(w) && w < |s.history|
    ensures Inv(hash, s.(client := FinishSave(s.client, Read(hash, s.history[w], runtimes, w))))
  {
    assert SentOk(hash, s.history, s.sent[|s.sent| - 1]);
    hide ClientOk, AllSentOk, RequestOk, FinishSave, ValidEntries, Read;
    ClientSaved(hash, s.history, s.client, runtimes, w);
    FinishSaveRest(s.client, Read(hash, s.history[w], runtimes, w));
    ReadIsOf(hash, s.history[w], runtimes, w);
  }

  lemma ReadIsOf(hash: Hash, v: Version, runtimes: seq<string>, w: nat)
    ensures Read(hash, v, runtimes, w).version == w
  {
  }

  lemma FinishSaveRest(c: Client, p: Payload)
    ensures var c1 := FinishSave(c, p);
            && c1.feeds == Load(p.entries, p.runtimes) && c1.dirty == {}
            && c1.base == c1.view == p.version && c1.revision == p.revision
            && c1.generation == c.generation && c1.refresh == c.refresh && !c1.saving
            && c1.enabled == p.enabled && !c1.globalDirty
  {
    hide Load, FindId;
  }

  lemma FailKeepsInv(hash: Hash, s: System)
    requires Inv(hash, s) && s.client.saving
    ensures Inv(hash, s.(client := FailSave(s.client)))
  {
    hide ClientOk, AllSentOk, VersionsOk;
    SavingOk(hash, s.history, s.client, false);
  }

  lemma ApplyKeepsInv(hash: Hash, default: Entry, s: System, e: Event)
    requires Inv(hash, s) && default.id != ""
    ensures Inv(hash, Apply(hash, default, s, e))
  {
    hide Inv, EditForm, SwitchTo, AddInstance, ToggleEnabled, FinishRefresh, BeginSave, FinishSave, FailSave, Serve,
      Read, BeginRefresh, ValidEntries;
    if Enabled(s, e) {
      var some := Form("x", "");
      match e {
        case OtherWrites(v) => ServerWrites(hash, s, v);
        case UserTypes(form) => UserKeepsInv(hash, default, s, form, "");
        case UserToggles(enabled) => ToggleKeepsInv(hash, s, enabled);
        case UserSelects(id) => UserKeepsInv(hash, default, s, some, id);
        case UserAdds(id) => UserKeepsInv(hash, default, s, some, id);
        case RefreshBegins => PlainRefreshKeepsInv(hash, s);
        case RefreshAnswered => PlainRefreshKeepsInv(hash, s);
        case RefreshArrives(runtimes) => RefreshKeepsInv(hash, s, runtimes);
        case RefreshFails => PlainRefreshKeepsInv(hash, s);
        case SaveBegins(valid) => SaveKeepsInv(hash, default, s, valid);
        case SaveReachesServer(k, willing) => ServeKeepsInv(hash, s, k, willing);
        case SaveArrives(runtimes) => SavedKeepsInv(hash, s, runtimes, Awaited(s).version);
        case SaveFails => FailKeepsInv(hash, s);
      }
    }
  }

  lemma PlainRefreshKeepsInv(hash: Hash, s: System)
    requires Inv(hash, s)
    ensures !s.client.saving && s.client.refresh.None? ==>
              Inv(hash, s.(client := BeginRefresh(s.client), answered := None))
    ensures s.client.refresh.Some? ==>
              && Inv(hash, s.(answered := Some(|s.history| - 1)))
              && Inv(hash, s.(client := s.client.(refresh := None), answered := None))
  {
    RefreshFieldOnly(s.client, None, EntriesOf(s.history[s.client.base]));
    RefreshFieldOnly(s.client, Some(s.client.generation), EntriesOf(s.history[s.client.base]));
    hide Shape, Synced, AllSentOk;
  }

  lemma ClientBoots(hash: Hash, default: Entry, history: seq<Version>, runtimes: seq<string>, w: nat)
    requires VersionsOk(history) && default.id != "" && w < |history|
    ensures ClientOk(hash, history, Start(default, Read(hash, history[w], runtimes, w)))
  {
    var p := Read(hash, history[w], runtimes, w);
    assert ValidEntries(p.entries);
    StartShape(default, p);
    LoadIsLinked(p.entries, p.runtimes);
    StartIs(default, p);
    hide Shape, Linked, Load, Start, ValidEntries;
  }

  lemma BootKeepsInv(hash: Hash, default: Entry, history: seq<Version>, runtimes: seq<string>)
    requires VersionsOk(history) && default.id != ""
    ensures Inv(hash, Boot(hash, default, history, runtimes))
  {
    hide ClientOk, Read, Start, ValidEntries;
    ClientBoots(hash, default, history, runtimes, |history| - 1);
    StartIs(default, Read(hash, Current(history), runtimes, |history| - 1));
  }

  lemma StartIs(default: Entry, p: Payload)
    ensures var c := Start(default, p);
            && c.base == c.view == p.version && c.revision == p.revision && !c.saving && c.refresh.None?
            && !c.editorDirty && c.enabled == p.enabled && !c.globalDirty
            && (p.entries != [] ==> c.feeds == Load(p.entries, p.runtimes) && c.dirty == {})
  {
    hide Load, FindId;
  }

  lemma {:induction false} RunKeepsInv(
      hash: Hash, default: Entry, history: seq<Version>, runtimes: seq<string>, events: seq<Event>)
    requires VersionsOk(history) && default.id != ""
    ensures Inv(hash, Run(hash, default, Boot(hash, default, history, runtimes), events))
    decreases |events|
  {
    hide Inv, Apply, Boot, ValidEntries;
    if events == [] {
      BootKeepsInv(hash, default, history, runtimes);
    } else {
      RunKeepsInv(hash, default, history, runtimes, events[..|events| - 1]);
      ApplyKeepsInv(hash, default, Run(hash, default, Boot(hash, default, history, runtimes), events[..|events| - 1]),
                    events[|events| - 1]);
    }
  }

  // ---------------------------------------------------------------- saves never overwrite unseen changes

  /** A save is made of the current file and of the user's own pipelines: nothing of the file is
      missing but what a dirty pipeline was loaded from, and everything else is as the file has it. */
  predicate ReplacesOnlyOwn(r: Request, entries: seq<Entry>) {
    && (forall j | 0 <= j < |entries| ::
          entries[j] in r.entries
          || exists i :: 0 <= i < |r.feeds| && r.feeds[i].id in r.dirty && r.feeds[i].originalId == entries[j].id)
    && (entries != [] ==> forall i | 0 <= i < |r.entries| :: r.entries[i].id in r.dirty || r.entries[i] in entries)
  }

  lemma LinkedReplacesOnlyOwn(r: Request, entries: seq<Entry>)
    requires r.entries == SavedEntries(r.feeds) && Linked(r.feeds, r.dirty, entries)
    ensures ReplacesOnlyOwn(r, entries)
  {
    forall j | 0 <= j < |entries| && entries[j] !in r.entries
      ensures exists i :: 0 <= i < |r.feeds| && r.feeds[i].id in r.dirty && r.feeds[i].originalId == entries[j].id
    {
      assert Represented(r.feeds, r.dirty, entries[j]);
      var i :| 0 <= i < |r.feeds| && Represents(r.feeds[i], r.dirty, entries[j]);
      assert r.entries[i] == Entry(r.feeds[i].id, r.feeds[i].settings);
      assert r.feeds[i].id in r.dirty;
    }
    forall i | 0 <= i < |r.entries| && r.entries[i].id !in r.dirty
      ensures r.entries[i] in entries
    {
      assert FromEntry(r.feeds[i], entries);
      var j :| 0 <= j < |entries| && IsEntry(r.feeds[i], entries[j]);
      assert r.entries[i] == entries[j];
    }
  }

  /** A save leaves the switch as the file has it, unless the user set it. */
  predicate KeepsSwitch(r: Request, v: Version) {
    r.globalDirty || r.enabled == SwitchOf(v)
  }

  /** No version from `from` on has another switch than the current file. */
  predicate SwitchUnmoved(history: seq<Version>, from: nat)
    requires history != []
  {
    forall i | from <= i < |history| :: SwitchOf(history[i]) == SwitchOf(Current(history))
  }

  lemma AcceptedAtServer(hash: Hash, s: System, k: nat)
    requires Inv(hash, s) && k < |s.sent|
    ensures var r := s.sent[k].request;
            && (Unmoved(s.history, r.base, |s.history| - 1) ==> ReplacesOnlyOwn(r, EntriesOf(Current(s.history))))
            && (SwitchUnmoved(s.history, r.base) ==> KeepsSwitch(r, Current(s.history)))
  {
    hide ClientOk, RefreshOk, Linked, Listed, VersionsOk, ReplacesOnlyOwn, SavedEntries, EntrySet, SwitchOf;
    assert SentOk(hash, s.history, s.sent[k]);
    var r := s.sent[k].request;
    if Unmoved(s.history, r.base, |s.history| - 1) {
      assert Unmoved(s.history, r.base, r.view);
      LinkedToSame(r.feeds, r.dirty, s.history[r.base], Current(s.history));
      if EntriesOf(Current(s.history)) != [] {
        LinkedToSame(r.feeds, r.dirty, Current(s.history), s.history[r.base]);
        LinkedReplacesOnlyOwn(r, EntriesOf(Current(s.history)));
      } else {
        EmptyFile(r);
      }
    }
  }

  lemma EmptyFile(r: Request)
    ensures ReplacesOnlyOwn(r, [])
  {
  }

  /** Over every schedule: as long as no version after the one a save is based on has other
      pipelines, the save replaces nothing but the user's own ones, and as long as none has
      another switch, it sets the switch only if the user did; however often the file was written
      again or the editor refreshed. */
  lemma AcceptedSaveSawEverything(
      hash: Hash, default: Entry, history: seq<Version>, runtimes: seq<string>, events: seq<Event>, k: nat)
    requires VersionsOk(history) && default.id != ""
    requires k < |Run(hash, default, Boot(hash, default, history, runtimes), events).sent|
    ensures var s := Run(hash, default, Boot(hash, default, history, runtimes), events);
            && s.history != []
            && var r, current := s.sent[k].request, Current(s.history);
               && (Unmoved(s.history, r.base, |s.history| - 1) ==> ReplacesOnlyOwn(r, EntriesOf(current)))
               && (SwitchUnmoved(s.history, r.base) ==> KeepsSwitch(r, current))
  {
    hide *;
    SomeVersion(history);
    RunKeepsInv(hash, default, history, runtimes, events);
    var s := Run(hash, default, Boot(hash, default, history, runtimes), events);
    InvHolds(hash, s);
    AcceptedAtServer(hash, s, k);
  }

  lemma SomeVersion(history: seq<Version>)
    requires VersionsOk(history)
    ensures history != []
  {
  }

  lemma InvHolds(hash: Hash, s: System)
    requires Inv(hash, s)
    ensures s.history != [] && Shape(s.client)
  {
    hide Shape, AllSentOk, RefreshOk;
  }

  // ---------------------------------------------------------------- exactly when a save overwrites what nobody touched

  /** The editor has a save under way, based on version `i`, that the server would take over the
      last version of this history, and that replaces pipelines of it which the user never touched. */
  predicate Overwrites(hash: Hash, s: System, history: seq<Version>, i: nat, k: nat)
    requires history != []
  {
    && s.history == history && k < |s.sent| && s.sent[k].outcome.Pending?
    && var r := s.sent[k].request;
       r.base == i && Matches(hash, history, r) && ValidEntries(r.entries)
       && !ReplacesOnlyOwn(r, EntriesOf(Current(history)))
  }

  /** An editor opened on a prefix of the history has such a save at the end of a schedule. */
  ghost predicate OverwrittenBy(
      hash: Hash, default: Entry, history: seq<Version>, i: nat, begun: nat, events: seq<Event>, k: nat) {
    && 0 < begun <= |history|
    && Overwrites(hash, Run(hash, default, Boot(hash, default, history[..begun], []), events), history, i, k)
  }

  ghost predicate Overwritten(hash: Hash, default: Entry, history: seq<Version>, i: nat) {
    exists begun: nat, events, k: nat :: OverwrittenBy(hash, default, history, i, begun, events, k)
  }

  /** Version `i` came back: the current file has pipelines and the revision of version `i`, and a
      version in between had other pipelines. */
  predicate Returned(hash: Hash, history: seq<Version>, i: nat) {
    && i < |history| && hash(Current(history)) == hash(history[i]) && EntriesOf(Current(history)) != []
    && !Unmoved(history, i, |history| - 1)
  }

  lemma OverwriteNeedsReturn(hash: Hash, s: System, history: seq<Version>, i: nat, k: nat)
    requires history != [] && Inv(hash, s) && Overwrites(hash, s, history, i, k)
    ensures Returned(hash, history, i)
  {
    hide Unmoved, ReplacesOnlyOwn, SwitchUnmoved, ValidEntries;
    SentIsBased(hash, s, k);
    AcceptedAtServer(hash, s, k);
    EmptyFile(s.sent[k].request);
    hide Inv;
  }

  lemma SentIsBased(hash: Hash, s: System, k: nat)
    requires Inv(hash, s) && k < |s.sent|
    ensures var r := s.sent[k].request; Based(hash, s.history, r.base, r.view, r.expected)
  {
    hide ClientOk, RefreshOk, Linked, Listed, SavedEntries, Unmoved, VersionsOk;
    assert SentOk(hash, s.history, s.sent[k]);
  }

  function Longest(feeds: seq<Feed>): (n: nat)
    ensures forall k | 0 <= k < |feeds| :: |feeds[k].id| <= n
    decreases |feeds|
  {
    if feeds == [] then 0
    else
      var n, last := Longest(feeds[..|feeds| - 1]), |feeds[|feeds| - 1].id|;
      assert forall k | 0 <= k < |feeds| - 1 :: feeds[k] == feeds[..|feeds| - 1][k];
      if n < last then last else n
  }

  /** An id no pipeline has, in any case. */
  function FreshId(feeds: seq<Feed>): (id: string)
    ensures id != "" && forall index :: !Collides(feeds, index, id)
  {
    var id := seq(Longest(feeds) + 1, _ => 'x');
    assert forall k | 0 <= k < |feeds| :: |Lower(feeds[k].id)| < |Lower(id)|;
    id
  }

  function Writes(versions: seq<Version>): seq<Event> {
    seq(|versions|, k requires 0 <= k < |versions| => OtherWrites(versions[k]))
  }

  lemma {:induction false} RunJoined(hash: Hash, default: Entry, s: System, a: seq<Event>, b: seq<Event>)
    ensures Run(hash, default, s, a + b) == Run(hash, default, Run(hash, default, s, a), b)
    decreases |b|
  {
    hide Apply;
    if b == [] {
      assert a + b == a;
    } else {
      var n := |b| - 1;
      assert (a + b)[..|a + b| - 1] == a + b[..n];
      RunJoined(hash, default, s, a, b[..n]);
    }
  }

  lemma {:induction false} WritesAppend(hash: Hash, default: Entry, s: System, versions: seq<Version>)
    requires forall k | 0 <= k < |versions| :: ValidEntries(EntriesOf(versions[k]))
    ensures Run(hash, default, s, Writes(versions)) == s.(history := s.history + versions)
    decreases |versions|
  {
    hide ValidEntries;
    if versions == [] {
      assert s.history + versions == s.history;
    } else {
      var n := |versions| - 1;
      WritesAppend(hash, default, s, versions[..n]);
      assert Writes(versions)[..n] == Writes(versions[..n]);
      assert (s.history + versions[..n]) + [versions[n]] == s.history + versions;
    }
  }

  /** An idle editor with a changed switch but no unsaved pipelines, which keeps the base it has. */
  predicate Idle(c: Client, base: nat, revision: string) {
    && c.base == base && c.revision == revision && c.globalDirty && !c.saving && c.refresh.None?
    && c.dirty == {} && !c.editorDirty
  }

  lemma TakePayloadIdle(c: Client, p: Payload, base: nat, revision: string)
    requires Idle(c, base, revision)
    ensures Idle(TakePayload(c, p), base, revision)
    ensures TakePayload(c, p).feeds == Load(p.entries, p.runtimes)
  {
    hide Merge, Load, FindId;
  }

  const REFRESH := [RefreshBegins, RefreshAnswered, RefreshArrives([])]

  /** An idle editor takes the current file on a refresh. */
  lemma RefreshTakes(hash: Hash, default: Entry, s: System)
    requires !s.client.saving && s.client.refresh.None? && s.history != []
    ensures var p := Read(hash, Current(s.history), [], |s.history| - 1);
            Run(hash, default, s, REFRESH) == s.(client := TakePayload(s.client, p), answered := None)
  {
    var w := |s.history| - 1;
    var c := s.client.(refresh := Some(s.client.generation));
    hide TakePayload, Run, Read;
    var s1 := Apply(hash, default, s, RefreshBegins);
    assert s1 == s.(client := c, answered := None);
    var s2 := Apply(hash, default, s1, RefreshAnswered);
    assert s2 == s.(client := c, answered := Some(w));
    assert c.(refresh := None) == s.client;
    RunThree(hash, default, s, RefreshBegins, RefreshAnswered, RefreshArrives([]));
  }

  lemma RefreshMerges(hash: Hash, default: Entry, s: System, base: nat, revision: string)
    requires Idle(s.client, base, revision) && s.history != []
    ensures var s1 := Run(hash, default, s, REFRESH);
            && Idle(s1.client, base, revision) && s1.client.feeds == Load(EntriesOf(Current(s.history)), [])
            && s1.history == s.history && s1.sent == s.sent
  {
    hide TakePayload, Run, Load;
    RefreshTakes(hash, default, s);
    TakePayloadIdle(s.client, Read(hash, Current(s.history), [], |s.history| - 1), base, revision);
  }

  lemma RunThree(hash: Hash, default: Entry, s: System, a: Event, b: Event, c: Event)
    ensures Run(hash, default, s, [a, b, c])
            == Apply(hash, default, Apply(hash, default, Apply(hash, default, s, a), b), c)
  {
    hide Apply;
    RunOneMore(hash, default, s, [], a);
    RunOneMore(hash, default, s, [a], b);
    RunOneMore(hash, default, s, [a, b], c);
    assert [] + [a] == [a] && [a] + [b] == [a, b] && [a, b] + [c] == [a, b, c];
  }

  /** Based on version `i`, the editor shows version `j`, and nothing of it is edited. */
  predicate Ready(hash: Hash, s: System, history: seq<Version>, i: nat, j: nat) {
    && i < j < |history| && s.history == history[..j + 1] && s.sent == []
    && Idle(s.client, i, hash(history[i])) && s.client.feeds == Load(EntriesOf(history[j]), []) && Shape(s.client)
  }

  lemma ReachesLater(hash: Hash, default: Entry, history: seq<Version>, i: nat, j: nat)
    requires VersionsOk(history) && i < j < |history| && EntriesOf(history[i]) != []
    ensures var s := Run(hash, default, Boot(hash, default, history[..i + 1], []),
                         [UserToggles(true)] + Writes(history[i + 1..j + 1]));
            && Idle(s.client, i, hash(history[i])) && s.sent == [] && s.history == history[..j + 1]
  {
    var middle := history[i + 1..j + 1];
    assert forall k | 0 <= k < |middle| :: ValidEntries(EntriesOf(middle[k]));
    assert history[..i + 1] + middle == history[..j + 1];
    hide *;
    var s0 := Boot(hash, default, history[..i + 1], []);
    BootIsIdle(hash, default, history, i);
    WritesAppend(hash, default, Run(hash, default, s0, [UserToggles(true)]), middle);
    RunJoined(hash, default, s0, [UserToggles(true)], Writes(middle));
  }

  /** Opened at version `i`, the editor comes to show version `j` while it keeps its base. */
  lemma MergesLater(hash: Hash, default: Entry, history: seq<Version>, i: nat, j: nat) returns (events: seq<Event>)
    requires VersionsOk(history) && i < j < |history| && EntriesOf(history[i]) != [] && default.id != ""
    ensures Ready(hash, Run(hash, default, Boot(hash, default, history[..i + 1], []), events), history, i, j)
  {
    assert Current(history[..j + 1]) == history[j];
    hide *;
    var s0 := Boot(hash, default, history[..i + 1], []);
    var a := [UserToggles(true)] + Writes(history[i + 1..j + 1]);
    events := a + REFRESH;
    ReachesLater(hash, default, history, i, j);
    RefreshMerges(hash, default, Run(hash, default, s0, a), i, hash(history[i]));
    RunJoined(hash, default, s0, a, REFRESH);
    RunHasShape(hash, default, history, i, events);
    ReadyWhen(hash, Run(hash, default, s0, events), history, i, j);
  }

  lemma ReadyWhen(hash: Hash, s: System, history: seq<Version>, i: nat, j: nat)
    requires i < j < |history| && s.history == history[..j + 1] && s.sent == [] && Shape(s.client)
    requires Idle(s.client, i, hash(history[i])) && s.client.feeds == Load(EntriesOf(history[j]), [])
    ensures Ready(hash, s, history, i, j)
  {
    hide Idle, Shape, Load, EntriesOf;
  }

  lemma RunHasShape(hash: Hash, default: Entry, history: seq<Version>, i: nat, events: seq<Event>)
    requires VersionsOk(history) && i < |history| && default.id != ""
    ensures Shape(Run(hash, default, Boot(hash, default, history[..i + 1], []), events).client)
  {
    hide *;
    PrefixIsOk(history, i + 1);
    RunKeepsInv(hash, default, history[..i + 1], [], events);
    InvHolds(hash, Run(hash, default, Boot(hash, default, history[..i + 1], []), events));
  }

  lemma BootIsIdle(hash: Hash, default: Entry, history: seq<Version>, i: nat)
    requires i < |history| && EntriesOf(history[i]) != []
    ensures var s1 := Run(hash, default, Boot(hash, default, history[..i + 1], []), [UserToggles(true)]);
            && Idle(s1.client, i, hash(history[i])) && s1.history == history[..i + 1] && s1.sent == []
  {
    var s0 := Boot(hash, default, history[..i + 1], []);
    StartIs(default, Read(hash, history[i], [], i));
    RunOneMore(hash, default, s0, [], UserToggles(true));
    assert [] + [UserToggles(true)] == [UserToggles(true)];
    hide Start;
  }

  /** One save of these entries is under way, and no pipeline was marked as the user's. */
  predicate Sends(s: System, history: seq<Version>, base: nat, expected: string, entries: seq<Entry>) {
    && s.history == history && |s.sent| == 1 && s.sent[0].outcome.Pending?
    && var r := s.sent[0].request;
       r.base == base && r.expected == expected && r.dirty == {} && r.entries == entries
  }

  lemma LoadedEntries(entries: seq<Entry>)
    ensures SavedEntries(Load(entries, [])) == entries
  {
  }

  lemma NoCollision(entries: seq<Entry>, at: nat)
    requires ValidEntries(entries) && at < |entries|
    ensures !Collides(Load(entries, []), Some(at), Load(entries, [])[at].id)
  {
    hide Lower;
    var feeds := Load(entries, []);
    forall k | 0 <= k < |feeds| && Some(k) != Some(at)
      ensures Lower(feeds[k].id) != Lower(feeds[at].id)
    {
      assert IsEntry(feeds[k], entries[k]) && IsEntry(feeds[at], entries[at]);
    }
  }

  lemma CleanUpsert(c: Client, default: Entry, entries: seq<Entry>)
    requires Shape(c) && c.feeds == Load(entries, []) && c.dirty == {} && !c.editorDirty
    requires entries != [] && ValidEntries(entries)
    ensures Upsert(c, default) == Some(c) && SavedEntries(c.feeds) == entries
  {
    InIds(c.feeds, c.selectedID);
    var at := FindId(c.feeds, c.selectedID).value;
    EditedIs(c, default, at);
    NoCollision(entries, at);
    LoadedEntries(entries);
    hide FindId, Edited, Collides, Load, Shape, ValidEntries, SavedEntries;
    assert c.feeds[at := c.feeds[at]] == c.feeds;
  }

  /** An untouched editor saves the version it shows. */
  lemma CleanSaveSends(hash: Hash, default: Entry, s: System, history: seq<Version>, i: nat, j: nat)
    requires Ready(hash, s, history, i, j) && EntriesOf(history[j]) != [] && ValidEntries(EntriesOf(history[j]))
    ensures Sends(Run(hash, default, s, [SaveBegins(true)]), s.history, i, hash(history[i]), EntriesOf(history[j]))
  {
    CleanBegins(hash, default, s, i, hash(history[i]), EntriesOf(history[j]));
    hide *;
    RunNothing(hash, default, s);
    RunOneMore(hash, default, s, [], SaveBegins(true));
    assert [] + [SaveBegins(true)] == [SaveBegins(true)];
  }

  lemma CleanBegins(hash: Hash, default: Entry, s: System, base: nat, revision: string, entries: seq<Entry>)
    requires Idle(s.client, base, revision) && Shape(s.client) && s.client.feeds == Load(entries, []) && s.sent == []
    requires entries != [] && ValidEntries(entries)
    ensures Sends(Apply(hash, default, s, SaveBegins(true)), s.history, base, revision, entries)
  {
    var c := s.client.(generation := s.client.generation + 1);
    GenerationShape(s.client);
    hide Shape, Load, ValidEntries, Upsert, SavedEntries;
    CleanUpsert(c, default, entries);
  }

  lemma RunNothing(hash: Hash, default: Entry, s: System)
    ensures Run(hash, default, s, []) == s
  {
  }

  /** What is typed into an empty list is saved without being marked as the user's. */
  lemma TypedSaveSends(hash: Hash, default: Entry, s: System, history: seq<Version>, i: nat, j: nat, id: string)
    requires Ready(hash, s, history, i, j) && EntriesOf(history[j]) == [] && id != ""
    ensures Sends(Run(hash, default, s, [UserTypes(Form(id, "")), SaveBegins(true)]), s.history, i, hash(history[i]),
                  [Entry(id, "")])
  {
    var e1, e2 := UserTypes(Form(id, "")), SaveBegins(true);
    var c := s.client;
    assert c.feeds == [] && c.selectedID == "";
    var c1 := EditForm(c, Form(id, ""));
    assert c1 == c.(form := Form(id, ""), editorDirty := true);
    var c2 := c1.(generation := c1.generation + 1);
    EmptyUpsert(c2, default);
    var edited := Edited(c2, default);
    assert edited.settings == "";
    var c3 := c2.(feeds := [edited], selectedID := id);
    assert SavedEntries([edited]) == [Entry(id, "")];
    hide Upsert, Edited, Load, Shape, EntriesOf, SavedEntries, Run, EditForm;
    var s1 := s.(client := c1);
    assert Apply(hash, default, s, e1) == s1;
    var s2 := Apply(hash, default, s1, e2);
    assert s2 == s.(client := c3.(saving := true), sent := [Sent(RequestOf(c3), Pending)]);
    RunNothing(hash, default, s);
    RunOneMore(hash, default, s, [], e1);
    RunOneMore(hash, default, s, [e1], e2);
    assert [] + [e1] == [e1] && [e1] + [e2] == [e1, e2];
  }

  /** Whatever version `j` holds, the editor that shows it can send pipelines unlike those of `v`. */
  lemma SendsOther(hash: Hash, default: Entry, s: System, history: seq<Version>, i: nat, j: nat, v: Version)
    returns (events: seq<Event>, entries: seq<Entry>)
    requires Ready(hash, s, history, i, j) && VersionsOk(history)
    requires EntrySet(history[j]) != EntrySet(v)
    ensures Sends(Run(hash, default, s, events), s.history, i, hash(history[i]), entries)
    ensures ValidEntries(entries) && (set e | e in entries) != EntrySet(v)
  {
    hide Run, Ready, Sends;
    assert i < j < |history| by {
      ReadyIs(hash, s, history, i, j);
    }
    if EntriesOf(history[j]) != [] {
      events, entries := [SaveBegins(true)], EntriesOf(history[j]);
      hide ValidEntries;
      CleanSaveSends(hash, default, s, history, i, j);
    } else {
      var id := FreshId(Load(EntriesOf(v), []));
      FreshIsNew(v);
      events, entries := [UserTypes(Form(id, "")), SaveBegins(true)], [Entry(id, "")];
      TypedSaveSends(hash, default, s, history, i, j, id);
      assert Entry(id, "") in (set e | e in entries);
    }
  }

  lemma FreshIsNew(v: Version)
    ensures var id := FreshId(Load(EntriesOf(v), [])); forall e | e in EntriesOf(v) :: e.id != id
  {
    var entries, others := EntriesOf(v), Load(EntriesOf(v), []);
    var id := FreshId(others);
    hide FreshId, EntriesOf, Load;
    SameLower(others, None, id);
    forall k | 0 <= k < |entries|
      ensures entries[k].id != id
    {
      assert IsEntry(others[k], entries[k]);
    }
  }

  lemma ReadyIs(hash: Hash, s: System, history: seq<Version>, i: nat, j: nat)
    requires Ready(hash, s, history, i, j)
    ensures i < j < |history| && s.history == history[..j + 1]
  {
    hide Idle, Shape;
  }

  /** A save without marked pipelines replaces nothing only if it has the file's own pipelines. */
  lemma UnmarkedIsSame(r: Request, v: Version)
    requires r.dirty == {} && EntriesOf(v) != [] && ReplacesOnlyOwn(r, EntriesOf(v))
    ensures (set e | e in r.entries) == EntrySet(v)
  {
    var entries := EntriesOf(v);
    hide EntriesOf;
    forall e | e in entries
      ensures e in r.entries
    {
      var j :| 0 <= j < |entries| && entries[j] == e;
    }
    forall e | e in r.entries
      ensures e in entries
    {
      var i :| 0 <= i < |r.entries| && r.entries[i] == e;
    }
  }

  /** The save that was sent overwrites once version `i` is back. */
  lemma SentOverwrites(hash: Hash, default: Entry, s: System, history: seq<Version>, i: nat, j: nat, entries: seq<Entry>)
    requires VersionsOk(history) && i < j < |history| && hash(Current(history)) == hash(history[i])
    requires Sends(s, history[..j + 1], i, hash(history[i]), entries)
    requires ValidEntries(entries) && EntriesOf(Current(history)) != []
    requires (set e | e in entries) != EntrySet(Current(history))
    ensures Overwrites(hash, Run(hash, default, s, Writes(history[j + 1..])), history, i, 0)
  {
    hide ValidEntries, Apply, Run, ReplacesOnlyOwn, EntriesOf, EntrySet;
    var rest := history[j + 1..];
    WritesAppend(hash, default, s, rest);
    assert history[..j + 1] + rest == history;
    if ReplacesOnlyOwn(s.sent[0].request, EntriesOf(Current(history))) {
      UnmarkedIsSame(s.sent[0].request, Current(history));
      assert false;
    }
  }

  lemma ReturnOverwrites(hash: Hash, default: Entry, history: seq<Version>, i: nat, j: nat)
    requires VersionsOk(history) && default.id != "" && i < j < |history|
    requires hash(Current(history)) == hash(history[i]) && EntrySet(Current(history)) == EntrySet(history[i])
    requires EntriesOf(Current(history)) != [] && EntrySet(history[j]) != EntrySet(history[i])
    ensures Overwritten(hash, default, history, i)
  {
    hide Apply, Run, Boot, FreshId, Writes, Matches, VersionsOk, Ready, EntrySet, Sends, Linked;
    assert EntriesOf(history[i]) != [] by {
      LinkedToSame([], {}, history[i], Current(history));
    }
    hide EntriesOf;
    var s0 := Boot(hash, default, history[..i + 1], []);
    var a := MergesLater(hash, default, history, i, j);
    var s1 := Run(hash, default, s0, a);
    var b, entries := SendsOther(hash, default, s1, history, i, j, Current(history));
    hide ValidEntries;
    ReadyIs(hash, s1, history, i, j);
    SentOverwrites(hash, default, Run(hash, default, s1, b), history, i, j, entries);
    hide Overwrites;
    var rest := Writes(history[j + 1..]);
    RunJoined(hash, default, s0, a, b);
    RunJoined(hash, default, s0, a + b, rest);
    assert OverwrittenBy(hash, default, history, i, i + 1, a + b + rest, 0);
  }

  lemma PrefixIsOk(history: seq<Version>, n: nat)
    requires VersionsOk(history) && 0 < n <= |history|
    ensures VersionsOk(history[..n])
  {
    hide ValidEntries;
    assert forall i | 0 <= i < n :: history[..n][i] == history[i];
  }

  /** Files of one revision have the same pipelines, as files of one content hash do. */
  predicate TellsApart(hash: Hash, history: seq<Version>) {
    forall a, b | 0 <= a < b < |history| && hash(history[a]) == hash(history[b]) ::
      EntrySet(history[a]) == EntrySet(history[b])
  }

  /** However revisions are made, nothing is overwritten unless its revision was there before. */
  lemma OverwrittenIsReturned(hash: Hash, default: Entry, history: seq<Version>, i: nat)
    requires VersionsOk(history) && default.id != "" && Overwritten(hash, default, history, i)
    ensures Returned(hash, history, i)
  {
    hide Overwrites, ValidEntries, Run, Boot, Inv, Returned;
    var begun: nat, events, k: nat :| OverwrittenBy(hash, default, history, i, begun, events, k);
    PrefixIsOk(history, begun);
    RunKeepsInv(hash, default, history[..begun], [], events);
    OverwriteNeedsReturn(hash, Run(hash, default, Boot(hash, default, history[..begun], []), events), history, i, k);
  }

  /** For every history of the server and every version in it: some editor can come to have a save
      based on that version which the server takes and which replaces pipelines the user never
      touched, exactly when a version after it has other pipelines while the current file, which
      has some, is of its revision again.  So comparing revisions protects what the user has not
      seen precisely from writers who restore nothing. */
  lemma OverwrittenIff(hash: Hash, default: Entry, history: seq<Version>, i: nat)
    requires VersionsOk(history) && TellsApart(hash, history) && default.id != ""
    ensures Overwritten(hash, default, history, i) <==> Returned(hash, history, i)
  {
    hide Overwritten, EntriesOf, ValidEntries, EntrySet;
    if Overwritten(hash, default, history, i) {
      OverwrittenIsReturned(hash, default, history, i);
    }
    if Returned(hash, history, i) {
      var j :| i <= j < |history| && EntrySet(history[j]) != EntrySet(history[i]);
      ReturnOverwrites(hash, default, history, i, j);
    }
  }

  // ---------------------------------------------------------------- local edits survive

  /** What the user sees of a pipeline: the form for the selected one. */
  function Shown(c: Client, f: Feed): Form {
    if f.id == c.selectedID then c.form else FormOf(f)
  }

  /** The list still has a dirty pipeline that was loaded as `f` was and shows `shown`. */
  predicate Keeps(c: Client, f: Feed, shown: Form) {
    exists k :: 0 <= k < |c.feeds| && KeptAt(c, k, f, shown)
  }

  predicate KeptAt(c: Client, k: nat, f: Feed, shown: Form)
    requires k < |c.feeds|
  {
    c.feeds[k].id in c.dirty && c.feeds[k].originalId == f.originalId && Shown(c, c.feeds[k]) == shown
  }

  predicate AllKept(c: Client, c1: Client) {
    forall i | 0 <= i < |c.feeds| && c.feeds[i].id in c.dirty :: Keeps(c1, c.feeds[i], Shown(c, c.feeds[i]))
  }

  lemma SameIsKept(c: Client, c1: Client)
    requires c1.feeds == c.feeds && c.dirty <= c1.dirty && c1.selectedID == c.selectedID && c1.form == c.form
    ensures AllKept(c, c1)
  {
    forall i | 0 <= i < |c.feeds| && c.feeds[i].id in c.dirty
      ensures Keeps(c1, c.feeds[i], Shown(c, c.feeds[i]))
    {
      assert KeptAt(c1, i, c.feeds[i], Shown(c, c.feeds[i]));
    }
  }

  lemma KeptTwice(c: Client, c1: Client, c2: Client)
    requires AllKept(c, c1) && AllKept(c1, c2)
    ensures AllKept(c, c2)
  {
    hide Shown;
    forall i | 0 <= i < |c.feeds| && c.feeds[i].id in c.dirty
      ensures Keeps(c2, c.feeds[i], Shown(c, c.feeds[i]))
    {
      var k :| 0 <= k < |c1.feeds| && KeptAt(c1, k, c.feeds[i], Shown(c, c.feeds[i]));
      assert Keeps(c2, c1.feeds[k], Shown(c1, c1.feeds[k]));
      var m :| 0 <= m < |c2.feeds| && KeptAt(c2, m, c1.feeds[k], Shown(c1, c1.feeds[k]));
      assert KeptAt(c2, m, c.feeds[i], Shown(c, c.feeds[i]));
    }
  }

  /** Writing the form from the selection, wherever that moved, keeps what every pipeline shows. */
  lemma RewrittenIsKept(c: Client, c1: Client)
    requires UniqueIds(c.feeds) && c1.feeds == c.feeds && c1.dirty == c.dirty
    requires c.selectedID in Ids(c.feeds) ==> ShowsSelected(c)
    requires c1.selectedID in Ids(c1.feeds)
    ensures AllKept(c, WriteEditor(c1))
  {
    InIds(c1.feeds, c1.selectedID);
    var c2 := WriteEditor(c1);
    forall i | 0 <= i < |c.feeds| && c.feeds[i].id in c.dirty
      ensures Keeps(c2, c.feeds[i], Shown(c, c.feeds[i]))
    {
      FindUnique(c.feeds, i);
      InIds(c.feeds, c.selectedID);
      assert c.feeds[i].id in Ids(c.feeds);
      hide FindId, Ids, UniqueIds;
      assert KeptAt(c2, i, c.feeds[i], Shown(c, c.feeds[i]));
    }
  }

  lemma UpsertKeeps(c: Client, default: Entry)
    requires Shape(c) && default.id != "" && Upsert(c, default).Some?
    ensures AllKept(c, Upsert(c, default).value)
  {
    InIds(c.feeds, c.selectedID);
    var index := FindId(c.feeds, c.selectedID);
    var edited := Edited(c, default);
    if index.Some? {
      EditedIs(c, default, index.value);
    }
    SameLower(c.feeds, index, edited.id);
    EditedIsNamed(c, default);
    hide FindId, Collides, Edited, Ids, AllNamed;
    var c1 := Upsert(c, default).value;
    forall i | 0 <= i < |c.feeds| && c.feeds[i].id in c.dirty
      ensures Keeps(c1, c.feeds[i], Shown(c, c.feeds[i]))
    {
      assert KeptAt(c1, i, c.feeds[i], Shown(c, c.feeds[i]));
    }
  }

  lemma UserKeepsEdits(c: Client, default: Entry, id: string)
    requires Shape(c) && default.id != ""
    ensures AllKept(c, SwitchTo(c, default, id)) && AllKept(c, AddInstance(c, default, id))
  {
    SameIsKept(c, c);
    UpsertShape(c, default);
    if Upsert(c, default).Some? {
      var c1 := Upsert(c, default).value;
      UpsertKeeps(c, default);
      hide Upsert, FindId, AllKept, Collides, WriteEditor, Ids, ShowsSelected;
      var c2 := Render(c1.(selectedID := id));
      RenderSelects(c1.(selectedID := id));
      RewrittenIsKept(c1, c2);
      KeptTwice(c, c1, WriteEditor(c2));
      if id != "" && !Collides(c1.feeds, None, id) {
        AddedIsKept(c1, Loaded(Entry(id, default.settings), ""));
        var added := Loaded(Entry(id, default.settings), "");
        KeptTwice(c, c1, WriteEditor(c1.(feeds := c1.feeds + [added], selectedID := id, dirty := c1.dirty + {id})));
      }
    }
  }

  lemma AddedIsKept(c: Client, f: Feed)
    requires Shape(c) && ShowsSelected(c) && !Collides(c.feeds, None, f.id)
    ensures AllKept(c, WriteEditor(c.(feeds := c.feeds + [f], selectedID := f.id, dirty := c.dirty + {f.id})))
  {
    SameLower(c.feeds, None, f.id);
    var c1 := c.(feeds := c.feeds + [f], selectedID := f.id, dirty := c.dirty + {f.id});
    assert c1.feeds[|c.feeds|] == f;
    var c2 := WriteEditor(c1);
    forall i | 0 <= i < |c.feeds| && c.feeds[i].id in c.dirty
      ensures Keeps(c2, c.feeds[i], Shown(c, c.feeds[i]))
    {
      FindUnique(c.feeds, i);
      assert c1.feeds[i] == c.feeds[i];
      hide FindId, Ids, UniqueIds, AllNamed, Collides;
      assert KeptAt(c2, i, c.feeds[i], Shown(c, c.feeds[i]));
    }
  }

  /** Every dirty feed is still in the list, but for its runtime status. */
  ghost predicate PlainKept(feeds: seq<Feed>, dirty: set<string>, feeds1: seq<Feed>) {
    forall i | 0 <= i < |feeds| && feeds[i].id in dirty :: exists k :: Carries(feeds1, k, feeds[i])
  }

  lemma MergeKeepsPlain(feeds: seq<Feed>, dirty: set<string>, latest: seq<Feed>)
    requires UniqueIds(feeds)
    ensures PlainKept(feeds, dirty, Merge(feeds, dirty, latest))
  {
    hide Merge;
    forall i | 0 <= i < |feeds| && feeds[i].id in dirty
      ensures exists k :: Carries(Merge(feeds, dirty, latest), k, feeds[i])
    {
      var k := DirtyFeedsSurvive(feeds, dirty, latest, i);
    }
  }

  lemma UneditedShows(c: Client, i: nat)
    requires Shape(c) && !c.editorDirty && i < |c.feeds|
    ensures Shown(c, c.feeds[i]) == FormOf(c.feeds[i])
  {
    FindUnique(c.feeds, i);
    hide FindId, Ids, UniqueIds;
  }

  lemma PlainIsKept(c: Client, c1: Client)
    requires Shape(c) && PlainKept(c.feeds, c.dirty, c1.feeds) && c1.dirty == c.dirty
    requires (c1.selectedID == c.selectedID && c1.form == c.form) || (!c.editorDirty && Shape(c1) && !c1.editorDirty)
    ensures AllKept(c, c1)
  {
    hide Shape;
    forall i | 0 <= i < |c.feeds| && c.feeds[i].id in c.dirty
      ensures Keeps(c1, c.feeds[i], Shown(c, c.feeds[i]))
    {
      var k :| Carries(c1.feeds, k, c.feeds[i]);
      if !(c1.selectedID == c.selectedID && c1.form == c.form) {
        UneditedShows(c, i);
        UneditedShows(c1, k);
      }
      assert KeptAt(c1, k, c.feeds[i], Shown(c, c.feeds[i]));
    }
  }

  /** A refresh of any content and any age keeps every dirty pipeline and the edited form. */
  lemma TakePayloadKeeps(c: Client, p: Payload)
    requires Shape(c) && FormOwned(c) && ValidEntries(p.entries)
    ensures AllKept(c, TakePayload(c, p))
  {
    if c.dirty == {} {
      NoneDirtyIsKept(c, TakePayload(c, p));
    } else {
      var c0 := TakeEnabled(TakeRevision(c, p), p);
      var c1 := TakeFeeds(c0, p);
      MergeKeepsPlain(c.feeds, c.dirty, Load(p.entries, p.runtimes));
      TakeFeedsOnlyFeeds(c0, p);
      TakeFeedsListed(c0, p);
      ReselectSelects(c1);
      TakePayloadShape(c, p);
      hide Reselect, AllKept, FindId, Ids, Merge, Load, Shape, PlainKept;
      WriteEditorSyncs(Reselect(c1), []);
      WriteEditorResets(Reselect(c1));
      DirtyNeedsFeeds(c1);
      if c.editorDirty {
        DirtyIsListed(c1.feeds, c1.dirty, c.selectedID);
      }
      PlainIsKept(c, TakePayload(c, p));
    }
  }

  lemma WriteEditorResets(c: Client)
    ensures c.feeds != [] ==> !WriteEditor(c).editorDirty
  {
    hide FindId;
  }

  lemma NoneDirtyIsKept(c: Client, c1: Client)
    requires c.dirty == {}
    ensures AllKept(c, c1)
  {
  }

  lemma DirtyNeedsFeeds(c: Client)
    requires Listed(c.feeds, c.dirty) && c.dirty != {}
    ensures c.feeds != []
  {
    var id :| id in c.dirty;
    DirtyIsListed(c.feeds, c.dirty, id);
  }

  /** Over every step of every schedule: a dirty pipeline stays, with its origin and with what the
      user sees of it, until the user types over it or a save of it succeeded. */
  lemma EditsSurvive(hash: Hash, default: Entry, s: System, e: Event)
    requires Inv(hash, s) && default.id != ""
    requires !e.SaveArrives? && !e.UserTypes?
    ensures AllKept(s.client, Apply(hash, default, s, e).client)
  {
    var c := s.client;
    hide AllKept, Shape, FormOwned, FinishRefresh, SwitchTo, AddInstance, Synced, AllSentOk, Serve, Upsert;
    if Enabled(s, e) {
      match e {
        case UserSelects(id) => UserKeepsEdits(c, default, id);
        case UserAdds(id) => UserKeepsEdits(c, default, id);
        case RefreshArrives(runtimes) => RefreshKeepsEdits(hash, s, runtimes);
        case SaveBegins(valid) => SaveKeepsEdits(c, default, valid);
        case SaveReachesServer(k, willing) => ServeKeepsClient(hash, s, k, willing); SameIsKept(c, c);
        case _ => SameIsKept(c, Apply(hash, default, s, e).client);
      }
    } else {
      SameIsKept(c, c);
    }
  }

  lemma ServeKeepsClient(hash: Hash, s: System, k: nat, willing: bool)
    requires s.history != [] && k < |s.sent|
    ensures Serve(hash, s, k, willing).client == s.client
  {
  }

  lemma RefreshKeepsEdits(hash: Hash, s: System, runtimes: seq<string>)
    requires Inv(hash, s) && s.client.refresh.Some? && s.answered.Some?
    ensures var w := s.answered.value;
            AllKept(s.client, FinishRefresh(s.client, Read(hash, s.history[w], runtimes, w)))
  {
    var w := s.answered.value;
    var p := Read(hash, s.history[w], runtimes, w);
    var c := s.client.(refresh := None);
    SameIsKept(s.client, c);
    RefreshFieldOnly(s.client, None, []);
    assert ValidEntries(p.entries);
    TakePayloadKeeps(c, p);
    hide AllKept, Shape, TakePayload, Synced, AllSentOk;
    KeptTwice(s.client, c, TakePayload(c, p));
  }

  lemma SaveKeepsEdits(c: Client, default: Entry, valid: bool)
    requires Shape(c) && default.id != ""
    ensures AllKept(c, BeginSave(c, default, valid).0)
  {
    hide AllKept, Upsert, Shape;
    SameIsKept(c, c);
    var c1 := c.(generation := c.generation + 1);
    SameIsKept(c, c1);
    GenerationShape(c);
    if Upsert(c1, default).Some? {
      var c2 := Upsert(c1, default).value;
      UpsertKeeps(c1, default);
      KeptTwice(c, c1, c2);
      SameIsKept(c2, c2.(saving := true));
      KeptTwice(c, c2, c2.(saving := true));
    }
  }

  lemma GenerationShape(c: Client)
    requires Shape(c)
    ensures Shape(c.(generation := c.generation + 1))
  {
    hide Listed, FindId;
  }

  // ---------------------------------------------------------------- what a save sends and brings back

  /** Another pipeline than the selected one has the id in the form, in any case. */
  predicate IdIsTaken(c: Client) {
    exists k :: 0 <= k < |c.feeds| && c.feeds[k].id != c.selectedID && Lower(c.feeds[k].id) == Lower(c.form.id)
  }

  /** What the user sees, pipeline by pipeline: the form for the selected one, or for a new one. */
  predicate IsShown(c: Client, entries: seq<Entry>) {
    if c.feeds == [] then entries == [Entry(c.form.id, c.form.settings)]
    else
      && |entries| == |c.feeds|
      && forall i | 0 <= i < |c.feeds| ::
           entries[i] == if c.feeds[i].id == c.selectedID then Entry(c.form.id, c.form.settings)
                         else Entry(c.feeds[i].id, c.feeds[i].settings)
  }

  lemma TakenIff(c: Client, default: Entry)
    requires Shape(c) && default.id != ""
    ensures Upsert(c, default).None? <==> IdIsTaken(c)
  {
    EditedIsNamed(c, default);
    InIds(c.feeds, c.selectedID);
    var index := FindId(c.feeds, c.selectedID);
    hide Lower, Edited, FindId;
    assert Edited(c, default).id == c.form.id;
    forall k | 0 <= k < |c.feeds|
      ensures Some(k) != index <==> c.feeds[k].id != c.selectedID
    {
    }
    if k :| 0 <= k < |c.feeds| && c.feeds[k].id != c.selectedID && Lower(c.feeds[k].id) == Lower(c.form.id) {
      assert Some(k) != index;
    }
  }

  lemma UpsertShows(c: Client, default: Entry)
    requires Shape(c) && default.id != "" && Upsert(c, default).Some?
    ensures IsShown(c, SavedEntries(Upsert(c, default).value.feeds))
  {
    EditedIsNamed(c, default);
    InIds(c.feeds, c.selectedID);
    var index := FindId(c.feeds, c.selectedID);
    hide Lower, Edited, FindId, Collides;
    if c.feeds != [] {
      forall k | 0 <= k < |c.feeds|
        ensures Some(k) != index <==> c.feeds[k].id != c.selectedID
      {
      }
    }
  }

  lemma SameIsShown(c: Client, d: Client)
    requires d.feeds == c.feeds && d.selectedID == c.selectedID && d.form == c.form
    ensures IdIsTaken(c) <==> IdIsTaken(d)
    ensures forall entries :: IsShown(c, entries) <==> IsShown(d, entries)
  {
    hide Lower;
  }

  lemma BeginSaveIs(c: Client, default: Entry, valid: bool)
    requires Shape(c) && default.id != "" && !c.saving
    ensures var (c1, r) := BeginSave(c, default, valid);
            && c1.saving == r.Some? == (valid && !IdIsTaken(c))
            && (r.Some? ==> IsShown(c, r.value.entries) && r.value.enabled == c.enabled && r.value.expected == c.revision)
            && (r.None? ==> c1 == c.(generation := c.generation + 1))
  {
    var d := c.(generation := c.generation + 1);
    GenerationShape(c);
    hide Shape, Upsert, IdIsTaken, IsShown, SavedEntries;
    SameIsShown(c, d);
    TakenIff(d, default);
    if Upsert(d, default).Some? {
      UpsertShows(d, default);
      UpsertOnlyEdits(d, default);
    }
  }

  /** A save is sent exactly if the form passes its checks and its id is not taken; it sends what the
      user sees, the switch, and the revision the editor is based on. */
  lemma SaveSendsWhatIsShown(hash: Hash, default: Entry, s: System, valid: bool)
    requires Inv(hash, s) && default.id != "" && !s.client.saving
    ensures var s1 := Apply(hash, default, s, SaveBegins(valid));
            && s1.client.saving == (valid && !IdIsTaken(s.client)) && s1.history == s.history
            && (s1.client.saving ==>
                  && |s1.sent| == |s.sent| + 1 && s1.sent[..|s.sent|] == s.sent && s1.sent[|s.sent|].outcome == Pending
                  && var r := s1.sent[|s.sent|].request;
                     IsShown(s.client, r.entries) && r.enabled == s.client.enabled && r.expected == s.client.revision)
            && (!s1.client.saving ==> s1 == s.(client := s.client.(generation := s.client.generation + 1)))
  {
    InvHolds(hash, s);
    SaveBeginsIs(hash, default, s, valid);
    hide *;
    BeginSaveIs(s.client, default, valid);
  }

  lemma PutAgain(feeds: seq<Feed>, index: Option<nat>, f: Feed)
    requires UniqueIds(Put(feeds, index, f)) && !Collides(feeds, index, f.id)
    requires index.Some? ==> index.value < |feeds|
    ensures var once := Put(feeds, index, f);
            var at := FindId(once, f.id);
            Put(once, at, f) == once && !Collides(once, at, f.id)
  {
    var once := Put(feeds, index, f);
    var at := if index.Some? then index.value else |feeds|;
    assert once[at] == f;
    FindUnique(once, at);
    hide FindId, UniqueIds, Lower;
    assert once[at := f] == once;
    forall k | 0 <= k < |once| && k != at
      ensures Lower(once[k].id) != Lower(f.id)
    {
      assert once[k] == feeds[k];
    }
  }

  lemma UpsertedIs(c: Client, default: Entry)
    requires Shape(c) && default.id != "" && Upsert(c, default).Some?
    ensures var c1, f := Upsert(c, default).value, Edited(c, default);
            var at := FindId(c1.feeds, f.id);
            && Edited(c1, default) == f && c1.selectedID == f.id
            && Put(c1.feeds, at, f) == c1.feeds && !Collides(c1.feeds, at, f.id)
  {
    var c1 := Upsert(c, default).value;
    var index := FindId(c.feeds, c.selectedID);
    var edited := Edited(c, default);
    EditedIsNamed(c, default);
    EditedHasOrigin(c, default);
    UpsertPuts(c, default);
    hide Selected, FindId, Edited, NamedFeed, Lower, Put, Collides, UniqueIds, Shape, FormOf;
    PutSelects(c1, c.feeds, index, edited);
    SelectedAgain(c1, edited, default);
    PutAgain(c.feeds, index, edited);
  }

  /** Writing the form back a second time changes nothing. */
  lemma UpsertAgain(c: Client, default: Entry)
    requires Shape(c) && default.id != "" && Upsert(c, default).Some?
    ensures Upsert(Upsert(c, default).value, default) == Upsert(c, default)
  {
    UpsertedIs(c, default);
    hide FindId, Edited, Put, Collides, Shape;
  }

  lemma UpsertPuts(c: Client, default: Entry)
    requires Shape(c) && default.id != "" && Upsert(c, default).Some?
    ensures UniqueIds(Put(c.feeds, FindId(c.feeds, c.selectedID), Edited(c, default)))
  {
    UpsertShape(c, default);
    hide Edited, FindId, Put, Collides, UniqueIds;
  }

  lemma EditedHasOrigin(c: Client, default: Entry)
    requires Shape(c) && default.id != ""
    ensures Edited(c, default).originalId != ""
  {
    hide Ids, UniqueIds;
  }

  lemma SelectedAgain(c1: Client, edited: Feed, default: Entry)
    requires Selected(c1) == Some(edited) && edited.originalId != "" && FormOf(edited) == c1.form
    ensures Edited(c1, default) == edited
  {
  }

  /** A save that failed can be repeated: the same request is sent once more. */
  lemma FailedSaveIsRepeated(hash: Hash, default: Entry, s: System)
    requires Inv(hash, s) && default.id != "" && !s.client.saving && !IdIsTaken(s.client)
    ensures var s1 := Apply(hash, default, s, SaveBegins(true));
            var s2 := Apply(hash, default, s1, SaveFails);
            var s3 := Apply(hash, default, s2, SaveBegins(true));
            && |s1.sent| == |s.sent| + 1 && s2 == s1.(client := s1.client.(saving := false))
            && s3.sent == s1.sent + [Sent(s1.sent[|s.sent|].request, Pending)]
  {
    InvHolds(hash, s);
    SaveBeginsIs(hash, default, s, true);
    BeginAgain(s.client, default);
    var s1 := Apply(hash, default, s, SaveBegins(true));
    FailIs(hash, default, s1);
    SaveBeginsIs(hash, default, s1.(client := s1.client.(saving := false)), true);
    hide Shape, Inv, IdIsTaken, BeginSave, Apply;
  }

  lemma FailIs(hash: Hash, default: Entry, s: System)
    requires s.client.saving
    ensures Apply(hash, default, s, SaveFails) == s.(client := s.client.(saving := false))
  {
  }

  lemma BeginAgain(c: Client, default: Entry)
    requires Shape(c) && default.id != "" && !c.saving && !IdIsTaken(c)
    ensures var (c1, r) := BeginSave(c, default, true);
            && c1.saving && r.Some?
            && BeginSave(c1.(saving := false), default, true).1 == r
  {
    var d := c.(generation := c.generation + 1);
    GenerationShape(c);
    TakenIff(d, default);
    SameIsShown(c, d);
    hide Shape, IdIsTaken, IsShown, Lower;
    UpsertAgain(d, default);
    UpsertOnlyEdits(d, default);
    var d1 := Upsert(d, default).value;
    UpsertAside(d1, default, d1.generation + 1);
    hide Upsert, SavedEntries;
    assert d1.(saving := true).(saving := false) == d1;
  }

  lemma UpsertAside(c: Client, default: Entry, generation: nat)
    requires Upsert(c, default).Some?
    ensures Upsert(c.(generation := generation), default) == Some(Upsert(c, default).value.(generation := generation))
  {
    hide Lower;
  }

  lemma SaveBeginsIs(hash: Hash, default: Entry, s: System, valid: bool)
    requires !s.client.saving
    ensures var (c, r) := BeginSave(s.client, default, valid);
            Apply(hash, default, s, SaveBegins(valid))
            == s.(client := c, sent := if r.Some? then s.sent + [Sent(r.value, Pending)] else s.sent)
  {
    hide BeginSave, Upsert, Lower;
  }

  lemma SaveArrivesIs(hash: Hash, default: Entry, s: System, runtimes: seq<string>, w: nat)
    requires s.client.saving && Awaited(s) == Accepted(w) && w < |s.history|
    ensures Apply(hash, default, s, SaveArrives(runtimes))
            == s.(client := FinishSave(s.client, Read(hash, s.history[w], runtimes, w)))
  {
    hide FinishSave, Read, Awaited;
  }

  /** The server takes a save exactly if it is willing, the ids are valid and there is no file or the
      file's revision is the expected one; then the save is the file. */
  lemma ServerTakesIff(hash: Hash, default: Entry, s: System, k: nat, willing: bool)
    requires s.history != [] && k < |s.sent| && s.sent[k].outcome == Pending
    ensures var s1 := Apply(hash, default, s, SaveReachesServer(k, willing));
            var r := s.sent[k].request;
            && s1.client == s.client && |s1.sent| == |s.sent|
            && if willing && ValidEntries(r.entries)
                  && (s.history[|s.history| - 1] == None || hash(s.history[|s.history| - 1]) == r.expected) then
                 s1.history == s.history + [Some(Config(r.enabled, r.entries))]
                 && s1.sent[k].outcome == Accepted(|s.history|)
               else s1.history == s.history && s1.sent[k].outcome == Rejected
  {
    hide ValidEntries;
  }

  /** The list as a version has it. */
  predicate IsLoaded(feeds: seq<Feed>, entries: seq<Entry>) {
    && |feeds| == |entries|
    && forall i | 0 <= i < |feeds| ::
         feeds[i].id == feeds[i].originalId == entries[i].id && feeds[i].settings == entries[i].settings
  }

  lemma AwaitedIsValid(hash: Hash, s: System)
    requires Inv(hash, s) && s.client.saving && Awaited(s).Accepted?
    ensures Awaited(s).version < |s.history|
    ensures var entries := EntriesOf(s.history[Awaited(s).version]);
            entries != [] && ValidEntries(entries) && Shape(s.client)
  {
    assert SentOk(hash, s.history, s.sent[|s.sent| - 1]);
    hide Shape, ValidEntries, RequestOk, RefreshOk;
  }

  /** A save that was taken leaves the editor with the file it became: nothing is the user's own any
      more, and the form shows the selected pipeline. */
  lemma SavedIsShown(hash: Hash, default: Entry, s: System, runtimes: seq<string>, w: nat)
    requires Inv(hash, s) && s.client.saving && Awaited(s) == Accepted(w)
    ensures w < |s.history|
    ensures var c := Apply(hash, default, s, SaveArrives(runtimes)).client;
            && IsLoaded(c.feeds, EntriesOf(s.history[w])) && c.revision == hash(s.history[w])
            && c.enabled == SwitchOf(s.history[w])
            && c.dirty == {} && !c.globalDirty && !c.editorDirty && !c.saving && ShowsSelected(c)
  {
    hide *;
    AwaitedIsValid(hash, s);
    SaveArrivesIs(hash, default, s, runtimes, w);
    SavedClientIs(hash, s.client, s.history[w], runtimes, w);
  }

  lemma SavedClientIs(hash: Hash, c: Client, v: Version, runtimes: seq<string>, w: nat)
    requires Shape(c) && ValidEntries(EntriesOf(v)) && EntriesOf(v) != []
    ensures var c1 := FinishSave(c, Read(hash, v, runtimes, w));
            && IsLoaded(c1.feeds, EntriesOf(v)) && c1.revision == hash(v) && c1.enabled == SwitchOf(v)
            && c1.dirty == {} && !c1.globalDirty && !c1.editorDirty && !c1.saving && ShowsSelected(c1)
  {
    hide Shape, FinishSave, Load, IsLoaded, ValidEntries, ShowsSelected;
    var p := Read(hash, v, runtimes, w);
    FinishSaveShape(c, p);
    FinishSaveRest(c, p);
    LoadIsLoaded(p.entries, runtimes);
    ShapeShows(FinishSave(c, p));
  }

  lemma ShapeShows(c: Client)
    requires Shape(c) && c.feeds != [] && !c.editorDirty
    ensures ShowsSelected(c)
  {
    hide Listed;
  }

  lemma LoadIsLoaded(entries: seq<Entry>, runtimes: seq<string>)
    ensures IsLoaded(Load(entries, runtimes), entries)
  {
    assert forall i | 0 <= i < |entries| :: IsEntry(Load(entries, runtimes)[i], entries[i]);
    hide Load;
  }

  predicate HasId(feeds: seq<Feed>, id: string) {
    exists k :: 0 <= k < |feeds| && feeds[k].id == id
  }

  /** Selecting another pipeline puts the form into its own, and then shows the other one, or the first
      if there is none; while the form's id is taken it does nothing. */
  lemma SelectingShows(c: Client, default: Entry, next: string)
    requires Shape(c) && default.id != ""
    ensures var c1 := SwitchTo(c, default, next);
            if IdIsTaken(c) then c1 == c
            else
              && IsShown(c, SavedEntries(c1.feeds)) && ShowsSelected(c1) && !c1.editorDirty
              && c1.selectedID == if HasId(c1.feeds, next) then next else c1.feeds[0].id
  {
    TakenIff(c, default);
    UpsertShape(c, default);
    if Upsert(c, default).Some? {
      UpsertShows(c, default);
      hide Upsert, Lower, IsShown, SavedEntries, IdIsTaken;
      var c1 := Upsert(c, default).value;
      RenderShows(c1.(selectedID := next));
    }
  }

  lemma RenderShows(c: Client)
    requires UniqueIds(c.feeds) && c.feeds != []
    ensures var c1 := WriteEditor(Render(c));
            && c1.feeds == c.feeds && ShowsSelected(c1) && !c1.editorDirty
            && c1.selectedID == if HasId(c.feeds, c.selectedID) then c.selectedID else c.feeds[0].id
  {
    var index := FindId(c.feeds, c.selectedID);
    FindUnique(c.feeds, 0);
    if index.Some? {
      FindUnique(c.feeds, index.value);
    }
    hide FindId, UniqueIds;
  }

  /** Adding a pipeline puts the form into its own; the new one, with the settings of a new pipeline, is
      last, selected, shown and the user's, unless its id is empty or, in any case, taken. */
  lemma AddingSelects(c: Client, default: Entry, id: string)
    requires Shape(c) && default.id != ""
    ensures var c1 := AddInstance(c, default, id);
            if IdIsTaken(c) then c1 == c
            else
              var n := if c.feeds == [] then 1 else |c.feeds|;
              && n <= |c1.feeds| && IsShown(c, SavedEntries(c1.feeds[..n])) && ShowsSelected(c1)
              && if id == "" || exists k :: 0 <= k < n && Lower(c1.feeds[k].id) == Lower(id) then |c1.feeds| == n
                 else
                   && |c1.feeds| == n + 1 && c1.feeds[n].id == c1.feeds[n].originalId == id
                   && c1.feeds[n].settings == default.settings
                   && c1.selectedID == id && id in c1.dirty
  {
    TakenIff(c, default);
    UpsertShape(c, default);
    hide Collides;
    if Upsert(c, default).Some? {
      UpsertShows(c, default);
      var c1 := Upsert(c, default).value;
      assert |SavedEntries(c1.feeds)| == if c.feeds == [] then 1 else |c.feeds|;
      AddedIs(c1, default, id);
      hide Upsert, IsShown, SavedEntries, IdIsTaken, Lower, WriteEditor, Shape, ShowsSelected;
      CollidesIff(c1.feeds, id);
      CollidesIff(AddInstance(c, default, id).feeds[..|c1.feeds|], id);
      assert AddInstance(c, default, id) == if id == "" || Collides(c1.feeds, None, id) then c1 else WithNew(c1, default, id);
    }
  }

  lemma CollidesIff(feeds: seq<Feed>, id: string)
    ensures Collides(feeds, None, id) <==> exists k :: 0 <= k < |feeds| && Lower(feeds[k].id) == Lower(id)
  {
    hide Lower;
  }

  lemma AddedIs(c: Client, default: Entry, id: string)
    requires Shape(c) && c.feeds != []
    ensures c.feeds[..|c.feeds|] == c.feeds
    ensures id != "" && !Collides(c.feeds, None, id) ==>
              var c1, n := WithNew(c, default, id), |c.feeds|;
              && |c1.feeds| == n + 1 && c1.feeds[..n] == c.feeds && c1.feeds[n] == Loaded(Entry(id, default.settings), "")
              && c1.selectedID == id && id in c1.dirty && ShowsSelected(c1)
  {
    if id != "" && !Collides(c.feeds, None, id) {
      SameLower(c.feeds, None, id);
      var added := Loaded(Entry(id, default.settings), "");
      AddListed(c.feeds, c.dirty, added);
      hide WriteEditor, Lower, ShowsSelected, Collides;
      var c2 := c.(feeds := c.feeds + [added], selectedID := id, dirty := c.dirty + {id});
      assert c2.feeds[|c.feeds|] == added && c2.feeds[..|c.feeds|] == c.feeds;
      NewIsShown(c2);
    }
  }

  lemma NewIsShown(c: Client)
    requires UniqueIds(c.feeds) && c.feeds != [] && c.feeds[|c.feeds| - 1].id == c.selectedID
    ensures ShowsSelected(WriteEditor(c)) && WriteEditor(c).feeds == c.feeds
    ensures WriteEditor(c).selectedID == c.selectedID && WriteEditor(c).dirty == c.dirty
  {
    FindUnique(c.feeds, |c.feeds| - 1);
    hide FindId, UniqueIds;
  }

  // ---------------------------------------------------------------- what a refresh does

  /** A save was begun since the last refresh. */
  function SavedSince(hash: Hash, default: Entry, s: System, events: seq<Event>): bool
    decreases |events|
  {
    if events == [] then false
    else
      var front, e := events[..|events| - 1], events[|events| - 1];
      var before := Run(hash, default, s, front);
      if e.RefreshBegins? && before.client.refresh.None? && !before.client.saving then false
      else if e.SaveBegins? && !before.client.saving then true
      else SavedSince(hash, default, s, front)
  }

  /** The refresh under way is of the current generation exactly if no save was begun since. */
  predicate GenerationTells(s: System, saved: bool) {
    s.client.refresh.Some? ==>
      && (s.client.refresh == Some(s.client.generation) <==> !saved)
      && s.client.refresh.value <= s.client.generation && (s.client.saving ==> saved)
  }

  lemma GenerationStep(hash: Hash, default: Entry, s: System, e: Event, saved: bool)
    requires GenerationTells(s, saved)
    ensures GenerationTells(Apply(hash, default, s, e),
                            if e.RefreshBegins? && s.client.refresh.None? && !s.client.saving then false
                            else if e.SaveBegins? && !s.client.saving then true else saved)
  {
    if Enabled(s, e) {
      match e {
        case UserTypes(form) => UserKeepsRest(s.client, default, form, "");
        case UserSelects(id) => UserKeepsRest(s.client, default, s.client.form, id);
        case UserAdds(id) => UserKeepsRest(s.client, default, s.client.form, id);
        case RefreshArrives(runtimes) =>
          var w := s.answered.value;
          TakePayloadRest(s.client.(refresh := None), Read(hash, s.history[w], runtimes, w));
        case SaveBegins(valid) =>
          UpsertOnlyEdits(s.client.(generation := s.client.generation + 1), default);
        case SaveArrives(runtimes) =>
          FinishSaveRest(s.client, Read(hash, s.history[Awaited(s).version], runtimes, Awaited(s).version));
        case _ =>
      }
    }
    hide EditForm, SwitchTo, AddInstance, TakePayload, Upsert, FinishSave, Serve, Read;
    ServeLeavesClient(hash, s, e);
  }

  lemma ServeLeavesClient(hash: Hash, s: System, e: Event)
    ensures e.SaveReachesServer? && Enabled(s, e) ==> Serve(hash, s, e.k, e.willing).client == s.client
  {
  }

  lemma {:induction false} GenerationsTell(hash: Hash, default: Entry, history: seq<Version>, runtimes: seq<string>, events: seq<Event>)
    requires history != []
    ensures var s0 := Boot(hash, default, history, runtimes);
            GenerationTells(Run(hash, default, s0, events), SavedSince(hash, default, s0, events))
    decreases |events|
  {
    hide Apply;
    var s0 := Boot(hash, default, history, runtimes);
    if events == [] {
      StartIs(default, Read(hash, Current(history), runtimes, |history| - 1));
      hide Start;
    } else {
      var front := events[..|events| - 1];
      GenerationsTell(hash, default, history, runtimes, front);
      hide Boot, GenerationTells;
      GenerationStep(hash, default, Run(hash, default, s0, front), events[|events| - 1],
                     SavedSince(hash, default, s0, front));
    }
  }

  /** What an answer does to the editor that takes it: the list is the server's, or the merge if the user
      has pipelines of their own; its revision is adopted if nothing is the user's; the switch, if that is not. */
  predicate IsTakenOver(c: Client, c1: Client, v: Version, revision: string, runtimes: seq<string>) {
    var own := c.editorDirty || c.dirty != {};
    && (if own then c1.feeds == Merge(c.feeds, c.dirty, Load(EntriesOf(v), runtimes)) else IsLoaded(c1.feeds, EntriesOf(v)))
    && c1.revision == (if own || c.globalDirty then c.revision else revision)
    && c1.enabled == (if c.globalDirty then c.enabled else SwitchOf(v))
    && c1.dirty == c.dirty && c1.globalDirty == c.globalDirty
    && (c.editorDirty ==> c1.form == c.form && c1.editorDirty)
  }

  lemma TakePayloadIs(c: Client, p: Payload, v: Version)
    requires p.entries == EntriesOf(v) && p.enabled == SwitchOf(v)
    ensures IsTakenOver(c, TakePayload(c, p), v, p.revision, p.runtimes)
  {
    LoadIsLoaded(p.entries, p.runtimes);
    hide Merge, Load, FindId, IsLoaded;
  }

  /** Over every schedule: the answer to a refresh is taken exactly if no save was begun since the refresh
      was; otherwise the editor is as if the refresh had not been. */
  lemma RefreshIsTakenIff(
      hash: Hash, default: Entry, history: seq<Version>, runtimes: seq<string>, events: seq<Event>, more: seq<string>)
    requires history != []
    requires Enabled(Run(hash, default, Boot(hash, default, history, runtimes), events), RefreshArrives(more))
    ensures var s0 := Boot(hash, default, history, runtimes);
            var s, s1 := Run(hash, default, s0, events), Run(hash, default, s0, events + [RefreshArrives(more)]);
            var v := s.history[s.answered.value];
            && s1.history == s.history && s1.sent == s.sent && s1.client.refresh.None?
            && if SavedSince(hash, default, s0, events) then s1.client == s.client.(refresh := None)
               else IsTakenOver(s.client, s1.client, v, hash(v), more)
  {
    var s0 := Boot(hash, default, history, runtimes);
    var s := Run(hash, default, s0, events);
    GenerationsTell(hash, default, history, runtimes, events);
    RunOneMore(hash, default, s0, events, RefreshArrives(more));
    hide Run, Boot, SavedSince;
    ArrivalIs(hash, default, s, more);
  }

  lemma ArrivalIs(hash: Hash, default: Entry, s: System, more: seq<string>)
    requires Enabled(s, RefreshArrives(more))
    ensures var s1 := Apply(hash, default, s, RefreshArrives(more));
            var v := s.history[s.answered.value];
            && s1.history == s.history && s1.sent == s.sent && s1.client.refresh.None?
            && if s.client.saving || s.client.refresh != Some(s.client.generation) then
                 s1.client == s.client.(refresh := None)
               else IsTakenOver(s.client, s1.client, v, hash(v), more)
  {
    var w := s.answered.value;
    var p := Read(hash, s.history[w], more, w);
    TakePayloadIs(s.client.(refresh := None), p, s.history[w]);
    TakePayloadRest(s.client.(refresh := None), p);
    hide TakePayload, Merge, Load;
  }

  // ---------------------------------------------------------------- the switch

  /** What the user last set the switch to, since the last save that was taken. */
  function LastToggle(hash: Hash, default: Entry, s: System, events: seq<Event>): Option<bool>
    decreases |events|
  {
    if events == [] then None
    else
      var front, e := events[..|events| - 1], events[|events| - 1];
      var before := Run(hash, default, s, front);
      if e.UserToggles? && !before.client.saving then Some(e.enabled)
      else if e.SaveArrives? && Enabled(before, e) then None
      else LastToggle(hash, default, s, front)
  }

  predicate SwitchIs(c: Client, last: Option<bool>) {
    c.globalDirty == last.Some? && (last.Some? ==> c.enabled == last.value)
  }

  lemma SwitchStep(hash: Hash, default: Entry, s: System, e: Event, last: Option<bool>)
    requires SwitchIs(s.client, last)
    ensures SwitchIs(Apply(hash, default, s, e).client,
                     if e.UserToggles? && !s.client.saving then Some(e.enabled)
                     else if e.SaveArrives? && Enabled(s, e) then None else last)
  {
    if Enabled(s, e) {
      match e {
        case UserTypes(form) => UserKeepsRest(s.client, default, form, "");
        case UserSelects(id) => UserKeepsRest(s.client, default, s.client.form, id);
        case UserAdds(id) => UserKeepsRest(s.client, default, s.client.form, id);
        case RefreshArrives(runtimes) =>
          var w := s.answered.value;
          TakePayloadSwitch(s.client.(refresh := None), Read(hash, s.history[w], runtimes, w));
        case SaveBegins(valid) =>
          UpsertOnlyEdits(s.client.(generation := s.client.generation + 1), default);
        case SaveArrives(runtimes) =>
          FinishSaveRest(s.client, Read(hash, s.history[Awaited(s).version], runtimes, Awaited(s).version));
        case _ =>
      }
    }
    hide EditForm, SwitchTo, AddInstance, TakePayload, Upsert, FinishSave, Serve, Read;
    ServeLeavesClient(hash, s, e);
  }

  /** Over every schedule: the switch is the user's exactly if it was set since the last save that was
      taken, and then it is what it was set to. */
  lemma {:induction false} SwitchIsTheUsers(
      hash: Hash, default: Entry, history: seq<Version>, runtimes: seq<string>, events: seq<Event>)
    requires history != []
    ensures var s0 := Boot(hash, default, history, runtimes);
            SwitchIs(Run(hash, default, s0, events).client, LastToggle(hash, default, s0, events))
    decreases |events|
  {
    hide Apply;
    var s0 := Boot(hash, default, history, runtimes);
    if events == [] {
      StartIs(default, Read(hash, Current(history), runtimes, |history| - 1));
      hide Start;
    } else {
      var front := events[..|events| - 1];
      SwitchIsTheUsers(hash, default, history, runtimes, front);
      hide Boot, SwitchIs;
      SwitchStep(hash, default, Run(hash, default, s0, front), events[|events| - 1], LastToggle(hash, default, s0, front));
    }
  }

  // ---------------------------------------------------------------- where the guarantees end

  /** Typing marks the pipeline it belongs to exactly when the list has one. */
  lemma TypingIsRecordedIff(c: Client, form: Form)
    requires Shape(c)
    ensures EditForm(c, form).selectedID in EditForm(c, form).dirty <==> c.feeds != []
  {
    if c.feeds != [] {
      SelectionIsNamed(c);
    } else {
      NothingDirty(c);
    }
    hide Listed, Ids;
  }

  lemma EmptyUpsert(c: Client, default: Entry)
    requires c.feeds == [] && c.dirty == {}
    ensures Upsert(c, default) ==
            Some(c.(feeds := [Edited(c, default)], selectedID := Edited(c, default).id))
    ensures Edited(c, default).id == c.form.id
  {
    var edited := Edited(c, default);
    assert Put(c.feeds, None, edited) == [edited];
    hide Edited;
  }

  /** A feed that is not dirty and that an empty answer does not have is gone after a merge. */
  lemma CleanFeedGoes(feeds: seq<Feed>, dirty: set<string>, id: string)
    requires UniqueIds(feeds) && id !in dirty
    ensures FindId(Merge(feeds, dirty, []), id).None?
  {
    MergedRefsPoint(feeds, dirty, []);
    MergedRefsAreChosen(feeds, dirty, []);
    var refs := MergedRefs(feeds, dirty, []);
    var merged := Merge(feeds, dirty, []);
    hide MergedRefs, Runtime;
    forall k | 0 <= k < |merged|
      ensures merged[k].id != id
    {
      assert Chosen(feeds, dirty, [], refs[k]);
    }
  }

  /** Typed into an empty list, a pipeline is not marked: the next refresh after another one was
      added drops it. */
  lemma TypedIntoEmptyGoes(c: Client, default: Entry, form: Form, id: string, p: Payload)
    requires Shape(c) && c.feeds == [] && p.entries == [] && default.id != ""
    requires form.id != "" && id != "" && Lower(id) != Lower(form.id)
    ensures var c1 := AddInstance(EditForm(c, form), default, id);
            && FindId(c1.feeds, form.id).Some?
            && FindId(TakePayload(c1, p).feeds, form.id).None?
  {
    hide Lower;
    NothingDirty(c);
    var typed := EditForm(c, form);
    EmptyUpsert(typed, default);
    var edited := Edited(typed, default);
    var added := Loaded(Entry(id, default.settings), "");
    UserKeepsShape(c, default, form, id);
    UserKeepsShape(typed, default, form, id);
    var c1 := AddInstance(typed, default, id);
    AddedToOne(typed.(feeds := [edited], selectedID := edited.id), edited, added);
    InIds(c1.feeds, form.id);
    hide FindId, Upsert, Edited, WriteEditor, Merge, Load;
    assert c1.feeds[0].id == form.id;
    CleanFeedGoes(c1.feeds, c1.dirty, form.id);
    assert Load(p.entries, p.runtimes) == [];
    TakePayloadFeeds(c1, p);
  }

  /** Another writer removes the file, and the editor refreshes. */
  const REMOVAL := [OtherWrites(None)] + REFRESH

  /** The editor then has an empty list. */
  lemma RemovalEmpties(hash: Hash, default: Entry, history: seq<Version>)
    requires VersionsOk(history) && EntriesOf(Current(history)) != [] && default.id != ""
    ensures var s := Run(hash, default, Boot(hash, default, history, []), REMOVAL);
            && s.client.feeds == [] && Shape(s.client) && !s.client.saving && s.client.refresh.None?
            && s.history != [] && Read(hash, Current(s.history), [], |s.history| - 1).entries == []
  {
    RunKeepsInv(hash, default, history, [], REMOVAL);
    hide *;
    InvHolds(hash, Run(hash, default, Boot(hash, default, history, []), REMOVAL));
    RemovalIs(hash, default, history);
  }

  lemma RemovalIs(hash: Hash, default: Entry, history: seq<Version>)
    requires history != [] && EntriesOf(Current(history)) != []
    ensures var s := Run(hash, default, Boot(hash, default, history, []), REMOVAL);
            && s.client.feeds == [] && !s.client.saving && s.client.refresh.None?
            && s.history != [] && Read(hash, Current(s.history), [], |s.history| - 1).entries == []
  {
    RemovalThenRefresh();
    hide *;
    var s0 := Boot(hash, default, history, []);
    var s1 := Apply(hash, default, s0, OtherWrites(None));
    RemovedAtServer(hash, default, history);
    RunNothing(hash, default, s0);
    RunOneMore(hash, default, s0, [], OtherWrites(None));
    assert [] + [OtherWrites(None)] == [OtherWrites(None)];
    RefreshTakes(hash, default, s1);
    RunJoined(hash, default, s0, [OtherWrites(None)], REFRESH);
    var p := Read(hash, Current(s1.history), [], |s1.history| - 1);
    TakePayloadRest(s1.client, p);
    TakesNothing(s1.client, p);
  }

  lemma RemovalThenRefresh()
    ensures REMOVAL == [OtherWrites(None)] + REFRESH
  {
  }

  lemma RemovedAtServer(hash: Hash, default: Entry, history: seq<Version>)
    requires history != [] && EntriesOf(Current(history)) != []
    ensures var s := Apply(hash, default, Boot(hash, default, history, []), OtherWrites(None));
            && s.client.dirty == {} && !s.client.editorDirty && !s.client.saving && s.client.refresh.None?
            && s.history != [] && Read(hash, Current(s.history), [], |s.history| - 1).entries == []
  {
    StartIs(default, Read(hash, Current(history), [], |history| - 1));
    hide Start;
  }

  lemma TakesNothing(c: Client, p: Payload)
    requires c.dirty == {} && !c.editorDirty && p.entries == []
    ensures TakePayload(c, p).feeds == []
  {
    hide FindId, Merge;
  }

  /** Whatever the server held: after its file was removed, the user types a pipeline into the empty
      list and adds another one.  The next refresh drops what was typed. */
  lemma UnrecordedEditIsLost(hash: Hash, default: Entry, history: seq<Version>, form: Form, id: string)
    requires VersionsOk(history) && EntriesOf(Current(history)) != [] && default.id != ""
    requires form.id != "" && id != "" && Lower(id) != Lower(form.id)
    ensures var s := Run(hash, default, Boot(hash, default, history, []), REMOVAL);
            var s1 := Run(hash, default, s, [UserTypes(form), UserAdds(id)]);
            var s2 := Run(hash, default, s1, REFRESH);
            FindId(s1.client.feeds, form.id).Some? && FindId(s2.client.feeds, form.id).None?
  {
    hide *;
    SomeVersion(history);
    RemovalEmpties(hash, default, history);
    var s := Run(hash, default, Boot(hash, default, history, []), REMOVAL);
    var c2 := AddInstance(EditForm(s.client, form), default, id);
    TypesAndAdds(hash, default, s, form, id);
    RefreshTakes(hash, default, s.(client := c2));
    TypedIntoEmptyGoes(s.client, default, form, id, Read(hash, Current(s.history), [], |s.history| - 1));
  }

  lemma TypesAndAdds(hash: Hash, default: Entry, s: System, form: Form, id: string)
    requires !s.client.saving && s.client.refresh.None? && form.id != ""
    ensures var c2 := AddInstance(EditForm(s.client, form), default, id);
            && Run(hash, default, s, [UserTypes(form), UserAdds(id)]) == s.(client := c2)
            && !c2.saving && c2.refresh.None?
  {
    hide EditForm, AddInstance, Run;
    var c1 := EditForm(s.client, form);
    var e1, e2 := UserTypes(form), UserAdds(id);
    UserKeepsRest(s.client, default, form, id);
    UserKeepsRest(c1, default, form, id);
    assert Apply(hash, default, s, e1) == s.(client := c1);
    RunNothing(hash, default, s);
    RunOneMore(hash, default, s, [], e1);
    RunOneMore(hash, default, s, [e1], e2);
    assert [] + [e1] == [e1] && [e1] + [e2] == [e1, e2];
  }

  lemma AddedToOne(c: Client, edited: Feed, added: Feed)
    requires c.feeds == [edited] && Lower(added.id) != Lower(edited.id)
    ensures !Collides(c.feeds, None, added.id)
    ensures var c1 := WriteEditor(c.(feeds := c.feeds + [added], selectedID := added.id, dirty := c.dirty + {added.id}));
            c1.feeds == [edited, added] && c1.dirty == c.dirty + {added.id}
  {
    hide Lower, FindId;
  }

  lemma TakePayloadFeeds(c: Client, p: Payload)
    requires c.dirty != {}
    ensures TakePayload(c, p).feeds == Merge(c.feeds, c.dirty, Load(p.entries, p.runtimes))
  {
    hide Merge, Load, FindId;
  }

  lemma RunOneMore(hash: Hash, default: Entry, s: System, events: seq<Event>, e: Event)
    ensures Run(hash, default, s, events + [e]) == Apply(hash, default, Run(hash, default, s, events), e)
  {
    assert (events + [e])[..|events|] == events;
  }

  function One(settings: string): Version {
    Some(Config(true, [Entry("b", settings)]))
  }

  /** The editor that shows the one pipeline of a version. */
  function Showing(hash: Hash, settings: string, w: nat): Client {
    var f := Loaded(Entry("b", settings), "");
    Client([f], {}, "b", FormOf(f), false, true, false, hash(One("1")), 0, None, false, 0, w)
  }

  lemma LoadOne(settings: string)
    ensures Load([Entry("b", settings)], []) == [Loaded(Entry("b", settings), "")]
  {
  }

  lemma FindOne(f: Feed, id: string)
    ensures FindId([f], id) == if f.id == id then Some(0) else None
  {
  }

  lemma StartShows(hash: Hash, default: Entry)
    ensures Start(default, Read(hash, One("1"), [], 0)) == Showing(hash, "1", 0)
  {
    var f := Loaded(Entry("b", "1"), "");
    LoadOne("1");
    FindOne(f, "");
    FindOne(f, "b");
    hide Load, FindId;
  }

  lemma RefreshShows(hash: Hash)
    ensures var c := Showing(hash, "1", 0).(globalDirty := true, refresh := Some(0));
            FinishRefresh(c, Read(hash, One("2"), [], 1)) == Showing(hash, "2", 1).(globalDirty := true)
  {
    var f := Loaded(Entry("b", "2"), "");
    LoadOne("2");
    FindOne(f, "b");
    hide Load, FindId, Merge;
  }

  lemma SaveShows(hash: Hash, default: Entry)
    ensures var c := Showing(hash, "2", 1).(globalDirty := true);
            var (c1, r) := BeginSave(c, default, true);
            && r.Some? && r.value.entries == [Entry("b", "2")] && r.value.dirty == {}
            && r.value.expected == hash(One("1")) && r.value.base == 0
  {
    var c := Showing(hash, "2", 1).(globalDirty := true, generation := 1);
    var f := Loaded(Entry("b", "2"), "");
    FindOne(f, "b");
    assert Edited(c, default) == f;
    assert [f][0 := f] == [f];
    assert SavedEntries([f]) == [Entry("b", "2")];
    hide FindId, SavedEntries, Lower, Edited;
  }

  const SCRIPT := [UserToggles(true), OtherWrites(One("2")), RefreshBegins, RefreshAnswered,
                   RefreshArrives([]), OtherWrites(One("1")), SaveBegins(true)]

  /** The state before each event of the script. */
  function Stage(hash: Hash, n: nat): System
    requires n <= 6
  {
    var c := Showing(hash, "1", 0);
    var c1 := c.(globalDirty := true);
    var c2 := Showing(hash, "2", 1).(globalDirty := true);
    var v1, v2 := One("1"), One("2");
    if n == 0 then System(c, [v1], None, [])
    else if n == 1 then System(c1, [v1], None, [])
    else if n == 2 then System(c1, [v1, v2], None, [])
    else if n == 3 then System(c1.(refresh := Some(0)), [v1, v2], None, [])
    else if n == 4 then System(c1.(refresh := Some(0)), [v1, v2], Some(1), [])
    else if n == 5 then System(c2, [v1, v2], None, [])
    else System(c2, [v1, v2, v1], None, [])
  }

  lemma NextStage(hash: Hash, default: Entry, n: nat)
    requires n < 6
    ensures Apply(hash, default, Stage(hash, n), SCRIPT[n]) == Stage(hash, n + 1)
  {
    RefreshShows(hash);
    hide FinishRefresh, Read;
    assert [One("1")] + [One("2")] == [One("1"), One("2")];
    assert [One("1"), One("2")] + [One("1")] == [One("1"), One("2"), One("1")];
  }

  lemma {:induction false} Stages(hash: Hash, default: Entry, n: nat)
    requires n <= 6
    ensures Run(hash, default, Boot(hash, default, [One("1")], []), SCRIPT[..n]) == Stage(hash, n)
  {
    if n == 0 {
      StartShows(hash, default);
      hide Start, Read, Showing;
    } else {
      hide *;
      Stages(hash, default, n - 1);
      NextStage(hash, default, n - 1);
      assert SCRIPT[..n] == SCRIPT[..n - 1] + [SCRIPT[n - 1]];
      RunOneMore(hash, default, Boot(hash, default, [One("1")], []), SCRIPT[..n - 1], SCRIPT[n - 1]);
    }
  }

  /** When another writer restores an old file, its old revision matches again: the save of an
      editor that has merged what came in between is taken, and overwrites the restored pipeline
      although the user never touched it. */
  lemma ReusedRevisionOverwrites(hash: Hash, default: Entry)
    ensures Overwrites(hash, Run(hash, default, Boot(hash, default, [One("1")], []), SCRIPT),
                       [One("1"), One("2"), One("1")], 0, 0)
  {
    Stages(hash, default, 6);
    assert SCRIPT == SCRIPT[..6] + [SCRIPT[6]];
    hide Run, Boot, Showing, SCRIPT;
    RunOneMore(hash, default, Boot(hash, default, [One("1")], []), SCRIPT[..6], SCRIPT[6]);
    LastSaveOverwrites(hash, default);
  }

  lemma LastSaveOverwrites(hash: Hash, default: Entry)
    ensures Overwrites(hash, Apply(hash, default, Stage(hash, 6), SCRIPT[6]), [One("1"), One("2"), One("1")], 0, 0)
  {
    SaveShows(hash, default);
    assert !Stage(hash, 6).client.saving;
    hide BeginSave, Showing, Lower;
    var request := BeginSave(Stage(hash, 6).client, default, true).1;
    var s1 := Apply(hash, default, Stage(hash, 6), SCRIPT[6]);
    assert s1.sent == [Sent(request.value, Pending)];
    var r := request.value;
    assert r.entries[0] == Entry("b", "2");
    assert EntriesOf(Current(s1.history)) == [Entry("b", "1")];
    assert r.entries[0] !in EntriesOf(Current(s1.history));
  }
}
