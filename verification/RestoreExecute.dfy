/** Executing a restore plan against an instance whose every call may fail
    (internal/backups/restore_execute.go). */
module RestoreExecute {
  import opened Text
  import opened RestorePlan

  // ----- what the instance's calls do when they work -----

  /** The torrent a cached blob holds. */
  datatype TorrentFile = TorrentFile(
    hash: string, name: string, trackerURLs: seq<string>, infoHashV1: string, infoHashV2: string, sizeBytes: int)

  type Blobs = map<string, TorrentFile>

  function WithCategory(s: LiveState, name: string, path: string): LiveState {
    s.(categories := s.categories[name := LiveCategory(name, path)])
  }

  /** Using a category or tag makes it known. */
  function Registered(s: LiveState, category: string, tags: seq<string>): LiveState {
    s.(categories := if category == "" || category in s.categories then s.categories
                     else s.categories[category := LiveCategory(category, "")],
       tags := s.tags + set t | t in tags)
  }

  function AddTorrentIn(s: LiveState, file: TorrentFile, category: string, tags: seq<string>): LiveState {
    var t := LiveTorrent(file.hash, file.name, category, tags, file.trackerURLs,
                         file.infoHashV1, file.infoHashV2, file.sizeBytes);
    Registered(s, category, tags).(torrents := s.torrents[file.hash := t])
  }

  function SetCategoryIn(s: LiveState, hash: string, category: string): LiveState {
    if hash !in s.torrents then s
    else Registered(s, category, []).(torrents := s.torrents[hash := s.torrents[hash].(category := category)])
  }

  function SetTagsIn(s: LiveState, hash: string, tags: seq<string>): LiveState {
    if hash !in s.torrents then s
    else Registered(s, "", tags).(torrents := s.torrents[hash := s.torrents[hash].(tags := tags)])
  }

  function WithoutTags(tags: seq<string>, removed: set<string>): seq<string> {
    if tags == [] then []
    else if tags[0] in removed then WithoutTags(tags[1..], removed)
    else [tags[0]] + WithoutTags(tags[1..], removed)
  }

  /** The operations an error or an applied entry is filed under. */
  datatype Operation =
    | CreateCategory | UpdateCategory | DeleteCategory | CreateTag | DeleteTag
    | AddTorrent | SetCategory | SetTags | DeleteTorrent

  /** Operations sent for many targets at once. */
  predicate IsBatch(op: Operation) {
    op in {DeleteCategory, CreateTag, DeleteTag, DeleteTorrent}
  }

  /** Removing a category or tag also takes it from the torrents that use it. */
  function BatchIn(op: Operation, s: LiveState, targets: set<string>): LiveState {
    match op
    case DeleteCategory =>
      s.(categories := s.categories - targets,
         torrents := map h | h in s.torrents ::
           if s.torrents[h].category in targets then s.torrents[h].(category := "") else s.torrents[h])
    case CreateTag => s.(tags := s.tags + targets)
    case DeleteTag =>
      s.(tags := s.tags - targets,
         torrents := map h | h in s.torrents :: s.torrents[h].(tags := WithoutTags(s.torrents[h].tags, targets)))
    case DeleteTorrent => s.(torrents := s.torrents - targets)
    case _ => s
  }

  function Elements(s: seq<string>): set<string> {
    set x | x in s
  }

  // ----- what every call keeps -----

  /** Every category and tag a live torrent uses is known to the instance. */
  ghost predicate ClosedLive(s: LiveState) {
    forall h :: h in s.torrents ==>
      && (s.torrents[h].category == "" || s.torrents[h].category in s.categories)
      && Elements(s.torrents[h].tags) <= s.tags
  }

  /** The live state is normalized and knows every label its torrents use. */
  ghost predicate Consistent(s: LiveState) {
    NormalLive(s) && ClosedLive(s)
  }

  lemma {:induction false} WithoutTagsContents(tags: seq<string>, removed: set<string>)
    ensures Elements(WithoutTags(tags, removed)) == Elements(tags) - removed
  {
    if tags == [] {
    } else {
      WithoutTagsContents(tags[1..], removed);
      assert Elements(tags) == {tags[0]} + Elements(tags[1..]) by {
        assert tags == [tags[0]] + tags[1..];
      }
      var rest := WithoutTags(tags[1..], removed);
      assert Elements([tags[0]] + rest) == {tags[0]} + Elements(rest);
    }
  }

  lemma BatchKeepsClosed(op: Operation, s: LiveState, targets: set<string>)
    requires ClosedLive(s)
    ensures ClosedLive(BatchIn(op, s, targets))
  {
    if op == DeleteTag {
      forall h | h in s.torrents { WithoutTagsContents(s.torrents[h].tags, targets); }
    }
  }

  lemma SetCategoryKeepsClosed(s: LiveState, hash: string, category: string)
    requires ClosedLive(s)
    ensures ClosedLive(SetCategoryIn(s, hash, category))
  {}

  lemma SetTagsKeepsClosed(s: LiveState, hash: string, tags: seq<string>)
    requires ClosedLive(s)
    ensures ClosedLive(SetTagsIn(s, hash, tags))
  {
    assert Elements(tags) == set t | t in tags;
  }

  lemma AddTorrentKeepsClosed(s: LiveState, file: TorrentFile, category: string, tags: seq<string>)
    requires ClosedLive(s)
    ensures ClosedLive(AddTorrentIn(s, file, category, tags))
  {
    assert Elements(tags) == set t | t in tags;
  }

  lemma {:induction false} WithoutTagsClean(tags: seq<string>, removed: set<string>)
    requires forall t :: t in tags ==> CleanEntry(t)
    ensures forall t :: t in WithoutTags(tags, removed) ==> CleanEntry(t)
  {
    hide CleanEntry;
    if tags != [] {
      WithoutTagsClean(tags[1..], removed);
    }
  }

  lemma CategoriesGoneNormal(s: LiveState, targets: set<string>)
    requires NormalLive(s)
    ensures NormalLive(BatchIn(DeleteCategory, s, targets))
  {
    hide NormalName, NormalHash, CleanEntry, WithoutTags;
  }

  lemma TagsGoneNormal(s: LiveState, targets: set<string>)
    requires NormalLive(s)
    ensures NormalLive(BatchIn(DeleteTag, s, targets))
  {
    forall h | h in s.torrents {
      WithoutTagsClean(s.torrents[h].tags, targets);
    }
    hide NormalName, NormalHash, CleanEntry, WithoutTags, Trimmed;
  }

  lemma BatchConsistent(op: Operation, s: LiveState, targets: set<string>)
    requires Consistent(s) && (op == CreateTag ==> NormalNames(targets))
    ensures Consistent(BatchIn(op, s, targets))
  {
    BatchKeepsClosed(op, s, targets);
    if op == DeleteCategory {
      CategoriesGoneNormal(s, targets);
    } else if op == DeleteTag {
      TagsGoneNormal(s, targets);
    } else {
      hide ClosedLive, NormalName, NormalHash, CleanEntry;
    }
  }

  /** Any part of a batch may have taken effect. */
  lemma BatchKept(op: Operation, s: LiveState, targets: seq<string>, part: set<string>)
    requires part <= Elements(targets)
    ensures Consistent(s) && (op == CreateTag ==> NormalNames(Elements(targets))) ==> Consistent(BatchIn(op, s, part))
  {
    if Consistent(s) && (op == CreateTag ==> NormalNames(Elements(targets))) {
      BatchConsistent(op, s, part);
    }
  }

  lemma WithCategoryKept(s: LiveState, name: string, path: string)
    ensures Consistent(s) && NormalName(name) && Trimmed(path) ==> Consistent(WithCategory(s, name, path))
  {}

  lemma RegisteredNormal(s: LiveState, category: string, tags: seq<string>)
    requires NormalLive(s) && Trimmed(category) && forall t :: t in tags ==> CleanEntry(t)
    ensures NormalLive(Registered(s, category, tags))
  {
    assert Trimmed("");
    assert category != "" ==> NormalName(category);
    forall t | t in tags ensures NormalName(t) {
      assert CleanEntry(t);
    }
    hide Trimmed, NormalName, NormalHash, CleanEntry;
  }

  lemma SetCategoryKept(s: LiveState, hash: string, category: string)
    requires Trimmed(category)
    ensures Consistent(s) ==> Consistent(SetCategoryIn(s, hash, category))
  {
    if Consistent(s) {
      SetCategoryKeepsClosed(s, hash, category);
      RegisteredNormal(s, category, []);
      hide ClosedLive, NormalName, CleanEntry, NormalHash, Trimmed, Registered;
    }
  }

  lemma SetTagsKept(s: LiveState, hash: string, tags: string)
    ensures Consistent(s) ==> Consistent(SetTagsIn(s, hash, SplitList(tags)))
  {
    if Consistent(s) {
      SetTagsKeepsClosed(s, hash, SplitList(tags));
      SplitIsClean(tags);
      assert Trimmed("");
      RegisteredNormal(s, "", SplitList(tags));
      hide ClosedLive, SplitList, NormalName, CleanEntry, NormalHash, Trimmed, Registered;
    }
  }

  lemma AddTorrentKept(s: LiveState, file: TorrentFile, category: string, tags: string)
    requires Trimmed(category)
    ensures Consistent(s) && NormalHash(file.hash) ==> Consistent(AddTorrentIn(s, file, category, SplitList(tags)))
  {
    if Consistent(s) && NormalHash(file.hash) {
      AddTorrentKeepsClosed(s, file, category, SplitList(tags));
      SplitIsClean(tags);
      RegisteredNormal(s, category, SplitList(tags));
      hide ClosedLive, SplitList, NormalName, CleanEntry, NormalHash, Trimmed, Registered;
    }
  }

  lemma CategoryTrimmed(category: Option<string>)
    ensures Trimmed(NormalizeCategory(category))
  {
    if category.Some? { TrimResult(category.value); }
  }

  // ----- the instance -----

  /** What happened outside: a call was answered, and if it failed that was final or the targets are tried again one by
      one; a cached blob could not be read; or the caller gave up. */
  datatype Answer =
    | Called(op: Operation, targets: seq<string>, ok: bool, final: bool)
    | Unreadable(hash: string)
    | GivenUp

  /** The live instance behind the writers. A failing call may or may not have taken effect, and a failing
      batch may have taken effect on any of its targets. */
  class Server {
    var state: LiveState

    /** The hashes torrent-level calls have named. */
    ghost var named: set<string>

    ghost var answers: seq<Answer>

    /** The torrents to be resumed once they are complete. */
    ghost var resumed: seq<string>

    constructor (state: LiveState)
      ensures this.state == state && named == {} && answers == [] && resumed == []
    {
      this.state := state;
      named, answers, resumed := {}, [], [];
    }

    method CreateCategory(name: string, path: string) returns (ok: bool)
      modifies this`state, this`named, this`answers
      ensures state == WithCategory(old(state), name, path) || (!ok && state == old(state))
      ensures named == old(named)
      ensures answers == old(answers) + [Called(Operation.CreateCategory, [name], ok, true)]
    {
      var applied: bool := *;
      ok := *;
      if ok || applied { state := WithCategory(state, name, path); }
      answers := answers + [Called(Operation.CreateCategory, [name], ok, true)];
    }

    method EditCategory(name: string, path: string) returns (ok: bool)
      modifies this`state, this`named, this`answers
      ensures state == WithCategory(old(state), name, path) || (!ok && state == old(state))
      ensures named == old(named)
      ensures answers == old(answers) + [Called(UpdateCategory, [name], ok, true)]
    {
      var applied: bool := *;
      ok := *;
      if ok || applied { state := WithCategory(state, name, path); }
      answers := answers + [Called(UpdateCategory, [name], ok, true)];
    }

    method AddTorrent(ghost hash: string, file: TorrentFile, category: string, tags: string) returns (ok: bool)
      modifies this`state, this`named, this`answers
      ensures state == AddTorrentIn(old(state), file, category, SplitList(tags)) || (!ok && state == old(state))
      ensures named == old(named) + {file.hash}
      ensures answers == old(answers) + [Called(Operation.AddTorrent, [hash], ok, true)]
    {
      var applied: bool := *;
      ok := *;
      named := named + {file.hash};
      if ok || applied { state := AddTorrentIn(state, file, category, SplitList(tags)); }
      answers := answers + [Called(Operation.AddTorrent, [hash], ok, true)];
    }

    method SetCategory(hash: string, category: string) returns (ok: bool)
      modifies this`state, this`named, this`answers
      ensures ok ==> hash in old(state).torrents
      ensures state == SetCategoryIn(old(state), hash, category) || (!ok && state == old(state))
      ensures named == old(named) + {hash}
      ensures answers == old(answers) + [Called(Operation.SetCategory, [hash], ok, true)]
    {
      var applied: bool := *;
      ok := *;
      ok := ok && hash in state.torrents;
      named := named + {hash};
      if ok || applied { state := SetCategoryIn(state, hash, category); }
      answers := answers + [Called(Operation.SetCategory, [hash], ok, true)];
    }

    method SetTags(hash: string, tags: string) returns (ok: bool)
      modifies this`state, this`named, this`answers
      ensures ok ==> hash in old(state).torrents
      ensures state == SetTagsIn(old(state), hash, SplitList(tags)) || (!ok && state == old(state))
      ensures named == old(named) + {hash}
      ensures answers == old(answers) + [Called(Operation.SetTags, [hash], ok, true)]
    {
      var applied: bool := *;
      ok := *;
      ok := ok && hash in state.torrents;
      named := named + {hash};
      if ok || applied { state := SetTagsIn(state, hash, SplitList(tags)); }
      answers := answers + [Called(Operation.SetTags, [hash], ok, true)];
    }

    method ResumeWhenComplete(hashes: seq<string>)
      modifies this`named, this`resumed
      ensures named == old(named) + Elements(hashes) && resumed == old(resumed) + hashes
    {
      named, resumed := named + Elements(hashes), resumed + hashes;
    }

    method Batch(op: Operation, targets: seq<string>, ghost final: bool) returns (ok: bool, ghost done: set<string>)
      requires IsBatch(op)
      modifies this`state, this`named, this`answers
      ensures done <= Elements(targets) && (ok ==> done == Elements(targets))
      ensures state == BatchIn(op, old(state), done)
      ensures named == old(named) + if op == DeleteTorrent then Elements(targets) else {}
      ensures answers == old(answers) + [Called(op, targets, ok, final)]
    {
      ok := *;
      var reached: set<string> := *;
      reached := if ok then Elements(targets) else reached * Elements(targets);
      done := reached;
      state := BatchIn(op, state, reached);
      named := named + if op == DeleteTorrent then Elements(targets) else {};
      answers := answers + [Called(op, targets, ok, final)];
    }

    /** `ctx.Err() != nil`: the caller may have given up at any time. */
    method GaveUp() returns (cancelled: bool)
      modifies this`answers
      ensures answers == if cancelled then old(answers) + [GivenUp] else old(answers)
    {
      cancelled := *;
      answers := if cancelled then answers + [GivenUp] else answers;
    }
  }

  // ----- the result -----

  datatype RestoreError = RestoreError(operation: Operation, target: string)

  datatype RestoreWarning = MissingBlob(hash: string) | ManualChange(hash: string, field: DiffField)

  function TargetsOf(errors: seq<RestoreError>, op: Operation): seq<string> {
    if errors == [] then []
    else
      var front, e := TargetsOf(errors[..|errors| - 1], op), errors[|errors| - 1];
      if e.operation == op then front + [e.target] else front
  }

  datatype RestoreApplied = RestoreApplied(
    categoriesCreated: seq<string>, categoriesUpdated: seq<string>, categoriesDeleted: seq<string>,
    tagsCreated: seq<string>, tagsDeleted: seq<string>,
    torrentsAdded: seq<string>, torrentsDeleted: seq<string>)
  {
    /** The applied list of an operation. Torrent updates have a list of their own. */
    function Of(op: Operation): seq<string> {
      match op
      case CreateCategory => categoriesCreated
      case UpdateCategory => categoriesUpdated
      case DeleteCategory => categoriesDeleted
      case CreateTag => tagsCreated
      case DeleteTag => tagsDeleted
      case AddTorrent => torrentsAdded
      case DeleteTorrent => torrentsDeleted
      case SetCategory => []
      case SetTags => []
    }

    function Append(op: Operation, targets: seq<string>): (r: RestoreApplied)
      requires op != SetCategory && op != SetTags
      ensures r.Of(op) == Of(op) + targets
      ensures forall o :: o != op ==> r.Of(o) == Of(o)
    {
      match op
      case CreateCategory => this.(categoriesCreated := categoriesCreated + targets)
      case UpdateCategory => this.(categoriesUpdated := categoriesUpdated + targets)
      case DeleteCategory => this.(categoriesDeleted := categoriesDeleted + targets)
      case CreateTag => this.(tagsCreated := tagsCreated + targets)
      case DeleteTag => this.(tagsDeleted := tagsDeleted + targets)
      case AddTorrent => this.(torrentsAdded := torrentsAdded + targets)
      case DeleteTorrent => this.(torrentsDeleted := torrentsDeleted + targets)
    }
  }

  const NOTHING_APPLIED := RestoreApplied([], [], [], [], [], [], [])

  /** Every target of an operation reported so far, as applied or as failed. */
  ghost function Accounted(applied: RestoreApplied, errors: seq<RestoreError>, op: Operation): multiset<string> {
    multiset(applied.Of(op)) + multiset(TargetsOf(errors, op))
  }

  lemma AccountedError(applied: RestoreApplied, errors: seq<RestoreError>, op: Operation, target: string, o: Operation)
    ensures Accounted(applied, errors + [RestoreError(op, target)], o)
         == Accounted(applied, errors, o) + if o == op then multiset{target} else multiset{}
  {
    var longer := errors + [RestoreError(op, target)];
    assert longer[..|longer| - 1] == errors;
  }

  /** What is reported, as a value. */
  datatype Report = Report(applied: RestoreApplied, updated: seq<string>, warnings: seq<RestoreWarning>,
                           errors: seq<RestoreError>)

  predicate IsLabel(op: Operation) {
    op == SetCategory || op == SetTags
  }

  /** The targets of calls that succeeded. */
  ghost function Succeeded(answers: seq<Answer>, op: Operation): multiset<string> {
    if answers == [] then multiset{}
    else
      var front, last := Succeeded(answers[..|answers| - 1], op), answers[|answers| - 1];
      if last.Called? && last.op == op && last.ok then front + multiset(last.targets) else front
  }

  /** The targets of calls that failed for good; an added torrent also fails if its blob cannot be read. */
  ghost function Failed(answers: seq<Answer>, op: Operation): multiset<string> {
    if answers == [] then multiset{}
    else
      var front, last := Failed(answers[..|answers| - 1], op), answers[|answers| - 1];
      if last.Called? && last.op == op && !last.ok && last.final then front + multiset(last.targets)
      else if last.Unreadable? && op == AddTorrent then front + multiset{last.hash}
      else front
  }

  ghost function Missing(warnings: seq<RestoreWarning>): multiset<string> {
    if warnings == [] then multiset{}
    else
      var front, last := Missing(warnings[..|warnings| - 1]), warnings[|warnings| - 1];
      if last.MissingBlob? then front + multiset{last.hash} else front
  }

  /** The torrents whose category or tags were set. */
  ghost predicate Labelled(answers: seq<Answer>, hash: string) {
    exists a :: a in answers && a.Called? && IsLabel(a.op) && a.targets == [hash] && a.ok
  }

  /** The report says what happened: applied is what a call did, failed what a call refused for good or had no blob,
      and a torrent is updated exactly if a label of it was set; `added` torrents are labelled while they are added. */
  ghost predicate Tells(added: set<string>, r: Report, answers: seq<Answer>, cancelled: bool) {
    && (forall op :: !IsLabel(op) ==> multiset(r.applied.Of(op)) == Succeeded(answers, op))
    && (forall op :: multiset(TargetsOf(r.errors, op))
                     == Failed(answers, op) + if op == AddTorrent then Missing(r.warnings) else multiset{})
    && (forall h :: h !in added ==> (h in r.updated <==> Labelled(answers, h)))
    && (cancelled <==> GivenUp in answers)
  }

  /** The report once a call is answered. */
  function Filed(r: Report, op: Operation, targets: seq<string>, ok: bool, final: bool): Report
    requires !IsLabel(op) && |targets| > 0
  {
    if ok then r.(applied := r.applied.Append(op, targets))
    else if final then r.(errors := r.errors + [RestoreError(op, targets[0])])
    else r
  }

  lemma AnswerFiled(added: set<string>, r: Report, answers: seq<Answer>, op: Operation, targets: seq<string>,
                    ok: bool, final: bool)
    requires Tells(added, r, answers, false) && !IsLabel(op) && |targets| > 0 && (!ok && final ==> |targets| == 1)
    ensures Tells(added, Filed(r, op, targets, ok, final), answers + [Called(op, targets, ok, final)], false)
  {
    hide Tells;
    if ok {
      AppliedFiled(added, r, answers, op, targets, final);
    } else if final {
      ErrorFiled(added, r, answers, op, targets[0]);
      assert targets == [targets[0]];
    } else {
      RetryFiled(added, r, answers, op, targets);
    }
  }

  lemma ErrorFiled(added: set<string>, r: Report, answers: seq<Answer>, op: Operation, target: string)
    requires Tells(added, r, answers, false) && !IsLabel(op)
    ensures Tells(added, r.(errors := r.errors + [RestoreError(op, target)]),
                  answers + [Called(op, [target], false, true)], false)
  {
    AnswersGrow(answers, Called(op, [target], false, true));
    ErrorsGrow(r.errors, op, target);
    hide Succeeded, Failed, Missing, Labelled, TargetsOf, RestoreApplied.Of;
  }

  lemma RetryFiled(added: set<string>, r: Report, answers: seq<Answer>, op: Operation, targets: seq<string>)
    requires Tells(added, r, answers, false)
    ensures Tells(added, r, answers + [Called(op, targets, false, false)], false)
  {
    AnswersGrow(answers, Called(op, targets, false, false));
    hide Succeeded, Failed, Missing, Labelled, TargetsOf, RestoreApplied.Of;
  }

  lemma AppliedFiled(added: set<string>, r: Report, answers: seq<Answer>, op: Operation, targets: seq<string>,
                     final: bool)
    requires Tells(added, r, answers, false) && !IsLabel(op)
    ensures Tells(added, r.(applied := r.applied.Append(op, targets)), answers + [Called(op, targets, true, final)],
                  false)
  {
    AnswersGrow(answers, Called(op, targets, true, final));
    hide Succeeded, Failed, Missing, Labelled, TargetsOf, RestoreApplied.Of, RestoreApplied.Append;
    var applied := r.applied.Append(op, targets);
    forall o | !IsLabel(o)
      ensures multiset(applied.Of(o)) == Succeeded(answers + [Called(op, targets, true, final)], o)
    {
      assert multiset(r.applied.Of(o)) == Succeeded(answers, o);
    }
  }

  /** One more answer. */
  lemma AnswersGrow(answers: seq<Answer>, a: Answer)
    ensures forall op :: Succeeded(answers + [a], op)
              == Succeeded(answers, op) + if a.Called? && a.op == op && a.ok then multiset(a.targets) else multiset{}
    ensures forall op :: Failed(answers + [a], op)
              == Failed(answers, op) + if a.Called? && a.op == op && !a.ok && a.final then multiset(a.targets)
                                       else if a.Unreadable? && op == AddTorrent then multiset{a.hash}
                                       else multiset{}
    ensures forall h :: Labelled(answers + [a], h)
              <==> Labelled(answers, h) || (a.Called? && IsLabel(a.op) && a.targets == [h] && a.ok)
    ensures GivenUp in answers + [a] <==> GivenUp in answers || a.GivenUp?
  {
    assert (answers + [a])[..|answers|] == answers;
    forall h ensures Labelled(answers + [a], h)
                <==> Labelled(answers, h) || (a.Called? && IsLabel(a.op) && a.targets == [h] && a.ok)
    {
      assert a in answers + [a];
      if Labelled(answers, h) {
        var b :| b in answers && b.Called? && IsLabel(b.op) && b.targets == [h] && b.ok;
        assert b in answers + [a];
      }
    }
  }

  lemma ErrorsGrow(errors: seq<RestoreError>, op: Operation, target: string)
    ensures forall o :: multiset(TargetsOf(errors + [RestoreError(op, target)], o))
              == multiset(TargetsOf(errors, o)) + if o == op then multiset{target} else multiset{}
  {
    var longer := errors + [RestoreError(op, target)];
    assert longer[..|errors|] == errors;
  }

  lemma WarningsGrow(warnings: seq<RestoreWarning>, w: RestoreWarning)
    ensures Missing(warnings + [w]) == Missing(warnings) + if w.MissingBlob? then multiset{w.hash} else multiset{}
  {
    assert (warnings + [w])[..|warnings|] == warnings;
  }

  lemma GivenUpTold(added: set<string>, r: Report, answers: seq<Answer>)
    requires Tells(added, r, answers, false)
    ensures Tells(added, r, answers + [GivenUp], true)
  {
    AnswersGrow(answers, GivenUp);
    hide Succeeded, Failed, Missing, Labelled, TargetsOf;
  }

  /** A torrent without a cached blob. */
  lemma BlobMissed(added: set<string>, r: Report, answers: seq<Answer>, hash: string)
    requires Tells(added, r, answers, false)
    ensures Tells(added, r.(warnings := r.warnings + [MissingBlob(hash)],
                            errors := r.errors + [RestoreError(AddTorrent, hash)]), answers, false)
    ensures Tells(added, r.(errors := r.errors + [RestoreError(AddTorrent, hash)]), answers + [Unreadable(hash)], false)
  {
    AnswersGrow(answers, Unreadable(hash));
    ErrorsGrow(r.errors, AddTorrent, hash);
    WarningsGrow(r.warnings, MissingBlob(hash));
    hide Succeeded, Failed, Missing, Labelled, TargetsOf;
  }

  /** The call for a label; the report of the torrent as updated is still to come, if it is not an added one. */
  lemma LabelFiled(added: set<string>, r: Report, answers: seq<Answer>, op: Operation, hash: string, ok: bool)
    requires Tells(added, r, answers, false) && IsLabel(op) && hash in added
    ensures Tells(added, if ok then r else r.(errors := r.errors + [RestoreError(op, hash)]),
                  answers + [Called(op, [hash], ok, true)], false)
  {
    AnswersGrow(answers, Called(op, [hash], ok, true));
    ErrorsGrow(r.errors, op, hash);
    hide Succeeded, Failed, Missing, Labelled, TargetsOf;
  }

  lemma ManualChangeTold(added: set<string>, r: Report, answers: seq<Answer>, hash: string, field: DiffField)
    requires Tells(added, r, answers, false)
    ensures Tells(added, r.(warnings := r.warnings + [ManualChange(hash, field)]), answers, false)
  {
    WarningsGrow(r.warnings, ManualChange(hash, field));
    hide Succeeded, Failed, Missing, Labelled, TargetsOf;
  }

  /** A torrent that is being updated may be labelled before it is reported. */
  lemma WhileUpdating(added: set<string>, r: Report, answers: seq<Answer>, hash: string)
    requires Tells(added, r, answers, false)
    ensures Tells(added + {hash}, r, answers, false)
  {
    hide Succeeded, Failed, Missing, Labelled, TargetsOf;
  }

  lemma UpdateTold(added: set<string>, hash: string, before: Report, earlier: seq<Answer>, r: Report,
                   answers: seq<Answer>, applied: bool)
    requires Tells(added, before, earlier, false) && Tells(added + {hash}, r, earlier + answers, false)
    requires r.updated == before.updated && (applied <==> Labelled(answers, hash))
    ensures Tells(added, if applied then r.(updated := r.updated + [hash]) else r, earlier + answers, false)
  {
    assert Labelled(earlier + answers, hash) <==> Labelled(earlier, hash) || Labelled(answers, hash) by {
      if Labelled(earlier, hash) {
        var a :| a in earlier && a.Called? && IsLabel(a.op) && a.targets == [hash] && a.ok;
        assert a in earlier + answers;
      }
      if Labelled(answers, hash) {
        var a :| a in answers && a.Called? && IsLabel(a.op) && a.targets == [hash] && a.ok;
        assert a in earlier + answers;
      }
    }
    hide Succeeded, Failed, Missing, Labelled, TargetsOf;
  }

  /** If every call succeeded and every blob was there and could be read, no error is reported. */
  lemma NoFailureNoError(added: set<string>, r: Report, answers: seq<Answer>, cancelled: bool)
    requires Tells(added, r, answers, cancelled)
    requires forall a :: a in answers ==> a.Called? && a.ok
    requires forall w :: w in r.warnings ==> !w.MissingBlob?
    ensures r.errors == [] && !cancelled
  {
    NoneFailed(answers);
    NoneMissing(r.warnings);
    LastErrorTold(r.errors);
    hide Succeeded, Failed, Missing, Labelled, TargetsOf;
    assert forall op :: multiset(TargetsOf(r.errors, op)) == multiset{};
  }

  lemma LastErrorTold(errors: seq<RestoreError>)
    ensures errors != [] ==>
              multiset(TargetsOf(errors, errors[|errors| - 1].operation)) != multiset{}
  {
    if errors != [] {
      var e := errors[|errors| - 1];
      var told := TargetsOf(errors, e.operation);
      assert told[|told| - 1] == e.target;
      assert e.target in multiset(told);
    }
  }

  lemma {:induction false} NoneFailed(answers: seq<Answer>)
    requires forall a :: a in answers ==> a.Called? && a.ok
    ensures forall op :: Failed(answers, op) == multiset{}
  {
    if answers != [] {
      assert answers[|answers| - 1] in answers;
      NoneFailed(answers[..|answers| - 1]);
    }
  }

  lemma {:induction false} NoneMissing(warnings: seq<RestoreWarning>)
    requires forall w :: w in warnings ==> !w.MissingBlob?
    ensures Missing(warnings) == multiset{}
  {
    if warnings != [] {
      assert warnings[|warnings| - 1] in warnings;
      NoneMissing(warnings[..|warnings| - 1]);
    }
  }

  class RestoreResult {
    var applied: RestoreApplied
    var torrentsUpdated: seq<string>
    var warnings: seq<RestoreWarning>
    var errors: seq<RestoreError>

    /** The answers given before this restore, and the torrents it is to add. */
    ghost const since: nat
    ghost const added: set<string>

    constructor (ghost since: nat, ghost added: set<string>)
      ensures applied == NOTHING_APPLIED && torrentsUpdated == [] && warnings == [] && errors == []
      ensures this.since == since && this.added == added
    {
      applied, torrentsUpdated, warnings, errors := NOTHING_APPLIED, [], [], [];
      this.since, this.added := since, added;
    }

    ghost function Contents(): Report
      reads this
    {
      Report(applied, torrentsUpdated, warnings, errors)
    }

    /** The result tells what the answers since its creation say. */
    ghost predicate Truthful(answers: seq<Answer>, cancelled: bool)
      reads this
    {
      TellsSince(since, added, Contents(), answers, cancelled)
    }

    ghost function Accounts(op: Operation): multiset<string>
      reads `applied, `errors
    {
      Accounted(applied, errors, op)
    }

    /** `appendRestoreError`. */
    method AppendError(op: Operation, target: string)
      modifies this`errors
      ensures errors == old(errors) + [RestoreError(op, target)]
      ensures forall o :: Accounts(o) == old(Accounts(o)) + if o == op then multiset{target} else multiset{}
    {
      forall o ensures Accounted(applied, errors + [RestoreError(op, target)], o)
                    == Accounted(applied, errors, o) + if o == op then multiset{target} else multiset{}
      {
        AccountedError(applied, errors, op, target, o);
      }
      errors := errors + [RestoreError(op, target)];
    }

    method AppendApplied(op: Operation, targets: seq<string>)
      requires op != SetCategory && op != SetTags
      modifies this`applied
      ensures applied == old(applied).Append(op, targets)
      ensures forall o :: Accounts(o) == old(Accounts(o)) + if o == op then multiset(targets) else multiset{}
    {
      applied := applied.Append(op, targets);
    }
  }

  /** The steps above, for a result and all the answers there are. */
  ghost predicate TellsSince(since: nat, added: set<string>, r: Report, answers: seq<Answer>, cancelled: bool) {
    since <= |answers| && Tells(added, r, answers[since..], cancelled)
  }

  lemma NothingToldYet(added: set<string>, answers: seq<Answer>)
    ensures TellsSince(|answers|, added, Report(NOTHING_APPLIED, [], [], []), answers, false)
  {
    assert answers[|answers|..] == [];
  }

  lemma CallFiled(since: nat, added: set<string>, r: Report, answers: seq<Answer>, op: Operation, targets: seq<string>,
                  ok: bool, final: bool)
    requires !IsLabel(op) && |targets| > 0 && (!ok && final ==> |targets| == 1)
    ensures TellsSince(since, added, r, answers, false) ==>
              TellsSince(since, added, Filed(r, op, targets, ok, final), answers + [Called(op, targets, ok, final)],
                         false)
  {
    hide Tells;
    if TellsSince(since, added, r, answers, false) {
      AnswerFiled(added, r, answers[since..], op, targets, ok, final);
      assert (answers + [Called(op, targets, ok, final)])[since..]
          == answers[since..] + [Called(op, targets, ok, final)];
    }
  }

  lemma GivenUpReported(result: RestoreResult, answers: seq<Answer>)
    ensures result.Truthful(answers, false) ==> result.Truthful(answers + [GivenUp], true)
  {
    hide Tells;
    if result.Truthful(answers, false) {
      GivenUpTold(result.added, result.Contents(), answers[result.since..]);
      assert (answers + [GivenUp])[result.since..] == answers[result.since..] + [GivenUp];
    }
  }

  lemma MissFiled(since: nat, added: set<string>, r: Report, answers: seq<Answer>, hash: string)
    ensures TellsSince(since, added, r, answers, false) ==>
              && TellsSince(since, added, r.(warnings := r.warnings + [MissingBlob(hash)],
                                             errors := r.errors + [RestoreError(AddTorrent, hash)]), answers, false)
              && TellsSince(since, added, r.(errors := r.errors + [RestoreError(AddTorrent, hash)]),
                            answers + [Unreadable(hash)], false)
  {
    hide Tells;
    if TellsSince(since, added, r, answers, false) {
      BlobMissed(added, r, answers[since..], hash);
      assert (answers + [Unreadable(hash)])[since..] == answers[since..] + [Unreadable(hash)];
    }
  }

  lemma LabelCallFiled(since: nat, added: set<string>, r: Report, answers: seq<Answer>, op: Operation, hash: string,
                       ok: bool)
    requires IsLabel(op) && hash in added
    ensures TellsSince(since, added, r, answers, false) ==>
              TellsSince(since, added, if ok then r else r.(errors := r.errors + [RestoreError(op, hash)]),
                         answers + [Called(op, [hash], ok, true)], false)
  {
    hide Tells;
    if TellsSince(since, added, r, answers, false) {
      LabelFiled(added, r, answers[since..], op, hash, ok);
      assert (answers + [Called(op, [hash], ok, true)])[since..] == answers[since..] + [Called(op, [hash], ok, true)];
    }
  }

  // ----- batches, with the retry of each target alone -----

  lemma {:induction false} WithoutTagsTwice(tags: seq<string>, a: set<string>, b: set<string>)
    ensures WithoutTags(WithoutTags(tags, a), b) == WithoutTags(tags, a + b)
  {
    if tags != [] {
      WithoutTagsTwice(tags[1..], a, b);
    }
  }

  lemma BatchTwice(op: Operation, s: LiveState, a: set<string>, b: set<string>)
    requires IsBatch(op)
    ensures BatchIn(op, BatchIn(op, s, a), b) == BatchIn(op, s, a + b)
  {
    match op
    case DeleteCategory =>
      assert s.categories - a - b == s.categories - (a + b);
      BatchCategoriesTwice(s, a, b);
    case CreateTag => assert s.tags + a + b == s.tags + (a + b);
    case DeleteTag =>
      assert s.tags - a - b == s.tags - (a + b);
      forall h | h in s.torrents { WithoutTagsTwice(s.torrents[h].tags, a, b); }
    case DeleteTorrent => assert s.torrents - a - b == s.torrents - (a + b);
  }

  lemma BatchCategoriesTwice(s: LiveState, a: set<string>, b: set<string>)
    ensures BatchIn(DeleteCategory, BatchIn(DeleteCategory, s, a), b) == BatchIn(DeleteCategory, s, a + b)
  {
    assert s.categories - a - b == s.categories - (a + b);
  }

  /** Everything planned was added to what is reported; part of it, if the caller gave up. */
  ghost predicate AllReported(cancelled: bool, before: multiset<string>, after: multiset<string>,
                              planned: multiset<string>)
  {
    if cancelled then after <= before + planned else after == before + planned
  }

  lemma PartReported(before: multiset<string>, after: multiset<string>, part: seq<string>, all: seq<string>)
    requires after == before + multiset(part) && multiset(part) <= multiset(all)
    ensures AllReported(true, before, after, multiset(all))
    ensures part == all ==> AllReported(false, before, after, multiset(all))
  {}

  method ApplyBatch(server: Server, result: RestoreResult, op: Operation, targets: seq<string>)
    returns (cancelled: bool)
    requires IsBatch(op) && targets != []
    modifies server`state, server`named, server`answers, result`applied, result`errors
    ensures AllReported(cancelled, old(result.Accounts(op)), result.Accounts(op), multiset(targets))
    ensures forall o :: o != op ==> result.Accounts(o) == old(result.Accounts(o))
    ensures old(result.errors) <= result.errors
    ensures !cancelled && result.errors == old(result.errors) ==>
              server.state == BatchIn(op, old(server.state), Elements(targets))
    ensures server.named <= old(server.named) + if op == DeleteTorrent then Elements(targets) else {}
    ensures Consistent(old(server.state)) && (op == CreateTag ==> NormalNames(Elements(targets))) ==>
              Consistent(server.state)
    ensures old(result.Truthful(server.answers, false)) ==> result.Truthful(server.answers, cancelled)
    ensures op != AddTorrent ==> result.applied.torrentsAdded == old(result.applied.torrentsAdded)
  {
    hide BatchIn, Accounted, Elements, Consistent, NormalNames, TellsSince;
    ghost var was, answers := result.Contents(), server.answers;
    var ok, done := server.Batch(op, targets, false);
    BatchKept(op, old(server.state), targets, done);
    CallFiled(result.since, result.added, was, answers, op, targets, ok, false);
    if ok {
      result.AppendApplied(op, targets);
      return false;
    }
    ghost var now;
    cancelled, now := RetryEach(server, result, op, targets);
    BatchTwice(op, old(server.state), done, now);
    BatchKept(op, old(server.state), targets, done + now);
    assert Elements(targets) <= now ==> done + now == Elements(targets);
  }

  /** Only one operation is reported, and no error is lost. */
  ghost predicate OnlyReports(op: Operation, a: Report, b: Report) {
    && (forall o :: o != op ==> Accounted(b.applied, b.errors, o) == Accounted(a.applied, a.errors, o))
    && (op != AddTorrent ==> b.applied.torrentsAdded == a.applied.torrentsAdded)
    && a.errors <= b.errors
  }

  lemma OnlyReportsThen(op: Operation, a: Report, b: Report, c: Report)
    ensures OnlyReports(op, a, a)
    ensures OnlyReports(op, a, b) && OnlyReports(op, b, c) ==> OnlyReports(op, a, c)
  {
    hide Accounted;
  }

  lemma OnlyReportsOne(op: Operation, r: Report, target: string)
    requires !IsLabel(op)
    ensures OnlyReports(op, r, r.(applied := r.applied.Append(op, [target])))
    ensures OnlyReports(op, r, r.(errors := r.errors + [RestoreError(op, target)]))
  {
    forall o ensures o != op ==> Accounted(r.applied, r.errors + [RestoreError(op, target)], o)
                                 == Accounted(r.applied, r.errors, o)
    {
      AccountedError(r.applied, r.errors, op, target, o);
    }
  }

  lemma OnlyReportsMeans(op: Operation, a: Report, b: Report)
    requires OnlyReports(op, a, b)
    ensures forall o :: o != op ==> Accounted(b.applied, b.errors, o) == Accounted(a.applied, a.errors, o)
    ensures op != AddTorrent ==> b.applied.torrentsAdded == a.applied.torrentsAdded
    ensures a.errors <= b.errors
  {}

  method RetryOne(server: Server, result: RestoreResult, op: Operation, target: string)
    returns (ghost done: set<string>)
    requires IsBatch(op)
    modifies server`state, server`named, server`answers, result`applied, result`errors
    ensures result.Accounts(op) == old(result.Accounts(op)) + multiset{target}
    ensures OnlyReports(op, old(result.Contents()), result.Contents())
    ensures done <= {target} && server.state == BatchIn(op, old(server.state), done)
    ensures result.errors == old(result.errors) ==> done == {target}
    ensures server.named == old(server.named) + if op == DeleteTorrent then {target} else {}
    ensures old(result.Truthful(server.answers, false)) ==> result.Truthful(server.answers, false)
  {
    hide BatchIn, Accounted, TellsSince, OnlyReports;
    ghost var was, answers := result.Contents(), server.answers;
    var ok;
    ok, done := server.Batch(op, [target], true);
    assert Elements([target]) == {target};
    CallFiled(result.since, result.added, was, answers, op, [target], ok, true);
    OnlyReportsOne(op, was, target);
    if ok {
      result.AppendApplied(op, [target]);
    } else {
      result.AppendError(op, target);
    }
  }

  /** The retry of a failed batch, one target at a time. */
  method RetryEach(server: Server, result: RestoreResult, op: Operation, targets: seq<string>)
    returns (cancelled: bool, ghost done: set<string>)
    requires IsBatch(op)
    modifies server`state, server`named, server`answers, result`applied, result`errors
    ensures AllReported(cancelled, old(result.Accounts(op)), result.Accounts(op), multiset(targets))
    ensures forall o :: o != op ==> result.Accounts(o) == old(result.Accounts(o))
    ensures old(result.errors) <= result.errors
    ensures done <= Elements(targets) && server.state == BatchIn(op, old(server.state), done)
    ensures !cancelled && result.errors == old(result.errors) ==> Elements(targets) <= done
    ensures server.named <= old(server.named) + if op == DeleteTorrent then Elements(targets) else {}
    ensures old(result.Truthful(server.answers, false)) ==> result.Truthful(server.answers, cancelled)
    ensures op != AddTorrent ==> result.applied.torrentsAdded == old(result.applied.torrentsAdded)
  {
    hide BatchIn, Accounted, Elements, IsBatch, TellsSince, RestoreResult.Truthful, AllReported, OnlyReports;
    done := {};
    ghost var start := result.Contents();
    OnlyReportsThen(op, start, start, start);
    BatchNothing(op, server.state);
    NoElements(targets);
    var i := 0;
    while i < |targets|
      invariant 0 <= i <= |targets|
      invariant result.Accounts(op) == old(result.Accounts(op)) + multiset(targets[..i])
      invariant OnlyReports(op, start, result.Contents()) && old(result.errors) <= result.errors
      invariant old(result.Truthful(server.answers, false)) ==> result.Truthful(server.answers, false)
      invariant server.state == BatchIn(op, old(server.state), done) && done <= Elements(targets)
      invariant result.errors == old(result.errors) ==> Elements(targets[..i]) <= done
      invariant server.named <= old(server.named) + if op == DeleteTorrent then Elements(targets) else {}
    {
      PrefixParts(targets, i);
      GivenUpReported(result, server.answers);
      OnlyReportsMeans(op, start, result.Contents());
      PartReported(old(result.Accounts(op)), result.Accounts(op), targets[..i], targets);
      cancelled := server.GaveUp();
      if cancelled {
        return;
      }
      ghost var was := result.Contents();
      ghost var now := RetryOne(server, result, op, targets[i]);
      OnlyReportsMeans(op, was, result.Contents());
      OnlyReportsThen(op, start, was, result.Contents());
      BatchTwice(op, old(server.state), done, now);
      done := done + now;
      i := i + 1;
    }
    assert targets[..i] == targets;
    OnlyReportsMeans(op, start, result.Contents());
    PartReported(old(result.Accounts(op)), result.Accounts(op), targets, targets);
    cancelled := false;
  }

  lemma BatchNothing(op: Operation, s: LiveState)
    requires IsBatch(op)
    ensures BatchIn(op, s, {}) == s
  {
    if op == DeleteTag {
      forall h | h in s.torrents { WithoutNoTags(s.torrents[h].tags); }
    }
  }

  lemma {:induction false} WithoutNoTags(tags: seq<string>)
    ensures WithoutTags(tags, {}) == tags
  {
    if tags != [] {
      WithoutNoTags(tags[1..]);
    }
  }

  lemma NoElements(s: seq<string>)
    ensures Elements(s[..0]) == {}
  {}

  lemma PrefixParts(s: seq<string>, i: nat)
    requires i < |s|
    ensures s[..i + 1] == s[..i] + [s[i]]
    ensures multiset(s[..i]) <= multiset(s)
    ensures Elements(s[..i + 1]) == Elements(s[..i]) + {s[i]}
    ensures Elements([s[i]]) == {s[i]} && s[i] in Elements(s)
  {
    assert s == s[..i] + s[i..];
    assert s[..i + 1] == s[..i] + [s[i]];
  }

  // ----- categories and tags -----

  function CreateAll(s: LiveState, specs: seq<CategorySpec>): LiveState {
    if specs == [] then s
    else
      var spec := specs[|specs| - 1];
      WithCategory(CreateAll(s, specs[..|specs| - 1]), spec.name, spec.savePath)
  }

  function EditAll(s: LiveState, updates: seq<CategoryUpdate>): LiveState {
    if updates == [] then s
    else
      var update := updates[|updates| - 1];
      WithCategory(EditAll(s, updates[..|updates| - 1]), update.name, update.desiredPath)
  }

  function CategoriesApplied(s: LiveState, p: CategoryPlan): LiveState {
    BatchIn(DeleteCategory, EditAll(CreateAll(s, p.create), p.update), Elements(p.delete))
  }

  function SpecNames(specs: seq<CategorySpec>): (names: seq<string>)
    ensures |names| == |specs|
  {
    seq(|specs|, i requires 0 <= i < |specs| => specs[i].name)
  }

  function UpdateNames(updates: seq<CategoryUpdate>): (names: seq<string>)
    ensures |names| == |updates|
  {
    seq(|updates|, i requires 0 <= i < |updates| => updates[i].name)
  }

  function TagNames(specs: seq<TagSpec>): (names: seq<string>)
    ensures |names| == |specs|
  {
    seq(|specs|, i requires 0 <= i < |specs| => specs[i].name)
  }

  function TagsApplied(s: LiveState, p: TagPlan): LiveState {
    BatchIn(DeleteTag, BatchIn(CreateTag, s, Elements(TagNames(p.create))), Elements(p.delete))
  }

  /** What the plan wants done under each operation, excluded torrents left out. */
  function Planned(plan: RestorePlan, exclude: set<string>, op: Operation): multiset<string> {
    match op
    case CreateCategory => multiset(SpecNames(plan.categories.create))
    case UpdateCategory => multiset(UpdateNames(plan.categories.update))
    case DeleteCategory => multiset(plan.categories.delete)
    case CreateTag => multiset(TagNames(plan.tags.create))
    case DeleteTag => multiset(plan.tags.delete)
    case AddTorrent => multiset(SpecHashes(Filter(plan.torrents.add, KeepSpec(exclude))))
    case DeleteTorrent => multiset(Filter(plan.torrents.delete, KeepHash(exclude)))
    case SetCategory => multiset{}
    case SetTags => multiset{}
  }

  function SpecHashes(specs: seq<TorrentSpec>): (hashes: seq<string>)
    ensures |hashes| == |specs|
  {
    seq(|specs|, i requires 0 <= i < |specs| => specs[i].manifest.hash)
  }

  ghost predicate NormalSpecs(specs: seq<CategorySpec>) {
    forall i :: 0 <= i < |specs| ==> NormalName(specs[i].name) && Trimmed(specs[i].savePath)
  }

  ghost predicate NormalUpdates(updates: seq<CategoryUpdate>) {
    forall i :: 0 <= i < |updates| ==> NormalName(updates[i].name) && Trimmed(updates[i].desiredPath)
  }

  method CreateOne(server: Server, result: RestoreResult, spec: CategorySpec)
    modifies server`state, server`named, server`answers, result`applied, result`errors
    ensures result.Accounts(CreateCategory) == old(result.Accounts(CreateCategory)) + multiset{spec.name}
    ensures OnlyReports(CreateCategory, old(result.Contents()), result.Contents())
    ensures server.named == old(server.named)
    ensures result.errors == old(result.errors) ==>
              server.state == WithCategory(old(server.state), spec.name, spec.savePath)
    ensures Consistent(old(server.state)) && NormalName(spec.name) && Trimmed(spec.savePath) ==>
              Consistent(server.state)
    ensures old(result.Truthful(server.answers, false)) ==> result.Truthful(server.answers, false)
  {
    hide Accounted, WithCategory, Consistent, NormalName, Trimmed, TellsSince, OnlyReports;
    WithCategoryKept(server.state, spec.name, spec.savePath);
    ghost var was, answers := result.Contents(), server.answers;
    var ok := server.CreateCategory(spec.name, spec.savePath);
    CallFiled(result.since, result.added, was, answers, CreateCategory, [spec.name], ok, true);
    OnlyReportsOne(CreateCategory, was, spec.name);
    if ok {
      result.AppendApplied(CreateCategory, [spec.name]);
    } else {
      result.AppendError(CreateCategory, spec.name);
    }
  }

  method CreateCategories(server: Server, result: RestoreResult, specs: seq<CategorySpec>) returns (cancelled: bool)
    modifies server`state, server`named, server`answers, result`applied, result`errors
    ensures AllReported(cancelled, old(result.Accounts(CreateCategory)), result.Accounts(CreateCategory),
                        multiset(SpecNames(specs)))
    ensures forall o :: o != CreateCategory ==> result.Accounts(o) == old(result.Accounts(o))
    ensures old(result.errors) <= result.errors && server.named == old(server.named)
    ensures !cancelled && result.errors == old(result.errors) ==> server.state == CreateAll(old(server.state), specs)
    ensures Consistent(old(server.state)) && NormalSpecs(specs) ==> Consistent(server.state)
    ensures old(result.Truthful(server.answers, false)) ==> result.Truthful(server.answers, cancelled)
    ensures result.applied.torrentsAdded == old(result.applied.torrentsAdded)
  {
    hide Accounted, SpecNames, CreateAll, WithCategory, Consistent, NormalSpecs, NormalUpdates, TellsSince,
         AllReported, NormalName, Trimmed, RestoreResult.Truthful, OnlyReports;
    ghost var start := result.Contents();
    OnlyReportsThen(CreateCategory, start, start, start);
    var i := 0;
    NoneCreated(server.state, specs);
    while i < |specs|
      invariant 0 <= i <= |specs|
      invariant result.Accounts(CreateCategory)
                == old(result.Accounts(CreateCategory)) + multiset(SpecNames(specs[..i]))
      invariant OnlyReports(CreateCategory, start, result.Contents())
      invariant old(result.errors) <= result.errors && server.named == old(server.named)
      invariant old(result.Truthful(server.answers, false)) ==> result.Truthful(server.answers, false)
      invariant result.errors == old(result.errors) ==> server.state == CreateAll(old(server.state), specs[..i])
      invariant Consistent(old(server.state)) && NormalSpecs(specs) ==> Consistent(server.state)
    {
      SpecNamesStep(specs, i);
      CreateAllStep(old(server.state), specs, i);
      GivenUpReported(result, server.answers);
      PartReported(old(result.Accounts(CreateCategory)), result.Accounts(CreateCategory), SpecNames(specs[..i]),
                   SpecNames(specs));
      OnlyReportsMeans(CreateCategory, start, result.Contents());
      cancelled := server.GaveUp();
      if cancelled {
        return;
      }
      ghost var was := result.Contents();
      CreateOne(server, result, specs[i]);
      OnlyReportsMeans(CreateCategory, was, result.Contents());
      OnlyReportsThen(CreateCategory, start, was, result.Contents());
      NormalSpec(specs, i);
      i := i + 1;
    }
    assert specs[..i] == specs;
    OnlyReportsMeans(CreateCategory, start, result.Contents());
    PartReported(old(result.Accounts(CreateCategory)), result.Accounts(CreateCategory), SpecNames(specs[..i]),
                 SpecNames(specs));
    cancelled := false;
  }

  lemma NormalSpec(specs: seq<CategorySpec>, i: nat)
    requires i < |specs|
    ensures NormalSpecs(specs) ==> NormalName(specs[i].name) && Trimmed(specs[i].savePath)
  {}

  lemma NoneCreated(s: LiveState, specs: seq<CategorySpec>)
    ensures CreateAll(s, specs[..0]) == s && SpecNames(specs[..0]) == []
  {}

  lemma CreateAllStep(s: LiveState, specs: seq<CategorySpec>, i: nat)
    requires i < |specs|
    ensures CreateAll(s, specs[..i + 1]) == WithCategory(CreateAll(s, specs[..i]), specs[i].name, specs[i].savePath)
  {
    assert specs[..i + 1][..i] == specs[..i];
  }

  lemma SpecNamesStep(specs: seq<CategorySpec>, i: nat)
    requires i < |specs|
    ensures SpecNames(specs[..i + 1]) == SpecNames(specs[..i]) + [specs[i].name]
    ensures multiset(SpecNames(specs[..i])) <= multiset(SpecNames(specs))
  {
    var names := SpecNames(specs);
    assert SpecNames(specs[..i]) == names[..i];
    assert names == names[..i] + names[i..];
  }

  method EditOne(server: Server, result: RestoreResult, update: CategoryUpdate)
    modifies server`state, server`named, server`answers, result`applied, result`errors
    ensures result.Accounts(UpdateCategory) == old(result.Accounts(UpdateCategory)) + multiset{update.name}
    ensures OnlyReports(UpdateCategory, old(result.Contents()), result.Contents())
    ensures server.named == old(server.named)
    ensures result.errors == old(result.errors) ==>
              server.state == WithCategory(old(server.state), update.name, update.desiredPath)
    ensures Consistent(old(server.state)) && NormalName(update.name) && Trimmed(update.desiredPath) ==>
              Consistent(server.state)
    ensures old(result.Truthful(server.answers, false)) ==> result.Truthful(server.answers, false)
  {
    hide Accounted, WithCategory, Consistent, NormalName, Trimmed, TellsSince, OnlyReports;
    WithCategoryKept(server.state, update.name, update.desiredPath);
    ghost var was, answers := result.Contents(), server.answers;
    var ok := server.EditCategory(update.name, update.desiredPath);
    CallFiled(result.since, result.added, was, answers, UpdateCategory, [update.name], ok, true);
    OnlyReportsOne(UpdateCategory, was, update.name);
    if ok {
      result.AppendApplied(UpdateCategory, [update.name]);
    } else {
      result.AppendError(UpdateCategory, update.name);
    }
  }

  method UpdateCategories(server: Server, result: RestoreResult, updates: seq<CategoryUpdate>) returns (cancelled: bool)
    modifies server`state, server`named, server`answers, result`applied, result`errors
    ensures AllReported(cancelled, old(result.Accounts(UpdateCategory)), result.Accounts(UpdateCategory),
                        multiset(UpdateNames(updates)))
    ensures forall o :: o != UpdateCategory ==> result.Accounts(o) == old(result.Accounts(o))
    ensures old(result.errors) <= result.errors && server.named == old(server.named)
    ensures !cancelled && result.errors == old(result.errors) ==> server.state == EditAll(old(server.state), updates)
    ensures Consistent(old(server.state)) && NormalUpdates(updates) ==> Consistent(server.state)
    ensures old(result.Truthful(server.answers, false)) ==> result.Truthful(server.answers, cancelled)
    ensures result.applied.torrentsAdded == old(result.applied.torrentsAdded)
  {
    hide Accounted, UpdateNames, EditAll, WithCategory, Consistent, NormalSpecs, NormalUpdates, TellsSince,
         AllReported, NormalName, Trimmed, RestoreResult.Truthful, OnlyReports;
    ghost var start := result.Contents();
    OnlyReportsThen(UpdateCategory, start, start, start);
    var i := 0;
    NoneEdited(server.state, updates);
    while i < |updates|
      invariant 0 <= i <= |updates|
      invariant result.Accounts(UpdateCategory)
                == old(result.Accounts(UpdateCategory)) + multiset(UpdateNames(updates[..i]))
      invariant OnlyReports(UpdateCategory, start, result.Contents())
      invariant old(result.errors) <= result.errors && server.named == old(server.named)
      invariant old(result.Truthful(server.answers, false)) ==> result.Truthful(server.answers, false)
      invariant result.errors == old(result.errors) ==> server.state == EditAll(old(server.state), updates[..i])
      invariant Consistent(old(server.state)) && NormalUpdates(updates) ==> Consistent(server.state)
    {
      UpdateNamesStep(updates, i);
      EditAllStep(old(server.state), updates, i);
      GivenUpReported(result, server.answers);
      PartReported(old(result.Accounts(UpdateCategory)), result.Accounts(UpdateCategory), UpdateNames(updates[..i]),
                   UpdateNames(updates));
      OnlyReportsMeans(UpdateCategory, start, result.Contents());
      cancelled := server.GaveUp();
      if cancelled {
        return;
      }
      ghost var was := result.Contents();
      EditOne(server, result, updates[i]);
      OnlyReportsMeans(UpdateCategory, was, result.Contents());
      OnlyReportsThen(UpdateCategory, start, was, result.Contents());
      NormalUpdate(updates, i);
      i := i + 1;
    }
    assert updates[..i] == updates;
    OnlyReportsMeans(UpdateCategory, start, result.Contents());
    PartReported(old(result.Accounts(UpdateCategory)), result.Accounts(UpdateCategory), UpdateNames(updates[..i]),
                 UpdateNames(updates));
    cancelled := false;
  }

  lemma NormalUpdate(updates: seq<CategoryUpdate>, i: nat)
    requires i < |updates|
    ensures NormalUpdates(updates) ==> NormalName(updates[i].name) && Trimmed(updates[i].desiredPath)
  {}

  lemma NoneEdited(s: LiveState, updates: seq<CategoryUpdate>)
    ensures EditAll(s, updates[..0]) == s && UpdateNames(updates[..0]) == []
  {}

  lemma EditAllStep(s: LiveState, updates: seq<CategoryUpdate>, i: nat)
    requires i < |updates|
    ensures EditAll(s, updates[..i + 1])
            == WithCategory(EditAll(s, updates[..i]), updates[i].name, updates[i].desiredPath)
  {
    assert updates[..i + 1][..i] == updates[..i];
  }

  lemma UpdateNamesStep(updates: seq<CategoryUpdate>, i: nat)
    requires i < |updates|
    ensures UpdateNames(updates[..i + 1]) == UpdateNames(updates[..i]) + [updates[i].name]
    ensures multiset(UpdateNames(updates[..i])) <= multiset(UpdateNames(updates))
  {
    var names := UpdateNames(updates);
    assert UpdateNames(updates[..i]) == names[..i];
    assert names == names[..i] + names[i..];
  }

  method ApplyCategoryPlan(server: Server, result: RestoreResult, plan: RestorePlan) returns (cancelled: bool)
    modifies server`state, server`named, server`answers, result`applied, result`errors
    ensures AllReported(cancelled, old(result.Accounts(CreateCategory)), result.Accounts(CreateCategory),
                        multiset(SpecNames(plan.categories.create)))
    ensures AllReported(cancelled, old(result.Accounts(UpdateCategory)), result.Accounts(UpdateCategory),
                        multiset(UpdateNames(plan.categories.update)))
    ensures AllReported(cancelled, old(result.Accounts(DeleteCategory)), result.Accounts(DeleteCategory),
                        multiset(plan.categories.delete))
    ensures result.Accounts(CreateTag) == old(result.Accounts(CreateTag))
    ensures result.Accounts(DeleteTag) == old(result.Accounts(DeleteTag))
    ensures result.Accounts(AddTorrent) == old(result.Accounts(AddTorrent))
    ensures result.Accounts(DeleteTorrent) == old(result.Accounts(DeleteTorrent))
    ensures old(result.errors) <= result.errors && server.named <= old(server.named)
    ensures !cancelled && result.errors == old(result.errors) ==>
              server.state == CategoriesApplied(old(server.state), plan.categories)
    ensures Consistent(old(server.state)) && NormalSpecs(plan.categories.create)
            && NormalUpdates(plan.categories.update) ==>
              Consistent(server.state)
    ensures old(result.Truthful(server.answers, false)) ==> result.Truthful(server.answers, cancelled)
    ensures result.applied.torrentsAdded == old(result.applied.torrentsAdded)
  {
    hide Accounted, BatchIn, CreateAll, EditAll, SpecNames, UpdateNames, Elements, Consistent, NormalSpecs,
         NormalUpdates, TellsSince, RestoreResult.Truthful;
    NoElements(plan.categories.delete);
    cancelled := CreateCategories(server, result, plan.categories.create);
    if cancelled {
      return;
    }
    cancelled := UpdateCategories(server, result, plan.categories.update);
    if cancelled {
      return;
    }
    if |plan.categories.delete| == 0 {
      BatchNothing(DeleteCategory, server.state);
      assert plan.categories.delete == plan.categories.delete[..0];
      return false;
    }
    GivenUpReported(result, server.answers);
    cancelled := server.GaveUp();
    if cancelled {
      return;
    }
    cancelled := ApplyBatch(server, result, DeleteCategory, plan.categories.delete);
  }

  method ApplyTagPlan(server: Server, result: RestoreResult, plan: RestorePlan) returns (cancelled: bool)
    modifies server`state, server`named, server`answers, result`applied, result`errors
    ensures AllReported(cancelled, old(result.Accounts(CreateTag)), result.Accounts(CreateTag),
                        multiset(TagNames(plan.tags.create)))
    ensures AllReported(cancelled, old(result.Accounts(DeleteTag)), result.Accounts(DeleteTag),
                        multiset(plan.tags.delete))
    ensures result.Accounts(CreateCategory) == old(result.Accounts(CreateCategory))
    ensures result.Accounts(UpdateCategory) == old(result.Accounts(UpdateCategory))
    ensures result.Accounts(DeleteCategory) == old(result.Accounts(DeleteCategory))
    ensures result.Accounts(AddTorrent) == old(result.Accounts(AddTorrent))
    ensures result.Accounts(DeleteTorrent) == old(result.Accounts(DeleteTorrent))
    ensures old(result.errors) <= result.errors && server.named <= old(server.named)
    ensures !cancelled && result.errors == old(result.errors) ==>
              server.state == TagsApplied(old(server.state), plan.tags)
    ensures Consistent(old(server.state)) && NormalNames(Elements(TagNames(plan.tags.create))) ==>
              Consistent(server.state)
    ensures old(result.Truthful(server.answers, false)) ==> result.Truthful(server.answers, cancelled)
    ensures result.applied.torrentsAdded == old(result.applied.torrentsAdded)
  {
    hide Accounted, BatchIn, Elements, Consistent, NormalNames, TellsSince, RestoreResult.Truthful;
    NoElements(TagNames(plan.tags.create));
    NoElements(plan.tags.delete);
    if |plan.tags.create| > 0 {
      GivenUpReported(result, server.answers);
      cancelled := server.GaveUp();
      if cancelled {
        return;
      }
      cancelled := ApplyBatch(server, result, CreateTag, TagNames(plan.tags.create));
      if cancelled {
        return;
      }
    } else {
      BatchNothing(CreateTag, server.state);
      assert TagNames(plan.tags.create) == [] == TagNames(plan.tags.create)[..0];
    }
    if |plan.tags.delete| == 0 {
      BatchNothing(DeleteTag, server.state);
      assert plan.tags.delete == plan.tags.delete[..0];
      return false;
    }
    GivenUpReported(result, server.answers);
    cancelled := server.GaveUp();
    if cancelled {
      return;
    }
    cancelled := ApplyBatch(server, result, DeleteTag, plan.tags.delete);
  }

  // ----- torrents -----

  datatype RestoreOptions = RestoreOptions(dryRun: bool, skipHashCheck: bool, autoResumeVerified: bool,
                                           excludeHashes: seq<string>)

  /** Setting the category and the tags of a torrent just added. */
  function LabelIn(s: LiveState, m: ManifestItem): LiveState {
    var category := NormalizeCategory(m.category);
    var labelled := if category != "" then SetCategoryIn(s, m.hash, category) else s;
    if m.tags != [] then SetTagsIn(labelled, m.hash, SplitList(JoinComma(m.tags))) else labelled
  }

  function AddSpecIn(s: LiveState, spec: TorrentSpec, blobs: Blobs): LiveState {
    var m := spec.manifest;
    if Trim(m.torrentBlob) !in blobs then s
    else LabelIn(AddTorrentIn(s, blobs[Trim(m.torrentBlob)], NormalizeCategory(m.category),
                              SplitList(JoinComma(m.tags))), m)
  }

  function AddAll(s: LiveState, specs: seq<TorrentSpec>, blobs: Blobs): LiveState {
    if specs == [] then s else AddSpecIn(AddAll(s, specs[..|specs| - 1], blobs), specs[|specs| - 1], blobs)
  }

  /** `asString` and `asStringSlice` on the values a change carries. */
  function AsText(v: DiffValue): string {
    if v.TextValue? then v.text else ""
  }

  function AsTags(v: DiffValue): seq<string> {
    if v.TagsValue? then v.tags else []
  }

  function ChangeIn(s: LiveState, hash: string, change: DiffChange): LiveState {
    if !change.supported then s
    else
      match change.field
      case CategoryField => SetCategoryIn(s, hash, Trim(AsText(change.desired)))
      case TagsField => SetTagsIn(s, hash, SplitList(JoinComma(AsTags(change.desired))))
      case _ => s
  }

  function ChangesIn(s: LiveState, hash: string, changes: seq<DiffChange>): LiveState {
    if changes == [] then s
    else ChangeIn(ChangesIn(s, hash, changes[..|changes| - 1]), hash, changes[|changes| - 1])
  }

  function UpdateAll(s: LiveState, updates: seq<TorrentUpdate>): LiveState {
    if updates == [] then s
    else
      var u := updates[|updates| - 1];
      ChangesIn(UpdateAll(s, updates[..|updates| - 1]), u.hash, u.changes)
  }

  function TorrentsApplied(s: LiveState, p: TorrentPlan, blobs: Blobs): LiveState {
    BatchIn(DeleteTorrent, UpdateAll(AddAll(s, p.add, blobs), p.update), Elements(p.delete))
  }

  /** The hashes the calls for one added torrent may name. */
  function NamesOfAdd(spec: TorrentSpec, blobs: Blobs): set<string> {
    {spec.manifest.hash}
    + if Trim(spec.manifest.torrentBlob) in blobs then {blobs[Trim(spec.manifest.torrentBlob)].hash} else {}
  }

  /** Hashes of which none is excluded. */
  ghost predicate NoneExcluded(hashes: set<string>, exclude: set<string>) {
    forall h :: h in hashes ==> !ShouldSkipTorrent(h, exclude)
  }

  /** Every cached blob holds the torrent it was cached for. */
  ghost predicate BlobsMatch(specs: seq<TorrentSpec>, blobs: Blobs) {
    forall spec :: spec in specs && Trim(spec.manifest.torrentBlob) in blobs ==>
      blobs[Trim(spec.manifest.torrentBlob)].hash == spec.manifest.hash
  }

  ghost predicate BlobsPresent(specs: seq<TorrentSpec>, blobs: Blobs) {
    forall spec :: spec in specs ==> Trim(spec.manifest.torrentBlob) in blobs
  }

  /** A cached blob holds a torrent with a normalized hash. */
  ghost predicate NormalBlob(spec: TorrentSpec, blobs: Blobs) {
    Trim(spec.manifest.torrentBlob) in blobs ==> NormalHash(blobs[Trim(spec.manifest.torrentBlob)].hash)
  }

  ghost predicate NormalBlobs(specs: seq<TorrentSpec>, blobs: Blobs) {
    forall i :: 0 <= i < |specs| ==> NormalBlob(specs[i], blobs)
  }

  /** `loadTorrentBlobData`: reading a cached blob may fail even if it is there. */
  method LoadTorrentBlobData(server: Server, ghost hash: string, blobPath: string, blobs: Blobs)
    returns (file: Option<TorrentFile>)
    modifies server`answers
    ensures file.Some? ==> blobPath in blobs && file.value == blobs[blobPath]
    ensures server.answers == if file.None? then old(server.answers) + [Unreadable(hash)] else old(server.answers)
  {
    var readable: bool := *;
    file := if readable && blobPath in blobs then Some(blobs[blobPath]) else None;
    server.answers := if file.None? then server.answers + [Unreadable(hash)] else server.answers;
  }

  /** New warnings of a missing blob are about torrents listed without one. */
  ghost predicate OnlyMissing(before: seq<RestoreWarning>, after: seq<RestoreWarning>, specs: seq<TorrentSpec>) {
    forall h :: MissingBlob(h) in after && MissingBlob(h) !in before ==>
      exists i :: 0 <= i < |specs| && specs[i].manifest.hash == h && Trim(specs[i].manifest.torrentBlob) == ""
  }

  lemma OneMissing(warnings: seq<RestoreWarning>, spec: TorrentSpec)
    requires Trim(spec.manifest.torrentBlob) == ""
    ensures OnlyMissing(warnings, warnings + [MissingBlob(spec.manifest.hash)], [spec])
  {
    assert [spec][0] == spec;
  }

  lemma OnlyMissingThen(before: seq<RestoreWarning>, mid: seq<RestoreWarning>, after: seq<RestoreWarning>,
                        specs: seq<TorrentSpec>)
    requires OnlyMissing(before, mid, specs) && OnlyMissing(mid, after, [])
    ensures OnlyMissing(before, after, specs)
  {}

  lemma NoneMissingYet(warnings: seq<RestoreWarning>, specs: seq<TorrentSpec>)
    ensures OnlyMissing(warnings, warnings, specs)
  {}

  /** Nothing but added torrents and their labels is reported. */
  ghost predicate OthersKept(a: Report, b: Report) {
    forall o :: o !in {AddTorrent, SetCategory, SetTags} ==>
      Accounted(a.applied, a.errors, o) == Accounted(b.applied, b.errors, o)
  }

  lemma OthersKeptThen(a: Report, b: Report, c: Report)
    ensures OthersKept(a, a)
    ensures OthersKept(a, b) && OthersKept(b, c) ==> OthersKept(a, c)
  {
    hide Accounted;
  }

  lemma OthersKeptError(r: Report, warnings: seq<RestoreWarning>, op: Operation, target: string)
    requires op in {AddTorrent, SetCategory, SetTags}
    ensures OthersKept(r, r.(warnings := warnings, errors := r.errors + [RestoreError(op, target)]))
  {
    forall o ensures o != op ==> Accounted(r.applied, r.errors + [RestoreError(op, target)], o)
                                 == Accounted(r.applied, r.errors, o)
    {
      AccountedError(r.applied, r.errors, op, target, o);
    }
    hide Accounted;
  }

  lemma OthersKeptApplied(r: Report, targets: seq<string>)
    ensures OthersKept(r, r.(applied := r.applied.Append(AddTorrent, targets)))
  {
    hide RestoreApplied.Of, RestoreApplied.Append;
    var applied := r.applied.Append(AddTorrent, targets);
    assert forall o :: o != AddTorrent ==> applied.Of(o) == r.applied.Of(o);
  }

  lemma OthersKeptMeans(a: Report, b: Report)
    requires OthersKept(a, b)
    ensures forall o :: o !in {AddTorrent, SetCategory, SetTags} ==>
              Accounted(a.applied, a.errors, o) == Accounted(b.applied, b.errors, o)
  {}

  method AddOne(server: Server, result: RestoreResult, spec: TorrentSpec, blobs: Blobs) returns (added: bool)
    modifies server`state, server`named, server`answers, result
    ensures result.Accounts(AddTorrent) == old(result.Accounts(AddTorrent)) + multiset{spec.manifest.hash}
    ensures OthersKept(old(result.Contents()), result.Contents())
    ensures old(result.errors) <= result.errors && result.torrentsUpdated == old(result.torrentsUpdated)
    ensures result.errors == old(result.errors) ==>
              && Trim(spec.manifest.torrentBlob) in blobs
              && server.state == AddSpecIn(old(server.state), spec, blobs)
    ensures server.named <= old(server.named) + NamesOfAdd(spec, blobs)
    ensures Consistent(old(server.state)) && NormalBlob(spec, blobs) ==> Consistent(server.state)
    ensures spec.manifest.hash in result.added && old(result.Truthful(server.answers, false)) ==>
              result.Truthful(server.answers, false)
    ensures OnlyMissing(old(result.warnings), result.warnings, [spec])
    ensures result.applied.torrentsAdded
            == old(result.applied.torrentsAdded) + if added then [spec.manifest.hash] else []
    ensures SpecAdded(result.since, result.added,
                      Moment(old(server.state), old(server.named), old(result.Contents()), old(server.answers)),
                      Moment(server.state, server.named, result.Contents(), server.answers), spec, blobs)
  {
    hide Accounted, AddTorrentIn, LabelIn, Consistent, NormalHash, TellsSince, OthersKept;
    ghost var was, answers := result.Contents(), server.answers;
    var hash := spec.manifest.hash;
    var blobPath := Trim(spec.manifest.torrentBlob);
    MissFiled(result.since, result.added, was, answers, hash);
    if blobPath == "" {
      result.warnings := result.warnings + [MissingBlob(hash)];
      result.AppendError(AddTorrent, hash);
      OneMissing(was.warnings, spec);
      OthersKeptError(was, result.warnings, AddTorrent, hash);
      return false;
    }
    var file := LoadTorrentBlobData(server, hash, blobPath, blobs);
    if file == None {
      result.AppendError(AddTorrent, hash);
      OthersKeptError(was, result.warnings, AddTorrent, hash);
      return false;
    }
    var desiredCategory := NormalizeCategory(spec.manifest.category);
    CategoryTrimmed(spec.manifest.category);
    AddTorrentKept(server.state, file.value, desiredCategory, JoinComma(spec.manifest.tags));
    var ok := server.AddTorrent(hash, file.value, desiredCategory, JoinComma(spec.manifest.tags));
    CallFiled(result.since, result.added, was, answers, AddTorrent, [hash], ok, true);
    if !ok {
      result.AppendError(AddTorrent, hash);
      OthersKeptError(was, result.warnings, AddTorrent, hash);
      return false;
    }
    LabelOne(server, result, spec.manifest, result.applied.Append(AddTorrent, [hash]));
    ghost var labelled := result.Contents();
    OthersKeptApplied(labelled, [hash]);
    result.AppendApplied(AddTorrent, [hash]);
    OthersKeptThen(was, labelled, result.Contents());
    added := true;
  }

  method LabelCategory(server: Server, result: RestoreResult, hash: string, category: string,
                       ghost applied: RestoreApplied)
    requires Trimmed(category)
    modifies server`state, server`named, server`answers, result`errors
    ensures OthersKept(old(result.Contents()), result.Contents())
    ensures result.Accounts(AddTorrent) == old(result.Accounts(AddTorrent))
    ensures old(result.errors) <= result.errors
    ensures result.errors == old(result.errors) ==> server.state == SetCategoryIn(old(server.state), hash, category)
    ensures server.named <= old(server.named) + {hash}
    ensures Consistent(old(server.state)) ==> Consistent(server.state)
    ensures hash in result.added
            && TellsSince(result.since, result.added, old(result.Contents()).(applied := applied), old(server.answers),
                          false) ==>
              TellsSince(result.since, result.added, result.Contents().(applied := applied), server.answers, false)
  {
    hide Accounted, SetCategoryIn, SetTagsIn, SplitList, Consistent, TellsSince, OthersKept;
    SetCategoryKept(server.state, hash, category);
    ghost var was, answers := result.Contents(), server.answers;
    OthersKeptThen(was, was, was);
    OthersKeptError(was, was.warnings, SetCategory, hash);
    var ok := server.SetCategory(hash, category);
    if hash in result.added {
      LabelCallFiled(result.since, result.added, was.(applied := applied), answers, SetCategory, hash, ok);
    }
    if !ok {
      result.AppendError(SetCategory, hash);
    }
  }

  method LabelTags(server: Server, result: RestoreResult, hash: string, tags: string, ghost applied: RestoreApplied)
    modifies server`state, server`named, server`answers, result`errors
    ensures OthersKept(old(result.Contents()), result.Contents())
    ensures result.Accounts(AddTorrent) == old(result.Accounts(AddTorrent))
    ensures old(result.errors) <= result.errors
    ensures result.errors == old(result.errors) ==> server.state == SetTagsIn(old(server.state), hash, SplitList(tags))
    ensures server.named <= old(server.named) + {hash}
    ensures Consistent(old(server.state)) ==> Consistent(server.state)
    ensures hash in result.added
            && TellsSince(result.since, result.added, old(result.Contents()).(applied := applied), old(server.answers),
                          false) ==>
              TellsSince(result.since, result.added, result.Contents().(applied := applied), server.answers, false)
  {
    hide Accounted, SetCategoryIn, SetTagsIn, SplitList, Consistent, TellsSince, OthersKept;
    SetTagsKept(server.state, hash, tags);
    ghost var was, answers := result.Contents(), server.answers;
    OthersKeptThen(was, was, was);
    OthersKeptError(was, was.warnings, SetTags, hash);
    var ok := server.SetTags(hash, tags);
    if hash in result.added {
      LabelCallFiled(result.since, result.added, was.(applied := applied), answers, SetTags, hash, ok);
    }
    if !ok {
      result.AppendError(SetTags, hash);
    }
  }

  /** The two calls after a torrent was added; their failures do not undo it. */
  method LabelOne(server: Server, result: RestoreResult, m: ManifestItem, ghost applied: RestoreApplied)
    modifies server`state, server`named, server`answers, result`errors
    ensures OthersKept(old(result.Contents()), result.Contents())
    ensures result.Accounts(AddTorrent) == old(result.Accounts(AddTorrent))
    ensures old(result.errors) <= result.errors
    ensures result.errors == old(result.errors) ==> server.state == LabelIn(old(server.state), m)
    ensures server.named <= old(server.named) + {m.hash}
    ensures Consistent(old(server.state)) ==> Consistent(server.state)
    ensures m.hash in result.added
            && TellsSince(result.since, result.added, old(result.Contents()).(applied := applied), old(server.answers),
                          false) ==>
              TellsSince(result.since, result.added, result.Contents().(applied := applied), server.answers, false)
  {
    hide Accounted, SetCategoryIn, SetTagsIn, SplitList, Consistent, TellsSince, OthersKept, Trimmed;
    CategoryTrimmed(m.category);
    ghost var start := result.Contents();
    OthersKeptThen(start, start, start);
    var desiredCategory := NormalizeCategory(m.category);
    if desiredCategory != "" {
      LabelCategory(server, result, m.hash, desiredCategory, applied);
    }
    ghost var mid := result.Contents();
    if |m.tags| > 0 {
      LabelTags(server, result, m.hash, JoinComma(m.tags), applied);
      OthersKeptThen(start, mid, result.Contents());
    }
  }

  lemma {:induction false} FilterPrefix<T>(s: seq<T>, keep: T -> bool, i: nat)
    requires i <= |s|
    ensures Filter(s[..i], keep) <= Filter(s, keep)
    decreases |s| - i
  {
    if i < |s| {
      FilterPrefix(s, keep, i + 1);
      assert s[..i + 1][..i] == s[..i];
    } else {
      assert s[..i] == s;
    }
  }

  lemma FilterStep<T>(s: seq<T>, keep: T -> bool, i: nat)
    requires i < |s|
    ensures Filter(s[..i + 1], keep) == Filter(s[..i], keep) + if keep(s[i]) then [s[i]] else []
  {
    assert s[..i + 1][..i] == s[..i];
  }

  lemma HashesOfPrefix(a: seq<TorrentSpec>, b: seq<TorrentSpec>)
    requires a <= b
    ensures multiset(SpecHashes(a)) <= multiset(SpecHashes(b))
  {
    assert SpecHashes(b) == SpecHashes(a) + SpecHashes(b)[|a|..];
  }

  lemma HashesAppend(a: seq<TorrentSpec>, spec: TorrentSpec)
    ensures SpecHashes(a + [spec]) == SpecHashes(a) + [spec.manifest.hash]
  {}

  lemma AddAllAppend(s: LiveState, specs: seq<TorrentSpec>, spec: TorrentSpec, blobs: Blobs)
    ensures AddAll(s, specs + [spec], blobs) == AddSpecIn(AddAll(s, specs, blobs), spec, blobs)
  {
    assert (specs + [spec])[..|specs|] == specs;
  }

  ghost predicate AllAdded(specs: seq<TorrentSpec>, added: set<string>) {
    forall i :: 0 <= i < |specs| ==> specs[i].manifest.hash in added
  }

  /** What is seen at a moment of a restore. */
  datatype Moment = Moment(state: LiveState, named: set<string>, report: Report, answers: seq<Answer>)

  /** What the torrents added so far have made of the first moment. */
  ghost predicate Adding(since: nat, added: set<string>, a: Moment, b: Moment, kept: seq<TorrentSpec>, blobs: Blobs) {
    && Accounted(b.report.applied, b.report.errors, AddTorrent)
       == Accounted(a.report.applied, a.report.errors, AddTorrent) + multiset(SpecHashes(kept))
    && OthersKept(a.report, b.report)
    && a.report.errors <= b.report.errors && b.report.updated == a.report.updated
    && (b.report.errors == a.report.errors ==> b.state == AddAll(a.state, kept, blobs) && BlobsPresent(kept, blobs))
    && (forall h :: h in b.named ==> h in a.named || NamedByAdds(h, kept, blobs))
    && (Consistent(a.state) && NormalBlobs(kept, blobs) ==> Consistent(b.state))
    && (AllAdded(kept, added) && TellsSince(since, added, a.report, a.answers, false) ==>
          TellsSince(since, added, b.report, b.answers, false))
    && OnlyMissing(a.report.warnings, b.report.warnings, kept)
  }

  ghost predicate NamedByAdds(h: string, kept: seq<TorrentSpec>, blobs: Blobs) {
    exists i :: 0 <= i < |kept| && h in NamesOfAdd(kept[i], blobs)
  }

  /** What one added torrent makes of a moment. */
  ghost predicate SpecAdded(since: nat, added: set<string>, a: Moment, b: Moment, spec: TorrentSpec, blobs: Blobs) {
    && Accounted(b.report.applied, b.report.errors, AddTorrent)
       == Accounted(a.report.applied, a.report.errors, AddTorrent) + multiset{spec.manifest.hash}
    && OthersKept(a.report, b.report)
    && a.report.errors <= b.report.errors && b.report.updated == a.report.updated
    && (b.report.errors == a.report.errors ==>
          Trim(spec.manifest.torrentBlob) in blobs && b.state == AddSpecIn(a.state, spec, blobs))
    && b.named <= a.named + NamesOfAdd(spec, blobs)
    && (Consistent(a.state) && NormalBlob(spec, blobs) ==> Consistent(b.state))
    && (spec.manifest.hash in added && TellsSince(since, added, a.report, a.answers, false) ==>
          TellsSince(since, added, b.report, b.answers, false))
    && OnlyMissing(a.report.warnings, b.report.warnings, [spec])
  }

  lemma AddingStep(since: nat, added: set<string>, a: Moment, b: Moment, c: Moment, kept: seq<TorrentSpec>,
                   spec: TorrentSpec, blobs: Blobs)
    requires Adding(since, added, a, b, kept, blobs) && SpecAdded(since, added, b, c, spec, blobs)
    ensures Adding(since, added, a, c, kept + [spec], blobs)
  {
    hide Accounted, AddSpecIn, AddAll, Consistent, NormalBlob, TellsSince, NamesOfAdd, OthersKept, OnlyMissing,
         NamedByAdds, SpecHashes, NormalBlobs, AllAdded, BlobsPresent;
    HashesAppend(kept, spec);
    AddAllAppend(a.state, kept, spec, blobs);
    OthersKeptThen(a.report, b.report, c.report);
    OnlyMissingAppend(a.report.warnings, b.report.warnings, c.report.warnings, kept, spec);
    PartsAppend(kept, spec, blobs, added);
    forall h | h in c.named ensures h in a.named || NamedByAdds(h, kept + [spec], blobs) {
      NamesAppend(h, kept, spec, blobs);
    }
  }

  lemma PartsAppend(kept: seq<TorrentSpec>, spec: TorrentSpec, blobs: Blobs, added: set<string>)
    ensures NormalBlobs(kept + [spec], blobs) <==> NormalBlobs(kept, blobs) && NormalBlob(spec, blobs)
    ensures AllAdded(kept + [spec], added) <==> AllAdded(kept, added) && spec.manifest.hash in added
    ensures BlobsPresent(kept + [spec], blobs)
       <==> BlobsPresent(kept, blobs) && Trim(spec.manifest.torrentBlob) in blobs
  {
    hide NormalBlob, Trim;
    var all := kept + [spec];
    assert all[|kept|] == spec && forall i :: 0 <= i < |kept| ==> all[i] == kept[i];
    assert forall x :: x in all <==> x in kept || x == spec;
  }

  lemma NamesAppend(h: string, kept: seq<TorrentSpec>, spec: TorrentSpec, blobs: Blobs)
    ensures NamedByAdds(h, kept, blobs) || h in NamesOfAdd(spec, blobs) ==> NamedByAdds(h, kept + [spec], blobs)
  {
    hide NamesOfAdd;
    var all := kept + [spec];
    assert all[|kept|] == spec && forall i :: 0 <= i < |kept| ==> all[i] == kept[i];
  }

  lemma OnlyMissingAppend(a: seq<RestoreWarning>, b: seq<RestoreWarning>, c: seq<RestoreWarning>,
                          kept: seq<TorrentSpec>, spec: TorrentSpec)
    requires OnlyMissing(a, b, kept) && OnlyMissing(b, c, [spec])
    ensures OnlyMissing(a, c, kept + [spec])
  {
    hide Trim;
    var all := kept + [spec];
    assert all[|kept|] == spec && forall i :: 0 <= i < |kept| ==> all[i] == kept[i];
  }

  /** The torrents to resume are those added, if hash checks are skipped and verified torrents resumed. */
  ghost predicate Resumable(before: RestoreApplied, after: RestoreApplied, pending: seq<string>, opts: RestoreOptions) {
    && before.torrentsAdded <= after.torrentsAdded
    && pending == if opts.skipHashCheck && opts.autoResumeVerified then after.torrentsAdded[|before.torrentsAdded|..]
                  else []
  }

  ghost predicate Resumed(before: seq<string>, after: seq<string>, was: RestoreApplied, now: RestoreApplied,
                          opts: RestoreOptions)
  {
    && was.torrentsAdded <= now.torrentsAdded
    && after == before + if opts.skipHashCheck && opts.autoResumeVerified
                         then now.torrentsAdded[|was.torrentsAdded|..] else []
  }

  lemma SameAdded(before: seq<string>, after: seq<string>, was: RestoreApplied, now: RestoreApplied,
                  later: RestoreApplied, opts: RestoreOptions)
    requires Resumed(before, after, was, now, opts) && later.torrentsAdded == now.torrentsAdded
    ensures Resumed(before, after, was, later, opts)
  {}

  lemma SameAddedBefore(before: seq<string>, after: seq<string>, was: RestoreApplied, earlier: RestoreApplied,
                        now: RestoreApplied, opts: RestoreOptions)
    requires Resumed(before, after, was, now, opts) && earlier.torrentsAdded == was.torrentsAdded
    ensures Resumed(before, after, earlier, now, opts)
  {}

  lemma ResumablesResumed(before: seq<string>, was: RestoreApplied, now: RestoreApplied, pending: seq<string>,
                          opts: RestoreOptions)
    requires Resumable(was, now, pending, opts)
    ensures Resumed(before, before + pending, was, now, opts)
    ensures |pending| == 0 ==> Resumed(before, before, was, now, opts)
  {
    assert |pending| == 0 ==> before + pending == before;
  }

  ghost predicate Pending(a: Moment, r: Report, kept: seq<TorrentSpec>, pending: seq<string>, opts: RestoreOptions,
                          exclude: set<string>)
  {
    && Resumable(a.report.applied, r.applied, pending, opts)
    && (forall k :: 0 <= k < |kept| ==> !ShouldSkipTorrent(kept[k].manifest.hash, exclude))
    && NoneExcluded(Elements(pending), exclude)
  }

  lemma PendingStep(a: Moment, r: Report, later: Report, kept: seq<TorrentSpec>, spec: TorrentSpec,
                    pending: seq<string>, opts: RestoreOptions, exclude: set<string>, added: bool)
    requires Pending(a, r, kept, pending, opts, exclude) && !ShouldSkipTorrent(spec.manifest.hash, exclude)
    requires later.applied.torrentsAdded
             == r.applied.torrentsAdded + if added then [spec.manifest.hash] else []
    ensures Pending(a, later, kept + [spec],
                    if added && opts.skipHashCheck && opts.autoResumeVerified then pending + [spec.manifest.hash]
                    else pending, opts, exclude)
  {
    hide ShouldSkipTorrent;
  }

  lemma PendingMeans(a: Moment, r: Report, kept: seq<TorrentSpec>, pending: seq<string>, opts: RestoreOptions,
                     exclude: set<string>)
    requires Pending(a, r, kept, pending, opts, exclude)
    ensures NoneExcluded(Elements(pending), exclude)
  {}

  lemma Skipped(kept: seq<TorrentSpec>, spec: TorrentSpec, exclude: set<string>)
    requires ShouldSkipTorrent(spec.manifest.hash, exclude)
    ensures !KeepSpec(exclude)(spec) && kept + [] == kept
  {}

  lemma Kept(kept: seq<TorrentSpec>, spec: TorrentSpec, exclude: set<string>)
    requires !ShouldSkipTorrent(spec.manifest.hash, exclude)
    ensures KeepSpec(exclude)(spec)
  {}

  lemma NothingAdded(since: nat, added: set<string>, a: Moment, specs: seq<TorrentSpec>, keep: TorrentSpec -> bool,
                     blobs: Blobs, opts: RestoreOptions, exclude: set<string>)
    ensures Adding(since, added, a, a, [], blobs) && Pending(a, a.report, [], [], opts, exclude)
    ensures Filter(specs[..0], keep) == []
  {
    hide Accounted, TellsSince, Consistent;
    assert specs[..0] == [];
  }

  /** What that means once the caller gives up or all torrents are dealt with. */
  lemma AddingMeans(since: nat, added: set<string>, a: Moment, b: Moment, kept: seq<TorrentSpec>,
                    specs: seq<TorrentSpec>, blobs: Blobs, exclude: set<string>)
    requires Adding(since, added, a, b, kept, blobs) && kept <= Filter(specs, KeepSpec(exclude))
    ensures var all := multiset(SpecHashes(Filter(specs, KeepSpec(exclude))));
            var before, after := Accounted(a.report.applied, a.report.errors, AddTorrent),
                                 Accounted(b.report.applied, b.report.errors, AddTorrent);
            && AllReported(true, before, after, all)
            && (kept == Filter(specs, KeepSpec(exclude)) ==> AllReported(false, before, after, all))
    ensures OthersKept(a.report, b.report)
    ensures a.report.errors <= b.report.errors && b.report.updated == a.report.updated
    ensures b.report.errors == a.report.errors ==> b.state == AddAll(a.state, kept, blobs) && BlobsPresent(kept, blobs)
    ensures BlobsMatch(specs, blobs) && NoneExcluded(a.named, exclude) ==> NoneExcluded(b.named, exclude)
    ensures Consistent(a.state) && NormalBlobs(specs, blobs) ==> Consistent(b.state)
    ensures AllAdded(specs, added) && TellsSince(since, added, a.report, a.answers, false) ==>
              TellsSince(since, added, b.report, b.answers, false)
    ensures OnlyMissing(a.report.warnings, b.report.warnings, specs)
  {
    hide Accounted, AddSpecIn, AddAll, Consistent, NormalBlob, TellsSince, OthersKept, SpecHashes, ShouldSkipTorrent,
         AllReported, Trim, BlobsPresent, Filter;
    var all := Filter(specs, KeepSpec(exclude));
    FilterContents(specs, KeepSpec(exclude));
    HashesOfPrefix(kept, all);
    PartReported(Accounted(a.report.applied, a.report.errors, AddTorrent),
                 Accounted(b.report.applied, b.report.errors, AddTorrent), SpecHashes(kept), SpecHashes(all));
    forall i | 0 <= i < |kept| ensures kept[i] in specs && !ShouldSkipTorrent(kept[i].manifest.hash, exclude) {
      assert kept[i] == all[i];
    }
  }

  lemma AddingStopped(result: RestoreResult, a: Moment, b: Moment, kept: seq<TorrentSpec>, specs: seq<TorrentSpec>,
                      blobs: Blobs, exclude: set<string>)
    requires Adding(result.since, result.added, a, b, kept, blobs) && kept <= Filter(specs, KeepSpec(exclude))
    requires b.report == result.Contents()
    ensures AllReported(true, Accounted(a.report.applied, a.report.errors, AddTorrent), result.Accounts(AddTorrent),
                        multiset(SpecHashes(Filter(specs, KeepSpec(exclude)))))
    ensures OthersKept(a.report, result.Contents())
    ensures a.report.errors <= result.errors && result.torrentsUpdated == a.report.updated
    ensures BlobsMatch(specs, blobs) && NoneExcluded(a.named, exclude) ==> NoneExcluded(b.named, exclude)
    ensures Consistent(a.state) && NormalBlobs(specs, blobs) ==> Consistent(b.state)
    ensures AllAdded(specs, result.added) && TellsSince(result.since, result.added, a.report, a.answers, false) ==>
              result.Truthful(b.answers + [GivenUp], true)
    ensures OnlyMissing(a.report.warnings, result.warnings, specs)
  {
    hide Adding, Accounted, Consistent, TellsSince, OthersKept, AllReported, BlobsMatch, NoneExcluded, NormalBlobs,
         AllAdded, OnlyMissing, Filter, SpecHashes;
    AddingMeans(result.since, result.added, a, b, kept, specs, blobs, exclude);
    GivenUpReported(result, b.answers);
  }

  lemma AddingDone(result: RestoreResult, a: Moment, b: Moment, kept: seq<TorrentSpec>, specs: seq<TorrentSpec>,
                   blobs: Blobs, exclude: set<string>, pending: seq<string>, opts: RestoreOptions)
    requires Adding(result.since, result.added, a, b, kept, blobs) && kept == Filter(specs, KeepSpec(exclude))
    requires b.report == result.Contents() && Pending(a, b.report, kept, pending, opts, exclude)
    ensures AllReported(false, Accounted(a.report.applied, a.report.errors, AddTorrent), result.Accounts(AddTorrent),
                        multiset(SpecHashes(Filter(specs, KeepSpec(exclude)))))
    ensures OthersKept(a.report, result.Contents())
    ensures a.report.errors <= result.errors && result.torrentsUpdated == a.report.updated
    ensures result.errors == a.report.errors ==>
              && b.state == AddAll(a.state, Filter(specs, KeepSpec(exclude)), blobs)
              && BlobsPresent(Filter(specs, KeepSpec(exclude)), blobs)
    ensures BlobsMatch(specs, blobs) && NoneExcluded(a.named, exclude) ==> NoneExcluded(b.named, exclude)
    ensures Consistent(a.state) && NormalBlobs(specs, blobs) ==> Consistent(b.state)
    ensures AllAdded(specs, result.added) && TellsSince(result.since, result.added, a.report, a.answers, false) ==>
              result.Truthful(b.answers, false)
    ensures OnlyMissing(a.report.warnings, result.warnings, specs)
    ensures NoneExcluded(Elements(pending), exclude) && Resumable(a.report.applied, result.applied, pending, opts)
  {
    hide Adding, Accounted, Consistent, TellsSince, OthersKept, AllReported, BlobsMatch, NoneExcluded, NormalBlobs,
         AllAdded, OnlyMissing, Filter, SpecHashes, BlobsPresent, AddAll, Elements, Resumable;
    AddingMeans(result.since, result.added, a, b, kept, specs, blobs, exclude);
  }

  method ApplyAdds(server: Server, result: RestoreResult, specs: seq<TorrentSpec>, exclude: set<string>, blobs: Blobs,
                   opts: RestoreOptions)
    returns (cancelled: bool, pendingResume: seq<string>)
    modifies server`state, server`named, server`answers, result
    ensures AllReported(cancelled, old(result.Accounts(AddTorrent)), result.Accounts(AddTorrent),
                        multiset(SpecHashes(Filter(specs, KeepSpec(exclude)))))
    ensures OthersKept(old(result.Contents()), result.Contents())
    ensures old(result.errors) <= result.errors && result.torrentsUpdated == old(result.torrentsUpdated)
    ensures !cancelled && result.errors == old(result.errors) ==>
              && server.state == AddAll(old(server.state), Filter(specs, KeepSpec(exclude)), blobs)
              && BlobsPresent(Filter(specs, KeepSpec(exclude)), blobs)
    ensures BlobsMatch(specs, blobs) && NoneExcluded(old(server.named), exclude) ==> NoneExcluded(server.named, exclude)
    ensures NoneExcluded(Elements(pendingResume), exclude)
    ensures Consistent(old(server.state)) && NormalBlobs(specs, blobs) ==> Consistent(server.state)
    ensures old(result.Truthful(server.answers, false)) && AllAdded(specs, result.added) ==>
              result.Truthful(server.answers, cancelled)
    ensures OnlyMissing(old(result.warnings), result.warnings, specs)
    ensures !cancelled ==> Resumable(old(result.applied), result.applied, pendingResume, opts)
  {
    hide Adding, Pending, SpecAdded, Filter, ShouldSkipTorrent, OthersKept, Accounted, AllReported, SpecHashes,
         BlobsMatch, NoneExcluded, NormalBlobs, AllAdded, OnlyMissing, Elements, Resumable, Consistent, TellsSince,
         AddAll, BlobsPresent, AddSpecIn, NamesOfAdd, NormalBlob, TargetsOf;
    pendingResume := [];
    ghost var keep := KeepSpec(exclude);
    ghost var kept: seq<TorrentSpec> := [];
    ghost var start := Moment(server.state, server.named, result.Contents(), server.answers);
    NothingAdded(result.since, result.added, start, specs, keep, blobs, opts, exclude);
    var i := 0;
    while i < |specs|
      invariant 0 <= i <= |specs| && kept == Filter(specs[..i], keep)
      invariant Adding(result.since, result.added, start,
                       Moment(server.state, server.named, result.Contents(), server.answers), kept, blobs)
      invariant Pending(start, result.Contents(), kept, pendingResume, opts, exclude)
    {
      var spec := specs[i];
      FilterStep(specs, keep, i);
      ghost var now := Moment(server.state, server.named, result.Contents(), server.answers);
      cancelled := server.GaveUp();
      if cancelled {
        FilterPrefix(specs, keep, i);
        PendingMeans(start, result.Contents(), kept, pendingResume, opts, exclude);
        AddingStopped(result, start, now, kept, specs, blobs, exclude);
        return;
      }
      i := i + 1;
      if ShouldSkipTorrent(spec.manifest.hash, exclude) {
        Skipped(kept, spec, exclude);
        continue;
      }
      Kept(kept, spec, exclude);
      var added := AddOne(server, result, spec, blobs);
      ghost var later := Moment(server.state, server.named, result.Contents(), server.answers);
      AddingStep(result.since, result.added, start, now, later, kept, spec, blobs);
      PendingStep(start, now.report, later.report, kept, spec, pendingResume, opts, exclude, added);
      kept := kept + [spec];
      if added && opts.skipHashCheck && opts.autoResumeVerified {
        pendingResume := pendingResume + [spec.manifest.hash];
      }
    }
    assert specs[..i] == specs;
    AddingDone(result, start, Moment(server.state, server.named, result.Contents(), server.answers), kept, specs, blobs,
               exclude, pendingResume, opts);
    cancelled := false;
  }

  // ----- torrent updates -----

  predicate Supported(change: DiffChange) {
    change.supported && (change.field == CategoryField || change.field == TagsField)
  }

  ghost predicate HasSupported(changes: seq<DiffChange>) {
    exists i :: 0 <= i < |changes| && Supported(changes[i])
  }

  lemma SupportedStep(changes: seq<DiffChange>, i: nat)
    requires i < |changes|
    ensures HasSupported(changes[..i + 1]) <==> HasSupported(changes[..i]) || Supported(changes[i])
  {
    if HasSupported(changes[..i]) {
      var j :| 0 <= j < i && Supported(changes[..i][j]);
      assert Supported(changes[..i + 1][j]);
    }
    assert changes[..i + 1][i] == changes[i];
  }

  /** Setting a label of the torrent is reported as failed. */
  ghost predicate LabelFailed(errors: seq<RestoreError>, hash: string) {
    RestoreError(SetCategory, hash) in errors || RestoreError(SetTags, hash) in errors
  }

  /** The torrents whose planned changes can be applied, in order. */
  ghost function Changing(updates: seq<TorrentUpdate>): seq<string> {
    if updates == [] then []
    else
      var front, u := Changing(updates[..|updates| - 1]), updates[|updates| - 1];
      if HasSupported(u.changes) then front + [u.hash] else front
  }

  lemma ChangingAppend(updates: seq<TorrentUpdate>, u: TorrentUpdate)
    ensures Changing(updates + [u]) == Changing(updates) + if HasSupported(u.changes) then [u.hash] else []
  {
    assert (updates + [u])[..|updates|] == updates;
  }

  lemma {:induction false} ChangingPrefix(updates: seq<TorrentUpdate>, kept: seq<TorrentUpdate>)
    requires kept <= updates
    ensures Changing(kept) <= Changing(updates)
    decreases |updates|
  {
    hide HasSupported;
    if kept != updates {
      assert kept <= updates[..|updates| - 1];
      ChangingPrefix(updates[..|updates| - 1], kept);
    }
  }

  /** Torrents reported as updated, beyond those already reported, were to be changed, each at most once; unless the
      caller gave up, every torrent to be changed is among them or has a failed label. */
  ghost predicate UpdatesReported(cancelled: bool, before: seq<string>, after: seq<string>, errors: seq<RestoreError>,
                                  updates: seq<TorrentUpdate>)
  {
    && before <= after && multiset(after[|before|..]) <= multiset(Changing(updates))
    && (!cancelled ==> forall h :: h in Changing(updates) ==> h in after[|before|..] || LabelFailed(errors, h))
  }

  lemma UpdatesStillReported(cancelled: bool, before: seq<string>, after: seq<string>, errors: seq<RestoreError>,
                             more: seq<RestoreError>, updates: seq<TorrentUpdate>)
    requires UpdatesReported(cancelled, before, after, errors, updates) && errors <= more
    ensures UpdatesReported(cancelled, before, after, more, updates)
    ensures UpdatesReported(true, before, after, more, updates)
  {
    hide Changing;
  }

  /** One more update is dealt with. */
  lemma UpdateReported(before: seq<string>, after: seq<string>, errors: seq<RestoreError>, more: seq<RestoreError>,
                       updates: seq<TorrentUpdate>, u: TorrentUpdate, applied: bool)
    requires UpdatesReported(false, before, after, errors, updates) && errors <= more
    requires applied ==> HasSupported(u.changes)
    requires HasSupported(u.changes) ==> applied || LabelFailed(more, u.hash)
    ensures UpdatesReported(false, before, if applied then after + [u.hash] else after, more, updates + [u])
  {
    ChangingAppend(updates, u);
    hide Changing, HasSupported;
    var longer := if applied then after + [u.hash] else after;
    assert longer[|before|..] == after[|before|..] + if applied then [u.hash] else [];
  }

  /** Giving up after some of the updates. */
  lemma UpdatesCancelled(before: seq<string>, after: seq<string>, errors: seq<RestoreError>,
                         kept: seq<TorrentUpdate>, updates: seq<TorrentUpdate>)
    requires UpdatesReported(false, before, after, errors, kept) && kept <= updates
    ensures UpdatesReported(true, before, after, errors, updates)
  {
    ChangingPrefix(updates, kept);
    hide Changing;
    var all, part := Changing(updates), Changing(kept);
    assert all == part + all[|part|..];
  }

  lemma NoUpdatesReported(before: seq<string>, errors: seq<RestoreError>, updates: seq<TorrentUpdate>)
    ensures UpdatesReported(false, before, before, errors, []) && UpdatesReported(true, before, before, errors, updates)
  {}

  lemma NoneSupported(changes: seq<DiffChange>)
    requires changes == []
    ensures !HasSupported(changes)
  {}

  lemma ManualFiled(since: nat, added: set<string>, r: Report, answers: seq<Answer>, hash: string, field: DiffField)
    ensures TellsSince(since, added, r, answers, false) ==>
              TellsSince(since, added, r.(warnings := r.warnings + [ManualChange(hash, field)]), answers, false)
  {
    hide Tells;
    if TellsSince(since, added, r, answers, false) {
      ManualChangeTold(added, r, answers[since..], hash, field);
    }
  }

  lemma UpdateStarted(since: nat, added: set<string>, r: Report, answers: seq<Answer>, hash: string)
    ensures TellsSince(since, added, r, answers, false) ==> TellsSince(since, added + {hash}, r, answers, false)
  {
    hide Tells;
    if TellsSince(since, added, r, answers, false) {
      WhileUpdating(added, r, answers[since..], hash);
    }
  }

  lemma UpdateFiled(since: nat, added: set<string>, hash: string, before: Report, earlier: seq<Answer>, r: Report,
                    later: seq<Answer>, applied: bool)
    requires earlier <= later && r.updated == before.updated && (applied <==> Labelled(later[|earlier|..], hash))
    ensures TellsSince(since, added, before, earlier, false) && TellsSince(since, added + {hash}, r, later, false) ==>
              TellsSince(since, added, if applied then r.(updated := r.updated + [hash]) else r, later, false)
  {
    hide Tells, Labelled;
    if TellsSince(since, added, before, earlier, false) && TellsSince(since, added + {hash}, r, later, false) {
      assert later[since..] == earlier[since..] + later[|earlier|..];
      UpdateTold(added, hash, before, earlier[since..], r, later[|earlier|..], applied);
    }
  }

  lemma NothingLabelled(hash: string)
    ensures !Labelled([], hash)
  {}

  lemma LabelSeen(answers: seq<Answer>, from: nat, op: Operation, hash: string, ok: bool)
    requires from <= |answers| && IsLabel(op)
    ensures Labelled((answers + [Called(op, [hash], ok, true)])[from..], hash)
       <==> Labelled(answers[from..], hash) || ok
  {
    AnswersGrow(answers[from..], Called(op, [hash], ok, true));
    hide Labelled;
    assert (answers + [Called(op, [hash], ok, true)])[from..] == answers[from..] + [Called(op, [hash], ok, true)];
  }

  method ApplyChanges(server: Server, result: RestoreResult, hash: string, changes: seq<DiffChange>)
    returns (supportedApplied: bool)
    modifies server`state, server`named, server`answers, result`warnings, result`errors
    ensures forall o :: o !in {SetCategory, SetTags} ==> result.Accounts(o) == old(result.Accounts(o))
    ensures old(result.errors) <= result.errors
    ensures result.errors == old(result.errors) ==> server.state == ChangesIn(old(server.state), hash, changes)
    ensures server.named <= old(server.named) + {hash}
    ensures Consistent(old(server.state)) ==> Consistent(server.state)
    ensures supportedApplied ==> HasSupported(changes)
    ensures HasSupported(changes) ==> supportedApplied || LabelFailed(result.errors, hash)
    ensures old(result.Truthful(server.answers, false)) ==>
              TellsSince(result.since, result.added + {hash}, result.Contents(), server.answers, false)
    ensures old(server.answers) <= server.answers
            && (supportedApplied <==> Labelled(server.answers[|old(server.answers)|..], hash))
    ensures OnlyMissing(old(result.warnings), result.warnings, [])
  {
    hide Accounted, SetCategoryIn, SetTagsIn, Consistent, HasSupported, TellsSince, Labelled;
    UpdateStarted(result.since, result.added, result.Contents(), server.answers, hash);
    NothingLabelled(hash);
    ghost var answers0 := |server.answers|;
    assert server.answers[answers0..] == [];
    assert !HasSupported(changes[..0]) by { NoneSupported(changes[..0]); }
    supportedApplied := false;
    var i := 0;
    while i < |changes|
      invariant 0 <= i <= |changes|
      invariant forall o :: o !in {SetCategory, SetTags} ==> result.Accounts(o) == old(result.Accounts(o))
      invariant old(result.errors) <= result.errors
      invariant old(result.Truthful(server.answers, false)) ==>
                  TellsSince(result.since, result.added + {hash}, result.Contents(), server.answers, false)
      invariant answers0 <= |server.answers| && server.answers[..answers0] == old(server.answers)
      invariant supportedApplied <==> Labelled(server.answers[answers0..], hash)
      invariant OnlyMissing(old(result.warnings), result.warnings, [])
      invariant result.errors == old(result.errors) ==> server.state == ChangesIn(old(server.state), hash, changes[..i])
      invariant server.named <= old(server.named) + {hash}
      invariant Consistent(old(server.state)) ==> Consistent(server.state)
      invariant supportedApplied ==> HasSupported(changes[..i])
      invariant HasSupported(changes[..i]) ==> supportedApplied || LabelFailed(result.errors, hash)
    {
      var change := changes[i];
      SupportedStep(changes, i);
      assert changes[..i + 1][..i] == changes[..i];
      i := i + 1;
      ghost var was, answers := result.Contents(), server.answers;
      if !change.supported {
        ManualFiled(result.since, result.added + {hash}, was, answers, hash, change.field);
        result.warnings := result.warnings + [ManualChange(hash, change.field)];
        continue;
      }
      match change.field {
        case CategoryField =>
          TrimResult(AsText(change.desired));
          SetCategoryKept(server.state, hash, Trim(AsText(change.desired)));
          var ok := server.SetCategory(hash, Trim(AsText(change.desired)));
          LabelCallFiled(result.since, result.added + {hash}, was, answers, SetCategory, hash, ok);
          LabelSeen(answers, answers0, SetCategory, hash, ok);
          if ok {
            supportedApplied := true;
          } else {
            result.AppendError(SetCategory, hash);
          }
        case TagsField =>
          SetTagsKept(server.state, hash, JoinComma(AsTags(change.desired)));
          var ok := server.SetTags(hash, JoinComma(AsTags(change.desired)));
          LabelCallFiled(result.since, result.added + {hash}, was, answers, SetTags, hash, ok);
          LabelSeen(answers, answers0, SetTags, hash, ok);
          if ok {
            supportedApplied := true;
          } else {
            result.AppendError(SetTags, hash);
          }
        case _ =>
      }
    }
    assert changes[..i] == changes;
  }

  lemma UpdateAllAppend(s: LiveState, updates: seq<TorrentUpdate>, u: TorrentUpdate)
    ensures UpdateAll(s, updates + [u]) == ChangesIn(UpdateAll(s, updates), u.hash, u.changes)
  {
    assert (updates + [u])[..|updates|] == updates;
  }

  method ApplyUpdates(server: Server, result: RestoreResult, updates: seq<TorrentUpdate>, exclude: set<string>)
    returns (cancelled: bool)
    modifies server`state, server`named, server`answers, result`warnings, result`errors, result`torrentsUpdated
    ensures forall o :: o !in {SetCategory, SetTags} ==> result.Accounts(o) == old(result.Accounts(o))
    ensures old(result.errors) <= result.errors
    ensures !cancelled && result.errors == old(result.errors) ==>
              server.state == UpdateAll(old(server.state), Filter(updates, KeepUpdate(exclude)))
    ensures NoneExcluded(old(server.named), exclude) ==> NoneExcluded(server.named, exclude)
    ensures Consistent(old(server.state)) ==> Consistent(server.state)
    ensures UpdatesReported(cancelled, old(result.torrentsUpdated), result.torrentsUpdated, result.errors,
                            Filter(updates, KeepUpdate(exclude)))
    ensures old(result.Truthful(server.answers, false)) ==> result.Truthful(server.answers, cancelled)
    ensures OnlyMissing(old(result.warnings), result.warnings, [])
  {
    hide Accounted, ChangesIn, UpdateAll, Filter, ShouldSkipTorrent, Consistent, UpdatesReported, HasSupported,
         LabelFailed, TellsSince, Labelled;
    NoUpdatesReported(result.torrentsUpdated, result.errors, []);
    ghost var keep := KeepUpdate(exclude);
    ghost var kept: seq<TorrentUpdate> := [];
    NothingUpdated(server.state, keep);
    var i := 0;
    assert updates[..0] == [];
    while i < |updates|
      invariant 0 <= i <= |updates| && kept == Filter(updates[..i], keep)
      invariant forall o :: o !in {SetCategory, SetTags} ==> result.Accounts(o) == old(result.Accounts(o))
      invariant old(result.errors) <= result.errors
      invariant old(result.Truthful(server.answers, false)) ==> result.Truthful(server.answers, false)
      invariant OnlyMissing(old(result.warnings), result.warnings, [])
      invariant result.errors == old(result.errors) ==> server.state == UpdateAll(old(server.state), kept)
      invariant Consistent(old(server.state)) ==> Consistent(server.state)
      invariant NoneExcluded(old(server.named), exclude) ==> NoneExcluded(server.named, exclude)
      invariant UpdatesReported(false, old(result.torrentsUpdated), result.torrentsUpdated, result.errors, kept)
    {
      var update := updates[i];
      FilterStep(updates, keep, i);
      GivenUpReported(result, server.answers);
      cancelled := server.GaveUp();
      if cancelled {
        FilterPrefix(updates, keep, i);
        UpdatesCancelled(old(result.torrentsUpdated), result.torrentsUpdated, result.errors, kept,
                         Filter(updates, keep));
        return;
      }
      i := i + 1;
      if ShouldSkipTorrent(update.hash, exclude) {
        assert kept + [] == kept;
        continue;
      }
      UpdateAllAppend(old(server.state), kept, update);
      ghost var errors, was, answers := result.errors, result.Contents(), server.answers;
      var supportedApplied := ApplyChanges(server, result, update.hash, update.changes);
      UpdateFiled(result.since, result.added, update.hash, was, answers, result.Contents(), server.answers,
                  supportedApplied);
      UpdateReported(old(result.torrentsUpdated), result.torrentsUpdated, errors, result.errors, kept, update,
                     supportedApplied);
      kept := kept + [update];
      if supportedApplied {
        result.torrentsUpdated := result.torrentsUpdated + [update.hash];
      }
    }
    assert updates[..i] == updates;
    cancelled := false;
  }

  lemma NothingUpdated(s: LiveState, keep: TorrentUpdate -> bool)
    ensures UpdateAll(s, []) == s && Filter([], keep) == []
  {}

  // ----- the whole torrent plan -----

  /** All but the deletions. */
  method AddAndUpdate(server: Server, result: RestoreResult, plan: RestorePlan, exclude: set<string>, blobs: Blobs,
                      opts: RestoreOptions)
    returns (cancelled: bool)
    modifies server, result
    ensures AllReported(cancelled, old(result.Accounts(AddTorrent)), result.Accounts(AddTorrent),
                        multiset(SpecHashes(Filter(plan.torrents.add, KeepSpec(exclude)))))
    ensures forall o :: o !in {AddTorrent, SetCategory, SetTags} ==> result.Accounts(o) == old(result.Accounts(o))
    ensures old(result.errors) <= result.errors
    ensures !cancelled && result.errors == old(result.errors) ==>
              && server.state == UpdateAll(
                   AddAll(old(server.state), Filter(plan.torrents.add, KeepSpec(exclude)), blobs),
                   Filter(plan.torrents.update, KeepUpdate(exclude)))
              && BlobsPresent(Filter(plan.torrents.add, KeepSpec(exclude)), blobs)
    ensures BlobsMatch(plan.torrents.add, blobs) && NoneExcluded(old(server.named), exclude) ==>
              NoneExcluded(server.named, exclude)
    ensures Consistent(old(server.state)) && NormalBlobs(plan.torrents.add, blobs) ==> Consistent(server.state)
    ensures UpdatesReported(cancelled, old(result.torrentsUpdated), result.torrentsUpdated, result.errors,
                            Filter(plan.torrents.update, KeepUpdate(exclude)))
    ensures old(result.Truthful(server.answers, false)) && AllAdded(plan.torrents.add, result.added) ==>
              result.Truthful(server.answers, cancelled)
    ensures OnlyMissing(old(result.warnings), result.warnings, plan.torrents.add)
    ensures !cancelled ==>
              Resumed(old(server.resumed), server.resumed, old(result.applied), result.applied, opts)
  {
    hide Accounted, AddAll, UpdateAll, Filter, SpecHashes, ShouldSkipTorrent, Elements, BlobsMatch, BlobsPresent,
         Consistent, NormalBlobs, UpdatesReported, NoneExcluded, TellsSince, AllAdded, OnlyMissing,
         RestoreResult.Truthful, OthersKept, Resumed, Resumable;
    var pendingResume;
    cancelled, pendingResume := ApplyAdds(server, result, plan.torrents.add, exclude, blobs, opts);
    OthersKeptMeans(old(result.Contents()), result.Contents());
    if cancelled {
      NoUpdatesReported(result.torrentsUpdated, result.errors, Filter(plan.torrents.update, KeepUpdate(exclude)));
      return;
    }
    ghost var warnings := result.warnings;
    cancelled := ApplyUpdates(server, result, plan.torrents.update, exclude);
    OnlyMissingThen(old(result.warnings), warnings, result.warnings, plan.torrents.add);
    if cancelled {
      return;
    }
    ResumablesResumed(server.resumed, old(result.applied), result.applied, pendingResume, opts);
    if |pendingResume| > 0 {
      NoneExcludedUnion(server.named, Elements(pendingResume), exclude);
      server.ResumeWhenComplete(pendingResume);
    }
  }

  method ApplyTorrentPlan(server: Server, result: RestoreResult, plan: RestorePlan, exclude: set<string>, blobs: Blobs,
                          opts: RestoreOptions)
    returns (cancelled: bool)
    modifies server, result
    ensures AllReported(cancelled, old(result.Accounts(AddTorrent)), result.Accounts(AddTorrent),
                        multiset(SpecHashes(Filter(plan.torrents.add, KeepSpec(exclude)))))
    ensures AllReported(cancelled, old(result.Accounts(DeleteTorrent)), result.Accounts(DeleteTorrent),
                        multiset(Filter(plan.torrents.delete, KeepHash(exclude))))
    ensures result.Accounts(CreateCategory) == old(result.Accounts(CreateCategory))
    ensures result.Accounts(UpdateCategory) == old(result.Accounts(UpdateCategory))
    ensures result.Accounts(DeleteCategory) == old(result.Accounts(DeleteCategory))
    ensures result.Accounts(CreateTag) == old(result.Accounts(CreateTag))
    ensures result.Accounts(DeleteTag) == old(result.Accounts(DeleteTag))
    ensures old(result.errors) <= result.errors
    ensures !cancelled && result.errors == old(result.errors) ==>
              && server.state == TorrentsApplied(old(server.state), WithoutExcluded(plan, exclude).torrents, blobs)
              && BlobsPresent(WithoutExcluded(plan, exclude).torrents.add, blobs)
    ensures BlobsMatch(plan.torrents.add, blobs) && NoneExcluded(old(server.named), exclude) ==>
              NoneExcluded(server.named, exclude)
    ensures Consistent(old(server.state)) && NormalBlobs(plan.torrents.add, blobs) ==> Consistent(server.state)
    ensures UpdatesReported(cancelled, old(result.torrentsUpdated), result.torrentsUpdated, result.errors,
                            Filter(plan.torrents.update, KeepUpdate(exclude)))
    ensures old(result.Truthful(server.answers, false)) && AllAdded(plan.torrents.add, result.added) ==>
              result.Truthful(server.answers, cancelled)
    ensures OnlyMissing(old(result.warnings), result.warnings, plan.torrents.add)
    ensures !cancelled ==>
              Resumed(old(server.resumed), server.resumed, old(result.applied), result.applied, opts)
  {
    hide Accounted, BatchIn, AddAll, UpdateAll, Filter, SpecHashes, ShouldSkipTorrent, Elements, BlobsMatch,
         BlobsPresent, Consistent, NormalBlobs, UpdatesReported, NoneExcluded, TellsSince, AllAdded, OnlyMissing,
         RestoreResult.Truthful, Resumed;
    cancelled := AddAndUpdate(server, result, plan, exclude, blobs, opts);
    if cancelled {
      return;
    }
    ghost var errors, applied := result.errors, result.applied;
    cancelled := ApplyDeletes(server, result, plan.torrents.delete, exclude);
    SameAdded(old(server.resumed), server.resumed, old(result.applied), applied, result.applied, opts);
    UpdatesStillReported(false, old(result.torrentsUpdated), result.torrentsUpdated, errors, result.errors,
                         Filter(plan.torrents.update, KeepUpdate(exclude)));
  }

  lemma NoneExcludedUnion(a: set<string>, b: set<string>, exclude: set<string>)
    ensures NoneExcluded(a + b, exclude) <==> NoneExcluded(a, exclude) && NoneExcluded(b, exclude)
  {
    hide ShouldSkipTorrent;
    if NoneExcluded(a + b, exclude) {
      forall h | h in a || h in b ensures !ShouldSkipTorrent(h, exclude) {
        assert h in a + b;
      }
    }
  }

  method ApplyDeletes(server: Server, result: RestoreResult, hashes: seq<string>, exclude: set<string>)
    returns (cancelled: bool)
    modifies server`state, server`named, server`answers, result`applied, result`errors
    ensures AllReported(cancelled, old(result.Accounts(DeleteTorrent)), result.Accounts(DeleteTorrent),
                        multiset(Filter(hashes, KeepHash(exclude))))
    ensures forall o :: o != DeleteTorrent ==> result.Accounts(o) == old(result.Accounts(o))
    ensures old(result.errors) <= result.errors
    ensures !cancelled && result.errors == old(result.errors) ==>
              server.state == BatchIn(DeleteTorrent, old(server.state), Elements(Filter(hashes, KeepHash(exclude))))
    ensures NoneExcluded(old(server.named), exclude) ==> NoneExcluded(server.named, exclude)
    ensures Consistent(old(server.state)) ==> Consistent(server.state)
    ensures old(result.Truthful(server.answers, false)) ==> result.Truthful(server.answers, cancelled)
    ensures result.applied.torrentsAdded == old(result.applied.torrentsAdded)
  {
    hide Accounted, BatchIn, Filter, ShouldSkipTorrent, Elements, Consistent, TellsSince, RestoreResult.Truthful;
    var deleteTargets := FilterItems(hashes, KeepHash(exclude));
    KeptHashes(hashes, exclude);
    NoElements(deleteTargets);
    if |hashes| > 0 {
      GivenUpReported(result, server.answers);
      cancelled := server.GaveUp();
      if cancelled {
        return;
      }
    }
    if |deleteTargets| == 0 {
      BatchNothing(DeleteTorrent, server.state);
      assert deleteTargets == deleteTargets[..0];
      return false;
    }
    cancelled := ApplyBatch(server, result, DeleteTorrent, deleteTargets);
  }

  lemma KeptHashes(hashes: seq<string>, exclude: set<string>)
    ensures NoneExcluded(Elements(Filter(hashes, KeepHash(exclude))), exclude)
  {
    FilterContents(hashes, KeepHash(exclude));
  }

  // ----- the restore -----

  function PlanApplied(s: LiveState, plan: RestorePlan, blobs: Blobs): LiveState {
    TorrentsApplied(TagsApplied(CategoriesApplied(s, plan.categories), plan.tags), plan.torrents, blobs)
  }

  /** Every operation of the plan is reported. */
  ghost predicate Reported(cancelled: bool, plan: RestorePlan, exclude: set<string>, applied: RestoreApplied,
                           errors: seq<RestoreError>)
  {
    forall op :: op !in {SetCategory, SetTags} ==>
      AllReported(cancelled, multiset{}, Accounted(applied, errors, op), Planned(plan, exclude, op))
  }

  /** What the plan adds has normalized names and hashes. */
  ghost predicate NormalPlan(plan: RestorePlan, blobs: Blobs) {
    && NormalSpecs(plan.categories.create) && NormalUpdates(plan.categories.update)
    && NormalNames(Elements(TagNames(plan.tags.create))) && NormalBlobs(plan.torrents.add, blobs)
  }

  /** Categories, then tags. */
  method ApplyLabelPlans(server: Server, result: RestoreResult, plan: RestorePlan, ghost exclude: set<string>)
    returns (cancelled: bool)
    requires result.applied == NOTHING_APPLIED && result.errors == []
    modifies server`state, server`named, server`answers, result`applied, result`errors
    ensures AllReported(cancelled, multiset{}, result.Accounts(CreateCategory), Planned(plan, exclude, CreateCategory))
    ensures AllReported(cancelled, multiset{}, result.Accounts(UpdateCategory), Planned(plan, exclude, UpdateCategory))
    ensures AllReported(cancelled, multiset{}, result.Accounts(DeleteCategory), Planned(plan, exclude, DeleteCategory))
    ensures AllReported(cancelled, multiset{}, result.Accounts(CreateTag), Planned(plan, exclude, CreateTag))
    ensures AllReported(cancelled, multiset{}, result.Accounts(DeleteTag), Planned(plan, exclude, DeleteTag))
    ensures result.Accounts(AddTorrent) == multiset{} && result.Accounts(DeleteTorrent) == multiset{}
    ensures !cancelled && result.errors == [] ==>
              server.state == TagsApplied(CategoriesApplied(old(server.state), plan.categories), plan.tags)
    ensures server.named <= old(server.named)
    ensures Consistent(old(server.state)) && NormalSpecs(plan.categories.create)
            && NormalUpdates(plan.categories.update) && NormalNames(Elements(TagNames(plan.tags.create))) ==>
              Consistent(server.state)
    ensures old(result.Truthful(server.answers, false)) ==> result.Truthful(server.answers, cancelled)
    ensures result.applied.torrentsAdded == []
  {
    hide CategoriesApplied, TagsApplied, Accounted, Consistent, NormalSpecs, NormalUpdates, NormalNames, Elements,
         SpecNames, UpdateNames, TagNames, AllReported, NOTHING_APPLIED, TellsSince, RestoreResult.Truthful;
    ghost var none := multiset{};
    NothingReported(result);
    cancelled := ApplyCategoryPlan(server, result, plan);
    if cancelled {
      PartlyReported(none, none, Planned(plan, exclude, CreateTag));
      PartlyReported(none, none, Planned(plan, exclude, DeleteTag));
      return;
    }
    PartlyReported(none, result.Accounts(CreateCategory), Planned(plan, exclude, CreateCategory));
    PartlyReported(none, result.Accounts(UpdateCategory), Planned(plan, exclude, UpdateCategory));
    PartlyReported(none, result.Accounts(DeleteCategory), Planned(plan, exclude, DeleteCategory));
    cancelled := ApplyTagPlan(server, result, plan);
  }

  method ApplyPlan(server: Server, result: RestoreResult, plan: RestorePlan, exclude: set<string>, blobs: Blobs,
                   opts: RestoreOptions)
    returns (cancelled: bool)
    requires result.applied == NOTHING_APPLIED && result.errors == []
    modifies server, result
    ensures Reported(cancelled, plan, exclude, result.applied, result.errors)
    ensures !cancelled && result.errors == [] ==>
              && server.state
                 == TorrentsApplied(TagsApplied(CategoriesApplied(old(server.state), plan.categories), plan.tags),
                                                 WithoutExcluded(plan, exclude).torrents, blobs)
              && BlobsPresent(WithoutExcluded(plan, exclude).torrents.add, blobs)
    ensures BlobsMatch(plan.torrents.add, blobs) && NoneExcluded(old(server.named), exclude) ==>
              NoneExcluded(server.named, exclude)
    ensures Consistent(old(server.state)) && NormalPlan(plan, blobs) ==> Consistent(server.state)
    ensures UpdatesReported(cancelled, old(result.torrentsUpdated), result.torrentsUpdated, result.errors,
                            Filter(plan.torrents.update, KeepUpdate(exclude)))
    ensures old(result.Truthful(server.answers, false)) && AllAdded(plan.torrents.add, result.added) ==>
              result.Truthful(server.answers, cancelled)
    ensures OnlyMissing(old(result.warnings), result.warnings, plan.torrents.add)
    ensures !cancelled ==>
              Resumed(old(server.resumed), server.resumed, old(result.applied), result.applied, opts)
  {
    hide Filter, CategoriesApplied, TagsApplied, TorrentsApplied, Accounted, ShouldSkipTorrent, BlobsMatch, Consistent,
         UpdatesReported, NormalSpecs, NormalUpdates, NormalNames, NormalBlobs, Elements, BlobsPresent, SpecNames,
         UpdateNames, TagNames, SpecHashes, AllReported, WithoutExcluded, Reported, NOTHING_APPLIED, TellsSince,
         AllAdded, OnlyMissing, RestoreResult.Truthful, Resumed;
    NoneMissingYet(result.warnings, plan.torrents.add);
    NothingReported(result);
    cancelled := ApplyLabelPlans(server, result, plan, exclude);
    if cancelled {
      NoUpdatesReported(result.torrentsUpdated, result.errors, Filter(plan.torrents.update, KeepUpdate(exclude)));
      PartlyReported(multiset{}, multiset{}, Planned(plan, exclude, AddTorrent));
      PartlyReported(multiset{}, multiset{}, Planned(plan, exclude, DeleteTorrent));
      ReportedByOperation(cancelled, plan, exclude, result);
      return;
    }
    LabelsReported(plan, exclude, result);
    ghost var applied := result.applied;
    cancelled := ApplyTorrentPlan(server, result, plan, exclude, blobs, opts);
    if !cancelled {
      SameAddedBefore(old(server.resumed), server.resumed, applied, old(result.applied), result.applied, opts);
    }
    ReportedByOperation(cancelled, plan, exclude, result);
  }

  lemma LabelsReported(plan: RestorePlan, exclude: set<string>, result: RestoreResult)
    requires AllReported(false, multiset{}, result.Accounts(CreateCategory), Planned(plan, exclude, CreateCategory))
    ensures AllReported(true, multiset{}, result.Accounts(CreateCategory), Planned(plan, exclude, CreateCategory))
    requires AllReported(false, multiset{}, result.Accounts(UpdateCategory), Planned(plan, exclude, UpdateCategory))
    ensures AllReported(true, multiset{}, result.Accounts(UpdateCategory), Planned(plan, exclude, UpdateCategory))
    requires AllReported(false, multiset{}, result.Accounts(DeleteCategory), Planned(plan, exclude, DeleteCategory))
    ensures AllReported(true, multiset{}, result.Accounts(DeleteCategory), Planned(plan, exclude, DeleteCategory))
    requires AllReported(false, multiset{}, result.Accounts(CreateTag), Planned(plan, exclude, CreateTag))
    ensures AllReported(true, multiset{}, result.Accounts(CreateTag), Planned(plan, exclude, CreateTag))
    requires AllReported(false, multiset{}, result.Accounts(DeleteTag), Planned(plan, exclude, DeleteTag))
    ensures AllReported(true, multiset{}, result.Accounts(DeleteTag), Planned(plan, exclude, DeleteTag))
  {
    hide Accounted, Planned;
  }

  lemma ReportedByOperation(cancelled: bool, plan: RestorePlan, exclude: set<string>, result: RestoreResult)
    requires AllReported(cancelled, multiset{}, result.Accounts(CreateCategory), Planned(plan, exclude, CreateCategory))
    requires AllReported(cancelled, multiset{}, result.Accounts(UpdateCategory), Planned(plan, exclude, UpdateCategory))
    requires AllReported(cancelled, multiset{}, result.Accounts(DeleteCategory), Planned(plan, exclude, DeleteCategory))
    requires AllReported(cancelled, multiset{}, result.Accounts(CreateTag), Planned(plan, exclude, CreateTag))
    requires AllReported(cancelled, multiset{}, result.Accounts(DeleteTag), Planned(plan, exclude, DeleteTag))
    requires AllReported(cancelled, multiset{}, result.Accounts(AddTorrent), Planned(plan, exclude, AddTorrent))
    requires AllReported(cancelled, multiset{}, result.Accounts(DeleteTorrent), Planned(plan, exclude, DeleteTorrent))
    ensures Reported(cancelled, plan, exclude, result.applied, result.errors)
  {
    hide AllReported, Accounted, Planned;
    forall op | op !in {SetCategory, SetTags}
      ensures AllReported(cancelled, multiset{}, Accounted(result.applied, result.errors, op),
                          Planned(plan, exclude, op))
    {
      assert Accounted(result.applied, result.errors, op) == result.Accounts(op);
      match op
      case CreateCategory => case UpdateCategory => case DeleteCategory =>
      case CreateTag => case DeleteTag => case AddTorrent => case DeleteTorrent =>
    }
  }

  /** How a restore ended: `Unavailable` is the error for missing writers, `Cancelled` the caller giving up. */
  datatype Status = DryRun | Unavailable | Cancelled | Completed

  lemma WithoutExcludedUpdates(plan: RestorePlan, exclude: set<string>)
    ensures WithoutExcluded(plan, exclude).torrents.update == Filter(plan.torrents.update, KeepUpdate(exclude))
  {}

  /** Every call was answered with success, every blob was there and could be read, and nobody gave up. */
  ghost predicate AllWell(answers: seq<Answer>, since: nat, specs: seq<TorrentSpec>) {
    && since <= |answers| && (forall a :: a in answers[since..] ==> a.Called? && a.ok)
    && (forall i :: 0 <= i < |specs| ==> Trim(specs[i].manifest.torrentBlob) != "")
  }

  lemma WellMeansNoError(since: nat, added: set<string>, r: Report, answers: seq<Answer>, cancelled: bool,
                         specs: seq<TorrentSpec>)
    requires TellsSince(since, added, r, answers, cancelled) && AllWell(answers, since, specs)
    requires OnlyMissing([], r.warnings, specs)
    ensures r.errors == [] && !cancelled
  {
    hide Tells;
    forall w | w in r.warnings ensures !w.MissingBlob? {
      assert w.MissingBlob? ==> w == MissingBlob(w.hash);
    }
    NoFailureNoError(added, r, answers[since..], cancelled);
  }

  lemma AddedListed(specs: seq<TorrentSpec>)
    ensures AllAdded(specs, Elements(SpecHashes(specs)))
  {
    forall i | 0 <= i < |specs| ensures specs[i].manifest.hash in Elements(SpecHashes(specs)) {
      assert SpecHashes(specs)[i] == specs[i].manifest.hash;
    }
  }

  /** Plans against the live state and executes the plan. Every planned category, tag and torrent operation on
      a hash not excluded is reported once, as applied or as failed; a torrent to be changed is reported as updated
      or has a failed label; no call names an excluded hash if cached blobs hold the torrents they are listed for; and
      without a reported failure the plan has taken effect. Without writers nothing is done. */
  method ExecuteRestore(server: Server, snapshot: SnapshotState, mode: RestoreMode, opts: RestoreOptions, blobs: Blobs,
                        writers: bool)
    returns (plan: RestorePlan, result: RestoreResult, status: Status)
    modifies server
    ensures fresh(result)
    ensures exists full :: IsRestorePlan(full, snapshot, old(server.state), mode)
                           && plan == WithoutExcluded(full, BuildHashSet(opts.excludeHashes))
    ensures status == DryRun || status == Unavailable ==>
              server.state == old(server.state) && server.named == old(server.named)
    ensures status == if opts.dryRun then DryRun else if !writers then Unavailable
                      else if status == Cancelled then Cancelled else Completed
    ensures status == Cancelled || status == Completed ==>
              && Reported(status == Cancelled, plan, BuildHashSet(opts.excludeHashes), result.applied, result.errors)
              && UpdatesReported(status == Cancelled, [], result.torrentsUpdated, result.errors, plan.torrents.update)
    ensures status == Completed && result.errors == [] ==>
              server.state == PlanApplied(old(server.state), plan, blobs) && BlobsPresent(plan.torrents.add, blobs)
    ensures BlobsMatch(plan.torrents.add, blobs)
            && NoneExcluded(old(server.named), BuildHashSet(opts.excludeHashes)) ==>
              NoneExcluded(server.named, BuildHashSet(opts.excludeHashes))
    ensures Consistent(old(server.state)) && NormalPlan(plan, blobs) ==> Consistent(server.state)
    ensures status == Cancelled || status == Completed ==>
              && result.since == |old(server.answers)| && result.added == Elements(SpecHashes(plan.torrents.add))
              && result.Truthful(server.answers, status == Cancelled)
    ensures (status == Cancelled || status == Completed)
            && AllWell(server.answers, |old(server.answers)|, plan.torrents.add) ==>
              status == Completed && result.errors == []
    ensures status == Completed ==>
              server.resumed == old(server.resumed) + if opts.skipHashCheck && opts.autoResumeVerified
                                                      then result.applied.torrentsAdded else []
  {
    hide Consistent, NormalPlan, IsRestorePlan, Reported, UpdatesReported, WithoutExcluded, Accounted, BlobsMatch,
         BlobsPresent, BuildHashSet, NoneExcluded, TellsSince, AllWell, AllAdded,
         OnlyMissing, Elements, SpecHashes;
    var full := BuildRestorePlan(snapshot, server.state, mode);
    plan := ApplyRestorePlanOptions(full, opts.excludeHashes);
    result := new RestoreResult(|server.answers|, Elements(SpecHashes(plan.torrents.add)));
    NothingToldYet(result.added, server.answers);
    AddedListed(plan.torrents.add);
    if opts.dryRun {
      return plan, result, DryRun;
    }
    if !writers {
      return plan, result, Unavailable;
    }
    var exclude := BuildHashSet(opts.excludeHashes);
    ExcludedOnce(full, exclude);
    var cancelled := ApplyPlan(server, result, plan, exclude, blobs, opts);
    if AllWell(server.answers, result.since, plan.torrents.add) {
      WellMeansNoError(result.since, result.added, result.Contents(), server.answers, cancelled, plan.torrents.add);
    }
    WithoutExcludedUpdates(plan, exclude);
    status := if cancelled then Cancelled else Completed;
  }

  /** Filtering the plan a second time, while executing it, changes nothing. */
  lemma ExcludedOnce(plan: RestorePlan, exclude: set<string>)
    ensures WithoutExcluded(WithoutExcluded(plan, exclude), exclude) == WithoutExcluded(plan, exclude)
  {
    FilterContents(plan.torrents.add, KeepSpec(exclude));
    FilterContents(plan.torrents.update, KeepUpdate(exclude));
    FilterContents(plan.torrents.delete, KeepHash(exclude));
    var once := WithoutExcluded(plan, exclude).torrents;
    FilterKeepsAll(once.add, KeepSpec(exclude));
    FilterKeepsAll(once.update, KeepUpdate(exclude));
    FilterKeepsAll(once.delete, KeepHash(exclude));
  }

  lemma NothingReported(result: RestoreResult)
    requires result.applied == NOTHING_APPLIED && result.errors == []
    ensures result.Accounts(CreateCategory) == result.Accounts(UpdateCategory) == result.Accounts(DeleteCategory)
            == multiset{}
    ensures result.Accounts(CreateTag) == result.Accounts(DeleteTag) == multiset{}
    ensures result.Accounts(AddTorrent) == result.Accounts(DeleteTorrent) == multiset{}
    ensures result.applied.torrentsAdded == []
  {}

  lemma PartlyReported(before: multiset<string>, after: multiset<string>, planned: multiset<string>)
    requires after == before || AllReported(false, before, after, planned)
    ensures AllReported(true, before, after, planned)
  {}
}
