/**
 The desktop catalog: what a valid catalog is, and transactions that run one after another,
 write a backup and then the file, and may end at any point with the process.
 */
module CatalogFiles {
  import opened Options
  import opened Texts

  datatype Project = Project(id: Text, connectionId: Option<Text>, lastConversationId: Option<Text>)

  datatype Conversation = Conversation(id: Text, projectId: Text)

  datatype Catalog = Catalog(
    revision: nat, projects: seq<Project>, connections: seq<Text>, conversations: seq<Conversation>,
    selectedProject: Option<Text>, selectedConversation: Option<Text>)

  const EmptyCatalog := Catalog(0, [], [], [], None, None)

  const MAX_ITEMS := 10000

  // ---------- validation ----------

  predicate Unique(ids: seq<Text>) {
    |ids| <= MAX_ITEMS && forall i, j :: 0 <= i < j < |ids| ==> ids[i] != ids[j]
  }

  /** The growing set of seen identifiers finds exactly the duplicates. */
  method UniqueIds(ids: seq<Text>) returns (ok: bool, seen: set<Text>)
    ensures ok <==> Unique(ids)
    ensures ok ==> seen == (set x | x in ids)
  {
    seen := {};
    if |ids| > MAX_ITEMS { return false, seen; }
    for i := 0 to |ids|
      invariant seen == (set x | x in ids[..i])
      invariant forall j, k :: 0 <= j < k < i ==> ids[j] != ids[k]
    {
      if ids[i] in seen {
        assert ids[i] in ids[..i];
        return false, seen;
      }
      assert ids[..i + 1] == ids[..i] + [ids[i]];
      seen := seen + {ids[i]};
    }
    assert ids[..|ids|] == ids;
    ok := true;
  }

  function ProjectIds(c: Catalog): seq<Text> { seq(|c.projects|, i requires 0 <= i < |c.projects| => c.projects[i].id) }
  function ConversationIds(c: Catalog): seq<Text> {
    seq(|c.conversations|, i requires 0 <= i < |c.conversations| => c.conversations[i].id)
  }

  predicate ProjectFits(c: Catalog, p: Project) {
    && (p.connectionId.Some? ==> p.connectionId.value in c.connections)
    && (p.lastConversationId.Some? ==> Conversation(p.lastConversationId.value, p.id) in c.conversations)
  }

  predicate SelectionFits(c: Catalog) {
    && (c.selectedProject.Some? ==> c.selectedProject.value in ProjectIds(c))
    && (c.selectedConversation.Some? ==>
          c.selectedProject.Some? && Conversation(c.selectedConversation.value,
                  c.selectedProject.value) in c.conversations)
  }

  /** Identifiers are unique, every reference names something that is there, and the size limit holds. */
  predicate Valid(c: Catalog, fits: Catalog -> bool) {
    && Unique(ProjectIds(c)) && Unique(c.connections) && Unique(ConversationIds(c))
    && (forall i :: 0 <= i < |c.projects| ==> ProjectFits(c, c.projects[i]))
    && (forall i :: 0 <= i < |c.conversations| ==> c.conversations[i].projectId in ProjectIds(c))
    && SelectionFits(c) && fits(c)
  }

  /** A selected conversation belongs to the selected project. */
  lemma SelectionConsistent(c: Catalog, fits: Catalog -> bool)
    requires Valid(c, fits) && c.selectedConversation.Some?
    ensures exists k :: k in c.conversations && k.id == c.selectedConversation.value
                        && Some(k.projectId) == c.selectedProject
    ensures forall k :: k in c.conversations && k.id == c.selectedConversation.value ==>
                          Some(k.projectId) == c.selectedProject
  {
    var chosen := Conversation(c.selectedConversation.value, c.selectedProject.value);
    assert chosen in c.conversations;
    var ids := ConversationIds(c);
    forall k | k in c.conversations && k.id == chosen.id ensures k == chosen {
      var i :| 0 <= i < |c.conversations| && c.conversations[i] == k;
      var j :| 0 <= j < |c.conversations| && c.conversations[j] == chosen;
      assert ids[i] == ids[j];
    }
  }

  // ---------- transactions ----------

  /** A mutator returns the changed draft, or fails. */
  type Mutator = Catalog -> Option<Catalog>

  /** How one atomic write ends: a failure before the rename leaves the old content, one after it the new. */
  datatype Writing = Written | FailedAfter | FailedBefore

  datatype Stage = Mutating(mutator: Mutator) | BackingUp(mutator: Mutator, draft: Catalog) | Storing(mutator: Mutator,
          draft: Catalog)

  datatype State = State(
    running: bool, memory: Catalog, file: Option<Catalog>, backup: Option<Catalog>, stage: Option<Stage>,
        queue: seq<Mutator>)

  const Initial := State(false, EmptyCatalog, None, None, None, [])

  datatype Step =
    | Open
    | Enqueue(mutator: Mutator)
    | Begin
    | Mutated
    | BackedUp(writing: Writing)
    | Stored(writing: Writing)
    | Crash

  function Stamped(s: State, draft: Catalog): Catalog { draft.(revision := s.memory.revision + 1) }

  function Next(fits: Catalog -> bool, s: State, e: Step): State {
    match e
    case Open =>
      if s.running then s
      else if s.file.Some? && !Valid(s.file.value, fits) then s
      else s.(running := true, memory := if s.file.Some? then s.file.value
                                         else EmptyCatalog, stage := None, queue := [])
    case Enqueue(mutator) => if s.running then s.(queue := s.queue + [mutator]) else s
    case Begin => if s.running && s.stage.None?
        && s.queue != [] then s.(stage := Some(Mutating(s.queue[0])), queue := s.queue[1..]) else s
    case Mutated =>
      if !s.running || s.stage.None? || !s.stage.value.Mutating? then s
      else
        var draft := s.stage.value.mutator(s.memory);
        if draft.None? || !Valid(Stamped(s, draft.value), fits) then s.(stage := None)
        else s.(stage := Some(BackingUp(s.stage.value.mutator, Stamped(s, draft.value))))
    case BackedUp(writing) =>
      if !s.running || s.stage.None? || !s.stage.value.BackingUp? then s
      else if s.file.None? then s.(stage := Some(Storing(s.stage.value.mutator, s.stage.value.draft)))
      else
        (match writing
         case Written => s.(backup := s.file, stage := Some(Storing(s.stage.value.mutator, s.stage.value.draft)))
         case FailedAfter => s.(backup := s.file, stage := None)
         case FailedBefore => s.(stage := None))
    case Stored(writing) =>
      if !s.running || s.stage.None? || !s.stage.value.Storing? then s
      else
        var draft := s.stage.value.draft;
        (match writing
         case Written => s.(file := Some(draft), memory := draft, stage := None)
         case FailedAfter => s.(file := Some(draft), stage := None)
         case FailedBefore => s.(stage := None))
    case Crash => s.(running := false, stage := None, queue := [])
  }

  // ---------- what every step keeps ----------

  predicate ValidIfAny(c: Option<Catalog>, fits: Catalog -> bool) { c.Some? ==> Valid(c.value, fits) }

  /** The file is what memory holds, or a commit whose write failed only after it had taken effect. */
  predicate Inv(fits: Catalog -> bool, s: State) {
    && ValidIfAny(s.file, fits) && ValidIfAny(s.backup, fits)
    && (s.backup.Some? ==> s.file.Some? && s.backup.value.revision <= s.file.value.revision)
    && (s.running ==>
        if s.file.None? then s.memory == EmptyCatalog
        else s.file.value == s.memory || s.file.value.revision == s.memory.revision + 1)
    && (s.stage.Some? ==> s.running)
    && (s.stage.Some? && !s.stage.value.Mutating? ==>
        && Valid(s.stage.value.draft, fits) && s.stage.value.mutator(s.memory).Some?
        && s.stage.value.draft == Stamped(s, s.stage.value.mutator(s.memory).value))
  }

  lemma {:induction false} NextInv(fits: Catalog -> bool, s: State, e: Step)
    requires Inv(fits, s)
    ensures Inv(fits, Next(fits, s, e))
  {
    hide Valid;
  }

  /**
   Each commit is the head mutator applied to the commit before it, one revision higher, and valid;
   nothing else changes memory.
   */
  lemma {:induction false} CommitFollowsCommit(fits: Catalog -> bool, s: State, e: Step)
    requires Inv(fits, s) && s.running && Next(fits, s, e).memory != s.memory
    ensures e == Stored(Written) && s.stage.Some? && s.stage.value.Storing?
    ensures var t := Next(fits, s, e);
            && s.stage.value.mutator(s.memory).Some?
            && t.memory == s.stage.value.mutator(s.memory).value.(revision := s.memory.revision + 1)
            && Valid(t.memory, fits) && t.file == Some(t.memory)
  {
    hide Valid;
  }

  /** A mutator that fails, or that makes an invalid draft, changes nothing but the stage. */
  lemma {:induction false} FailedMutatorChangesNothing(fits: Catalog -> bool, s: State)
    requires s.running && s.stage.Some? && s.stage.value.Mutating?
    requires s.stage.value.mutator(s.memory).Some? ==> !Valid(Stamped(s, s.stage.value.mutator(s.memory).value), fits)
    ensures Next(fits, s, Mutated) == s.(stage := None)
  {
    hide Valid;
  }

  // ---------- whole runs ----------

  function After(fits: Catalog -> bool, steps: seq<Step>, n: nat): State
    requires n <= |steps|
  {
    if n == 0 then Initial else Next(fits, After(fits, steps, n - 1), steps[n - 1])
  }

  lemma {:induction false} ReachableInv(fits: Catalog -> bool, steps: seq<Step>, n: nat)
    requires n <= |steps|
    ensures Inv(fits, After(fits, steps, n))
  {
    if n > 0 {
      hide Inv, Next;
      ReachableInv(fits, steps, n - 1);
      NextInv(fits, After(fits, steps, n - 1), steps[n - 1]);
    } else {
      hide Valid;
    }
  }

  /**
   At every point the file is absent or valid, its backup is valid and never newer, and a start reads
   exactly the file.
   */
  lemma {:induction false} CrashSafe(fits: Catalog -> bool, steps: seq<Step>, n: nat)
    requires n <= |steps|
    ensures var s := After(fits, steps, n);
            && ValidIfAny(s.file, fits) && ValidIfAny(s.backup, fits)
            && (s.backup.Some? ==> s.file.Some? && s.backup.value.revision <= s.file.value.revision)
            && (var t := Next(fits, Next(fits, s, Crash), Open);
                t.running && t.file == s.file && t.memory == if s.file.Some? then s.file.value else EmptyCatalog)
  {
    ReachableInv(fits, steps, n);
    hide After, Valid;
  }

  /**
   One step leaves the file as it is or replaces it by a valid commit drawn from memory, never by
   anything between.
   */
  lemma {:induction false} FileIsOldOrNew(fits: Catalog -> bool, steps: seq<Step>, n: nat)
    requires n < |steps|
    ensures var s, t := After(fits, steps, n), After(fits, steps, n + 1);
            t.file == s.file || (t.file.Some? && Valid(t.file.value, fits)
                                 && t.file.value.revision == s.memory.revision + 1
                                 && s.stage.Some? && s.stage.value.Storing? && s.stage.value.draft == t.file.value)
  {
    ReachableInv(fits, steps, n);
    var s := After(fits, steps, n);
    assert After(fits, steps, n + 1) == Next(fits, s, steps[n]);
    hide After, Valid;
  }

  predicate Commits(s: State, e: Step) {
    e == Stored(Written) && s.running && s.stage.Some? && s.stage.value.Storing?
  }

  function CommitCount(fits: Catalog -> bool, steps: seq<Step>, i: nat, j: nat): nat
    requires i <= j <= |steps|
    decreases j
  {
    if i == j then 0
    else CommitCount(fits, steps, i, j - 1) + (if Commits(After(fits, steps, j - 1), steps[j - 1]) then 1 else 0)
  }

  lemma {:induction false} StepRevision(fits: Catalog -> bool, s: State, e: Step)
    requires Inv(fits, s) && !e.Open? && !e.Crash?
    ensures Next(fits, s, e).memory.revision == s.memory.revision + (if Commits(s, e) then 1 else 0)
  {
    hide Valid;
  }

  /** While the process runs, the revision counts the commits. */
  lemma {:induction false} RevisionCountsCommits(fits: Catalog -> bool, steps: seq<Step>, i: nat, j: nat)
    requires i <= j <= |steps| && forall k :: i <= k < j ==> !steps[k].Open? && !steps[k].Crash?
    ensures After(fits, steps, j).memory.revision == After(fits, steps, i).memory.revision + CommitCount(fits, steps,
                i, j)
    decreases j
  {
    if i < j {
      hide Inv, Next, Commits;
      RevisionCountsCommits(fits, steps, i, j - 1);
      ReachableInv(fits, steps, j - 1);
      StepRevision(fits, After(fits, steps, j - 1), steps[j - 1]);
    }
  }

  // ---------- the file ----------

  predicate FileGrows(a: Option<Catalog>, b: Option<Catalog>) {
    a.Some? ==> b.Some? && a.value.revision <= b.value.revision
  }

  lemma {:induction false} FileStep(fits: Catalog -> bool, s: State, e: Step)
    requires Inv(fits, s)
    ensures FileGrows(s.file, Next(fits, s, e).file)
  {
    hide Valid;
  }

  /** The revision in the file never falls, over crashes, restarts and failed writes. */
  lemma {:induction false} FileRevisionGrows(fits: Catalog -> bool, steps: seq<Step>, i: nat, j: nat)
    requires i <= j <= |steps|
    ensures FileGrows(After(fits, steps, i).file, After(fits, steps, j).file)
    decreases j
  {
    if i < j {
      hide Inv, Next;
      FileRevisionGrows(fits, steps, i, j - 1);
      ReachableInv(fits, steps, j - 1);
      FileStep(fits, After(fits, steps, j - 1), steps[j - 1]);
    }
  }

  /** The step writes the file, whether or not the write then reports a failure. */
  predicate WritesFile(s: State, e: Step) {
    e.Stored? && !e.writing.FailedBefore? && s.running && s.stage.Some? && s.stage.value.Storing?
  }

  lemma {:induction false} SameFile(fits: Catalog -> bool, steps: seq<Step>, i: nat, j: nat)
    requires i <= j <= |steps| && forall k :: i <= k < j ==> !WritesFile(After(fits, steps, k), steps[k])
    ensures After(fits, steps, j).file == After(fits, steps, i).file
    decreases j
  {
    if i < j {
      SameFile(fits, steps, i, j - 1);
      var s := After(fits, steps, j - 1);
      assert !WritesFile(s, steps[j - 1]);
      hide After, Valid;
    }
  }

  /** A commit reported as failed after its rename is what every restart reads, until the file is written again. */
  lemma {:induction false} FailedCommitSurvives(fits: Catalog -> bool, steps: seq<Step>, i: nat, j: nat)
    requires i < j <= |steps| && steps[i] == Stored(FailedAfter) && WritesFile(After(fits, steps, i), steps[i])
    requires forall k :: i < k < j ==> !WritesFile(After(fits, steps, k), steps[k])
    ensures var draft := After(fits, steps, i).stage.value.draft;
            && After(fits, steps, i + 1).memory == After(fits, steps, i).memory
            && draft.revision == After(fits, steps, i).memory.revision + 1
            && Next(fits, Next(fits, After(fits, steps, j), Crash), Open).memory == draft
  {
    ReachableInv(fits, steps, i);
    SameFile(fits, steps, i + 1, j);
    CrashSafe(fits, steps, j);
    var s := After(fits, steps, i);
    assert After(fits, steps, i + 1) == Next(fits, s, steps[i]);
    hide After, Valid;
  }

  /**
   A step gives the file another catalog of the same revision only when the write before it was
   reported as failed but had taken effect.
   */
  lemma {:induction false} SameRevisionIff(fits: Catalog -> bool, s: State, e: Step)
    requires Inv(fits, s) && s.file.Some? && Next(fits, s, e).file.Some?
    ensures var t := Next(fits, s, e);
            t.file != s.file && t.file.value.revision == s.file.value.revision
            <==> WritesFile(s, e) && s.file != Some(s.memory) && s.stage.value.draft != s.file.value
  {
    hide Valid;
  }

  function Connect(id: Text): Mutator { (c: Catalog) => Some(c.(connections := [id])) }

  /** One transaction from its queueing to its last write. */
  function Round(id: Text, writing: Writing): seq<Step> {
    [Enqueue(Connect(id)), Begin, Mutated, BackedUp(Written), Stored(writing)]
  }

  function Run(fits: Catalog -> bool, s: State, steps: seq<Step>): State
    decreases |steps|
  {
    if steps == [] then s else Run(fits, Next(fits, s, steps[0]), steps[1..])
  }

  lemma {:induction false} RunRound(fits: Catalog -> bool, s: State, id: Text, writing: Writing)
    ensures Run(fits, s, Round(id, writing))
            == Next(fits, Next(fits, Next(fits, Next(fits, Next(fits, s, Enqueue(Connect(id))), Begin), Mutated),
                    BackedUp(Written)), Stored(writing))
  {
    hide Next;
    var steps := Round(id, writing);
    assert steps[1..][1..] == steps[2..] && steps[2..][1..] == steps[3..] && steps[3..][1..] == steps[4..]
           && steps[4..][1..] == [];
    var s1 := Next(fits, s, steps[0]);
    var s2 := Next(fits, s1, steps[1]);
    var s3 := Next(fits, s2, steps[2]);
    var s4 := Next(fits, s3, steps[3]);
    assert Run(fits, s4, steps[4..]) == Run(fits, Next(fits, s4, steps[4]), []);
    assert Run(fits, s3, steps[3..]) == Run(fits, s4, steps[4..]);
    assert Run(fits, s2, steps[2..]) == Run(fits, s3, steps[3..]);
    assert Run(fits, s1, steps[1..]) == Run(fits, s2, steps[2..]);
  }

  lemma {:induction false} RoundWrites(fits: Catalog -> bool, s: State, id: Text, writing: Writing)
    requires s.running && s.stage.None? && s.queue == [] && !writing.FailedBefore?
    requires Valid(Stamped(s, s.memory.(connections := [id])), fits)
    ensures var t := Run(fits, s, Round(id, writing));
            && t.file == Some(Stamped(s, s.memory.(connections := [id]))) && t.running && t.stage.None? && t.queue == []
            && t.memory == if writing.Written? then t.file.value else s.memory
  {
    RunRound(fits, s, id, writing);
    hide Valid, Run, Round;
    var s1 := Next(fits, s, Enqueue(Connect(id)));
    assert s1.queue == [Connect(id)];
    var s2 := Next(fits, s1, Begin);
    assert s2 == s.(stage := Some(Mutating(Connect(id))));
    var s3 := Next(fits, s2, Mutated);
    assert s3 == s.(stage := Some(BackingUp(Connect(id), Stamped(s, s.memory.(connections := [id])))));
  }

  /**
   After a commit that was reported as failed the next one may put a different catalog of the same
   revision in its place.
   */
  lemma SameRevisionMayDiffer()
    ensures exists fits: Catalog -> bool, a: Text, b: Text ::
      var first := Run(fits, Next(fits, Initial, Open), Round(a, FailedAfter));
      var second := Run(fits, first, Round(b, Written));
      && first.file.Some? && second.file.Some? && first.file.value.revision == second.file.value.revision
      && first.file != second.file && second.memory == second.file.value
  {
    var fits, a, b := (c: Catalog) => true, T("a"), T("b");
    assert T("a")[0] != T("b")[0];
    var s := Next(fits, Initial, Open);
    OneConnectionValid(fits, a);
    OneConnectionValid(fits, b);
    hide Valid, Run, Round;
    RoundWrites(fits, s, a, FailedAfter);
    var first := Run(fits, s, Round(a, FailedAfter));
    RoundWrites(fits, first, b, Written);
    var second := Run(fits, first, Round(b, Written));
    assert first.file.value.connections == [a] && second.file.value.connections == [b];
  }

  lemma OneConnectionValid(fits: Catalog -> bool, id: Text)
    requires forall c :: fits(c)
    ensures Valid(Stamped(Next(fits, Initial, Open), EmptyCatalog.(connections := [id])), fits)
  {
  }

  // ---------- the catalog in place ----------

  class DesktopCatalog {
    const fits: Catalog -> bool
    var running: bool
    var state: Catalog
    var file: Option<Catalog>
    var backup: Option<Catalog>
    var stage: Option<Stage>
    var queue: seq<Mutator>

    ghost function Model(): State
      reads this
    {
      State(running, state, file, backup, stage, queue)
    }

    /** What every reachable state satisfies. */
    ghost predicate Consistent()
      reads this
    {
      Inv(fits, Model())
    }

    constructor (fits: Catalog -> bool)
      ensures Model() == Initial && this.fits == fits && Consistent()
    {
      this.fits := fits;
      running, state, file, backup, stage, queue := false, EmptyCatalog, None, None, None, [];
    }

    /** The checks in the order the source makes them. */
    method Validate(c: Catalog) returns (ok: bool)
      ensures ok <==> Valid(c, fits)
    {
      hide ProjectFits, SelectionFits;
      var projects, conversations := ProjectIds(c), ConversationIds(c);
      var okProjects, projectIds := UniqueIds(projects);
      if !okProjects { return false; }
      var okConnections, connectionIds := UniqueIds(c.connections);
      if !okConnections { return false; }
      var okConversations, conversationIds := UniqueIds(conversations);
      if !okConversations { return false; }
      for i := 0 to |c.projects|
        invariant forall j :: 0 <= j < i ==> ProjectFits(c, c.projects[j])
      {
        if !ProjectFits(c, c.projects[i]) { return false; }
      }
      for i := 0 to |c.conversations|
        invariant forall j :: 0 <= j < i ==> c.conversations[j].projectId in projects
      {
        if c.conversations[i].projectId !in projectIds { return false; }
      }
      ok := SelectionFits(c) && fits(c);
    }

    method OpenFile()
      requires Consistent()
      modifies this
      ensures Model() == Next(fits, old(Model()), Open) && Consistent()
      ensures running && !old(running) ==> state == (if file.Some? then file.value else EmptyCatalog)
    {
      NextInv(fits, Model(), Open);
      hide Inv;
      if running { return; }
      if file.Some? {
        var ok := Validate(file.value);
        if !ok { return; }
      }
      state := if file.Some? then file.value else EmptyCatalog;
      running, stage, queue := true, None, [];
    }

    method Transaction(mutator: Mutator)
      requires Consistent()
      modifies `queue
      ensures Model() == Next(fits, old(Model()), Enqueue(mutator)) && Consistent()
    {
      NextInv(fits, Model(), Enqueue(mutator));
      hide Inv;
      if running { queue := queue + [mutator]; }
    }

    method BeginNext()
      requires Consistent()
      modifies `stage, `queue
      ensures Model() == Next(fits, old(Model()), Begin) && Consistent()
    {
      NextInv(fits, Model(), Begin);
      hide Inv;
      if running && stage.None? && queue != [] { stage, queue := Some(Mutating(queue[0])), queue[1..]; }
    }

    method MutatorReturns()
      requires Consistent()
      modifies `stage
      ensures Model() == Next(fits, old(Model()), Mutated) && Consistent()
      ensures file == old(file) && backup == old(backup) && state == old(state)
    {
      NextInv(fits, Model(), Mutated);
      hide Valid, Inv;
      if !running || stage.None? || !stage.value.Mutating? { return; }
      var mutator := stage.value.mutator;
      var draft := mutator(state);
      stage := None;
      if draft.None? { return; }
      var stamped := draft.value.(revision := state.revision + 1);
      var ok := Validate(stamped);
      if ok { stage := Some(BackingUp(mutator, stamped)); }
    }

    method BackupWritten(writing: Writing)
      requires Consistent()
      modifies `backup, `stage
      ensures Model() == Next(fits, old(Model()), BackedUp(writing)) && Consistent()
      ensures backup != old(backup) ==> backup == old(file)
    {
      NextInv(fits, Model(), BackedUp(writing));
      hide Inv;
      if !running || stage.None? || !stage.value.BackingUp? { return; }
      stage := if file.None? || writing.Written? then Some(Storing(stage.value.mutator, stage.value.draft)) else None;
      if file.Some? && !writing.FailedBefore? { backup := file; }
    }

    method FileWritten(writing: Writing)
      requires Consistent()
      modifies `file, `state, `stage
      ensures Model() == Next(fits, old(Model()), Stored(writing)) && Consistent()
      ensures FileGrows(old(file), file)
      ensures state != old(state) ==> Valid(state, fits) && state.revision == old(state).revision + 1
                                      && file == Some(state)
    {
      NextInv(fits, Model(), Stored(writing));
      FileStep(fits, Model(), Stored(writing));
      if Next(fits, Model(), Stored(writing)).memory != Model().memory {
        CommitFollowsCommit(fits, Model(), Stored(writing));
      }
      hide Inv;
      if !running || stage.None? || !stage.value.Storing? { return; }
      var draft := stage.value.draft;
      stage := None;
      if !writing.FailedBefore? { file := Some(draft); }
      if writing.Written? { state := draft; }
    }

    method Crashes()
      requires Consistent()
      modifies `running, `stage, `queue
      ensures Model() == Next(fits, old(Model()), Crash) && Consistent()
      ensures file == old(file) && backup == old(backup)
    {
      NextInv(fits, Model(), Crash);
      hide Inv;
      running, stage, queue := false, None, [];
    }
  }
}
