/**
 What a valid catalog is, reference by reference, and what each step of a transaction leaves; a
 transaction whose writes succeed commits exactly what its mutator made.
 */
module CatalogRules {
  import opened Options
  import opened Texts
  import opened CatalogFiles

  // ---------- a valid catalog ----------

  predicate HasProject(c: Catalog, id: Text) { exists p :: p in c.projects && p.id == id }

  predicate HasConversation(c: Catalog, id: Text, projectId: Text) {
    exists k :: k in c.conversations && k.id == id && k.projectId == projectId
  }

  /** At most 10000 of each kind, no identifier twice, and every reference names what is there and fits. */
  predicate Sound(c: Catalog) {
    && |c.projects| <= 10000 && |c.connections| <= 10000 && |c.conversations| <= 10000
    && (forall i, j :: 0 <= i < j < |c.projects| ==> c.projects[i].id != c.projects[j].id)
    && (forall i, j :: 0 <= i < j < |c.connections| ==> c.connections[i] != c.connections[j])
    && (forall i, j :: 0 <= i < j < |c.conversations| ==> c.conversations[i].id != c.conversations[j].id)
    && (forall p :: p in c.projects && p.connectionId.Some? ==> p.connectionId.value in c.connections)
    && (forall p :: p in c.projects && p.lastConversationId.Some? ==>
                      HasConversation(c, p.lastConversationId.value, p.id))
    && (forall k :: k in c.conversations ==> HasProject(c, k.projectId))
    && (c.selectedProject.Some? ==> HasProject(c, c.selectedProject.value))
    && (c.selectedConversation.Some? ==>
          && c.selectedProject.Some?
          && HasConversation(c, c.selectedConversation.value, c.selectedProject.value))
  }

  lemma {:induction false} ProjectListed(c: Catalog, id: Text)
    ensures id in ProjectIds(c) <==> HasProject(c, id)
  {
    var ids := ProjectIds(c);
    if id in ids {
      var i :| 0 <= i < |ids| && ids[i] == id;
      assert c.projects[i] in c.projects;
    }
    if p :| p in c.projects && p.id == id {
      var i :| 0 <= i < |c.projects| && c.projects[i] == p;
      assert ids[i] == id;
    }
  }

  lemma ConversationListed(c: Catalog, id: Text, projectId: Text)
    ensures Conversation(id, projectId) in c.conversations <==> HasConversation(c, id, projectId)
  {
    if k :| k in c.conversations && k.id == id && k.projectId == projectId {
      assert k == Conversation(id, projectId);
    }
  }

  lemma {:induction false} IdsDiffer(c: Catalog)
    ensures Unique(ProjectIds(c)) <==>
              |c.projects| <= 10000
              && forall i, j :: 0 <= i < j < |c.projects| ==> c.projects[i].id != c.projects[j].id
    ensures Unique(ConversationIds(c)) <==>
              |c.conversations| <= 10000
              && forall i, j :: 0 <= i < j < |c.conversations| ==> c.conversations[i].id != c.conversations[j].id
    ensures Unique(c.connections) <==>
              |c.connections| <= 10000
              && forall i, j :: 0 <= i < j < |c.connections| ==> c.connections[i] != c.connections[j]
  {
    var projects, conversations := ProjectIds(c), ConversationIds(c);
    assert forall i :: 0 <= i < |c.projects| ==> projects[i] == c.projects[i].id;
    assert forall i :: 0 <= i < |c.conversations| ==> conversations[i] == c.conversations[i].id;
  }

  lemma {:induction false} ReferencesIff(c: Catalog)
    ensures (forall i :: 0 <= i < |c.projects| ==> ProjectFits(c, c.projects[i])) <==>
              && (forall p :: p in c.projects && p.connectionId.Some? ==> p.connectionId.value in c.connections)
              && (forall p :: p in c.projects && p.lastConversationId.Some? ==>
                                HasConversation(c, p.lastConversationId.value, p.id))
    ensures (forall i :: 0 <= i < |c.conversations| ==> c.conversations[i].projectId in ProjectIds(c)) <==>
              forall k :: k in c.conversations ==> HasProject(c, k.projectId)
  {
    forall id, projectId
      ensures Conversation(id, projectId) in c.conversations <==> HasConversation(c, id, projectId)
    {
      ConversationListed(c, id, projectId);
    }
    forall id ensures id in ProjectIds(c) <==> HasProject(c, id) { ProjectListed(c, id); }
    hide HasProject, HasConversation, ProjectIds;
  }

  /** A catalog is valid exactly when it is sound and of an allowed size and shape. */
  lemma {:induction false} ValidIff(c: Catalog, fits: Catalog -> bool)
    ensures Valid(c, fits) <==> Sound(c) && fits(c)
  {
    IdsDiffer(c);
    ReferencesIff(c);
    if c.selectedProject.Some? { ProjectListed(c, c.selectedProject.value); }
    if c.selectedConversation.Some? && c.selectedProject.Some? {
      ConversationListed(c, c.selectedConversation.value, c.selectedProject.value);
    }
    hide Unique, ProjectFits, HasProject, HasConversation, ProjectIds, ConversationIds;
  }

  // ---------- what steps leave ----------

  /** The changed catalog of a mutator, one revision up, where there is one and it may be stored. */
  function Drafted(fits: Catalog -> bool, s: State, m: Mutator): Option<Catalog> {
    match m(s.memory)
    case None => None
    case Some(made) =>
      var draft := made.(revision := s.memory.revision + 1);
      if Sound(draft) && fits(draft) then Some(draft) else None
  }

  lemma MutatedIs(fits: Catalog -> bool, s: State, m: Mutator)
    requires s.running && s.stage == Some(Mutating(m))
    ensures Next(fits, s, Mutated) ==
              s.(stage := if Drafted(fits, s, m).Some? then Some(BackingUp(m, Drafted(fits, s, m).value)) else None)
  {
    if m(s.memory).Some? { ValidIff(m(s.memory).value.(revision := s.memory.revision + 1), fits); }
    hide Valid, Sound;
  }

  ghost predicate Leaves(fits: Catalog -> bool, s: State, t: State, e: Step) {
    match e
    case Open =>
      t == if s.running || (s.file.Some? && !(Sound(s.file.value) && fits(s.file.value))) then s
           else State(true, if s.file.Some? then s.file.value else Catalog(0, [], [], [], None, None), s.file, s.backup,
                      None, [])
    case Enqueue(m) => t == if s.running then s.(queue := s.queue + [m]) else s
    case Begin =>
      if s.running && s.stage.None? && s.queue != []
      then t.stage == Some(Mutating(s.queue[0])) && s.queue == [s.queue[0]] + t.queue
           && t == s.(stage := t.stage, queue := t.queue)
      else t == s
    case Mutated =>
      (match s.stage
       case Some(Mutating(m)) =>
         if !s.running then t == s
         else t == s.(stage := if Drafted(fits, s, m).Some? then Some(BackingUp(m, Drafted(fits, s, m).value))
                               else None)
       case _ => t == s)
    case BackedUp(writing) =>
      (match s.stage
       case Some(BackingUp(m, draft)) =>
         if !s.running then t == s
         else if s.file.None? then t == s.(stage := Some(Storing(m, draft)))
         else t == s.(backup := if writing == FailedBefore then s.backup else s.file,
                      stage := if writing == Written then Some(Storing(m, draft)) else None)
       case _ => t == s)
    case Stored(writing) =>
      (match s.stage
       case Some(Storing(_, draft)) =>
         if !s.running then t == s
         else t == s.(file := if writing == FailedBefore then s.file else Some(draft),
                      memory := if writing == Written then draft else s.memory, stage := None)
       case _ => t == s)
    case Crash => t == s.(running := false, stage := None, queue := [])
  }

  /** Every step leaves exactly what its parts say. */
  lemma {:induction false} StepLeaves(fits: Catalog -> bool, s: State, e: Step)
    ensures Leaves(fits, s, Next(fits, s, e), e)
  {
    match e
    case Open => if s.file.Some? { ValidIff(s.file.value, fits); } hide Valid, Sound;
    case Mutated =>
      if s.running && s.stage.Some? && s.stage.value.Mutating? { MutatedIs(fits, s, s.stage.value.mutator); }
      hide Valid, Drafted;
    case Begin => if s.queue != [] { assert s.queue == [s.queue[0]] + s.queue[1..]; }
    case _ =>
  }

  // ---------- whole transactions ----------

  /** One transaction from its turn on, with its writes. */
  function Turn(backup: Writing, store: Writing): seq<Step> { [Begin, Mutated, BackedUp(backup), Stored(store)] }

  /**
   The next transaction in the queue: what its mutator made is committed, and the file before it backed
   up, exactly when it may be stored and no write fails; memory and the rest of the queue are otherwise
   as they were.
   */
  lemma {:induction false} TurnCommitsIff(fits: Catalog -> bool, s: State, m: Mutator, rest: seq<Mutator>,
            backup: Writing, store: Writing)
    requires s.running && s.stage.None? && s.queue == [m] + rest
    ensures var t, draft := Run(fits, s, Turn(backup, store)), Drafted(fits, s, m);
            var saved := draft.Some? && (s.file.None? || backup == Written);
            && t.running && t.stage.None? && t.queue == rest
            && t.memory == (if saved && store == Written then draft.value else s.memory)
            && t.file == (if saved && store != FailedBefore then draft else s.file)
            && t.backup == if draft.Some? && s.file.Some? && backup != FailedBefore then s.file else s.backup
  {
    RunTurn(fits, s, backup, store);
    var s1 := Next(fits, s, Begin);
    assert s1 == s.(stage := Some(Mutating(m)), queue := rest) by { assert s.queue[1..] == rest; }
    MutatedIs(fits, s1, m);
    assert Drafted(fits, s1, m) == Drafted(fits, s, m);
    hide Valid, Drafted, Run, Turn;
  }

  lemma {:induction false} RunTurn(fits: Catalog -> bool, s: State, backup: Writing, store: Writing)
    ensures Run(fits, s, Turn(backup, store))
            == Next(fits, Next(fits, Next(fits, Next(fits, s, Begin), Mutated), BackedUp(backup)), Stored(store))
  {
    hide Next;
    var steps := Turn(backup, store);
    assert steps[1..][1..] == steps[2..] && steps[2..][1..] == steps[3..] && steps[3..][1..] == [];
    var s1 := Next(fits, s, steps[0]);
    var s2 := Next(fits, s1, steps[1]);
    var s3 := Next(fits, s2, steps[2]);
    assert Run(fits, s3, steps[3..]) == Run(fits, Next(fits, s3, steps[3]), []);
    assert Run(fits, s2, steps[2..]) == Run(fits, s3, steps[3..]);
    assert Run(fits, s1, steps[1..]) == Run(fits, s2, steps[2..]);
  }
}
