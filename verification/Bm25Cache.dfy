/** The per-process BM25 index cache and its shared generation counter. */
module Bm25Local {
  import opened Common

  // An index is identified with the parent chunks it was built from; no index is the empty set.
  type Parents = set<Id>

  /** One process's view of one conversation. */
  datatype Local = Local(index: Parents, generation: Option<nat>)

  function Built(local: Local, parents: Parents): Local { local.(index := parents) }

  function Invalidated(local: Local): Local { Local({}, None) }

  /** The rebuild of an ensure: the index and the generation that was read before it, in one step. */
  function Refreshed(local: Local, parents: Parents, remote: Option<nat>): Local {
    Local(parents, Some(if remote.Some? then remote.value else 0))
  }

  predicate Stale(local: Local, remote: Option<nat>) {
    remote.Some? && (local.generation.None? || local.generation.value < remote.value)
  }

  class Retriever {
    var indexes: map<Id, Parents>
    var generations: map<Id, nat>

    ghost predicate Valid()
      reads this
    {
      forall cid :: cid in indexes ==> indexes[cid] != {}
    }

    function View(cid: Id): Local
      reads this
    {
      Local(if cid in indexes then indexes[cid] else {}, if cid in generations then Some(generations[cid]) else None)
    }

    constructor ()
      ensures Valid() && forall cid :: View(cid) == Local({}, None)
    {
      indexes, generations := map[], map[];
    }

    method BuildFromParents(cid: Id, parents: Parents)
      requires Valid()
      modifies this`indexes
      ensures Valid() && View(cid) == Built(old(View(cid)), parents)
      ensures indexes == if parents == {} then old(indexes) - {cid} else old(indexes)[cid := parents]
      ensures forall other :: other != cid ==> View(other) == old(View(other))
    {
      if parents == {} {
        indexes := indexes - {cid};
      } else {
        indexes := indexes[cid := parents];
      }
    }

    method Invalidate(cid: Id)
      requires Valid()
      modifies this
      ensures Valid() && View(cid) == Invalidated(old(View(cid)))
      ensures indexes == old(indexes) - {cid} && generations == old(generations) - {cid}
      ensures forall other :: other != cid ==> View(other) == old(View(other))
    {
      indexes := indexes - {cid};
      generations := generations - {cid};
    }

    /** Whether an ensure that saw `hadIndex` at its start and now reads `remote` goes on to rebuild. */
    method MustRebuild(cid: Id, hadIndex: bool, remote: Option<nat>) returns (rebuild: bool)
      ensures rebuild <==> !hadIndex || Stale(View(cid), remote)
      ensures rebuild <==>
                !hadIndex || (remote.Some? && (cid !in generations || generations[cid] < remote.value))
    {
      var stale;
      if remote.None? {
        stale := false;
      } else {
        stale := cid !in generations || generations[cid] < remote.value;
      }
      rebuild := !hadIndex || stale;
    }

    /** The end of an ensure, after its rows arrived: build and record with no await between them. */
    method FinishRebuild(cid: Id, rows: Parents, remote: Option<nat>)
      requires Valid()
      modifies this
      ensures Valid() && View(cid) == Refreshed(old(View(cid)), rows, remote)
      ensures indexes == if rows == {} then old(indexes) - {cid} else old(indexes)[cid := rows]
      ensures generations == old(generations)[cid := match remote case None => 0 case Some(n) => n]
      ensures forall other :: other != cid ==> View(other) == old(View(other))
    {
      BuildFromParents(cid, rows);
      generations := generations[cid := if remote.Some? then remote.value else 0];
    }
  }
}

module Bm25Protocol {
  import opened Common
  import opened Bm25Local

  type Write = nat

  /** Who wrote a process's index last: an ensure, or the publish of a write, whose bump made the counter
      `announced` or has not landed. */
  datatype Origin = FromEnsure | Published(write: Write, announced: Option<nat>)

  datatype Proc = Proc(local: Local, origin: Origin)

  /** Coroutines of one process between two awaits. */
  datatype Task = Asking(p: Id, had: bool)
                | Deciding(p: Id, had: bool, remote: Option<nat>)
                | Fetching(p: Id, remote: Option<nat>)
                | Fetched(p: Id, remote: Option<nat>, version: nat)
                | PubFetching(p: Id, write: Write)
                | PubFetched(p: Id, write: Write, version: nat)
                | PubBumping(p: Id, write: Write)

  /** `history` holds the committed snapshots of the conversation's ready parent chunks, newest last; `bumps` the
      writes that bumped the counter, so the counter is its length. */
  datatype State = State(history: seq<Parents>, committed: map<Write, nat>, bumps: seq<Write>,
                         procs: map<Id, Proc>, tasks: map<nat, Task>)

  datatype Action =
    | CommitWrite(write: Write, snapshot: Parents)
    | EnsureStart(t: nat, p: Id)
    | EnsureRead(t: nat, readable: bool)
    | EnsureDecide(t: nat)
    | EnsureFetch(t: nat)
    | EnsureFinish(t: nat)
    | PublishBuild(p: Id, write: Write, parents: Parents, lands: bool)
    | PublishRebuildStart(t: nat, p: Id, write: Write)
    | PublishRebuildFetch(t: nat)
    | PublishRebuildBuild(t: nat)
    | PublishInvalidate(t: nat, p: Id, write: Write)
    | PublishBump(t: nat, lands: bool)
    | Restart(p: Id)

  function ProcOf(s: State, p: Id): Proc {
    if p in s.procs then s.procs[p] else Proc(Local({}, None), FromEnsure)
  }

  function Counter(s: State): nat { |s.bumps| }

  /** `commitFirst` is the discipline the cache asks of its writers: commit, then bump. */
  predicate Enabled(s: State, a: Action, commitFirst: bool) {
    match a
    case CommitWrite(w, _) => w !in s.committed
    case EnsureStart(t, _) => t !in s.tasks
    case EnsureRead(t, _) => t in s.tasks && s.tasks[t].Asking?
    case EnsureDecide(t) => t in s.tasks && s.tasks[t].Deciding?
    case EnsureFetch(t) => t in s.tasks && s.tasks[t].Fetching? && s.history != []
    case EnsureFinish(t) => t in s.tasks && s.tasks[t].Fetched? && s.tasks[t].version < |s.history|
    case PublishBuild(_, w, _, _) => commitFirst ==> w in s.committed
    case PublishRebuildStart(t, _, w) => t !in s.tasks && (commitFirst ==> w in s.committed)
    case PublishRebuildFetch(t) => t in s.tasks && s.tasks[t].PubFetching? && s.history != []
    case PublishRebuildBuild(t) => t in s.tasks && s.tasks[t].PubFetched? && s.tasks[t].version < |s.history|
    case PublishInvalidate(t, _, w) => t !in s.tasks && (commitFirst ==> w in s.committed)
    case PublishBump(t, _) => t in s.tasks && s.tasks[t].PubBumping?
    case Restart(_) => true
  }

  /** An ensure that finds the index present and not stale returns at once. */
  predicate ReturnsFresh(s: State, t: nat) {
    t in s.tasks && s.tasks[t].Deciding? && s.tasks[t].had && !Stale(ProcOf(s, s.tasks[t].p).local, s.tasks[t].remote)
  }

  function WithProc(s: State, p: Id, proc: Proc): State { s.(procs := s.procs[p := proc]) }

  function Next(s: State, a: Action): State
    requires Enabled(s, a, false)
  {
    match a
    case CommitWrite(w, snapshot) => s.(history := s.history + [snapshot], committed := s.committed[w := |s.history|])
    case EnsureStart(t, p) => s.(tasks := s.tasks[t := Asking(p, ProcOf(s, p).local.index != {})])
    case EnsureRead(t, readable) =>
      s.(tasks := s.tasks[t := Deciding(s.tasks[t].p, s.tasks[t].had, if readable then Some(Counter(s)) else None)])
    case EnsureDecide(t) =>
      if ReturnsFresh(s, t) then s.(tasks := s.tasks - {t})
      else s.(tasks := s.tasks[t := Fetching(s.tasks[t].p, s.tasks[t].remote)])
    case EnsureFetch(t) => s.(tasks := s.tasks[t := Fetched(s.tasks[t].p, s.tasks[t].remote, |s.history| - 1)])
    case EnsureFinish(t) =>
      var task := s.tasks[t];
      WithProc(s, task.p, Proc(Refreshed(ProcOf(s, task.p).local, s.history[task.version], task.remote), FromEnsure))
        .(tasks := s.tasks - {t})
    case PublishBuild(p, w, parents, lands) =>
      WithProc(s, p, Proc(Built(ProcOf(s, p).local, parents), Published(w, if lands then Some(Counter(s) + 1) else None)))
        .(bumps := if lands then s.bumps + [w] else s.bumps)
    case PublishRebuildStart(t, p, w) => s.(tasks := s.tasks[t := PubFetching(p, w)])
    case PublishRebuildFetch(t) => s.(tasks := s.tasks[t := PubFetched(s.tasks[t].p, s.tasks[t].write, |s.history| - 1)])
    case PublishRebuildBuild(t) =>
      var task := s.tasks[t];
      WithProc(s, task.p, Proc(Built(ProcOf(s, task.p).local, s.history[task.version]), Published(task.write, None)))
        .(tasks := s.tasks[t := PubBumping(task.p, task.write)])
    case PublishInvalidate(t, p, w) =>
      WithProc(s, p, Proc(Invalidated(ProcOf(s, p).local), Published(w, None))).(tasks := s.tasks[t := PubBumping(p, w)])
    case PublishBump(t, lands) =>
      var p, w := s.tasks[t].p, s.tasks[t].write;
      if !lands then s.(tasks := s.tasks - {t})
      else
        var proc := ProcOf(s, p);
        var origin := if proc.origin == Published(w, None) then Published(w, Some(Counter(s) + 1)) else proc.origin;
        WithProc(s, p, proc.(origin := origin)).(bumps := s.bumps + [w], tasks := s.tasks - {t})
    case Restart(p) =>
      WithProc(s, p, Proc(Local({}, None), FromEnsure)).(tasks := map t | t in s.tasks && s.tasks[t].p != p :: s.tasks[t])
  }

  /** No schedule is ruled out but bumps before their commits: a process may restart at any moment, any ensure find the
      counter unreadable, any bump be lost, and any number of ensures and publishes start at any time. */
  lemma AnySchedule(s: State, t: nat, p: Id, w: Write, parents: Parents, yes: bool)
    ensures Enabled(s, Restart(p), true)
    ensures w !in s.committed ==> Enabled(s, CommitWrite(w, parents), true)
    ensures t !in s.tasks ==> Enabled(s, EnsureStart(t, p), true)
    ensures t in s.tasks && s.tasks[t].Asking? ==> Enabled(s, EnsureRead(t, yes), true)
    ensures t in s.tasks && s.tasks[t].PubBumping? ==> Enabled(s, PublishBump(t, yes), true)
    ensures w in s.committed ==> Enabled(s, PublishBuild(p, w, parents, yes), true)
    ensures w in s.committed && t !in s.tasks ==>
              Enabled(s, PublishRebuildStart(t, p, w), true) && Enabled(s, PublishInvalidate(t, p, w), true)
    ensures Enabled(s, PublishBuild(p, w, parents, yes), false)
  {
  }

  predicate Valid(s: State, acts: seq<Action>, commitFirst: bool)
    decreases |acts|
  {
    acts == []
    || (Enabled(s, acts[0], false) && Enabled(s, acts[0], commitFirst) && Valid(Next(s, acts[0]), acts[1..], commitFirst))
  }

  function Run(s: State, acts: seq<Action>): State
    decreases |acts|
  {
    if acts == [] || !Enabled(s, acts[0], false) then s else Run(Next(s, acts[0]), acts[1..])
  }

  /** A conversation nobody has indexed yet. */
  function Start(parents: Parents): State { State([parents], map[], [], map[], map[]) }

  // ── coherence under commit-then-bump ───────────────────────────────────────

  /** Snapshot v was taken with the first g bumps' writes already committed in it. */
  predicate Contains(s: State, v: nat, g: nat) {
    && v < |s.history| && g <= |s.bumps|
    && forall i :: 0 <= i < g ==> s.bumps[i] in s.committed && s.committed[s.bumps[i]] <= v
  }

  /** The index is a database snapshot containing every write bumped before generation g was read. */
  ghost predicate Coherent(s: State, index: Parents, g: nat) {
    exists v: nat :: Contains(s, v, g) && index == s.history[v]
  }

  ghost predicate ProcOk(s: State, proc: Proc) {
    && (proc.local.generation.Some? ==> proc.local.generation.value <= Counter(s))
    && match proc.origin
       case FromEnsure => proc.local.generation.Some? ==> Coherent(s, proc.local.index, proc.local.generation.value)
       case Published(_, announced) =>
         announced.Some? ==> announced.value <= Counter(s)
                             && (proc.local.generation.Some? ==> proc.local.generation.value < announced.value)
  }

  function Seen(remote: Option<nat>): nat { if remote.Some? then remote.value else 0 }

  predicate TaskOk(s: State, task: Task) {
    match task
    case Asking(_, _) => true
    case Deciding(_, _, remote) => Seen(remote) <= Counter(s)
    case Fetching(_, remote) => Seen(remote) <= Counter(s)
    case Fetched(_, remote, v) => Contains(s, v, Seen(remote))
    case PubFetching(_, w) => w in s.committed
    case PubFetched(_, w, v) => w in s.committed && v < |s.history|
    case PubBumping(_, w) => w in s.committed
  }

  ghost predicate Inv(s: State) {
    && s.history != []
    && (forall w :: w in s.committed ==> s.committed[w] < |s.history|)
    && (forall i :: 0 <= i < |s.bumps| ==> s.bumps[i] in s.committed)
    && (forall p :: p in s.procs ==> ProcOk(s, s.procs[p]))
    && (forall t :: t in s.tasks ==> TaskOk(s, s.tasks[t]))
  }

  /** The database and the counter only ever grow. */
  predicate Grows(s: State, t: State) {
    s.history <= t.history && s.bumps <= t.bumps
    && forall w :: w in s.committed ==> w in t.committed && t.committed[w] == s.committed[w]
  }

  lemma GrowthKeeps(s: State, t: State, proc: Proc, task: Task)
    requires Grows(s, t)
    ensures ProcOk(s, proc) ==> ProcOk(t, proc)
    ensures TaskOk(s, task) ==> TaskOk(t, task)
  {
    forall v: nat, g: nat | Contains(s, v, g) ensures Contains(t, v, g) && t.history[v] == s.history[v] {
    }
  }

  lemma NextGrows(s: State, a: Action)
    requires Enabled(s, a, true)
    ensures Grows(s, Next(s, a))
  {
  }

  /** Every step under the discipline keeps the invariant: only the process and the coroutine it moves change. */
  lemma StepKeepsInv(s: State, a: Action)
    requires Inv(s) && Enabled(s, a, true)
    ensures Inv(Next(s, a))
  {
    var t := Next(s, a);
    NextGrows(s, a);
    DatabaseOk(s, a);
    forall p | p in t.procs ensures ProcOk(t, t.procs[p]) { ProcStep(s, a, p); }
    forall id | id in t.tasks ensures TaskOk(t, t.tasks[id]) { TaskStep(s, a, id); }
  }

  lemma DatabaseOk(s: State, a: Action)
    requires Inv(s) && Enabled(s, a, true)
    ensures Next(s, a).history != []
    ensures forall w :: w in Next(s, a).committed ==> Next(s, a).committed[w] < |Next(s, a).history|
    ensures forall i :: 0 <= i < |Next(s, a).bumps| ==> Next(s, a).bumps[i] in Next(s, a).committed
  {
    hide ProcOk;
    if a.PublishBump? { assert TaskOk(s, s.tasks[a.t]); }
  }

  lemma ProcStep(s: State, a: Action, p: Id)
    requires Inv(s) && Enabled(s, a, true) && Grows(s, Next(s, a)) && p in Next(s, a).procs
    ensures ProcOk(Next(s, a), Next(s, a).procs[p])
  {
    var t := Next(s, a);
    if p in s.procs && t.procs[p] == s.procs[p] {
      GrowthKeeps(s, t, s.procs[p], Asking(p, false));
    } else {
      assert p in s.procs ==> ProcOk(s, s.procs[p]);
      if a.EnsureFinish? {
        var task := s.tasks[a.t];
        assert TaskOk(s, task);
        assert Contains(t, task.version, Seen(task.remote));
      }
    }
  }

  lemma TaskStep(s: State, a: Action, id: nat)
    requires Inv(s) && Enabled(s, a, true) && Grows(s, Next(s, a)) && id in Next(s, a).tasks
    ensures TaskOk(Next(s, a), Next(s, a).tasks[id])
  {
    hide ProcOk;
    var t := Next(s, a);
    if id in s.tasks {
      assert TaskOk(s, s.tasks[id]);
      if t.tasks[id] == s.tasks[id] {
        GrowthKeeps(s, t, Proc(Local({}, None), FromEnsure), s.tasks[id]);
      }
    }
  }

  lemma StartIsFine(parents: Parents)
    ensures Inv(Start(parents))
  {
  }

  lemma {:induction false} InvAlways(s: State, acts: seq<Action>)
    requires Inv(s) && Valid(s, acts, true)
    ensures Inv(Run(s, acts))
    decreases |acts|
  {
    hide Inv, Next;
    if acts != [] {
      StepKeepsInv(s, acts[0]);
      InvAlways(Next(s, acts[0]), acts[1..]);
    }
  }

  /** The index was last written by a publish of this very process whose bump had not landed when r was read. */
  predicate OwnPublishUnseen(s: State, p: Id, r: nat) {
    match ProcOf(s, p).origin
    case FromEnsure => false
    case Published(_, announced) => announced.None? || r < announced.value
  }

  lemma EarlierIsCoherent(s: State, index: Parents, g: nat, r: nat)
    requires Coherent(s, index, g) && r <= g
    ensures Coherent(s, index, r)
  {
    var v: nat :| Contains(s, v, g) && index == s.history[v];
    assert Contains(s, v, r);
  }

  /** For every interleaving of processes and writers that commit before they bump: an ensure that rebuilds leaves a
      database snapshot containing every write bumped before its read of the counter. */
  lemma RebuildIsCoherent(parents: Parents, acts: seq<Action>, t: nat)
    requires Valid(Start(parents), acts, true)
    ensures var s := Run(Start(parents), acts);
            Enabled(s, EnsureFinish(t), true) ==>
              var done := Next(s, EnsureFinish(t));
              Coherent(done, ProcOf(done, s.tasks[t].p).local.index, Seen(s.tasks[t].remote))
  {
    StartIsFine(parents);
    InvAlways(Start(parents), acts);
    var s := Run(Start(parents), acts);
    if Enabled(s, EnsureFinish(t), true) {
      assert TaskOk(s, s.tasks[t]);
      assert Contains(Next(s, EnsureFinish(t)), s.tasks[t].version, Seen(s.tasks[t].remote));
    }
  }

  lemma FreshIsCoherent(s: State, p: Id, r: nat)
    requires Inv(s) && !Stale(ProcOf(s, p).local, Some(r)) && !OwnPublishUnseen(s, p, r)
    ensures Coherent(s, ProcOf(s, p).local.index, r)
  {
    hide Coherent;
    var proc := ProcOf(s, p);
    assert p in s.procs;
    assert ProcOk(s, proc);
    EarlierIsCoherent(s, proc.local.index, proc.local.generation.value, r);
  }

  // ── who wrote the index last ───────────────────────────────────────────────

  predicate IsTaskOf(s: State, t: nat, p: Id) { t in s.tasks && s.tasks[t].p == p }

  /** The step writes or drops the index of process p. */
  predicate WritesIndex(s: State, a: Action, p: Id) {
    OwnPublish(s, a, p) || (a.EnsureFinish? && IsTaskOf(s, a.t, p)) || (a.Restart? && a.p == p)
  }

  /** A step of a run: the state before it, the step, and the steps after it. */
  datatype Step = Step(before: State, act: Action, rest: seq<Action>)

  /** The last step of the run that wrote process p's index. */
  function LastWrite(s: State, acts: seq<Action>, p: Id): Option<Step>
    decreases |acts|
  {
    if acts == [] || !Enabled(s, acts[0], false) then None else
      var later := LastWrite(Next(s, acts[0]), acts[1..], p);
      if later.Some? then later
      else if WritesIndex(s, acts[0], p) then Some(Step(s, acts[0], acts[1..]))
      else None
  }

  /** It was a publish. */
  predicate PublishedLast(s: State, acts: seq<Action>, p: Id) {
    var last := LastWrite(s, acts, p);
    last.Some? && OwnPublish(last.value.before, last.value.act, p)
  }

  /** The write a publish is of. */
  function WriteOf(s: State, a: Action): Write
    requires Enabled(s, a, false) && (a.PublishBuild? || a.PublishRebuildBuild? || a.PublishInvalidate?)
  {
    if a.PublishRebuildBuild? then s.tasks[a.t].write else a.write
  }

  /** A bump of the write by process p lands within the run, at counter value r or earlier. */
  predicate BumpSeen(s: State, acts: seq<Action>, p: Id, w: Write, r: nat)
    decreases |acts|
  {
    acts != [] && Enabled(s, acts[0], false)
    && ((acts[0].PublishBump? && acts[0].lands && s.tasks[acts[0].t] == PubBumping(p, w) && Counter(s) + 1 <= r)
        || BumpSeen(Next(s, acts[0]), acts[1..], p, w, r))
  }

  lemma {:induction false} SplitAtLastWrite(s: State, acts: seq<Action>, p: Id)
    requires Inv(s) && Valid(s, acts, true)
    ensures var last := LastWrite(s, acts, p);
            last.Some? ==>
              var Step(m, a, rest) := last.value;
              && Inv(m) && Enabled(m, a, true) && Enabled(m, a, false) && WritesIndex(m, a, p)
              && Valid(Next(m, a), rest, true) && Run(Next(m, a), rest) == Run(s, acts)
              && LastWrite(Next(m, a), rest, p) == None
    decreases |acts|
  {
    hide Inv, Next, WritesIndex;
    if acts != [] {
      StepKeepsInv(s, acts[0]);
      SplitAtLastWrite(Next(s, acts[0]), acts[1..], p);
    }
  }

  lemma ElsewhereStep(s: State, a: Action, p: Id)
    requires Enabled(s, a, false) && !WritesIndex(s, a, p)
    ensures ProcOf(Next(s, a), p).local == ProcOf(s, p).local
    ensures match ProcOf(s, p).origin
            case FromEnsure => ProcOf(Next(s, a), p).origin == FromEnsure
            case Published(w, v) =>
              ProcOf(Next(s, a), p).origin
              == Published(w, if v.None? && a.PublishBump? && a.lands && s.tasks[a.t] == PubBumping(p, w)
                              then Some(Counter(s) + 1) else v)
  {
  }

  lemma BumpCounts(s: State, a: Action)
    requires Enabled(s, a, false)
    ensures a.PublishBump? && a.lands ==> Counter(Next(s, a)) == Counter(s) + 1
  {
  }

  /** What a step that writes the index leaves. */
  lemma WriteLeaves(m: State, a: Action, p: Id)
    requires Enabled(m, a, false) && WritesIndex(m, a, p)
    ensures var proc := ProcOf(Next(m, a), p);
            match a
            case EnsureFinish(_) => proc.origin == FromEnsure
            case PublishBuild(_, w, _, lands) =>
              && proc.origin == Published(w, if lands then Some(Counter(m) + 1) else None)
              && Counter(Next(m, a)) == if lands then Counter(m) + 1 else Counter(m)
            case PublishRebuildBuild(u) => proc.origin == Published(m.tasks[u].write, None)
            case _ => (a.PublishInvalidate? || a.Restart?) && proc.local.generation.None?
  {
  }

  /** Where nothing writes a process's index, only the standing of its last publish changes: its bump lands. */
  lemma {:induction false} Untouched(s: State, acts: seq<Action>, p: Id, r: nat)
    requires Valid(s, acts, true) && LastWrite(s, acts, p) == None
    ensures ProcOf(Run(s, acts), p).local == ProcOf(s, p).local
    ensures match ProcOf(s, p).origin
            case FromEnsure => ProcOf(Run(s, acts), p).origin == FromEnsure
            case Published(w, v) =>
              var origin := ProcOf(Run(s, acts), p).origin;
              && origin.Published? && origin.write == w && (v.Some? ==> origin.announced == v)
              && (BumpSeen(s, acts, p, w, r) && v.None? ==> origin.announced.Some? && origin.announced.value <= r)
    decreases |acts|
  {
    hide Next, WritesIndex;
    if acts != [] {
      var w := match ProcOf(s, p).origin case FromEnsure => 0 case Published(w, _) => w;
      ElsewhereStep(s, acts[0], p);
      Untouched(Next(s, acts[0]), acts[1..], p, r);
      if BumpSeen(Next(s, acts[0]), acts[1..], p, w, r) { SeenIsLater(Next(s, acts[0]), acts[1..], p, w, r); }
      BumpCounts(s, acts[0]);
    }
  }

  lemma {:induction false} NotPublished(s: State, acts: seq<Action>, p: Id)
    requires Inv(s) && Valid(s, acts, true) && ProcOf(s, p).origin == FromEnsure && !PublishedLast(s, acts, p)
    ensures ProcOf(Run(s, acts), p).origin == FromEnsure
  {
    SplitAtLastWrite(s, acts, p);
    hide Inv;
    match LastWrite(s, acts, p)
    case None => Untouched(s, acts, p, 0);
    case Some(Step(m, a, rest)) => Untouched(Next(m, a), rest, p, 0);
  }

  // ── the schedules on which an ensure may return at once ────────────────────

  /** The step publishes an index (or its absence) in process p. */
  predicate OwnPublish(s: State, a: Action, p: Id) {
    (a.PublishBuild? && a.p == p) || (a.PublishRebuildBuild? && IsTaskOf(s, a.t, p)) || (a.PublishInvalidate? && a.p == p)
  }

  /** If the step bumps the counter for a publish of process p, the bump lands. */
  predicate OwnBumpLands(s: State, a: Action, p: Id) {
    (a.PublishBuild? && a.p == p ==> a.lands) && (a.PublishBump? && IsTaskOf(s, a.t, p) ==> a.lands)
  }

  ghost predicate OwnBumpsLand(s: State, acts: seq<Action>, p: Id)
    decreases |acts|
  {
    acts == [] || !Enabled(s, acts[0], false)
    || (OwnBumpLands(s, acts[0], p) && OwnBumpsLand(Next(s, acts[0]), acts[1..], p))
  }

  ghost predicate NoOwnPublish(s: State, acts: seq<Action>, p: Id)
    decreases |acts|
  {
    acts == [] || !Enabled(s, acts[0], false)
    || (!OwnPublish(s, acts[0], p) && NoOwnPublish(Next(s, acts[0]), acts[1..], p))
  }

  /** No publish of process p is between its build and its bump. */
  ghost predicate NoneUnderWay(s: State, p: Id) {
    forall t :: t in s.tasks && s.tasks[t].PubBumping? ==> s.tasks[t].p != p
  }

  /** A publish not announced yet has its bump under way. */
  ghost predicate Announcing(s: State, p: Id) {
    match ProcOf(s, p).origin
    case FromEnsure => true
    case Published(w, announced) => announced.None? ==> exists t :: t in s.tasks && s.tasks[t] == PubBumping(p, w)
  }

  lemma AnnouncingStep(s: State, a: Action, p: Id)
    requires Announcing(s, p) && Enabled(s, a, true) && OwnBumpLands(s, a, p)
    ensures Announcing(Next(s, a), p)
  {
    var after := Next(s, a);
    var origin := ProcOf(s, p).origin;
    if origin.Published? && origin.announced.None? && ProcOf(after, p).origin == origin {
      var t :| t in s.tasks && s.tasks[t] == PubBumping(p, origin.write);
      if a.PublishInvalidate? && a.p == p {
        assert after.tasks[a.t] == PubBumping(p, a.write);
      } else if a.PublishRebuildBuild? && s.tasks[a.t].p == p {
        assert after.tasks[a.t] == PubBumping(p, s.tasks[a.t].write);
      } else {
        assert t in after.tasks && after.tasks[t] == s.tasks[t];
      }
    } else if a.PublishInvalidate? && a.p == p {
      assert after.tasks[a.t] == PubBumping(p, a.write);
    } else if a.PublishRebuildBuild? && s.tasks[a.t].p == p {
      assert after.tasks[a.t] == PubBumping(p, s.tasks[a.t].write);
    }
  }

  lemma {:induction false} AnnouncingAlways(s: State, acts: seq<Action>, p: Id)
    requires Announcing(s, p) && Valid(s, acts, true) && OwnBumpsLand(s, acts, p)
    ensures Announcing(Run(s, acts), p)
    decreases |acts|
  {
    hide Announcing, Next, OwnBumpLands;
    if acts != [] {
      AnnouncingStep(s, acts[0], p);
      AnnouncingAlways(Next(s, acts[0]), acts[1..], p);
    }
  }

  /** What the process serves was published, if at all, with a bump no later than counter value r. */
  predicate AnnouncedBy(s: State, p: Id, r: nat) {
    match ProcOf(s, p).origin
    case FromEnsure => true
    case Published(_, announced) => announced.Some? && announced.value <= r
  }

  lemma AnnouncedStep(s: State, a: Action, p: Id, r: nat)
    requires AnnouncedBy(s, p, r) && Enabled(s, a, true) && !OwnPublish(s, a, p)
    ensures AnnouncedBy(Next(s, a), p, r)
  {
  }

  lemma {:induction false} AnnouncedAlways(s: State, acts: seq<Action>, p: Id, r: nat)
    requires AnnouncedBy(s, p, r) && Valid(s, acts, true) && NoOwnPublish(s, acts, p)
    ensures AnnouncedBy(Run(s, acts), p, r)
    decreases |acts|
  {
    hide AnnouncedBy, Next, OwnPublish;
    if acts != [] {
      AnnouncedStep(s, acts[0], p, r);
      AnnouncedAlways(Next(s, acts[0]), acts[1..], p, r);
    }
  }

  /** For every interleaving of processes and writers that commit before they bump: let `start` end where no publish is
      the last to have written process p's index, after a rebuild or a restart say, and `before` where an ensure of p
      reads the counter. If p's bumps in between land, none is under way, and p publishes nothing between that read and
      the ensure's decision, then an ensure that returns without a rebuild finds a database snapshot containing every
      write bumped before its read. */
  lemma EnsureIsCoherent(parents: Parents, start: seq<Action>, before: seq<Action>, after: seq<Action>, t: nat)
    requires Valid(Start(parents), start, true) && Valid(Run(Start(parents), start), before, true)
    requires Valid(Run(Run(Start(parents), start), before), after, true)
    ensures var from := Run(Start(parents), start);
            var m := Run(from, before);
            var s := Run(m, after);
            ReturnsFresh(s, t) && s.tasks[t].remote.Some? && s.tasks[t].remote.value >= Counter(m) ==>
              var p := s.tasks[t].p;
              && !PublishedLast(Start(parents), start, p)
              && OwnBumpsLand(from, before, p) && NoneUnderWay(m, p) && NoOwnPublish(m, after, p) ==>
                Coherent(s, ProcOf(s, p).local.index, s.tasks[t].remote.value)
  {
    var from := Run(Start(parents), start);
    var m := Run(from, before);
    var s := Run(m, after);
    StartIsFine(parents);
    InvAlways(Start(parents), start);
    InvAlways(from, before);
    InvAlways(m, after);
    if ReturnsFresh(s, t) && s.tasks[t].remote.Some? && s.tasks[t].remote.value >= Counter(m) {
      var p := s.tasks[t].p;
      if !PublishedLast(Start(parents), start, p) && OwnBumpsLand(from, before, p) && NoneUnderWay(m, p)
         && NoOwnPublish(m, after, p) {
        NotPublished(Start(parents), start, p);
        AnnouncingAlways(from, before, p);
        AnnouncedAtRead(m, p);
        AnnouncedAlways(m, after, p, Counter(m));
        FreshIsCoherent(s, p, s.tasks[t].remote.value);
      }
    }
  }

  lemma AnnouncedAtRead(m: State, p: Id)
    requires Inv(m) && Announcing(m, p) && NoneUnderWay(m, p)
    ensures AnnouncedBy(m, p, Counter(m))
  {
    if p in m.procs { assert ProcOk(m, m.procs[p]); }
  }

  // ── what happens on the others ─────────────────────────────────────────────

  /** An ensure that is about to hand out an index which is not what its generation promises. */
  ghost predicate ServesWrongly(s: State, t: nat) {
    ReturnsFresh(s, t) && s.tasks[t].remote.Some?
    && !Coherent(s, ProcOf(s, s.tasks[t].p).local.index, s.tasks[t].remote.value)
  }

  /** For every interleaving of processes and writers that commit before they bump, an ensure that returns without a
      rebuild, having read r, finds what the last step left that wrote its process's index. That was no invalidation and
      no restart. If it was a rebuild, the index is a snapshot containing every write bumped before the read. If it was
      a publish, its bump had not landed when the ensure read, and the index is such a snapshot exactly when what was
      published is. */
  lemma EnsureIsCoherentIff(parents: Parents, acts: seq<Action>, t: nat)
    requires Valid(Start(parents), acts, true)
    ensures var s := Run(Start(parents), acts);
            ReturnsFresh(s, t) && s.tasks[t].remote.Some? ==>
              var p, r := s.tasks[t].p, s.tasks[t].remote.value;
              var last := LastWrite(Start(parents), acts, p);
              && last.Some?
              && var Step(m, a, rest) := last.value;
                 && Enabled(m, a, false) && (a.EnsureFinish? || a.PublishBuild? || a.PublishRebuildBuild?)
                 && ProcOf(s, p).local.index == ProcOf(Next(m, a), p).local.index
                 && (!a.EnsureFinish? ==> !BumpSeen(Next(m, a), rest, p, WriteOf(m, a), r))
                 && (a.PublishBuild? ==> !a.lands || r <= Counter(m))
                 && (ServesWrongly(s, t) <==>
                       !a.EnsureFinish? && !Coherent(s, ProcOf(Next(m, a), p).local.index, r))
  {
    var s := Run(Start(parents), acts);
    StartIsFine(parents);
    InvAlways(Start(parents), acts);
    if ReturnsFresh(s, t) && s.tasks[t].remote.Some? {
      var p, r := s.tasks[t].p, s.tasks[t].remote.value;
      SplitAtLastWrite(Start(parents), acts, p);
      if LastWrite(Start(parents), acts, p).None? {
        Untouched(Start(parents), acts, p, r);
        assert false;
      }
      var Step(m, a, rest) := LastWrite(Start(parents), acts, p).value;
      WriteLeaves(m, a, p);
      hide Next, Run, LastWrite, Coherent, WritesIndex;
      Untouched(Next(m, a), rest, p, r);
      NotStale(s, p, t);
      if !a.EnsureFinish? && !a.Restart? && BumpSeen(Next(m, a), rest, p, WriteOf(m, a), r) {
        SeenIsLater(Next(m, a), rest, p, WriteOf(m, a), r);
      }
    }
  }

  lemma {:induction false} SeenIsLater(s: State, acts: seq<Action>, p: Id, w: Write, r: nat)
    requires BumpSeen(s, acts, p, w, r)
    ensures Counter(s) < r
    decreases |acts|
  {
    if !(acts[0].PublishBump? && acts[0].lands && s.tasks[acts[0].t] == PubBumping(p, w) && Counter(s) + 1 <= r) {
      SeenIsLater(Next(s, acts[0]), acts[1..], p, w, r);
    }
  }

  /** A process whose index is not stale at r was rebuilt then or later, or has published without a bump by then. */
  lemma NotStale(s: State, p: Id, t: nat)
    requires Inv(s) && ReturnsFresh(s, t) && s.tasks[t].remote.Some? && p == s.tasks[t].p
    ensures ProcOf(s, p).local.generation.Some?
    ensures match ProcOf(s, p).origin
            case FromEnsure => Coherent(s, ProcOf(s, p).local.index, s.tasks[t].remote.value)
            case Published(_, v) => v.None? || s.tasks[t].remote.value < v.value
  {
    var r := s.tasks[t].remote.value;
    assert p in s.procs;
    assert ProcOk(s, s.procs[p]);
    if ProcOf(s, p).origin == FromEnsure { FreshIsCoherent(s, p, r); }
  }

  /** Whenever an ensure has read the counter and would return, a publish of its own process before it decides makes it
      hand out what was published: wrongly exactly when that is no snapshot with all the writes it read of. */
  lemma PublishAfterRead(s: State, t: nat, w: Write, x: Parents, lands: bool)
    requires Inv(s) && ReturnsFresh(s, t) && s.tasks[t].remote.Some?
    ensures var after := Next(s, PublishBuild(s.tasks[t].p, w, x, lands));
            && ReturnsFresh(after, t) && ProcOf(after, s.tasks[t].p).local.index == x
            && (ServesWrongly(after, t) <==> !Coherent(s, x, s.tasks[t].remote.value))
  {
    var after, r := Next(s, PublishBuild(s.tasks[t].p, w, x, lands)), s.tasks[t].remote.value;
    assert TaskOk(s, s.tasks[t]);
    assert r <= |s.bumps| && forall i :: 0 <= i < r ==> after.bumps[i] == s.bumps[i];
    if Coherent(s, x, r) { var v: nat :| Contains(s, v, r) && x == s.history[v]; assert Contains(after, v, r); }
    if Coherent(after, x, r) { var v: nat :| Contains(after, v, r) && x == after.history[v]; assert Contains(s, v, r); }
  }

  /** Process p has index x at generation g, the counter stands at g, and no coroutine of p will replace the index. */
  ghost predicate Stuck(s: State, p: Id, x: Parents, g: nat) {
    && p in s.procs && s.procs[p].local == Local(x, Some(g)) && x != {} && Counter(s) == g
    && Settled(s, p, g)
  }

  /** Every coroutine of p is an ensure that found an index and has not read past g, or a publish about to bump. */
  ghost predicate Settled(s: State, p: Id, g: nat) {
    forall t :: t in s.tasks && s.tasks[t].p == p ==>
      || (s.tasks[t].Asking? && s.tasks[t].had) || s.tasks[t].PubBumping?
      || (s.tasks[t].Deciding? && s.tasks[t].had && Seen(s.tasks[t].remote) <= g)
  }

  /** No bump lands, and process p neither publishes nor restarts. Ensures of any process and commits go on. */
  predicate LeavesAlone(a: Action, p: Id) {
    match a
    case PublishBuild(q, _, _, lands) => q != p && !lands
    case PublishRebuildStart(_, q, _) => q != p
    case PublishInvalidate(_, q, _) => q != p
    case PublishBump(_, lands) => !lands
    case Restart(q) => q != p
    case _ => true
  }

  lemma StuckStep(s: State, a: Action, p: Id, x: Parents, g: nat)
    requires Stuck(s, p, x, g) && Enabled(s, a, false) && LeavesAlone(a, p)
    ensures Stuck(Next(s, a), p, x, g)
  {
  }

  /** It keeps serving that index until the counter moves on. */
  lemma {:induction false} StaleForGood(s: State, acts: seq<Action>, p: Id, x: Parents, g: nat)
    requires Stuck(s, p, x, g) && Valid(s, acts, false) && forall i :: 0 <= i < |acts| ==> LeavesAlone(acts[i], p)
    ensures Stuck(Run(s, acts), p, x, g)
    decreases |acts|
  {
    hide Stuck, Next;
    if acts != [] {
      assert LeavesAlone(acts[0], p);
      StuckStep(s, acts[0], p, x, g);
      StaleForGood(Next(s, acts[0]), acts[1..], p, x, g);
    }
  }

  /** Every ensure of it that decides on a readable counter returns x. */
  lemma StuckReturns(s: State, p: Id, x: Parents, g: nat, t: nat)
    requires Stuck(s, p, x, g) && IsTaskOf(s, t, p) && s.tasks[t].Deciding? && s.tasks[t].remote.Some?
    ensures ReturnsFresh(s, t)
    ensures ServesWrongly(s, t) <==> !Coherent(s, x, s.tasks[t].remote.value)
  {
  }

  /** A bump that does not land, as with no Redis URL configured: whenever an up-to-date process whose coroutines have
      settled publishes without landing its bump, every later ensure of it returns what was published, wrongly
      whenever that is no snapshot, until a bump of some other write lands. */
  lemma LostBumpServesPartialIndex(s: State, p: Id, w: Write, x: Parents, acts: seq<Action>, t: nat)
    requires p in s.procs && s.procs[p].local.generation == Some(Counter(s)) && Settled(s, p, Counter(s)) && x != {}
    requires var s1 := Next(s, PublishBuild(p, w, x, false));
             Valid(s1, acts, false) && forall i :: 0 <= i < |acts| ==> LeavesAlone(acts[i], p)
    ensures var u := Run(Next(s, PublishBuild(p, w, x, false)), acts);
            IsTaskOf(u, t, p) && u.tasks[t].Deciding? && u.tasks[t].remote.Some? ==>
              ReturnsFresh(u, t) && ProcOf(u, p).local.index == x && (x !in u.history ==> ServesWrongly(u, t))
  {
    var s1 := Next(s, PublishBuild(p, w, x, false));
    assert Stuck(s1, p, x, Counter(s));
    hide Next;
    StaleForGood(s1, acts, p, x, Counter(s));
    var u := Run(s1, acts);
    if IsTaskOf(u, t, p) && u.tasks[t].Deciding? && u.tasks[t].remote.Some? {
      StuckReturns(u, p, x, Counter(s), t);
    }
  }

  /** A publish that rebuilds and is under way: whenever an up-to-date process, its other coroutines settled, puts back
      the snapshot it had fetched, every later ensure of it returns that old snapshot until some bump lands, the
      publish's own or another, wrongly exactly when no snapshot with the writes the ensure read of equals it. */
  lemma RebuildUnderWayServesItsSnapshot(s: State, u: nat, acts: seq<Action>, t: nat)
    requires Enabled(s, PublishRebuildBuild(u), true)
    requires var p := s.tasks[u].p;
             && p in s.procs && s.procs[p].local.generation == Some(Counter(s)) && s.history[s.tasks[u].version] != {}
             && Settled(s.(tasks := s.tasks - {u}), p, Counter(s))
             && Valid(Next(s, PublishRebuildBuild(u)), acts, false)
             && forall i :: 0 <= i < |acts| ==> LeavesAlone(acts[i], p)
    ensures var p, x := s.tasks[u].p, s.history[s.tasks[u].version];
            var v := Run(Next(s, PublishRebuildBuild(u)), acts);
            IsTaskOf(v, t, p) && v.tasks[t].Deciding? && v.tasks[t].remote.Some? ==>
              && ReturnsFresh(v, t) && ProcOf(v, p).local.index == x
              && (ServesWrongly(v, t) <==> !Coherent(v, x, v.tasks[t].remote.value))
  {
    var p, x, s1 := s.tasks[u].p, s.history[s.tasks[u].version], Next(s, PublishRebuildBuild(u));
    forall t | t in s1.tasks && t != u ensures t in s.(tasks := s.tasks - {u}).tasks { }
    assert Stuck(s1, p, x, Counter(s));
    hide Next;
    StaleForGood(s1, acts, p, x, Counter(s));
    var v := Run(s1, acts);
    if IsTaskOf(v, t, p) && v.tasks[t].Deciding? && v.tasks[t].remote.Some? { StuckReturns(v, p, x, Counter(s), t); }
  }

  /** An invalidation does no harm, whether its bump lands or not: until a rebuild of its process, no ensure of it that
      reads the counter returns at once, whatever is published. */
  lemma {:induction false} InvalidatedRebuilds(s: State, acts: seq<Action>, p: Id, t: nat)
    requires ProcOf(s, p).local.generation.None? && Valid(s, acts, false) && NoRebuild(s, acts, p)
    ensures ProcOf(Run(s, acts), p).local.generation.None?
    ensures IsTaskOf(Run(s, acts), t, p) && ReturnsFresh(Run(s, acts), t) ==> Run(s, acts).tasks[t].remote.None?
    decreases |acts|
  {
    if acts != [] { InvalidatedRebuilds(Next(s, acts[0]), acts[1..], p, t); }
  }

  /** No ensure of process p finishes a rebuild. */
  predicate NoRebuild(s: State, acts: seq<Action>, p: Id)
    decreases |acts|
  {
    acts == [] || !Enabled(s, acts[0], false)
    || (!(acts[0].EnsureFinish? && IsTaskOf(s, acts[0].t, p)) && NoRebuild(Next(s, acts[0]), acts[1..], p))
  }

  /** Bumping before the commit, as the ingestion pipeline does: whenever a settled process has rebuilt after write
      w was bumped and before it is committed, every later ensure of it that has seen that bump returns the index without w,
      wrongly unless some later snapshot happens to be that very index. */
  lemma BumpFirstServesStale(s: State, p: Id, w: Write, snapshot: Parents, acts: seq<Action>, t: nat)
    requires p in s.procs && s.procs[p].local.generation == Some(Counter(s)) && Settled(s, p, Counter(s))
    requires s.procs[p].local.index != {} && w in s.bumps && w !in s.committed
    requires var s1 := Next(s, CommitWrite(w, snapshot));
             Valid(s1, acts, false) && forall i :: 0 <= i < |acts| ==> LeavesAlone(acts[i], p)
    ensures var u, x := Run(Next(s, CommitWrite(w, snapshot)), acts), s.procs[p].local.index;
            IsTaskOf(u, t, p) && u.tasks[t].Deciding? && u.tasks[t].remote == Some(Counter(s)) ==>
              && ReturnsFresh(u, t) && ProcOf(u, p).local.index == x
              && ((forall v :: |s.history| <= v < |u.history| ==> u.history[v] != x) ==> ServesWrongly(u, t))
  {
    var x, g := s.procs[p].local.index, Counter(s);
    var s1 := Next(s, CommitWrite(w, snapshot));
    assert Stuck(s1, p, x, g);
    StaleForGood(s1, acts, p, x, g);
    StepsGrow(s1, acts, p);
    var u := Run(s1, acts);
    if IsTaskOf(u, t, p) && u.tasks[t].Deciding? && u.tasks[t].remote == Some(g) {
      StuckReturns(u, p, x, g, t);
      if forall v :: |s.history| <= v < |u.history| ==> u.history[v] != x {
        var i :| 0 <= i < |s.bumps| && s.bumps[i] == w;
        assert u.bumps[i] == w && u.committed[w] == |s.history|;
      }
    }
  }

  /** Without a landing bump the counter stands, and the database only grows. */
  lemma {:induction false} StepsGrow(s: State, acts: seq<Action>, p: Id)
    requires Valid(s, acts, false) && forall i :: 0 <= i < |acts| ==> LeavesAlone(acts[i], p)
    ensures Run(s, acts).bumps == s.bumps && s.history <= Run(s, acts).history
    ensures forall w :: w in s.committed ==> w in Run(s, acts).committed && Run(s, acts).committed[w] == s.committed[w]
    decreases |acts|
  {
    if acts != [] {
      assert LeavesAlone(acts[0], p);
      StepsGrow(Next(s, acts[0]), acts[1..], p);
    }
  }

  // ── these schedules are reached ────────────────────────────────────────────

  /** A run spelled out state by state. */
  lemma {:induction false} Unrolled(s: State, acts: seq<Action>, states: seq<State>, commitFirst: bool)
    requires |states| == |acts| + 1 && states[0] == s
    requires forall i :: 0 <= i < |acts| ==>
               Enabled(states[i], acts[i], false) && Enabled(states[i], acts[i], commitFirst)
                                             && states[i + 1] == Next(states[i], acts[i])
    ensures Valid(s, acts, commitFirst) && Run(s, acts) == states[|acts|]
    decreases |acts|
  {
    hide Enabled, Next;
    if acts != [] {
      Unrolled(states[1], acts[1..], states[1..], commitFirst);
    }
  }

  /** The first ensure of process 0. */
  const FIRST_ENSURE: seq<Action> := [EnsureStart(0, 0), EnsureRead(0, true), EnsureDecide(0), EnsureFetch(0), EnsureFinish(0)]

  lemma FirstEnsureAsks(s: State) returns (states: seq<State>)
    requires 0 !in s.tasks && 0 !in s.procs
    ensures |states| == 4 && states[0] == s
    ensures states[3] == s.(tasks := s.tasks[0 := Fetching(0, Some(Counter(s)))])
    ensures forall i :: 0 <= i < 3 ==>
              Enabled(states[i], FIRST_ENSURE[i], true) && Enabled(states[i], FIRST_ENSURE[i], false)
                                       && states[i + 1] == Next(states[i], FIRST_ENSURE[i])
  {
    var s1 := Next(s, EnsureStart(0, 0));
    var s2 := Next(s1, EnsureRead(0, true));
    states := [s, s1, s2, Next(s2, EnsureDecide(0))];
    assert states[3].tasks == s.tasks[0 := Fetching(0, Some(Counter(s)))];
  }

  lemma FirstEnsureBuilds(s: State, before: State) returns (states: seq<State>)
    requires 0 !in before.tasks && 0 !in before.procs && before.history != []
    requires s == before.(tasks := before.tasks[0 := Fetching(0, Some(Counter(before)))])
    ensures |states| == 3 && states[0] == s
    ensures var built := Local(before.history[|before.history| - 1], Some(Counter(before)));
            states[2] == before.(procs := before.procs[0 := Proc(built, FromEnsure)])
    ensures forall i :: 0 <= i < 2 ==>
              Enabled(states[i], FIRST_ENSURE[3 + i], true) && Enabled(states[i], FIRST_ENSURE[3 + i], false)
                                       && states[i + 1] == Next(states[i], FIRST_ENSURE[3 + i])
  {
    var s1 := Next(s, EnsureFetch(0));
    states := [s, s1, Next(s1, EnsureFinish(0))];
    assert states[2].tasks == before.tasks;
  }

  lemma FirstEnsure(s: State, commitFirst: bool) returns (t: State)
    requires 0 !in s.tasks && 0 !in s.procs && s.history != []
    ensures Valid(s, FIRST_ENSURE, commitFirst) && t == Run(s, FIRST_ENSURE)
    ensures t == s.(procs := s.procs[0 := Proc(Local(s.history[|s.history| - 1], Some(Counter(s))), FromEnsure)])
  {
    var asks := FirstEnsureAsks(s);
    var builds := FirstEnsureBuilds(asks[3], s);
    hide Enabled, Next;
    var states := asks + builds[1..];
    forall i | 0 <= i < 5
      ensures Enabled(states[i], FIRST_ENSURE[i], false) && Enabled(states[i], FIRST_ENSURE[i], true)
              && states[i + 1] == Next(states[i], FIRST_ENSURE[i])
    {
      if i >= 3 {
        assert states[i] == builds[i - 3] && states[i + 1] == builds[i - 2];
        assert FIRST_ENSURE[i] == FIRST_ENSURE[3 + (i - 3)];
      }
    }
    Unrolled(s, FIRST_ENSURE, states, commitFirst);
    t := builds[2];
  }

  lemma Joined(s: State, a: seq<Action>, b: seq<Action>, commitFirst: bool)
    requires Valid(s, a, commitFirst) && Valid(Run(s, a), b, commitFirst)
    ensures Valid(s, a + b, commitFirst) && Run(s, a + b) == Run(Run(s, a), b)
    decreases |a|
  {
    hide Enabled, Next;
    if a == [] {
      assert a + b == b;
    } else {
      assert (a + b)[1..] == a[1..] + b;
      Joined(Next(s, a[0]), a[1..], b, commitFirst);
    }
  }

  /** The process has indexed {1}; a second document makes the snapshot {1, 2}. */
  function Indexed(): State {
    State([{1}], map[], [], map[0 := Proc(Local({1}, Some(0)), FromEnsure)], map[])
  }

  lemma IndexedIsReached(commitFirst: bool)
    ensures Valid(Start({1}), FIRST_ENSURE, commitFirst) && Run(Start({1}), FIRST_ENSURE) == Indexed()
  {
    var t := FirstEnsure(Start({1}), commitFirst);
  }

  /** A second document is committed and an ensure of process 0 has read the counter. */
  const SECOND_ENSURE: seq<Action> := [CommitWrite(5, {1, 2}), EnsureStart(1, 0), EnsureRead(1, true)]

  lemma SecondEnsureReads() returns (s: State)
    ensures Valid(Start({1}), FIRST_ENSURE + SECOND_ENSURE, true) && s == Run(Start({1}), FIRST_ENSURE + SECOND_ENSURE)
    ensures s == State([{1}, {1, 2}], map[5 := 1], [], map[0 := Proc(Local({1}, Some(0)), FromEnsure)],
                       map[1 := Deciding(0, true, Some(0))])
  {
    IndexedIsReached(true);
    var s0 := Indexed();
    var s1 := Next(s0, SECOND_ENSURE[0]);
    var s2 := Next(s1, SECOND_ENSURE[1]);
    s := Next(s2, SECOND_ENSURE[2]);
    assert 1 in {1};
    Unrolled(s0, SECOND_ENSURE, [s0, s1, s2, s], true);
    Joined(Start({1}), FIRST_ENSURE, SECOND_ENSURE, true);
  }

  /** The partial publish of the second document then makes that ensure hand it out alone, its bump landing or not. */
  lemma PartialIndexIsServed(lands: bool)
    ensures Valid(Start({1}), FIRST_ENSURE + SECOND_ENSURE + [PublishBuild(0, 5, {2}, lands)], true)
    ensures ServesWrongly(Run(Start({1}), FIRST_ENSURE + SECOND_ENSURE + [PublishBuild(0, 5, {2}, lands)]), 1)
  {
    var s := SecondEnsureReads();
    var publish := PublishBuild(0, 5, {2}, lands);
    StartIsFine({1});
    InvAlways(Start({1}), FIRST_ENSURE + SECOND_ENSURE);
    PublishAfterRead(s, 1, 5, {2}, lands);
    assert 1 in {1} && 1 !in {2} && 2 in {2} && 1 in {1, 2};
    Unrolled(s, [publish], [s, Next(s, publish)], true);
    Joined(Start({1}), FIRST_ENSURE + SECOND_ENSURE, [publish], true);
  }

  // A publish that rebuilds and is under way: it has fetched, another write commits and bumps, an ensure rebuilds.

  const FETCHED_EARLY: seq<Action> := [CommitWrite(5, {1, 2}), PublishRebuildStart(9, 0, 5), PublishRebuildFetch(9),
                                       CommitWrite(6, {1, 2, 3}), PublishBuild(1, 6, {3}, true)]

  function FetchedEarly(): State {
    State([{1}, {1, 2}, {1, 2, 3}], map[5 := 1, 6 := 2], [6], map[1 := Proc(Local({3}, None), Published(6, Some(1)))],
          map[9 := PubFetched(0, 5, 1)])
  }

  lemma FetchedEarlyIsReached()
    ensures Valid(Start({1}), FETCHED_EARLY, true) && Run(Start({1}), FETCHED_EARLY) == FetchedEarly()
  {
    var s := Start({1});
    var s1 := State([{1}, {1, 2}], map[5 := 1], [], map[], map[]);
    assert s1 == Next(s, FETCHED_EARLY[0]);
    var s2 := s1.(tasks := map[9 := PubFetching(0, 5)]);
    assert s2 == Next(s1, FETCHED_EARLY[1]);
    var s3 := s1.(tasks := map[9 := PubFetched(0, 5, 1)]);
    assert s3 == Next(s2, FETCHED_EARLY[2]);
    var s4 := s3.(history := [{1}, {1, 2}, {1, 2, 3}], committed := map[5 := 1, 6 := 2]);
    assert s4 == Next(s3, FETCHED_EARLY[3]);
    assert FetchedEarly() == Next(s4, FETCHED_EARLY[4]);
    Unrolled(s, FETCHED_EARLY, [s, s1, s2, s3, s4, FetchedEarly()], true);
  }

  const ASKS_AGAIN: seq<Action> := [EnsureStart(1, 0), EnsureRead(1, true)]

  lemma AskedAgain(s: State)
    requires 1 !in s.tasks && 0 in s.procs && s.procs[0].local.index != {}
    ensures Valid(s, ASKS_AGAIN, true) && Valid(s, ASKS_AGAIN, false)
    ensures Run(s, ASKS_AGAIN) == s.(tasks := s.tasks[1 := Deciding(0, true, Some(Counter(s)))])
  {
    var one := Next(s, ASKS_AGAIN[0]);
    var two := Next(one, ASKS_AGAIN[1]);
    assert two.tasks == s.tasks[1 := Deciding(0, true, Some(Counter(s)))];
    hide Next;
    Unrolled(s, ASKS_AGAIN, [s, one, two], true);
    Unrolled(s, ASKS_AGAIN, [s, one, two], false);
  }

  function Rebuilt(): State {
    FetchedEarly().(procs := FetchedEarly().procs[0 := Proc(Local({1, 2, 3}, Some(1)), FromEnsure)])
  }

  function PutBack(): State {
    State(Rebuilt().history, Rebuilt().committed, [6], Rebuilt().procs[0 := Proc(Local({1, 2}, Some(1)), Published(5, None))],
          map[9 := PubBumping(0, 5)])
  }

  lemma PutsBack()
    ensures Enabled(Rebuilt(), PublishRebuildBuild(9), true) && Next(Rebuilt(), PublishRebuildBuild(9)) == PutBack()
    ensures Valid(Rebuilt(), [PublishRebuildBuild(9)], true) && Run(Rebuilt(), [PublishRebuildBuild(9)]) == PutBack()
  {
    assert Next(Rebuilt(), PublishRebuildBuild(9)) == PutBack();
    Unrolled(Rebuilt(), [PublishRebuildBuild(9)], [Rebuilt(), PutBack()], true);
  }

  lemma LacksWriteSix(v: State)
    requires v.history == Rebuilt().history && v.committed == Rebuilt().committed && v.bumps == [6]
    ensures !Coherent(v, {1, 2}, 1)
  {
    assert 3 in {1, 2, 3} && 3 !in {1, 2};
    forall k: nat | Contains(v, k, 1) ensures v.history[k] != {1, 2} { assert v.bumps[0] == 6; }
  }

  lemma PutBackIsServed()
    ensures Valid(PutBack(), ASKS_AGAIN, true) && ServesWrongly(Run(PutBack(), ASKS_AGAIN), 1)
  {
    assert 1 in {1, 2} && Settled(Rebuilt().(tasks := Rebuilt().tasks - {9}), 0, 1);
    AskedAgain(PutBack());
    PutsBack();
    var v := Run(PutBack(), ASKS_AGAIN);
    hide Run, Valid, Coherent, Next;
    RebuildUnderWayServesItsSnapshot(Rebuilt(), 9, ASKS_AGAIN, 1);
    LacksWriteSix(v);
  }

  /** The publish then puts its old snapshot back, and the next ensure hands it out although it has read of write 6. All
      writes are committed before they bump, and no bump is lost. */
  lemma OldSnapshotIsServed()
    ensures var acts := FETCHED_EARLY + FIRST_ENSURE + [PublishRebuildBuild(9)] + ASKS_AGAIN;
            Valid(Start({1}), acts, true) && ServesWrongly(Run(Start({1}), acts), 1)
  {
    hide Valid, Run, Next, Enabled, ServesWrongly;
    FetchedEarlyIsReached();
    var s6 := FirstEnsure(FetchedEarly(), true);
    assert s6 == Rebuilt();
    PutsBack();
    PutBackIsServed();
    Joined(Start({1}), FETCHED_EARLY, FIRST_ENSURE, true);
    Joined(Start({1}), FETCHED_EARLY + FIRST_ENSURE, [PublishRebuildBuild(9)], true);
    Joined(Start({1}), FETCHED_EARLY + FIRST_ENSURE + [PublishRebuildBuild(9)], ASKS_AGAIN, true);
  }

  // Bumping before the commit, as the ingestion pipeline does.

  /** Process 1 bumps for write 5 and process 0 rebuilds before write 5 commits. */
  function BumpedTooEarly(): State {
    State([{1}, {1, 2}], map[5 := 1], [5],
          map[1 := Proc(Local({2}, None), Published(5, Some(1))), 0 := Proc(Local({1}, Some(1)), FromEnsure)], map[])
  }

  const BUMP_FIRST: seq<Action> := [PublishBuild(1, 5, {2}, true)] + FIRST_ENSURE + [CommitWrite(5, {1, 2})]

  lemma BumpedFirst() returns (t: State)
    ensures var publish := PublishBuild(1, 5, {2}, true);
            Valid(Start({1}), [publish], false) && Run(Start({1}), [publish]) == t
    ensures t == State([{1}], map[], [5], map[1 := Proc(Local({2}, None), Published(5, Some(1)))], map[])
  {
    var s, publish := Start({1}), PublishBuild(1, 5, {2}, true);
    t := Next(s, publish);
    assert t == State([{1}], map[], [5], map[1 := Proc(Local({2}, None), Published(5, Some(1)))], map[]);
    Unrolled(s, [publish], [s, t], false);
  }

  lemma CommittedLast(s: State)
    requires s == State([{1}], map[], [5], BumpedTooEarly().procs, map[])
    ensures Valid(s, [CommitWrite(5, {1, 2})], false) && Run(s, [CommitWrite(5, {1, 2})]) == BumpedTooEarly()
  {
    var t := Next(s, CommitWrite(5, {1, 2}));
    assert t == BumpedTooEarly();
    Unrolled(s, [CommitWrite(5, {1, 2})], [s, t], false);
  }

  lemma BumpedTooEarlyIsReached()
    ensures Valid(Start({1}), BUMP_FIRST, false) && Run(Start({1}), BUMP_FIRST) == BumpedTooEarly()
  {
    hide Valid, Run, Next, Enabled;
    var publish, commit := PublishBuild(1, 5, {2}, true), CommitWrite(5, {1, 2});
    var s1 := BumpedFirst();
    var s2 := FirstEnsure(s1, false);
    assert s2.procs == BumpedTooEarly().procs;
    CommittedLast(s2);
    Joined(Start({1}), [publish], FIRST_ENSURE, false);
    Joined(Start({1}), [publish] + FIRST_ENSURE, [commit], false);
  }

  /** There the process is stuck without write 5. */
  lemma BumpedTooEarlyIsStuck()
    ensures Stuck(BumpedTooEarly(), 0, {1}, 1) && !Coherent(BumpedTooEarly(), {1}, 1)
  {
    var s := BumpedTooEarly();
    assert 1 in {1} && 2 in {1, 2} && 2 !in {1};
    forall v: nat | Contains(s, v, 1) ensures s.history[v] != {1} { assert s.bumps[0] == 5; }
  }
}
