/** The OCI store: per image reference one entry owning at most one VM of a manager that
    other clients use too. Operations hold their entry's lock while they wait for the
    manager, and everything else may happen in between. */
module OciStore {
  import opened Optional
  import opened VmIds

  type Ref = string

  /** Who created a VM. */
  datatype Owner = Oci(reference: Ref) | Outside

  datatype VmStatus = Discovered | Running | Failed

  datatype Vm = Vm(owner: Owner, status: VmStatus)

  /** `held` are the locked entries, each with the VM its operation has created but not yet
      recorded. Ids below `nextId` have been given out. */
  datatype World = World(
    entries: map<Ref, Option<VmId>>, vms: map<VmId, Vm>, nextId: nat, held: map<Ref, Option<VmId>>)

  const BOOT: World := World(map[], map[], 0, map[])

  /** What can happen at once: to the manager from outside, or in an operation on a reference.
      Calls of the fetcher and the manager come with how they ended. */
  datatype Action =
    | OutsideCreate
    | OutsideDelete(id: VmId)
    | OutsideChange(id: VmId, status: VmStatus)
    | Lock(r: Ref)
    | Unlock(r: Ref)
    | Fetch(r: Ref)
    | FetchFailed(r: Ref)
    | Create(r: Ref, id: VmId)
    | CreateFailed(r: Ref)
    | Record(r: Ref)
    | Start(r: Ref, id: VmId)
    | StartFailed(r: Ref, id: VmId, status: VmStatus)
    | StartMissing(r: Ref, id: VmId)
    | Delete(r: Ref, id: VmId)
    | DeleteFailed(r: Ref, id: VmId, status: VmStatus)
    | DeleteMissing(r: Ref, id: VmId)
    | Forget(r: Ref)
    | RemoveEntry(r: Ref)
  {
    predicate Concerns(reference: Ref) {
      !OutsideCreate? && !OutsideDelete? && !OutsideChange? && r == reference
    }

    /** A start of the VM that did not bring it up. */
    predicate StartsNot(reference: Ref, vm: VmId) {
      (StartFailed? || StartMissing?) && r == reference && id == vm
    }

    /** A deletion of the VM that did not delete it. */
    predicate DeletesNot(reference: Ref, vm: VmId) {
      (DeleteFailed? || DeleteMissing?) && r == reference && id == vm
    }
  }

  predicate Owns(w: World, r: Ref) {
    r in w.entries && w.entries[r].Some?
  }

  /** The entry is locked and has no VM, nor is one being created for it. */
  predicate Vacant(w: World, r: Ref) {
    r in w.held && w.held[r].None? && r in w.entries && w.entries[r].None?
  }

  /** The entry is locked and names the VM. */
  predicate Names(w: World, r: Ref, id: VmId) {
    r in w.held && w.held[r].None? && Owns(w, r) && w.entries[r].value == id
  }

  predicate Enabled(w: World, a: Action) {
    match a
    case OutsideCreate => w.nextId <= LAST_ID
    case OutsideDelete(id) => id in w.vms
    case OutsideChange(id, _) => id in w.vms
    case Lock(r) => r !in w.held
    case Unlock(r) => r in w.held && w.held[r].None?
    case Fetch(r) => r in w.held && r !in w.entries
    case FetchFailed(r) => r in w.held && r !in w.entries
    case Create(r, id) => Vacant(w, r) && w.nextId <= LAST_ID && id == w.nextId
    case CreateFailed(r) => Vacant(w, r)
    case Record(r) => r in w.held && w.held[r].Some?
    case Start(r, id) => Names(w, r, id) && id in w.vms
    case StartFailed(r, id, status) =>
      Names(w, r, id) && id in w.vms && (status == w.vms[id].status || status == Failed)
    case StartMissing(r, id) => Names(w, r, id) && id !in w.vms
    case Delete(r, id) => Names(w, r, id) && id in w.vms
    case DeleteFailed(r, id, status) =>
      Names(w, r, id) && (id in w.vms ==> status == w.vms[id].status || status != Running)
    case DeleteMissing(r, id) => Names(w, r, id) && id !in w.vms
    case Forget(r) => r in w.held && Owns(w, r) && w.entries[r].value !in w.vms
    case RemoveEntry(r) => Vacant(w, r)
  }

  function WithStatus(w: World, id: VmId, status: VmStatus): World {
    if id in w.vms then w.(vms := w.vms[id := w.vms[id].(status := status)]) else w
  }

  function Apply(w: World, a: Action): World
    requires Enabled(w, a)
  {
    match a
    case OutsideCreate => w.(vms := w.vms[w.nextId := Vm(Outside, Discovered)], nextId := w.nextId + 1)
    case OutsideDelete(id) => w.(vms := w.vms - {id})
    case OutsideChange(id, status) => WithStatus(w, id, status)
    case Lock(r) => w.(held := w.held[r := None])
    case Unlock(r) => w.(held := w.held - {r})
    case Fetch(r) => w.(entries := w.entries[r := None])
    case FetchFailed(_) => w
    case Create(r, id) =>
      w.(vms := w.vms[id := Vm(Oci(r), Discovered)], nextId := w.nextId + 1, held := w.held[r := Some(id)])
    case CreateFailed(_) => w
    case Record(r) => w.(entries := w.entries[r := w.held[r]], held := w.held[r := None])
    case Start(_, id) => WithStatus(w, id, Running)
    case StartFailed(_, id, status) => WithStatus(w, id, status)
    case StartMissing(_, _) => w
    case Delete(_, id) => w.(vms := w.vms - {id})
    case DeleteFailed(_, id, status) => WithStatus(w, id, status)
    case DeleteMissing(_, _) => w
    case Forget(r) => w.(entries := w.entries[r := None])
    case RemoveEntry(r) => w.(entries := w.entries - {r})
  }

  /** The world after a history; an action that is not enabled does nothing. */
  function Replay(history: seq<Action>): World {
    if history == [] then BOOT
    else
      var w, a := Replay(history[..|history| - 1]), history[|history| - 1];
      if Enabled(w, a) then Apply(w, a) else w
  }

  /** Everything in the history was enabled when it happened. */
  ghost predicate Possible(history: seq<Action>) {
    history == [] ||
    (Possible(history[..|history| - 1]) && Enabled(Replay(history[..|history| - 1]), history[|history| - 1]))
  }

  /** What the history says of one reference. */
  ghost function Mine(history: seq<Action>, r: Ref): seq<Action> {
    if history == [] then []
    else
      var last := history[|history| - 1];
      Mine(history[..|history| - 1], r) + if last.Concerns(r) then [last] else []
  }

  // What every history keeps.

  ghost predicate Known(w: World, r: Ref, id: VmId) {
    id < w.nextId && (id in w.vms ==> w.vms[id].owner == Oci(r))
  }

  ghost predicate Inv(w: World) {
    && (forall id :: id in w.vms ==> id < w.nextId)
    && (forall r :: Owns(w, r) ==> Known(w, r, w.entries[r].value))
    && (forall r :: r in w.held && w.held[r].Some? ==>
          r in w.entries && w.entries[r].None? && Known(w, r, w.held[r].value))
    && (forall id :: id in w.vms && w.vms[id].owner.Oci? ==> Recorded(w, w.vms[id].owner.reference, id))
  }

  /** The entry names the VM, or the operation holding it is about to. */
  ghost predicate Recorded(w: World, r: Ref, id: VmId) {
    r in w.entries && (w.entries[r] == Some(id) || (r in w.held && w.held[r] == Some(id)))
  }

  lemma {:induction false} ActionKeepsInv(w: World, a: Action)
    requires Inv(w) && Enabled(w, a)
    ensures Inv(Apply(w, a))
  {
    var u := Apply(w, a);
    forall id | id in u.vms && u.vms[id].owner.Oci?
      ensures Recorded(u, u.vms[id].owner.reference, id)
    {
      assert id in w.vms ==> Recorded(w, w.vms[id].owner.reference, id);
    }
  }

  lemma {:induction false} HistoryKeepsInv(history: seq<Action>)
    ensures Inv(Replay(history))
  {
    if history != [] {
      var before, a := history[..|history| - 1], history[|history| - 1];
      HistoryKeepsInv(before);
      if Enabled(Replay(before), a) {
        ActionKeepsInv(Replay(before), a);
      }
    }
  }

  /** Whatever happened, with no operation under way on a reference: a VM the store created
      for it that is still registered is recorded in its entry and in no other, and it is
      the only one. */
  lemma {:induction false} RecordedOnce(history: seq<Action>, r: Ref, id: VmId)
    requires var w := Replay(history); id in w.vms && w.vms[id].owner == Oci(r) && r !in w.held
    ensures var w := Replay(history);
            && r in w.entries && w.entries[r] == Some(id)
            && (forall s :: s in w.entries && w.entries[s] == Some(id) ==> s == r)
            && forall other :: other in w.vms && w.vms[other].owner == Oci(r) ==> other == id
  {
    HistoryKeepsInv(history);
    hide Replay;
  }

  /** Also in the middle of an operation, a reference owns at most one VM. */
  lemma {:induction false} OwnsAtMostOne(history: seq<Action>, r: Ref, i: VmId, j: VmId)
    requires var w := Replay(history); i in w.vms && j in w.vms && w.vms[i].owner == w.vms[j].owner == Oci(r)
    ensures i == j
  {
    HistoryKeepsInv(history);
    hide Replay;
    assert Recorded(Replay(history), r, i) && Recorded(Replay(history), r, j);
  }

  /** A stored id never names a VM that is not the reference's own. */
  lemma {:induction false} StoredIdIsOwn(history: seq<Action>, r: Ref)
    requires Owns(Replay(history), r)
    ensures var w := Replay(history);
            w.entries[r].value in w.vms ==> w.vms[w.entries[r].value].owner == Oci(r)
  {
    HistoryKeepsInv(history);
    hide Replay;
    assert Known(Replay(history), r, Replay(history).entries[r].value);
  }

  /** A reference without an entry has no VM left. */
  lemma {:induction false} NoEntryNoVm(history: seq<Action>, r: Ref, id: VmId)
    requires var w := Replay(history); r !in w.entries && id in w.vms
    ensures Replay(history).vms[id].owner != Oci(r)
  {
    HistoryKeepsInv(history);
    hide Replay;
    var w := Replay(history);
    assert w.vms[id].owner.Oci? ==> Recorded(w, w.vms[id].owner.reference, id);
  }

  lemma {:induction false} PossibleAt(history: seq<Action>, i: nat)
    requires Possible(history) && i < |history|
    ensures var w := Replay(history[..i]);
            Enabled(w, history[i]) && Replay(history[..i + 1]) == Apply(w, history[i])
  {
    var front := history[..|history| - 1];
    if i < |front| {
      PossibleAt(front, i);
      assert front[..i] == history[..i] && front[..i + 1] == history[..i + 1];
    } else {
      assert history[..i + 1] == history;
    }
  }

  /** A start in the history that succeeded is of the reference's own registered VM, which was
      running right after it; a deletion that succeeded left it unregistered for ever. */
  lemma {:induction false} StartIsReal(history: seq<Action>, i: nat, r: Ref, id: VmId)
    requires Possible(history) && i < |history| && history[i] == Start(r, id)
    ensures var w := Replay(history[..i + 1]); id in w.vms && w.vms[id] == Vm(Oci(r), Running)
  {
    PossibleAt(history, i);
    HistoryKeepsInv(history[..i]);
    hide Replay;
    assert Known(Replay(history[..i]), r, id);
  }

  lemma {:induction false} IdsStayGone(history: seq<Action>, i: nat, id: VmId)
    requires i <= |history| && id < Replay(history[..i]).nextId && id !in Replay(history[..i]).vms
    ensures id < Replay(history).nextId && id !in Replay(history).vms
    decreases |history|
  {
    if i == |history| {
      assert history[..i] == history;
    } else {
      var front := history[..|history| - 1];
      assert front[..i] == history[..i];
      IdsStayGone(front, i, id);
    }
  }

  lemma {:induction false} DeletionIsFinal(history: seq<Action>, i: nat, r: Ref, id: VmId)
    requires Possible(history) && i < |history| && history[i] == Delete(r, id)
    ensures id !in Replay(history).vms
  {
    PossibleAt(history, i);
    HistoryKeepsInv(history[..i]);
    IdsStayGone(history, i + 1, id);
  }

  // What an operation can rely on while it holds its entry.

  ghost predicate Rely(r: Ref, w: World, u: World) {
    && Inv(u) && w.nextId <= u.nextId
    && (r in u.entries <==> r in w.entries) && (r in w.entries ==> u.entries[r] == w.entries[r])
    && (r in u.held <==> r in w.held) && (r in w.held ==> u.held[r] == w.held[r])
    && (forall id :: id in u.vms && id < w.nextId ==> id in w.vms)
  }

  lemma {:induction false} OthersKeep(r: Ref, w: World, a: Action)
    requires Inv(w) && Enabled(w, a) && !a.Concerns(r)
    ensures Rely(r, w, Apply(w, a))
  {
    ActionKeepsInv(w, a);
  }

  lemma {:induction false} RelyJoins(r: Ref, u: World, v: World, w: World)
    requires Rely(r, u, v) && Rely(r, v, w)
    ensures Rely(r, u, w)
  {
  }

  lemma {:induction false} RelyStarts(r: Ref, w: World)
    requires Inv(w)
    ensures Rely(r, w, w)
  {
  }

  // What each operation does, call by call.

  datatype OciError = UnknownReference | FetchFailure | ManagerFailed | StartCleanup | StillRunning

  datatype Result<+T> = Ok(value: T) | Err(error: OciError)

  /** A missing entry is fetched, a present one left alone. */
  ghost predicate PullTrace(r: Ref, present: bool, own: seq<Action>, ok: bool) {
    if present then own == [] && ok else own == [if ok then Fetch(r) else FetchFailed(r)]
  }

  /** An entry without a VM gets one, which is started; if it cannot be started it is deleted
      again, and kept in the entry when even that fails. */
  ghost predicate NewTrace(r: Ref, own: seq<Action>, res: Result<Option<VmId>>) {
    || (own == [CreateFailed(r)] && res == Err(ManagerFailed))
    || (|own| >= 3 && own[0].Create? && own[0].r == r && own[1] == Record(r)
        && StartedTrace(r, own[0].id, own[2..], res))
  }

  /** After the new VM is recorded. */
  ghost predicate StartedTrace(r: Ref, id: VmId, own: seq<Action>, res: Result<Option<VmId>>) {
    || (own == [Start(r, id)] && res == Ok(Some(id)))
    || (|own| == 3 && own[0].StartsNot(r, id) && own[1..] == [Delete(r, id), Forget(r)] && res == Err(ManagerFailed))
    || (|own| == 2 && own[0].StartsNot(r, id) && own[1].DeletesNot(r, id) && res == Err(StartCleanup))
  }

  /** `entry` is what the entry held, if there was one. A VM that is there is started, and only
      one that is gone is replaced. */
  ghost predicate RunTrace(r: Ref, entry: Option<VmId>, own: seq<Action>, res: Result<Option<VmId>>) {
    match entry
    case None => NewTrace(r, own, res)
    case Some(id) =>
      || (own == [Start(r, id)] && res == Ok(Some(id)))
      || (|own| == 1 && own[0].StartFailed? && own[0].StartsNot(r, id) && res == Err(ManagerFailed))
      || (|own| >= 2 && own[0] == StartMissing(r, id) && own[1] == Forget(r) && NewTrace(r, own[2..], res))
  }

  ghost predicate StopTrace(r: Ref, entry: Option<VmId>, own: seq<Action>, res: Result<Option<VmId>>) {
    match entry
    case None => own == [] && res == Ok(None)
    case Some(id) =>
      || ((own == [Delete(r, id), Forget(r)] || own == [DeleteMissing(r, id), Forget(r)]) && res == Ok(None))
      || (|own| == 1 && own[0].DeleteFailed? && own[0].DeletesNot(r, id) && res == Err(ManagerFailed))
  }

  /** `vm` is the entry's VM if it is registered. It must be Discovered, and is then deleted. */
  ghost predicate RemoveTrace(r: Ref, entry: Option<VmId>, vm: Option<Vm>, own: seq<Action>, res: Result<()>) {
    match (entry, vm)
    case (None, _) => own == [RemoveEntry(r)] && res == Ok(())
    case (Some(_), None) => own == [Forget(r), RemoveEntry(r)] && res == Ok(())
    case (Some(id), Some(vm)) =>
      if vm.status != Discovered then own == [] && res == Err(StillRunning)
      else
        || (own == [Delete(r, id), Forget(r), RemoveEntry(r)] && res == Ok(()))
        || (|own| == 1 && own[0].DeletesNot(r, id) && res == Err(ManagerFailed))
  }

  /** A start of the VM that succeeded, no earlier than the `from`-th action. */
  ghost predicate StartedSince(history: seq<Action>, from: nat, r: Ref, id: VmId) {
    exists i :: from <= i < |history| && history[i] == Start(r, id)
  }

  lemma {:induction false} MineSince(h: seq<Action>, k: seq<Action>, r: Ref, own: seq<Action>, a: Action)
    requires h <= k && Mine(k, r) == Mine(h, r) + own && a in own
    ensures exists i :: |h| <= i < |k| && k[i] == a
  {
    if h != k {
      var front, last := k[..|k| - 1], k[|k| - 1];
      if !last.Concerns(r) {
        MineSince(h, front, r, own, a);
      } else if last != a {
        MineGrows(h, front, r);
        assert own[|own| - 1] == Mine(k, r)[|Mine(k, r)| - 1] == last;
        assert (Mine(h, r) + own)[..|Mine(k, r)| - 1] == Mine(h, r) + own[..|own| - 1];
        assert Mine(k, r)[..|Mine(k, r)| - 1] == Mine(front, r);
        MineSince(h, front, r, own[..|own| - 1], a);
      }
    }
  }

  lemma {:induction false} MineGrows(h: seq<Action>, k: seq<Action>, r: Ref)
    requires h <= k
    ensures Mine(h, r) <= Mine(k, r)
    decreases |k|
  {
    if h != k {
      MineGrows(h, k[..|k| - 1], r);
    }
  }

  /** A run that succeeded started the VM it answers with. */
  lemma {:induction false} RunStarted(
    h: seq<Action>, k: seq<Action>, r: Ref, entry: Option<VmId>, pulled: seq<Action>, own: seq<Action>,
    res: Result<Option<VmId>>)
    requires h <= k && Mine(k, r) == Mine(h, r) + [Lock(r)] + pulled + own + [Unlock(r)]
    requires RunTrace(r, entry, own, res) && res.Ok?
    ensures res.value.Some? && StartedSince(k, |h|, r, res.value.value)
  {
    assert res.value.Some? && Start(r, res.value.value) == own[|own| - 1];
    var all := [Lock(r)] + pulled + own + [Unlock(r)];
    assert Mine(k, r) == Mine(h, r) + all && own[|own| - 1] in all;
    MineSince(h, k, r, all, own[|own| - 1]);
  }

  datatype Call = Done | Missing | Broken

  class Store {
    var w: World
    ghost var history: seq<Action>

    ghost predicate Valid()
      reads this
    {
      w == Replay(history) && Possible(history)
    }

    /** Between operations on `r`: its entry is not locked. */
    ghost predicate Free(r: Ref)
      reads this
    {
      Valid() && r !in w.held
    }

    constructor ()
      ensures Valid() && w == BOOT
    {
      w := BOOT;
      history := [];
    }

    method Do(a: Action)
      requires Valid() && Enabled(w, a)
      modifies this
      ensures Valid() && Inv(w) && history == old(history) + [a] && w == Apply(old(w), a)
      ensures forall r :: Mine(history, r) == Mine(old(history), r) + if a.Concerns(r) then [a] else []
    {
      w := Apply(w, a);
      history := history + [a];
      assert history[..|history| - 1] == old(history);
      HistoryKeepsInv(history);
    }

    /** Anything may happen that does not need the entry of `r`. */
    method Yield(r: Ref)
      requires Valid() && r in w.held
      modifies this
      ensures Valid() && old(history) <= history && Rely(r, old(w), w)
      ensures Mine(history, r) == Mine(old(history), r)
    {
      hide *;
      ghost var before := w;
      HistoryKeepsInv(history);
      ValidIs();
      RelyStarts(r, w);
      var n: int := *;
      while n > 0
        invariant Valid() && old(history) <= history && Rely(r, before, w)
        invariant Mine(history, r) == Mine(old(history), r)
        decreases n
      {
        n := n - 1;
        var a: Action := *;
        if !a.Concerns(r) && Enabled(w, a) {
          ghost var at := w;
          HistoryKeepsInv(history);
          ValidIs();
          Do(a);
          OthersKeep(r, at, a);
          RelyJoins(r, before, at, w);
        }
      }
    }

    lemma {:induction false} ValidIs()
      requires Valid()
      ensures w == Replay(history)
    {
    }

    // The manager's calls, made while the entry of `r` is locked.

    method StartVm(r: Ref, id: VmId) returns (c: Call, ghost own: Action)
      requires Valid() && Inv(w) && Names(w, r, id)
      modifies this
      ensures Valid() && old(history) <= history && Rely(r, old(w), w)
      ensures Mine(history, r) == Mine(old(history), r) + [own]
      ensures match c
              case Done => own == Start(r, id)
              case Missing => own == StartMissing(r, id)
              case Broken => own.StartFailed? && own.StartsNot(r, id)
      ensures c == Missing ==> id !in w.vms
    {
      hide Replay, Valid, Inv, Rely, Mine, Possible;
      ghost var before := w;
      Yield(r);
      RelyNames(r, before, w, id);
      ghost var at := w;
      var starts: bool, breaks: bool := *, *;
      var a: Action;
      if id !in w.vms {
        c, a := Missing, StartMissing(r, id);
      } else if starts {
        c, a := Done, Start(r, id);
      } else {
        c, a := Broken, StartFailed(r, id, if breaks then Failed else w.vms[id].status);
      }
      Do(a);
      own := a;
      StartIsRely(r, at, a);
      RelyJoins(r, before, at, w);
      ghost var done := w;
      Yield(r);
      RelyJoins(r, before, done, w);
      RelyGone(r, before, done, w, id);
    }

    method CreateVm(r: Ref) returns (c: Option<VmId>)
      requires Valid() && Vacant(w, r)
      modifies this
      ensures Valid() && old(history) <= history
      ensures c.None? ==> Rely(r, old(w), w) && Mine(history, r) == Mine(old(history), r) + [CreateFailed(r)]
      ensures c.Some? ==> Mine(history, r) == Mine(old(history), r) + [Create(r, c.value)]
      ensures c.Some? ==> Inv(w) && Enabled(w, Record(r)) && w.held[r] == c && old(w).nextId <= c.value < w.nextId
    {
      hide Replay, Valid, Inv, Mine, Possible;
      ghost var before := w;
      Yield(r);
      var creates: bool := *;
      if !creates || w.nextId > LAST_ID {
        Do(CreateFailed(r));
        return None;
      }
      c := Some(w.nextId);
      Do(Create(r, w.nextId));
      Yield(r);
    }

    /** Deletes the VM the entry names. */
    method DeleteVm(r: Ref, id: VmId) returns (c: Call, ghost own: Action)
      requires Valid() && Inv(w) && Names(w, r, id)
      modifies this
      ensures Valid() && old(history) <= history && Rely(r, old(w), w)
      ensures Mine(history, r) == Mine(old(history), r) + [own]
      ensures match c
              case Done => own == Delete(r, id)
              case Missing => own == DeleteMissing(r, id)
              case Broken => own.DeleteFailed? && own.DeletesNot(r, id)
      ensures c != Broken ==> id !in w.vms
    {
      hide Replay, Valid, Inv, Rely, Mine, Possible;
      ghost var before := w;
      Yield(r);
      RelyNames(r, before, w, id);
      ghost var at := w;
      var answers: bool, broken: bool := *, *;
      var a: Action;
      if !answers {
        var status := if id in w.vms && !broken then w.vms[id].status else Failed;
        c, a := Broken, DeleteFailed(r, id, status);
      } else if id in w.vms {
        c, a := Done, Delete(r, id);
      } else {
        c, a := Missing, DeleteMissing(r, id);
      }
      Do(a);
      own := a;
      StartIsRely(r, at, a);
      RelyJoins(r, before, at, w);
      ghost var done := w;
      Yield(r);
      RelyJoins(r, before, done, w);
      RelyGone(r, before, done, w, id);
    }

    // The operations.

    /** `ensure_pulled`: on success the entry is there and locked. */
    method EnsurePulled(r: Ref) returns (ok: bool, ghost own: seq<Action>)
      requires Free(r)
      modifies this
      ensures Valid() && Inv(w) && old(history) <= history
      ensures old(w).nextId <= w.nextId && (r in old(w).entries ==> w == Apply(old(w), Lock(r)))
      ensures PullTrace(r, r in old(w).entries, own, ok)
      ensures Mine(history, r) == Mine(old(history), r) + [Lock(r)] + own
      ensures r in w.held && w.held[r].None? && (ok <==> r in w.entries)
      ensures ok ==> w.entries[r] == if r in old(w).entries then old(w).entries[r] else None
      ensures !ok ==> r !in old(w).entries
    {
      hide Replay, Inv, Mine, Possible;
      own := [];
      Do(Lock(r));
      if r in w.entries {
        return true, own;
      }
      Yield(r);
      ok := *;
      if ok {
        Do(Fetch(r));
        own := [Fetch(r)];
      } else {
        Do(FetchFailed(r));
        own := [FetchFailed(r)];
      }
    }

    method Pull(r: Ref) returns (res: Result<Option<VmId>>, ghost own: seq<Action>)
      requires Free(r)
      modifies this
      ensures Free(r) && Inv(w) && old(history) <= history
      ensures Mine(history, r) == Mine(old(history), r) + [Lock(r)] + own + [Unlock(r)]
      ensures PullTrace(r, r in old(w).entries, own, res.Ok?)
      ensures res.Ok? ==> r in w.entries && w.entries[r] == res.value
      ensures res.Ok? ==> res.value == if r in old(w).entries then old(w).entries[r] else None
      ensures res.Err? ==> res == Err(FetchFailure) && r !in old(w).entries && r !in w.entries
    {
      hide Replay, Inv, Mine, Possible;
      var pulled;
      pulled, own := EnsurePulled(r);
      res := if pulled then Ok(w.entries[r]) else Err(FetchFailure);
      Do(Unlock(r));
    }

    /** `run`. */
    method Run(r: Ref) returns (res: Result<Option<VmId>>, ghost pulled: seq<Action>, ghost own: seq<Action>)
      requires Free(r)
      modifies this
      ensures Free(r) && Inv(w) && old(history) <= history && AllRecorded(w, r)
      ensures Mine(history, r) == Mine(old(history), r) + [Lock(r)] + pulled + own + [Unlock(r)]
      ensures PullTrace(r, r in old(w).entries, pulled, res != Err(FetchFailure))
      ensures if res == Err(FetchFailure) then own == []
              else RunTrace(r, if r in old(w).entries then old(w).entries[r] else None, own, res)
      ensures res.Ok? ==> Owns(w, r) && w.entries[r] == res.value
      ensures res.Ok? ==> StartedSince(history, |old(history)|, r, res.value.value)
      ensures res == Err(FetchFailure) <==> r !in w.entries
      ensures res == Err(StartCleanup) ==> Owns(w, r) && old(w).nextId <= w.entries[r].value
      ensures res == Err(ManagerFailed) && Owns(w, r) ==> Owns(old(w), r) && w.entries[r] == old(w).entries[r]
      ensures res.Ok? && res.value.value < old(w).nextId ==> Owns(old(w), r) && res.value == old(w).entries[r]
    {
      hide Replay, Inv, Mine, Possible, PullTrace, RunTrace, StartedSince;
      var ok;
      ok, pulled := EnsurePulled(r);
      own := [];
      if !ok {
        Do(Unlock(r));
        NothingOwned(r);
        NoneIsAll(w, r);
        return Err(FetchFailure), pulled, own;
      }
      res, own := RunLocked(r);
      Do(Unlock(r));
      RecordedAll(r);
      if res.Ok? {
        RunStarted(old(history), history, r, if r in old(w).entries then old(w).entries[r] else None, pulled, own, res);
      }
    }

    /** `run` once the entry is there and locked. */
    method RunLocked(r: Ref) returns (res: Result<Option<VmId>>, ghost own: seq<Action>)
      requires Valid() && Inv(w) && r in w.held && w.held[r].None? && r in w.entries
      modifies this
      ensures Valid() && Inv(w) && Enabled(w, Unlock(r)) && old(history) <= history && r in w.entries
      ensures Mine(history, r) == Mine(old(history), r) + own && RunTrace(r, old(w).entries[r], own, res)
      ensures res.Ok? ==> Owns(w, r) && w.entries[r] == res.value
      ensures res == Err(StartCleanup) ==> Owns(w, r) && old(w).nextId <= w.entries[r].value
      ensures res == Err(ManagerFailed) && Owns(w, r) ==> w.entries[r] == old(w).entries[r]
      ensures res.Ok? && res.value.value < old(w).nextId ==> res.value == old(w).entries[r]
      ensures res != Err(FetchFailure)
    {
      hide Replay, Inv, Mine, Possible, NewTrace;
      if w.entries[r].None? {
        res, own := RunNew(r);
        return;
      }
      var id := w.entries[r].value;
      IdIsKnown(w, r);
      var c, call := StartVm(r, id);
      own := [call];
      match c {
        case Done => res := Ok(w.entries[r]);
        case Broken => res := Err(ManagerFailed);
        case Missing =>
          Do(Forget(r));
          ghost var more;
          res, more := RunNew(r);
          own := [call, Forget(r)] + more;
          assert own[2..] == more;
      }
    }

    /** The second half of `run`, for an entry without a VM. */
    method RunNew(r: Ref) returns (res: Result<Option<VmId>>, ghost own: seq<Action>)
      requires Valid() && Inv(w) && Vacant(w, r)
      modifies this
      ensures Valid() && Enabled(w, Unlock(r)) && Inv(w) && old(history) <= history && r in w.entries
      ensures Mine(history, r) == Mine(old(history), r) + own && NewTrace(r, own, res)
      ensures res.Ok? || res == Err(StartCleanup) ==> Owns(w, r) && old(w).nextId <= w.entries[r].value
      ensures res.Ok? ==> w.entries[r] == res.value
      ensures res.Err? && res.error != StartCleanup ==> res == Err(ManagerFailed) && w.entries[r].None?
    {
      hide Replay, Inv, Mine, Possible, NewTrace;
      var id := CreateVm(r);
      if id.None? {
        own := [CreateFailed(r)];
        NotCreated(r);
        return Err(ManagerFailed), own;
      }
      Do(Record(r));
      ghost var started;
      res, started := StartNew(r, id.value);
      own := [Create(r, id.value), Record(r)] + started;
      Created(r, id.value, started, res);
    }

    /** The new VM is started, and deleted again if that fails. */
    method StartNew(r: Ref, id: VmId) returns (res: Result<Option<VmId>>, ghost own: seq<Action>)
      requires Valid() && Inv(w) && Names(w, r, id)
      modifies this
      ensures Valid() && Enabled(w, Unlock(r)) && Inv(w) && old(history) <= history && r in w.entries
      ensures Mine(history, r) == Mine(old(history), r) + own && StartedTrace(r, id, own, res)
      ensures w.entries[r] == if res == Err(ManagerFailed) then None else Some(id)
      ensures res == Ok(Some(id)) || res == Err(ManagerFailed) || res == Err(StartCleanup)
    {
      hide Replay, Inv, Mine, Possible;
      var c, call := StartVm(r, id);
      own := [call];
      if c == Done {
        return Ok(Some(id)), own;
      }
      c, call := DeleteVm(r, id);
      own := own + [call];
      if c != Done {
        return Err(StartCleanup), own;
      }
      Do(Forget(r));
      own := own + [Forget(r)];
      assert own[1..] == [call, Forget(r)];
      return Err(ManagerFailed), own;
    }

    method Stop(r: Ref) returns (res: Result<Option<VmId>>, ghost own: seq<Action>)
      requires Free(r)
      modifies this
      ensures Free(r) && Inv(w) && old(history) <= history
      ensures Mine(history, r) == Mine(old(history), r) + [Lock(r)] + own + [Unlock(r)]
      ensures res == Err(UnknownReference) <==> r !in old(w).entries
      ensures if r in old(w).entries then StopTrace(r, old(w).entries[r], own, res) else own == []
      ensures res.Ok? ==> res.value.None? && r in w.entries && w.entries[r].None? && NoneOwned(w, r)
      ensures r in old(w).entries && res.Err? ==>
                res == Err(ManagerFailed) && Owns(old(w), r) && r in w.entries && w.entries[r] == old(w).entries[r]
    {
      hide Replay, Inv, Mine, Possible;
      Do(Lock(r));
      own := [];
      if r !in w.entries {
        Do(Unlock(r));
        return Err(UnknownReference), own;
      }
      if w.entries[r].Some? {
        var c, call := DeleteVm(r, w.entries[r].value);
        own := [call];
        if c == Broken {
          Do(Unlock(r));
          return Err(ManagerFailed), own;
        }
        Do(Forget(r));
        own := own + [Forget(r)];
      }
      res := Ok(w.entries[r]);
      Do(Unlock(r));
      NothingOwned(r);
    }

    method Remove(r: Ref) returns (res: Result<()>, ghost own: seq<Action>)
      requires Free(r)
      modifies this
      ensures Free(r) && Inv(w) && old(history) <= history
      ensures Mine(history, r) == Mine(old(history), r) + [Lock(r)] + own + [Unlock(r)]
      ensures res == Err(UnknownReference) <==> r !in old(w).entries
      ensures if r in old(w).entries then RemoveTrace(r, old(w).entries[r], EntryVm(old(w), r), own, res) else own == []
      ensures res.Ok? ==> r !in w.entries && NoneOwned(w, r)
      ensures r in old(w).entries && res.Err? ==>
                && res.error in {ManagerFailed, StillRunning}
                && Owns(old(w), r) && r in w.entries && w.entries[r] == old(w).entries[r]
    {
      hide Replay, Inv, Mine, Possible, RemoveTrace;
      Do(Lock(r));
      if r !in w.entries {
        own := [];
        Do(Unlock(r));
        return Err(UnknownReference), own;
      }
      res, own := RemoveLocked(r);
      Do(Unlock(r));
      if res.Ok? {
        NothingOwned(r);
      }
    }

    /** `remove` once the entry is locked. */
    method RemoveLocked(r: Ref) returns (res: Result<()>, ghost own: seq<Action>)
      requires Valid() && Inv(w) && r in w.held && w.held[r].None? && r in w.entries
      modifies this
      ensures Valid() && Inv(w) && Enabled(w, Unlock(r)) && old(history) <= history
      ensures Mine(history, r) == Mine(old(history), r) + own
      ensures RemoveTrace(r, old(w).entries[r], EntryVm(old(w), r), own, res)
      ensures if res.Ok? then r !in w.entries
              else && res.error in {ManagerFailed, StillRunning}
                   && Owns(old(w), r) && r in w.entries && w.entries[r] == old(w).entries[r]
    {
      hide Replay, Inv, Mine, Possible;
      own := [];
      if w.entries[r].Some? {
        var id := w.entries[r].value;
        if id in w.vms {
          if w.vms[id].status != Discovered {
            return Err(StillRunning), own;
          }
          var c, call := DeleteVm(r, id);
          own := [call];
          if c != Done {
            return Err(ManagerFailed), own;
          }
        }
        Do(Forget(r));
        own := own + [Forget(r)];
      }
      Do(RemoveEntry(r));
      own := own + [RemoveEntry(r)];
      return Ok(()), own;
    }

    /** With no operation under way, what the reference owns is recorded. */
    lemma {:induction false} RecordedAll(r: Ref)
      requires Free(r)
      ensures AllRecorded(w, r)
    {
      HistoryKeepsInv(history);
    }

    lemma {:induction false} NothingOwned(r: Ref)
      requires Free(r) && !Owns(w, r)
      ensures NoneOwned(w, r)
    {
      HistoryKeepsInv(history);
    }
  }

  lemma {:induction false} NotCreated(r: Ref)
    ensures NewTrace(r, [CreateFailed(r)], Err(ManagerFailed))
  {
  }

  lemma {:induction false} Created(r: Ref, id: VmId, started: seq<Action>, res: Result<Option<VmId>>)
    requires StartedTrace(r, id, started, res)
    ensures NewTrace(r, [Create(r, id), Record(r)] + started, res)
  {
    var own := [Create(r, id), Record(r)] + started;
    assert own[2..] == started;
  }

  /** The registered VM an entry names. */
  ghost function EntryVm(w: World, r: Ref): Option<Vm> {
    if Owns(w, r) && w.entries[r].value in w.vms then Some(w.vms[w.entries[r].value]) else None
  }

  ghost predicate AllRecorded(w: World, r: Ref) {
    forall id :: id in w.vms && w.vms[id].owner == Oci(r) ==> r in w.entries && w.entries[r] == Some(id)
  }

  ghost predicate NoneOwned(w: World, r: Ref) {
    forall id :: id in w.vms ==> w.vms[id].owner != Oci(r)
  }

  lemma {:induction false} NoneIsAll(w: World, r: Ref)
    requires NoneOwned(w, r)
    ensures AllRecorded(w, r)
  {
  }

  lemma {:induction false} IdIsKnown(w: World, r: Ref)
    requires Inv(w) && Owns(w, r)
    ensures w.entries[r].value < w.nextId
  {
    assert Known(w, r, w.entries[r].value);
  }

  /** An entry that names a VM goes on naming it. */
  lemma {:induction false} RelyNames(r: Ref, w: World, u: World, id: VmId)
    requires Rely(r, w, u) && Names(w, r, id)
    ensures Names(u, r, id) && Inv(u)
  {
  }

  /** The manager's calls on the entry's own VM are of the kind others may make. */
  lemma {:induction false} StartIsRely(r: Ref, w: World, a: Action)
    requires Inv(w) && Enabled(w, a) && a.Concerns(r)
    requires a.Start? || a.StartFailed? || a.StartMissing? || a.Delete? || a.DeleteFailed? || a.DeleteMissing?
    ensures Rely(r, w, Apply(w, a))
  {
    ActionKeepsInv(w, a);
  }

  /** A VM that is gone stays gone. */
  lemma {:induction false} RelyGone(r: Ref, before: World, w: World, u: World, id: VmId)
    requires Inv(before) && Names(before, r, id) && Rely(r, before, w) && Rely(r, w, u)
    ensures id !in w.vms ==> id !in u.vms
  {
    assert Known(before, r, id);
  }
}
