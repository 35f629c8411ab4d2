/** The sections that run under the manager's lock and under an item's lock, as the program performs them. Each one does
    what the step of the same name does in the interleaved system. */
module TransferManager {
  import opened Wrappers
  import opened Progress
  import opened TransferModel

  class TransferItem {
    const id: nat
    const path: string
    var running: bool
    var aborted: bool
    var cancelQueued: bool
    var done: bool
    var base: Update
    var sent: int64
    var last: int
    ghost var updates: seq<Update>

    constructor (id: nat, path: string)
      ensures this.id == id && this.path == path && updates == [] && IsNew(path)
    {
      this.id, this.path := id, path;
      running, aborted, cancelQueued, done := false, false, false, false;
      base, sent, last := Initial(path), 0, 0;
      updates := [];
    }

    function Ctl(): Control
      reads this
    {
      Control(running, aborted, cancelQueued)
    }

    function Rep(): Reporter
      reads this
    {
      Reporter(done, base, sent, last)
    }

    ghost predicate IsNew(path: string)
      reads this
    {
      Ctl() == NewItem(path, id).ctl && Rep() == NewItem(path, id).rep
    }

    /** What the step does to the reporter, and that its updates went out. */
    twostate predicate Did(out: (Reporter, seq<Update>))
      reads this
    {
      Rep() == out.0 && updates == old(updates) + out.1
    }

    method EmitLocked(u: Update)
      modifies this`done, this`updates
      ensures Did(Emit(old(Rep()), u))
    {
      if done {
        return;
      }
      done := u.done;
      updates := updates + [u];
    }

    method Begin(b: Update, now: int)
      modifies this`done, this`base, this`last, this`updates
      ensures Did(BeginReport(old(Rep()), b, now))
    {
      base := b;
      last := now;
      EmitLocked(b);
    }

    method ShowProgress(n: int64, now: int)
      modifies this`done, this`sent, this`last, this`updates
      ensures Did(ProgressReport(old(Rep()), n, now))
    {
      sent := n;
      if now - last < PROGRESS_INTERVAL {
        return;
      }
      last := now;
      var u := base.(sent := n);
      EmitLocked(u);
    }

    method Finish(status: Status)
      modifies this`done, this`updates
      ensures Did(FinishReport(old(Rep()), status))
    {
      var u := base.(sent := sent);
      if status == Status.Sent {
        u := u.(sent := u.total);
      }
      u := u.(done := true, status := Some(status));
      EmitLocked(u);
    }
  }

  class Manager {
    var closed: bool
    var stopped: bool
    var next: nat
    var items: map<nat, TransferItem>
    ghost var accepted: seq<TransferItem>

    /** What the manager and its items hold of the interleaved system's state: the flags, the tracked items, and of every
        accepted item its identity and what the locks guard. */
    ghost predicate Mirrors(s: State)
      reads this, accepted
    {
      && closed == s.closed && stopped == s.stopped && next == |accepted| == |s.items|
      && Alike(accepted, 0, s.items)
      && items.Keys == s.tracked && Indexed()
    }

    static ghost predicate Agrees(it: TransferItem, i: nat, model: Item)
      reads it
    {
      it.id == i && it.path == model.path && it.Ctl() == model.ctl && it.Rep() == model.rep
    }

    ghost predicate Indexed()
      reads this
    {
      forall id | id in items :: id < |accepted| && items[id] == accepted[id]
    }

    /** The objects, whose IDs start at `first`, hold what the items do. */
    static ghost predicate Alike(objects: seq<TransferItem>, first: nat, models: seq<Item>)
      reads objects
    {
      |objects| == |models| && forall i | 0 <= i < |objects| :: Agrees(objects[i], first + i, models[i])
    }

    constructor ()
      ensures Mirrors(Start) && accepted == []
    {
      closed, stopped, next, items, accepted := false, false, 0, map[], [];
    }

    /** The part of SendPaths that accepts the paths: nothing once the manager is closed. */
    method Accept(paths: seq<string>, ghost s: State) returns (batch: seq<TransferItem>)
      requires Mirrors(s)
      modifies this`next, this`items, this`accepted
      ensures Mirrors(Apply(s, SendPaths(paths)))
      ensures accepted == old(accepted) + batch && |batch| == if old(closed) then 0 else |paths|
      ensures fresh(batch)
    {
      if closed {
        return [];
      }
      batch := TrackAll(paths, s);
      AllAccepted(s, old(accepted), batch, paths);
    }

    method TrackAll(paths: seq<string>, ghost s: State) returns (batch: seq<TransferItem>)
      requires Mirrors(s) && !closed
      modifies this`next, this`items, this`accepted
      ensures |batch| == |paths| && fresh(batch) && Accepting(s, old(accepted), batch, paths)
    {
      batch := [];
      for i := 0 to |paths|
        invariant |batch| == i && fresh(batch) && Accepting(s, old(accepted), batch, paths)
      {
        var it := Track(paths[i], s, old(accepted), batch, paths);
        batch := batch + [it];
      }
    }

    /** The items of a batch are accepted behind those that were before. */
    ghost predicate Accepting(s: State, before: seq<TransferItem>, batch: seq<TransferItem>, paths: seq<string>)
      reads this, before, batch
    {
      && |batch| <= |paths| && !s.closed && closed == s.closed && stopped == s.stopped
      && accepted == before + batch && next == |accepted| && Indexed()
      && Alike(before, 0, s.items) && Alike(batch, |s.items|, NewItems(paths[..|batch|], |s.items|))
      && items.Keys == s.tracked + IdRange(|s.items|, next)
    }

    lemma Accepts(s: State, before: seq<TransferItem>, batch: seq<TransferItem>, paths: seq<string>, it: TransferItem)
      requires |batch| < |paths| && !s.closed && closed == s.closed && stopped == s.stopped
      requires accepted == before + batch + [it] && next == |accepted| && Indexed()
      requires Alike(before, 0, s.items) && Alike(batch, |s.items|, NewItems(paths[..|batch|], |s.items|))
      requires it.id == |s.items| + |batch| && it.path == paths[|batch|] && it.IsNew(paths[|batch|])
      requires items.Keys == s.tracked + IdRange(|s.items|, next - 1) + {next - 1}
      ensures Accepting(s, before, batch + [it], paths)
    {
      OneMore(batch, |s.items|, paths, |batch|, it);
      assert before + (batch + [it]) == before + batch + [it];
    }

    lemma OneMore(batch: seq<TransferItem>, first: nat, paths: seq<string>, i: nat, it: TransferItem)
      requires i < |paths| && |batch| == i && Alike(batch, first, NewItems(paths[..i], first))
      requires it.id == first + i && it.path == paths[i] && it.IsNew(paths[i])
      ensures Alike(batch + [it], first, NewItems(paths[..i + 1], first))
    {
    }

    lemma AllAccepted(s: State, before: seq<TransferItem>, batch: seq<TransferItem>, paths: seq<string>)
      requires Accepting(s, before, batch, paths) && |batch| == |paths|
      ensures Mirrors(Apply(s, SendPaths(paths)))
    {
      assert paths[..|paths|] == paths;
      AlikeBoth(before, batch, s.items, NewItems(paths, |s.items|));
    }

    lemma AlikeBoth(before: seq<TransferItem>, batch: seq<TransferItem>, a: seq<Item>, b: seq<Item>)
      requires Alike(before, 0, a) && Alike(batch, |a|, b)
      ensures Alike(before + batch, 0, a + b)
    {
    }

    method Track(path: string, ghost s: State, ghost before: seq<TransferItem>, ghost batch: seq<TransferItem>,
                 ghost paths: seq<string>) returns (it: TransferItem)
      requires |batch| < |paths| && path == paths[|batch|] && Accepting(s, before, batch, paths)
      modifies this`next, this`items, this`accepted
      ensures fresh(it) && Accepting(s, before, batch + [it], paths)
    {
      it := new TransferItem(next, path);
      accepted := accepted + [it];
      items := items[next := it];
      next := next + 1;
      Accepts(s, before, batch, paths, it);
    }

    /** Aborts a running item or marks a queued one, if the ID is tracked. */
    method Cancel(id: nat, ghost s: State) returns (found: bool)
      requires Mirrors(s)
      modifies if id in items then {items[id]} else {}
      ensures Mirrors(Apply(s, Action.Cancel(id)))
      ensures found <==> CancelAnswer(s, id)
    {
      if id !in items {
        return false;
      }
      var it := items[id];
      DistinctItems(s);
      if it.running {
        it.aborted := true;
      } else {
        it.cancelQueued := true;
      }
      return true;
    }

    /** Whether the item runs; it does not when it was cancelled while queued or the manager is closing. */
    method StartItem(it: TransferItem, ghost s: State) returns (runs: bool)
      requires Mirrors(s) && it in accepted && Enabled(s, Action.StartItem(it.id))
      modifies it`running
      ensures Mirrors(Apply(s, Action.StartItem(it.id)))
      ensures runs <==> Apply(s, Action.StartItem(it.id)).items[it.id].stage.Started?
    {
      DistinctItems(s);
      if it.cancelQueued || stopped {
        return false;
      }
      it.running := true;
      return true;
    }

    /** The first part of settling an item: it is forgotten. */
    method Drop(it: TransferItem, ghost s: State)
      requires Mirrors(s) && it in accepted && Enabled(s, Action.Drop(it.id))
      modifies this`items
      ensures Mirrors(Apply(s, Action.Drop(it.id)))
    {
      items := items - {it.id};
    }

    method BeginClose(ghost s: State)
      requires Mirrors(s)
      modifies this`closed
      ensures Mirrors(Apply(s, Close))
    {
      closed := true;
    }

    method Stop(ghost s: State)
      requires Mirrors(s) && Enabled(s, Action.Stop)
      modifies this`stopped
      ensures Mirrors(Apply(s, Action.Stop))
    {
      stopped := true;
    }

    lemma DistinctItems(s: State)
      requires Mirrors(s)
      ensures forall i, j | 0 <= i < j < |accepted| :: accepted[i] != accepted[j]
    {
      assert forall i | 0 <= i < |accepted| :: Agrees(accepted[i], 0 + i, s.items[i]);
    }
  }
}
