/** Per-client interest tracking (GameLogic/src/InterestManagement.cpp). */
module Interest {
  import opened Basics
  import opened Replication

  datatype Frame = Frame(entered: seq<EntityId>, stayed: seq<EntityId>, exited: seq<EntityId>)

  function Entered(known: set<EntityId>, entities: seq<EntityState>): seq<EntityId> {
    if entities == [] then []
    else
      var id := entities[|entities| - 1].Id();
      Entered(known, entities[..|entities| - 1]) + (if id in known then [] else [id])
  }

  function Stayed(known: set<EntityId>, entities: seq<EntityState>): seq<EntityId> {
    if entities == [] then []
    else
      var id := entities[|entities| - 1].Id();
      Stayed(known, entities[..|entities| - 1]) + (if id in known then [id] else [])
  }

  lemma IdsSnoc(entities: seq<EntityState>)
    requires entities != []
    ensures Ids(entities) == Ids(entities[..|entities| - 1]) + {entities[|entities| - 1].Id()}
  {
    var front := entities[..|entities| - 1];
    forall id | id in Ids(entities)
      ensures id in Ids(front) + {entities[|entities| - 1].Id()}
    {
      var k :| 0 <= k < |entities| && entities[k].Id() == id;
      assert k < |front| ==> front[k].Id() == id;
    }
    forall id | id in Ids(front)
      ensures id in Ids(entities)
    {
      var k :| 0 <= k < |front| && front[k].Id() == id;
      assert entities[k].Id() == id;
    }
  }

  /** What one planned snapshot does to a known set. The walk over the old known
      set is in hash order, so the order of exits is given from outside. */
  function FrameFor(known: set<EntityId>, entities: seq<EntityState>, oldKnown: seq<EntityId>): Frame {
    Frame(Entered(known, entities), Stayed(known, entities), Departed(oldKnown, Ids(entities)))
  }

  function Departed(oldKnown: seq<EntityId>, next: set<EntityId>): seq<EntityId> {
    if oldKnown == [] then []
    else
      var id := oldKnown[|oldKnown| - 1];
      Departed(oldKnown[..|oldKnown| - 1], next) + (if id in next then [] else [id])
  }

  lemma SnocEnumerates(ids: seq<EntityId>, elems: set<EntityId>, id: EntityId)
    requires Enumerates(ids, elems) && id !in elems
    ensures Enumerates(ids + [id], elems + {id})
  {
  }

  lemma {:induction false} EnteredEnumerates(known: set<EntityId>, entities: seq<EntityState>)
    requires DistinctIds(entities)
    ensures Enumerates(Entered(known, entities), Ids(entities) - known)
    ensures Enumerates(Stayed(known, entities), Ids(entities) * known)
  {
    if entities != [] {
      var front := entities[..|entities| - 1];
      var id := entities[|entities| - 1].Id();
      EnteredEnumerates(known, front);
      IdsSnoc(entities);
      assert id !in Ids(front);
      if id in known {
        SnocEnumerates(Stayed(known, front), Ids(front) * known, id);
        assert Ids(entities) * known == Ids(front) * known + {id};
        assert Entered(known, entities) == Entered(known, front);
        assert Ids(entities) - known == Ids(front) - known;
      } else {
        SnocEnumerates(Entered(known, front), Ids(front) - known, id);
        assert Ids(entities) - known == Ids(front) - known + {id};
        assert Stayed(known, entities) == Stayed(known, front);
        assert Ids(entities) * known == Ids(front) * known;
      }
    }
  }

  lemma {:induction false} DepartedEnumerates(oldKnown: seq<EntityId>, known: set<EntityId>, next: set<EntityId>)
    requires Enumerates(oldKnown, known)
    ensures Enumerates(Departed(oldKnown, next), known - next)
  {
    if oldKnown != [] {
      var front := oldKnown[..|oldKnown| - 1];
      var id := oldKnown[|oldKnown| - 1];
      assert forall x :: x in oldKnown <==> x in front || x == id;
      DepartedEnumerates(front, known - {id}, next);
      if id in next {
        assert Departed(oldKnown, next) == Departed(front, next);
        assert known - next == known - {id} - next;
      } else {
        SnocEnumerates(Departed(front, next), known - {id} - next, id);
        assert known - next == (known - {id} - next) + {id};
      }
    }
  }

  /** Entered and exited are exactly the differences of consecutive known sets,
      each id once: this is what makes enter and leave alternate per entity. */
  lemma FrameIsDifference(known: set<EntityId>, entities: seq<EntityState>, oldKnown: seq<EntityId>)
    requires DistinctIds(entities) && Enumerates(oldKnown, known)
    ensures var frame := FrameFor(known, entities, oldKnown);
            && Enumerates(frame.entered, Ids(entities) - known)
            && Enumerates(frame.stayed, Ids(entities) * known)
            && Enumerates(frame.exited, known - Ids(entities))
  {
    EnteredEnumerates(known, entities);
    DepartedEnumerates(oldKnown, known, Ids(entities));
  }

  /** Sizes: entered - exited is the growth of the known set, and entered + stayed
      is the number of entities in the snapshot. */
  lemma FrameSizes(known: set<EntityId>, entities: seq<EntityState>, oldKnown: seq<EntityId>)
    requires DistinctIds(entities) && Enumerates(oldKnown, known)
    ensures var frame := FrameFor(known, entities, oldKnown);
            && |frame.entered| - |frame.exited| == |Ids(entities)| - |known|
            && |frame.entered| + |frame.stayed| == |entities|
  {
    var frame := FrameFor(known, entities, oldKnown);
    var ids := Ids(entities);
    FrameIsDifference(known, entities, oldKnown);
    DistinctLength(frame.entered, ids - known);
    DistinctLength(frame.stayed, ids * known);
    DistinctLength(frame.exited, known - ids);
    DistinctIdsSize(entities);
    SplitSize(ids, known);
    SplitSize(known, ids);
    assert ids * known == known * ids;
  }

  lemma SplitSize(a: set<EntityId>, b: set<EntityId>)
    ensures |a| == |a - b| + |a * b|
  {
    assert a == (a - b) + a * b;
  }

  class InterestTracker {
    var known: set<EntityId>

    constructor ()
      ensures known == {}
    {
      known := {};
    }

    method Update(entities: seq<EntityState>, hashOrder: seq<EntityId>) returns (frame: Frame)
      requires Enumerates(hashOrder, known)
      modifies this
      ensures frame == FrameFor(old(known), entities, hashOrder)
      ensures known == Ids(entities)
    {
      var entered, stayed, exited := [], [], [];
      var nextKnown := {};
      var i := 0;
      while i < |entities|
        invariant i <= |entities|
        invariant known == old(known)
        invariant nextKnown == Ids(entities[..i])
        invariant entered == Entered(known, entities[..i])
        invariant stayed == Stayed(known, entities[..i])
      {
        assert entities[..i + 1][..i] == entities[..i];
        IdsSnoc(entities[..i + 1]);
        var id := entities[i].Id();
        nextKnown := nextKnown + {id};
        if id in known {
          stayed := stayed + [id];
        } else {
          entered := entered + [id];
        }
        i := i + 1;
      }
      assert entities[..|entities|] == entities;
      i := 0;
      while i < |hashOrder|
        invariant i <= |hashOrder|
        invariant known == old(known)
        invariant exited == Departed(hashOrder[..i], nextKnown)
      {
        assert hashOrder[..i + 1][..i] == hashOrder[..i];
        if hashOrder[i] !in nextKnown {
          exited := exited + [hashOrder[i]];
        }
        i := i + 1;
      }
      assert hashOrder[..|hashOrder|] == hashOrder;
      known := nextKnown;
      frame := Frame(entered, stayed, exited);
    }
  }
}
