/** What a boid knows about its surroundings: the `flock` list of flockmates
    and the `obstacles` list of everything else it senses. The physics
    engine reports an object entering or leaving the boid's trigger volume;
    the boid files it by comparing tags. */
module Tracker {
  import opened Lists

  /** A `Transform` handle (its instance id). */
  type Id = nat

  /** A `GameObject` tag. */
  type Tag = string

  /** The parts of the `Collider` a trigger callback looks at. */
  datatype Collider = Collider(transform: Id, tag: Tag)

  /** The boid's two lists. */
  datatype Contacts = Contacts(flock: seq<Id>, obstacles: seq<Id>)

  /** `OnTriggerEnter`: a collider with the boid's own tag is added to the
      flock, any other to the obstacles; `List.Add` appends without looking
      for an earlier copy. */
  function Enter(c: Contacts, selfTag: Tag, other: Collider): Contacts {
    if other.tag == selfTag then c.(flock := c.flock + [other.transform])
    else c.(obstacles := c.obstacles + [other.transform])
  }

  /** `OnTriggerExit`: the same tag test picks the list, and `List.Remove`
      takes out the first copy of the handle, if any. */
  function Exit(c: Contacts, selfTag: Tag, other: Collider): Contacts {
    if other.tag == selfTag then c.(flock := RemoveFirst(c.flock, other.transform))
    else c.(obstacles := RemoveFirst(c.obstacles, other.transform))
  }

  /** Entering appends the handle to exactly one list, chosen by tag
      equality, grows that list by one even when the handle is already in it,
      and leaves the other list as it was. */
  lemma EnterAppends(c: Contacts, selfTag: Tag, other: Collider)
    ensures var d := Enter(c, selfTag, other);
      (other.tag == selfTag <==> |d.flock| == |c.flock| + 1) &&
      (other.tag != selfTag <==> |d.obstacles| == |c.obstacles| + 1) &&
      (other.tag == selfTag ==> d.flock == c.flock + [other.transform] && d.obstacles == c.obstacles) &&
      (other.tag != selfTag ==> d.obstacles == c.obstacles + [other.transform] && d.flock == c.flock)
  {}

  /** Entering never deduplicates: the handle's count in the chosen list
      goes up by one whatever it was. */
  lemma EnterCountsCopies(c: Contacts, selfTag: Tag, other: Collider)
    ensures var d := Enter(c, selfTag, other);
      var x := other.transform;
      (other.tag == selfTag ==> multiset(d.flock)[x] == multiset(c.flock)[x] + 1) &&
      (other.tag != selfTag ==> multiset(d.obstacles)[x] == multiset(c.obstacles)[x] + 1)
  {
    var x := other.transform;
    assert multiset(c.flock + [x]) == multiset(c.flock) + multiset{x};
    assert multiset(c.obstacles + [x]) == multiset(c.obstacles) + multiset{x};
  }

  /** Exiting takes one copy of the handle out of the list the tag test
      picks (the first one, keeping the order of the rest), does nothing
      when the handle is not there, and leaves the other list as it was. */
  lemma ExitRemovesOneCopy(c: Contacts, selfTag: Tag, other: Collider)
    ensures var d := Exit(c, selfTag, other);
      var x := other.transform;
      (other.tag == selfTag ==>
        multiset(d.flock) == multiset(c.flock) - multiset{x} && d.obstacles == c.obstacles) &&
      (other.tag != selfTag ==>
        multiset(d.obstacles) == multiset(c.obstacles) - multiset{x} && d.flock == c.flock) &&
      (x in c.flock && other.tag == selfTag ==> |d.flock| == |c.flock| - 1) &&
      (x in c.obstacles && other.tag != selfTag ==> |d.obstacles| == |c.obstacles| - 1) &&
      (x !in c.flock && other.tag == selfTag ==> d == c) &&
      (x !in c.obstacles && other.tag != selfTag ==> d == c) &&
      (x in c.flock && other.tag == selfTag ==>
        exists i :: 0 <= i < |c.flock| && c.flock[i] == x && x !in c.flock[..i] &&
          d.flock == c.flock[..i] + c.flock[i + 1..]) &&
      (x in c.obstacles && other.tag != selfTag ==>
        exists i :: 0 <= i < |c.obstacles| && c.obstacles[i] == x && x !in c.obstacles[..i] &&
          d.obstacles == c.obstacles[..i] + c.obstacles[i + 1..])
  {}

  /** An enter followed by an exit of the same collider (same tag both
      times) gives back the same multisets; when the handle was not in the
      chosen list before, it gives back the lists exactly. */
  lemma EnterExitRoundTrip(c: Contacts, selfTag: Tag, other: Collider)
    ensures var d := Exit(Enter(c, selfTag, other), selfTag, other);
      multiset(d.flock) == multiset(c.flock) &&
      multiset(d.obstacles) == multiset(c.obstacles)
    ensures other.tag == selfTag && other.transform !in c.flock ==>
      Exit(Enter(c, selfTag, other), selfTag, other) == c
    ensures other.tag != selfTag && other.transform !in c.obstacles ==>
      Exit(Enter(c, selfTag, other), selfTag, other) == c
  {
    AppendThenRemoveFirst(c.flock, other.transform);
    AppendThenRemoveFirst(c.obstacles, other.transform);
  }

  /** Every flock entry carries the boid's tag and no obstacle does, given
      the tag of each handle. */
  ghost predicate Classified(c: Contacts, selfTag: Tag, tagOf: Id -> Tag) {
    (forall id :: id in c.flock ==> tagOf(id) == selfTag) &&
    (forall id :: id in c.obstacles ==> tagOf(id) != selfTag)
  }

  /** While the lists are classified, no handle is in both. */
  lemma ClassifiedDisjoint(c: Contacts, selfTag: Tag, tagOf: Id -> Tag)
    requires Classified(c, selfTag, tagOf)
    ensures forall id :: id in c.flock ==> id !in c.obstacles
  {}

  /** When colliders report the tag of their object, entering and exiting
      keep the lists classified. */
  lemma CallbacksKeepClassified(c: Contacts, selfTag: Tag, tagOf: Id -> Tag, other: Collider)
    requires Classified(c, selfTag, tagOf)
    requires other.tag == tagOf(other.transform)
    ensures Classified(Enter(c, selfTag, other), selfTag, tagOf)
    ensures Classified(Exit(c, selfTag, other), selfTag, tagOf)
  {
    RemoveFirstKeeps(c.flock, other.transform);
    RemoveFirstKeeps(c.obstacles, other.transform);
  }
}
