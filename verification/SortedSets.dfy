/** A set of numbers as an increasing list. */
module SortedSets {
  predicate StrictlySorted(ids: seq<nat>) {
    forall i, j | 0 <= i < j < |ids| :: ids[i] < ids[j]
  }

  ghost predicate IsLeast(ids: set<nat>, m: nat) {
    m in ids && forall id | id in ids :: m <= id
  }

  function SortedIds(ids: set<nat>): (r: seq<nat>)
    ensures StrictlySorted(r) && forall id :: id in r <==> id in ids
    decreases |ids|
  {
    if ids == {} then []
    else
      HasLeast(ids);
      var least :| least in ids && forall id | id in ids :: least <= id;
      var rest := SortedIds(ids - {least});
      LeastFirst(least, rest);
      [least] + rest
  }

  lemma LeastFirst(least: nat, rest: seq<nat>)
    requires StrictlySorted(rest) && forall id | id in rest :: least <= id && id != least
    ensures StrictlySorted([least] + rest)
    ensures forall id :: id in [least] + rest <==> id == least || id in rest
  {
    var all := [least] + rest;
    assert forall i | 0 < i < |all| :: all[i] == rest[i - 1] && all[i] in rest;
  }

  lemma {:induction false} HasLeast(ids: set<nat>)
    requires ids != {}
    ensures exists least :: IsLeast(ids, least)
    decreases |ids|
  {
    var some :| some in ids;
    var rest := ids - {some};
    if rest == {} {
      assert ids == {some} + rest == {some};
      assert IsLeast(ids, some);
    } else {
      HasLeast(rest);
      var least :| IsLeast(rest, least);
      LeastOfMore(ids, some, least);
    }
  }

  lemma LeastOfMore(ids: set<nat>, some: nat, least: nat)
    requires some in ids && IsLeast(ids - {some}, least)
    ensures IsLeast(ids, if some < least then some else least)
  {
    forall id | id in ids ensures (if some < least then some else least) <= id {
      if id != some { assert id in ids - {some}; }
    }
  }
}
