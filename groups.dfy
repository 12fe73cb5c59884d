/**
 * Group extraction of the skill chart: `[...new Set(skills.map(s => s.group))]`
 * (the distinct groups in first-occurrence order) and `groupNames.indexOf(g)`.
 */
module Groups {
  import opened Records

  /** `Array.prototype.indexOf`: the first position of `x` in `s`, or -1. */
  function IndexOf(s: seq<string>, x: string): (k: int)
    ensures k == -1 <==> x !in s
    ensures k >= 0 ==> k < |s| && s[k] == x && forall j :: 0 <= j < k ==> s[j] != x
  {
    if |s| == 0 then -1
    else if s[0] == x then 0
    else
      var k := IndexOf(s[1..], x);
      if k < 0 then -1 else k + 1
  }

  /**
   * The elements of `s` without repeats, in the order of their first
   * occurrence: what spreading a `Set` built from `s` yields, since a `Set`
   * iterates in insertion order and ignores re-insertions.
   */
  function Distinct(s: seq<string>): (r: seq<string>)
    ensures forall x :: x in r <==> x in s
    ensures forall i, j :: 0 <= i < j < |r| ==> r[i] != r[j]
    ensures |r| <= |s|
  {
    if |s| == 0 then []
    else
      var d := Distinct(s[..|s| - 1]);
      assert forall x :: x in s <==> x in s[..|s| - 1] || x == s[|s| - 1];
      if s[|s| - 1] in d then d else d + [s[|s| - 1]]
  }

  /** Extending a sequence does not move the first occurrence of an element already present. */
  lemma {:induction false} IndexOfExtend(s: seq<string>, y: string, x: string)
    requires x in s
    ensures IndexOf(s + [y], x) == IndexOf(s, x)
  {
    if s[0] != x {
      assert (s + [y])[1..] == s[1..] + [y];
      IndexOfExtend(s[1..], y, x);
    }
  }

  /** `r` lists its elements in the order in which they first occur in `s`. */
  predicate InFirstOccurrenceOrder(s: seq<string>, r: seq<string>)
  {
    forall i, j :: 0 <= i < j < |r| ==> IndexOf(s, r[i]) < IndexOf(s, r[j])
  }

  lemma IndexOfLast(p: seq<string>, y: string)
    requires y !in p
    ensures IndexOf(p + [y], y) == |p|
  {
    var s := p + [y];
    assert s[|p|] == y;
    assert forall j :: 0 <= j < |p| ==> s[j] == p[j];
  }

  /** `Distinct` lists the groups in the order in which they first appear. */
  lemma {:induction false} DistinctFirstOccurrenceOrder(s: seq<string>)
    ensures InFirstOccurrenceOrder(s, Distinct(s))
  {
    if |s| > 0 {
      var p := s[..|s| - 1];
      var y := s[|s| - 1];
      assert s == p + [y];
      DistinctFirstOccurrenceOrder(p);
      var d := Distinct(p);
      assert Distinct(s) == if y in d then d else d + [y];
      forall i | 0 <= i < |d| ensures IndexOf(s, d[i]) == IndexOf(p, d[i]) < |p| {
        assert d[i] in p;
        IndexOfExtend(p, y, d[i]);
      }
      if y !in d {
        IndexOfLast(p, y);
        var r := d + [y];
        forall i, j | 0 <= i < j < |r| ensures IndexOf(s, r[i]) < IndexOf(s, r[j]) {
          if j < |d| {
            assert r[i] == d[i] && r[j] == d[j];
          } else {
            assert r[i] == d[i] && r[j] == y;
          }
        }
      }
    }
  }

  /** The skills' groups, in record order (`skills.map(s => s.group)`). */
  function GroupsOf(skills: seq<Skill>): (gs: seq<string>)
    ensures |gs| == |skills| && forall i :: 0 <= i < |skills| ==> gs[i] == skills[i].group
  {
    seq(|skills|, i requires 0 <= i < |skills| => skills[i].group)
  }

  /** `groupNames`: the distinct groups of the skills, in first-occurrence order. */
  function GroupNames(skills: seq<Skill>): seq<string>
  {
    Distinct(GroupsOf(skills))
  }

  /**
   * Every skill's group is among the group names, so its `indexOf` is a real
   * band index: never -1, always below the number of groups, and naming the
   * skill's own group. A non-empty skill list has at least one group.
   */
  lemma GroupIndexInRange(skills: seq<Skill>, i: int)
    requires 0 <= i < |skills|
    ensures var names := GroupNames(skills);
      var k := IndexOf(names, skills[i].group);
      1 <= |names| <= |skills| && 0 <= k < |names| && names[k] == skills[i].group
  {
    assert GroupsOf(skills)[i] == skills[i].group;
  }
}
