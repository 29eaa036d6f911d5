/**
 * The skills panel of the profile (js/profile.js, `renderSkillsInfo`): each skill type loses a
 * leading `skill_` and gets its first letter capitalised, the skills are sorted by amount,
 * largest first, with a stable sort, and the first five are shown.
 */
module SkillRanking {

  /** One node of the skills aggregate: a skill type such as `skill_algo` and its amount. */
  datatype SkillNode = SkillNode(skillType: string, amount: int)

  /** A skill ready for display: its processed name, its amount and its original type. */
  datatype ProcessedSkill = ProcessedSkill(name: string, amount: int, originalType: string)

  /** The prefix the platform puts in front of skill types. */
  const SkillPrefix: string := "skill_"

  /** The number of skills the panel shows. */
  const MaxShown: nat := 5

  /** `toUpperCase` on one character: lower-case ASCII letters become upper-case, every other
      character is kept. */
  function UpperCase(c: char): (u: char)
    ensures !('a' <= u <= 'z')
    ensures 'a' <= c <= 'z' ==> 'A' <= u <= 'Z' && u as int - 'A' as int == c as int - 'a' as int
    ensures !('a' <= c <= 'z') ==> u == c
  {
    if 'a' <= c <= 'z' then (c as int - 32) as char else c
  }

  /** The display name of a skill type: without its leading `skill_`, if it has one, and with its
      first character upper-cased. The rest of the name is the type's own tail, unchanged. */
  function SkillName(skillType: string): (name: string)
    ensures |name| == if SkillPrefix <= skillType then |skillType| - |SkillPrefix| else |skillType|
    ensures |name| > 0 ==>
      && name[0] == UpperCase(skillType[|skillType| - |name|])
      && name[1..] == skillType[|skillType| - |name| + 1..]
  {
    var base := if SkillPrefix <= skillType then skillType[|SkillPrefix|..] else skillType;
    if base == [] then [] else [UpperCase(base[0])] + base[1..]
  }

  /** A type `skill_x` is shown under the name of `x` capitalised, and a type without the prefix
      keeps all of its characters after the first. */
  lemma SkillNameStripsOnlyThePrefix(base: string)
    requires |base| > 0
    ensures SkillName(SkillPrefix + base) == [UpperCase(base[0])] + base[1..]
    ensures !(SkillPrefix <= base) ==> SkillName(base) == [UpperCase(base[0])] + base[1..]
  {
    assert SkillPrefix <= SkillPrefix + base;
    assert (SkillPrefix + base)[|SkillPrefix|..] == base;
  }

  /** The record the skill `map` of `renderSkillsInfo` builds from one node. */
  function ProcessSkill(node: SkillNode): (s: ProcessedSkill)
    ensures s.amount == node.amount && s.originalType == node.skillType
    ensures s.name == SkillName(node.skillType)
  {
    ProcessedSkill(SkillName(node.skillType), node.amount, node.skillType)
  }

  /** True when the amounts never increase along `s`. */
  ghost predicate SortedByAmount(s: seq<ProcessedSkill>)
  {
    forall i, j :: 0 <= i < j < |s| ==> s[i].amount >= s[j].amount
  }

  /** The skills of `s` whose amount is `v`, in the order of `s`. */
  function WithAmount(s: seq<ProcessedSkill>, v: int): seq<ProcessedSkill>
  {
    if s == [] then [] else (if s[0].amount == v then [s[0]] else []) + WithAmount(s[1..], v)
  }

  /** Places `x` after every leading skill whose amount is at least its own. */
  function InsertByAmount(x: ProcessedSkill, s: seq<ProcessedSkill>): (r: seq<ProcessedSkill>)
    ensures |r| == |s| + 1
  {
    if s == [] || s[0].amount < x.amount then [x] + s
    else [s[0]] + InsertByAmount(x, s[1..])
  }

  /** The order a stable sort with the comparator `b.amount - a.amount` produces: largest amount
      first, skills with equal amounts in their input order. */
  function SortByAmount(s: seq<ProcessedSkill>): (r: seq<ProcessedSkill>)
    ensures |r| == |s|
  {
    if s == [] then [] else InsertByAmount(s[|s| - 1], SortByAmount(s[..|s| - 1]))
  }

  lemma {:induction false} InsertMultiset(x: ProcessedSkill, s: seq<ProcessedSkill>)
    ensures multiset(InsertByAmount(x, s)) == multiset(s) + multiset{x}
  {
    if s == [] || s[0].amount < x.amount {
    } else {
      InsertMultiset(x, s[1..]);
      assert s == [s[0]] + s[1..];
    }
  }

  lemma {:induction false} InsertSorted(x: ProcessedSkill, s: seq<ProcessedSkill>)
    requires SortedByAmount(s)
    ensures SortedByAmount(InsertByAmount(x, s))
  {
    if s == [] || s[0].amount < x.amount {
    } else {
      var rest := InsertByAmount(x, s[1..]);
      InsertSorted(x, s[1..]);
      InsertMultiset(x, s[1..]);
      forall k | 0 <= k < |rest| ensures s[0].amount >= rest[k].amount {
        assert rest[k] in multiset(rest);
        assert rest[k] == x || rest[k] in multiset(s[1..]);
      }
    }
  }

  lemma {:induction false} WithAmountAppend(a: seq<ProcessedSkill>, b: seq<ProcessedSkill>, v: int)
    ensures WithAmount(a + b, v) == WithAmount(a, v) + WithAmount(b, v)
  {
    if a == [] {
      assert a + b == b;
    } else {
      var head := if a[0].amount == v then [a[0]] else [];
      assert (a + b)[0] == a[0] && (a + b)[1..] == a[1..] + b;
      calc {
        WithAmount(a + b, v);
        head + WithAmount(a[1..] + b, v);
        { WithAmountAppend(a[1..], b, v); }
        head + (WithAmount(a[1..], v) + WithAmount(b, v));
        (head + WithAmount(a[1..], v)) + WithAmount(b, v);
        WithAmount(a, v) + WithAmount(b, v);
      }
    }
  }

  lemma {:induction false} NoneWithAmount(s: seq<ProcessedSkill>, v: int)
    requires forall k :: 0 <= k < |s| ==> s[k].amount < v
    ensures WithAmount(s, v) == []
  {
    if s != [] {
      NoneWithAmount(s[1..], v);
    }
  }

  lemma {:induction false} InsertWithAmount(x: ProcessedSkill, s: seq<ProcessedSkill>, v: int)
    requires SortedByAmount(s)
    ensures WithAmount(InsertByAmount(x, s), v)
      == WithAmount(s, v) + (if x.amount == v then [x] else [])
  {
    if s == [] {
    } else if s[0].amount < x.amount {
      assert ([x] + s)[1..] == s;
      if x.amount == v {
        NoneWithAmount(s, v);
      }
    } else {
      InsertWithAmount(x, s[1..], v);
      assert ([s[0]] + InsertByAmount(x, s[1..]))[1..] == InsertByAmount(x, s[1..]);
    }
  }

  lemma {:induction false} SortIsSorted(s: seq<ProcessedSkill>)
    ensures SortedByAmount(SortByAmount(s))
  {
    if s != [] {
      SortIsSorted(s[..|s| - 1]);
      InsertSorted(s[|s| - 1], SortByAmount(s[..|s| - 1]));
    }
  }

  lemma {:induction false} SortIsPermutation(s: seq<ProcessedSkill>)
    ensures multiset(SortByAmount(s)) == multiset(s)
  {
    if s != [] {
      var init, last := s[..|s| - 1], s[|s| - 1];
      assert s == init + [last];
      calc {
        multiset(SortByAmount(s));
        multiset(InsertByAmount(last, SortByAmount(init)));
        { InsertMultiset(last, SortByAmount(init)); }
        multiset(SortByAmount(init)) + multiset{last};
        { SortIsPermutation(init); }
        multiset(init) + multiset{last};
        multiset(s);
      }
    }
  }

  lemma {:induction false} SortIsStable(s: seq<ProcessedSkill>, v: int)
    ensures WithAmount(SortByAmount(s), v) == WithAmount(s, v)
  {
    if s != [] {
      var init, last := s[..|s| - 1], s[|s| - 1];
      SortIsStable(init, v);
      SortIsSorted(init);
      InsertWithAmount(last, SortByAmount(init), v);
      WithAmountAppend(init, [last], v);
      assert s == init + [last];
    }
  }

  /** The sort is right: amounts never increase, no skill is lost or added, and skills with the
      same amount keep their input order (the sort is stable). */
  lemma SortByAmountCorrect(s: seq<ProcessedSkill>)
    ensures SortedByAmount(SortByAmount(s))
    ensures multiset(SortByAmount(s)) == multiset(s)
    ensures forall v :: WithAmount(SortByAmount(s), v) == WithAmount(s, v)
  {
    SortIsSorted(s);
    SortIsPermutation(s);
    forall v ensures WithAmount(SortByAmount(s), v) == WithAmount(s, v) {
      SortIsStable(s, v);
    }
  }

  /** Inserting into a sorted list at the first position whose amount is below `x`'s. */
  lemma {:induction false} InsertAt(x: ProcessedSkill, p: seq<ProcessedSkill>, j: nat)
    requires j <= |p|
    requires forall m :: 0 <= m < j ==> p[m].amount >= x.amount
    requires forall m :: j <= m < |p| ==> p[m].amount < x.amount
    ensures InsertByAmount(x, p) == p[..j] + [x] + p[j..]
  {
    if j > 0 {
      InsertAt(x, p[1..], j - 1);
      assert p[..j] == [p[0]] + p[1..][..j - 1];
      assert p[j..] == p[1..][j - 1..];
    }
  }

  /** In a sorted list, every skill before position `j` has at least the amount of `x` when the
      skill just before `j` does. */
  lemma SortedPrefixAtLeast(p: seq<ProcessedSkill>, j: nat, x: ProcessedSkill)
    requires SortedByAmount(p) && j <= |p|
    requires j > 0 ==> p[j - 1].amount >= x.amount
    ensures forall m :: 0 <= m < j ==> p[m].amount >= x.amount
  {
    forall m | 0 <= m < j ensures p[m].amount >= x.amount {
      assert p[m].amount >= p[j - 1].amount;
    }
  }

  /** Filling the gap the shifting loop leaves at `j` with `x` gives the sorted insertion. */
  lemma InsertIntoGap(x: ProcessedSkill, p: seq<ProcessedSkill>, j: nat, shifted: seq<ProcessedSkill>)
    requires SortedByAmount(p) && j <= |p| && |shifted| == |p| + 1
    requires forall m :: 0 <= m < j ==> shifted[m] == p[m]
    requires forall m :: j < m <= |p| ==> shifted[m] == p[m - 1]
    requires forall m :: j <= m < |p| ==> p[m].amount < x.amount
    requires j > 0 ==> p[j - 1].amount >= x.amount
    ensures shifted[j := x] == InsertByAmount(x, p)
  {
    SortedPrefixAtLeast(p, j, x);
    InsertAt(x, p, j);
    var q := p[..j] + [x] + p[j..];
    forall m | 0 <= m <= |p| ensures shifted[j := x][m] == q[m] {
      if m < j {
        assert q[m] == p[m];
      } else if m > j {
        assert q[m] == p[m - 1];
      }
    }
  }

  /** The inner loop of one insertion step: shifts every skill just before `a[i]` whose amount is
      smaller than `a[i]`'s one place to the right, and returns the slot left free. */
  method ShiftSmaller(a: array<ProcessedSkill>, i: nat) returns (j: nat)
    requires i < a.Length
    modifies a
    ensures j <= i
    ensures forall m :: 0 <= m < j ==> a[m] == old(a[m])
    ensures forall m :: j < m <= i ==> a[m] == old(a[m - 1])
    ensures forall m :: i < m < a.Length ==> a[m] == old(a[m])
    ensures forall m :: j <= m < i ==> old(a[m]).amount < old(a[i]).amount
    ensures j > 0 ==> old(a[j - 1]).amount >= old(a[i]).amount
  {
    var x := a[i];
    j := i;
    while j > 0 && a[j - 1].amount < x.amount
      invariant 0 <= j <= i
      invariant forall m :: 0 <= m < j ==> a[m] == old(a[m])
      invariant forall m :: j < m <= i ==> a[m] == old(a[m - 1])
      invariant forall m :: i < m < a.Length ==> a[m] == old(a[m])
      invariant forall m :: j <= m < i ==> old(a[m]).amount < x.amount
      invariant x == old(a[i])
    {
      a[j] := a[j - 1];
      j := j - 1;
    }
  }

  /** One step of the in-place sort: moves `a[i]` back past every earlier skill with a smaller
      amount, into the sorted prefix `a[..i]`. */
  method InsertStep(a: array<ProcessedSkill>, i: nat)
    requires i < a.Length
    requires SortedByAmount(a[..i])
    modifies a
    ensures a[..i + 1] == InsertByAmount(old(a[i]), old(a[..i]))
    ensures forall m :: i < m < a.Length ==> a[m] == old(a[m])
  {
    ghost var p := a[..i];
    var x := a[i];
    var j := ShiftSmaller(a, i);
    ghost var shifted := a[..i + 1];
    InsertIntoGap(x, p, j, shifted);
    a[j] := x;
    assert a[..i + 1] == shifted[j := x];
  }

  /** `processedSkills.sort((a, b) => b.amount - a.amount)`: sorts the array in place into the
      stable largest-first order. */
  method SortInPlace(a: array<ProcessedSkill>)
    modifies a
    ensures a[..] == SortByAmount(old(a[..]))
  {
    ghost var input := a[..];
    var i := 0;
    while i < a.Length
      invariant 0 <= i <= a.Length
      invariant a[..i] == SortByAmount(input[..i])
      invariant forall m :: i <= m < a.Length ==> a[m] == input[m]
    {
      SortByAmountCorrect(input[..i]);
      InsertStep(a, i);
      assert input[..i + 1] == input[..i] + [input[i]];
      assert input[..i + 1][..i] == input[..i];
      i := i + 1;
    }
    assert a[..] == a[..a.Length];
    assert input == input[..a.Length];
  }

  /** `slice(0, 5)`: the first five skills, or all of them when there are fewer. */
  function TopSkills(sorted: seq<ProcessedSkill>): (top: seq<ProcessedSkill>)
    ensures |top| == if |sorted| < MaxShown then |sorted| else MaxShown
    ensures top == sorted[..|top|]
  {
    if |sorted| < MaxShown then sorted else sorted[..MaxShown]
  }

  /** The panel shows at most five of the input's skills, and none of the skills left out has a
      larger amount than any skill shown. */
  lemma TopSkillsAreLargest(s: seq<ProcessedSkill>)
    ensures var sorted := SortByAmount(s); var top := TopSkills(sorted);
      && multiset(top) <= multiset(s)
      && forall i, j :: 0 <= i < |top| <= j < |sorted| ==> top[i].amount >= sorted[j].amount
  {
    TopSkillsComeFromInput(s);
    TopSkillsOutrankTheRest(s);
  }

  /** The shown skills are some of the input's skills. */
  lemma TopSkillsComeFromInput(s: seq<ProcessedSkill>)
    ensures multiset(TopSkills(SortByAmount(s))) <= multiset(s)
  {
    var sorted := SortByAmount(s);
    var top := TopSkills(sorted);
    SortIsPermutation(s);
    assert sorted == top + sorted[|top|..];
    assert multiset(sorted) == multiset(top) + multiset(sorted[|top|..]);
  }

  /** No skill left out has a larger amount than a skill shown. */
  lemma TopSkillsOutrankTheRest(s: seq<ProcessedSkill>)
    ensures var sorted := SortByAmount(s); var top := TopSkills(sorted);
      forall i, j :: 0 <= i < |top| <= j < |sorted| ==> top[i].amount >= sorted[j].amount
  {
    var sorted := SortByAmount(s);
    var top := TopSkills(sorted);
    SortIsSorted(s);
    assert forall i :: 0 <= i < |top| ==> top[i] == sorted[i];
  }
}
