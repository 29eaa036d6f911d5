/**
 * The profile summaries (js/profile.js, class `ProfileManager`): the XP panel with its total,
 * transaction count, last date and average, each amount shown in B, kB or MB; the skills
 * panel with the five largest skills; and the pass/fail tally of project results.
 *
 * The gateway's answers arrive as parameters of the load methods (`Err` for a request that
 * throws), and each panel's markup is reduced to the values it shows.
 */
module Profile {
  import opened Wrappers
  import opened JsMath
  import opened Transactions
  import opened SkillRanking

  // ---------------------------------------------------------------- units

  /** The three units an XP amount is shown in. */
  datatype Unit = B | KB | MB

  /** How an amount is shown: the unit, what the amount is divided by, and the number of decimals
      `toFixed` keeps (none for plain bytes, which are shown as they are). */
  datatype UnitChoice = UnitChoice(unit: Unit, divisor: nat, decimals: nat)

  /** `formatXPWithUnits`: MB with two decimals from 1,000,000 up, kB with one decimal from 1,000
      up, plain B below. */
  function FormatXPWithUnits(xp: int): (c: UnitChoice)
    ensures c.unit == MB <==> xp >= 1000000
    ensures c.unit == KB <==> 1000 <= xp < 1000000
    ensures c.unit == B <==> xp < 1000
    ensures c.unit == MB ==> c.divisor == 1000000 && c.decimals == 2
    ensures c.unit == KB ==> c.divisor == 1000 && c.decimals == 1
    ensures c.unit == B ==> c.divisor == 1 && c.decimals == 0
  {
    if xp >= 1000000 then UnitChoice(MB, 1000000, 2)
    else if xp >= 1000 then UnitChoice(KB, 1000, 1)
    else UnitChoice(B, 1, 0)
  }

  /** The number shown before the unit, before `toFixed` rounds it. */
  function Scaled(xp: int): real
  {
    xp as real / FormatXPWithUnits(xp).divisor as real
  }

  /** A larger unit is chosen only when the amount reaches one of it, and a smaller one only when
      the amount stays below a thousand of it: the quotient handed to `toFixed` is at least 1 for
      kB and MB, and below 1000 for B and kB (the one-decimal text of a kB quotient just below
      1000 can still read "1000.0"). */
  lemma ScaledInRange(xp: int)
    ensures FormatXPWithUnits(xp).unit != B ==> Scaled(xp) >= 1.0
    ensures FormatXPWithUnits(xp).unit != MB ==> Scaled(xp) < 1000.0
  {
    var d := FormatXPWithUnits(xp).divisor as real;
    assert d > 0.0;
    if FormatXPWithUnits(xp).unit != B {
      assert xp as real >= d;
      Quotient(xp as real, d, xp as real / d);
      assert (xp as real / d) * d == xp as real;
    }
    if FormatXPWithUnits(xp).unit != MB {
      assert xp as real < 1000.0 * d;
      assert (xp as real / d) * d == xp as real;
    }
  }

  /** The order of the units, smallest first. */
  function Rank(u: Unit): nat
  {
    match u
    case B => 0
    case KB => 1
    case MB => 2
  }

  /** A larger amount is never shown in a smaller unit. */
  lemma UnitMonotone(x: int, y: int)
    requires x <= y
    ensures Rank(FormatXPWithUnits(x).unit) <= Rank(FormatXPWithUnits(y).unit)
  {
  }

  // ---------------------------------------------------------------- XP totals

  /** The `forEach` that adds up the amounts of the XP transactions. */
  method TotalXP(txs: seq<Transaction>) returns (total: int)
    ensures total == Sum(txs)
  {
    total := 0;
    var i := 0;
    while i < |txs|
      invariant 0 <= i <= |txs|
      invariant total == Sum(txs[..i])
    {
      SumStep(txs, i);
      total := total + txs[i].amount;
      i := i + 1;
    }
    assert txs[..|txs|] == txs;
  }

  /** The average amount per transaction: 0 when there are none, otherwise `Math.round` of the
      quotient. */
  function AverageXP(total: int, count: nat): (avg: int)
    ensures count == 0 ==> avg == 0
    ensures count > 0 ==> avg as real - 0.5 <= total as real / count as real < avg as real + 0.5
  {
    if count == 0 then 0 else Round(total as real / count as real)
  }

  /** Transactions that all carry the same amount add up to that amount per transaction. */
  lemma {:induction false} SumOfConstant(txs: seq<Transaction>, a: int)
    requires forall k :: 0 <= k < |txs| ==> txs[k].amount == a
    ensures Sum(txs) == |txs| * a
  {
    if txs != [] {
      SumOfConstant(txs[..|txs| - 1], a);
    }
  }

  /** The average of transactions that all carry the same amount is that amount. */
  lemma AverageOfConstant(txs: seq<Transaction>, a: int)
    requires |txs| > 0
    requires forall k :: 0 <= k < |txs| ==> txs[k].amount == a
    ensures AverageXP(Sum(txs), |txs|) == a
  {
    SumOfConstant(txs, a);
    var n := |txs| as real;
    assert (|txs| * a) as real == n * a as real;
    Quotient(Sum(txs) as real, n, a as real);
  }

  /** The average of non-negative amounts lies between 0 and the total. */
  lemma AverageBounds(total: int, count: nat)
    requires total >= 0 && count > 0
    ensures 0 <= AverageXP(total, count) <= total
  {
    var q := total as real / count as real;
    assert q * count as real == total as real;
    assert count as real >= 1.0;
    assert q <= q * count as real;
  }

  // ---------------------------------------------------------------- skills response

  /** The `transactions_aggregate` of a user, whose `nodes` may be missing. */
  datatype Aggregate = Aggregate(nodes: Option<seq<SkillNode>>)

  /** One user of the skills answer, whose aggregate may be missing. */
  datatype SkillsUser = SkillsUser(aggregate: Option<Aggregate>)

  /** The skills answer: a `user` list that may be missing. */
  datatype SkillsResponse = SkillsResponse(user: Option<seq<SkillsUser>>)

  /** The skill nodes of the first user, or the empty list when any step of the path to them is
      missing. */
  function ExtractSkills(r: SkillsResponse): (nodes: seq<SkillNode>)
    ensures
      && r.user.Some? && |r.user.value| > 0
      && r.user.value[0].aggregate.Some?
      && r.user.value[0].aggregate.value.nodes.Some?
      ==> nodes == r.user.value[0].aggregate.value.nodes.value
    ensures nodes != [] ==>
      && r.user.Some? && |r.user.value| > 0
      && r.user.value[0].aggregate.Some?
      && r.user.value[0].aggregate.value.nodes == Some(nodes)
  {
    if r.user.Some? && |r.user.value| > 0 && r.user.value[0].aggregate.Some?
       && r.user.value[0].aggregate.value.nodes.Some?
    then r.user.value[0].aggregate.value.nodes.value
    else []
  }

  /** The processed skills, in the order of the nodes. */
  function ProcessAll(nodes: seq<SkillNode>): (ps: seq<ProcessedSkill>)
    ensures |ps| == |nodes|
    ensures forall k :: 0 <= k < |nodes| ==> ps[k] == ProcessSkill(nodes[k])
  {
    seq(|nodes|, k requires 0 <= k < |nodes| => ProcessSkill(nodes[k]))
  }

  // ---------------------------------------------------------------- project results

  /** The object a result belongs to, with its type (`project`, `exercise`, ...). */
  datatype ResultObject = ResultObject(objectType: string)

  /** One result: its object, which may be missing, and its grade, which may be null. */
  datatype ResultRow = ResultRow(obj: Option<ResultObject>, grade: Option<real>)

  /** The filter of `getProjectRatio`: the result has an object whose type is `project`; a
      result without an object is never a project. */
  predicate IsProject(r: ResultRow): (b: bool)
    ensures r.obj.None? ==> !b
  {
    r.obj.Some? && r.obj.value.objectType == "project"
  }

  /** `grade > 0`; a null grade is not greater than 0. */
  predicate Passed(r: ResultRow): (b: bool)
    ensures r.grade.None? ==> !b
  {
    r.grade.Some? && r.grade.value > 0.0
  }

  /** `grade === 0`; a null grade is not 0, and a failed result has not passed. */
  predicate Failed(r: ResultRow): (b: bool)
    ensures r.grade.None? ==> !b
    ensures b ==> !Passed(r)
  {
    r.grade.Some? && r.grade.value == 0.0
  }

  /** The project results, in their input order: each project result is kept as often as it
      occurs, and nothing else is kept. */
  function Projects(rs: seq<ResultRow>): (ps: seq<ResultRow>)
    ensures |ps| <= |rs|
    ensures forall r :: multiset(ps)[r] == if IsProject(r) then multiset(rs)[r] else 0
  {
    if rs == [] then []
    else
      assert rs == [rs[0]] + rs[1..];
      (if IsProject(rs[0]) then [rs[0]] else []) + Projects(rs[1..])
  }

  /** The number of passed results: none exactly when no result passed, all exactly when every
      result passed. */
  function CountPassed(rs: seq<ResultRow>): (c: nat)
    ensures c <= |rs|
    ensures c == 0 <==> forall k :: 0 <= k < |rs| ==> !Passed(rs[k])
    ensures c == |rs| <==> forall k :: 0 <= k < |rs| ==> Passed(rs[k])
  {
    if rs == [] then 0
    else
      assert forall k :: 1 <= k < |rs| ==> rs[k] == rs[1..][k - 1];
      (if Passed(rs[0]) then 1 else 0) + CountPassed(rs[1..])
  }

  /** The number of failed results: none exactly when no result failed, all exactly when every
      result failed. */
  function CountFailed(rs: seq<ResultRow>): (c: nat)
    ensures c <= |rs|
    ensures c == 0 <==> forall k :: 0 <= k < |rs| ==> !Failed(rs[k])
    ensures c == |rs| <==> forall k :: 0 <= k < |rs| ==> Failed(rs[k])
  {
    if rs == [] then 0
    else
      assert forall k :: 1 <= k < |rs| ==> rs[k] == rs[1..][k - 1];
      (if Failed(rs[0]) then 1 else 0) + CountFailed(rs[1..])
  }

  /** Counting is additive: the passed results of two lists laid end to end are those of the
      first plus those of the second, so each passed row adds exactly one to the count. */
  lemma {:induction false} CountPassedAppend(a: seq<ResultRow>, b: seq<ResultRow>)
    ensures CountPassed(a + b) == CountPassed(a) + CountPassed(b)
  {
    if a == [] {
      assert a + b == b;
    } else {
      assert (a + b)[1..] == a[1..] + b;
      CountPassedAppend(a[1..], b);
    }
  }

  /** The failed results of two lists laid end to end are those of the first plus those of the
      second. */
  lemma {:induction false} CountFailedAppend(a: seq<ResultRow>, b: seq<ResultRow>)
    ensures CountFailed(a + b) == CountFailed(a) + CountFailed(b)
  {
    if a == [] {
      assert a + b == b;
    } else {
      assert (a + b)[1..] == a[1..] + b;
      CountFailedAppend(a[1..], b);
    }
  }

  /** No result counts both as passed and as failed, so the tally never exceeds the number of
      results; it reaches it exactly when every result has a non-negative grade. */
  lemma {:induction false} TallyBound(rs: seq<ResultRow>)
    ensures CountPassed(rs) + CountFailed(rs) <= |rs|
    ensures CountPassed(rs) + CountFailed(rs) == |rs| <==>
      forall k :: 0 <= k < |rs| ==> rs[k].grade.Some? && rs[k].grade.value >= 0.0
  {
    if rs != [] {
      TallyBound(rs[1..]);
      assert forall k :: 1 <= k < |rs| ==> rs[k] == rs[1..][k - 1];
    }
  }

  /** What `getProjectRatio` returns; `total` is absent when no results are loaded. */
  datatype ProjectRatio = ProjectRatio(pass: nat, fail: nat, total: Option<nat>)

  // ---------------------------------------------------------------- panels

  /** What the XP panel shows. */
  datatype XpPanel =
    | XpBlank
    | XpSummary(total: int, totalUnit: UnitChoice, count: nat, lastDate: Option<int>,
                average: int, averageUnit: UnitChoice)
    | XpLoadError

  /** What the skills panel shows. */
  datatype SkillsPanel =
    | SkillsBlank
    | NoSkills
    | TopSkillRows(rows: seq<ProcessedSkill>)
    | SkillsLoadError

  /** The profile's data and the two panels it renders into. */
  class ProfileManager {
    var xpData: Option<seq<Transaction>>
    var resultsData: Option<seq<ResultRow>>
    var skillsData: Option<seq<SkillNode>>
    var xpInfo: XpPanel
    var progressInfo: SkillsPanel

    constructor ()
      ensures xpData == None && resultsData == None && skillsData == None
      ensures xpInfo == XpBlank && progressInfo == SkillsBlank
    {
      xpData := None;
      resultsData := None;
      skillsData := None;
      xpInfo := XpBlank;
      progressInfo := SkillsBlank;
    }

    /** `renderXPInfo`: nothing happens without XP data; otherwise the panel shows the total,
        the count, the date of the last transaction and the average, each with its unit. */
    method RenderXPInfo()
      modifies this`xpInfo
      ensures xpData.None? ==> xpInfo == old(xpInfo)
      ensures xpData.Some? ==>
        var txs := xpData.value;
        var avg := AverageXP(Sum(txs), |txs|);
        && xpInfo.XpSummary?
        && xpInfo.total == Sum(txs)
        && xpInfo.totalUnit == FormatXPWithUnits(Sum(txs))
        && xpInfo.count == |txs|
        && (txs == [] <==> xpInfo.lastDate.None?)
        && (txs != [] ==> xpInfo.lastDate == Some(txs[|txs| - 1].createdAt))
        && xpInfo.average == avg
        && xpInfo.averageUnit == FormatXPWithUnits(avg)
    {
      if xpData.None? {
        return;
      }
      var txs := xpData.value;
      var total := TotalXP(txs);
      var lastDate := if |txs| > 0 then Some(txs[|txs| - 1].createdAt) else None;
      var avg := AverageXP(total, |txs|);
      xpInfo := XpSummary(total, FormatXPWithUnits(total), |txs|, lastDate, avg, FormatXPWithUnits(avg));
    }

    /** `loadXPData`: keeps the answer's transaction list and renders it; a failed request leaves
        the data as it was and puts the error row in the panel. */
    method LoadXPData(answer: Result<Option<seq<Transaction>>>)
      modifies this`xpData, this`xpInfo
      ensures answer.Err? ==> xpData == old(xpData) && xpInfo == XpLoadError
      ensures answer.Ok? ==> xpData == answer.value
      ensures answer.Ok? && answer.value.None? ==> xpInfo == old(xpInfo)
      ensures answer.Ok? && answer.value.Some? ==>
        var txs := answer.value.value;
        var avg := AverageXP(Sum(txs), |txs|);
        && xpInfo.XpSummary?
        && xpInfo.total == Sum(txs)
        && xpInfo.totalUnit == FormatXPWithUnits(Sum(txs))
        && xpInfo.count == |txs|
        && (txs == [] <==> xpInfo.lastDate.None?)
        && (txs != [] ==> xpInfo.lastDate == Some(txs[|txs| - 1].createdAt))
        && xpInfo.average == avg
        && xpInfo.averageUnit == FormatXPWithUnits(avg)
    {
      if answer.Err? {
        xpInfo := XpLoadError;
        return;
      }
      xpData := answer.value;
      RenderXPInfo();
    }

    /** `loadResultsData`: keeps the answer's result list; a failed request changes nothing. */
    method LoadResultsData(answer: Result<Option<seq<ResultRow>>>)
      modifies this`resultsData
      ensures answer.Err? ==> resultsData == old(resultsData)
      ensures answer.Ok? ==> resultsData == answer.value
    {
      if answer.Ok? {
        resultsData := answer.value;
      }
    }

    /** `renderSkillsInfo`: with no skills the panel says so; otherwise it shows the processed
        skills sorted by amount, largest first and ties in input order, cut to five. */
    method RenderSkillsInfo()
      modifies this`progressInfo
      ensures skillsData.None? || skillsData.value == [] ==> progressInfo == NoSkills
      ensures skillsData.Some? && skillsData.value != [] ==>
        progressInfo == TopSkillRows(TopSkills(SortByAmount(ProcessAll(skillsData.value))))
    {
      if skillsData.None? || |skillsData.value| == 0 {
        progressInfo := NoSkills;
        return;
      }
      var processed := ProcessAll(skillsData.value);
      var a := new ProcessedSkill[|processed|](k requires 0 <= k < |processed| => processed[k]);
      assert a[..] == processed;
      SortInPlace(a);
      progressInfo := TopSkillRows(TopSkills(a[..]));
    }

    /** `loadSkillsData`: takes the first user's skill nodes, or the empty list when the path to
        them is missing, and renders them; a failed request leaves the data as it was and puts
        the error row in the panel. */
    method LoadSkillsData(answer: Result<SkillsResponse>)
      modifies this`skillsData, this`progressInfo
      ensures answer.Err? ==> skillsData == old(skillsData) && progressInfo == SkillsLoadError
      ensures answer.Ok? ==> skillsData == Some(ExtractSkills(answer.value))
      ensures answer.Ok? && ExtractSkills(answer.value) == [] ==> progressInfo == NoSkills
      ensures answer.Ok? && ExtractSkills(answer.value) != [] ==>
        progressInfo == TopSkillRows(TopSkills(SortByAmount(ProcessAll(ExtractSkills(answer.value)))))
    {
      if answer.Err? {
        progressInfo := SkillsLoadError;
        return;
      }
      skillsData := Some(ExtractSkills(answer.value));
      RenderSkillsInfo();
    }

    /** `getProjectRatio`: without results, pass and fail are 0 and there is no total; otherwise
        the passed and failed project results are counted, and the total is their sum. */
    function GetProjectRatio(): (r: ProjectRatio)
      reads this
      ensures resultsData.None? ==> r == ProjectRatio(0, 0, None)
      ensures resultsData.Some? ==>
        var ps := Projects(resultsData.value);
        && r.pass == CountPassed(ps)
        && r.fail == CountFailed(ps)
        && r.total == Some(r.pass + r.fail)
        && r.pass + r.fail <= |ps|
    {
      if resultsData.None? then ProjectRatio(0, 0, None)
      else
        var ps := Projects(resultsData.value);
        TallyBound(ps);
        ProjectRatio(CountPassed(ps), CountFailed(ps), Some(CountPassed(ps) + CountFailed(ps)))
    }
  }
}
