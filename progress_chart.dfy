/**
 * The completion chart: how many objectives and subtasks there are, how many are
 * done, and the rounded completion percentage.
 */
module ProgressChart {
  import opened Wrappers
  import opened GoalManager

  /** One slice of the pie chart. */
  datatype ChartEntry = ChartEntry(name: string, value: int)

  /** `subTasks.filter((st) => st.isDone).length`. */
  function DoneCount(subTasks: seq<SubTask>): (n: nat)
    ensures n <= |subTasks|
    ensures n == |subTasks| <==> AllDone(subTasks)
  {
    if subTasks == [] then 0
    else
      var init := subTasks[..|subTasks| - 1];
      assert forall j :: 0 <= j < |init| ==> init[j] == subTasks[j];
      DoneCount(init) + (if subTasks[|subTasks| - 1].isDone then 1 else 0)
  }

  /** Objectives and subtasks together: every one is a unit of work. */
  function TotalTasks(objectives: seq<Objective>): nat {
    if objectives == [] then 0
    else
      var last := objectives[|objectives| - 1];
      TotalTasks(objectives[..|objectives| - 1]) + 1 + |last.subTasks|
  }

  /** The units of work that are done. */
  function CompletedTasks(objectives: seq<Objective>): nat {
    if objectives == [] then 0
    else
      var last := objectives[|objectives| - 1];
      CompletedTasks(objectives[..|objectives| - 1]) + (if last.isDone then 1 else 0) + DoneCount(last.subTasks)
  }

  /** Every objective and every subtask is done. */
  predicate Finished(objectives: seq<Objective>) {
    forall i :: 0 <= i < |objectives| ==> objectives[i].isDone && AllDone(objectives[i].subTasks)
  }

  /** There is at least one unit per objective, and none without objectives. */
  lemma {:induction false} TotalCountsObjectives(objectives: seq<Objective>)
    ensures TotalTasks(objectives) >= |objectives|
    ensures TotalTasks(objectives) == 0 <==> objectives == []
  {
    if objectives != [] {
      TotalCountsObjectives(objectives[..|objectives| - 1]);
    }
  }

  /** The completed units never exceed the total, so the pending slice is never negative;
    * they reach it exactly when everything is done. */
  lemma {:induction false} CompletedWithinTotal(objectives: seq<Objective>)
    ensures CompletedTasks(objectives) <= TotalTasks(objectives)
    ensures CompletedTasks(objectives) == TotalTasks(objectives) <==> Finished(objectives)
  {
    if objectives != [] {
      var init := objectives[..|objectives| - 1];
      var last := objectives[|objectives| - 1];
      CompletedWithinTotal(init);
      assert forall i :: 0 <= i < |init| ==> init[i] == objectives[i];
      if Finished(objectives) {
        assert Finished(init);
      }
    }
  }

  /** `Math.round(completed / total * 100)` in exact arithmetic, and 0 without any units. */
  function CompletionRate(completed: int, total: int): (rate: int)
    ensures total <= 0 ==> rate == 0
    ensures total > 0 ==> 2 * total * rate - total <= 200 * completed < 2 * total * rate + total
  {
    if total > 0 then
      var rate := (200 * completed + total) / (2 * total);
      RoundedQuotient(200 * completed + total, 2 * total);
      rate
    else 0
  }

  lemma RoundedQuotient(a: int, b: int)
    requires b > 0
    ensures b * (a / b) <= a < b * (a / b) + b
  {
  }

  /** Multiplying by a positive factor keeps the order of two integers. */
  lemma MulMonotone(t: int, x: int, y: int)
    requires t > 0
    ensures x <= y <==> t * x <= t * y
  {
    assert t * y - t * x == t * (y - x);
  }

  /** The rate is a percentage, 100 when everything is done and 0 when nothing is. */
  lemma RateIsPercentage(completed: int, total: int)
    requires 0 <= completed <= total
    ensures 0 <= CompletionRate(completed, total) <= 100
    ensures total > 0 && completed == total ==> CompletionRate(completed, total) == 100
    ensures completed == 0 ==> CompletionRate(completed, total) == 0
  {
    var r := CompletionRate(completed, total);
    if total > 0 {
      // 2tr - t <= 200c <= 200t, so t(2r) <= t * 201 and r <= 100
      MulMonotone(total, 2 * r, 201);
      // 0 <= 200c < 2tr + t, so t * (-1) < t(2r) and r >= 0
      MulMonotone(total, 2 * r, -1);
      // with c == t: 200t < 2tr + t, so t * 199 < t(2r) and r >= 100
      MulMonotone(total, 2 * r, 199);
      // with c == 0: 2tr - t <= 0, so t(2r) <= t and r <= 0
      MulMonotone(total, 2 * r, 1);
    }
  }

  /** Below 200 units an unfinished list never shows 100%. */
  lemma RateBelowHundredWhileUnfinished(completed: int, total: int)
    requires 0 <= completed < total < 200
    ensures CompletionRate(completed, total) < 100
  {
    var r := CompletionRate(completed, total);
    // 2tr - t <= 200c <= 200t - 200 < 199t, so t(2r) < t * 200 and r < 100
    assert 200 * completed <= 200 * total - 200;
    MulMonotone(total, 200, 2 * r);
  }

  /** From 200 units on, rounding can show 100% with work still pending: 199 of 200 is 99.5%. */
  lemma RateRoundsUpToHundred()
    ensures CompletionRate(199, 200) == 100
  {
  }

  /** `calculateProgress`: count the units and the completed ones, then derive the chart. */
  method CalculateProgress(objectives: seq<Objective>) returns (chartData: seq<ChartEntry>, completionRate: int)
    ensures chartData == [ChartEntry("Completed", CompletedTasks(objectives)),
                          ChartEntry("Pending", TotalTasks(objectives) - CompletedTasks(objectives))]
    ensures chartData[1].value >= 0
    ensures completionRate == CompletionRate(CompletedTasks(objectives), TotalTasks(objectives))
    ensures 0 <= completionRate <= 100
    ensures completionRate == 100 <== objectives != [] && Finished(objectives)
  {
    var completedTasks := 0;
    var totalTasks := 0;
    var i := 0;
    while i < |objectives|
      invariant 0 <= i <= |objectives|
      invariant totalTasks == TotalTasks(objectives[..i])
      invariant completedTasks == CompletedTasks(objectives[..i])
    {
      var obj := objectives[i];
      totalTasks := totalTasks + 1;
      if obj.isDone {
        completedTasks := completedTasks + 1;
      }
      if |obj.subTasks| > 0 {
        totalTasks := totalTasks + |obj.subTasks|;
        completedTasks := completedTasks + DoneCount(obj.subTasks);
      }
      assert objectives[..i + 1][..i] == objectives[..i];
      i := i + 1;
    }
    assert objectives[..i] == objectives;
    CompletedWithinTotal(objectives);
    TotalCountsObjectives(objectives);
    RateIsPercentage(completedTasks, totalTasks);
    chartData := [ChartEntry("Completed", completedTasks), ChartEntry("Pending", totalTasks - completedTasks)];
    completionRate := if totalTasks > 0 then (200 * completedTasks + totalTasks) / (2 * totalTasks) else 0;
  }

  /** `fetchObjectives`: with no stored list the chart is empty and the rate 0; a stored
    * list, even an empty one, is counted. */
  method FetchObjectives(stored: Option<seq<Objective>>) returns (chartData: seq<ChartEntry>, completionRate: int)
    ensures stored.None? ==> chartData == [] && completionRate == 0
    ensures stored.Some? ==>
      && chartData == [ChartEntry("Completed", CompletedTasks(stored.value)),
                       ChartEntry("Pending", TotalTasks(stored.value) - CompletedTasks(stored.value))]
      && completionRate == CompletionRate(CompletedTasks(stored.value), TotalTasks(stored.value))
    ensures 0 <= completionRate <= 100
  {
    if stored.Some? {
      chartData, completionRate := CalculateProgress(stored.value);
    } else {
      chartData, completionRate := [], 0;
    }
  }
}
