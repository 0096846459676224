/**
 * The task list of the popup: objectives with optional subtasks, a due date and a
 * priority. The list is passed in and the updated list returned (the component
 * stores it and persists it). Operations that build a new list by spreading,
 * mapping or filtering are functions; those that copy the array and then assign
 * into it are methods over a fresh array, proved equal to a specification
 * function on which the completion properties are proved.
 */
module GoalManager {
  import opened Wrappers
  import opened Text

  datatype Priority = Low | Medium | High

  datatype SubTask = SubTask(title: string, isDone: bool)

  datatype Objective = Objective(
    title: string,
    isDone: bool,
    subTasks: seq<SubTask>,
    dueDate: Option<string>,
    priority: Priority)

  /** One entry of the hour or minute picker: `n.toString().padStart(pad, '0')`. */
  function TimeOption(n: nat, pad: int): string {
    PadStart(DecimalString(n), pad, '0')
  }

  /** `generateTimeOptions(max, pad)`: the numbers below `max`, zero-padded to `pad` digits. */
  method GenerateTimeOptions(max: int, pad: int) returns (options: seq<string>)
    ensures |options| == if max > 0 then max else 0
    ensures forall i :: 0 <= i < |options| ==> options[i] == TimeOption(i, pad)
    ensures forall i :: 0 <= i < |options| ==> Denotes(options[i], i)
  {
    options := [];
    var i: nat := 0;
    while i < max
      invariant i == 0 || i <= max
      invariant |options| == i
      invariant forall k :: 0 <= k < i ==> options[k] == TimeOption(k, pad)
    {
      options := options + [TimeOption(i, pad)];
      i := i + 1;
    }
    OptionsReadBack(options, pad);
  }

  lemma OptionsReadBack(options: seq<string>, pad: int)
    requires forall k :: 0 <= k < |options| ==> options[k] == TimeOption(k, pad)
    ensures forall k :: 0 <= k < |options| ==> Denotes(options[k], k)
  {
    forall k | 0 <= k < |options| ensures Denotes(options[k], k) {
      TimeOptionReadsBack(k, pad);
    }
  }

  /** A zero-padded decimal still reads back as the number it came from. */
  lemma TimeOptionReadsBack(n: nat, pad: int)
    ensures Denotes(TimeOption(n, pad), n)
  {
    var d := DecimalString(n);
    DecimalRoundTrip(n);
    if pad > |d| {
      LeadingZerosValue(pad - |d|, d);
    }
  }

  /** With a width of two, numbers below 100 give exactly two digits, as the hour and minute pickers use. */
  lemma TwoDigitOption(n: nat)
    requires n < 100
    ensures |TimeOption(n, 2)| == 2
  {
    if n >= 10 {
      assert DecimalString(n) == DecimalString(n / 10) + [DigitChar(n % 10)];
    }
  }

  /** The due date a new objective gets from the date, hour and minute fields. */
  function DueDate(date: string, hour: string, minute: string): (r: Option<string>)
    ensures r.None? <==> date == ""
  {
    if date == "" then None
    else
      var h := if hour == "" then "00" else hour;
      var m := if minute == "" then "00" else minute;
      Some(date + "T" + h + ":" + m + ":00")
  }

  /** Reads a due date back into its date, hour and minute, given two-digit hour and minute. */
  function ParseDueDate(s: string): Option<(string, string, string)> {
    if |s| >= 10 && s[|s| - 9] == 'T' && s[|s| - 6] == ':' && s[|s| - 3..] == ":00" then
      Some((s[..|s| - 9], s[|s| - 8..|s| - 6], s[|s| - 5..|s| - 3]))
    else None
  }

  /** The date string built for a non-empty date and picker values (empty or two characters)
    * reads back as the date and the chosen or defaulted hour and minute. */
  lemma DueDateRoundTrip(date: string, hour: string, minute: string)
    requires date != ""
    requires |hour| == 0 || |hour| == 2
    requires |minute| == 0 || |minute| == 2
    ensures ParseDueDate(DueDate(date, hour, minute).value)
         == Some((date, if hour == "" then "00" else hour, if minute == "" then "00" else minute))
  {
    var h := if hour == "" then "00" else hour;
    var m := if minute == "" then "00" else minute;
    var s := date + "T" + h + ":" + m + ":00";
    assert |s| == |date| + 9;
    assert s[..|s| - 9] == date;
    assert s[|s| - 8..|s| - 6] == h;
    assert s[|s| - 5..|s| - 3] == m;
    assert s[|s| - 3..] == ":00";
  }

  /** `createObjective`: append a new open objective unless the title is blank. */
  function CreateObjective(objectives: seq<Objective>, title: string, date: string, hour: string,
                           minute: string, priority: Priority): (r: seq<Objective>)
    ensures IsBlank(title) ==> r == objectives
    ensures !IsBlank(title) ==>
      && |r| == |objectives| + 1
      && r[..|objectives|] == objectives
      && r[|objectives|] == Objective(title, false, [], DueDate(date, hour, minute), priority)
  {
    TrimEmptyIffBlank(title);
    if Trim(title) != "" then
      objectives + [Objective(title, false, [], DueDate(date, hour, minute), priority)]
    else objectives
  }

  /** `createSubTask(objIdx)`: append an open subtask to one objective unless the title is blank. */
  function CreateSubTask(objectives: seq<Objective>, objIdx: int, title: string): (r: seq<Objective>)
    ensures |r| == |objectives|
    ensures forall k :: 0 <= k < |r| && (k != objIdx || IsBlank(title)) ==> r[k] == objectives[k]
    ensures 0 <= objIdx < |r| && !IsBlank(title) ==>
      r[objIdx] == objectives[objIdx].(subTasks := objectives[objIdx].subTasks + [SubTask(title, false)])
  {
    TrimEmptyIffBlank(title);
    if Trim(title) != "" then
      seq(|objectives|, k requires 0 <= k < |objectives| =>
        if k == objIdx then objectives[k].(subTasks := objectives[k].subTasks + [SubTask(title, false)])
        else objectives[k])
    else objectives
  }

  /** `deleteObjective(idx)` and the subtask filter of `deleteSubTask`: drop the element at `i`. */
  function RemoveAt<T>(s: seq<T>, i: int): (r: seq<T>)
    ensures r == if 0 <= i < |s| then s[..i] + s[i + 1..] else s
  {
    if s == [] then []
    else (if i == 0 then [] else [s[0]]) + RemoveAt(s[1..], i - 1)
  }

  function DeleteObjective(objectives: seq<Objective>, idx: int): (r: seq<Objective>)
    ensures 0 <= idx < |objectives| ==>
      |r| == |objectives| - 1
      && (forall k :: 0 <= k < idx ==> r[k] == objectives[k])
      && (forall k :: idx <= k < |r| ==> r[k] == objectives[k + 1])
    ensures !(0 <= idx < |objectives|) ==> r == objectives
  {
    RemoveAt(objectives, idx)
  }

  // ----- Completion of a parent objective -----

  predicate AllDone(subTasks: seq<SubTask>) {
    forall j :: 0 <= j < |subTasks| ==> subTasks[j].isDone
  }

  /** The intended invariant: a parent with subtasks is done exactly when all of them are. */
  predicate Derived(o: Objective) {
    |o.subTasks| > 0 ==> o.isDone == AllDone(o.subTasks)
  }

  /** What `checkParentCompletion` makes of one objective. */
  function Rederived(o: Objective): (r: Objective)
    ensures Derived(r)
    ensures r.title == o.title && r.subTasks == o.subTasks && r.dueDate == o.dueDate && r.priority == o.priority
    ensures |o.subTasks| == 0 ==> r == o
  {
    if |o.subTasks| > 0 then o.(isDone := AllDone(o.subTasks)) else o
  }

  /** Every subtask set to `done`, titles and order kept. */
  function AllSetTo(subTasks: seq<SubTask>, done: bool): (r: seq<SubTask>)
    ensures |r| == |subTasks|
    ensures forall j :: 0 <= j < |r| ==> r[j] == SubTask(subTasks[j].title, done)
  {
    seq(|subTasks|, j requires 0 <= j < |subTasks| => subTasks[j].(isDone := done))
  }

  /** What `toggleObjective` makes of one objective. */
  function Toggled(o: Objective): (r: Objective)
    ensures r.isDone == !o.isDone
    ensures |r.subTasks| == |o.subTasks|
    ensures forall j :: 0 <= j < |r.subTasks| ==> r.subTasks[j] == SubTask(o.subTasks[j].title, r.isDone)
    ensures r.title == o.title && r.dueDate == o.dueDate && r.priority == o.priority
  {
    var flipped := o.(isDone := !o.isDone);
    if |o.subTasks| > 0 then flipped.(subTasks := AllSetTo(o.subTasks, flipped.isDone)) else flipped
  }

  /** Subtask `j` negated, everything else as it was. */
  function SubTaskToggled(o: Objective, j: int): (r: Objective)
    requires 0 <= j < |o.subTasks|
    ensures |r.subTasks| == |o.subTasks| && r.subTasks[j].isDone == !o.subTasks[j].isDone
    ensures r.subTasks[j].title == o.subTasks[j].title
    ensures forall k :: 0 <= k < |o.subTasks| && k != j ==> r.subTasks[k] == o.subTasks[k]
    ensures r.(subTasks := o.subTasks) == o
  {
    o.(subTasks := o.subTasks[j := o.subTasks[j].(isDone := !o.subTasks[j].isDone)])
  }

  /** Toggling a parent leaves it consistent with its subtasks. */
  lemma ToggledIsDerived(o: Objective)
    ensures Derived(Toggled(o))
  {
    var r := Toggled(o);
    if |o.subTasks| > 0 && !r.isDone {
      assert !r.subTasks[0].isDone;
    }
  }

  /** Toggling the last incomplete subtask marks the parent done. */
  lemma {:induction false} LastSubTaskCompletesParent(o: Objective, j: int)
    requires 0 <= j < |o.subTasks| && !o.subTasks[j].isDone
    requires forall k :: 0 <= k < |o.subTasks| && k != j ==> o.subTasks[k].isDone
    ensures Rederived(SubTaskToggled(o, j)).isDone
  {
    var r := SubTaskToggled(o, j);
    forall k | 0 <= k < |r.subTasks| ensures r.subTasks[k].isDone {
      if k != j {
        assert r.subTasks[k] == o.subTasks[k];
      }
    }
  }

  /** Toggling a subtask back to incomplete marks the parent incomplete. */
  lemma UncheckingSubTaskReopensParent(o: Objective, j: int)
    requires 0 <= j < |o.subTasks| && o.subTasks[j].isDone
    ensures !Rederived(SubTaskToggled(o, j)).isDone
  {
    assert !SubTaskToggled(o, j).subTasks[j].isDone;
  }

  /** Deleting the only subtask leaves the parent's completion as it was. */
  lemma DeletingLastSubTaskKeepsParent(o: Objective)
    requires |o.subTasks| == 1
    ensures Rederived(o.(subTasks := RemoveAt(o.subTasks, 0))).isDone == o.isDone
  {
  }

  /** Adding a subtask does not re-derive the parent: a done objective without subtasks
    * gains an open subtask and no longer satisfies `Derived`. */
  lemma CreateSubTaskCanBreakDerived(objectives: seq<Objective>, objIdx: int, title: string)
    requires 0 <= objIdx < |objectives| && !IsBlank(title)
    requires objectives[objIdx].isDone && objectives[objIdx].subTasks == []
    ensures Derived(objectives[objIdx])
    ensures !Derived(CreateSubTask(objectives, objIdx, title)[objIdx])
  {
    var r := CreateSubTask(objectives, objIdx, title);
    assert r[objIdx].subTasks == [SubTask(title, false)];
    assert r[objIdx].isDone;
    assert !r[objIdx].subTasks[0].isDone;
  }

  /** Toggling "t1" and then "t2" of an objective with two open subtasks completes it. */
  lemma TwoSubTaskScenario()
    ensures var o := Objective("X", false, [SubTask("t1", false), SubTask("t2", false)], None, Medium);
      var once := Rederived(SubTaskToggled(o, 0));
      !once.isDone && Rederived(SubTaskToggled(once, 1)).isDone
  {
    var o := Objective("X", false, [SubTask("t1", false), SubTask("t2", false)], None, Medium);
    var once := Rederived(SubTaskToggled(o, 0));
    assert !once.subTasks[1].isDone;
    LastSubTaskCompletesParent(once, 1);
  }

  // ----- The operations that assign into a copied array -----

  /** A fresh array holding the elements of `s` (`[...objectives]`). */
  method CopyToArray(s: seq<Objective>) returns (a: array<Objective>)
    ensures fresh(a) && a[..] == s
  {
    a := new Objective[|s|](k requires 0 <= k < |s| => s[k]);
  }

  /** `checkParentCompletion(objList, objIdx)`, in place. */
  method CheckParentCompletion(objList: array<Objective>, objIdx: int)
    requires 0 <= objIdx < objList.Length
    modifies objList
    ensures objList[..] == old(objList[..])[objIdx := Rederived(old(objList[objIdx]))]
  {
    var obj := objList[objIdx];
    if |obj.subTasks| > 0 && AllDone(obj.subTasks) {
      objList[objIdx] := obj.(isDone := true);
    } else if |obj.subTasks| > 0 {
      objList[objIdx] := obj.(isDone := false);
    }
  }

  /** `toggleObjective(idx)`; an index outside the list makes the source throw. */
  method ToggleObjective(objectives: seq<Objective>, idx: int) returns (updated: seq<Objective>)
    requires 0 <= idx < |objectives|
    ensures updated == objectives[idx := Toggled(objectives[idx])]
    ensures Derived(updated[idx])
  {
    var a := CopyToArray(objectives);
    var obj := a[idx];
    a[idx] := obj.(isDone := !obj.isDone);
    if |a[idx].subTasks| > 0 {
      a[idx] := a[idx].(subTasks := AllSetTo(a[idx].subTasks, a[idx].isDone));
    }
    updated := a[..];
    ToggledIsDerived(objectives[idx]);
  }

  /** `toggleSubTask(objIdx, subIdx)`; indices outside the lists make the source throw. */
  method ToggleSubTask(objectives: seq<Objective>, objIdx: int, subIdx: int) returns (updated: seq<Objective>)
    requires 0 <= objIdx < |objectives| && 0 <= subIdx < |objectives[objIdx].subTasks|
    ensures updated == objectives[objIdx := Rederived(SubTaskToggled(objectives[objIdx], subIdx))]
    ensures Derived(updated[objIdx])
  {
    var a := CopyToArray(objectives);
    var obj := a[objIdx];
    var st := obj.subTasks[subIdx];
    a[objIdx] := obj.(subTasks := obj.subTasks[subIdx := st.(isDone := !st.isDone)]);
    CheckParentCompletion(a, objIdx);
    updated := a[..];
  }

  /** `deleteSubTask(objIdx, subIdx)`; an objective index outside the list makes the source
    * throw, a subtask index outside its list removes nothing but still re-derives. */
  method DeleteSubTask(objectives: seq<Objective>, objIdx: int, subIdx: int) returns (updated: seq<Objective>)
    requires 0 <= objIdx < |objectives|
    ensures |updated| == |objectives|
    ensures forall k :: 0 <= k < |objectives| && k != objIdx ==> updated[k] == objectives[k]
    ensures updated[objIdx].subTasks == RemoveAt(objectives[objIdx].subTasks, subIdx)
    ensures updated[objIdx] == Rederived(objectives[objIdx].(subTasks := RemoveAt(objectives[objIdx].subTasks, subIdx)))
  {
    var a := CopyToArray(objectives);
    var obj := a[objIdx];
    a[objIdx] := obj.(subTasks := RemoveAt(obj.subTasks, subIdx));
    CheckParentCompletion(a, objIdx);
    updated := a[..];
  }
}
