/**
 The savings-goal collection (`useSavingsGoals`): goals, newest first, with
 add / update / delete by id, deposits into a goal, and the derived progress
 percentage, totals and count of completed goals. The generated id and the
 creation timestamp are parameters of `AddGoal`.
 */
module SavingsGoals {
  import opened Records
  import opened Lexical

  /**
   The record `addGoal` stores: a generated id, which an `id` of the input
   overrides, then the input's fields, then `currentAmount` (the input's when
   truthy, else 0) and the creation timestamp, which always win.
   */
  function NewGoal(input: Record, id: string, createdAt: string): (r: Record)
    ensures r.Keys == input.Keys + {"id", "currentAmount", "createdAt"}
    ensures r["createdAt"] == Str(createdAt)
    ensures r["id"] == if "id" in input then input["id"] else Str(id)
    ensures r["currentAmount"] == if Truthy(Get(input, "currentAmount")) then input["currentAmount"] else Num(0.0)
    ensures forall k :: k in input && k != "currentAmount" && k != "createdAt" ==> r[k] == input[k]
  {
    var current := if Truthy(Get(input, "currentAmount")) then input["currentAmount"] else Num(0.0);
    (map["id" := Str(id)] + input)["currentAmount" := current]["createdAt" := Str(createdAt)]
  }

  /** The goal after `goal.currentAmount = Number(goal.currentAmount) + Number(amount)`. */
  function Deposit(goal: Record, amount: real): (r: Record)
    ensures r.Keys == goal.Keys + {"currentAmount"}
    ensures r["currentAmount"].Num? && NumberOf(Get(r, "currentAmount")) == NumberOf(Get(goal, "currentAmount")) + amount
    ensures forall k :: k in goal && k != "currentAmount" ==> r[k] == goal[k]
  {
    goal["currentAmount" := Num(NumberOf(Get(goal, "currentAmount")) + amount)]
  }

  /**
   The collection after a deposit by id: the first goal holding `id` takes the
   deposit and no other goal changes; without such a goal nothing changes.
   */
  function DepositFirst(s: seq<Record>, id: Option<Value>, amount: real): (r: seq<Record>)
    ensures |r| == |s|
    ensures FindIndex(s, id) == -1 ==> r == s
    ensures var i := FindIndex(s, id);
      0 <= i ==> r[i] == Deposit(s[i], amount) && forall j :: 0 <= j < |s| && j != i ==> r[j] == s[j]
  {
    var i := FindIndex(s, id);
    if i == -1 then s else s[i := Deposit(s[i], amount)]
  }

  class GoalStore {
    /** `goals.value`, newest first. */
    var goals: seq<Record>

    /** The collection as loaded at start-up. */
    constructor (initial: seq<Record>)
      ensures goals == initial
    {
      goals := initial;
    }

    /** `addGoal`: the new goal goes in front, every other one moves up by one. */
    method AddGoal(goal: Record, id: string, createdAt: string)
      modifies this
      ensures goals == [NewGoal(goal, id, createdAt)] + old(goals)
    {
      goals := [NewGoal(goal, id, createdAt)] + goals;
    }

    /** `updateGoal`: merges `updates` into the first goal holding `id`, if any. */
    method UpdateGoal(id: Option<Value>, updates: Record)
      modifies this
      ensures goals == UpdateFirst(old(goals), id, updates)
    {
      var index := FindIndex(goals, id);
      if index != -1 {
        goals := goals[index := Merge(goals[index], updates)];
      }
    }

    /** `deleteGoal`: splices out the first goal holding `id`, if any. */
    method DeleteGoal(id: Option<Value>)
      modifies this
      ensures goals == RemoveFirst(old(goals), id)
    {
      var index := FindIndex(goals, id);
      if index != -1 {
        goals := goals[..index] + goals[index + 1..];
      }
    }

    /** `addToGoal`: adds `amount` to the `currentAmount` of the first goal holding `id`, if any. */
    method AddToGoal(id: Option<Value>, amount: real)
      modifies this
      ensures goals == DepositFirst(old(goals), id, amount)
    {
      var index := FindIndex(goals, id);
      if index != -1 {
        goals := goals[index := Deposit(goals[index], amount)];
      }
    }
  }

  /**
   `getProgress(goal)`: the percentage saved, 0 for a goal without a (truthy)
   target, otherwise `min(100, current / target * 100)` whatever the target's
   sign, and so never above 100.
   */
  function GetProgress(goal: Record): (p: real)
    ensures !Truthy(Get(goal, "targetAmount")) ==> p == 0.0
    ensures var current, target := NumberOf(Get(goal, "currentAmount")), NumberOf(Get(goal, "targetAmount"));
      Truthy(Get(goal, "targetAmount")) && target != 0.0 ==>
        p == (if current / target * 100.0 < 100.0 then current / target * 100.0 else 100.0)
    ensures p <= 100.0
  {
    var target := NumberOf(Get(goal, "targetAmount"));
    if !Truthy(Get(goal, "targetAmount")) || target == 0.0 then 0.0
    else
      var percent := NumberOf(Get(goal, "currentAmount")) / target * 100.0;
      if percent < 100.0 then percent else 100.0
  }

  /**
   With a positive target, progress is `min(100, current / target * 100)`: it
   is 100 once the saved amount reaches the target, and not negative while
   the saved amount is not negative.
   */
  lemma ProgressClamped(goal: Record)
    requires NumberOf(Get(goal, "targetAmount")) > 0.0
    ensures var current, target := NumberOf(Get(goal, "currentAmount")), NumberOf(Get(goal, "targetAmount"));
      && GetProgress(goal) == (if current / target * 100.0 < 100.0 then current / target * 100.0 else 100.0)
      && (current >= target ==> GetProgress(goal) == 100.0)
      && (current >= 0.0 ==> GetProgress(goal) >= 0.0)
  {
  }

  /** `totalSaved`: the saved amounts added up, never negative while no goal's is. */
  function TotalSaved(gs: seq<Record>): (total: real)
    ensures (forall g :: g in gs ==> NumberOf(Get(g, "currentAmount")) >= 0.0) ==> total >= 0.0
  {
    SumFieldNonNegative(gs, "currentAmount");
    SumField(gs, "currentAmount")
  }

  /** `totalTarget`: the target amounts added up, never negative while no goal's is. */
  function TotalTarget(gs: seq<Record>): (total: real)
    ensures (forall g :: g in gs ==> NumberOf(Get(g, "targetAmount")) >= 0.0) ==> total >= 0.0
  {
    SumFieldNonNegative(gs, "targetAmount");
    SumField(gs, "targetAmount")
  }

  /** A deposit into a goal that exists raises the total saved by exactly the amount and leaves the total target alone. */
  lemma DepositMovesTotalSaved(gs: seq<Record>, id: Option<Value>, amount: real)
    ensures TotalSaved(DepositFirst(gs, id, amount)) == TotalSaved(gs) + (if FindIndex(gs, id) == -1 then 0.0 else amount)
    ensures TotalTarget(DepositFirst(gs, id, amount)) == TotalTarget(gs)
  {
  }

  /** A new goal adds its starting amount (0 unless the input gives a truthy one) to the total saved. */
  lemma AddGoalMovesTotals(input: Record, id: string, createdAt: string, gs: seq<Record>)
    ensures TotalSaved([NewGoal(input, id, createdAt)] + gs)
            == TotalSaved(gs) + (if Truthy(Get(input, "currentAmount")) then NumberOf(Get(input, "currentAmount")) else 0.0)
    ensures TotalTarget([NewGoal(input, id, createdAt)] + gs) == TotalTarget(gs) + NumberOf(Get(input, "targetAmount"))
  {
  }

  /** Neither total depends on the order of the goals. */
  lemma TotalsIgnoreOrder(a: seq<Record>, b: seq<Record>)
    requires multiset(a) == multiset(b)
    ensures TotalSaved(a) == TotalSaved(b) && TotalTarget(a) == TotalTarget(b)
  {
    SumFieldPermutation(a, b, "currentAmount");
    SumFieldPermutation(a, b, "targetAmount");
  }

  /** `a >= b` as JavaScript compares two field values. */
  predicate JsGe(a: Option<Value>, b: Option<Value>)
  {
    match (a, b)
    case (Some(Str(x)), Some(Str(y))) => LexLe(y, x)
    case (None, _) => false
    case (_, None) => false
    case _ => NumberOf(a) >= NumberOf(b)
  }

  /** `g.currentAmount >= g.targetAmount`. */
  predicate IsCompleted(g: Record)
  {
    JsGe(Get(g, "currentAmount"), Get(g, "targetAmount"))
  }

  /** `completedGoals`: how many goals have reached their target; all of them exactly when every goal has. */
  function CompletedGoals(gs: seq<Record>): (n: nat)
    ensures n <= |gs|
    ensures n == 0 <==> forall g :: g in gs ==> !IsCompleted(g)
    ensures n == |gs| <==> forall g :: g in gs ==> IsCompleted(g)
  {
    FilterKeepsAll(gs, IsCompleted);
    |Filter(gs, IsCompleted)|
  }

  /**
   While every target is a number, a deposit of a non-negative amount never
   takes a goal off the completed count.
   */
  lemma DepositKeepsGoalsCompleted(gs: seq<Record>, id: Option<Value>, amount: real)
    requires amount >= 0.0
    requires forall g :: g in gs ==> Get(g, "targetAmount").Some? && Get(g, "targetAmount").value.Num?
    ensures CompletedGoals(DepositFirst(gs, id, amount)) >= CompletedGoals(gs)
  {
    var after := DepositFirst(gs, id, amount);
    forall i | 0 <= i < |gs| && IsCompleted(gs[i])
      ensures IsCompleted(after[i])
    {
      assert gs[i] in gs;
    }
    FilterCountMonotone(gs, after, IsCompleted);
  }

  /** Depositing 50 twice into a goal of 80 that starts at 0 completes it. */
  method TwoDepositsScenario()
  {
    var id := Some(Str("g1"));
    var goal := map["id" := Str("g1"), "name" := Str("Bike"), "targetAmount" := Num(80.0), "currentAmount" := Num(0.0)];
    var store := new GoalStore([goal]);
    store.AddToGoal(id, 50.0);
    store.AddToGoal(id, 50.0);
    var g := store.goals[0];
    assert Get(g, "currentAmount") == Some(Num(100.0));
    assert GetProgress(g) == 100.0;
    assert CompletedGoals(store.goals) == 1;
  }
}
