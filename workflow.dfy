/**
 * `workflow.py`: a workflow holds an initial dataset and a list of steps;
 * computing it applies the steps left to right to a copy of the initial
 * dataset, and `then` appends a step in place.
 */
module Workflow {
  import opened Wrappers
  import opened DataSets
  import Node
  import SpatialSelectors
  import Binning
  import Aggregators

  /** A step instance of one of the registered step classes. */
  datatype Step =
    | PlainNode
    | Select(selector: SpatialSelectors.Selector)
    | Bin(binning: Binning.Directional)
    | SumStep(sum: Aggregators.Sum)
    | MeanStep(mean: Aggregators.Mean)
    | MaxStep(max: Aggregators.Max)

  function ClassOf(step: Step): Node.ClassRef {
    match step
    case PlainNode => Node.NodeClass
    case Select(sel) => SpatialSelectors.ClassOf(sel)
    case Bin(_) => Binning.DirectionalClass
    case SumStep(_) => Aggregators.SumClass
    case MeanStep(_) => Aggregators.MeanClass
    case MaxStep(_) => Aggregators.MaxClass
  }

  /**
   * `step.compute(dataset)`: the base `Node` returns nothing, a selector
   * its mask, binning the relabelled dataset, `Sum` and `Mean` an
   * aggregated dataset, `Max` the raw reduction.
   */
  function Apply(step: Step, d: Data, red: Aggregators.Reductions): (r: Result<Data>)
    ensures step.PlainNode? ==> r == Success(NoneValue)
    ensures step.Select? ==> (r.Success? <==> d.DataSet? && d.sets.Samples?)
    ensures step.Select? && r.Success? ==> r.value == MaskArray(SpatialSelectors.Eval(step.selector, d.sets.ds.geometry.positions))
    ensures step.SumStep? || step.MeanStep? ==> (r.Success? ==> r.value.DataSet? && r.value.sets.Aggregated?)
    ensures step.MaxStep? && r.Success? ==> r.value.Raw?
  {
    match step
    case PlainNode => Success(NoneValue)
    case Select(sel) =>
      var m :- SpatialSelectors.Compute(sel, d);
      Success(MaskArray(m))
    case Bin(b) => Binning.Compute(b, d)
    case SumStep(s) =>
      var a :- Aggregators.SumSpec(s, d, red);
      Success(DataSet(Aggregated(a)))
    case MeanStep(m) =>
      var a :- Aggregators.MeanSpec(m, d, red);
      Success(DataSet(Aggregated(a)))
    case MaxStep(m) => Aggregators.MaxSpec(m, d, red)
  }

  /** Feeding a step the outcome of what came before: an earlier exception propagates. */
  function AndThen(r: Result<Data>, step: Step, red: Aggregators.Reductions): Result<Data> {
    if r.Failure? then r else Apply(step, r.value, red)
  }

  /** The steps applied left to right, stopping at the first exception. */
  function Run(steps: seq<Step>, d: Data, red: Aggregators.Reductions): Result<Data> {
    if |steps| == 0 then Success(d)
    else
      var next :- Apply(steps[0], d, red);
      Run(steps[1..], next, red)
  }

  /** Running one more step is applying it to the result of running the others. */
  lemma {:induction false} RunSnoc(steps: seq<Step>, step: Step, d: Data, red: Aggregators.Reductions)
    ensures Run(steps + [step], d, red) == AndThen(Run(steps, d, red), step, red)
  {
    if |steps| == 0 {
      assert steps + [step] == [step];
      assert [step][1..] == [];
    } else {
      assert (steps + [step])[1..] == steps[1..] + [step];
      var first := Apply(steps[0], d, red);
      if first.Success? {
        RunSnoc(steps[1..], step, first.value, red);
      }
    }
  }

  /** The workflow class produced by `create_workflow`: its step field is typed by the union built at that moment. */
  datatype WorkflowType = WorkflowType(stepUnion: Node.UnionSchema)

  /** `create_workflow()`: builds the union of the step classes registered so far, so it fails when none are. */
  function CreateWorkflow(reg: Node.Registry): (r: Result<WorkflowType>)
    reads reg
    ensures r.Failure? <==> reg.registry == []
    ensures r.Failure? ==> r.error == RuntimeError("No Node types registered.")
    ensures r.Success? ==> forall c :: c in r.value.stepUnion.members <==> c in reg.registry
  {
    var u :- reg.BuildDiscriminatedUnion();
    Success(WorkflowType(u))
  }

  /** Validation of a step list against the union: each step must be an instance of a member class. */
  predicate Admits(t: WorkflowType, steps: seq<Step>) {
    forall i :: 0 <= i < |steps| ==> ClassOf(steps[i]) in t.stepUnion.members
  }

  class WorkFlow {
    const workflowType: WorkflowType
    const initialDataset: DataSets
    var steps: seq<Step>

    /** A validated instance; `steps` defaults to empty. */
    constructor (t: WorkflowType, initial: DataSets, steps0: seq<Step> := [])
      requires Admits(t, steps0)
      ensures workflowType == t && initialDataset == initial && steps == steps0
    {
      workflowType := t;
      initialDataset := initial;
      steps := steps0;
    }

    /** `then(step)`: appends in place, without validation, and returns the same workflow. */
    method Then(step: Step) returns (w: WorkFlow)
      modifies this
      ensures steps == old(steps) + [step]
      ensures w == this
    {
      steps := steps + [step];
      w := this;
    }

    /**
     * `compute()`: starts from a copy of the initial dataset and rebinds the
     * working value to each step's result in turn; the workflow itself,
     * its initial dataset included, is left as it was.
     */
    method Compute(red: Aggregators.Reductions) returns (r: Result<Data>)
      ensures r == Run(steps, DataSet(initialDataset), red)
    {
      var dataset := DataSet(initialDataset);
      var i := 0;
      while i < |steps|
        invariant 0 <= i <= |steps|
        invariant Run(steps, DataSet(initialDataset), red) == Run(steps[i..], dataset, red)
      {
        var next := Apply(steps[i], dataset, red);
        if next.Failure? {
          return Failure(next.error);
        }
        assert steps[i..][1..] == steps[i + 1..];
        dataset := next.value;
        i := i + 1;
      }
      r := Success(dataset);
    }
  }

  /**
   * `WorkFlow(...)` for the class `t`: steps that are not instances of the
   * union's classes are refused with a validation error.
   */
  method Instantiate(t: WorkflowType, initial: DataSets, steps: seq<Step>) returns (r: Result<WorkFlow>)
    ensures r.Failure? <==> !Admits(t, steps)
    ensures r.Failure? ==> r.error.ValidationError?
    ensures r.Success? ==> fresh(r.value) && r.value.steps == steps && r.value.initialDataset == initial && r.value.workflowType == t
  {
    if !Admits(t, steps) {
      return Failure(ValidationError("Input tag does not match any of the expected tags"));
    }
    var w := new WorkFlow(t, initial, steps);
    r := Success(w);
  }

  /** A workflow with no steps computes the initial dataset. */
  lemma RunNoSteps(d: Data, red: Aggregators.Reductions)
    ensures Run([], d, red) == Success(d)
  {
  }

  /**
   * A selector returns the bare mask, which has no field, so a sum right
   * after it raises `AttributeError` whatever the dataset.
   */
  lemma SelectThenSumFails(sel: SpatialSelectors.Selector, s: Aggregators.Sum, ds: SampleDataSet, red: Aggregators.Reductions)
    ensures Run([Select(sel), SumStep(s)], DataSet(Samples(ds)), red) == Failure(AttributeError("field"))
  {
    RunSnoc([Select(sel)], SumStep(s), DataSet(Samples(ds)), red);
  }

  /**
   * Binning followed by a sum hands the reduction the dataset with the
   * binning's labels as its groups, the field and mask untouched.
   */
  lemma BinThenSum(b: Binning.Directional, s: Aggregators.Sum, ds: SampleDataSet, red: Aggregators.Reductions)
    requires Binning.Compute(b, DataSet(Samples(ds))).Success?
    ensures var binned := Binning.Compute(b, DataSet(Samples(ds))).value.sets.ds;
      var out := Run([Bin(b), SumStep(s)], DataSet(Samples(ds)), red);
      var sum := Aggregators.SumOf(s, ds.name, red.sum(ds.field, ds.mask, binned.groups));
      binned.field == ds.field && binned.mask == ds.mask && binned.groups.Some? &&
      (out.Success? <==> sum.Success?) && (sum.Success? ==> out.value == DataSet(Aggregated(sum.value)))
  {
    RunSnoc([Bin(b)], SumStep(s), DataSet(Samples(ds)), red);
    Binning.ComputeLabelsEachPosition(b, ds);
  }
}
