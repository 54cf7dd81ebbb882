/** Synthetic series: several named series are aligned on the timestamp keys
    they all share (FormulaMap), and the formula is evaluated once per aligned
    timestamp (SyntheticResult). */
module Synthetic {
  import opened Ruby
  import opened Formula

  /** A formula parameter name, such as "x". */
  type Name = string
  /** A timestamp key exactly as OpenTSDB returns it; keys are only ever
      compared for equality. */
  type Key = string
  type Series = map<Key, int>
  /** The values of every parameter at one timestamp. */
  type Frame = map<Name, int>

  /** ts is a key of every series. */
  predicate InEvery(data: map<Name, Series>, ts: Key) {
    forall n :: n in data ==> ts in data[n]
  }

  function AllKeys(data: map<Name, Series>): set<Key> {
    set n, ts | n in data && ts in data[n] :: ts
  }

  /** The intersection of the key sets of all series (empty when there are
      no series). */
  function CommonKeys(data: map<Name, Series>): set<Key> {
    set ts | ts in AllKeys(data) && InEvery(data, ts)
  }

  /** A timestamp is common exactly when it is a key of every series. */
  lemma CommonKeysSpec(data: map<Name, Series>, ts: Key)
    requires data != map[]
    ensures ts in CommonKeys(data) <==> InEvery(data, ts)
  {
    if InEvery(data, ts) {
      var n :| n in data;
      assert ts in data[n];
    }
  }

  /** The frame at an aligned timestamp: every parameter mapped to its
      series' value there. */
  function AlignedFrame(data: map<Name, Series>, ts: Key): Frame
    requires InEvery(data, ts)
  {
    map n | n in data :: data[n][ts]
  }

  /** The reference alignment: one frame per common timestamp. */
  function Aligned(data: map<Name, Series>): map<Key, Frame> {
    map ts | ts in CommonKeys(data) :: AlignedFrame(data, ts)
  }

  /** The alignment the source computes after sampling the series `pick` as
      the universe of candidate timestamps. */
  function SampledFrames(data: map<Name, Series>, pick: Name): map<Key, Frame>
    requires pick in data
  {
    map ts | ts in data[pick] && InEvery(data, ts) :: AlignedFrame(data, ts)
  }

  /** Whichever series is sampled, the frames are those of the reference
      alignment: the outcome does not depend on the random choice. */
  lemma SampleIrrelevant(data: map<Name, Series>, pick: Name)
    requires pick in data
    ensures SampledFrames(data, pick) == Aligned(data)
  {
    forall ts ensures ts in SampledFrames(data, pick) <==> ts in Aligned(data) {
      CommonKeysSpec(data, ts);
    }
  }

  /** The frame build_hash would store for ts: when some series lacks ts
      its contribution is nil and there is no frame; otherwise the
      contributions are merged into one map. */
  function FrameAt(data: map<Name, Series>, ts: Key): (r: Option<Frame>)
    ensures r.Some? <==> InEvery(data, ts)
    ensures r.Some? ==> r.value.Keys == data.Keys && forall n :: n in data ==> r.value[n] == data[n][ts]
  {
    if exists n :: n in data && ts !in data[n] then None
    else Some(AlignedFrame(data, ts))
  }

  /** Aligns the named series by timestamp key. */
  class FormulaMap {
    const data: map<Name, Series>
    var parameters: map<Key, Frame>

    /** Walks the keys of the sampled series and builds a frame for each. */
    constructor (data: map<Name, Series>, pick: Name)
      requires pick in data
      ensures this.data == data
      ensures parameters == Aligned(data)
    {
      this.data := data;
      parameters := map[];
      new;
      var todo := data[pick].Keys;
      ghost var done: set<Key> := {};
      while todo != {}
        invariant this.data == data
        invariant todo !! done && todo + done == data[pick].Keys
        invariant parameters == map ts | ts in done && InEvery(data, ts) :: AlignedFrame(data, ts)
        decreases todo
      {
        var ts :| ts in todo;
        BuildHash(ts);
        todo, done := todo - {ts}, done + {ts};
      }
      assert parameters == SampledFrames(data, pick);
      SampleIrrelevant(data, pick);
    }

    /** Stores the frame for ts when every series has ts, and does nothing
      otherwise. */
    method BuildHash(ts: Key)
      modifies this`parameters
      ensures parameters ==
        if InEvery(data, ts) then old(parameters)[ts := AlignedFrame(data, ts)] else old(parameters)
    {
      var frame := FrameAt(data, ts);
      if frame.Some? {
        parameters := parameters[ts := frame.value];
      }
    }
  }

  /** The calculator's non-raising evaluate: a formula mentioning a variable
      the frame does not bind is not evaluated and yields nil (None); a
      formula whose variables are all bound yields its value, or raises the
      division by zero met while evaluating it. */
  function Calculator(formula: Expr, frame: Frame): (r: Try<Option<int>>)
    ensures r == Ok(None) <==> !(FreeVars(formula) <= frame.Keys)
    ensures r.Raised? ==> r.error == ZeroDivisionError && HasDivision(formula)
    ensures FreeVars(formula) <= frame.Keys ==>
      (forall v :: r == Ok(Some(v)) <==> Eval(formula, frame) == Ok(v)) &&
      (r.Raised? <==> Eval(formula, frame).Raised?)
  {
    if FreeVars(formula) <= frame.Keys then
      match Eval(formula, frame)
      case Ok(v) => Ok(Some(v))
      case Raised(e) => Raised(e)
    else
      Ok(None)
  }

  /** Every aligned frame is calculated without raising. */
  predicate AllEvaluate(formula: Expr, frames: map<Key, Frame>) {
    forall ts :: ts in frames ==> Calculator(formula, frames[ts]).Ok?
  }

  /** The calculator's outcome at every aligned timestamp (None for nil). */
  function Evaluated(formula: Expr, frames: map<Key, Frame>): map<Key, Option<int>>
    requires AllEvaluate(formula, frames)
  {
    map ts | ts in frames :: Calculator(formula, frames[ts]).value
  }

  /** A series derived by evaluating a formula over aligned series. */
  class SyntheticResult {
    const name: string
    const formula: Expr
    const data: map<Name, Series>
    var results: map<Key, Option<int>>

    /** The fields as they stand before the calculation runs. */
    constructor Init(name: string, formula: Expr, data: map<Name, Series>)
      ensures this.name == name && this.formula == formula && this.data == data
      ensures results == map[]
    {
      this.name := name;
      this.formula := formula;
      this.data := data;
      results := map[];
    }

    /** Evaluates the formula at every aligned timestamp, storing each value
        (nil where a variable is unbound); stops at the first frame that
        raises and reports its exception. */
    method Calculate(pick: Name) returns (failure: Option<Error>)
      requires pick in data
      modifies this`results
      ensures failure.None? <==> AllEvaluate(formula, Aligned(data))
      ensures failure.None? ==> results == old(results) + Evaluated(formula, Aligned(data))
      ensures failure.Some? ==>
        exists ts :: ts in Aligned(data) && Calculator(formula, Aligned(data)[ts]) == Raised(failure.value)
    {
      var formulaMap := new FormulaMap(data, pick);
      failure := EvaluateEach(formulaMap.parameters);
    }

    /** The loop of Calculate: visits the frames in some order, writing the
        formula's value for each into results, and stops at the first frame
        whose evaluation raises. */
    method EvaluateEach(frames: map<Key, Frame>) returns (failure: Option<Error>)
      modifies this`results
      ensures failure.None? <==> AllEvaluate(formula, frames)
      ensures failure.None? ==> results == old(results) + Evaluated(formula, frames)
      ensures failure.Some? ==> exists ts :: ts in frames && Calculator(formula, frames[ts]) == Raised(failure.value)
    {
      var todo := frames.Keys;
      ghost var computed: map<Key, Option<int>> := map[];
      while todo != {}
        invariant todo !! computed.Keys && todo + computed.Keys == frames.Keys
        invariant forall ts :: ts in computed ==> Calculator(formula, frames[ts]) == Ok(computed[ts])
        invariant results == old(results) + computed
        decreases todo
      {
        var ts :| ts in todo;
        var v := Calculator(formula, frames[ts]);
        if v.Raised? {
          return Some(v.error);
        }
        results := results[ts := v.value];
        computed := computed[ts := v.value];
        todo := todo - {ts};
      }
      assert computed == Evaluated(formula, frames);
      return None;
    }

    /** The number of data points computed. */
    function Length(): (n: nat)
      reads this
      ensures n == |results.Keys|
    {
      |results|
    }

    /** SyntheticResult.new: sets the fields and runs the calculation; an
        exception raised by the calculation escapes, and no object is
        returned. */
    static method New(name: string, formula: Expr, data: map<Name, Series>, pick: Name)
      returns (r: Try<SyntheticResult>)
      requires pick in data
      ensures r.Ok? <==> AllEvaluate(formula, Aligned(data))
      ensures r.Ok? ==> fresh(r.value) && r.value.name == name && r.value.formula == formula
      ensures r.Ok? ==> r.value.data == data && r.value.results == Evaluated(formula, Aligned(data))
      ensures r.Ok? ==> r.value.results.Keys == CommonKeys(data) && r.value.Length() == |CommonKeys(data)|
      ensures r.Raised? ==>
        exists ts :: ts in Aligned(data) && Calculator(formula, Aligned(data)[ts]) == Raised(r.error)
    {
      var s := new SyntheticResult.Init(name, formula, data);
      var failure := s.Calculate(pick);
      if failure.Some? {
        return Raised(failure.value);
      }
      assert s.results.Keys == CommonKeys(data);
      return Ok(s);
    }
  }

  /** A timestamp gets an entry exactly when every series has it, and the
      entry is the calculator's outcome on that timestamp's frame. */
  lemma ResultAt(formula: Expr, data: map<Name, Series>, ts: Key)
    requires data != map[]
    requires AllEvaluate(formula, Aligned(data))
    ensures ts in Evaluated(formula, Aligned(data)) <==> InEvery(data, ts)
    ensures InEvery(data, ts) ==>
      Ok(Evaluated(formula, Aligned(data))[ts]) == Calculator(formula, AlignedFrame(data, ts))
  {
    CommonKeysSpec(data, ts);
  }

  /** The two series of the alignment example: y has a timestamp, 125, that
      x lacks. */
  function SumExample(): map<Name, Series> {
    map["x" := map["123" := 1, "124" := 2], "y" := map["123" := 1, "124" := 2, "125" := 3]]
  }

  lemma SumExampleKeys()
    ensures CommonKeys(SumExample()) == {"123", "124"}
  {
    var data := SumExample();
    assert "x" in data;
    CommonKeysSpec(data, "123");
    CommonKeysSpec(data, "124");
    forall ts | ts in CommonKeys(data) ensures ts == "123" || ts == "124" {
      CommonKeysSpec(data, ts);
      assert ts in data["x"];
    }
  }

  lemma SumExampleFrames()
    ensures Aligned(SumExample()) == map["123" := map["x" := 1, "y" := 1], "124" := map["x" := 2, "y" := 2]]
  {
    SumExampleKeys();
    var data := SumExample();
    assert AlignedFrame(data, "123") == map["x" := 1, "y" := 1];
    assert AlignedFrame(data, "124") == map["x" := 2, "y" := 2];
  }

  /** x + y over x = {123: 1, 124: 2} and y = {123: 1, 124: 2, 125: 3} gives
      {123: 2, 124: 4}; 125 is missing from x and gets no value. */
  lemma SumOfTwoSeries()
    ensures AllEvaluate(Add(Var("x"), Var("y")), Aligned(SumExample()))
    ensures Evaluated(Add(Var("x"), Var("y")), Aligned(SumExample())) == map["123" := Some(2), "124" := Some(4)]
  {
    SumExampleFrames();
    var frames := map["123" := map["x" := 1, "y" := 1], "124" := map["x" := 2, "y" := 2]];
    assert Calculator(Add(Var("x"), Var("y")), frames["123"]) == Ok(Some(2));
    assert Calculator(Add(Var("x"), Var("y")), frames["124"]) == Ok(Some(4));
    assert frames.Keys == {"123", "124"};
  }

  /** x / y where y is 0 at one shared timestamp raises, so no synthetic
      result is produced. */
  lemma DivisionByZeroAborts()
    ensures var data := map["x" := map["123" := 10, "124" := 20, "125" := 30], "y" := map["123" := 1, "124" := 0, "125" := 3]];
      !AllEvaluate(Div(Var("x"), Var("y")), Aligned(data))
  {
    var data := map["x" := map["123" := 10, "124" := 20, "125" := 30], "y" := map["123" := 1, "124" := 0, "125" := 3]];
    assert "x" in data;
    CommonKeysSpec(data, "124");
    var frame := map["x" := 20, "y" := 0];
    assert AlignedFrame(data, "124") == frame;
    assert FreeVars(Div(Var("x"), Var("y"))) == {"x", "y"} <= frame.Keys;
    assert Eval(Div(Var("x"), Var("y")), frame) == Raised(ZeroDivisionError);
    assert Calculator(Div(Var("x"), Var("y")), Aligned(data)["124"]) == Raised(ZeroDivisionError);
  }

  /** A formula over a variable no series provides is not an error: every
      aligned timestamp gets nil. */
  lemma UnboundVariableGivesNil()
    ensures var data := map["x" := map["1" := 1]];
      AllEvaluate(Var("z"), Aligned(data)) && Evaluated(Var("z"), Aligned(data)) == map["1" := None]
  {
    var data := map["x" := map["1" := 1]];
    assert "x" in data;
    CommonKeysSpec(data, "1");
    forall ts | ts in CommonKeys(data) ensures ts == "1" {
      CommonKeysSpec(data, ts);
      assert ts in data["x"];
    }
    assert AlignedFrame(data, "1") == map["x" := 1];
    assert Calculator(Var("z"), map["x" := 1]) == Ok(None);
  }
}
